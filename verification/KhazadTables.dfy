/**
  The eight lookup tables of Khazad (`NXTservices/khazad.c:40-574`), indexed by a byte, and
  the S-box they are built from.  Each is a decision tree on the index bits, most significant
  first, so the entries stand in index order.
 */
module KhazadTables {

  function T0(x: bv8): bv64 {
    if x & 0x80 == 0 then
     if x & 0x40 == 0 then
      if x & 0x20 == 0 then
       if x & 0x10 == 0 then
        if x & 0x08 == 0 then
         if x & 0x04 == 0 then
          if x & 2 == 0 then (if x & 1 == 0 then 0xbad3d268bbb96a01 else 0x54fc4d19e59a66b1) else (if x & 1 == 0 then 0x2f71bc93e26514cd else 0x749ccdb925871b51)
         else
          if x & 2 == 0 then (if x & 1 == 0 then 0x53f55102f7a257a4 else 0xd3686bb8d0d6be03) else (if x & 1 == 0 then 0xd26b6fbdd6deb504 else 0x4dd72964b35285fe)
        else
         if x & 0x04 == 0 then
          if x & 2 == 0 then (if x & 1 == 0 then 0x50f05d0dfdba4aad else 0xace98a26cf09e063) else (if x & 1 == 0 then 0x8d8a0e83091c9684 else 0xbfdcc679a5914d1a)
         else
          if x & 2 == 0 then (if x & 1 == 0 then 0x7090ddad3da7374d else 0x52f65507f1aa5ca3) else (if x & 1 == 0 then 0x9ab352c87ba417e1 else 0x4cd42d61b55a8ef9)
       else
        if x & 0x08 == 0 then
         if x & 0x04 == 0 then
          if x & 2 == 0 then (if x & 1 == 0 then 0xea238f65460320ac else 0xd56273a6c4e68411) else (if x & 1 == 0 then 0x97a466f155cc68c2 else 0xd16e63b2dcc6a80d)
         else
          if x & 2 == 0 then (if x & 1 == 0 then 0x3355ccffaa85d099 else 0x51f35908fbb241aa) else (if x & 1 == 0 then 0x5bed712ac7e20f9c else 0xa6f7a204f359ae55)
        else
         if x & 0x04 == 0 then
          if x & 2 == 0 then (if x & 1 == 0 then 0xde7f5f81febec120 else 0x48d83d75ad7aa2e5) else (if x & 1 == 0 then 0xa8e59a32d729cc7f else 0x99b65ec771bc0ae8)
         else
          if x & 2 == 0 then (if x & 1 == 0 then 0xdb704b90e096e63b else 0x3256c8faac8ddb9e) else (if x & 1 == 0 then 0xb7c4e65195d11522 else 0xfc19d72b32b3aace)
      else
       if x & 0x10 == 0 then
        if x & 0x08 == 0 then
         if x & 0x04 == 0 then
          if x & 2 == 0 then (if x & 1 == 0 then 0xe338ab48704b7393 else 0x9ebf42dc63843bfd) else (if x & 1 == 0 then 0x91ae7eef41fc52d0 else 0x9bb056cd7dac1ce6)
         else
          if x & 2 == 0 then (if x & 1 == 0 then 0xe23baf4d76437894 else 0xbbd0d66dbdb16106) else (if x & 1 == 0 then 0x41c319589b32f1da else 0x6eb2a5cb7957e517)
        else
         if x & 0x04 == 0 then
          if x & 2 == 0 then (if x & 1 == 0 then 0xa5f2ae0bf941b35c else 0xcb400bc08016564b) else (if x & 1 == 0 then 0x6bbdb1da677fc20c else 0x95a26efb59dc7ecc)
         else
          if x & 2 == 0 then (if x & 1 == 0 then 0xa1febe1fe1619f40 else 0xf308eb1810cbc3e3) else (if x & 1 == 0 then 0xb1cefe4f81e12f30 else 0x0206080a0c10160e)
       else
        if x & 0x08 == 0 then
         if x & 0x04 == 0 then
          if x & 2 == 0 then (if x & 1 == 0 then 0xcc4917db922e675e else 0xc45137f3a26e3f66) else (if x & 1 == 0 then 0x1d2774694ee8cf53 else 0x143c504478a09c6c)
         else
          if x & 2 == 0 then (if x & 1 == 0 then 0xc3582be8b0560e73 else 0x63a591f2573f9a34) else (if x & 1 == 0 then 0xda734f95e69eed3c else 0x5de76934d3d2358e)
        else
         if x & 0x04 == 0 then
          if x & 2 == 0 then (if x & 1 == 0 then 0x5fe1613edfc22380 else 0xdc79578bf2aed72e) else (if x & 1 == 0 then 0x7d87e99413cf486e else 0xcd4a13de94266c59)
         else
          if x & 2 == 0 then (if x & 1 == 0 then 0x7f81e19e1fdf5e60 else 0x5aee752fc1ea049b) else (if x & 1 == 0 then 0x6cb4adc17547f319 else 0x5ce46d31d5da3e89)
     else
      if x & 0x20 == 0 then
       if x & 0x10 == 0 then
        if x & 0x08 == 0 then
         if x & 0x04 == 0 then
          if x & 2 == 0 then (if x & 1 == 0 then 0xf704fb0c08ebefff else 0x266a98bed42d47f2) else (if x & 1 == 0 then 0xff1cdb2438abb7c7 else 0xed2a937e543b11b9)
         else
          if x & 2 == 0 then (if x & 1 == 0 then 0xe825876f4a1336a2 else 0x9dba4ed3699c26f4) else (if x & 1 == 0 then 0x6fb1a1ce7f5fee10 else 0x8e8f028c03048b8d)
        else
         if x & 0x04 == 0 then
          if x & 2 == 0 then (if x & 1 == 0 then 0x192b647d56c8e34f else 0xa0fdba1ae7699447) else (if x & 1 == 0 then 0xf00de7171ad3deea else 0x89861e97113cba98)
         else
          if x & 2 == 0 then (if x & 1 == 0 then 0x0f113c332278692d else 0x07091c1b12383115) else (if x & 1 == 0 then 0xafec8629c511fd6a else 0xfb10cb30208b9bdb)
       else
        if x & 0x08 == 0 then
         if x & 0x04 == 0 then
          if x & 2 == 0 then (if x & 1 == 0 then 0x0818202830405838 else 0x153f54417ea8976b) else (if x & 1 == 0 then 0x0d1734392e687f23 else 0x040c101418202c1c)
         else
          if x & 2 == 0 then (if x & 1 == 0 then 0x0103040506080b07 else 0x64ac8de94507ab21) else (if x & 1 == 0 then 0xdf7c5b84f8b6ca27 else 0x769ac5b329970d5f)
        else
         if x & 0x04 == 0 then
          if x & 2 == 0 then (if x & 1 == 0 then 0x798bf9800bef6472 else 0xdd7a538ef4a6dc29) else (if x & 1 == 0 then 0x3d47f4c98ef5b2b3 else 0x163a584e74b08a62)
         else
          if x & 2 == 0 then (if x & 1 == 0 then 0x3f41fcc382e5a4bd else 0x3759dcebb2a5fc85) else (if x & 1 == 0 then 0x6db7a9c4734ff81e else 0x3848e0d890dd95a8)
      else
       if x & 0x10 == 0 then
        if x & 0x08 == 0 then
         if x & 0x04 == 0 then
          if x & 2 == 0 then (if x & 1 == 0 then 0xb9d6de67b1a17708 else 0x7395d1a237bf2a44) else (if x & 1 == 0 then 0xe926836a4c1b3da5 else 0x355fd4e1beb5ea8b)
         else
          if x & 2 == 0 then (if x & 1 == 0 then 0x55ff491ce3926db6 else 0x7193d9a83baf3c4a) else (if x & 1 == 0 then 0x7b8df18a07ff727c else 0x8c890a860f149d83)
        else
         if x & 0x04 == 0 then
          if x & 2 == 0 then (if x & 1 == 0 then 0x7296d5a731b72143 else 0x88851a921734b19f) else (if x & 1 == 0 then 0xf607ff090ee3e4f8 else 0x2a7ea882fc4d33d6)
         else
          if x & 2 == 0 then (if x & 1 == 0 then 0x3e42f8c684edafba else 0x5ee2653bd9ca2887) else (if x & 1 == 0 then 0x27699cbbd2254cf5 else 0x46ca0543890ac0cf)
       else
        if x & 0x08 == 0 then
         if x & 0x04 == 0 then
          if x & 2 == 0 then (if x & 1 == 0 then 0x0c14303c28607424 else 0x65af89ec430fa026) else (if x & 1 == 0 then 0x68b8bdd56d67df05 else 0x61a399f85b2f8c3a)
         else
          if x & 2 == 0 then (if x & 1 == 0 then 0x03050c0f0a181d09 else 0xc15e23e2bc46187d) else (if x & 1 == 0 then 0x57f94116ef827bb8 else 0xd6677fa9cefe9918)
        else
         if x & 0x04 == 0 then
          if x & 2 == 0 then (if x & 1 == 0 then 0xd976439aec86f035 else 0x58e87d25cdfa1295) else (if x & 1 == 0 then 0xd875479fea8efb32 else 0x66aa85e34917bd2f)
         else
          if x & 2 == 0 then (if x & 1 == 0 then 0xd7647bacc8f6921f else 0x3a4ee8d29ccd83a6) else (if x & 1 == 0 then 0xc84507cf8a0e4b42 else 0x3c44f0cc88fdb9b4)
    else
     if x & 0x40 == 0 then
      if x & 0x20 == 0 then
       if x & 0x10 == 0 then
        if x & 0x08 == 0 then
         if x & 0x04 == 0 then
          if x & 2 == 0 then (if x & 1 == 0 then 0xfa13cf35268390dc else 0x96a762f453c463c5) else (if x & 1 == 0 then 0xa7f4a601f551a552 else 0x98b55ac277b401ef)
         else
          if x & 2 == 0 then (if x & 1 == 0 then 0xec29977b52331abe else 0xb8d5da62b7a97c0f) else (if x & 1 == 0 then 0xc7543bfca876226f else 0xaeef822cc319f66d)
        else
         if x & 0x04 == 0 then
          if x & 2 == 0 then (if x & 1 == 0 then 0x69bbb9d06b6fd402 else 0x4bdd317aa762bfec) else (if x & 1 == 0 then 0xabe0963ddd31d176 else 0xa9e69e37d121c778)
         else
          if x & 2 == 0 then (if x & 1 == 0 then 0x67a981e64f1fb628 else 0x0a1e28223c504e36) else (if x & 1 == 0 then 0x47c901468f02cbc8 else 0xf20bef1d16c3c8e4)
       else
        if x & 0x08 == 0 then
         if x & 0x04 == 0 then
          if x & 2 == 0 then (if x & 1 == 0 then 0xb5c2ee5b99c1032c else 0x226688aacc0d6bee) else (if x & 1 == 0 then 0xe532b356647b4981 else 0xee2f9f715e230cb0)
         else
          if x & 2 == 0 then (if x & 1 == 0 then 0xbedfc27ca399461d else 0x2b7dac87fa4538d1) else (if x & 1 == 0 then 0x819e3ebf217ce2a0 else 0x1236485a6c90a67e)
        else
         if x & 0x04 == 0 then
          if x & 2 == 0 then (if x & 1 == 0 then 0x839836b52d6cf4ae else 0x1b2d6c775ad8f541) else (if x & 1 == 0 then 0x0e1238362470622a else 0x23658cafca0560e9)
         else
          if x & 2 == 0 then (if x & 1 == 0 then 0xf502f30604fbf9f1 else 0x45cf094c8312ddc6) else (if x & 1 == 0 then 0x216384a5c61576e7 else 0xce4f1fd19e3e7150)
      else
       if x & 0x10 == 0 then
        if x & 0x08 == 0 then
         if x & 0x04 == 0 then
          if x & 2 == 0 then (if x & 1 == 0 then 0x49db3970ab72a9e2 else 0x2c74b09ce87d09c4) else (if x & 1 == 0 then 0xf916c33a2c9b8dd5 else 0xe637bf596e635488)
         else
          if x & 2 == 0 then (if x & 1 == 0 then 0xb6c7e25493d91e25 else 0x2878a088f05d25d8) else (if x & 1 == 0 then 0x17395c4b72b88165 else 0x829b32b02b64ffa9)
        else
         if x & 0x04 == 0 then
          if x & 2 == 0 then (if x & 1 == 0 then 0x1a2e68725cd0fe46 else 0x8b80169d1d2cac96) else (if x & 1 == 0 then 0xfe1fdf213ea3bcc0 else 0x8a8312981b24a791)
         else
          if x & 2 == 0 then (if x & 1 == 0 then 0x091b242d3648533f else 0xc94603ca8c064045) else (if x & 1 == 0 then 0x879426a1354cd8b2 else 0x4ed2256bb94a98f7)
       else
        if x & 0x08 == 0 then
         if x & 0x04 == 0 then
          if x & 2 == 0 then (if x & 1 == 0 then 0xe13ea3427c5b659d else 0x2e72b896e46d1fca) else (if x & 1 == 0 then 0xe431b75362734286 else 0xe03da7477a536e9a)
         else
          if x & 2 == 0 then (if x & 1 == 0 then 0xeb208b60400b2bab else 0x90ad7aea47f459d7) else (if x & 1 == 0 then 0xa4f1aa0eff49b85b else 0x1e22786644f0d25a)
        else
         if x & 0x04 == 0 then
          if x & 2 == 0 then (if x & 1 == 0 then 0x85922eab395ccebc else 0x60a09dfd5d27873d) else (if x & 1 == 0 then 0x0000000000000000 else 0x256f94b1de355afb)
         else
          if x & 2 == 0 then (if x & 1 == 0 then 0xf401f70302f3f2f6 else 0xf10ee3121cdbd5ed) else (if x & 1 == 0 then 0x94a16afe5fd475cb else 0x0b1d2c273a584531)
     else
      if x & 0x20 == 0 then
       if x & 0x10 == 0 then
        if x & 0x08 == 0 then
         if x & 0x04 == 0 then
          if x & 2 == 0 then (if x & 1 == 0 then 0xe734bb5c686b5f8f else 0x759fc9bc238f1056) else (if x & 1 == 0 then 0xef2c9b74582b07b7 else 0x345cd0e4b8bde18c)
         else
          if x & 2 == 0 then (if x & 1 == 0 then 0x3153c4f5a695c697 else 0xd46177a3c2ee8f16) else (if x & 1 == 0 then 0xd06d67b7dacea30a else 0x869722a43344d3b5)
        else
         if x & 0x04 == 0 then
          if x & 2 == 0 then (if x & 1 == 0 then 0x7e82e59b19d75567 else 0xadea8e23c901eb64) else (if x & 1 == 0 then 0xfd1ad32e34bba1c9 else 0x297ba48df6552edf)
         else
          if x & 2 == 0 then (if x & 1 == 0 then 0x3050c0f0a09dcd90 else 0x3b4decd79ac588a1) else (if x & 1 == 0 then 0x9fbc46d9658c30fa else 0xf815c73f2a9386d2)
       else
        if x & 0x08 == 0 then
         if x & 0x04 == 0 then
          if x & 2 == 0 then (if x & 1 == 0 then 0xc6573ff9ae7e2968 else 0x13354c5f6a98ad79) else (if x & 1 == 0 then 0x060a181e14303a12 else 0x050f14111e28271b)
         else
          if x & 2 == 0 then (if x & 1 == 0 then 0xc55233f6a4663461 else 0x113344556688bb77) else (if x & 1 == 0 then 0x7799c1b62f9f0658 else 0x7c84ed9115c74369)
        else
         if x & 0x04 == 0 then
          if x & 2 == 0 then (if x & 1 == 0 then 0x7a8ef58f01f7797b else 0x7888fd850de76f75) else (if x & 1 == 0 then 0x365ad8eeb4adf782 else 0x1c24706c48e0c454)
         else
          if x & 2 == 0 then (if x & 1 == 0 then 0x394be4dd96d59eaf else 0x59eb7920cbf21992) else (if x & 1 == 0 then 0x1828607850c0e848 else 0x56fa4513e98a70bf)
      else
       if x & 0x10 == 0 then
        if x & 0x08 == 0 then
         if x & 0x04 == 0 then
          if x & 2 == 0 then (if x & 1 == 0 then 0xb3c8f6458df1393e else 0xb0cdfa4a87e92437) else (if x & 1 == 0 then 0x246c90b4d83d51fc else 0x206080a0c01d7de0)
         else
          if x & 2 == 0 then (if x & 1 == 0 then 0xb2cbf2408bf93239 else 0x92ab72e04be44fd9) else (if x & 1 == 0 then 0xa3f8b615ed71894e else 0xc05d27e7ba4e137a)
        else
         if x & 0x04 == 0 then
          if x & 2 == 0 then (if x & 1 == 0 then 0x44cc0d49851ad6c1 else 0x62a695f751379133) else (if x & 1 == 0 then 0x103040506080b070 else 0xb4c1ea5e9fc9082b)
         else
          if x & 2 == 0 then (if x & 1 == 0 then 0x84912aae3f54c5bb else 0x43c511529722e7d4) else (if x & 1 == 0 then 0x93a876e54dec44de else 0xc25b2fedb65e0574)
       else
        if x & 0x08 == 0 then
         if x & 0x04 == 0 then
          if x & 2 == 0 then (if x & 1 == 0 then 0x4ade357fa16ab4eb else 0xbddace73a9815b14) else (if x & 1 == 0 then 0x8f8c0689050c808a else 0x2d77b499ee7502c3)
         else
          if x & 2 == 0 then (if x & 1 == 0 then 0xbcd9ca76af895013 else 0x9cb94ad66f942df3) else (if x & 1 == 0 then 0x6abeb5df6177c90b else 0x40c01d5d9d3afadd)
        else
         if x & 0x04 == 0 then
          if x & 2 == 0 then (if x & 1 == 0 then 0xcf4c1bd498367a57 else 0xa2fbb210eb798249) else (if x & 1 == 0 then 0x809d3aba2774e9a7 else 0x4fd1216ebf4293f0)
         else
          if x & 2 == 0 then (if x & 1 == 0 then 0x1f217c6342f8d95d else 0xca430fc5861e5d4c) else (if x & 1 == 0 then 0xaae39238db39da71 else 0x42c61557912aecd3)
  }

  function T1(x: bv8): bv64 {
    if x & 0x80 == 0 then
     if x & 0x40 == 0 then
      if x & 0x20 == 0 then
       if x & 0x10 == 0 then
        if x & 0x08 == 0 then
         if x & 0x04 == 0 then
          if x & 2 == 0 then (if x & 1 == 0 then 0xd3ba68d2b9bb016a else 0xfc54194d9ae5b166) else (if x & 1 == 0 then 0x712f93bc65e2cd14 else 0x9c74b9cd8725511b)
         else
          if x & 2 == 0 then (if x & 1 == 0 then 0xf5530251a2f7a457 else 0x68d3b86bd6d003be) else (if x & 1 == 0 then 0x6bd2bd6fded604b5 else 0xd74d642952b3fe85)
        else
         if x & 0x04 == 0 then
          if x & 2 == 0 then (if x & 1 == 0 then 0xf0500d5dbafdad4a else 0xe9ac268a09cf63e0) else (if x & 1 == 0 then 0x8a8d830e1c098496 else 0xdcbf79c691a51a4d)
         else
          if x & 2 == 0 then (if x & 1 == 0 then 0x9070addda73d4d37 else 0xf6520755aaf1a35c) else (if x & 1 == 0 then 0xb39ac852a47be117 else 0xd44c612d5ab5f98e)
       else
        if x & 0x08 == 0 then
         if x & 0x04 == 0 then
          if x & 2 == 0 then (if x & 1 == 0 then 0x23ea658f0346ac20 else 0x62d5a673e6c41184) else (if x & 1 == 0 then 0xa497f166cc55c268 else 0x6ed1b263c6dc0da8)
         else
          if x & 2 == 0 then (if x & 1 == 0 then 0x5533ffcc85aa99d0 else 0xf3510859b2fbaa41) else (if x & 1 == 0 then 0xed5b2a71e2c79c0f else 0xf7a604a259f355ae)
        else
         if x & 0x04 == 0 then
          if x & 2 == 0 then (if x & 1 == 0 then 0x7fde815fbefe20c1 else 0xd848753d7aade5a2) else (if x & 1 == 0 then 0xe5a8329a29d77fcc else 0xb699c75ebc71e80a)
         else
          if x & 2 == 0 then (if x & 1 == 0 then 0x70db904b96e03be6 else 0x5632fac88dac9edb) else (if x & 1 == 0 then 0xc4b751e6d1952215 else 0x19fc2bd7b332ceaa)
      else
       if x & 0x10 == 0 then
        if x & 0x08 == 0 then
         if x & 0x04 == 0 then
          if x & 2 == 0 then (if x & 1 == 0 then 0x38e348ab4b709373 else 0xbf9edc428463fd3b) else (if x & 1 == 0 then 0xae91ef7efc41d052 else 0xb09bcd56ac7de61c)
         else
          if x & 2 == 0 then (if x & 1 == 0 then 0x3be24daf43769478 else 0xd0bb6dd6b1bd0661) else (if x & 1 == 0 then 0xc3415819329bdaf1 else 0xb26ecba5577917e5)
        else
         if x & 0x04 == 0 then
          if x & 2 == 0 then (if x & 1 == 0 then 0xf2a50bae41f95cb3 else 0x40cbc00b16804b56) else (if x & 1 == 0 then 0xbd6bdab17f670cc2 else 0xa295fb6edc59cc7e)
         else
          if x & 2 == 0 then (if x & 1 == 0 then 0xfea11fbe61e1409f else 0x08f318ebcb10e3c3) else (if x & 1 == 0 then 0xceb14ffee181302f else 0x06020a08100c0e16)
       else
        if x & 0x08 == 0 then
         if x & 0x04 == 0 then
          if x & 2 == 0 then (if x & 1 == 0 then 0x49ccdb172e925e67 else 0x51c4f3376ea2663f) else (if x & 1 == 0 then 0x271d6974e84e53cf else 0x3c144450a0786c9c)
         else
          if x & 2 == 0 then (if x & 1 == 0 then 0x58c3e82b56b0730e else 0xa563f2913f57349a) else (if x & 1 == 0 then 0x73da954f9ee63ced else 0xe75d3469d2d38e35)
        else
         if x & 0x04 == 0 then
          if x & 2 == 0 then (if x & 1 == 0 then 0xe15f3e61c2df8023 else 0x79dc8b57aef22ed7) else (if x & 1 == 0 then 0x877d94e9cf136e48 else 0x4acdde132694596c)
         else
          if x & 2 == 0 then (if x & 1 == 0 then 0x817f9ee1df1f605e else 0xee5a2f75eac19b04) else (if x & 1 == 0 then 0xb46cc1ad477519f3 else 0xe45c316ddad5893e)
     else
      if x & 0x20 == 0 then
       if x & 0x10 == 0 then
        if x & 0x08 == 0 then
         if x & 0x04 == 0 then
          if x & 2 == 0 then (if x & 1 == 0 then 0x04f70cfbeb08ffef else 0x6a26be982dd4f247) else (if x & 1 == 0 then 0x1cff24dbab38c7b7 else 0x2aed7e933b54b911)
         else
          if x & 2 == 0 then (if x & 1 == 0 then 0x25e86f87134aa236 else 0xba9dd34e9c69f426) else (if x & 1 == 0 then 0xb16fcea15f7f10ee else 0x8f8e8c0204038d8b)
        else
         if x & 0x04 == 0 then
          if x & 2 == 0 then (if x & 1 == 0 then 0x2b197d64c8564fe3 else 0xfda01aba69e74794) else (if x & 1 == 0 then 0x0df017e7d31aeade else 0x8689971e3c1198ba)
         else
          if x & 2 == 0 then (if x & 1 == 0 then 0x110f333c78222d69 else 0x09071b1c38121531) else (if x & 1 == 0 then 0xecaf298611c56afd else 0x10fb30cb8b20db9b)
       else
        if x & 0x08 == 0 then
         if x & 0x04 == 0 then
          if x & 2 == 0 then (if x & 1 == 0 then 0x1808282040303858 else 0x3f154154a87e6b97) else (if x & 1 == 0 then 0x170d3934682e237f else 0x0c04141020181c2c)
         else
          if x & 2 == 0 then (if x & 1 == 0 then 0x030105040806070b else 0xac64e98d074521ab) else (if x & 1 == 0 then 0x7cdf845bb6f827ca else 0x9a76b3c597295f0d)
        else
         if x & 0x04 == 0 then
          if x & 2 == 0 then (if x & 1 == 0 then 0x8b7980f9ef0b7264 else 0x7add8e53a6f429dc) else (if x & 1 == 0 then 0x473dc9f4f58eb3b2 else 0x3a164e58b074628a)
         else
          if x & 2 == 0 then (if x & 1 == 0 then 0x413fc3fce582bda4 else 0x5937ebdca5b285fc) else (if x & 1 == 0 then 0xb76dc4a94f731ef8 else 0x4838d8e0dd90a895)
      else
       if x & 0x10 == 0 then
        if x & 0x08 == 0 then
         if x & 0x04 == 0 then
          if x & 2 == 0 then (if x & 1 == 0 then 0xd6b967dea1b10877 else 0x9573a2d1bf37442a) else (if x & 1 == 0 then 0x26e96a831b4ca53d else 0x5f35e1d4b5be8bea)
         else
          if x & 2 == 0 then (if x & 1 == 0 then 0xff551c4992e3b66d else 0x9371a8d9af3b4a3c) else (if x & 1 == 0 then 0x8d7b8af1ff077c72 else 0x898c860a140f839d)
        else
         if x & 0x04 == 0 then
          if x & 2 == 0 then (if x & 1 == 0 then 0x9672a7d5b7314321 else 0x8588921a34179fb1) else (if x & 1 == 0 then 0x07f609ffe30ef8e4 else 0x7e2a82a84dfcd633)
         else
          if x & 2 == 0 then (if x & 1 == 0 then 0x423ec6f8ed84baaf else 0xe25e3b65cad98728) else (if x & 1 == 0 then 0x6927bb9c25d2f54c else 0xca4643050a89cfc0)
       else
        if x & 0x08 == 0 then
         if x & 0x04 == 0 then
          if x & 2 == 0 then (if x & 1 == 0 then 0x140c3c3060282474 else 0xaf65ec890f4326a0) else (if x & 1 == 0 then 0xb868d5bd676d05df else 0xa361f8992f5b3a8c)
         else
          if x & 2 == 0 then (if x & 1 == 0 then 0x05030f0c180a091d else 0x5ec1e22346bc7d18) else (if x & 1 == 0 then 0xf957164182efb87b else 0x67d6a97ffece1899)
        else
         if x & 0x04 == 0 then
          if x & 2 == 0 then (if x & 1 == 0 then 0x76d99a4386ec35f0 else 0xe858257dfacd9512) else (if x & 1 == 0 then 0x75d89f478eea32fb else 0xaa66e38517492fbd)
         else
          if x & 2 == 0 then (if x & 1 == 0 then 0x64d7ac7bf6c81f92 else 0x4e3ad2e8cd9ca683) else (if x & 1 == 0 then 0x45c8cf070e8a424b else 0x443cccf0fd88b4b9)
    else
     if x & 0x40 == 0 then
      if x & 0x20 == 0 then
       if x & 0x10 == 0 then
        if x & 0x08 == 0 then
         if x & 0x04 == 0 then
          if x & 2 == 0 then (if x & 1 == 0 then 0x13fa35cf8326dc90 else 0xa796f462c453c563) else (if x & 1 == 0 then 0xf4a701a651f552a5 else 0xb598c25ab477ef01)
         else
          if x & 2 == 0 then (if x & 1 == 0 then 0x29ec7b973352be1a else 0xd5b862daa9b70f7c) else (if x & 1 == 0 then 0x54c7fc3b76a86f22 else 0xefae2c8219c36df6)
        else
         if x & 0x04 == 0 then
          if x & 2 == 0 then (if x & 1 == 0 then 0xbb69d0b96f6b02d4 else 0xdd4b7a3162a7ecbf) else (if x & 1 == 0 then 0xe0ab3d9631dd76d1 else 0xe6a9379e21d178c7)
         else
          if x & 2 == 0 then (if x & 1 == 0 then 0xa967e6811f4f28b6 else 0x1e0a2228503c364e) else (if x & 1 == 0 then 0xc9474601028fc8cb else 0x0bf21defc316e4c8)
       else
        if x & 0x08 == 0 then
         if x & 0x04 == 0 then
          if x & 2 == 0 then (if x & 1 == 0 then 0xc2b55beec1992c03 else 0x6622aa880dccee6b) else (if x & 1 == 0 then 0x32e556b37b648149 else 0x2fee719f235eb00c)
         else
          if x & 2 == 0 then (if x & 1 == 0 then 0xdfbe7cc299a31d46 else 0x7d2b87ac45fad138) else (if x & 1 == 0 then 0x9e81bf3e7c21a0e2 else 0x36125a48906c7ea6)
        else
         if x & 0x04 == 0 then
          if x & 2 == 0 then (if x & 1 == 0 then 0x9883b5366c2daef4 else 0x2d1b776cd85a41f5) else (if x & 1 == 0 then 0x120e363870242a62 else 0x6523af8c05cae960)
         else
          if x & 2 == 0 then (if x & 1 == 0 then 0x02f506f3fb04f1f9 else 0xcf454c091283c6dd) else (if x & 1 == 0 then 0x6321a58415c6e776 else 0x4fced11f3e9e5071)
      else
       if x & 0x10 == 0 then
        if x & 0x08 == 0 then
         if x & 0x04 == 0 then
          if x & 2 == 0 then (if x & 1 == 0 then 0xdb49703972abe2a9 else 0x742c9cb07de8c409) else (if x & 1 == 0 then 0x16f93ac39b2cd58d else 0x37e659bf636e8854)
         else
          if x & 2 == 0 then (if x & 1 == 0 then 0xc7b654e2d993251e else 0x782888a05df0d825) else (if x & 1 == 0 then 0x39174b5cb8726581 else 0x9b82b032642ba9ff)
        else
         if x & 0x04 == 0 then
          if x & 2 == 0 then (if x & 1 == 0 then 0x2e1a7268d05c46fe else 0x808b9d162c1d96ac) else (if x & 1 == 0 then 0x1ffe21dfa33ec0bc else 0x838a9812241b91a7)
         else
          if x & 2 == 0 then (if x & 1 == 0 then 0x1b092d2448363f53 else 0x46c9ca03068c4540) else (if x & 1 == 0 then 0x9487a1264c35b2d8 else 0xd24e6b254ab9f798)
       else
        if x & 0x08 == 0 then
         if x & 0x04 == 0 then
          if x & 2 == 0 then (if x & 1 == 0 then 0x3ee142a35b7c9d65 else 0x722e96b86de4ca1f) else (if x & 1 == 0 then 0x31e453b773628642 else 0x3de047a7537a9a6e)
         else
          if x & 2 == 0 then (if x & 1 == 0 then 0x20eb608b0b40ab2b else 0xad90ea7af447d759) else (if x & 1 == 0 then 0xf1a40eaa49ff5bb8 else 0x221e6678f0445ad2)
        else
         if x & 0x04 == 0 then
          if x & 2 == 0 then (if x & 1 == 0 then 0x9285ab2e5c39bcce else 0xa060fd9d275d3d87) else (if x & 1 == 0 then 0x0000000000000000 else 0x6f25b19435defb5a)
         else
          if x & 2 == 0 then (if x & 1 == 0 then 0x01f403f7f302f6f2 else 0x0ef112e3db1cedd5) else (if x & 1 == 0 then 0xa194fe6ad45fcb75 else 0x1d0b272c583a3145)
     else
      if x & 0x20 == 0 then
       if x & 0x10 == 0 then
        if x & 0x08 == 0 then
         if x & 0x04 == 0 then
          if x & 2 == 0 then (if x & 1 == 0 then 0x34e75cbb6b688f5f else 0x9f75bcc98f235610) else (if x & 1 == 0 then 0x2cef749b2b58b707 else 0x5c34e4d0bdb88ce1)
         else
          if x & 2 == 0 then (if x & 1 == 0 then 0x5331f5c495a697c6 else 0x61d4a377eec2168f) else (if x & 1 == 0 then 0x6dd0b767ceda0aa3 else 0x9786a4224433b5d3)
        else
         if x & 0x04 == 0 then
          if x & 2 == 0 then (if x & 1 == 0 then 0x827e9be5d7196755 else 0xeaad238e01c964eb) else (if x & 1 == 0 then 0x1afd2ed3bb34c9a1 else 0x7b298da455f6df2e)
         else
          if x & 2 == 0 then (if x & 1 == 0 then 0x5030f0c09da090cd else 0x4d3bd7ecc59aa188) else (if x & 1 == 0 then 0xbc9fd9468c65fa30 else 0x15f83fc7932ad286)
       else
        if x & 0x08 == 0 then
         if x & 0x04 == 0 then
          if x & 2 == 0 then (if x & 1 == 0 then 0x57c6f93f7eae6829 else 0x35135f4c986a79ad) else (if x & 1 == 0 then 0x0a061e183014123a else 0x0f051114281e1b27)
         else
          if x & 2 == 0 then (if x & 1 == 0 then 0x52c5f63366a46134 else 0x33115544886677bb) else (if x & 1 == 0 then 0x9977b6c19f2f5806 else 0x847c91edc7156943)
        else
         if x & 0x04 == 0 then
          if x & 2 == 0 then (if x & 1 == 0 then 0x8e7a8ff5f7017b79 else 0x887885fde70d756f) else (if x & 1 == 0 then 0x5a36eed8adb482f7 else 0x241c6c70e04854c4)
         else
          if x & 2 == 0 then (if x & 1 == 0 then 0x4b39dde4d596af9e else 0xeb592079f2cb9219) else (if x & 1 == 0 then 0x28187860c05048e8 else 0xfa5613458ae9bf70)
      else
       if x & 0x10 == 0 then
        if x & 0x08 == 0 then
         if x & 0x04 == 0 then
          if x & 2 == 0 then (if x & 1 == 0 then 0xc8b345f6f18d3e39 else 0xcdb04afae9873724) else (if x & 1 == 0 then 0x6c24b4903dd8fc51 else 0x6020a0801dc0e07d)
         else
          if x & 2 == 0 then (if x & 1 == 0 then 0xcbb240f2f98b3932 else 0xab92e072e44bd94f) else (if x & 1 == 0 then 0xf8a315b671ed4e89 else 0x5dc0e7274eba7a13)
        else
         if x & 0x04 == 0 then
          if x & 2 == 0 then (if x & 1 == 0 then 0xcc44490d1a85c1d6 else 0xa662f79537513391) else (if x & 1 == 0 then 0x30105040806070b0 else 0xc1b45eeac99f2b08)
         else
          if x & 2 == 0 then (if x & 1 == 0 then 0x9184ae2a543fbbc5 else 0xc54352112297d4e7) else (if x & 1 == 0 then 0xa893e576ec4dde44 else 0x5bc2ed2f5eb67405)
       else
        if x & 0x08 == 0 then
         if x & 0x04 == 0 then
          if x & 2 == 0 then (if x & 1 == 0 then 0xde4a7f356aa1ebb4 else 0xdabd73ce81a9145b) else (if x & 1 == 0 then 0x8c8f89060c058a80 else 0x772d99b475eec302)
         else
          if x & 2 == 0 then (if x & 1 == 0 then 0xd9bc76ca89af1350 else 0xb99cd64a946ff32d) else (if x & 1 == 0 then 0xbe6adfb577610bc9 else 0xc0405d1d3a9dddfa)
        else
         if x & 0x04 == 0 then
          if x & 2 == 0 then (if x & 1 == 0 then 0x4ccfd41b3698577a else 0xfba210b279eb4982) else (if x & 1 == 0 then 0x9d80ba3a7427a7e9 else 0xd14f6e2142bff093)
         else
          if x & 2 == 0 then (if x & 1 == 0 then 0x211f637cf8425dd9 else 0x43cac50f1e864c5d) else (if x & 1 == 0 then 0xe3aa389239db71da else 0xc64257152a91d3ec)
  }

  function T2(x: bv8): bv64 {
    if x & 0x80 == 0 then
     if x & 0x40 == 0 then
      if x & 0x20 == 0 then
       if x & 0x10 == 0 then
        if x & 0x08 == 0 then
         if x & 0x04 == 0 then
          if x & 2 == 0 then (if x & 1 == 0 then 0xd268bad36a01bbb9 else 0x4d1954fc66b1e59a) else (if x & 1 == 0 then 0xbc932f7114cde265 else 0xcdb9749c1b512587)
         else
          if x & 2 == 0 then (if x & 1 == 0 then 0x510253f557a4f7a2 else 0x6bb8d368be03d0d6) else (if x & 1 == 0 then 0x6fbdd26bb504d6de else 0x29644dd785feb352)
        else
         if x & 0x04 == 0 then
          if x & 2 == 0 then (if x & 1 == 0 then 0x5d0d50f04aadfdba else 0x8a26ace9e063cf09) else (if x & 1 == 0 then 0x0e838d8a9684091c else 0xc679bfdc4d1aa591)
         else
          if x & 2 == 0 then (if x & 1 == 0 then 0xddad7090374d3da7 else 0x550752f65ca3f1aa) else (if x & 1 == 0 then 0x52c89ab317e17ba4 else 0x2d614cd48ef9b55a)
       else
        if x & 0x08 == 0 then
         if x & 0x04 == 0 then
          if x & 2 == 0 then (if x & 1 == 0 then 0x8f65ea2320ac4603 else 0x73a6d5628411c4e6) else (if x & 1 == 0 then 0x66f197a468c255cc else 0x63b2d16ea80ddcc6)
         else
          if x & 2 == 0 then (if x & 1 == 0 then 0xccff3355d099aa85 else 0x590851f341aafbb2) else (if x & 1 == 0 then 0x712a5bed0f9cc7e2 else 0xa204a6f7ae55f359)
        else
         if x & 0x04 == 0 then
          if x & 2 == 0 then (if x & 1 == 0 then 0x5f81de7fc120febe else 0x3d7548d8a2e5ad7a) else (if x & 1 == 0 then 0x9a32a8e5cc7fd729 else 0x5ec799b60ae871bc)
         else
          if x & 2 == 0 then (if x & 1 == 0 then 0x4b90db70e63be096 else 0xc8fa3256db9eac8d) else (if x & 1 == 0 then 0xe651b7c4152295d1 else 0xd72bfc19aace32b3)
      else
       if x & 0x10 == 0 then
        if x & 0x08 == 0 then
         if x & 0x04 == 0 then
          if x & 2 == 0 then (if x & 1 == 0 then 0xab48e3387393704b else 0x42dc9ebf3bfd6384) else (if x & 1 == 0 then 0x7eef91ae52d041fc else 0x56cd9bb01ce67dac)
         else
          if x & 2 == 0 then (if x & 1 == 0 then 0xaf4de23b78947643 else 0xd66dbbd06106bdb1) else (if x & 1 == 0 then 0x195841c3f1da9b32 else 0xa5cb6eb2e5177957)
        else
         if x & 0x04 == 0 then
          if x & 2 == 0 then (if x & 1 == 0 then 0xae0ba5f2b35cf941 else 0x0bc0cb40564b8016) else (if x & 1 == 0 then 0xb1da6bbdc20c677f else 0x6efb95a27ecc59dc)
         else
          if x & 2 == 0 then (if x & 1 == 0 then 0xbe1fa1fe9f40e161 else 0xeb18f308c3e310cb) else (if x & 1 == 0 then 0xfe4fb1ce2f3081e1 else 0x080a0206160e0c10)
       else
        if x & 0x08 == 0 then
         if x & 0x04 == 0 then
          if x & 2 == 0 then (if x & 1 == 0 then 0x17dbcc49675e922e else 0x37f3c4513f66a26e) else (if x & 1 == 0 then 0x74691d27cf534ee8 else 0x5044143c9c6c78a0)
         else
          if x & 2 == 0 then (if x & 1 == 0 then 0x2be8c3580e73b056 else 0x91f263a59a34573f) else (if x & 1 == 0 then 0x4f95da73ed3ce69e else 0x69345de7358ed3d2)
        else
         if x & 0x04 == 0 then
          if x & 2 == 0 then (if x & 1 == 0 then 0x613e5fe12380dfc2 else 0x578bdc79d72ef2ae) else (if x & 1 == 0 then 0xe9947d87486e13cf else 0x13decd4a6c599426)
         else
          if x & 2 == 0 then (if x & 1 == 0 then 0xe19e7f815e601fdf else 0x752f5aee049bc1ea) else (if x & 1 == 0 then 0xadc16cb4f3197547 else 0x6d315ce43e89d5da)
     else
      if x & 0x20 == 0 then
       if x & 0x10 == 0 then
        if x & 0x08 == 0 then
         if x & 0x04 == 0 then
          if x & 2 == 0 then (if x & 1 == 0 then 0xfb0cf704efff08eb else 0x98be266a47f2d42d) else (if x & 1 == 0 then 0xdb24ff1cb7c738ab else 0x937eed2a11b9543b)
         else
          if x & 2 == 0 then (if x & 1 == 0 then 0x876fe82536a24a13 else 0x4ed39dba26f4699c) else (if x & 1 == 0 then 0xa1ce6fb1ee107f5f else 0x028c8e8f8b8d0304)
        else
         if x & 0x04 == 0 then
          if x & 2 == 0 then (if x & 1 == 0 then 0x647d192be34f56c8 else 0xba1aa0fd9447e769) else (if x & 1 == 0 then 0xe717f00ddeea1ad3 else 0x1e978986ba98113c)
         else
          if x & 2 == 0 then (if x & 1 == 0 then 0x3c330f11692d2278 else 0x1c1b070931151238) else (if x & 1 == 0 then 0x8629afecfd6ac511 else 0xcb30fb109bdb208b)
       else
        if x & 0x08 == 0 then
         if x & 0x04 == 0 then
          if x & 2 == 0 then (if x & 1 == 0 then 0x2028081858383040 else 0x5441153f976b7ea8) else (if x & 1 == 0 then 0x34390d177f232e68 else 0x1014040c2c1c1820)
         else
          if x & 2 == 0 then (if x & 1 == 0 then 0x040501030b070608 else 0x8de964acab214507) else (if x & 1 == 0 then 0x5b84df7cca27f8b6 else 0xc5b3769a0d5f2997)
        else
         if x & 0x04 == 0 then
          if x & 2 == 0 then (if x & 1 == 0 then 0xf980798b64720bef else 0x538edd7adc29f4a6) else (if x & 1 == 0 then 0xf4c93d47b2b38ef5 else 0x584e163a8a6274b0)
         else
          if x & 2 == 0 then (if x & 1 == 0 then 0xfcc33f41a4bd82e5 else 0xdceb3759fc85b2a5) else (if x & 1 == 0 then 0xa9c46db7f81e734f else 0xe0d8384895a890dd)
      else
       if x & 0x10 == 0 then
        if x & 0x08 == 0 then
         if x & 0x04 == 0 then
          if x & 2 == 0 then (if x & 1 == 0 then 0xde67b9d67708b1a1 else 0xd1a273952a4437bf) else (if x & 1 == 0 then 0x836ae9263da54c1b else 0xd4e1355fea8bbeb5)
         else
          if x & 2 == 0 then (if x & 1 == 0 then 0x491c55ff6db6e392 else 0xd9a871933c4a3baf) else (if x & 1 == 0 then 0xf18a7b8d727c07ff else 0x0a868c899d830f14)
        else
         if x & 0x04 == 0 then
          if x & 2 == 0 then (if x & 1 == 0 then 0xd5a77296214331b7 else 0x1a928885b19f1734) else (if x & 1 == 0 then 0xff09f607e4f80ee3 else 0xa8822a7e33d6fc4d)
         else
          if x & 2 == 0 then (if x & 1 == 0 then 0xf8c63e42afba84ed else 0x653b5ee22887d9ca) else (if x & 1 == 0 then 0x9cbb27694cf5d225 else 0x054346cac0cf890a)
       else
        if x & 0x08 == 0 then
         if x & 0x04 == 0 then
          if x & 2 == 0 then (if x & 1 == 0 then 0x303c0c1474242860 else 0x89ec65afa026430f) else (if x & 1 == 0 then 0xbdd568b8df056d67 else 0x99f861a38c3a5b2f)
         else
          if x & 2 == 0 then (if x & 1 == 0 then 0x0c0f03051d090a18 else 0x23e2c15e187dbc46) else (if x & 1 == 0 then 0x411657f97bb8ef82 else 0x7fa9d6679918cefe)
        else
         if x & 0x04 == 0 then
          if x & 2 == 0 then (if x & 1 == 0 then 0x439ad976f035ec86 else 0x7d2558e81295cdfa) else (if x & 1 == 0 then 0x479fd875fb32ea8e else 0x85e366aabd2f4917)
         else
          if x & 2 == 0 then (if x & 1 == 0 then 0x7bacd764921fc8f6 else 0xe8d23a4e83a69ccd) else (if x & 1 == 0 then 0x07cfc8454b428a0e else 0xf0cc3c44b9b488fd)
    else
     if x & 0x40 == 0 then
      if x & 0x20 == 0 then
       if x & 0x10 == 0 then
        if x & 0x08 == 0 then
         if x & 0x04 == 0 then
          if x & 2 == 0 then (if x & 1 == 0 then 0xcf35fa1390dc2683 else 0x62f496a763c553c4) else (if x & 1 == 0 then 0xa601a7f4a552f551 else 0x5ac298b501ef77b4)
         else
          if x & 2 == 0 then (if x & 1 == 0 then 0x977bec291abe5233 else 0xda62b8d57c0fb7a9) else (if x & 1 == 0 then 0x3bfcc754226fa876 else 0x822caeeff66dc319)
        else
         if x & 0x04 == 0 then
          if x & 2 == 0 then (if x & 1 == 0 then 0xb9d069bbd4026b6f else 0x317a4bddbfeca762) else (if x & 1 == 0 then 0x963dabe0d176dd31 else 0x9e37a9e6c778d121)
         else
          if x & 2 == 0 then (if x & 1 == 0 then 0x81e667a9b6284f1f else 0x28220a1e4e363c50) else (if x & 1 == 0 then 0x014647c9cbc88f02 else 0xef1df20bc8e416c3)
       else
        if x & 0x08 == 0 then
         if x & 0x04 == 0 then
          if x & 2 == 0 then (if x & 1 == 0 then 0xee5bb5c2032c99c1 else 0x88aa22666beecc0d) else (if x & 1 == 0 then 0xb356e5324981647b else 0x9f71ee2f0cb05e23)
         else
          if x & 2 == 0 then (if x & 1 == 0 then 0xc27cbedf461da399 else 0xac872b7d38d1fa45) else (if x & 1 == 0 then 0x3ebf819ee2a0217c else 0x485a1236a67e6c90)
        else
         if x & 0x04 == 0 then
          if x & 2 == 0 then (if x & 1 == 0 then 0x36b58398f4ae2d6c else 0x6c771b2df5415ad8) else (if x & 1 == 0 then 0x38360e12622a2470 else 0x8caf236560e9ca05)
         else
          if x & 2 == 0 then (if x & 1 == 0 then 0xf306f502f9f104fb else 0x094c45cfddc68312) else (if x & 1 == 0 then 0x84a5216376e7c615 else 0x1fd1ce4f71509e3e)
      else
       if x & 0x10 == 0 then
        if x & 0x08 == 0 then
         if x & 0x04 == 0 then
          if x & 2 == 0 then (if x & 1 == 0 then 0x397049dba9e2ab72 else 0xb09c2c7409c4e87d) else (if x & 1 == 0 then 0xc33af9168dd52c9b else 0xbf59e63754886e63)
         else
          if x & 2 == 0 then (if x & 1 == 0 then 0xe254b6c71e2593d9 else 0xa088287825d8f05d) else (if x & 1 == 0 then 0x5c4b1739816572b8 else 0x32b0829bffa92b64)
        else
         if x & 0x04 == 0 then
          if x & 2 == 0 then (if x & 1 == 0 then 0x68721a2efe465cd0 else 0x169d8b80ac961d2c) else (if x & 1 == 0 then 0xdf21fe1fbcc03ea3 else 0x12988a83a7911b24)
         else
          if x & 2 == 0 then (if x & 1 == 0 then 0x242d091b533f3648 else 0x03cac94640458c06) else (if x & 1 == 0 then 0x26a18794d8b2354c else 0x256b4ed298f7b94a)
       else
        if x & 0x08 == 0 then
         if x & 0x04 == 0 then
          if x & 2 == 0 then (if x & 1 == 0 then 0xa342e13e659d7c5b else 0xb8962e721fcae46d) else (if x & 1 == 0 then 0xb753e43142866273 else 0xa747e03d6e9a7a53)
         else
          if x & 2 == 0 then (if x & 1 == 0 then 0x8b60eb202bab400b else 0x7aea90ad59d747f4) else (if x & 1 == 0 then 0xaa0ea4f1b85bff49 else 0x78661e22d25a44f0)
        else
         if x & 0x04 == 0 then
          if x & 2 == 0 then (if x & 1 == 0 then 0x2eab8592cebc395c else 0x9dfd60a0873d5d27) else (if x & 1 == 0 then 0x0000000000000000 else 0x94b1256f5afbde35)
         else
          if x & 2 == 0 then (if x & 1 == 0 then 0xf703f401f2f602f3 else 0xe312f10ed5ed1cdb) else (if x & 1 == 0 then 0x6afe94a175cb5fd4 else 0x2c270b1d45313a58)
     else
      if x & 0x20 == 0 then
       if x & 0x10 == 0 then
        if x & 0x08 == 0 then
         if x & 0x04 == 0 then
          if x & 2 == 0 then (if x & 1 == 0 then 0xbb5ce7345f8f686b else 0xc9bc759f1056238f) else (if x & 1 == 0 then 0x9b74ef2c07b7582b else 0xd0e4345ce18cb8bd)
         else
          if x & 2 == 0 then (if x & 1 == 0 then 0xc4f53153c697a695 else 0x77a3d4618f16c2ee) else (if x & 1 == 0 then 0x67b7d06da30adace else 0x22a48697d3b53344)
        else
         if x & 0x04 == 0 then
          if x & 2 == 0 then (if x & 1 == 0 then 0xe59b7e82556719d7 else 0x8e23adeaeb64c901) else (if x & 1 == 0 then 0xd32efd1aa1c934bb else 0xa48d297b2edff655)
         else
          if x & 2 == 0 then (if x & 1 == 0 then 0xc0f03050cd90a09d else 0xecd73b4d88a19ac5) else (if x & 1 == 0 then 0x46d99fbc30fa658c else 0xc73ff81586d22a93)
       else
        if x & 0x08 == 0 then
         if x & 0x04 == 0 then
          if x & 2 == 0 then (if x & 1 == 0 then 0x3ff9c6572968ae7e else 0x4c5f1335ad796a98) else (if x & 1 == 0 then 0x181e060a3a121430 else 0x1411050f271b1e28)
         else
          if x & 2 == 0 then (if x & 1 == 0 then 0x33f6c5523461a466 else 0x44551133bb776688) else (if x & 1 == 0 then 0xc1b6779906582f9f else 0xed917c84436915c7)
        else
         if x & 0x04 == 0 then
          if x & 2 == 0 then (if x & 1 == 0 then 0xf58f7a8e797b01f7 else 0xfd8578886f750de7) else (if x & 1 == 0 then 0xd8ee365af782b4ad else 0x706c1c24c45448e0)
         else
          if x & 2 == 0 then (if x & 1 == 0 then 0xe4dd394b9eaf96d5 else 0x792059eb1992cbf2) else (if x & 1 == 0 then 0x60781828e84850c0 else 0x451356fa70bfe98a)
      else
       if x & 0x10 == 0 then
        if x & 0x08 == 0 then
         if x & 0x04 == 0 then
          if x & 2 == 0 then (if x & 1 == 0 then 0xf645b3c8393e8df1 else 0xfa4ab0cd243787e9) else (if x & 1 == 0 then 0x90b4246c51fcd83d else 0x80a020607de0c01d)
         else
          if x & 2 == 0 then (if x & 1 == 0 then 0xf240b2cb32398bf9 else 0x72e092ab4fd94be4) else (if x & 1 == 0 then 0xb615a3f8894eed71 else 0x27e7c05d137aba4e)
        else
         if x & 0x04 == 0 then
          if x & 2 == 0 then (if x & 1 == 0 then 0x0d4944ccd6c1851a else 0x95f762a691335137) else (if x & 1 == 0 then 0x40501030b0706080 else 0xea5eb4c1082b9fc9)
         else
          if x & 2 == 0 then (if x & 1 == 0 then 0x2aae8491c5bb3f54 else 0x115243c5e7d49722) else (if x & 1 == 0 then 0x76e593a844de4dec else 0x2fedc25b0574b65e)
       else
        if x & 0x08 == 0 then
         if x & 0x04 == 0 then
          if x & 2 == 0 then (if x & 1 == 0 then 0x357f4adeb4eba16a else 0xce73bdda5b14a981) else (if x & 1 == 0 then 0x06898f8c808a050c else 0xb4992d7702c3ee75)
         else
          if x & 2 == 0 then (if x & 1 == 0 then 0xca76bcd95013af89 else 0x4ad69cb92df36f94) else (if x & 1 == 0 then 0xb5df6abec90b6177 else 0x1d5d40c0fadd9d3a)
        else
         if x & 0x04 == 0 then
          if x & 2 == 0 then (if x & 1 == 0 then 0x1bd4cf4c7a579836 else 0xb210a2fb8249eb79) else (if x & 1 == 0 then 0x3aba809de9a72774 else 0x216e4fd193f0bf42)
         else
          if x & 2 == 0 then (if x & 1 == 0 then 0x7c631f21d95d42f8 else 0x0fc5ca435d4c861e) else (if x & 1 == 0 then 0x9238aae3da71db39 else 0x155742c6ecd3912a)
  }

  function T3(x: bv8): bv64 {
    if x & 0x80 == 0 then
     if x & 0x40 == 0 then
      if x & 0x20 == 0 then
       if x & 0x10 == 0 then
        if x & 0x08 == 0 then
         if x & 0x04 == 0 then
          if x & 2 == 0 then (if x & 1 == 0 then 0x68d2d3ba016ab9bb else 0x194dfc54b1669ae5) else (if x & 1 == 0 then 0x93bc712fcd1465e2 else 0xb9cd9c74511b8725)
         else
          if x & 2 == 0 then (if x & 1 == 0 then 0x0251f553a457a2f7 else 0xb86b68d303bed6d0) else (if x & 1 == 0 then 0xbd6f6bd204b5ded6 else 0x6429d74dfe8552b3)
        else
         if x & 0x04 == 0 then
          if x & 2 == 0 then (if x & 1 == 0 then 0x0d5df050ad4abafd else 0x268ae9ac63e009cf) else (if x & 1 == 0 then 0x830e8a8d84961c09 else 0x79c6dcbf1a4d91a5)
         else
          if x & 2 == 0 then (if x & 1 == 0 then 0xaddd90704d37a73d else 0x0755f652a35caaf1) else (if x & 1 == 0 then 0xc852b39ae117a47b else 0x612dd44cf98e5ab5)
       else
        if x & 0x08 == 0 then
         if x & 0x04 == 0 then
          if x & 2 == 0 then (if x & 1 == 0 then 0x658f23eaac200346 else 0xa67362d51184e6c4) else (if x & 1 == 0 then 0xf166a497c268cc55 else 0xb2636ed10da8c6dc)
         else
          if x & 2 == 0 then (if x & 1 == 0 then 0xffcc553399d085aa else 0x0859f351aa41b2fb) else (if x & 1 == 0 then 0x2a71ed5b9c0fe2c7 else 0x04a2f7a655ae59f3)
        else
         if x & 0x04 == 0 then
          if x & 2 == 0 then (if x & 1 == 0 then 0x815f7fde20c1befe else 0x753dd848e5a27aad) else (if x & 1 == 0 then 0x329ae5a87fcc29d7 else 0xc75eb699e80abc71)
         else
          if x & 2 == 0 then (if x & 1 == 0 then 0x904b70db3be696e0 else 0xfac856329edb8dac) else (if x & 1 == 0 then 0x51e6c4b72215d195 else 0x2bd719fcceaab332)
      else
       if x & 0x10 == 0 then
        if x & 0x08 == 0 then
         if x & 0x04 == 0 then
          if x & 2 == 0 then (if x & 1 == 0 then 0x48ab38e393734b70 else 0xdc42bf9efd3b8463) else (if x & 1 == 0 then 0xef7eae91d052fc41 else 0xcd56b09be61cac7d)
         else
          if x & 2 == 0 then (if x & 1 == 0 then 0x4daf3be294784376 else 0x6dd6d0bb0661b1bd) else (if x & 1 == 0 then 0x5819c341daf1329b else 0xcba5b26e17e55779)
        else
         if x & 0x04 == 0 then
          if x & 2 == 0 then (if x & 1 == 0 then 0x0baef2a55cb341f9 else 0xc00b40cb4b561680) else (if x & 1 == 0 then 0xdab1bd6b0cc27f67 else 0xfb6ea295cc7edc59)
         else
          if x & 2 == 0 then (if x & 1 == 0 then 0x1fbefea1409f61e1 else 0x18eb08f3e3c3cb10) else (if x & 1 == 0 then 0x4ffeceb1302fe181 else 0x0a0806020e16100c)
       else
        if x & 0x08 == 0 then
         if x & 0x04 == 0 then
          if x & 2 == 0 then (if x & 1 == 0 then 0xdb1749cc5e672e92 else 0xf33751c4663f6ea2) else (if x & 1 == 0 then 0x6974271d53cfe84e else 0x44503c146c9ca078)
         else
          if x & 2 == 0 then (if x & 1 == 0 then 0xe82b58c3730e56b0 else 0xf291a563349a3f57) else (if x & 1 == 0 then 0x954f73da3ced9ee6 else 0x3469e75d8e35d2d3)
        else
         if x & 0x04 == 0 then
          if x & 2 == 0 then (if x & 1 == 0 then 0x3e61e15f8023c2df else 0x8b5779dc2ed7aef2) else (if x & 1 == 0 then 0x94e9877d6e48cf13 else 0xde134acd596c2694)
         else
          if x & 2 == 0 then (if x & 1 == 0 then 0x9ee1817f605edf1f else 0x2f75ee5a9b04eac1) else (if x & 1 == 0 then 0xc1adb46c19f34775 else 0x316de45c893edad5)
     else
      if x & 0x20 == 0 then
       if x & 0x10 == 0 then
        if x & 0x08 == 0 then
         if x & 0x04 == 0 then
          if x & 2 == 0 then (if x & 1 == 0 then 0x0cfb04f7ffefeb08 else 0xbe986a26f2472dd4) else (if x & 1 == 0 then 0x24db1cffc7b7ab38 else 0x7e932aedb9113b54)
         else
          if x & 2 == 0 then (if x & 1 == 0 then 0x6f8725e8a236134a else 0xd34eba9df4269c69) else (if x & 1 == 0 then 0xcea1b16f10ee5f7f else 0x8c028f8e8d8b0403)
        else
         if x & 0x04 == 0 then
          if x & 2 == 0 then (if x & 1 == 0 then 0x7d642b194fe3c856 else 0x1abafda0479469e7) else (if x & 1 == 0 then 0x17e70df0eaded31a else 0x971e868998ba3c11)
         else
          if x & 2 == 0 then (if x & 1 == 0 then 0x333c110f2d697822 else 0x1b1c090715313812) else (if x & 1 == 0 then 0x2986ecaf6afd11c5 else 0x30cb10fbdb9b8b20)
       else
        if x & 0x08 == 0 then
         if x & 0x04 == 0 then
          if x & 2 == 0 then (if x & 1 == 0 then 0x2820180838584030 else 0x41543f156b97a87e) else (if x & 1 == 0 then 0x3934170d237f682e else 0x14100c041c2c2018)
         else
          if x & 2 == 0 then (if x & 1 == 0 then 0x05040301070b0806 else 0xe98dac6421ab0745) else (if x & 1 == 0 then 0x845b7cdf27cab6f8 else 0xb3c59a765f0d9729)
        else
         if x & 0x04 == 0 then
          if x & 2 == 0 then (if x & 1 == 0 then 0x80f98b797264ef0b else 0x8e537add29dca6f4) else (if x & 1 == 0 then 0xc9f4473db3b2f58e else 0x4e583a16628ab074)
         else
          if x & 2 == 0 then (if x & 1 == 0 then 0xc3fc413fbda4e582 else 0xebdc593785fca5b2) else (if x & 1 == 0 then 0xc4a9b76d1ef84f73 else 0xd8e04838a895dd90)
      else
       if x & 0x10 == 0 then
        if x & 0x08 == 0 then
         if x & 0x04 == 0 then
          if x & 2 == 0 then (if x & 1 == 0 then 0x67ded6b90877a1b1 else 0xa2d19573442abf37) else (if x & 1 == 0 then 0x6a8326e9a53d1b4c else 0xe1d45f358beab5be)
         else
          if x & 2 == 0 then (if x & 1 == 0 then 0x1c49ff55b66d92e3 else 0xa8d993714a3caf3b) else (if x & 1 == 0 then 0x8af18d7b7c72ff07 else 0x860a898c839d140f)
        else
         if x & 0x04 == 0 then
          if x & 2 == 0 then (if x & 1 == 0 then 0xa7d596724321b731 else 0x921a85889fb13417) else (if x & 1 == 0 then 0x09ff07f6f8e4e30e else 0x82a87e2ad6334dfc)
         else
          if x & 2 == 0 then (if x & 1 == 0 then 0xc6f8423ebaafed84 else 0x3b65e25e8728cad9) else (if x & 1 == 0 then 0xbb9c6927f54c25d2 else 0x4305ca46cfc00a89)
       else
        if x & 0x08 == 0 then
         if x & 0x04 == 0 then
          if x & 2 == 0 then (if x & 1 == 0 then 0x3c30140c24746028 else 0xec89af6526a00f43) else (if x & 1 == 0 then 0xd5bdb86805df676d else 0xf899a3613a8c2f5b)
         else
          if x & 2 == 0 then (if x & 1 == 0 then 0x0f0c0503091d180a else 0xe2235ec17d1846bc) else (if x & 1 == 0 then 0x1641f957b87b82ef else 0xa97f67d61899fece)
        else
         if x & 0x04 == 0 then
          if x & 2 == 0 then (if x & 1 == 0 then 0x9a4376d935f086ec else 0x257de8589512facd) else (if x & 1 == 0 then 0x9f4775d832fb8eea else 0xe385aa662fbd1749)
         else
          if x & 2 == 0 then (if x & 1 == 0 then 0xac7b64d71f92f6c8 else 0xd2e84e3aa683cd9c) else (if x & 1 == 0 then 0xcf0745c8424b0e8a else 0xccf0443cb4b9fd88)
    else
     if x & 0x40 == 0 then
      if x & 0x20 == 0 then
       if x & 0x10 == 0 then
        if x & 0x08 == 0 then
         if x & 0x04 == 0 then
          if x & 2 == 0 then (if x & 1 == 0 then 0x35cf13fadc908326 else 0xf462a796c563c453) else (if x & 1 == 0 then 0x01a6f4a752a551f5 else 0xc25ab598ef01b477)
         else
          if x & 2 == 0 then (if x & 1 == 0 then 0x7b9729ecbe1a3352 else 0x62dad5b80f7ca9b7) else (if x & 1 == 0 then 0xfc3b54c76f2276a8 else 0x2c82efae6df619c3)
        else
         if x & 0x04 == 0 then
          if x & 2 == 0 then (if x & 1 == 0 then 0xd0b9bb6902d46f6b else 0x7a31dd4becbf62a7) else (if x & 1 == 0 then 0x3d96e0ab76d131dd else 0x379ee6a978c721d1)
         else
          if x & 2 == 0 then (if x & 1 == 0 then 0xe681a96728b61f4f else 0x22281e0a364e503c) else (if x & 1 == 0 then 0x4601c947c8cb028f else 0x1def0bf2e4c8c316)
       else
        if x & 0x08 == 0 then
         if x & 0x04 == 0 then
          if x & 2 == 0 then (if x & 1 == 0 then 0x5beec2b52c03c199 else 0xaa886622ee6b0dcc) else (if x & 1 == 0 then 0x56b332e581497b64 else 0x719f2feeb00c235e)
         else
          if x & 2 == 0 then (if x & 1 == 0 then 0x7cc2dfbe1d4699a3 else 0x87ac7d2bd13845fa) else (if x & 1 == 0 then 0xbf3e9e81a0e27c21 else 0x5a4836127ea6906c)
        else
         if x & 0x04 == 0 then
          if x & 2 == 0 then (if x & 1 == 0 then 0xb5369883aef46c2d else 0x776c2d1b41f5d85a) else (if x & 1 == 0 then 0x3638120e2a627024 else 0xaf8c6523e96005ca)
         else
          if x & 2 == 0 then (if x & 1 == 0 then 0x06f302f5f1f9fb04 else 0x4c09cf45c6dd1283) else (if x & 1 == 0 then 0xa5846321e77615c6 else 0xd11f4fce50713e9e)
      else
       if x & 0x10 == 0 then
        if x & 0x08 == 0 then
         if x & 0x04 == 0 then
          if x & 2 == 0 then (if x & 1 == 0 then 0x7039db49e2a972ab else 0x9cb0742cc4097de8) else (if x & 1 == 0 then 0x3ac316f9d58d9b2c else 0x59bf37e68854636e)
         else
          if x & 2 == 0 then (if x & 1 == 0 then 0x54e2c7b6251ed993 else 0x88a07828d8255df0) else (if x & 1 == 0 then 0x4b5c39176581b872 else 0xb0329b82a9ff642b)
        else
         if x & 0x04 == 0 then
          if x & 2 == 0 then (if x & 1 == 0 then 0x72682e1a46fed05c else 0x9d16808b96ac2c1d) else (if x & 1 == 0 then 0x21df1ffec0bca33e else 0x9812838a91a7241b)
         else
          if x & 2 == 0 then (if x & 1 == 0 then 0x2d241b093f534836 else 0xca0346c94540068c) else (if x & 1 == 0 then 0xa1269487b2d84c35 else 0x6b25d24ef7984ab9)
       else
        if x & 0x08 == 0 then
         if x & 0x04 == 0 then
          if x & 2 == 0 then (if x & 1 == 0 then 0x42a33ee19d655b7c else 0x96b8722eca1f6de4) else (if x & 1 == 0 then 0x53b731e486427362 else 0x47a73de09a6e537a)
         else
          if x & 2 == 0 then (if x & 1 == 0 then 0x608b20ebab2b0b40 else 0xea7aad90d759f447) else (if x & 1 == 0 then 0x0eaaf1a45bb849ff else 0x6678221e5ad2f044)
        else
         if x & 0x04 == 0 then
          if x & 2 == 0 then (if x & 1 == 0 then 0xab2e9285bcce5c39 else 0xfd9da0603d87275d) else (if x & 1 == 0 then 0x0000000000000000 else 0xb1946f25fb5a35de)
         else
          if x & 2 == 0 then (if x & 1 == 0 then 0x03f701f4f6f2f302 else 0x12e30ef1edd5db1c) else (if x & 1 == 0 then 0xfe6aa194cb75d45f else 0x272c1d0b3145583a)
     else
      if x & 0x20 == 0 then
       if x & 0x10 == 0 then
        if x & 0x08 == 0 then
         if x & 0x04 == 0 then
          if x & 2 == 0 then (if x & 1 == 0 then 0x5cbb34e78f5f6b68 else 0xbcc99f7556108f23) else (if x & 1 == 0 then 0x749b2cefb7072b58 else 0xe4d05c348ce1bdb8)
         else
          if x & 2 == 0 then (if x & 1 == 0 then 0xf5c4533197c695a6 else 0xa37761d4168feec2) else (if x & 1 == 0 then 0xb7676dd00aa3ceda else 0xa4229786b5d34433)
        else
         if x & 0x04 == 0 then
          if x & 2 == 0 then (if x & 1 == 0 then 0x9be5827e6755d719 else 0x238eeaad64eb01c9) else (if x & 1 == 0 then 0x2ed31afdc9a1bb34 else 0x8da47b29df2e55f6)
         else
          if x & 2 == 0 then (if x & 1 == 0 then 0xf0c0503090cd9da0 else 0xd7ec4d3ba188c59a) else (if x & 1 == 0 then 0xd946bc9ffa308c65 else 0x3fc715f8d286932a)
       else
        if x & 0x08 == 0 then
         if x & 0x04 == 0 then
          if x & 2 == 0 then (if x & 1 == 0 then 0xf93f57c668297eae else 0x5f4c351379ad986a) else (if x & 1 == 0 then 0x1e180a06123a3014 else 0x11140f051b27281e)
         else
          if x & 2 == 0 then (if x & 1 == 0 then 0xf63352c5613466a4 else 0x5544331177bb8866) else (if x & 1 == 0 then 0xb6c1997758069f2f else 0x91ed847c6943c715)
        else
         if x & 0x04 == 0 then
          if x & 2 == 0 then (if x & 1 == 0 then 0x8ff58e7a7b79f701 else 0x85fd8878756fe70d) else (if x & 1 == 0 then 0xeed85a3682f7adb4 else 0x6c70241c54c4e048)
         else
          if x & 2 == 0 then (if x & 1 == 0 then 0xdde44b39af9ed596 else 0x2079eb599219f2cb) else (if x & 1 == 0 then 0x7860281848e8c050 else 0x1345fa56bf708ae9)
      else
       if x & 0x10 == 0 then
        if x & 0x08 == 0 then
         if x & 0x04 == 0 then
          if x & 2 == 0 then (if x & 1 == 0 then 0x45f6c8b33e39f18d else 0x4afacdb03724e987) else (if x & 1 == 0 then 0xb4906c24fc513dd8 else 0xa0806020e07d1dc0)
         else
          if x & 2 == 0 then (if x & 1 == 0 then 0x40f2cbb23932f98b else 0xe072ab92d94fe44b) else (if x & 1 == 0 then 0x15b6f8a34e8971ed else 0xe7275dc07a134eba)
        else
         if x & 0x04 == 0 then
          if x & 2 == 0 then (if x & 1 == 0 then 0x490dcc44c1d61a85 else 0xf795a66233913751) else (if x & 1 == 0 then 0x5040301070b08060 else 0x5eeac1b42b08c99f)
         else
          if x & 2 == 0 then (if x & 1 == 0 then 0xae2a9184bbc5543f else 0x5211c543d4e72297) else (if x & 1 == 0 then 0xe576a893de44ec4d else 0xed2f5bc274055eb6)
       else
        if x & 0x08 == 0 then
         if x & 0x04 == 0 then
          if x & 2 == 0 then (if x & 1 == 0 then 0x7f35de4aebb46aa1 else 0x73cedabd145b81a9) else (if x & 1 == 0 then 0x89068c8f8a800c05 else 0x99b4772dc30275ee)
         else
          if x & 2 == 0 then (if x & 1 == 0 then 0x76cad9bc135089af else 0xd64ab99cf32d946f) else (if x & 1 == 0 then 0xdfb5be6a0bc97761 else 0x5d1dc040ddfa3a9d)
        else
         if x & 0x04 == 0 then
          if x & 2 == 0 then (if x & 1 == 0 then 0xd41b4ccf577a3698 else 0x10b2fba2498279eb) else (if x & 1 == 0 then 0xba3a9d80a7e97427 else 0x6e21d14ff09342bf)
         else
          if x & 2 == 0 then (if x & 1 == 0 then 0x637c211f5dd9f842 else 0xc50f43ca4c5d1e86) else (if x & 1 == 0 then 0x3892e3aa71da39db else 0x5715c642d3ec2a91)
  }

  function T4(x: bv8): bv64 {
    if x & 0x80 == 0 then
     if x & 0x40 == 0 then
      if x & 0x20 == 0 then
       if x & 0x10 == 0 then
        if x & 0x08 == 0 then
         if x & 0x04 == 0 then
          if x & 2 == 0 then (if x & 1 == 0 then 0xbbb96a01bad3d268 else 0xe59a66b154fc4d19) else (if x & 1 == 0 then 0xe26514cd2f71bc93 else 0x25871b51749ccdb9)
         else
          if x & 2 == 0 then (if x & 1 == 0 then 0xf7a257a453f55102 else 0xd0d6be03d3686bb8) else (if x & 1 == 0 then 0xd6deb504d26b6fbd else 0xb35285fe4dd72964)
        else
         if x & 0x04 == 0 then
          if x & 2 == 0 then (if x & 1 == 0 then 0xfdba4aad50f05d0d else 0xcf09e063ace98a26) else (if x & 1 == 0 then 0x091c96848d8a0e83 else 0xa5914d1abfdcc679)
         else
          if x & 2 == 0 then (if x & 1 == 0 then 0x3da7374d7090ddad else 0xf1aa5ca352f65507) else (if x & 1 == 0 then 0x7ba417e19ab352c8 else 0xb55a8ef94cd42d61)
       else
        if x & 0x08 == 0 then
         if x & 0x04 == 0 then
          if x & 2 == 0 then (if x & 1 == 0 then 0x460320acea238f65 else 0xc4e68411d56273a6) else (if x & 1 == 0 then 0x55cc68c297a466f1 else 0xdcc6a80dd16e63b2)
         else
          if x & 2 == 0 then (if x & 1 == 0 then 0xaa85d0993355ccff else 0xfbb241aa51f35908) else (if x & 1 == 0 then 0xc7e20f9c5bed712a else 0xf359ae55a6f7a204)
        else
         if x & 0x04 == 0 then
          if x & 2 == 0 then (if x & 1 == 0 then 0xfebec120de7f5f81 else 0xad7aa2e548d83d75) else (if x & 1 == 0 then 0xd729cc7fa8e59a32 else 0x71bc0ae899b65ec7)
         else
          if x & 2 == 0 then (if x & 1 == 0 then 0xe096e63bdb704b90 else 0xac8ddb9e3256c8fa) else (if x & 1 == 0 then 0x95d11522b7c4e651 else 0x32b3aacefc19d72b)
      else
       if x & 0x10 == 0 then
        if x & 0x08 == 0 then
         if x & 0x04 == 0 then
          if x & 2 == 0 then (if x & 1 == 0 then 0x704b7393e338ab48 else 0x63843bfd9ebf42dc) else (if x & 1 == 0 then 0x41fc52d091ae7eef else 0x7dac1ce69bb056cd)
         else
          if x & 2 == 0 then (if x & 1 == 0 then 0x76437894e23baf4d else 0xbdb16106bbd0d66d) else (if x & 1 == 0 then 0x9b32f1da41c31958 else 0x7957e5176eb2a5cb)
        else
         if x & 0x04 == 0 then
          if x & 2 == 0 then (if x & 1 == 0 then 0xf941b35ca5f2ae0b else 0x8016564bcb400bc0) else (if x & 1 == 0 then 0x677fc20c6bbdb1da else 0x59dc7ecc95a26efb)
         else
          if x & 2 == 0 then (if x & 1 == 0 then 0xe1619f40a1febe1f else 0x10cbc3e3f308eb18) else (if x & 1 == 0 then 0x81e12f30b1cefe4f else 0x0c10160e0206080a)
       else
        if x & 0x08 == 0 then
         if x & 0x04 == 0 then
          if x & 2 == 0 then (if x & 1 == 0 then 0x922e675ecc4917db else 0xa26e3f66c45137f3) else (if x & 1 == 0 then 0x4ee8cf531d277469 else 0x78a09c6c143c5044)
         else
          if x & 2 == 0 then (if x & 1 == 0 then 0xb0560e73c3582be8 else 0x573f9a3463a591f2) else (if x & 1 == 0 then 0xe69eed3cda734f95 else 0xd3d2358e5de76934)
        else
         if x & 0x04 == 0 then
          if x & 2 == 0 then (if x & 1 == 0 then 0xdfc223805fe1613e else 0xf2aed72edc79578b) else (if x & 1 == 0 then 0x13cf486e7d87e994 else 0x94266c59cd4a13de)
         else
          if x & 2 == 0 then (if x & 1 == 0 then 0x1fdf5e607f81e19e else 0xc1ea049b5aee752f) else (if x & 1 == 0 then 0x7547f3196cb4adc1 else 0xd5da3e895ce46d31)
     else
      if x & 0x20 == 0 then
       if x & 0x10 == 0 then
        if x & 0x08 == 0 then
         if x & 0x04 == 0 then
          if x & 2 == 0 then (if x & 1 == 0 then 0x08ebeffff704fb0c else 0xd42d47f2266a98be) else (if x & 1 == 0 then 0x38abb7c7ff1cdb24 else 0x543b11b9ed2a937e)
         else
          if x & 2 == 0 then (if x & 1 == 0 then 0x4a1336a2e825876f else 0x699c26f49dba4ed3) else (if x & 1 == 0 then 0x7f5fee106fb1a1ce else 0x03048b8d8e8f028c)
        else
         if x & 0x04 == 0 then
          if x & 2 == 0 then (if x & 1 == 0 then 0x56c8e34f192b647d else 0xe7699447a0fdba1a) else (if x & 1 == 0 then 0x1ad3deeaf00de717 else 0x113cba9889861e97)
         else
          if x & 2 == 0 then (if x & 1 == 0 then 0x2278692d0f113c33 else 0x1238311507091c1b) else (if x & 1 == 0 then 0xc511fd6aafec8629 else 0x208b9bdbfb10cb30)
       else
        if x & 0x08 == 0 then
         if x & 0x04 == 0 then
          if x & 2 == 0 then (if x & 1 == 0 then 0x3040583808182028 else 0x7ea8976b153f5441) else (if x & 1 == 0 then 0x2e687f230d173439 else 0x18202c1c040c1014)
         else
          if x & 2 == 0 then (if x & 1 == 0 then 0x06080b0701030405 else 0x4507ab2164ac8de9) else (if x & 1 == 0 then 0xf8b6ca27df7c5b84 else 0x29970d5f769ac5b3)
        else
         if x & 0x04 == 0 then
          if x & 2 == 0 then (if x & 1 == 0 then 0x0bef6472798bf980 else 0xf4a6dc29dd7a538e) else (if x & 1 == 0 then 0x8ef5b2b33d47f4c9 else 0x74b08a62163a584e)
         else
          if x & 2 == 0 then (if x & 1 == 0 then 0x82e5a4bd3f41fcc3 else 0xb2a5fc853759dceb) else (if x & 1 == 0 then 0x734ff81e6db7a9c4 else 0x90dd95a83848e0d8)
      else
       if x & 0x10 == 0 then
        if x & 0x08 == 0 then
         if x & 0x04 == 0 then
          if x & 2 == 0 then (if x & 1 == 0 then 0xb1a17708b9d6de67 else 0x37bf2a447395d1a2) else (if x & 1 == 0 then 0x4c1b3da5e926836a else 0xbeb5ea8b355fd4e1)
         else
          if x & 2 == 0 then (if x & 1 == 0 then 0xe3926db655ff491c else 0x3baf3c4a7193d9a8) else (if x & 1 == 0 then 0x07ff727c7b8df18a else 0x0f149d838c890a86)
        else
         if x & 0x04 == 0 then
          if x & 2 == 0 then (if x & 1 == 0 then 0x31b721437296d5a7 else 0x1734b19f88851a92) else (if x & 1 == 0 then 0x0ee3e4f8f607ff09 else 0xfc4d33d62a7ea882)
         else
          if x & 2 == 0 then (if x & 1 == 0 then 0x84edafba3e42f8c6 else 0xd9ca28875ee2653b) else (if x & 1 == 0 then 0xd2254cf527699cbb else 0x890ac0cf46ca0543)
       else
        if x & 0x08 == 0 then
         if x & 0x04 == 0 then
          if x & 2 == 0 then (if x & 1 == 0 then 0x286074240c14303c else 0x430fa02665af89ec) else (if x & 1 == 0 then 0x6d67df0568b8bdd5 else 0x5b2f8c3a61a399f8)
         else
          if x & 2 == 0 then (if x & 1 == 0 then 0x0a181d0903050c0f else 0xbc46187dc15e23e2) else (if x & 1 == 0 then 0xef827bb857f94116 else 0xcefe9918d6677fa9)
        else
         if x & 0x04 == 0 then
          if x & 2 == 0 then (if x & 1 == 0 then 0xec86f035d976439a else 0xcdfa129558e87d25) else (if x & 1 == 0 then 0xea8efb32d875479f else 0x4917bd2f66aa85e3)
         else
          if x & 2 == 0 then (if x & 1 == 0 then 0xc8f6921fd7647bac else 0x9ccd83a63a4ee8d2) else (if x & 1 == 0 then 0x8a0e4b42c84507cf else 0x88fdb9b43c44f0cc)
    else
     if x & 0x40 == 0 then
      if x & 0x20 == 0 then
       if x & 0x10 == 0 then
        if x & 0x08 == 0 then
         if x & 0x04 == 0 then
          if x & 2 == 0 then (if x & 1 == 0 then 0x268390dcfa13cf35 else 0x53c463c596a762f4) else (if x & 1 == 0 then 0xf551a552a7f4a601 else 0x77b401ef98b55ac2)
         else
          if x & 2 == 0 then (if x & 1 == 0 then 0x52331abeec29977b else 0xb7a97c0fb8d5da62) else (if x & 1 == 0 then 0xa876226fc7543bfc else 0xc319f66daeef822c)
        else
         if x & 0x04 == 0 then
          if x & 2 == 0 then (if x & 1 == 0 then 0x6b6fd40269bbb9d0 else 0xa762bfec4bdd317a) else (if x & 1 == 0 then 0xdd31d176abe0963d else 0xd121c778a9e69e37)
         else
          if x & 2 == 0 then (if x & 1 == 0 then 0x4f1fb62867a981e6 else 0x3c504e360a1e2822) else (if x & 1 == 0 then 0x8f02cbc847c90146 else 0x16c3c8e4f20bef1d)
       else
        if x & 0x08 == 0 then
         if x & 0x04 == 0 then
          if x & 2 == 0 then (if x & 1 == 0 then 0x99c1032cb5c2ee5b else 0xcc0d6bee226688aa) else (if x & 1 == 0 then 0x647b4981e532b356 else 0x5e230cb0ee2f9f71)
         else
          if x & 2 == 0 then (if x & 1 == 0 then 0xa399461dbedfc27c else 0xfa4538d12b7dac87) else (if x & 1 == 0 then 0x217ce2a0819e3ebf else 0x6c90a67e1236485a)
        else
         if x & 0x04 == 0 then
          if x & 2 == 0 then (if x & 1 == 0 then 0x2d6cf4ae839836b5 else 0x5ad8f5411b2d6c77) else (if x & 1 == 0 then 0x2470622a0e123836 else 0xca0560e923658caf)
         else
          if x & 2 == 0 then (if x & 1 == 0 then 0x04fbf9f1f502f306 else 0x8312ddc645cf094c) else (if x & 1 == 0 then 0xc61576e7216384a5 else 0x9e3e7150ce4f1fd1)
      else
       if x & 0x10 == 0 then
        if x & 0x08 == 0 then
         if x & 0x04 == 0 then
          if x & 2 == 0 then (if x & 1 == 0 then 0xab72a9e249db3970 else 0xe87d09c42c74b09c) else (if x & 1 == 0 then 0x2c9b8dd5f916c33a else 0x6e635488e637bf59)
         else
          if x & 2 == 0 then (if x & 1 == 0 then 0x93d91e25b6c7e254 else 0xf05d25d82878a088) else (if x & 1 == 0 then 0x72b8816517395c4b else 0x2b64ffa9829b32b0)
        else
         if x & 0x04 == 0 then
          if x & 2 == 0 then (if x & 1 == 0 then 0x5cd0fe461a2e6872 else 0x1d2cac968b80169d) else (if x & 1 == 0 then 0x3ea3bcc0fe1fdf21 else 0x1b24a7918a831298)
         else
          if x & 2 == 0 then (if x & 1 == 0 then 0x3648533f091b242d else 0x8c064045c94603ca) else (if x & 1 == 0 then 0x354cd8b2879426a1 else 0xb94a98f74ed2256b)
       else
        if x & 0x08 == 0 then
         if x & 0x04 == 0 then
          if x & 2 == 0 then (if x & 1 == 0 then 0x7c5b659de13ea342 else 0xe46d1fca2e72b896) else (if x & 1 == 0 then 0x62734286e431b753 else 0x7a536e9ae03da747)
         else
          if x & 2 == 0 then (if x & 1 == 0 then 0x400b2babeb208b60 else 0x47f459d790ad7aea) else (if x & 1 == 0 then 0xff49b85ba4f1aa0e else 0x44f0d25a1e227866)
        else
         if x & 0x04 == 0 then
          if x & 2 == 0 then (if x & 1 == 0 then 0x395ccebc85922eab else 0x5d27873d60a09dfd) else (if x & 1 == 0 then 0x0000000000000000 else 0xde355afb256f94b1)
         else
          if x & 2 == 0 then (if x & 1 == 0 then 0x02f3f2f6f401f703 else 0x1cdbd5edf10ee312) else (if x & 1 == 0 then 0x5fd475cb94a16afe else 0x3a5845310b1d2c27)
     else
      if x & 0x20 == 0 then
       if x & 0x10 == 0 then
        if x & 0x08 == 0 then
         if x & 0x04 == 0 then
          if x & 2 == 0 then (if x & 1 == 0 then 0x686b5f8fe734bb5c else 0x238f1056759fc9bc) else (if x & 1 == 0 then 0x582b07b7ef2c9b74 else 0xb8bde18c345cd0e4)
         else
          if x & 2 == 0 then (if x & 1 == 0 then 0xa695c6973153c4f5 else 0xc2ee8f16d46177a3) else (if x & 1 == 0 then 0xdacea30ad06d67b7 else 0x3344d3b5869722a4)
        else
         if x & 0x04 == 0 then
          if x & 2 == 0 then (if x & 1 == 0 then 0x19d755677e82e59b else 0xc901eb64adea8e23) else (if x & 1 == 0 then 0x34bba1c9fd1ad32e else 0xf6552edf297ba48d)
         else
          if x & 2 == 0 then (if x & 1 == 0 then 0xa09dcd903050c0f0 else 0x9ac588a13b4decd7) else (if x & 1 == 0 then 0x658c30fa9fbc46d9 else 0x2a9386d2f815c73f)
       else
        if x & 0x08 == 0 then
         if x & 0x04 == 0 then
          if x & 2 == 0 then (if x & 1 == 0 then 0xae7e2968c6573ff9 else 0x6a98ad7913354c5f) else (if x & 1 == 0 then 0x14303a12060a181e else 0x1e28271b050f1411)
         else
          if x & 2 == 0 then (if x & 1 == 0 then 0xa4663461c55233f6 else 0x6688bb7711334455) else (if x & 1 == 0 then 0x2f9f06587799c1b6 else 0x15c743697c84ed91)
        else
         if x & 0x04 == 0 then
          if x & 2 == 0 then (if x & 1 == 0 then 0x01f7797b7a8ef58f else 0x0de76f757888fd85) else (if x & 1 == 0 then 0xb4adf782365ad8ee else 0x48e0c4541c24706c)
         else
          if x & 2 == 0 then (if x & 1 == 0 then 0x96d59eaf394be4dd else 0xcbf2199259eb7920) else (if x & 1 == 0 then 0x50c0e84818286078 else 0xe98a70bf56fa4513)
      else
       if x & 0x10 == 0 then
        if x & 0x08 == 0 then
         if x & 0x04 == 0 then
          if x & 2 == 0 then (if x & 1 == 0 then 0x8df1393eb3c8f645 else 0x87e92437b0cdfa4a) else (if x & 1 == 0 then 0xd83d51fc246c90b4 else 0xc01d7de0206080a0)
         else
          if x & 2 == 0 then (if x & 1 == 0 then 0x8bf93239b2cbf240 else 0x4be44fd992ab72e0) else (if x & 1 == 0 then 0xed71894ea3f8b615 else 0xba4e137ac05d27e7)
        else
         if x & 0x04 == 0 then
          if x & 2 == 0 then (if x & 1 == 0 then 0x851ad6c144cc0d49 else 0x5137913362a695f7) else (if x & 1 == 0 then 0x6080b07010304050 else 0x9fc9082bb4c1ea5e)
         else
          if x & 2 == 0 then (if x & 1 == 0 then 0x3f54c5bb84912aae else 0x9722e7d443c51152) else (if x & 1 == 0 then 0x4dec44de93a876e5 else 0xb65e0574c25b2fed)
       else
        if x & 0x08 == 0 then
         if x & 0x04 == 0 then
          if x & 2 == 0 then (if x & 1 == 0 then 0xa16ab4eb4ade357f else 0xa9815b14bddace73) else (if x & 1 == 0 then 0x050c808a8f8c0689 else 0xee7502c32d77b499)
         else
          if x & 2 == 0 then (if x & 1 == 0 then 0xaf895013bcd9ca76 else 0x6f942df39cb94ad6) else (if x & 1 == 0 then 0x6177c90b6abeb5df else 0x9d3afadd40c01d5d)
        else
         if x & 0x04 == 0 then
          if x & 2 == 0 then (if x & 1 == 0 then 0x98367a57cf4c1bd4 else 0xeb798249a2fbb210) else (if x & 1 == 0 then 0x2774e9a7809d3aba else 0xbf4293f04fd1216e)
         else
          if x & 2 == 0 then (if x & 1 == 0 then 0x42f8d95d1f217c63 else 0x861e5d4cca430fc5) else (if x & 1 == 0 then 0xdb39da71aae39238 else 0x912aecd342c61557)
  }

  function T5(x: bv8): bv64 {
    if x & 0x80 == 0 then
     if x & 0x40 == 0 then
      if x & 0x20 == 0 then
       if x & 0x10 == 0 then
        if x & 0x08 == 0 then
         if x & 0x04 == 0 then
          if x & 2 == 0 then (if x & 1 == 0 then 0xb9bb016ad3ba68d2 else 0x9ae5b166fc54194d) else (if x & 1 == 0 then 0x65e2cd14712f93bc else 0x8725511b9c74b9cd)
         else
          if x & 2 == 0 then (if x & 1 == 0 then 0xa2f7a457f5530251 else 0xd6d003be68d3b86b) else (if x & 1 == 0 then 0xded604b56bd2bd6f else 0x52b3fe85d74d6429)
        else
         if x & 0x04 == 0 then
          if x & 2 == 0 then (if x & 1 == 0 then 0xbafdad4af0500d5d else 0x09cf63e0e9ac268a) else (if x & 1 == 0 then 0x1c0984968a8d830e else 0x91a51a4ddcbf79c6)
         else
          if x & 2 == 0 then (if x & 1 == 0 then 0xa73d4d379070addd else 0xaaf1a35cf6520755) else (if x & 1 == 0 then 0xa47be117b39ac852 else 0x5ab5f98ed44c612d)
       else
        if x & 0x08 == 0 then
         if x & 0x04 == 0 then
          if x & 2 == 0 then (if x & 1 == 0 then 0x0346ac2023ea658f else 0xe6c4118462d5a673) else (if x & 1 == 0 then 0xcc55c268a497f166 else 0xc6dc0da86ed1b263)
         else
          if x & 2 == 0 then (if x & 1 == 0 then 0x85aa99d05533ffcc else 0xb2fbaa41f3510859) else (if x & 1 == 0 then 0xe2c79c0fed5b2a71 else 0x59f355aef7a604a2)
        else
         if x & 0x04 == 0 then
          if x & 2 == 0 then (if x & 1 == 0 then 0xbefe20c17fde815f else 0x7aade5a2d848753d) else (if x & 1 == 0 then 0x29d77fcce5a8329a else 0xbc71e80ab699c75e)
         else
          if x & 2 == 0 then (if x & 1 == 0 then 0x96e03be670db904b else 0x8dac9edb5632fac8) else (if x & 1 == 0 then 0xd1952215c4b751e6 else 0xb332ceaa19fc2bd7)
      else
       if x & 0x10 == 0 then
        if x & 0x08 == 0 then
         if x & 0x04 == 0 then
          if x & 2 == 0 then (if x & 1 == 0 then 0x4b70937338e348ab else 0x8463fd3bbf9edc42) else (if x & 1 == 0 then 0xfc41d052ae91ef7e else 0xac7de61cb09bcd56)
         else
          if x & 2 == 0 then (if x & 1 == 0 then 0x437694783be24daf else 0xb1bd0661d0bb6dd6) else (if x & 1 == 0 then 0x329bdaf1c3415819 else 0x577917e5b26ecba5)
        else
         if x & 0x04 == 0 then
          if x & 2 == 0 then (if x & 1 == 0 then 0x41f95cb3f2a50bae else 0x16804b5640cbc00b) else (if x & 1 == 0 then 0x7f670cc2bd6bdab1 else 0xdc59cc7ea295fb6e)
         else
          if x & 2 == 0 then (if x & 1 == 0 then 0x61e1409ffea11fbe else 0xcb10e3c308f318eb) else (if x & 1 == 0 then 0xe181302fceb14ffe else 0x100c0e1606020a08)
       else
        if x & 0x08 == 0 then
         if x & 0x04 == 0 then
          if x & 2 == 0 then (if x & 1 == 0 then 0x2e925e6749ccdb17 else 0x6ea2663f51c4f337) else (if x & 1 == 0 then 0xe84e53cf271d6974 else 0xa0786c9c3c144450)
         else
          if x & 2 == 0 then (if x & 1 == 0 then 0x56b0730e58c3e82b else 0x3f57349aa563f291) else (if x & 1 == 0 then 0x9ee63ced73da954f else 0xd2d38e35e75d3469)
        else
         if x & 0x04 == 0 then
          if x & 2 == 0 then (if x & 1 == 0 then 0xc2df8023e15f3e61 else 0xaef22ed779dc8b57) else (if x & 1 == 0 then 0xcf136e48877d94e9 else 0x2694596c4acdde13)
         else
          if x & 2 == 0 then (if x & 1 == 0 then 0xdf1f605e817f9ee1 else 0xeac19b04ee5a2f75) else (if x & 1 == 0 then 0x477519f3b46cc1ad else 0xdad5893ee45c316d)
     else
      if x & 0x20 == 0 then
       if x & 0x10 == 0 then
        if x & 0x08 == 0 then
         if x & 0x04 == 0 then
          if x & 2 == 0 then (if x & 1 == 0 then 0xeb08ffef04f70cfb else 0x2dd4f2476a26be98) else (if x & 1 == 0 then 0xab38c7b71cff24db else 0x3b54b9112aed7e93)
         else
          if x & 2 == 0 then (if x & 1 == 0 then 0x134aa23625e86f87 else 0x9c69f426ba9dd34e) else (if x & 1 == 0 then 0x5f7f10eeb16fcea1 else 0x04038d8b8f8e8c02)
        else
         if x & 0x04 == 0 then
          if x & 2 == 0 then (if x & 1 == 0 then 0xc8564fe32b197d64 else 0x69e74794fda01aba) else (if x & 1 == 0 then 0xd31aeade0df017e7 else 0x3c1198ba8689971e)
         else
          if x & 2 == 0 then (if x & 1 == 0 then 0x78222d69110f333c else 0x3812153109071b1c) else (if x & 1 == 0 then 0x11c56afdecaf2986 else 0x8b20db9b10fb30cb)
       else
        if x & 0x08 == 0 then
         if x & 0x04 == 0 then
          if x & 2 == 0 then (if x & 1 == 0 then 0x4030385818082820 else 0xa87e6b973f154154) else (if x & 1 == 0 then 0x682e237f170d3934 else 0x20181c2c0c041410)
         else
          if x & 2 == 0 then (if x & 1 == 0 then 0x0806070b03010504 else 0x074521abac64e98d) else (if x & 1 == 0 then 0xb6f827ca7cdf845b else 0x97295f0d9a76b3c5)
        else
         if x & 0x04 == 0 then
          if x & 2 == 0 then (if x & 1 == 0 then 0xef0b72648b7980f9 else 0xa6f429dc7add8e53) else (if x & 1 == 0 then 0xf58eb3b2473dc9f4 else 0xb074628a3a164e58)
         else
          if x & 2 == 0 then (if x & 1 == 0 then 0xe582bda4413fc3fc else 0xa5b285fc5937ebdc) else (if x & 1 == 0 then 0x4f731ef8b76dc4a9 else 0xdd90a8954838d8e0)
      else
       if x & 0x10 == 0 then
        if x & 0x08 == 0 then
         if x & 0x04 == 0 then
          if x & 2 == 0 then (if x & 1 == 0 then 0xa1b10877d6b967de else 0xbf37442a9573a2d1) else (if x & 1 == 0 then 0x1b4ca53d26e96a83 else 0xb5be8bea5f35e1d4)
         else
          if x & 2 == 0 then (if x & 1 == 0 then 0x92e3b66dff551c49 else 0xaf3b4a3c9371a8d9) else (if x & 1 == 0 then 0xff077c728d7b8af1 else 0x140f839d898c860a)
        else
         if x & 0x04 == 0 then
          if x & 2 == 0 then (if x & 1 == 0 then 0xb73143219672a7d5 else 0x34179fb18588921a) else (if x & 1 == 0 then 0xe30ef8e407f609ff else 0x4dfcd6337e2a82a8)
         else
          if x & 2 == 0 then (if x & 1 == 0 then 0xed84baaf423ec6f8 else 0xcad98728e25e3b65) else (if x & 1 == 0 then 0x25d2f54c6927bb9c else 0x0a89cfc0ca464305)
       else
        if x & 0x08 == 0 then
         if x & 0x04 == 0 then
          if x & 2 == 0 then (if x & 1 == 0 then 0x60282474140c3c30 else 0x0f4326a0af65ec89) else (if x & 1 == 0 then 0x676d05dfb868d5bd else 0x2f5b3a8ca361f899)
         else
          if x & 2 == 0 then (if x & 1 == 0 then 0x180a091d05030f0c else 0x46bc7d185ec1e223) else (if x & 1 == 0 then 0x82efb87bf9571641 else 0xfece189967d6a97f)
        else
         if x & 0x04 == 0 then
          if x & 2 == 0 then (if x & 1 == 0 then 0x86ec35f076d99a43 else 0xfacd9512e858257d) else (if x & 1 == 0 then 0x8eea32fb75d89f47 else 0x17492fbdaa66e385)
         else
          if x & 2 == 0 then (if x & 1 == 0 then 0xf6c81f9264d7ac7b else 0xcd9ca6834e3ad2e8) else (if x & 1 == 0 then 0x0e8a424b45c8cf07 else 0xfd88b4b9443cccf0)
    else
     if x & 0x40 == 0 then
      if x & 0x20 == 0 then
       if x & 0x10 == 0 then
        if x & 0x08 == 0 then
         if x & 0x04 == 0 then
          if x & 2 == 0 then (if x & 1 == 0 then 0x8326dc9013fa35cf else 0xc453c563a796f462) else (if x & 1 == 0 then 0x51f552a5f4a701a6 else 0xb477ef01b598c25a)
         else
          if x & 2 == 0 then (if x & 1 == 0 then 0x3352be1a29ec7b97 else 0xa9b70f7cd5b862da) else (if x & 1 == 0 then 0x76a86f2254c7fc3b else 0x19c36df6efae2c82)
        else
         if x & 0x04 == 0 then
          if x & 2 == 0 then (if x & 1 == 0 then 0x6f6b02d4bb69d0b9 else 0x62a7ecbfdd4b7a31) else (if x & 1 == 0 then 0x31dd76d1e0ab3d96 else 0x21d178c7e6a9379e)
         else
          if x & 2 == 0 then (if x & 1 == 0 then 0x1f4f28b6a967e681 else 0x503c364e1e0a2228) else (if x & 1 == 0 then 0x028fc8cbc9474601 else 0xc316e4c80bf21def)
       else
        if x & 0x08 == 0 then
         if x & 0x04 == 0 then
          if x & 2 == 0 then (if x & 1 == 0 then 0xc1992c03c2b55bee else 0x0dccee6b6622aa88) else (if x & 1 == 0 then 0x7b64814932e556b3 else 0x235eb00c2fee719f)
         else
          if x & 2 == 0 then (if x & 1 == 0 then 0x99a31d46dfbe7cc2 else 0x45fad1387d2b87ac) else (if x & 1 == 0 then 0x7c21a0e29e81bf3e else 0x906c7ea636125a48)
        else
         if x & 0x04 == 0 then
          if x & 2 == 0 then (if x & 1 == 0 then 0x6c2daef49883b536 else 0xd85a41f52d1b776c) else (if x & 1 == 0 then 0x70242a62120e3638 else 0x05cae9606523af8c)
         else
          if x & 2 == 0 then (if x & 1 == 0 then 0xfb04f1f902f506f3 else 0x1283c6ddcf454c09) else (if x & 1 == 0 then 0x15c6e7766321a584 else 0x3e9e50714fced11f)
      else
       if x & 0x10 == 0 then
        if x & 0x08 == 0 then
         if x & 0x04 == 0 then
          if x & 2 == 0 then (if x & 1 == 0 then 0x72abe2a9db497039 else 0x7de8c409742c9cb0) else (if x & 1 == 0 then 0x9b2cd58d16f93ac3 else 0x636e885437e659bf)
         else
          if x & 2 == 0 then (if x & 1 == 0 then 0xd993251ec7b654e2 else 0x5df0d825782888a0) else (if x & 1 == 0 then 0xb872658139174b5c else 0x642ba9ff9b82b032)
        else
         if x & 0x04 == 0 then
          if x & 2 == 0 then (if x & 1 == 0 then 0xd05c46fe2e1a7268 else 0x2c1d96ac808b9d16) else (if x & 1 == 0 then 0xa33ec0bc1ffe21df else 0x241b91a7838a9812)
         else
          if x & 2 == 0 then (if x & 1 == 0 then 0x48363f531b092d24 else 0x068c454046c9ca03) else (if x & 1 == 0 then 0x4c35b2d89487a126 else 0x4ab9f798d24e6b25)
       else
        if x & 0x08 == 0 then
         if x & 0x04 == 0 then
          if x & 2 == 0 then (if x & 1 == 0 then 0x5b7c9d653ee142a3 else 0x6de4ca1f722e96b8) else (if x & 1 == 0 then 0x7362864231e453b7 else 0x537a9a6e3de047a7)
         else
          if x & 2 == 0 then (if x & 1 == 0 then 0x0b40ab2b20eb608b else 0xf447d759ad90ea7a) else (if x & 1 == 0 then 0x49ff5bb8f1a40eaa else 0xf0445ad2221e6678)
        else
         if x & 0x04 == 0 then
          if x & 2 == 0 then (if x & 1 == 0 then 0x5c39bcce9285ab2e else 0x275d3d87a060fd9d) else (if x & 1 == 0 then 0x0000000000000000 else 0x35defb5a6f25b194)
         else
          if x & 2 == 0 then (if x & 1 == 0 then 0xf302f6f201f403f7 else 0xdb1cedd50ef112e3) else (if x & 1 == 0 then 0xd45fcb75a194fe6a else 0x583a31451d0b272c)
     else
      if x & 0x20 == 0 then
       if x & 0x10 == 0 then
        if x & 0x08 == 0 then
         if x & 0x04 == 0 then
          if x & 2 == 0 then (if x & 1 == 0 then 0x6b688f5f34e75cbb else 0x8f2356109f75bcc9) else (if x & 1 == 0 then 0x2b58b7072cef749b else 0xbdb88ce15c34e4d0)
         else
          if x & 2 == 0 then (if x & 1 == 0 then 0x95a697c65331f5c4 else 0xeec2168f61d4a377) else (if x & 1 == 0 then 0xceda0aa36dd0b767 else 0x4433b5d39786a422)
        else
         if x & 0x04 == 0 then
          if x & 2 == 0 then (if x & 1 == 0 then 0xd7196755827e9be5 else 0x01c964ebeaad238e) else (if x & 1 == 0 then 0xbb34c9a11afd2ed3 else 0x55f6df2e7b298da4)
         else
          if x & 2 == 0 then (if x & 1 == 0 then 0x9da090cd5030f0c0 else 0xc59aa1884d3bd7ec) else (if x & 1 == 0 then 0x8c65fa30bc9fd946 else 0x932ad28615f83fc7)
       else
        if x & 0x08 == 0 then
         if x & 0x04 == 0 then
          if x & 2 == 0 then (if x & 1 == 0 then 0x7eae682957c6f93f else 0x986a79ad35135f4c) else (if x & 1 == 0 then 0x3014123a0a061e18 else 0x281e1b270f051114)
         else
          if x & 2 == 0 then (if x & 1 == 0 then 0x66a4613452c5f633 else 0x886677bb33115544) else (if x & 1 == 0 then 0x9f2f58069977b6c1 else 0xc7156943847c91ed)
        else
         if x & 0x04 == 0 then
          if x & 2 == 0 then (if x & 1 == 0 then 0xf7017b798e7a8ff5 else 0xe70d756f887885fd) else (if x & 1 == 0 then 0xadb482f75a36eed8 else 0xe04854c4241c6c70)
         else
          if x & 2 == 0 then (if x & 1 == 0 then 0xd596af9e4b39dde4 else 0xf2cb9219eb592079) else (if x & 1 == 0 then 0xc05048e828187860 else 0x8ae9bf70fa561345)
      else
       if x & 0x10 == 0 then
        if x & 0x08 == 0 then
         if x & 0x04 == 0 then
          if x & 2 == 0 then (if x & 1 == 0 then 0xf18d3e39c8b345f6 else 0xe9873724cdb04afa) else (if x & 1 == 0 then 0x3dd8fc516c24b490 else 0x1dc0e07d6020a080)
         else
          if x & 2 == 0 then (if x & 1 == 0 then 0xf98b3932cbb240f2 else 0xe44bd94fab92e072) else (if x & 1 == 0 then 0x71ed4e89f8a315b6 else 0x4eba7a135dc0e727)
        else
         if x & 0x04 == 0 then
          if x & 2 == 0 then (if x & 1 == 0 then 0x1a85c1d6cc44490d else 0x37513391a662f795) else (if x & 1 == 0 then 0x806070b030105040 else 0xc99f2b08c1b45eea)
         else
          if x & 2 == 0 then (if x & 1 == 0 then 0x543fbbc59184ae2a else 0x2297d4e7c5435211) else (if x & 1 == 0 then 0xec4dde44a893e576 else 0x5eb674055bc2ed2f)
       else
        if x & 0x08 == 0 then
         if x & 0x04 == 0 then
          if x & 2 == 0 then (if x & 1 == 0 then 0x6aa1ebb4de4a7f35 else 0x81a9145bdabd73ce) else (if x & 1 == 0 then 0x0c058a808c8f8906 else 0x75eec302772d99b4)
         else
          if x & 2 == 0 then (if x & 1 == 0 then 0x89af1350d9bc76ca else 0x946ff32db99cd64a) else (if x & 1 == 0 then 0x77610bc9be6adfb5 else 0x3a9dddfac0405d1d)
        else
         if x & 0x04 == 0 then
          if x & 2 == 0 then (if x & 1 == 0 then 0x3698577a4ccfd41b else 0x79eb4982fba210b2) else (if x & 1 == 0 then 0x7427a7e99d80ba3a else 0x42bff093d14f6e21)
         else
          if x & 2 == 0 then (if x & 1 == 0 then 0xf8425dd9211f637c else 0x1e864c5d43cac50f) else (if x & 1 == 0 then 0x39db71dae3aa3892 else 0x2a91d3ecc6425715)
  }

  function T6(x: bv8): bv64 {
    if x & 0x80 == 0 then
     if x & 0x40 == 0 then
      if x & 0x20 == 0 then
       if x & 0x10 == 0 then
        if x & 0x08 == 0 then
         if x & 0x04 == 0 then
          if x & 2 == 0 then (if x & 1 == 0 then 0x6a01bbb9d268bad3 else 0x66b1e59a4d1954fc) else (if x & 1 == 0 then 0x14cde265bc932f71 else 0x1b512587cdb9749c)
         else
          if x & 2 == 0 then (if x & 1 == 0 then 0x57a4f7a2510253f5 else 0xbe03d0d66bb8d368) else (if x & 1 == 0 then 0xb504d6de6fbdd26b else 0x85feb35229644dd7)
        else
         if x & 0x04 == 0 then
          if x & 2 == 0 then (if x & 1 == 0 then 0x4aadfdba5d0d50f0 else 0xe063cf098a26ace9) else (if x & 1 == 0 then 0x9684091c0e838d8a else 0x4d1aa591c679bfdc)
         else
          if x & 2 == 0 then (if x & 1 == 0 then 0x374d3da7ddad7090 else 0x5ca3f1aa550752f6) else (if x & 1 == 0 then 0x17e17ba452c89ab3 else 0x8ef9b55a2d614cd4)
       else
        if x & 0x08 == 0 then
         if x & 0x04 == 0 then
          if x & 2 == 0 then (if x & 1 == 0 then 0x20ac46038f65ea23 else 0x8411c4e673a6d562) else (if x & 1 == 0 then 0x68c255cc66f197a4 else 0xa80ddcc663b2d16e)
         else
          if x & 2 == 0 then (if x & 1 == 0 then 0xd099aa85ccff3355 else 0x41aafbb2590851f3) else (if x & 1 == 0 then 0x0f9cc7e2712a5bed else 0xae55f359a204a6f7)
        else
         if x & 0x04 == 0 then
          if x & 2 == 0 then (if x & 1 == 0 then 0xc120febe5f81de7f else 0xa2e5ad7a3d7548d8) else (if x & 1 == 0 then 0xcc7fd7299a32a8e5 else 0x0ae871bc5ec799b6)
         else
          if x & 2 == 0 then (if x & 1 == 0 then 0xe63be0964b90db70 else 0xdb9eac8dc8fa3256) else (if x & 1 == 0 then 0x152295d1e651b7c4 else 0xaace32b3d72bfc19)
      else
       if x & 0x10 == 0 then
        if x & 0x08 == 0 then
         if x & 0x04 == 0 then
          if x & 2 == 0 then (if x & 1 == 0 then 0x7393704bab48e338 else 0x3bfd638442dc9ebf) else (if x & 1 == 0 then 0x52d041fc7eef91ae else 0x1ce67dac56cd9bb0)
         else
          if x & 2 == 0 then (if x & 1 == 0 then 0x78947643af4de23b else 0x6106bdb1d66dbbd0) else (if x & 1 == 0 then 0xf1da9b32195841c3 else 0xe5177957a5cb6eb2)
        else
         if x & 0x04 == 0 then
          if x & 2 == 0 then (if x & 1 == 0 then 0xb35cf941ae0ba5f2 else 0x564b80160bc0cb40) else (if x & 1 == 0 then 0xc20c677fb1da6bbd else 0x7ecc59dc6efb95a2)
         else
          if x & 2 == 0 then (if x & 1 == 0 then 0x9f40e161be1fa1fe else 0xc3e310cbeb18f308) else (if x & 1 == 0 then 0x2f3081e1fe4fb1ce else 0x160e0c10080a0206)
       else
        if x & 0x08 == 0 then
         if x & 0x04 == 0 then
          if x & 2 == 0 then (if x & 1 == 0 then 0x675e922e17dbcc49 else 0x3f66a26e37f3c451) else (if x & 1 == 0 then 0xcf534ee874691d27 else 0x9c6c78a05044143c)
         else
          if x & 2 == 0 then (if x & 1 == 0 then 0x0e73b0562be8c358 else 0x9a34573f91f263a5) else (if x & 1 == 0 then 0xed3ce69e4f95da73 else 0x358ed3d269345de7)
        else
         if x & 0x04 == 0 then
          if x & 2 == 0 then (if x & 1 == 0 then 0x2380dfc2613e5fe1 else 0xd72ef2ae578bdc79) else (if x & 1 == 0 then 0x486e13cfe9947d87 else 0x6c59942613decd4a)
         else
          if x & 2 == 0 then (if x & 1 == 0 then 0x5e601fdfe19e7f81 else 0x049bc1ea752f5aee) else (if x & 1 == 0 then 0xf3197547adc16cb4 else 0x3e89d5da6d315ce4)
     else
      if x & 0x20 == 0 then
       if x & 0x10 == 0 then
        if x & 0x08 == 0 then
         if x & 0x04 == 0 then
          if x & 2 == 0 then (if x & 1 == 0 then 0xefff08ebfb0cf704 else 0x47f2d42d98be266a) else (if x & 1 == 0 then 0xb7c738abdb24ff1c else 0x11b9543b937eed2a)
         else
          if x & 2 == 0 then (if x & 1 == 0 then 0x36a24a13876fe825 else 0x26f4699c4ed39dba) else (if x & 1 == 0 then 0xee107f5fa1ce6fb1 else 0x8b8d0304028c8e8f)
        else
         if x & 0x04 == 0 then
          if x & 2 == 0 then (if x & 1 == 0 then 0xe34f56c8647d192b else 0x9447e769ba1aa0fd) else (if x & 1 == 0 then 0xdeea1ad3e717f00d else 0xba98113c1e978986)
         else
          if x & 2 == 0 then (if x & 1 == 0 then 0x692d22783c330f11 else 0x311512381c1b0709) else (if x & 1 == 0 then 0xfd6ac5118629afec else 0x9bdb208bcb30fb10)
       else
        if x & 0x08 == 0 then
         if x & 0x04 == 0 then
          if x & 2 == 0 then (if x & 1 == 0 then 0x5838304020280818 else 0x976b7ea85441153f) else (if x & 1 == 0 then 0x7f232e6834390d17 else 0x2c1c18201014040c)
         else
          if x & 2 == 0 then (if x & 1 == 0 then 0x0b07060804050103 else 0xab2145078de964ac) else (if x & 1 == 0 then 0xca27f8b65b84df7c else 0x0d5f2997c5b3769a)
        else
         if x & 0x04 == 0 then
          if x & 2 == 0 then (if x & 1 == 0 then 0x64720beff980798b else 0xdc29f4a6538edd7a) else (if x & 1 == 0 then 0xb2b38ef5f4c93d47 else 0x8a6274b0584e163a)
         else
          if x & 2 == 0 then (if x & 1 == 0 then 0xa4bd82e5fcc33f41 else 0xfc85b2a5dceb3759) else (if x & 1 == 0 then 0xf81e734fa9c46db7 else 0x95a890dde0d83848)
      else
       if x & 0x10 == 0 then
        if x & 0x08 == 0 then
         if x & 0x04 == 0 then
          if x & 2 == 0 then (if x & 1 == 0 then 0x7708b1a1de67b9d6 else 0x2a4437bfd1a27395) else (if x & 1 == 0 then 0x3da54c1b836ae926 else 0xea8bbeb5d4e1355f)
         else
          if x & 2 == 0 then (if x & 1 == 0 then 0x6db6e392491c55ff else 0x3c4a3bafd9a87193) else (if x & 1 == 0 then 0x727c07fff18a7b8d else 0x9d830f140a868c89)
        else
         if x & 0x04 == 0 then
          if x & 2 == 0 then (if x & 1 == 0 then 0x214331b7d5a77296 else 0xb19f17341a928885) else (if x & 1 == 0 then 0xe4f80ee3ff09f607 else 0x33d6fc4da8822a7e)
         else
          if x & 2 == 0 then (if x & 1 == 0 then 0xafba84edf8c63e42 else 0x2887d9ca653b5ee2) else (if x & 1 == 0 then 0x4cf5d2259cbb2769 else 0xc0cf890a054346ca)
       else
        if x & 0x08 == 0 then
         if x & 0x04 == 0 then
          if x & 2 == 0 then (if x & 1 == 0 then 0x74242860303c0c14 else 0xa026430f89ec65af) else (if x & 1 == 0 then 0xdf056d67bdd568b8 else 0x8c3a5b2f99f861a3)
         else
          if x & 2 == 0 then (if x & 1 == 0 then 0x1d090a180c0f0305 else 0x187dbc4623e2c15e) else (if x & 1 == 0 then 0x7bb8ef82411657f9 else 0x9918cefe7fa9d667)
        else
         if x & 0x04 == 0 then
          if x & 2 == 0 then (if x & 1 == 0 then 0xf035ec86439ad976 else 0x1295cdfa7d2558e8) else (if x & 1 == 0 then 0xfb32ea8e479fd875 else 0xbd2f491785e366aa)
         else
          if x & 2 == 0 then (if x & 1 == 0 then 0x921fc8f67bacd764 else 0x83a69ccde8d23a4e) else (if x & 1 == 0 then 0x4b428a0e07cfc845 else 0xb9b488fdf0cc3c44)
    else
     if x & 0x40 == 0 then
      if x & 0x20 == 0 then
       if x & 0x10 == 0 then
        if x & 0x08 == 0 then
         if x & 0x04 == 0 then
          if x & 2 == 0 then (if x & 1 == 0 then 0x90dc2683cf35fa13 else 0x63c553c462f496a7) else (if x & 1 == 0 then 0xa552f551a601a7f4 else 0x01ef77b45ac298b5)
         else
          if x & 2 == 0 then (if x & 1 == 0 then 0x1abe5233977bec29 else 0x7c0fb7a9da62b8d5) else (if x & 1 == 0 then 0x226fa8763bfcc754 else 0xf66dc319822caeef)
        else
         if x & 0x04 == 0 then
          if x & 2 == 0 then (if x & 1 == 0 then 0xd4026b6fb9d069bb else 0xbfeca762317a4bdd) else (if x & 1 == 0 then 0xd176dd31963dabe0 else 0xc778d1219e37a9e6)
         else
          if x & 2 == 0 then (if x & 1 == 0 then 0xb6284f1f81e667a9 else 0x4e363c5028220a1e) else (if x & 1 == 0 then 0xcbc88f02014647c9 else 0xc8e416c3ef1df20b)
       else
        if x & 0x08 == 0 then
         if x & 0x04 == 0 then
          if x & 2 == 0 then (if x & 1 == 0 then 0x032c99c1ee5bb5c2 else 0x6beecc0d88aa2266) else (if x & 1 == 0 then 0x4981647bb356e532 else 0x0cb05e239f71ee2f)
         else
          if x & 2 == 0 then (if x & 1 == 0 then 0x461da399c27cbedf else 0x38d1fa45ac872b7d) else (if x & 1 == 0 then 0xe2a0217c3ebf819e else 0xa67e6c90485a1236)
        else
         if x & 0x04 == 0 then
          if x & 2 == 0 then (if x & 1 == 0 then 0xf4ae2d6c36b58398 else 0xf5415ad86c771b2d) else (if x & 1 == 0 then 0x622a247038360e12 else 0x60e9ca058caf2365)
         else
          if x & 2 == 0 then (if x & 1 == 0 then 0xf9f104fbf306f502 else 0xddc68312094c45cf) else (if x & 1 == 0 then 0x76e7c61584a52163 else 0x71509e3e1fd1ce4f)
      else
       if x & 0x10 == 0 then
        if x & 0x08 == 0 then
         if x & 0x04 == 0 then
          if x & 2 == 0 then (if x & 1 == 0 then 0xa9e2ab72397049db else 0x09c4e87db09c2c74) else (if x & 1 == 0 then 0x8dd52c9bc33af916 else 0x54886e63bf59e637)
         else
          if x & 2 == 0 then (if x & 1 == 0 then 0x1e2593d9e254b6c7 else 0x25d8f05da0882878) else (if x & 1 == 0 then 0x816572b85c4b1739 else 0xffa92b6432b0829b)
        else
         if x & 0x04 == 0 then
          if x & 2 == 0 then (if x & 1 == 0 then 0xfe465cd068721a2e else 0xac961d2c169d8b80) else (if x & 1 == 0 then 0xbcc03ea3df21fe1f else 0xa7911b2412988a83)
         else
          if x & 2 == 0 then (if x & 1 == 0 then 0x533f3648242d091b else 0x40458c0603cac946) else (if x & 1 == 0 then 0xd8b2354c26a18794 else 0x98f7b94a256b4ed2)
       else
        if x & 0x08 == 0 then
         if x & 0x04 == 0 then
          if x & 2 == 0 then (if x & 1 == 0 then 0x659d7c5ba342e13e else 0x1fcae46db8962e72) else (if x & 1 == 0 then 0x42866273b753e431 else 0x6e9a7a53a747e03d)
         else
          if x & 2 == 0 then (if x & 1 == 0 then 0x2bab400b8b60eb20 else 0x59d747f47aea90ad) else (if x & 1 == 0 then 0xb85bff49aa0ea4f1 else 0xd25a44f078661e22)
        else
         if x & 0x04 == 0 then
          if x & 2 == 0 then (if x & 1 == 0 then 0xcebc395c2eab8592 else 0x873d5d279dfd60a0) else (if x & 1 == 0 then 0x0000000000000000 else 0x5afbde3594b1256f)
         else
          if x & 2 == 0 then (if x & 1 == 0 then 0xf2f602f3f703f401 else 0xd5ed1cdbe312f10e) else (if x & 1 == 0 then 0x75cb5fd46afe94a1 else 0x45313a582c270b1d)
     else
      if x & 0x20 == 0 then
       if x & 0x10 == 0 then
        if x & 0x08 == 0 then
         if x & 0x04 == 0 then
          if x & 2 == 0 then (if x & 1 == 0 then 0x5f8f686bbb5ce734 else 0x1056238fc9bc759f) else (if x & 1 == 0 then 0x07b7582b9b74ef2c else 0xe18cb8bdd0e4345c)
         else
          if x & 2 == 0 then (if x & 1 == 0 then 0xc697a695c4f53153 else 0x8f16c2ee77a3d461) else (if x & 1 == 0 then 0xa30adace67b7d06d else 0xd3b5334422a48697)
        else
         if x & 0x04 == 0 then
          if x & 2 == 0 then (if x & 1 == 0 then 0x556719d7e59b7e82 else 0xeb64c9018e23adea) else (if x & 1 == 0 then 0xa1c934bbd32efd1a else 0x2edff655a48d297b)
         else
          if x & 2 == 0 then (if x & 1 == 0 then 0xcd90a09dc0f03050 else 0x88a19ac5ecd73b4d) else (if x & 1 == 0 then 0x30fa658c46d99fbc else 0x86d22a93c73ff815)
       else
        if x & 0x08 == 0 then
         if x & 0x04 == 0 then
          if x & 2 == 0 then (if x & 1 == 0 then 0x2968ae7e3ff9c657 else 0xad796a984c5f1335) else (if x & 1 == 0 then 0x3a121430181e060a else 0x271b1e281411050f)
         else
          if x & 2 == 0 then (if x & 1 == 0 then 0x3461a46633f6c552 else 0xbb77668844551133) else (if x & 1 == 0 then 0x06582f9fc1b67799 else 0x436915c7ed917c84)
        else
         if x & 0x04 == 0 then
          if x & 2 == 0 then (if x & 1 == 0 then 0x797b01f7f58f7a8e else 0x6f750de7fd857888) else (if x & 1 == 0 then 0xf782b4add8ee365a else 0xc45448e0706c1c24)
         else
          if x & 2 == 0 then (if x & 1 == 0 then 0x9eaf96d5e4dd394b else 0x1992cbf2792059eb) else (if x & 1 == 0 then 0xe84850c060781828 else 0x70bfe98a451356fa)
      else
       if x & 0x10 == 0 then
        if x & 0x08 == 0 then
         if x & 0x04 == 0 then
          if x & 2 == 0 then (if x & 1 == 0 then 0x393e8df1f645b3c8 else 0x243787e9fa4ab0cd) else (if x & 1 == 0 then 0x51fcd83d90b4246c else 0x7de0c01d80a02060)
         else
          if x & 2 == 0 then (if x & 1 == 0 then 0x32398bf9f240b2cb else 0x4fd94be472e092ab) else (if x & 1 == 0 then 0x894eed71b615a3f8 else 0x137aba4e27e7c05d)
        else
         if x & 0x04 == 0 then
          if x & 2 == 0 then (if x & 1 == 0 then 0xd6c1851a0d4944cc else 0x9133513795f762a6) else (if x & 1 == 0 then 0xb070608040501030 else 0x082b9fc9ea5eb4c1)
         else
          if x & 2 == 0 then (if x & 1 == 0 then 0xc5bb3f542aae8491 else 0xe7d49722115243c5) else (if x & 1 == 0 then 0x44de4dec76e593a8 else 0x0574b65e2fedc25b)
       else
        if x & 0x08 == 0 then
         if x & 0x04 == 0 then
          if x & 2 == 0 then (if x & 1 == 0 then 0xb4eba16a357f4ade else 0x5b14a981ce73bdda) else (if x & 1 == 0 then 0x808a050c06898f8c else 0x02c3ee75b4992d77)
         else
          if x & 2 == 0 then (if x & 1 == 0 then 0x5013af89ca76bcd9 else 0x2df36f944ad69cb9) else (if x & 1 == 0 then 0xc90b6177b5df6abe else 0xfadd9d3a1d5d40c0)
        else
         if x & 0x04 == 0 then
          if x & 2 == 0 then (if x & 1 == 0 then 0x7a5798361bd4cf4c else 0x8249eb79b210a2fb) else (if x & 1 == 0 then 0xe9a727743aba809d else 0x93f0bf42216e4fd1)
         else
          if x & 2 == 0 then (if x & 1 == 0 then 0xd95d42f87c631f21 else 0x5d4c861e0fc5ca43) else (if x & 1 == 0 then 0xda71db399238aae3 else 0xecd3912a155742c6)
  }

  function T7(x: bv8): bv64 {
    if x & 0x80 == 0 then
     if x & 0x40 == 0 then
      if x & 0x20 == 0 then
       if x & 0x10 == 0 then
        if x & 0x08 == 0 then
         if x & 0x04 == 0 then
          if x & 2 == 0 then (if x & 1 == 0 then 0x016ab9bb68d2d3ba else 0xb1669ae5194dfc54) else (if x & 1 == 0 then 0xcd1465e293bc712f else 0x511b8725b9cd9c74)
         else
          if x & 2 == 0 then (if x & 1 == 0 then 0xa457a2f70251f553 else 0x03bed6d0b86b68d3) else (if x & 1 == 0 then 0x04b5ded6bd6f6bd2 else 0xfe8552b36429d74d)
        else
         if x & 0x04 == 0 then
          if x & 2 == 0 then (if x & 1 == 0 then 0xad4abafd0d5df050 else 0x63e009cf268ae9ac) else (if x & 1 == 0 then 0x84961c09830e8a8d else 0x1a4d91a579c6dcbf)
         else
          if x & 2 == 0 then (if x & 1 == 0 then 0x4d37a73daddd9070 else 0xa35caaf10755f652) else (if x & 1 == 0 then 0xe117a47bc852b39a else 0xf98e5ab5612dd44c)
       else
        if x & 0x08 == 0 then
         if x & 0x04 == 0 then
          if x & 2 == 0 then (if x & 1 == 0 then 0xac200346658f23ea else 0x1184e6c4a67362d5) else (if x & 1 == 0 then 0xc268cc55f166a497 else 0x0da8c6dcb2636ed1)
         else
          if x & 2 == 0 then (if x & 1 == 0 then 0x99d085aaffcc5533 else 0xaa41b2fb0859f351) else (if x & 1 == 0 then 0x9c0fe2c72a71ed5b else 0x55ae59f304a2f7a6)
        else
         if x & 0x04 == 0 then
          if x & 2 == 0 then (if x & 1 == 0 then 0x20c1befe815f7fde else 0xe5a27aad753dd848) else (if x & 1 == 0 then 0x7fcc29d7329ae5a8 else 0xe80abc71c75eb699)
         else
          if x & 2 == 0 then (if x & 1 == 0 then 0x3be696e0904b70db else 0x9edb8dacfac85632) else (if x & 1 == 0 then 0x2215d19551e6c4b7 else 0xceaab3322bd719fc)
      else
       if x & 0x10 == 0 then
        if x & 0x08 == 0 then
         if x & 0x04 == 0 then
          if x & 2 == 0 then (if x & 1 == 0 then 0x93734b7048ab38e3 else 0xfd3b8463dc42bf9e) else (if x & 1 == 0 then 0xd052fc41ef7eae91 else 0xe61cac7dcd56b09b)
         else
          if x & 2 == 0 then (if x & 1 == 0 then 0x947843764daf3be2 else 0x0661b1bd6dd6d0bb) else (if x & 1 == 0 then 0xdaf1329b5819c341 else 0x17e55779cba5b26e)
        else
         if x & 0x04 == 0 then
          if x & 2 == 0 then (if x & 1 == 0 then 0x5cb341f90baef2a5 else 0x4b561680c00b40cb) else (if x & 1 == 0 then 0x0cc27f67dab1bd6b else 0xcc7edc59fb6ea295)
         else
          if x & 2 == 0 then (if x & 1 == 0 then 0x409f61e11fbefea1 else 0xe3c3cb1018eb08f3) else (if x & 1 == 0 then 0x302fe1814ffeceb1 else 0x0e16100c0a080602)
       else
        if x & 0x08 == 0 then
         if x & 0x04 == 0 then
          if x & 2 == 0 then (if x & 1 == 0 then 0x5e672e92db1749cc else 0x663f6ea2f33751c4) else (if x & 1 == 0 then 0x53cfe84e6974271d else 0x6c9ca07844503c14)
         else
          if x & 2 == 0 then (if x & 1 == 0 then 0x730e56b0e82b58c3 else 0x349a3f57f291a563) else (if x & 1 == 0 then 0x3ced9ee6954f73da else 0x8e35d2d33469e75d)
        else
         if x & 0x04 == 0 then
          if x & 2 == 0 then (if x & 1 == 0 then 0x8023c2df3e61e15f else 0x2ed7aef28b5779dc) else (if x & 1 == 0 then 0x6e48cf1394e9877d else 0x596c2694de134acd)
         else
          if x & 2 == 0 then (if x & 1 == 0 then 0x605edf1f9ee1817f else 0x9b04eac12f75ee5a) else (if x & 1 == 0 then 0x19f34775c1adb46c else 0x893edad5316de45c)
     else
      if x & 0x20 == 0 then
       if x & 0x10 == 0 then
        if x & 0x08 == 0 then
         if x & 0x04 == 0 then
          if x & 2 == 0 then (if x & 1 == 0 then 0xffefeb080cfb04f7 else 0xf2472dd4be986a26) else (if x & 1 == 0 then 0xc7b7ab3824db1cff else 0xb9113b547e932aed)
         else
          if x & 2 == 0 then (if x & 1 == 0 then 0xa236134a6f8725e8 else 0xf4269c69d34eba9d) else (if x & 1 == 0 then 0x10ee5f7fcea1b16f else 0x8d8b04038c028f8e)
        else
         if x & 0x04 == 0 then
          if x & 2 == 0 then (if x & 1 == 0 then 0x4fe3c8567d642b19 else 0x479469e71abafda0) else (if x & 1 == 0 then 0xeaded31a17e70df0 else 0x98ba3c11971e8689)
         else
          if x & 2 == 0 then (if x & 1 == 0 then 0x2d697822333c110f else 0x153138121b1c0907) else (if x & 1 == 0 then 0x6afd11c52986ecaf else 0xdb9b8b2030cb10fb)
       else
        if x & 0x08 == 0 then
         if x & 0x04 == 0 then
          if x & 2 == 0 then (if x & 1 == 0 then 0x3858403028201808 else 0x6b97a87e41543f15) else (if x & 1 == 0 then 0x237f682e3934170d else 0x1c2c201814100c04)
         else
          if x & 2 == 0 then (if x & 1 == 0 then 0x070b080605040301 else 0x21ab0745e98dac64) else (if x & 1 == 0 then 0x27cab6f8845b7cdf else 0x5f0d9729b3c59a76)
        else
         if x & 0x04 == 0 then
          if x & 2 == 0 then (if x & 1 == 0 then 0x7264ef0b80f98b79 else 0x29dca6f48e537add) else (if x & 1 == 0 then 0xb3b2f58ec9f4473d else 0x628ab0744e583a16)
         else
          if x & 2 == 0 then (if x & 1 == 0 then 0xbda4e582c3fc413f else 0x85fca5b2ebdc5937) else (if x & 1 == 0 then 0x1ef84f73c4a9b76d else 0xa895dd90d8e04838)
      else
       if x & 0x10 == 0 then
        if x & 0x08 == 0 then
         if x & 0x04 == 0 then
          if x & 2 == 0 then (if x & 1 == 0 then 0x0877a1b167ded6b9 else 0x442abf37a2d19573) else (if x & 1 == 0 then 0xa53d1b4c6a8326e9 else 0x8beab5bee1d45f35)
         else
          if x & 2 == 0 then (if x & 1 == 0 then 0xb66d92e31c49ff55 else 0x4a3caf3ba8d99371) else (if x & 1 == 0 then 0x7c72ff078af18d7b else 0x839d140f860a898c)
        else
         if x & 0x04 == 0 then
          if x & 2 == 0 then (if x & 1 == 0 then 0x4321b731a7d59672 else 0x9fb13417921a8588) else (if x & 1 == 0 then 0xf8e4e30e09ff07f6 else 0xd6334dfc82a87e2a)
         else
          if x & 2 == 0 then (if x & 1 == 0 then 0xbaafed84c6f8423e else 0x8728cad93b65e25e) else (if x & 1 == 0 then 0xf54c25d2bb9c6927 else 0xcfc00a894305ca46)
       else
        if x & 0x08 == 0 then
         if x & 0x04 == 0 then
          if x & 2 == 0 then (if x & 1 == 0 then 0x247460283c30140c else 0x26a00f43ec89af65) else (if x & 1 == 0 then 0x05df676dd5bdb868 else 0x3a8c2f5bf899a361)
         else
          if x & 2 == 0 then (if x & 1 == 0 then 0x091d180a0f0c0503 else 0x7d1846bce2235ec1) else (if x & 1 == 0 then 0xb87b82ef1641f957 else 0x1899fecea97f67d6)
        else
         if x & 0x04 == 0 then
          if x & 2 == 0 then (if x & 1 == 0 then 0x35f086ec9a4376d9 else 0x9512facd257de858) else (if x & 1 == 0 then 0x32fb8eea9f4775d8 else 0x2fbd1749e385aa66)
         else
          if x & 2 == 0 then (if x & 1 == 0 then 0x1f92f6c8ac7b64d7 else 0xa683cd9cd2e84e3a) else (if x & 1 == 0 then 0x424b0e8acf0745c8 else 0xb4b9fd88ccf0443c)
    else
     if x & 0x40 == 0 then
      if x & 0x20 == 0 then
       if x & 0x10 == 0 then
        if x & 0x08 == 0 then
         if x & 0x04 == 0 then
          if x & 2 == 0 then (if x & 1 == 0 then 0xdc90832635cf13fa else 0xc563c453f462a796) else (if x & 1 == 0 then 0x52a551f501a6f4a7 else 0xef01b477c25ab598)
         else
          if x & 2 == 0 then (if x & 1 == 0 then 0xbe1a33527b9729ec else 0x0f7ca9b762dad5b8) else (if x & 1 == 0 then 0x6f2276a8fc3b54c7 else 0x6df619c32c82efae)
        else
         if x & 0x04 == 0 then
          if x & 2 == 0 then (if x & 1 == 0 then 0x02d46f6bd0b9bb69 else 0xecbf62a77a31dd4b) else (if x & 1 == 0 then 0x76d131dd3d96e0ab else 0x78c721d1379ee6a9)
         else
          if x & 2 == 0 then (if x & 1 == 0 then 0x28b61f4fe681a967 else 0x364e503c22281e0a) else (if x & 1 == 0 then 0xc8cb028f4601c947 else 0xe4c8c3161def0bf2)
       else
        if x & 0x08 == 0 then
         if x & 0x04 == 0 then
          if x & 2 == 0 then (if x & 1 == 0 then 0x2c03c1995beec2b5 else 0xee6b0dccaa886622) else (if x & 1 == 0 then 0x81497b6456b332e5 else 0xb00c235e719f2fee)
         else
          if x & 2 == 0 then (if x & 1 == 0 then 0x1d4699a37cc2dfbe else 0xd13845fa87ac7d2b) else (if x & 1 == 0 then 0xa0e27c21bf3e9e81 else 0x7ea6906c5a483612)
        else
         if x & 0x04 == 0 then
          if x & 2 == 0 then (if x & 1 == 0 then 0xaef46c2db5369883 else 0x41f5d85a776c2d1b) else (if x & 1 == 0 then 0x2a6270243638120e else 0xe96005caaf8c6523)
         else
          if x & 2 == 0 then (if x & 1 == 0 then 0xf1f9fb0406f302f5 else 0xc6dd12834c09cf45) else (if x & 1 == 0 then 0xe77615c6a5846321 else 0x50713e9ed11f4fce)
      else
       if x & 0x10 == 0 then
        if x & 0x08 == 0 then
         if x & 0x04 == 0 then
          if x & 2 == 0 then (if x & 1 == 0 then 0xe2a972ab7039db49 else 0xc4097de89cb0742c) else (if x & 1 == 0 then 0xd58d9b2c3ac316f9 else 0x8854636e59bf37e6)
         else
          if x & 2 == 0 then (if x & 1 == 0 then 0x251ed99354e2c7b6 else 0xd8255df088a07828) else (if x & 1 == 0 then 0x6581b8724b5c3917 else 0xa9ff642bb0329b82)
        else
         if x & 0x04 == 0 then
          if x & 2 == 0 then (if x & 1 == 0 then 0x46fed05c72682e1a else 0x96ac2c1d9d16808b) else (if x & 1 == 0 then 0xc0bca33e21df1ffe else 0x91a7241b9812838a)
         else
          if x & 2 == 0 then (if x & 1 == 0 then 0x3f5348362d241b09 else 0x4540068cca0346c9) else (if x & 1 == 0 then 0xb2d84c35a1269487 else 0xf7984ab96b25d24e)
       else
        if x & 0x08 == 0 then
         if x & 0x04 == 0 then
          if x & 2 == 0 then (if x & 1 == 0 then 0x9d655b7c42a33ee1 else 0xca1f6de496b8722e) else (if x & 1 == 0 then 0x8642736253b731e4 else 0x9a6e537a47a73de0)
         else
          if x & 2 == 0 then (if x & 1 == 0 then 0xab2b0b40608b20eb else 0xd759f447ea7aad90) else (if x & 1 == 0 then 0x5bb849ff0eaaf1a4 else 0x5ad2f0446678221e)
        else
         if x & 0x04 == 0 then
          if x & 2 == 0 then (if x & 1 == 0 then 0xbcce5c39ab2e9285 else 0x3d87275dfd9da060) else (if x & 1 == 0 then 0x0000000000000000 else 0xfb5a35deb1946f25)
         else
          if x & 2 == 0 then (if x & 1 == 0 then 0xf6f2f30203f701f4 else 0xedd5db1c12e30ef1) else (if x & 1 == 0 then 0xcb75d45ffe6aa194 else 0x3145583a272c1d0b)
     else
      if x & 0x20 == 0 then
       if x & 0x10 == 0 then
        if x & 0x08 == 0 then
         if x & 0x04 == 0 then
          if x & 2 == 0 then (if x & 1 == 0 then 0x8f5f6b685cbb34e7 else 0x56108f23bcc99f75) else (if x & 1 == 0 then 0xb7072b58749b2cef else 0x8ce1bdb8e4d05c34)
         else
          if x & 2 == 0 then (if x & 1 == 0 then 0x97c695a6f5c45331 else 0x168feec2a37761d4) else (if x & 1 == 0 then 0x0aa3cedab7676dd0 else 0xb5d34433a4229786)
        else
         if x & 0x04 == 0 then
          if x & 2 == 0 then (if x & 1 == 0 then 0x6755d7199be5827e else 0x64eb01c9238eeaad) else (if x & 1 == 0 then 0xc9a1bb342ed31afd else 0xdf2e55f68da47b29)
         else
          if x & 2 == 0 then (if x & 1 == 0 then 0x90cd9da0f0c05030 else 0xa188c59ad7ec4d3b) else (if x & 1 == 0 then 0xfa308c65d946bc9f else 0xd286932a3fc715f8)
       else
        if x & 0x08 == 0 then
         if x & 0x04 == 0 then
          if x & 2 == 0 then (if x & 1 == 0 then 0x68297eaef93f57c6 else 0x79ad986a5f4c3513) else (if x & 1 == 0 then 0x123a30141e180a06 else 0x1b27281e11140f05)
         else
          if x & 2 == 0 then (if x & 1 == 0 then 0x613466a4f63352c5 else 0x77bb886655443311) else (if x & 1 == 0 then 0x58069f2fb6c19977 else 0x6943c71591ed847c)
        else
         if x & 0x04 == 0 then
          if x & 2 == 0 then (if x & 1 == 0 then 0x7b79f7018ff58e7a else 0x756fe70d85fd8878) else (if x & 1 == 0 then 0x82f7adb4eed85a36 else 0x54c4e0486c70241c)
         else
          if x & 2 == 0 then (if x & 1 == 0 then 0xaf9ed596dde44b39 else 0x9219f2cb2079eb59) else (if x & 1 == 0 then 0x48e8c05078602818 else 0xbf708ae91345fa56)
      else
       if x & 0x10 == 0 then
        if x & 0x08 == 0 then
         if x & 0x04 == 0 then
          if x & 2 == 0 then (if x & 1 == 0 then 0x3e39f18d45f6c8b3 else 0x3724e9874afacdb0) else (if x & 1 == 0 then 0xfc513dd8b4906c24 else 0xe07d1dc0a0806020)
         else
          if x & 2 == 0 then (if x & 1 == 0 then 0x3932f98b40f2cbb2 else 0xd94fe44be072ab92) else (if x & 1 == 0 then 0x4e8971ed15b6f8a3 else 0x7a134ebae7275dc0)
        else
         if x & 0x04 == 0 then
          if x & 2 == 0 then (if x & 1 == 0 then 0xc1d61a85490dcc44 else 0x33913751f795a662) else (if x & 1 == 0 then 0x70b0806050403010 else 0x2b08c99f5eeac1b4)
         else
          if x & 2 == 0 then (if x & 1 == 0 then 0xbbc5543fae2a9184 else 0xd4e722975211c543) else (if x & 1 == 0 then 0xde44ec4de576a893 else 0x74055eb6ed2f5bc2)
       else
        if x & 0x08 == 0 then
         if x & 0x04 == 0 then
          if x & 2 == 0 then (if x & 1 == 0 then 0xebb46aa17f35de4a else 0x145b81a973cedabd) else (if x & 1 == 0 then 0x8a800c0589068c8f else 0xc30275ee99b4772d)
         else
          if x & 2 == 0 then (if x & 1 == 0 then 0x135089af76cad9bc else 0xf32d946fd64ab99c) else (if x & 1 == 0 then 0x0bc97761dfb5be6a else 0xddfa3a9d5d1dc040)
        else
         if x & 0x04 == 0 then
          if x & 2 == 0 then (if x & 1 == 0 then 0x577a3698d41b4ccf else 0x498279eb10b2fba2) else (if x & 1 == 0 then 0xa7e97427ba3a9d80 else 0xf09342bf6e21d14f)
         else
          if x & 2 == 0 then (if x & 1 == 0 then 0x5dd9f842637c211f else 0x4c5d1e86c50f43ca) else (if x & 1 == 0 then 0x71da39db3892e3aa else 0xd3ec2a915715c642)
  }

  /** The S-box: the low byte of an entry of T7. */
  function Sbox(x: bv8): bv8 {
    if x & 0x80 == 0 then
     if x & 0x40 == 0 then
      if x & 0x20 == 0 then
       if x & 0x10 == 0 then
        if x & 0x08 == 0 then
         if x & 0x04 == 0 then
          if x & 2 == 0 then (if x & 1 == 0 then 0xba else 0x54) else (if x & 1 == 0 then 0x2f else 0x74)
         else
          if x & 2 == 0 then (if x & 1 == 0 then 0x53 else 0xd3) else (if x & 1 == 0 then 0xd2 else 0x4d)
        else
         if x & 0x04 == 0 then
          if x & 2 == 0 then (if x & 1 == 0 then 0x50 else 0xac) else (if x & 1 == 0 then 0x8d else 0xbf)
         else
          if x & 2 == 0 then (if x & 1 == 0 then 0x70 else 0x52) else (if x & 1 == 0 then 0x9a else 0x4c)
       else
        if x & 0x08 == 0 then
         if x & 0x04 == 0 then
          if x & 2 == 0 then (if x & 1 == 0 then 0xea else 0xd5) else (if x & 1 == 0 then 0x97 else 0xd1)
         else
          if x & 2 == 0 then (if x & 1 == 0 then 0x33 else 0x51) else (if x & 1 == 0 then 0x5b else 0xa6)
        else
         if x & 0x04 == 0 then
          if x & 2 == 0 then (if x & 1 == 0 then 0xde else 0x48) else (if x & 1 == 0 then 0xa8 else 0x99)
         else
          if x & 2 == 0 then (if x & 1 == 0 then 0xdb else 0x32) else (if x & 1 == 0 then 0xb7 else 0xfc)
      else
       if x & 0x10 == 0 then
        if x & 0x08 == 0 then
         if x & 0x04 == 0 then
          if x & 2 == 0 then (if x & 1 == 0 then 0xe3 else 0x9e) else (if x & 1 == 0 then 0x91 else 0x9b)
         else
          if x & 2 == 0 then (if x & 1 == 0 then 0xe2 else 0xbb) else (if x & 1 == 0 then 0x41 else 0x6e)
        else
         if x & 0x04 == 0 then
          if x & 2 == 0 then (if x & 1 == 0 then 0xa5 else 0xcb) else (if x & 1 == 0 then 0x6b else 0x95)
         else
          if x & 2 == 0 then (if x & 1 == 0 then 0xa1 else 0xf3) else (if x & 1 == 0 then 0xb1 else 0x02)
       else
        if x & 0x08 == 0 then
         if x & 0x04 == 0 then
          if x & 2 == 0 then (if x & 1 == 0 then 0xcc else 0xc4) else (if x & 1 == 0 then 0x1d else 0x14)
         else
          if x & 2 == 0 then (if x & 1 == 0 then 0xc3 else 0x63) else (if x & 1 == 0 then 0xda else 0x5d)
        else
         if x & 0x04 == 0 then
          if x & 2 == 0 then (if x & 1 == 0 then 0x5f else 0xdc) else (if x & 1 == 0 then 0x7d else 0xcd)
         else
          if x & 2 == 0 then (if x & 1 == 0 then 0x7f else 0x5a) else (if x & 1 == 0 then 0x6c else 0x5c)
     else
      if x & 0x20 == 0 then
       if x & 0x10 == 0 then
        if x & 0x08 == 0 then
         if x & 0x04 == 0 then
          if x & 2 == 0 then (if x & 1 == 0 then 0xf7 else 0x26) else (if x & 1 == 0 then 0xff else 0xed)
         else
          if x & 2 == 0 then (if x & 1 == 0 then 0xe8 else 0x9d) else (if x & 1 == 0 then 0x6f else 0x8e)
        else
         if x & 0x04 == 0 then
          if x & 2 == 0 then (if x & 1 == 0 then 0x19 else 0xa0) else (if x & 1 == 0 then 0xf0 else 0x89)
         else
          if x & 2 == 0 then (if x & 1 == 0 then 0x0f else 0x07) else (if x & 1 == 0 then 0xaf else 0xfb)
       else
        if x & 0x08 == 0 then
         if x & 0x04 == 0 then
          if x & 2 == 0 then (if x & 1 == 0 then 0x08 else 0x15) else (if x & 1 == 0 then 0x0d else 0x04)
         else
          if x & 2 == 0 then (if x & 1 == 0 then 0x01 else 0x64) else (if x & 1 == 0 then 0xdf else 0x76)
        else
         if x & 0x04 == 0 then
          if x & 2 == 0 then (if x & 1 == 0 then 0x79 else 0xdd) else (if x & 1 == 0 then 0x3d else 0x16)
         else
          if x & 2 == 0 then (if x & 1 == 0 then 0x3f else 0x37) else (if x & 1 == 0 then 0x6d else 0x38)
      else
       if x & 0x10 == 0 then
        if x & 0x08 == 0 then
         if x & 0x04 == 0 then
          if x & 2 == 0 then (if x & 1 == 0 then 0xb9 else 0x73) else (if x & 1 == 0 then 0xe9 else 0x35)
         else
          if x & 2 == 0 then (if x & 1 == 0 then 0x55 else 0x71) else (if x & 1 == 0 then 0x7b else 0x8c)
        else
         if x & 0x04 == 0 then
          if x & 2 == 0 then (if x & 1 == 0 then 0x72 else 0x88) else (if x & 1 == 0 then 0xf6 else 0x2a)
         else
          if x & 2 == 0 then (if x & 1 == 0 then 0x3e else 0x5e) else (if x & 1 == 0 then 0x27 else 0x46)
       else
        if x & 0x08 == 0 then
         if x & 0x04 == 0 then
          if x & 2 == 0 then (if x & 1 == 0 then 0x0c else 0x65) else (if x & 1 == 0 then 0x68 else 0x61)
         else
          if x & 2 == 0 then (if x & 1 == 0 then 0x03 else 0xc1) else (if x & 1 == 0 then 0x57 else 0xd6)
        else
         if x & 0x04 == 0 then
          if x & 2 == 0 then (if x & 1 == 0 then 0xd9 else 0x58) else (if x & 1 == 0 then 0xd8 else 0x66)
         else
          if x & 2 == 0 then (if x & 1 == 0 then 0xd7 else 0x3a) else (if x & 1 == 0 then 0xc8 else 0x3c)
    else
     if x & 0x40 == 0 then
      if x & 0x20 == 0 then
       if x & 0x10 == 0 then
        if x & 0x08 == 0 then
         if x & 0x04 == 0 then
          if x & 2 == 0 then (if x & 1 == 0 then 0xfa else 0x96) else (if x & 1 == 0 then 0xa7 else 0x98)
         else
          if x & 2 == 0 then (if x & 1 == 0 then 0xec else 0xb8) else (if x & 1 == 0 then 0xc7 else 0xae)
        else
         if x & 0x04 == 0 then
          if x & 2 == 0 then (if x & 1 == 0 then 0x69 else 0x4b) else (if x & 1 == 0 then 0xab else 0xa9)
         else
          if x & 2 == 0 then (if x & 1 == 0 then 0x67 else 0x0a) else (if x & 1 == 0 then 0x47 else 0xf2)
       else
        if x & 0x08 == 0 then
         if x & 0x04 == 0 then
          if x & 2 == 0 then (if x & 1 == 0 then 0xb5 else 0x22) else (if x & 1 == 0 then 0xe5 else 0xee)
         else
          if x & 2 == 0 then (if x & 1 == 0 then 0xbe else 0x2b) else (if x & 1 == 0 then 0x81 else 0x12)
        else
         if x & 0x04 == 0 then
          if x & 2 == 0 then (if x & 1 == 0 then 0x83 else 0x1b) else (if x & 1 == 0 then 0x0e else 0x23)
         else
          if x & 2 == 0 then (if x & 1 == 0 then 0xf5 else 0x45) else (if x & 1 == 0 then 0x21 else 0xce)
      else
       if x & 0x10 == 0 then
        if x & 0x08 == 0 then
         if x & 0x04 == 0 then
          if x & 2 == 0 then (if x & 1 == 0 then 0x49 else 0x2c) else (if x & 1 == 0 then 0xf9 else 0xe6)
         else
          if x & 2 == 0 then (if x & 1 == 0 then 0xb6 else 0x28) else (if x & 1 == 0 then 0x17 else 0x82)
        else
         if x & 0x04 == 0 then
          if x & 2 == 0 then (if x & 1 == 0 then 0x1a else 0x8b) else (if x & 1 == 0 then 0xfe else 0x8a)
         else
          if x & 2 == 0 then (if x & 1 == 0 then 0x09 else 0xc9) else (if x & 1 == 0 then 0x87 else 0x4e)
       else
        if x & 0x08 == 0 then
         if x & 0x04 == 0 then
          if x & 2 == 0 then (if x & 1 == 0 then 0xe1 else 0x2e) else (if x & 1 == 0 then 0xe4 else 0xe0)
         else
          if x & 2 == 0 then (if x & 1 == 0 then 0xeb else 0x90) else (if x & 1 == 0 then 0xa4 else 0x1e)
        else
         if x & 0x04 == 0 then
          if x & 2 == 0 then (if x & 1 == 0 then 0x85 else 0x60) else (if x & 1 == 0 then 0x00 else 0x25)
         else
          if x & 2 == 0 then (if x & 1 == 0 then 0xf4 else 0xf1) else (if x & 1 == 0 then 0x94 else 0x0b)
     else
      if x & 0x20 == 0 then
       if x & 0x10 == 0 then
        if x & 0x08 == 0 then
         if x & 0x04 == 0 then
          if x & 2 == 0 then (if x & 1 == 0 then 0xe7 else 0x75) else (if x & 1 == 0 then 0xef else 0x34)
         else
          if x & 2 == 0 then (if x & 1 == 0 then 0x31 else 0xd4) else (if x & 1 == 0 then 0xd0 else 0x86)
        else
         if x & 0x04 == 0 then
          if x & 2 == 0 then (if x & 1 == 0 then 0x7e else 0xad) else (if x & 1 == 0 then 0xfd else 0x29)
         else
          if x & 2 == 0 then (if x & 1 == 0 then 0x30 else 0x3b) else (if x & 1 == 0 then 0x9f else 0xf8)
       else
        if x & 0x08 == 0 then
         if x & 0x04 == 0 then
          if x & 2 == 0 then (if x & 1 == 0 then 0xc6 else 0x13) else (if x & 1 == 0 then 0x06 else 0x05)
         else
          if x & 2 == 0 then (if x & 1 == 0 then 0xc5 else 0x11) else (if x & 1 == 0 then 0x77 else 0x7c)
        else
         if x & 0x04 == 0 then
          if x & 2 == 0 then (if x & 1 == 0 then 0x7a else 0x78) else (if x & 1 == 0 then 0x36 else 0x1c)
         else
          if x & 2 == 0 then (if x & 1 == 0 then 0x39 else 0x59) else (if x & 1 == 0 then 0x18 else 0x56)
      else
       if x & 0x10 == 0 then
        if x & 0x08 == 0 then
         if x & 0x04 == 0 then
          if x & 2 == 0 then (if x & 1 == 0 then 0xb3 else 0xb0) else (if x & 1 == 0 then 0x24 else 0x20)
         else
          if x & 2 == 0 then (if x & 1 == 0 then 0xb2 else 0x92) else (if x & 1 == 0 then 0xa3 else 0xc0)
        else
         if x & 0x04 == 0 then
          if x & 2 == 0 then (if x & 1 == 0 then 0x44 else 0x62) else (if x & 1 == 0 then 0x10 else 0xb4)
         else
          if x & 2 == 0 then (if x & 1 == 0 then 0x84 else 0x43) else (if x & 1 == 0 then 0x93 else 0xc2)
       else
        if x & 0x08 == 0 then
         if x & 0x04 == 0 then
          if x & 2 == 0 then (if x & 1 == 0 then 0x4a else 0xbd) else (if x & 1 == 0 then 0x8f else 0x2d)
         else
          if x & 2 == 0 then (if x & 1 == 0 then 0xbc else 0x9c) else (if x & 1 == 0 then 0x6a else 0x40)
        else
         if x & 0x04 == 0 then
          if x & 2 == 0 then (if x & 1 == 0 then 0xcf else 0xa2) else (if x & 1 == 0 then 0x80 else 0x4f)
         else
          if x & 2 == 0 then (if x & 1 == 0 then 0x1f else 0xca) else (if x & 1 == 0 then 0xaa else 0x42)
  }
}
