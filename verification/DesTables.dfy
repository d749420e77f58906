/**
  The eight DES substitution tables with the permutation P folded in
  (`NXTservices/des.c:97-247`), indexed by six bits.  Each is a decision tree on the index
  bits, most significant first, so the entries stand in index order.
 */
module DesTables {

  function SP1(x: bv8): bv32 {
    if x & 0x20 == 0 then
     if x & 0x10 == 0 then
      if x & 0x08 == 0 then
       if x & 0x04 == 0 then
        if x & 2 == 0 then (if x & 1 == 0 then 0x01010400 else 0x00000000) else (if x & 1 == 0 then 0x00010000 else 0x01010404)
       else
        if x & 2 == 0 then (if x & 1 == 0 then 0x01010004 else 0x00010404) else (if x & 1 == 0 then 0x00000004 else 0x00010000)
      else
       if x & 0x04 == 0 then
        if x & 2 == 0 then (if x & 1 == 0 then 0x00000400 else 0x01010400) else (if x & 1 == 0 then 0x01010404 else 0x00000400)
       else
        if x & 2 == 0 then (if x & 1 == 0 then 0x01000404 else 0x01010004) else (if x & 1 == 0 then 0x01000000 else 0x00000004)
     else
      if x & 0x08 == 0 then
       if x & 0x04 == 0 then
        if x & 2 == 0 then (if x & 1 == 0 then 0x00000404 else 0x01000400) else (if x & 1 == 0 then 0x01000400 else 0x00010400)
       else
        if x & 2 == 0 then (if x & 1 == 0 then 0x00010400 else 0x01010000) else (if x & 1 == 0 then 0x01010000 else 0x01000404)
      else
       if x & 0x04 == 0 then
        if x & 2 == 0 then (if x & 1 == 0 then 0x00010004 else 0x01000004) else (if x & 1 == 0 then 0x01000004 else 0x00010004)
       else
        if x & 2 == 0 then (if x & 1 == 0 then 0x00000000 else 0x00000404) else (if x & 1 == 0 then 0x00010404 else 0x01000000)
    else
     if x & 0x10 == 0 then
      if x & 0x08 == 0 then
       if x & 0x04 == 0 then
        if x & 2 == 0 then (if x & 1 == 0 then 0x00010000 else 0x01010404) else (if x & 1 == 0 then 0x00000004 else 0x01010000)
       else
        if x & 2 == 0 then (if x & 1 == 0 then 0x01010400 else 0x01000000) else (if x & 1 == 0 then 0x01000000 else 0x00000400)
      else
       if x & 0x04 == 0 then
        if x & 2 == 0 then (if x & 1 == 0 then 0x01010004 else 0x00010000) else (if x & 1 == 0 then 0x00010400 else 0x01000004)
       else
        if x & 2 == 0 then (if x & 1 == 0 then 0x00000400 else 0x00000004) else (if x & 1 == 0 then 0x01000404 else 0x00010404)
     else
      if x & 0x08 == 0 then
       if x & 0x04 == 0 then
        if x & 2 == 0 then (if x & 1 == 0 then 0x01010404 else 0x00010004) else (if x & 1 == 0 then 0x01010000 else 0x01000404)
       else
        if x & 2 == 0 then (if x & 1 == 0 then 0x01000004 else 0x00000404) else (if x & 1 == 0 then 0x00010404 else 0x01010400)
      else
       if x & 0x04 == 0 then
        if x & 2 == 0 then (if x & 1 == 0 then 0x00000404 else 0x01000400) else (if x & 1 == 0 then 0x01000400 else 0x00000000)
       else
        if x & 2 == 0 then (if x & 1 == 0 then 0x00010004 else 0x00010400) else (if x & 1 == 0 then 0x00000000 else 0x01010004)
  }

  function SP2(x: bv8): bv32 {
    if x & 0x20 == 0 then
     if x & 0x10 == 0 then
      if x & 0x08 == 0 then
       if x & 0x04 == 0 then
        if x & 2 == 0 then (if x & 1 == 0 then 0x80108020 else 0x80008000) else (if x & 1 == 0 then 0x00008000 else 0x00108020)
       else
        if x & 2 == 0 then (if x & 1 == 0 then 0x00100000 else 0x00000020) else (if x & 1 == 0 then 0x80100020 else 0x80008020)
      else
       if x & 0x04 == 0 then
        if x & 2 == 0 then (if x & 1 == 0 then 0x80000020 else 0x80108020) else (if x & 1 == 0 then 0x80108000 else 0x80000000)
       else
        if x & 2 == 0 then (if x & 1 == 0 then 0x80008000 else 0x00100000) else (if x & 1 == 0 then 0x00000020 else 0x80100020)
     else
      if x & 0x08 == 0 then
       if x & 0x04 == 0 then
        if x & 2 == 0 then (if x & 1 == 0 then 0x00108000 else 0x00100020) else (if x & 1 == 0 then 0x80008020 else 0x00000000)
       else
        if x & 2 == 0 then (if x & 1 == 0 then 0x80000000 else 0x00008000) else (if x & 1 == 0 then 0x00108020 else 0x80100000)
      else
       if x & 0x04 == 0 then
        if x & 2 == 0 then (if x & 1 == 0 then 0x00100020 else 0x80000020) else (if x & 1 == 0 then 0x00000000 else 0x00108000)
       else
        if x & 2 == 0 then (if x & 1 == 0 then 0x00008020 else 0x80108000) else (if x & 1 == 0 then 0x80100000 else 0x00008020)
    else
     if x & 0x10 == 0 then
      if x & 0x08 == 0 then
       if x & 0x04 == 0 then
        if x & 2 == 0 then (if x & 1 == 0 then 0x00000000 else 0x00108020) else (if x & 1 == 0 then 0x80100020 else 0x00100000)
       else
        if x & 2 == 0 then (if x & 1 == 0 then 0x80008020 else 0x80100000) else (if x & 1 == 0 then 0x80108000 else 0x00008000)
      else
       if x & 0x04 == 0 then
        if x & 2 == 0 then (if x & 1 == 0 then 0x80100000 else 0x80008000) else (if x & 1 == 0 then 0x00000020 else 0x80108020)
       else
        if x & 2 == 0 then (if x & 1 == 0 then 0x00108020 else 0x00000020) else (if x & 1 == 0 then 0x00008000 else 0x80000000)
     else
      if x & 0x08 == 0 then
       if x & 0x04 == 0 then
        if x & 2 == 0 then (if x & 1 == 0 then 0x00008020 else 0x80108000) else (if x & 1 == 0 then 0x00100000 else 0x80000020)
       else
        if x & 2 == 0 then (if x & 1 == 0 then 0x00100020 else 0x80008020) else (if x & 1 == 0 then 0x80000020 else 0x00100020)
      else
       if x & 0x04 == 0 then
        if x & 2 == 0 then (if x & 1 == 0 then 0x00108000 else 0x00000000) else (if x & 1 == 0 then 0x80008000 else 0x00008020)
       else
        if x & 2 == 0 then (if x & 1 == 0 then 0x80000000 else 0x80100020) else (if x & 1 == 0 then 0x80108020 else 0x00108000)
  }

  function SP3(x: bv8): bv32 {
    if x & 0x20 == 0 then
     if x & 0x10 == 0 then
      if x & 0x08 == 0 then
       if x & 0x04 == 0 then
        if x & 2 == 0 then (if x & 1 == 0 then 0x00000208 else 0x08020200) else (if x & 1 == 0 then 0x00000000 else 0x08020008)
       else
        if x & 2 == 0 then (if x & 1 == 0 then 0x08000200 else 0x00000000) else (if x & 1 == 0 then 0x00020208 else 0x08000200)
      else
       if x & 0x04 == 0 then
        if x & 2 == 0 then (if x & 1 == 0 then 0x00020008 else 0x08000008) else (if x & 1 == 0 then 0x08000008 else 0x00020000)
       else
        if x & 2 == 0 then (if x & 1 == 0 then 0x08020208 else 0x00020008) else (if x & 1 == 0 then 0x08020000 else 0x00000208)
     else
      if x & 0x08 == 0 then
       if x & 0x04 == 0 then
        if x & 2 == 0 then (if x & 1 == 0 then 0x08000000 else 0x00000008) else (if x & 1 == 0 then 0x08020200 else 0x00000200)
       else
        if x & 2 == 0 then (if x & 1 == 0 then 0x00020200 else 0x08020000) else (if x & 1 == 0 then 0x08020008 else 0x00020208)
      else
       if x & 0x04 == 0 then
        if x & 2 == 0 then (if x & 1 == 0 then 0x08000208 else 0x00020200) else (if x & 1 == 0 then 0x00020000 else 0x08000208)
       else
        if x & 2 == 0 then (if x & 1 == 0 then 0x00000008 else 0x08020208) else (if x & 1 == 0 then 0x00000200 else 0x08000000)
    else
     if x & 0x10 == 0 then
      if x & 0x08 == 0 then
       if x & 0x04 == 0 then
        if x & 2 == 0 then (if x & 1 == 0 then 0x08020200 else 0x08000000) else (if x & 1 == 0 then 0x00020008 else 0x00000208)
       else
        if x & 2 == 0 then (if x & 1 == 0 then 0x00020000 else 0x08020200) else (if x & 1 == 0 then 0x08000200 else 0x00000000)
      else
       if x & 0x04 == 0 then
        if x & 2 == 0 then (if x & 1 == 0 then 0x00000200 else 0x00020008) else (if x & 1 == 0 then 0x08020208 else 0x08000200)
       else
        if x & 2 == 0 then (if x & 1 == 0 then 0x08000008 else 0x00000200) else (if x & 1 == 0 then 0x00000000 else 0x08020008)
     else
      if x & 0x08 == 0 then
       if x & 0x04 == 0 then
        if x & 2 == 0 then (if x & 1 == 0 then 0x08000208 else 0x00020000) else (if x & 1 == 0 then 0x08000000 else 0x08020208)
       else
        if x & 2 == 0 then (if x & 1 == 0 then 0x00000008 else 0x00020208) else (if x & 1 == 0 then 0x00020200 else 0x08000008)
      else
       if x & 0x04 == 0 then
        if x & 2 == 0 then (if x & 1 == 0 then 0x08020000 else 0x08000208) else (if x & 1 == 0 then 0x00000208 else 0x08020000)
       else
        if x & 2 == 0 then (if x & 1 == 0 then 0x00020208 else 0x00000008) else (if x & 1 == 0 then 0x08020008 else 0x00020200)
  }

  function SP4(x: bv8): bv32 {
    if x & 0x20 == 0 then
     if x & 0x10 == 0 then
      if x & 0x08 == 0 then
       if x & 0x04 == 0 then
        if x & 2 == 0 then (if x & 1 == 0 then 0x00802001 else 0x00002081) else (if x & 1 == 0 then 0x00002081 else 0x00000080)
       else
        if x & 2 == 0 then (if x & 1 == 0 then 0x00802080 else 0x00800081) else (if x & 1 == 0 then 0x00800001 else 0x00002001)
      else
       if x & 0x04 == 0 then
        if x & 2 == 0 then (if x & 1 == 0 then 0x00000000 else 0x00802000) else (if x & 1 == 0 then 0x00802000 else 0x00802081)
       else
        if x & 2 == 0 then (if x & 1 == 0 then 0x00000081 else 0x00000000) else (if x & 1 == 0 then 0x00800080 else 0x00800001)
     else
      if x & 0x08 == 0 then
       if x & 0x04 == 0 then
        if x & 2 == 0 then (if x & 1 == 0 then 0x00000001 else 0x00002000) else (if x & 1 == 0 then 0x00800000 else 0x00802001)
       else
        if x & 2 == 0 then (if x & 1 == 0 then 0x00000080 else 0x00800000) else (if x & 1 == 0 then 0x00002001 else 0x00002080)
      else
       if x & 0x04 == 0 then
        if x & 2 == 0 then (if x & 1 == 0 then 0x00800081 else 0x00000001) else (if x & 1 == 0 then 0x00002080 else 0x00800080)
       else
        if x & 2 == 0 then (if x & 1 == 0 then 0x00002000 else 0x00802080) else (if x & 1 == 0 then 0x00802081 else 0x00000081)
    else
     if x & 0x10 == 0 then
      if x & 0x08 == 0 then
       if x & 0x04 == 0 then
        if x & 2 == 0 then (if x & 1 == 0 then 0x00800080 else 0x00800001) else (if x & 1 == 0 then 0x00802000 else 0x00802081)
       else
        if x & 2 == 0 then (if x & 1 == 0 then 0x00000081 else 0x00000000) else (if x & 1 == 0 then 0x00000000 else 0x00802000)
      else
       if x & 0x04 == 0 then
        if x & 2 == 0 then (if x & 1 == 0 then 0x00002080 else 0x00800080) else (if x & 1 == 0 then 0x00800081 else 0x00000001)
       else
        if x & 2 == 0 then (if x & 1 == 0 then 0x00802001 else 0x00002081) else (if x & 1 == 0 then 0x00002081 else 0x00000080)
     else
      if x & 0x08 == 0 then
       if x & 0x04 == 0 then
        if x & 2 == 0 then (if x & 1 == 0 then 0x00802081 else 0x00000081) else (if x & 1 == 0 then 0x00000001 else 0x00002000)
       else
        if x & 2 == 0 then (if x & 1 == 0 then 0x00800001 else 0x00002001) else (if x & 1 == 0 then 0x00802080 else 0x00800081)
      else
       if x & 0x04 == 0 then
        if x & 2 == 0 then (if x & 1 == 0 then 0x00002001 else 0x00002080) else (if x & 1 == 0 then 0x00800000 else 0x00802001)
       else
        if x & 2 == 0 then (if x & 1 == 0 then 0x00000080 else 0x00800000) else (if x & 1 == 0 then 0x00002000 else 0x00802080)
  }

  function SP5(x: bv8): bv32 {
    if x & 0x20 == 0 then
     if x & 0x10 == 0 then
      if x & 0x08 == 0 then
       if x & 0x04 == 0 then
        if x & 2 == 0 then (if x & 1 == 0 then 0x00000100 else 0x02080100) else (if x & 1 == 0 then 0x02080000 else 0x42000100)
       else
        if x & 2 == 0 then (if x & 1 == 0 then 0x00080000 else 0x00000100) else (if x & 1 == 0 then 0x40000000 else 0x02080000)
      else
       if x & 0x04 == 0 then
        if x & 2 == 0 then (if x & 1 == 0 then 0x40080100 else 0x00080000) else (if x & 1 == 0 then 0x02000100 else 0x40080100)
       else
        if x & 2 == 0 then (if x & 1 == 0 then 0x42000100 else 0x42080000) else (if x & 1 == 0 then 0x00080100 else 0x40000000)
     else
      if x & 0x08 == 0 then
       if x & 0x04 == 0 then
        if x & 2 == 0 then (if x & 1 == 0 then 0x02000000 else 0x40080000) else (if x & 1 == 0 then 0x40080000 else 0x00000000)
       else
        if x & 2 == 0 then (if x & 1 == 0 then 0x40000100 else 0x42080100) else (if x & 1 == 0 then 0x42080100 else 0x02000100)
      else
       if x & 0x04 == 0 then
        if x & 2 == 0 then (if x & 1 == 0 then 0x42080000 else 0x40000100) else (if x & 1 == 0 then 0x00000000 else 0x42000000)
       else
        if x & 2 == 0 then (if x & 1 == 0 then 0x02080100 else 0x02000000) else (if x & 1 == 0 then 0x42000000 else 0x00080100)
    else
     if x & 0x10 == 0 then
      if x & 0x08 == 0 then
       if x & 0x04 == 0 then
        if x & 2 == 0 then (if x & 1 == 0 then 0x00080000 else 0x42000100) else (if x & 1 == 0 then 0x00000100 else 0x02000000)
       else
        if x & 2 == 0 then (if x & 1 == 0 then 0x40000000 else 0x02080000) else (if x & 1 == 0 then 0x42000100 else 0x40080100)
      else
       if x & 0x04 == 0 then
        if x & 2 == 0 then (if x & 1 == 0 then 0x02000100 else 0x40000000) else (if x & 1 == 0 then 0x42080000 else 0x02080100)
       else
        if x & 2 == 0 then (if x & 1 == 0 then 0x40080100 else 0x00000100) else (if x & 1 == 0 then 0x02000000 else 0x42080000)
     else
      if x & 0x08 == 0 then
       if x & 0x04 == 0 then
        if x & 2 == 0 then (if x & 1 == 0 then 0x42080100 else 0x00080100) else (if x & 1 == 0 then 0x42000000 else 0x42080100)
       else
        if x & 2 == 0 then (if x & 1 == 0 then 0x02080000 else 0x00000000) else (if x & 1 == 0 then 0x40080000 else 0x42000000)
      else
       if x & 0x04 == 0 then
        if x & 2 == 0 then (if x & 1 == 0 then 0x00080100 else 0x02000100) else (if x & 1 == 0 then 0x40000100 else 0x00080000)
       else
        if x & 2 == 0 then (if x & 1 == 0 then 0x00000000 else 0x40080000) else (if x & 1 == 0 then 0x02080100 else 0x40000100)
  }

  function SP6(x: bv8): bv32 {
    if x & 0x20 == 0 then
     if x & 0x10 == 0 then
      if x & 0x08 == 0 then
       if x & 0x04 == 0 then
        if x & 2 == 0 then (if x & 1 == 0 then 0x20000010 else 0x20400000) else (if x & 1 == 0 then 0x00004000 else 0x20404010)
       else
        if x & 2 == 0 then (if x & 1 == 0 then 0x20400000 else 0x00000010) else (if x & 1 == 0 then 0x20404010 else 0x00400000)
      else
       if x & 0x04 == 0 then
        if x & 2 == 0 then (if x & 1 == 0 then 0x20004000 else 0x00404010) else (if x & 1 == 0 then 0x00400000 else 0x20000010)
       else
        if x & 2 == 0 then (if x & 1 == 0 then 0x00400010 else 0x20004000) else (if x & 1 == 0 then 0x20000000 else 0x00004010)
     else
      if x & 0x08 == 0 then
       if x & 0x04 == 0 then
        if x & 2 == 0 then (if x & 1 == 0 then 0x00000000 else 0x00400010) else (if x & 1 == 0 then 0x20004010 else 0x00004000)
       else
        if x & 2 == 0 then (if x & 1 == 0 then 0x00404000 else 0x20004010) else (if x & 1 == 0 then 0x00000010 else 0x20400010)
      else
       if x & 0x04 == 0 then
        if x & 2 == 0 then (if x & 1 == 0 then 0x20400010 else 0x00000000) else (if x & 1 == 0 then 0x00404010 else 0x20404000)
       else
        if x & 2 == 0 then (if x & 1 == 0 then 0x00004010 else 0x00404000) else (if x & 1 == 0 then 0x20404000 else 0x20000000)
    else
     if x & 0x10 == 0 then
      if x & 0x08 == 0 then
       if x & 0x04 == 0 then
        if x & 2 == 0 then (if x & 1 == 0 then 0x20004000 else 0x00000010) else (if x & 1 == 0 then 0x20400010 else 0x00404000)
       else
        if x & 2 == 0 then (if x & 1 == 0 then 0x20404010 else 0x00400000) else (if x & 1 == 0 then 0x00004010 else 0x20000010)
      else
       if x & 0x04 == 0 then
        if x & 2 == 0 then (if x & 1 == 0 then 0x00400000 else 0x20004000) else (if x & 1 == 0 then 0x20000000 else 0x00004010)
       else
        if x & 2 == 0 then (if x & 1 == 0 then 0x20000010 else 0x20404010) else (if x & 1 == 0 then 0x00404000 else 0x20400000)
     else
      if x & 0x08 == 0 then
       if x & 0x04 == 0 then
        if x & 2 == 0 then (if x & 1 == 0 then 0x00404010 else 0x20404000) else (if x & 1 == 0 then 0x00000000 else 0x20400010)
       else
        if x & 2 == 0 then (if x & 1 == 0 then 0x00000010 else 0x00004000) else (if x & 1 == 0 then 0x20400000 else 0x00404010)
      else
       if x & 0x04 == 0 then
        if x & 2 == 0 then (if x & 1 == 0 then 0x00004000 else 0x00400010) else (if x & 1 == 0 then 0x20004010 else 0x00000000)
       else
        if x & 2 == 0 then (if x & 1 == 0 then 0x20404000 else 0x20000000) else (if x & 1 == 0 then 0x00400010 else 0x20004010)
  }

  function SP7(x: bv8): bv32 {
    if x & 0x20 == 0 then
     if x & 0x10 == 0 then
      if x & 0x08 == 0 then
       if x & 0x04 == 0 then
        if x & 2 == 0 then (if x & 1 == 0 then 0x00200000 else 0x04200002) else (if x & 1 == 0 then 0x04000802 else 0x00000000)
       else
        if x & 2 == 0 then (if x & 1 == 0 then 0x00000800 else 0x04000802) else (if x & 1 == 0 then 0x00200802 else 0x04200800)
      else
       if x & 0x04 == 0 then
        if x & 2 == 0 then (if x & 1 == 0 then 0x04200802 else 0x00200000) else (if x & 1 == 0 then 0x00000000 else 0x04000002)
       else
        if x & 2 == 0 then (if x & 1 == 0 then 0x00000002 else 0x04000000) else (if x & 1 == 0 then 0x04200002 else 0x00000802)
     else
      if x & 0x08 == 0 then
       if x & 0x04 == 0 then
        if x & 2 == 0 then (if x & 1 == 0 then 0x04000800 else 0x00200802) else (if x & 1 == 0 then 0x00200002 else 0x04000800)
       else
        if x & 2 == 0 then (if x & 1 == 0 then 0x04000002 else 0x04200000) else (if x & 1 == 0 then 0x04200800 else 0x00200002)
      else
       if x & 0x04 == 0 then
        if x & 2 == 0 then (if x & 1 == 0 then 0x04200000 else 0x00000800) else (if x & 1 == 0 then 0x00000802 else 0x04200802)
       else
        if x & 2 == 0 then (if x & 1 == 0 then 0x00200800 else 0x00000002) else (if x & 1 == 0 then 0x04000000 else 0x00200800)
    else
     if x & 0x10 == 0 then
      if x & 0x08 == 0 then
       if x & 0x04 == 0 then
        if x & 2 == 0 then (if x & 1 == 0 then 0x04000000 else 0x00200800) else (if x & 1 == 0 then 0x00200000 else 0x04000802)
       else
        if x & 2 == 0 then (if x & 1 == 0 then 0x04000802 else 0x04200002) else (if x & 1 == 0 then 0x04200002 else 0x00000002)
      else
       if x & 0x04 == 0 then
        if x & 2 == 0 then (if x & 1 == 0 then 0x00200002 else 0x04000000) else (if x & 1 == 0 then 0x04000800 else 0x00200000)
       else
        if x & 2 == 0 then (if x & 1 == 0 then 0x04200800 else 0x00000802) else (if x & 1 == 0 then 0x00200802 else 0x04200800)
     else
      if x & 0x08 == 0 then
       if x & 0x04 == 0 then
        if x & 2 == 0 then (if x & 1 == 0 then 0x00000802 else 0x04000002) else (if x & 1 == 0 then 0x04200802 else 0x04200000)
       else
        if x & 2 == 0 then (if x & 1 == 0 then 0x00200800 else 0x00000000) else (if x & 1 == 0 then 0x00000002 else 0x04200802)
      else
       if x & 0x04 == 0 then
        if x & 2 == 0 then (if x & 1 == 0 then 0x00000000 else 0x00200802) else (if x & 1 == 0 then 0x04200000 else 0x00000800)
       else
        if x & 2 == 0 then (if x & 1 == 0 then 0x04000002 else 0x04000800) else (if x & 1 == 0 then 0x00000800 else 0x00200002)
  }

  function SP8(x: bv8): bv32 {
    if x & 0x20 == 0 then
     if x & 0x10 == 0 then
      if x & 0x08 == 0 then
       if x & 0x04 == 0 then
        if x & 2 == 0 then (if x & 1 == 0 then 0x10001040 else 0x00001000) else (if x & 1 == 0 then 0x00040000 else 0x10041040)
       else
        if x & 2 == 0 then (if x & 1 == 0 then 0x10000000 else 0x10001040) else (if x & 1 == 0 then 0x00000040 else 0x10000000)
      else
       if x & 0x04 == 0 then
        if x & 2 == 0 then (if x & 1 == 0 then 0x00040040 else 0x10040000) else (if x & 1 == 0 then 0x10041040 else 0x00041000)
       else
        if x & 2 == 0 then (if x & 1 == 0 then 0x10041000 else 0x00041040) else (if x & 1 == 0 then 0x00001000 else 0x00000040)
     else
      if x & 0x08 == 0 then
       if x & 0x04 == 0 then
        if x & 2 == 0 then (if x & 1 == 0 then 0x10040000 else 0x10000040) else (if x & 1 == 0 then 0x10001000 else 0x00001040)
       else
        if x & 2 == 0 then (if x & 1 == 0 then 0x00041000 else 0x00040040) else (if x & 1 == 0 then 0x10040040 else 0x10041000)
      else
       if x & 0x04 == 0 then
        if x & 2 == 0 then (if x & 1 == 0 then 0x00001040 else 0x00000000) else (if x & 1 == 0 then 0x00000000 else 0x10040040)
       else
        if x & 2 == 0 then (if x & 1 == 0 then 0x10000040 else 0x10001000) else (if x & 1 == 0 then 0x00041040 else 0x00040000)
    else
     if x & 0x10 == 0 then
      if x & 0x08 == 0 then
       if x & 0x04 == 0 then
        if x & 2 == 0 then (if x & 1 == 0 then 0x00041040 else 0x00040000) else (if x & 1 == 0 then 0x10041000 else 0x00001000)
       else
        if x & 2 == 0 then (if x & 1 == 0 then 0x00000040 else 0x10040040) else (if x & 1 == 0 then 0x00001000 else 0x00041040)
      else
       if x & 0x04 == 0 then
        if x & 2 == 0 then (if x & 1 == 0 then 0x10001000 else 0x00000040) else (if x & 1 == 0 then 0x10000040 else 0x10040000)
       else
        if x & 2 == 0 then (if x & 1 == 0 then 0x10040040 else 0x10000000) else (if x & 1 == 0 then 0x00040000 else 0x10001040)
     else
      if x & 0x08 == 0 then
       if x & 0x04 == 0 then
        if x & 2 == 0 then (if x & 1 == 0 then 0x00000000 else 0x10041040) else (if x & 1 == 0 then 0x00040040 else 0x10000040)
       else
        if x & 2 == 0 then (if x & 1 == 0 then 0x10040000 else 0x10001000) else (if x & 1 == 0 then 0x10001040 else 0x00000000)
      else
       if x & 0x04 == 0 then
        if x & 2 == 0 then (if x & 1 == 0 then 0x10041040 else 0x00041000) else (if x & 1 == 0 then 0x00041000 else 0x00001040)
       else
        if x & 2 == 0 then (if x & 1 == 0 then 0x00001040 else 0x00040040) else (if x & 1 == 0 then 0x10000000 else 0x10041000)
  }
}
