/**
  The RC2 permutation of the bytes (`NXTservices/rc2.c:43-60`), as a decision tree on the
  index bits, most significant first, so the entries stand in index order.
 */
module Rc2Tables {

  function Permute(x: bv8): bv8 {
    if x & 0x80 == 0 then
     if x & 0x40 == 0 then
      if x & 0x20 == 0 then
       if x & 0x10 == 0 then
        if x & 0x08 == 0 then
         if x & 0x04 == 0 then
          if x & 2 == 0 then (if x & 1 == 0 then 217 else 120) else (if x & 1 == 0 then 249 else 196)
         else
          if x & 2 == 0 then (if x & 1 == 0 then 25 else 221) else (if x & 1 == 0 then 181 else 237)
        else
         if x & 0x04 == 0 then
          if x & 2 == 0 then (if x & 1 == 0 then 40 else 233) else (if x & 1 == 0 then 253 else 121)
         else
          if x & 2 == 0 then (if x & 1 == 0 then 74 else 160) else (if x & 1 == 0 then 216 else 157)
       else
        if x & 0x08 == 0 then
         if x & 0x04 == 0 then
          if x & 2 == 0 then (if x & 1 == 0 then 198 else 126) else (if x & 1 == 0 then 55 else 131)
         else
          if x & 2 == 0 then (if x & 1 == 0 then 43 else 118) else (if x & 1 == 0 then 83 else 142)
        else
         if x & 0x04 == 0 then
          if x & 2 == 0 then (if x & 1 == 0 then 98 else 76) else (if x & 1 == 0 then 100 else 136)
         else
          if x & 2 == 0 then (if x & 1 == 0 then 68 else 139) else (if x & 1 == 0 then 251 else 162)
      else
       if x & 0x10 == 0 then
        if x & 0x08 == 0 then
         if x & 0x04 == 0 then
          if x & 2 == 0 then (if x & 1 == 0 then 23 else 154) else (if x & 1 == 0 then 89 else 245)
         else
          if x & 2 == 0 then (if x & 1 == 0 then 135 else 179) else (if x & 1 == 0 then 79 else 19)
        else
         if x & 0x04 == 0 then
          if x & 2 == 0 then (if x & 1 == 0 then 97 else 69) else (if x & 1 == 0 then 109 else 141)
         else
          if x & 2 == 0 then (if x & 1 == 0 then 9 else 129) else (if x & 1 == 0 then 125 else 50)
       else
        if x & 0x08 == 0 then
         if x & 0x04 == 0 then
          if x & 2 == 0 then (if x & 1 == 0 then 189 else 143) else (if x & 1 == 0 then 64 else 235)
         else
          if x & 2 == 0 then (if x & 1 == 0 then 134 else 183) else (if x & 1 == 0 then 123 else 11)
        else
         if x & 0x04 == 0 then
          if x & 2 == 0 then (if x & 1 == 0 then 240 else 149) else (if x & 1 == 0 then 33 else 34)
         else
          if x & 2 == 0 then (if x & 1 == 0 then 92 else 107) else (if x & 1 == 0 then 78 else 130)
     else
      if x & 0x20 == 0 then
       if x & 0x10 == 0 then
        if x & 0x08 == 0 then
         if x & 0x04 == 0 then
          if x & 2 == 0 then (if x & 1 == 0 then 84 else 214) else (if x & 1 == 0 then 101 else 147)
         else
          if x & 2 == 0 then (if x & 1 == 0 then 206 else 96) else (if x & 1 == 0 then 178 else 28)
        else
         if x & 0x04 == 0 then
          if x & 2 == 0 then (if x & 1 == 0 then 115 else 86) else (if x & 1 == 0 then 192 else 20)
         else
          if x & 2 == 0 then (if x & 1 == 0 then 167 else 140) else (if x & 1 == 0 then 241 else 220)
       else
        if x & 0x08 == 0 then
         if x & 0x04 == 0 then
          if x & 2 == 0 then (if x & 1 == 0 then 18 else 117) else (if x & 1 == 0 then 202 else 31)
         else
          if x & 2 == 0 then (if x & 1 == 0 then 59 else 190) else (if x & 1 == 0 then 228 else 209)
        else
         if x & 0x04 == 0 then
          if x & 2 == 0 then (if x & 1 == 0 then 66 else 61) else (if x & 1 == 0 then 212 else 48)
         else
          if x & 2 == 0 then (if x & 1 == 0 then 163 else 60) else (if x & 1 == 0 then 182 else 38)
      else
       if x & 0x10 == 0 then
        if x & 0x08 == 0 then
         if x & 0x04 == 0 then
          if x & 2 == 0 then (if x & 1 == 0 then 111 else 191) else (if x & 1 == 0 then 14 else 218)
         else
          if x & 2 == 0 then (if x & 1 == 0 then 70 else 105) else (if x & 1 == 0 then 7 else 87)
        else
         if x & 0x04 == 0 then
          if x & 2 == 0 then (if x & 1 == 0 then 39 else 242) else (if x & 1 == 0 then 29 else 155)
         else
          if x & 2 == 0 then (if x & 1 == 0 then 188 else 148) else (if x & 1 == 0 then 67 else 3)
       else
        if x & 0x08 == 0 then
         if x & 0x04 == 0 then
          if x & 2 == 0 then (if x & 1 == 0 then 248 else 17) else (if x & 1 == 0 then 199 else 246)
         else
          if x & 2 == 0 then (if x & 1 == 0 then 144 else 239) else (if x & 1 == 0 then 62 else 231)
        else
         if x & 0x04 == 0 then
          if x & 2 == 0 then (if x & 1 == 0 then 6 else 195) else (if x & 1 == 0 then 213 else 47)
         else
          if x & 2 == 0 then (if x & 1 == 0 then 200 else 102) else (if x & 1 == 0 then 30 else 215)
    else
     if x & 0x40 == 0 then
      if x & 0x20 == 0 then
       if x & 0x10 == 0 then
        if x & 0x08 == 0 then
         if x & 0x04 == 0 then
          if x & 2 == 0 then (if x & 1 == 0 then 8 else 232) else (if x & 1 == 0 then 234 else 222)
         else
          if x & 2 == 0 then (if x & 1 == 0 then 128 else 82) else (if x & 1 == 0 then 238 else 247)
        else
         if x & 0x04 == 0 then
          if x & 2 == 0 then (if x & 1 == 0 then 132 else 170) else (if x & 1 == 0 then 114 else 172)
         else
          if x & 2 == 0 then (if x & 1 == 0 then 53 else 77) else (if x & 1 == 0 then 106 else 42)
       else
        if x & 0x08 == 0 then
         if x & 0x04 == 0 then
          if x & 2 == 0 then (if x & 1 == 0 then 150 else 26) else (if x & 1 == 0 then 210 else 113)
         else
          if x & 2 == 0 then (if x & 1 == 0 then 90 else 21) else (if x & 1 == 0 then 73 else 116)
        else
         if x & 0x04 == 0 then
          if x & 2 == 0 then (if x & 1 == 0 then 75 else 159) else (if x & 1 == 0 then 208 else 94)
         else
          if x & 2 == 0 then (if x & 1 == 0 then 4 else 24) else (if x & 1 == 0 then 164 else 236)
      else
       if x & 0x10 == 0 then
        if x & 0x08 == 0 then
         if x & 0x04 == 0 then
          if x & 2 == 0 then (if x & 1 == 0 then 194 else 224) else (if x & 1 == 0 then 65 else 110)
         else
          if x & 2 == 0 then (if x & 1 == 0 then 15 else 81) else (if x & 1 == 0 then 203 else 204)
        else
         if x & 0x04 == 0 then
          if x & 2 == 0 then (if x & 1 == 0 then 36 else 145) else (if x & 1 == 0 then 175 else 80)
         else
          if x & 2 == 0 then (if x & 1 == 0 then 161 else 244) else (if x & 1 == 0 then 112 else 57)
       else
        if x & 0x08 == 0 then
         if x & 0x04 == 0 then
          if x & 2 == 0 then (if x & 1 == 0 then 153 else 124) else (if x & 1 == 0 then 58 else 133)
         else
          if x & 2 == 0 then (if x & 1 == 0 then 35 else 184) else (if x & 1 == 0 then 180 else 122)
        else
         if x & 0x04 == 0 then
          if x & 2 == 0 then (if x & 1 == 0 then 252 else 2) else (if x & 1 == 0 then 54 else 91)
         else
          if x & 2 == 0 then (if x & 1 == 0 then 37 else 85) else (if x & 1 == 0 then 151 else 49)
     else
      if x & 0x20 == 0 then
       if x & 0x10 == 0 then
        if x & 0x08 == 0 then
         if x & 0x04 == 0 then
          if x & 2 == 0 then (if x & 1 == 0 then 45 else 93) else (if x & 1 == 0 then 250 else 152)
         else
          if x & 2 == 0 then (if x & 1 == 0 then 227 else 138) else (if x & 1 == 0 then 146 else 174)
        else
         if x & 0x04 == 0 then
          if x & 2 == 0 then (if x & 1 == 0 then 5 else 223) else (if x & 1 == 0 then 41 else 16)
         else
          if x & 2 == 0 then (if x & 1 == 0 then 103 else 108) else (if x & 1 == 0 then 186 else 201)
       else
        if x & 0x08 == 0 then
         if x & 0x04 == 0 then
          if x & 2 == 0 then (if x & 1 == 0 then 211 else 0) else (if x & 1 == 0 then 230 else 207)
         else
          if x & 2 == 0 then (if x & 1 == 0 then 225 else 158) else (if x & 1 == 0 then 168 else 44)
        else
         if x & 0x04 == 0 then
          if x & 2 == 0 then (if x & 1 == 0 then 99 else 22) else (if x & 1 == 0 then 1 else 63)
         else
          if x & 2 == 0 then (if x & 1 == 0 then 88 else 226) else (if x & 1 == 0 then 137 else 169)
      else
       if x & 0x10 == 0 then
        if x & 0x08 == 0 then
         if x & 0x04 == 0 then
          if x & 2 == 0 then (if x & 1 == 0 then 13 else 56) else (if x & 1 == 0 then 52 else 27)
         else
          if x & 2 == 0 then (if x & 1 == 0 then 171 else 51) else (if x & 1 == 0 then 255 else 176)
        else
         if x & 0x04 == 0 then
          if x & 2 == 0 then (if x & 1 == 0 then 187 else 72) else (if x & 1 == 0 then 12 else 95)
         else
          if x & 2 == 0 then (if x & 1 == 0 then 185 else 177) else (if x & 1 == 0 then 205 else 46)
       else
        if x & 0x08 == 0 then
         if x & 0x04 == 0 then
          if x & 2 == 0 then (if x & 1 == 0 then 197 else 243) else (if x & 1 == 0 then 219 else 71)
         else
          if x & 2 == 0 then (if x & 1 == 0 then 229 else 165) else (if x & 1 == 0 then 156 else 119)
        else
         if x & 0x04 == 0 then
          if x & 2 == 0 then (if x & 1 == 0 then 10 else 166) else (if x & 1 == 0 then 32 else 104)
         else
          if x & 2 == 0 then (if x & 1 == 0 then 254 else 127) else (if x & 1 == 0 then 193 else 173)
  }
}
