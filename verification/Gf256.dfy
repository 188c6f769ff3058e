/** The field GF(256) with polynomial x^8 + x^4 + x^3 + x^2 + 1, and the log and
    antilog tables the sector encoder multiplies with. */
module Gf256 {
  type Byte = bv8

  function Add(a: Byte, b: Byte): Byte {
    a ^ b
  }

  /** Product with x, a primitive element. */
  function TimesX(a: Byte): Byte {
    (a << 1) ^ (if a & 0x80 != 0 then 0x1D else 0)
  }

  /** Product with x^k. */
  function Times(a: Byte, k: nat): Byte {
    if k == 0 then a else TimesX(Times(a, k - 1))
  }

  function Power(k: nat): Byte {
    Times(1, k)
  }

  // ----- The tables -----

  function Alog0(i: int): Byte
    requires 0 <= i < 16
  {
    match i
    case 0 => 0x01 case 1 => 0x02 case 2 => 0x04 case 3 => 0x08 case 4 => 0x10 case 5 => 0x20
    case 6 => 0x40 case 7 => 0x80 case 8 => 0x1d case 9 => 0x3a case 10 => 0x74 case 11 => 0xe8
    case 12 => 0xcd case 13 => 0x87 case 14 => 0x13 case _ => 0x26
  }

  function Alog1(i: int): Byte
    requires 16 <= i < 32
  {
    match i
    case 16 => 0x4c case 17 => 0x98 case 18 => 0x2d case 19 => 0x5a case 20 => 0xb4 case 21 => 0x75
    case 22 => 0xea case 23 => 0xc9 case 24 => 0x8f case 25 => 0x03 case 26 => 0x06 case 27 => 0x0c
    case 28 => 0x18 case 29 => 0x30 case 30 => 0x60 case _ => 0xc0
  }

  function Alog2(i: int): Byte
    requires 32 <= i < 48
  {
    match i
    case 32 => 0x9d case 33 => 0x27 case 34 => 0x4e case 35 => 0x9c case 36 => 0x25 case 37 => 0x4a
    case 38 => 0x94 case 39 => 0x35 case 40 => 0x6a case 41 => 0xd4 case 42 => 0xb5 case 43 => 0x77
    case 44 => 0xee case 45 => 0xc1 case 46 => 0x9f case _ => 0x23
  }

  function Alog3(i: int): Byte
    requires 48 <= i < 64
  {
    match i
    case 48 => 0x46 case 49 => 0x8c case 50 => 0x05 case 51 => 0x0a case 52 => 0x14 case 53 => 0x28
    case 54 => 0x50 case 55 => 0xa0 case 56 => 0x5d case 57 => 0xba case 58 => 0x69 case 59 => 0xd2
    case 60 => 0xb9 case 61 => 0x6f case 62 => 0xde case _ => 0xa1
  }

  function Alog4(i: int): Byte
    requires 64 <= i < 80
  {
    match i
    case 64 => 0x5f case 65 => 0xbe case 66 => 0x61 case 67 => 0xc2 case 68 => 0x99 case 69 => 0x2f
    case 70 => 0x5e case 71 => 0xbc case 72 => 0x65 case 73 => 0xca case 74 => 0x89 case 75 => 0x0f
    case 76 => 0x1e case 77 => 0x3c case 78 => 0x78 case _ => 0xf0
  }

  function Alog5(i: int): Byte
    requires 80 <= i < 96
  {
    match i
    case 80 => 0xfd case 81 => 0xe7 case 82 => 0xd3 case 83 => 0xbb case 84 => 0x6b case 85 => 0xd6
    case 86 => 0xb1 case 87 => 0x7f case 88 => 0xfe case 89 => 0xe1 case 90 => 0xdf case 91 => 0xa3
    case 92 => 0x5b case 93 => 0xb6 case 94 => 0x71 case _ => 0xe2
  }

  function Alog6(i: int): Byte
    requires 96 <= i < 112
  {
    match i
    case 96 => 0xd9 case 97 => 0xaf case 98 => 0x43 case 99 => 0x86 case 100 => 0x11 case 101 => 0x22
    case 102 => 0x44 case 103 => 0x88 case 104 => 0x0d case 105 => 0x1a case 106 => 0x34 case 107 => 0x68
    case 108 => 0xd0 case 109 => 0xbd case 110 => 0x67 case _ => 0xce
  }

  function Alog7(i: int): Byte
    requires 112 <= i < 128
  {
    match i
    case 112 => 0x81 case 113 => 0x1f case 114 => 0x3e case 115 => 0x7c case 116 => 0xf8 case 117 => 0xed
    case 118 => 0xc7 case 119 => 0x93 case 120 => 0x3b case 121 => 0x76 case 122 => 0xec case 123 => 0xc5
    case 124 => 0x97 case 125 => 0x33 case 126 => 0x66 case _ => 0xcc
  }

  function Alog8(i: int): Byte
    requires 128 <= i < 144
  {
    match i
    case 128 => 0x85 case 129 => 0x17 case 130 => 0x2e case 131 => 0x5c case 132 => 0xb8 case 133 => 0x6d
    case 134 => 0xda case 135 => 0xa9 case 136 => 0x4f case 137 => 0x9e case 138 => 0x21 case 139 => 0x42
    case 140 => 0x84 case 141 => 0x15 case 142 => 0x2a case _ => 0x54
  }

  function Alog9(i: int): Byte
    requires 144 <= i < 160
  {
    match i
    case 144 => 0xa8 case 145 => 0x4d case 146 => 0x9a case 147 => 0x29 case 148 => 0x52 case 149 => 0xa4
    case 150 => 0x55 case 151 => 0xaa case 152 => 0x49 case 153 => 0x92 case 154 => 0x39 case 155 => 0x72
    case 156 => 0xe4 case 157 => 0xd5 case 158 => 0xb7 case _ => 0x73
  }

  function AlogA(i: int): Byte
    requires 160 <= i < 176
  {
    match i
    case 160 => 0xe6 case 161 => 0xd1 case 162 => 0xbf case 163 => 0x63 case 164 => 0xc6 case 165 => 0x91
    case 166 => 0x3f case 167 => 0x7e case 168 => 0xfc case 169 => 0xe5 case 170 => 0xd7 case 171 => 0xb3
    case 172 => 0x7b case 173 => 0xf6 case 174 => 0xf1 case _ => 0xff
  }

  function AlogB(i: int): Byte
    requires 176 <= i < 192
  {
    match i
    case 176 => 0xe3 case 177 => 0xdb case 178 => 0xab case 179 => 0x4b case 180 => 0x96 case 181 => 0x31
    case 182 => 0x62 case 183 => 0xc4 case 184 => 0x95 case 185 => 0x37 case 186 => 0x6e case 187 => 0xdc
    case 188 => 0xa5 case 189 => 0x57 case 190 => 0xae case _ => 0x41
  }

  function AlogC(i: int): Byte
    requires 192 <= i < 208
  {
    match i
    case 192 => 0x82 case 193 => 0x19 case 194 => 0x32 case 195 => 0x64 case 196 => 0xc8 case 197 => 0x8d
    case 198 => 0x07 case 199 => 0x0e case 200 => 0x1c case 201 => 0x38 case 202 => 0x70 case 203 => 0xe0
    case 204 => 0xdd case 205 => 0xa7 case 206 => 0x53 case _ => 0xa6
  }

  function AlogD(i: int): Byte
    requires 208 <= i < 224
  {
    match i
    case 208 => 0x51 case 209 => 0xa2 case 210 => 0x59 case 211 => 0xb2 case 212 => 0x79 case 213 => 0xf2
    case 214 => 0xf9 case 215 => 0xef case 216 => 0xc3 case 217 => 0x9b case 218 => 0x2b case 219 => 0x56
    case 220 => 0xac case 221 => 0x45 case 222 => 0x8a case _ => 0x09
  }

  function AlogE(i: int): Byte
    requires 224 <= i < 240
  {
    match i
    case 224 => 0x12 case 225 => 0x24 case 226 => 0x48 case 227 => 0x90 case 228 => 0x3d case 229 => 0x7a
    case 230 => 0xf4 case 231 => 0xf5 case 232 => 0xf7 case 233 => 0xf3 case 234 => 0xfb case 235 => 0xeb
    case 236 => 0xcb case 237 => 0x8b case 238 => 0x0b case _ => 0x16
  }

  function AlogF(i: int): Byte
    requires 240 <= i < 255
  {
    match i
    case 240 => 0x2c case 241 => 0x58 case 242 => 0xb0 case 243 => 0x7d case 244 => 0xfa case 245 => 0xe9
    case 246 => 0xcf case 247 => 0x83 case 248 => 0x1b case 249 => 0x36 case 250 => 0x6c case 251 => 0xd8
    case 252 => 0xad case 253 => 0x47 case _ => 0x8e
  }

  /** The antilog table: entry i is x^i. */
  function Alog(i: int): Byte
    requires 0 <= i < 255
  {
    if i < 16 then Alog0(i)
    else if i < 32 then Alog1(i)
    else if i < 48 then Alog2(i)
    else if i < 64 then Alog3(i)
    else if i < 80 then Alog4(i)
    else if i < 96 then Alog5(i)
    else if i < 112 then Alog6(i)
    else if i < 128 then Alog7(i)
    else if i < 144 then Alog8(i)
    else if i < 160 then Alog9(i)
    else if i < 176 then AlogA(i)
    else if i < 192 then AlogB(i)
    else if i < 208 then AlogC(i)
    else if i < 224 then AlogD(i)
    else if i < 240 then AlogE(i)
    else AlogF(i)
  }

  function Log0(d: Byte): int
    requires 0x00 <= d <= 0x0f
  {
    match d
    case 0x00 => 0 case 0x01 => 0 case 0x02 => 1 case 0x03 => 25 case 0x04 => 2 case 0x05 => 50
    case 0x06 => 26 case 0x07 => 198 case 0x08 => 3 case 0x09 => 223 case 0x0a => 51 case 0x0b => 238
    case 0x0c => 27 case 0x0d => 104 case 0x0e => 199 case _ => 75
  }

  function Log1(d: Byte): int
    requires 0x10 <= d <= 0x1f
  {
    match d
    case 0x10 => 4 case 0x11 => 100 case 0x12 => 224 case 0x13 => 14 case 0x14 => 52 case 0x15 => 141
    case 0x16 => 239 case 0x17 => 129 case 0x18 => 28 case 0x19 => 193 case 0x1a => 105 case 0x1b => 248
    case 0x1c => 200 case 0x1d => 8 case 0x1e => 76 case _ => 113
  }

  function Log2(d: Byte): int
    requires 0x20 <= d <= 0x2f
  {
    match d
    case 0x20 => 5 case 0x21 => 138 case 0x22 => 101 case 0x23 => 47 case 0x24 => 225 case 0x25 => 36
    case 0x26 => 15 case 0x27 => 33 case 0x28 => 53 case 0x29 => 147 case 0x2a => 142 case 0x2b => 218
    case 0x2c => 240 case 0x2d => 18 case 0x2e => 130 case _ => 69
  }

  function Log3(d: Byte): int
    requires 0x30 <= d <= 0x3f
  {
    match d
    case 0x30 => 29 case 0x31 => 181 case 0x32 => 194 case 0x33 => 125 case 0x34 => 106 case 0x35 => 39
    case 0x36 => 249 case 0x37 => 185 case 0x38 => 201 case 0x39 => 154 case 0x3a => 9 case 0x3b => 120
    case 0x3c => 77 case 0x3d => 228 case 0x3e => 114 case _ => 166
  }

  function Log4(d: Byte): int
    requires 0x40 <= d <= 0x4f
  {
    match d
    case 0x40 => 6 case 0x41 => 191 case 0x42 => 139 case 0x43 => 98 case 0x44 => 102 case 0x45 => 221
    case 0x46 => 48 case 0x47 => 253 case 0x48 => 226 case 0x49 => 152 case 0x4a => 37 case 0x4b => 179
    case 0x4c => 16 case 0x4d => 145 case 0x4e => 34 case _ => 136
  }

  function Log5(d: Byte): int
    requires 0x50 <= d <= 0x5f
  {
    match d
    case 0x50 => 54 case 0x51 => 208 case 0x52 => 148 case 0x53 => 206 case 0x54 => 143 case 0x55 => 150
    case 0x56 => 219 case 0x57 => 189 case 0x58 => 241 case 0x59 => 210 case 0x5a => 19 case 0x5b => 92
    case 0x5c => 131 case 0x5d => 56 case 0x5e => 70 case _ => 64
  }

  function Log6(d: Byte): int
    requires 0x60 <= d <= 0x6f
  {
    match d
    case 0x60 => 30 case 0x61 => 66 case 0x62 => 182 case 0x63 => 163 case 0x64 => 195 case 0x65 => 72
    case 0x66 => 126 case 0x67 => 110 case 0x68 => 107 case 0x69 => 58 case 0x6a => 40 case 0x6b => 84
    case 0x6c => 250 case 0x6d => 133 case 0x6e => 186 case _ => 61
  }

  function Log7(d: Byte): int
    requires 0x70 <= d <= 0x7f
  {
    match d
    case 0x70 => 202 case 0x71 => 94 case 0x72 => 155 case 0x73 => 159 case 0x74 => 10 case 0x75 => 21
    case 0x76 => 121 case 0x77 => 43 case 0x78 => 78 case 0x79 => 212 case 0x7a => 229 case 0x7b => 172
    case 0x7c => 115 case 0x7d => 243 case 0x7e => 167 case _ => 87
  }

  function Log8(d: Byte): int
    requires 0x80 <= d <= 0x8f
  {
    match d
    case 0x80 => 7 case 0x81 => 112 case 0x82 => 192 case 0x83 => 247 case 0x84 => 140 case 0x85 => 128
    case 0x86 => 99 case 0x87 => 13 case 0x88 => 103 case 0x89 => 74 case 0x8a => 222 case 0x8b => 237
    case 0x8c => 49 case 0x8d => 197 case 0x8e => 254 case _ => 24
  }

  function Log9(d: Byte): int
    requires 0x90 <= d <= 0x9f
  {
    match d
    case 0x90 => 227 case 0x91 => 165 case 0x92 => 153 case 0x93 => 119 case 0x94 => 38 case 0x95 => 184
    case 0x96 => 180 case 0x97 => 124 case 0x98 => 17 case 0x99 => 68 case 0x9a => 146 case 0x9b => 217
    case 0x9c => 35 case 0x9d => 32 case 0x9e => 137 case _ => 46
  }

  function LogA(d: Byte): int
    requires 0xa0 <= d <= 0xaf
  {
    match d
    case 0xa0 => 55 case 0xa1 => 63 case 0xa2 => 209 case 0xa3 => 91 case 0xa4 => 149 case 0xa5 => 188
    case 0xa6 => 207 case 0xa7 => 205 case 0xa8 => 144 case 0xa9 => 135 case 0xaa => 151 case 0xab => 178
    case 0xac => 220 case 0xad => 252 case 0xae => 190 case _ => 97
  }

  function LogB(d: Byte): int
    requires 0xb0 <= d <= 0xbf
  {
    match d
    case 0xb0 => 242 case 0xb1 => 86 case 0xb2 => 211 case 0xb3 => 171 case 0xb4 => 20 case 0xb5 => 42
    case 0xb6 => 93 case 0xb7 => 158 case 0xb8 => 132 case 0xb9 => 60 case 0xba => 57 case 0xbb => 83
    case 0xbc => 71 case 0xbd => 109 case 0xbe => 65 case _ => 162
  }

  function LogC(d: Byte): int
    requires 0xc0 <= d <= 0xcf
  {
    match d
    case 0xc0 => 31 case 0xc1 => 45 case 0xc2 => 67 case 0xc3 => 216 case 0xc4 => 183 case 0xc5 => 123
    case 0xc6 => 164 case 0xc7 => 118 case 0xc8 => 196 case 0xc9 => 23 case 0xca => 73 case 0xcb => 236
    case 0xcc => 127 case 0xcd => 12 case 0xce => 111 case _ => 246
  }

  function LogD(d: Byte): int
    requires 0xd0 <= d <= 0xdf
  {
    match d
    case 0xd0 => 108 case 0xd1 => 161 case 0xd2 => 59 case 0xd3 => 82 case 0xd4 => 41 case 0xd5 => 157
    case 0xd6 => 85 case 0xd7 => 170 case 0xd8 => 251 case 0xd9 => 96 case 0xda => 134 case 0xdb => 177
    case 0xdc => 187 case 0xdd => 204 case 0xde => 62 case _ => 90
  }

  function LogE(d: Byte): int
    requires 0xe0 <= d <= 0xef
  {
    match d
    case 0xe0 => 203 case 0xe1 => 89 case 0xe2 => 95 case 0xe3 => 176 case 0xe4 => 156 case 0xe5 => 169
    case 0xe6 => 160 case 0xe7 => 81 case 0xe8 => 11 case 0xe9 => 245 case 0xea => 22 case 0xeb => 235
    case 0xec => 122 case 0xed => 117 case 0xee => 44 case _ => 215
  }

  function LogF(d: Byte): int
    requires 0xf0 <= d <= 0xff
  {
    match d
    case 0xf0 => 79 case 0xf1 => 174 case 0xf2 => 213 case 0xf3 => 233 case 0xf4 => 230 case 0xf5 => 231
    case 0xf6 => 173 case 0xf7 => 232 case 0xf8 => 116 case 0xf9 => 214 case 0xfa => 244 case 0xfb => 234
    case 0xfc => 168 case 0xfd => 80 case 0xfe => 88 case _ => 175
  }

  /** The log table; entry 0 is never used. */
  function Log(d: Byte): int {
    if d <= 0x0f then Log0(d)
    else if d <= 0x1f then Log1(d)
    else if d <= 0x2f then Log2(d)
    else if d <= 0x3f then Log3(d)
    else if d <= 0x4f then Log4(d)
    else if d <= 0x5f then Log5(d)
    else if d <= 0x6f then Log6(d)
    else if d <= 0x7f then Log7(d)
    else if d <= 0x8f then Log8(d)
    else if d <= 0x9f then Log9(d)
    else if d <= 0xaf then LogA(d)
    else if d <= 0xbf then LogB(d)
    else if d <= 0xcf then LogC(d)
    else if d <= 0xdf then LogD(d)
    else if d <= 0xef then LogE(d)
    else LogF(d)
  }

  lemma AlogRow0(i: int)
    requires 0 <= i < 16
    ensures Alog(i + 1) == TimesX(Alog(i)) && Alog(i + 1) != 1
  {
  }

  lemma AlogRow1(i: int)
    requires 16 <= i < 32
    ensures Alog(i + 1) == TimesX(Alog(i)) && Alog(i + 1) != 1
  {
  }

  lemma AlogRow2(i: int)
    requires 32 <= i < 48
    ensures Alog(i + 1) == TimesX(Alog(i)) && Alog(i + 1) != 1
  {
  }

  lemma AlogRow3(i: int)
    requires 48 <= i < 64
    ensures Alog(i + 1) == TimesX(Alog(i)) && Alog(i + 1) != 1
  {
  }

  lemma AlogRow4(i: int)
    requires 64 <= i < 80
    ensures Alog(i + 1) == TimesX(Alog(i)) && Alog(i + 1) != 1
  {
  }

  lemma AlogRow5(i: int)
    requires 80 <= i < 96
    ensures Alog(i + 1) == TimesX(Alog(i)) && Alog(i + 1) != 1
  {
  }

  lemma AlogRow6(i: int)
    requires 96 <= i < 112
    ensures Alog(i + 1) == TimesX(Alog(i)) && Alog(i + 1) != 1
  {
  }

  lemma AlogRow7(i: int)
    requires 112 <= i < 128
    ensures Alog(i + 1) == TimesX(Alog(i)) && Alog(i + 1) != 1
  {
  }

  lemma AlogRow8(i: int)
    requires 128 <= i < 144
    ensures Alog(i + 1) == TimesX(Alog(i)) && Alog(i + 1) != 1
  {
  }

  lemma AlogRow9(i: int)
    requires 144 <= i < 160
    ensures Alog(i + 1) == TimesX(Alog(i)) && Alog(i + 1) != 1
  {
  }

  lemma AlogRowA(i: int)
    requires 160 <= i < 176
    ensures Alog(i + 1) == TimesX(Alog(i)) && Alog(i + 1) != 1
  {
  }

  lemma AlogRowB(i: int)
    requires 176 <= i < 192
    ensures Alog(i + 1) == TimesX(Alog(i)) && Alog(i + 1) != 1
  {
  }

  lemma AlogRowC(i: int)
    requires 192 <= i < 208
    ensures Alog(i + 1) == TimesX(Alog(i)) && Alog(i + 1) != 1
  {
  }

  lemma AlogRowD(i: int)
    requires 208 <= i < 224
    ensures Alog(i + 1) == TimesX(Alog(i)) && Alog(i + 1) != 1
  {
  }

  lemma AlogRowE(i: int)
    requires 224 <= i < 240
    ensures Alog(i + 1) == TimesX(Alog(i)) && Alog(i + 1) != 1
  {
  }

  lemma AlogRowF(i: int)
    requires 240 <= i < 254
    ensures Alog(i + 1) == TimesX(Alog(i)) && Alog(i + 1) != 1
  {
  }

  /** Every entry is x times the one before, and only the first is 1. */
  lemma AlogSteps(i: int)
    requires 0 <= i < 254
    ensures Alog(i + 1) == TimesX(Alog(i)) && Alog(i + 1) != 1
  {
    hide Alog, TimesX;
    if i < 16 { AlogRow0(i); }
    else if i < 32 { AlogRow1(i); }
    else if i < 48 { AlogRow2(i); }
    else if i < 64 { AlogRow3(i); }
    else if i < 80 { AlogRow4(i); }
    else if i < 96 { AlogRow5(i); }
    else if i < 112 { AlogRow6(i); }
    else if i < 128 { AlogRow7(i); }
    else if i < 144 { AlogRow8(i); }
    else if i < 160 { AlogRow9(i); }
    else if i < 176 { AlogRowA(i); }
    else if i < 192 { AlogRowB(i); }
    else if i < 208 { AlogRowC(i); }
    else if i < 224 { AlogRowD(i); }
    else if i < 240 { AlogRowE(i); }
    else { AlogRowF(i); }
  }

  lemma LogRow0(d: Byte)
    requires 0x01 <= d <= 0x0f
    ensures 0 <= Log(d) < 255 && Alog(Log(d)) == d
  {
  }

  lemma LogRow1(d: Byte)
    requires 0x10 <= d <= 0x1f
    ensures 0 <= Log(d) < 255 && Alog(Log(d)) == d
  {
  }

  lemma LogRow2(d: Byte)
    requires 0x20 <= d <= 0x2f
    ensures 0 <= Log(d) < 255 && Alog(Log(d)) == d
  {
  }

  lemma LogRow3(d: Byte)
    requires 0x30 <= d <= 0x3f
    ensures 0 <= Log(d) < 255 && Alog(Log(d)) == d
  {
  }

  lemma LogRow4(d: Byte)
    requires 0x40 <= d <= 0x4f
    ensures 0 <= Log(d) < 255 && Alog(Log(d)) == d
  {
  }

  lemma LogRow5(d: Byte)
    requires 0x50 <= d <= 0x5f
    ensures 0 <= Log(d) < 255 && Alog(Log(d)) == d
  {
  }

  lemma LogRow6(d: Byte)
    requires 0x60 <= d <= 0x6f
    ensures 0 <= Log(d) < 255 && Alog(Log(d)) == d
  {
  }

  lemma LogRow7(d: Byte)
    requires 0x70 <= d <= 0x7f
    ensures 0 <= Log(d) < 255 && Alog(Log(d)) == d
  {
  }

  lemma LogRow8(d: Byte)
    requires 0x80 <= d <= 0x8f
    ensures 0 <= Log(d) < 255 && Alog(Log(d)) == d
  {
  }

  lemma LogRow9(d: Byte)
    requires 0x90 <= d <= 0x9f
    ensures 0 <= Log(d) < 255 && Alog(Log(d)) == d
  {
  }

  lemma LogRowA(d: Byte)
    requires 0xa0 <= d <= 0xaf
    ensures 0 <= Log(d) < 255 && Alog(Log(d)) == d
  {
  }

  lemma LogRowB(d: Byte)
    requires 0xb0 <= d <= 0xbf
    ensures 0 <= Log(d) < 255 && Alog(Log(d)) == d
  {
  }

  lemma LogRowC(d: Byte)
    requires 0xc0 <= d <= 0xcf
    ensures 0 <= Log(d) < 255 && Alog(Log(d)) == d
  {
  }

  lemma LogRowD(d: Byte)
    requires 0xd0 <= d <= 0xdf
    ensures 0 <= Log(d) < 255 && Alog(Log(d)) == d
  {
  }

  lemma LogRowE(d: Byte)
    requires 0xe0 <= d <= 0xef
    ensures 0 <= Log(d) < 255 && Alog(Log(d)) == d
  {
  }

  lemma LogRowF(d: Byte)
    requires 0xf0 <= d <= 0xff
    ensures 0 <= Log(d) < 255 && Alog(Log(d)) == d
  {
  }

  /** The two tables are inverse on the nonzero bytes. */
  lemma AlogOfLog(d: Byte)
    requires d != 0
    ensures 0 <= Log(d) < 255 && Alog(Log(d)) == d
  {
    hide Alog, Log;
    if d <= 0x0f { LogRow0(d); }
    else if d <= 0x1f { LogRow1(d); }
    else if d <= 0x2f { LogRow2(d); }
    else if d <= 0x3f { LogRow3(d); }
    else if d <= 0x4f { LogRow4(d); }
    else if d <= 0x5f { LogRow5(d); }
    else if d <= 0x6f { LogRow6(d); }
    else if d <= 0x7f { LogRow7(d); }
    else if d <= 0x8f { LogRow8(d); }
    else if d <= 0x9f { LogRow9(d); }
    else if d <= 0xaf { LogRowA(d); }
    else if d <= 0xbf { LogRowB(d); }
    else if d <= 0xcf { LogRowC(d); }
    else if d <= 0xdf { LogRowD(d); }
    else if d <= 0xef { LogRowE(d); }
    else { LogRowF(d); }
  }

  // ----- Field laws -----

  predicate IsSum(r: Byte, a: Byte, b: Byte) {
    r == a ^ b
  }

  predicate IsShifted(r: Byte, a: Byte) {
    r == (a << 1) ^ (if a & 0x80 != 0 then 0x1D else 0)
  }

  lemma AddIsSum(r: Byte, a: Byte, b: Byte)
    ensures r == Add(a, b) <==> IsSum(r, a, b)
  {
  }

  lemma TimesXIsShifted(a: Byte)
    ensures IsShifted(TimesX(a), a)
  {
  }

  lemma ShiftOfSum(a: Byte, b: Byte, c: Byte, x: Byte, y: Byte, z: Byte)
    requires IsSum(c, a, b) && IsShifted(x, a) && IsShifted(y, b) && IsShifted(z, c)
    ensures IsSum(z, x, y)
  {
  }

  lemma TimesXOfSum(a: Byte, b: Byte)
    ensures TimesX(Add(a, b)) == Add(TimesX(a), TimesX(b))
  {
    hide TimesX, Add, IsSum, IsShifted;
    AddIsSum(Add(a, b), a, b);
    TimesXIsShifted(a);
    TimesXIsShifted(b);
    TimesXIsShifted(Add(a, b));
    ShiftOfSum(a, b, Add(a, b), TimesX(a), TimesX(b), TimesX(Add(a, b)));
    AddIsSum(TimesX(Add(a, b)), TimesX(a), TimesX(b));
  }

  lemma {:induction false} TimesOfSum(a: Byte, b: Byte, k: nat)
    ensures Times(Add(a, b), k) == Add(Times(a, k), Times(b, k))
  {
    hide TimesX, Add;
    if k > 0 {
      TimesOfSum(a, b, k - 1);
      TimesXOfSum(Times(a, k - 1), Times(b, k - 1));
    }
  }

  lemma {:induction false} TimesTwice(a: Byte, j: nat, k: nat)
    ensures Times(Times(a, j), k) == Times(a, j + k)
  {
    hide TimesX;
    if k > 0 {
      TimesTwice(a, j, k - 1);
    }
  }

  lemma {:induction false} TimesOfZero(k: nat)
    ensures Times(0, k) == 0
  {
    if k > 0 {
      TimesOfZero(k - 1);
    }
  }

  lemma TimesXIsInjective(a: Byte, b: Byte)
    requires TimesX(a) == TimesX(b)
    ensures a == b
  {
  }

  lemma {:induction false} TimesIsInjective(a: Byte, b: Byte, k: nat)
    requires Times(a, k) == Times(b, k)
    ensures a == b
  {
    hide TimesX;
    if k > 0 {
      TimesXIsInjective(Times(a, k - 1), Times(b, k - 1));
      TimesIsInjective(a, b, k - 1);
    }
  }

  /** The antilog table holds the powers of x. */
  lemma {:induction false} AlogIsPower(i: nat)
    requires i < 255
    ensures Alog(i) == Power(i)
    ensures 0 < i ==> Power(i) != 1
  {
    if i == 0 {
    } else {
      hide Alog, TimesX;
      AlogIsPower(i - 1);
      AlogSteps(i - 1);
    }
  }

  /** x is primitive: its powers come back to 1 after 255 steps, not before. */
  lemma PowerComesBack(k: nat)
    ensures Power(k + 255) == Power(k)
  {
    assert Power(255) == 1 by {
      AlogIsPower(254);
    }
    hide TimesX, Alog;
    TimesTwice(1, 255, k);
  }

  /** Powers with different exponents below 255 differ. */
  lemma PowersDiffer(i: nat, j: nat)
    requires i < j < 255
    ensures Power(i) != Power(j)
  {
    hide TimesX, Alog;
    TimesTwice(1, j - i, i);
    if Power(i) == Power(j) {
      TimesIsInjective(1, Power(j - i), i);
      AlogIsPower(j - i);
    }
  }

  // ----- Products -----

  /** The product the encoder takes of a byte and x^e: the logs are added and 255
      is taken off once. */
  function TableProduct(d: Byte, e: nat): Byte
    requires e < 255
  {
    if d == 0 then 0 else
      var sum := Log(d) + e;
      if 0 <= sum < 255 then Alog(sum)
      else if 0 <= sum - 255 < 255 then Alog(sum - 255)
      else 0
  }

  /** The tables multiply: the logs add up modulo 255. */
  lemma TableProductIsTimes(d: Byte, e: nat)
    requires e < 255
    ensures TableProduct(d, e) == Times(d, e)
  {
    hide TimesX, Alog, Log;
    if d == 0 {
      TimesOfZero(e);
    } else {
      AlogOfLog(d);
      var log := Log(d);
      AlogIsPower(log);
      TimesTwice(1, log, e);
      if log + e < 255 {
        AlogIsPower(log + e);
      } else {
        AlogIsPower(log + e - 255);
        PowerComesBack(log + e - 255);
      }
    }
  }

  function Gate(bit: bool, a: Byte): Byte {
    if bit then a else 0
  }

  function Mask(i: nat): Byte
    requires i < 8
  {
    match i
    case 0 => 0x01 case 1 => 0x02 case 2 => 0x04 case 3 => 0x08
    case 4 => 0x10 case 5 => 0x20 case 6 => 0x40 case _ => 0x80
  }

  function Bit(a: Byte, i: nat): bool
    requires i < 8
  {
    a & Mask(i) != 0
  }

  /** The field product by shifting and adding: bit i of b selects a * x^i. */
  function Product(a: Byte, b: Byte): Byte {
    Add(Add(Add(Gate(Bit(b, 0), Times(a, 0)), Gate(Bit(b, 1), Times(a, 1))),
            Add(Gate(Bit(b, 2), Times(a, 2)), Gate(Bit(b, 3), Times(a, 3)))),
        Add(Add(Gate(Bit(b, 4), Times(a, 4)), Gate(Bit(b, 5), Times(a, 5))),
            Add(Gate(Bit(b, 6), Times(a, 6)), Gate(Bit(b, 7), Times(a, 7)))))
  }

  lemma TimesXOfGate(bit: bool, a: Byte)
    ensures TimesX(Gate(bit, a)) == Gate(bit, TimesX(a))
  {
  }

  lemma BitsOfTimesX(b: Byte)
    ensures Bit(TimesX(b), 0) == Bit(b, 7)
    ensures Bit(TimesX(b), 1) == Bit(b, 0)
    ensures Bit(TimesX(b), 2) == (Bit(b, 1) != Bit(b, 7))
    ensures Bit(TimesX(b), 3) == (Bit(b, 2) != Bit(b, 7))
    ensures Bit(TimesX(b), 4) == (Bit(b, 3) != Bit(b, 7))
    ensures Bit(TimesX(b), 5) == Bit(b, 4)
    ensures Bit(TimesX(b), 6) == Bit(b, 5)
    ensures Bit(TimesX(b), 7) == Bit(b, 6)
  {
  }

  lemma RawReduction(a: Byte, a4: Byte, a8: Byte)
    requires a4 == TimesX(TimesX(TimesX(TimesX(a))))
    requires a8 == TimesX(TimesX(TimesX(TimesX(a4))))
    ensures a8 == (a ^ TimesX(TimesX(a))) ^ (TimesX(TimesX(TimesX(a))) ^ a4)
  {
  }

  /** x^8 = x^4 + x^3 + x^2 + 1. */
  lemma Reduction(a: Byte)
    ensures Times(a, 8) == Add(Add(a, Times(a, 2)), Add(Times(a, 3), Times(a, 4)))
  {
    hide TimesX;
    assert Times(a, 1) == TimesX(a) && Times(a, 2) == TimesX(Times(a, 1)) && Times(a, 3) == TimesX(Times(a, 2));
    assert Times(a, 4) == TimesX(Times(a, 3)) && Times(a, 5) == TimesX(Times(a, 4));
    assert Times(a, 6) == TimesX(Times(a, 5)) && Times(a, 7) == TimesX(Times(a, 6));
    RawReduction(a, Times(a, 4), Times(a, 8));
  }

  lemma MaskOfSum(a: Byte, b: Byte, mask: Byte)
    requires mask == 0x01 || mask == 0x02 || mask == 0x04 || mask == 0x08 ||
             mask == 0x10 || mask == 0x20 || mask == 0x40 || mask == 0x80
    ensures ((a ^ b) & mask != 0) == ((a & mask != 0) != (b & mask != 0))
  {
  }

  lemma BitOfSum(a: Byte, b: Byte, i: nat)
    requires i < 8
    ensures Bit(Add(a, b), i) == (Bit(a, i) != Bit(b, i))
  {
    MaskOfSum(a, b, Mask(i));
  }

  lemma SameBits(a: Byte, b: Byte)
    requires forall i :: 0 <= i < 8 ==> Bit(a, i) == Bit(b, i)
    ensures a == b
  {
    assert Bit(a, 0) == Bit(b, 0) && Bit(a, 1) == Bit(b, 1) && Bit(a, 2) == Bit(b, 2) && Bit(a, 3) == Bit(b, 3);
    assert Bit(a, 4) == Bit(b, 4) && Bit(a, 5) == Bit(b, 5) && Bit(a, 6) == Bit(b, 6) && Bit(a, 7) == Bit(b, 7);
  }

  lemma ReorderBit(g0: Byte, g1: Byte, g2: Byte, g3: Byte, g4: Byte, g5: Byte, g6: Byte, t0: Byte, t2: Byte,
                   t3: Byte, t4: Byte, i: nat)
    requires i < 8
    ensures Bit(Add(Add(Add(t0, g0), Add(Add(g1, t2), Add(g2, t3))), Add(Add(Add(g3, t4), g4), Add(g5, g6))), i)
         == Bit(Add(Add(Add(g0, g1), Add(g2, g3)), Add(Add(g4, g5), Add(g6, Add(Add(t0, t2), Add(t3, t4))))), i)
  {
    hide Add, Bit;
    forall a, b ensures Bit(Add(a, b), i) == (Bit(a, i) != Bit(b, i)) {
      BitOfSum(a, b, i);
    }
  }

  lemma Reorder(g0: Byte, g1: Byte, g2: Byte, g3: Byte, g4: Byte, g5: Byte, g6: Byte, t0: Byte, t2: Byte,
                t3: Byte, t4: Byte)
    ensures Add(Add(Add(t0, g0), Add(Add(g1, t2), Add(g2, t3))), Add(Add(Add(g3, t4), g4), Add(g5, g6)))
         == Add(Add(Add(g0, g1), Add(g2, g3)), Add(Add(g4, g5), Add(g6, Add(Add(t0, t2), Add(t3, t4)))))
  {
    hide Add, Bit;
    var left := Add(Add(Add(t0, g0), Add(Add(g1, t2), Add(g2, t3))), Add(Add(Add(g3, t4), g4), Add(g5, g6)));
    var right := Add(Add(Add(g0, g1), Add(g2, g3)), Add(Add(g4, g5), Add(g6, Add(Add(t0, t2), Add(t3, t4)))));
    forall i | 0 <= i < 8 ensures Bit(left, i) == Bit(right, i) {
      ReorderBit(g0, g1, g2, g3, g4, g5, g6, t0, t2, t3, t4, i);
    }
    SameBits(left, right);
  }

  lemma GateToggled(bit: bool, flip: bool, a: Byte)
    ensures Gate(bit != flip, a) == Add(Gate(bit, a), Gate(flip, a))
  {
  }

  lemma GateOfSum(bit: bool, a: Byte, b: Byte)
    ensures Gate(bit, Add(a, b)) == Add(Gate(bit, a), Gate(bit, b))
  {
  }

  /** TimesX of the product, one gated power at a time. */
  lemma TimesXOfProduct(a: Byte, b: Byte)
    ensures TimesX(Product(a, b))
         == Add(Add(Add(Gate(Bit(b, 0), Times(a, 1)), Gate(Bit(b, 1), Times(a, 2))),
                    Add(Gate(Bit(b, 2), Times(a, 3)), Gate(Bit(b, 3), Times(a, 4)))),
                Add(Add(Gate(Bit(b, 4), Times(a, 5)), Gate(Bit(b, 5), Times(a, 6))),
                    Add(Gate(Bit(b, 6), Times(a, 7)), Gate(Bit(b, 7), Times(a, 8)))))
  {
    hide TimesX, Add, Gate, Bit;
    var g0, g1 := Gate(Bit(b, 0), Times(a, 0)), Gate(Bit(b, 1), Times(a, 1));
    var g2, g3 := Gate(Bit(b, 2), Times(a, 2)), Gate(Bit(b, 3), Times(a, 3));
    var g4, g5 := Gate(Bit(b, 4), Times(a, 4)), Gate(Bit(b, 5), Times(a, 5));
    var g6, g7 := Gate(Bit(b, 6), Times(a, 6)), Gate(Bit(b, 7), Times(a, 7));
    TimesXOfSum(Add(Add(g0, g1), Add(g2, g3)), Add(Add(g4, g5), Add(g6, g7)));
    TimesXOfSum(Add(g0, g1), Add(g2, g3));
    TimesXOfSum(Add(g4, g5), Add(g6, g7));
    TimesXOfSum(g0, g1);
    TimesXOfSum(g2, g3);
    TimesXOfSum(g4, g5);
    TimesXOfSum(g6, g7);
    forall i | 0 <= i < 8 ensures TimesX(Gate(Bit(b, i), Times(a, i))) == Gate(Bit(b, i), Times(a, i + 1)) {
      TimesXOfGate(Bit(b, i), Times(a, i));
    }
  }

  /** The product with TimesX(b): bit 7 of b comes back at bits 0, 2, 3 and 4. */
  lemma ProductWrapsAround(a: Byte, b: Byte)
    ensures Product(a, TimesX(b))
         == Add(Add(Add(Gate(Bit(b, 7), a), Gate(Bit(b, 0), Times(a, 1))),
                    Add(Add(Gate(Bit(b, 1), Times(a, 2)), Gate(Bit(b, 7), Times(a, 2))),
                        Add(Gate(Bit(b, 2), Times(a, 3)), Gate(Bit(b, 7), Times(a, 3))))),
                Add(Add(Add(Gate(Bit(b, 3), Times(a, 4)), Gate(Bit(b, 7), Times(a, 4))), Gate(Bit(b, 4), Times(a, 5))),
                    Add(Gate(Bit(b, 5), Times(a, 6)), Gate(Bit(b, 6), Times(a, 7)))))
  {
    assert Times(a, 0) == a;
    hide TimesX, Times, Add, Gate, Bit;
    BitsOfTimesX(b);
    GateToggled(Bit(b, 1), Bit(b, 7), Times(a, 2));
    GateToggled(Bit(b, 2), Bit(b, 7), Times(a, 3));
    GateToggled(Bit(b, 3), Bit(b, 7), Times(a, 4));
  }

  lemma ProductOfTimesX(a: Byte, b: Byte)
    ensures Product(a, TimesX(b)) == TimesX(Product(a, b))
  {
    hide TimesX, Times, Add, Gate, Bit, Product;
    ProductWrapsAround(a, b);
    TimesXOfProduct(a, b);
    Reduction(a);
    var top := Bit(b, 7);
    GateOfSum(top, Add(a, Times(a, 2)), Add(Times(a, 3), Times(a, 4)));
    GateOfSum(top, a, Times(a, 2));
    GateOfSum(top, Times(a, 3), Times(a, 4));
    Reorder(Gate(Bit(b, 0), Times(a, 1)), Gate(Bit(b, 1), Times(a, 2)), Gate(Bit(b, 2), Times(a, 3)),
            Gate(Bit(b, 3), Times(a, 4)), Gate(Bit(b, 4), Times(a, 5)), Gate(Bit(b, 5), Times(a, 6)),
            Gate(Bit(b, 6), Times(a, 7)), Gate(top, a), Gate(top, Times(a, 2)), Gate(top, Times(a, 3)),
            Gate(top, Times(a, 4)));
  }

  lemma {:induction false} ProductOfPower(a: Byte, k: nat)
    ensures Product(a, Power(k)) == Times(a, k)
  {
    if k == 0 {
    } else {
      hide TimesX, Product;
      ProductOfPower(a, k - 1);
      ProductOfTimesX(a, Power(k - 1));
    }
  }

  /** Adding logs in the tables is multiplication in the field. */
  lemma TableProductIsProduct(d: Byte, e: nat)
    requires e < 255
    ensures TableProduct(d, e) == Product(d, Alog(e))
  {
    hide TimesX, Product, Alog, TableProduct;
    TableProductIsTimes(d, e);
    AlogIsPower(e);
    ProductOfPower(d, e);
  }
}
