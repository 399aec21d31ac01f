/** A machine check that the base table is a bijection of 0..255. The check
    goes through the inverse table: reading the inverse at the entry found at
    position `k` of the base table gives back `k`, so no two positions hold the
    same entry. The inverse table is only used by this proof. */
module BaseTable {
  import opened Tables

  /** The inverse of the base table in rows of sixteen: entry `c` of row `r`
      is the position of the value `16 * r + c` in the base table. */
  const InverseRow0: seq<int> := [36, 100, 163, 126, 233, 134, 30, 14, 22, 175, 27, 46, 203, 7, 213, 5]
  const InverseRow1: seq<int> := [149, 151, 110, 180, 57, 26, 177, 28, 244, 97, 37, 70, 154, 243, 19, 219]
  const InverseRow2: seq<int> := [47, 50, 197, 45, 17, 24, 136, 178, 91, 87, 155, 173, 164, 231, 89, 148]
  const InverseRow3: seq<int> := [69, 216, 230, 209, 128, 11, 95, 88, 54, 48, 150, 146, 80, 253, 39, 98]
  const InverseRow4: seq<int> := [127, 96, 251, 242, 62, 20, 167, 66, 245, 103, 64, 35, 105, 72, 250, 184]
  const InverseRow5: seq<int> := [102, 208, 141, 76, 225, 142, 119, 55, 51, 109, 4, 3, 86, 239, 40, 9]
  const InverseRow6: seq<int> := [10, 194, 181, 23, 121, 170, 93, 18, 191, 85, 222, 215, 182, 122, 183, 77]
  const InverseRow7: seq<int> := [190, 185, 241, 228, 116, 44, 138, 160, 33, 229, 79, 133, 132, 58, 139, 232]
  const InverseRow8: seq<int> := [248, 176, 115, 6, 106, 82, 67, 114, 59, 2, 236, 68, 16, 247, 21, 94]
  const InverseRow9: seq<int> := [202, 210, 73, 137, 31, 53, 234, 0, 162, 169, 165, 171, 254, 223, 74, 118]
  const InverseRow10: seq<int> := [1, 99, 206, 166, 120, 65, 71, 172, 61, 111, 158, 60, 174, 124, 56, 63]
  const InverseRow11: seq<int> := [227, 49, 188, 205, 255, 220, 152, 157, 224, 189, 125, 107, 117, 153, 29, 204]
  const InverseRow12: seq<int> := [217, 199, 12, 249, 113, 38, 123, 221, 112, 8, 135, 43, 226, 238, 145, 144]
  const InverseRow13: seq<int> := [108, 104, 201, 81, 143, 159, 218, 252, 101, 129, 192, 42, 84, 168, 240, 156]
  const InverseRow14: seq<int> := [186, 15, 130, 147, 195, 78, 83, 75, 187, 13, 34, 211, 237, 52, 200, 214]
  const InverseRow15: seq<int> := [25, 207, 198, 246, 92, 90, 193, 32, 161, 212, 131, 196, 41, 179, 235, 140]

  /** Row `r` of the inverse table; any `r` beyond 14 reads the last row. */
  function InverseRow(r: int): (row: seq<int>)
    ensures |row| == 16
  {
    if r == 0 then InverseRow0
    else if r == 1 then InverseRow1
    else if r == 2 then InverseRow2
    else if r == 3 then InverseRow3
    else if r == 4 then InverseRow4
    else if r == 5 then InverseRow5
    else if r == 6 then InverseRow6
    else if r == 7 then InverseRow7
    else if r == 8 then InverseRow8
    else if r == 9 then InverseRow9
    else if r == 10 then InverseRow10
    else if r == 11 then InverseRow11
    else if r == 12 then InverseRow12
    else if r == 13 then InverseRow13
    else if r == 14 then InverseRow14
    else InverseRow15
  }

  /** The position of value `v` in the base table, for `v` in 0..255. */
  function InverseAt(v: int): int {
    InverseRow(v / 16)[v % 16]
  }

  /** Position `k` of the base table holds a byte, and the inverse maps that
      byte back to `k`. */
  predicate ForwardAt(k: int) {
    0 <= BaseAt(k) < 256 && InverseAt(BaseAt(k)) == k
  }

  /** Row 0 of the base table and the inverse entries of its values. */
  lemma ForwardFacts0()
    ensures BaseRow0[0] == 151 && InverseRow9[7] == 0
    ensures BaseRow0[1] == 160 && InverseRow10[0] == 1
    ensures BaseRow0[2] == 137 && InverseRow8[9] == 2
    ensures BaseRow0[3] == 91 && InverseRow5[11] == 3
    ensures BaseRow0[4] == 90 && InverseRow5[10] == 4
    ensures BaseRow0[5] == 15 && InverseRow0[15] == 5
    ensures BaseRow0[6] == 131 && InverseRow8[3] == 6
    ensures BaseRow0[7] == 13 && InverseRow0[13] == 7
    ensures BaseRow0[8] == 201 && InverseRow12[9] == 8
    ensures BaseRow0[9] == 95 && InverseRow5[15] == 9
    ensures BaseRow0[10] == 96 && InverseRow6[0] == 10
    ensures BaseRow0[11] == 53 && InverseRow3[5] == 11
    ensures BaseRow0[12] == 194 && InverseRow12[2] == 12
    ensures BaseRow0[13] == 233 && InverseRow14[9] == 13
    ensures BaseRow0[14] == 7 && InverseRow0[7] == 14
    ensures BaseRow0[15] == 225 && InverseRow14[1] == 15
  {
  }

  /** ForwardAt holds for positions 0 to 15. */
  lemma ForwardRow0()
    ensures forall k :: 0 <= k < 16 ==> ForwardAt(k)
  {
    ForwardFacts0();
  }

  /** Row 1 of the base table and the inverse entries of its values. */
  lemma ForwardFacts1()
    ensures BaseRow1[0] == 140 && InverseRow8[12] == 16
    ensures BaseRow1[1] == 36 && InverseRow2[4] == 17
    ensures BaseRow1[2] == 103 && InverseRow6[7] == 18
    ensures BaseRow1[3] == 30 && InverseRow1[14] == 19
    ensures BaseRow1[4] == 69 && InverseRow4[5] == 20
    ensures BaseRow1[5] == 142 && InverseRow8[14] == 21
    ensures BaseRow1[6] == 8 && InverseRow0[8] == 22
    ensures BaseRow1[7] == 99 && InverseRow6[3] == 23
    ensures BaseRow1[8] == 37 && InverseRow2[5] == 24
    ensures BaseRow1[9] == 240 && InverseRow15[0] == 25
    ensures BaseRow1[10] == 21 && InverseRow1[5] == 26
    ensures BaseRow1[11] == 10 && InverseRow0[10] == 27
    ensures BaseRow1[12] == 23 && InverseRow1[7] == 28
    ensures BaseRow1[13] == 190 && InverseRow11[14] == 29
    ensures BaseRow1[14] == 6 && InverseRow0[6] == 30
    ensures BaseRow1[15] == 148 && InverseRow9[4] == 31
  {
  }

  /** ForwardAt holds for positions 16 to 31. */
  lemma ForwardRow1()
    ensures forall k :: 16 <= k < 32 ==> ForwardAt(k)
  {
    ForwardFacts1();
  }

  /** Row 2 of the base table and the inverse entries of its values. */
  lemma ForwardFacts2()
    ensures BaseRow2[0] == 247 && InverseRow15[7] == 32
    ensures BaseRow2[1] == 120 && InverseRow7[8] == 33
    ensures BaseRow2[2] == 234 && InverseRow14[10] == 34
    ensures BaseRow2[3] == 75 && InverseRow4[11] == 35
    ensures BaseRow2[4] == 0 && InverseRow0[0] == 36
    ensures BaseRow2[5] == 26 && InverseRow1[10] == 37
    ensures BaseRow2[6] == 197 && InverseRow12[5] == 38
    ensures BaseRow2[7] == 62 && InverseRow3[14] == 39
    ensures BaseRow2[8] == 94 && InverseRow5[14] == 40
    ensures BaseRow2[9] == 252 && InverseRow15[12] == 41
    ensures BaseRow2[10] == 219 && InverseRow13[11] == 42
    ensures BaseRow2[11] == 203 && InverseRow12[11] == 43
    ensures BaseRow2[12] == 117 && InverseRow7[5] == 44
    ensures BaseRow2[13] == 35 && InverseRow2[3] == 45
    ensures BaseRow2[14] == 11 && InverseRow0[11] == 46
    ensures BaseRow2[15] == 32 && InverseRow2[0] == 47
  {
  }

  /** ForwardAt holds for positions 32 to 47. */
  lemma ForwardRow2()
    ensures forall k :: 32 <= k < 48 ==> ForwardAt(k)
  {
    ForwardFacts2();
  }

  /** Row 3 of the base table and the inverse entries of its values. */
  lemma ForwardFacts3()
    ensures BaseRow3[0] == 57 && InverseRow3[9] == 48
    ensures BaseRow3[1] == 177 && InverseRow11[1] == 49
    ensures BaseRow3[2] == 33 && InverseRow2[1] == 50
    ensures BaseRow3[3] == 88 && InverseRow5[8] == 51
    ensures BaseRow3[4] == 237 && InverseRow14[13] == 52
    ensures BaseRow3[5] == 149 && InverseRow9[5] == 53
    ensures BaseRow3[6] == 56 && InverseRow3[8] == 54
    ensures BaseRow3[7] == 87 && InverseRow5[7] == 55
    ensures BaseRow3[8] == 174 && InverseRow10[14] == 56
    ensures BaseRow3[9] == 20 && InverseRow1[4] == 57
    ensures BaseRow3[10] == 125 && InverseRow7[13] == 58
    ensures BaseRow3[11] == 136 && InverseRow8[8] == 59
    ensures BaseRow3[12] == 171 && InverseRow10[11] == 60
    ensures BaseRow3[13] == 168 && InverseRow10[8] == 61
    ensures BaseRow3[14] == 68 && InverseRow4[4] == 62
    ensures BaseRow3[15] == 175 && InverseRow10[15] == 63
  {
  }

  /** ForwardAt holds for positions 48 to 63. */
  lemma ForwardRow3()
    ensures forall k :: 48 <= k < 64 ==> ForwardAt(k)
  {
    ForwardFacts3();
  }

  /** Row 4 of the base table and the inverse entries of its values. */
  lemma ForwardFacts4()
    ensures BaseRow4[0] == 74 && InverseRow4[10] == 64
    ensures BaseRow4[1] == 165 && InverseRow10[5] == 65
    ensures BaseRow4[2] == 71 && InverseRow4[7] == 66
    ensures BaseRow4[3] == 134 && InverseRow8[6] == 67
    ensures BaseRow4[4] == 139 && InverseRow8[11] == 68
    ensures BaseRow4[5] == 48 && InverseRow3[0] == 69
    ensures BaseRow4[6] == 27 && InverseRow1[11] == 70
    ensures BaseRow4[7] == 166 && InverseRow10[6] == 71
    ensures BaseRow4[8] == 77 && InverseRow4[13] == 72
    ensures BaseRow4[9] == 146 && InverseRow9[2] == 73
    ensures BaseRow4[10] == 158 && InverseRow9[14] == 74
    ensures BaseRow4[11] == 231 && InverseRow14[7] == 75
    ensures BaseRow4[12] == 83 && InverseRow5[3] == 76
    ensures BaseRow4[13] == 111 && InverseRow6[15] == 77
    ensures BaseRow4[14] == 229 && InverseRow14[5] == 78
    ensures BaseRow4[15] == 122 && InverseRow7[10] == 79
  {
  }

  /** ForwardAt holds for positions 64 to 79. */
  lemma ForwardRow4()
    ensures forall k :: 64 <= k < 80 ==> ForwardAt(k)
  {
    ForwardFacts4();
  }

  /** Row 5 of the base table and the inverse entries of its values. */
  lemma ForwardFacts5()
    ensures BaseRow5[0] == 60 && InverseRow3[12] == 80
    ensures BaseRow5[1] == 211 && InverseRow13[3] == 81
    ensures BaseRow5[2] == 133 && InverseRow8[5] == 82
    ensures BaseRow5[3] == 230 && InverseRow14[6] == 83
    ensures BaseRow5[4] == 220 && InverseRow13[12] == 84
    ensures BaseRow5[5] == 105 && InverseRow6[9] == 85
    ensures BaseRow5[6] == 92 && InverseRow5[12] == 86
    ensures BaseRow5[7] == 41 && InverseRow2[9] == 87
    ensures BaseRow5[8] == 55 && InverseRow3[7] == 88
    ensures BaseRow5[9] == 46 && InverseRow2[14] == 89
    ensures BaseRow5[10] == 245 && InverseRow15[5] == 90
    ensures BaseRow5[11] == 40 && InverseRow2[8] == 91
    ensures BaseRow5[12] == 244 && InverseRow15[4] == 92
    ensures BaseRow5[13] == 102 && InverseRow6[6] == 93
    ensures BaseRow5[14] == 143 && InverseRow8[15] == 94
    ensures BaseRow5[15] == 54 && InverseRow3[6] == 95
  {
  }

  /** ForwardAt holds for positions 80 to 95. */
  lemma ForwardRow5()
    ensures forall k :: 80 <= k < 96 ==> ForwardAt(k)
  {
    ForwardFacts5();
  }

  /** Row 6 of the base table and the inverse entries of its values. */
  lemma ForwardFacts6()
    ensures BaseRow6[0] == 65 && InverseRow4[1] == 96
    ensures BaseRow6[1] == 25 && InverseRow1[9] == 97
    ensures BaseRow6[2] == 63 && InverseRow3[15] == 98
    ensures BaseRow6[3] == 161 && InverseRow10[1] == 99
    ensures BaseRow6[4] == 1 && InverseRow0[1] == 100
    ensures BaseRow6[5] == 216 && InverseRow13[8] == 101
    ensures BaseRow6[6] == 80 && InverseRow5[0] == 102
    ensures BaseRow6[7] == 73 && InverseRow4[9] == 103
    ensures BaseRow6[8] == 209 && InverseRow13[1] == 104
    ensures BaseRow6[9] == 76 && InverseRow4[12] == 105
    ensures BaseRow6[10] == 132 && InverseRow8[4] == 106
    ensures BaseRow6[11] == 187 && InverseRow11[11] == 107
    ensures BaseRow6[12] == 208 && InverseRow13[0] == 108
    ensures BaseRow6[13] == 89 && InverseRow5[9] == 109
    ensures BaseRow6[14] == 18 && InverseRow1[2] == 110
    ensures BaseRow6[15] == 169 && InverseRow10[9] == 111
  {
  }

  /** ForwardAt holds for positions 96 to 111. */
  lemma ForwardRow6()
    ensures forall k :: 96 <= k < 112 ==> ForwardAt(k)
  {
    ForwardFacts6();
  }

  /** Row 7 of the base table and the inverse entries of its values. */
  lemma ForwardFacts7()
    ensures BaseRow7[0] == 200 && InverseRow12[8] == 112
    ensures BaseRow7[1] == 196 && InverseRow12[4] == 113
    ensures BaseRow7[2] == 135 && InverseRow8[7] == 114
    ensures BaseRow7[3] == 130 && InverseRow8[2] == 115
    ensures BaseRow7[4] == 116 && InverseRow7[4] == 116
    ensures BaseRow7[5] == 188 && InverseRow11[12] == 117
    ensures BaseRow7[6] == 159 && InverseRow9[15] == 118
    ensures BaseRow7[7] == 86 && InverseRow5[6] == 119
    ensures BaseRow7[8] == 164 && InverseRow10[4] == 120
    ensures BaseRow7[9] == 100 && InverseRow6[4] == 121
    ensures BaseRow7[10] == 109 && InverseRow6[13] == 122
    ensures BaseRow7[11] == 198 && InverseRow12[6] == 123
    ensures BaseRow7[12] == 173 && InverseRow10[13] == 124
    ensures BaseRow7[13] == 186 && InverseRow11[10] == 125
    ensures BaseRow7[14] == 3 && InverseRow0[3] == 126
    ensures BaseRow7[15] == 64 && InverseRow4[0] == 127
  {
  }

  /** ForwardAt holds for positions 112 to 127. */
  lemma ForwardRow7()
    ensures forall k :: 112 <= k < 128 ==> ForwardAt(k)
  {
    ForwardFacts7();
  }

  /** Row 8 of the base table and the inverse entries of its values. */
  lemma ForwardFacts8()
    ensures BaseRow8[0] == 52 && InverseRow3[4] == 128
    ensures BaseRow8[1] == 217 && InverseRow13[9] == 129
    ensures BaseRow8[2] == 226 && InverseRow14[2] == 130
    ensures BaseRow8[3] == 250 && InverseRow15[10] == 131
    ensures BaseRow8[4] == 124 && InverseRow7[12] == 132
    ensures BaseRow8[5] == 123 && InverseRow7[11] == 133
    ensures BaseRow8[6] == 5 && InverseRow0[5] == 134
    ensures BaseRow8[7] == 202 && InverseRow12[10] == 135
    ensures BaseRow8[8] == 38 && InverseRow2[6] == 136
    ensures BaseRow8[9] == 147 && InverseRow9[3] == 137
    ensures BaseRow8[10] == 118 && InverseRow7[6] == 138
    ensures BaseRow8[11] == 126 && InverseRow7[14] == 139
    ensures BaseRow8[12] == 255 && InverseRow15[15] == 140
    ensures BaseRow8[13] == 82 && InverseRow5[2] == 141
    ensures BaseRow8[14] == 85 && InverseRow5[5] == 142
    ensures BaseRow8[15] == 212 && InverseRow13[4] == 143
  {
  }

  /** ForwardAt holds for positions 128 to 143. */
  lemma ForwardRow8()
    ensures forall k :: 128 <= k < 144 ==> ForwardAt(k)
  {
    ForwardFacts8();
  }

  /** Row 9 of the base table and the inverse entries of its values. */
  lemma ForwardFacts9()
    ensures BaseRow9[0] == 207 && InverseRow12[15] == 144
    ensures BaseRow9[1] == 206 && InverseRow12[14] == 145
    ensures BaseRow9[2] == 59 && InverseRow3[11] == 146
    ensures BaseRow9[3] == 227 && InverseRow14[3] == 147
    ensures BaseRow9[4] == 47 && InverseRow2[15] == 148
    ensures BaseRow9[5] == 16 && InverseRow1[0] == 149
    ensures BaseRow9[6] == 58 && InverseRow3[10] == 150
    ensures BaseRow9[7] == 17 && InverseRow1[1] == 151
    ensures BaseRow9[8] == 182 && InverseRow11[6] == 152
    ensures BaseRow9[9] == 189 && InverseRow11[13] == 153
    ensures BaseRow9[10] == 28 && InverseRow1[12] == 154
    ensures BaseRow9[11] == 42 && InverseRow2[10] == 155
    ensures BaseRow9[12] == 223 && InverseRow13[15] == 156
    ensures BaseRow9[13] == 183 && InverseRow11[7] == 157
    ensures BaseRow9[14] == 170 && InverseRow10[10] == 158
    ensures BaseRow9[15] == 213 && InverseRow13[5] == 159
  {
  }

  /** ForwardAt holds for positions 144 to 159. */
  lemma ForwardRow9()
    ensures forall k :: 144 <= k < 160 ==> ForwardAt(k)
  {
    ForwardFacts9();
  }

  /** Row 10 of the base table and the inverse entries of its values. */
  lemma ForwardFacts10()
    ensures BaseRow10[0] == 119 && InverseRow7[7] == 160
    ensures BaseRow10[1] == 248 && InverseRow15[8] == 161
    ensures BaseRow10[2] == 152 && InverseRow9[8] == 162
    ensures BaseRow10[3] == 2 && InverseRow0[2] == 163
    ensures BaseRow10[4] == 44 && InverseRow2[12] == 164
    ensures BaseRow10[5] == 154 && InverseRow9[10] == 165
    ensures BaseRow10[6] == 163 && InverseRow10[3] == 166
    ensures BaseRow10[7] == 70 && InverseRow4[6] == 167
    ensures BaseRow10[8] == 221 && InverseRow13[13] == 168
    ensures BaseRow10[9] == 153 && InverseRow9[9] == 169
    ensures BaseRow10[10] == 101 && InverseRow6[5] == 170
    ensures BaseRow10[11] == 155 && InverseRow9[11] == 171
    ensures BaseRow10[12] == 167 && InverseRow10[7] == 172
    ensures BaseRow10[13] == 43 && InverseRow2[11] == 173
    ensures BaseRow10[14] == 172 && InverseRow10[12] == 174
    ensures BaseRow10[15] == 9 && InverseRow0[9] == 175
  {
  }

  /** ForwardAt holds for positions 160 to 175. */
  lemma ForwardRow10()
    ensures forall k :: 160 <= k < 176 ==> ForwardAt(k)
  {
    ForwardFacts10();
  }

  /** Row 11 of the base table and the inverse entries of its values. */
  lemma ForwardFacts11()
    ensures BaseRow11[0] == 129 && InverseRow8[1] == 176
    ensures BaseRow11[1] == 22 && InverseRow1[6] == 177
    ensures BaseRow11[2] == 39 && InverseRow2[7] == 178
    ensures BaseRow11[3] == 253 && InverseRow15[13] == 179
    ensures BaseRow11[4] == 19 && InverseRow1[3] == 180
    ensures BaseRow11[5] == 98 && InverseRow6[2] == 181
    ensures BaseRow11[6] == 108 && InverseRow6[12] == 182
    ensures BaseRow11[7] == 110 && InverseRow6[14] == 183
    ensures BaseRow11[8] == 79 && InverseRow4[15] == 184
    ensures BaseRow11[9] == 113 && InverseRow7[1] == 185
    ensures BaseRow11[10] == 224 && InverseRow14[0] == 186
    ensures BaseRow11[11] == 232 && InverseRow14[8] == 187
    ensures BaseRow11[12] == 178 && InverseRow11[2] == 188
    ensures BaseRow11[13] == 185 && InverseRow11[9] == 189
    ensures BaseRow11[14] == 112 && InverseRow7[0] == 190
    ensures BaseRow11[15] == 104 && InverseRow6[8] == 191
  {
  }

  /** ForwardAt holds for positions 176 to 191. */
  lemma ForwardRow11()
    ensures forall k :: 176 <= k < 192 ==> ForwardAt(k)
  {
    ForwardFacts11();
  }

  /** Row 12 of the base table and the inverse entries of its values. */
  lemma ForwardFacts12()
    ensures BaseRow12[0] == 218 && InverseRow13[10] == 192
    ensures BaseRow12[1] == 246 && InverseRow15[6] == 193
    ensures BaseRow12[2] == 97 && InverseRow6[1] == 194
    ensures BaseRow12[3] == 228 && InverseRow14[4] == 195
    ensures BaseRow12[4] == 251 && InverseRow15[11] == 196
    ensures BaseRow12[5] == 34 && InverseRow2[2] == 197
    ensures BaseRow12[6] == 242 && InverseRow15[2] == 198
    ensures BaseRow12[7] == 193 && InverseRow12[1] == 199
    ensures BaseRow12[8] == 238 && InverseRow14[14] == 200
    ensures BaseRow12[9] == 210 && InverseRow13[2] == 201
    ensures BaseRow12[10] == 144 && InverseRow9[0] == 202
    ensures BaseRow12[11] == 12 && InverseRow0[12] == 203
    ensures BaseRow12[12] == 191 && InverseRow11[15] == 204
    ensures BaseRow12[13] == 179 && InverseRow11[3] == 205
    ensures BaseRow12[14] == 162 && InverseRow10[2] == 206
    ensures BaseRow12[15] == 241 && InverseRow15[1] == 207
  {
  }

  /** ForwardAt holds for positions 192 to 207. */
  lemma ForwardRow12()
    ensures forall k :: 192 <= k < 208 ==> ForwardAt(k)
  {
    ForwardFacts12();
  }

  /** Row 13 of the base table and the inverse entries of its values. */
  lemma ForwardFacts13()
    ensures BaseRow13[0] == 81 && InverseRow5[1] == 208
    ensures BaseRow13[1] == 51 && InverseRow3[3] == 209
    ensures BaseRow13[2] == 145 && InverseRow9[1] == 210
    ensures BaseRow13[3] == 235 && InverseRow14[11] == 211
    ensures BaseRow13[4] == 249 && InverseRow15[9] == 212
    ensures BaseRow13[5] == 14 && InverseRow0[14] == 213
    ensures BaseRow13[6] == 239 && InverseRow14[15] == 214
    ensures BaseRow13[7] == 107 && InverseRow6[11] == 215
    ensures BaseRow13[8] == 49 && InverseRow3[1] == 216
    ensures BaseRow13[9] == 192 && InverseRow12[0] == 217
    ensures BaseRow13[10] == 214 && InverseRow13[6] == 218
    ensures BaseRow13[11] == 31 && InverseRow1[15] == 219
    ensures BaseRow13[12] == 181 && InverseRow11[5] == 220
    ensures BaseRow13[13] == 199 && InverseRow12[7] == 221
    ensures BaseRow13[14] == 106 && InverseRow6[10] == 222
    ensures BaseRow13[15] == 157 && InverseRow9[13] == 223
  {
  }

  /** ForwardAt holds for positions 208 to 223. */
  lemma ForwardRow13()
    ensures forall k :: 208 <= k < 224 ==> ForwardAt(k)
  {
    ForwardFacts13();
  }

  /** Row 14 of the base table and the inverse entries of its values. */
  lemma ForwardFacts14()
    ensures BaseRow14[0] == 184 && InverseRow11[8] == 224
    ensures BaseRow14[1] == 84 && InverseRow5[4] == 225
    ensures BaseRow14[2] == 204 && InverseRow12[12] == 226
    ensures BaseRow14[3] == 176 && InverseRow11[0] == 227
    ensures BaseRow14[4] == 115 && InverseRow7[3] == 228
    ensures BaseRow14[5] == 121 && InverseRow7[9] == 229
    ensures BaseRow14[6] == 50 && InverseRow3[2] == 230
    ensures BaseRow14[7] == 45 && InverseRow2[13] == 231
    ensures BaseRow14[8] == 127 && InverseRow7[15] == 232
    ensures BaseRow14[9] == 4 && InverseRow0[4] == 233
    ensures BaseRow14[10] == 150 && InverseRow9[6] == 234
    ensures BaseRow14[11] == 254 && InverseRow15[14] == 235
    ensures BaseRow14[12] == 138 && InverseRow8[10] == 236
    ensures BaseRow14[13] == 236 && InverseRow14[12] == 237
    ensures BaseRow14[14] == 205 && InverseRow12[13] == 238
    ensures BaseRow14[15] == 93 && InverseRow5[13] == 239
  {
  }

  /** ForwardAt holds for positions 224 to 239. */
  lemma ForwardRow14()
    ensures forall k :: 224 <= k < 240 ==> ForwardAt(k)
  {
    ForwardFacts14();
  }

  /** Row 15 of the base table and the inverse entries of its values. */
  lemma ForwardFacts15()
    ensures BaseRow15[0] == 222 && InverseRow13[14] == 240
    ensures BaseRow15[1] == 114 && InverseRow7[2] == 241
    ensures BaseRow15[2] == 67 && InverseRow4[3] == 242
    ensures BaseRow15[3] == 29 && InverseRow1[13] == 243
    ensures BaseRow15[4] == 24 && InverseRow1[8] == 244
    ensures BaseRow15[5] == 72 && InverseRow4[8] == 245
    ensures BaseRow15[6] == 243 && InverseRow15[3] == 246
    ensures BaseRow15[7] == 141 && InverseRow8[13] == 247
    ensures BaseRow15[8] == 128 && InverseRow8[0] == 248
    ensures BaseRow15[9] == 195 && InverseRow12[3] == 249
    ensures BaseRow15[10] == 78 && InverseRow4[14] == 250
    ensures BaseRow15[11] == 66 && InverseRow4[2] == 251
    ensures BaseRow15[12] == 215 && InverseRow13[7] == 252
    ensures BaseRow15[13] == 61 && InverseRow3[13] == 253
    ensures BaseRow15[14] == 156 && InverseRow9[12] == 254
    ensures BaseRow15[15] == 180 && InverseRow11[4] == 255
  {
  }

  /** ForwardAt holds for positions 240 to 255. */
  lemma ForwardRow15()
    ensures forall k :: 240 <= k < 256 ==> ForwardAt(k)
  {
    ForwardFacts15();
  }

  /** The base table is a bijection of 0..255: its entries are bytes, equal
      entries sit at equal positions because the inverse recovers the
      position, and so by counting every byte occurs. */
  lemma BaseIsBijection()
    ensures IsByteBijection(P)
  {
    ForwardRow0(); ForwardRow1(); ForwardRow2(); ForwardRow3(); ForwardRow4(); ForwardRow5(); ForwardRow6(); ForwardRow7();
    ForwardRow8(); ForwardRow9(); ForwardRow10(); ForwardRow11(); ForwardRow12(); ForwardRow13(); ForwardRow14(); ForwardRow15();
    assert forall k :: 0 <= k < 256 ==> ForwardAt(k);
    forall k | 0 <= k < |P| ensures 0 <= P[k] < 256 {
      assert ForwardAt(k);
    }
    forall a, b | 0 <= a < b < |P| ensures P[a] != P[b] {
      assert ForwardAt(a) && ForwardAt(b);
    }
    DistinctBytesCoverAll(P);
  }
}
