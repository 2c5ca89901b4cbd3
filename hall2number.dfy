/**
 * The dict `Hall2Number` of abacuskit/utils/constants.py (lines 1368-2167): the
 * space-group number (1-230) of each Hall symbol, and 0 for the sentinel
 * `"Unknown"`.  Several Hall symbols (origin choices and cell settings of one
 * group) share a number.  The literal is transcribed in full, in source order,
 * as consecutive parts, each headed by the source lines it covers and with the
 * source's `# n` group headings kept as comments.
 */
module Hall2NumberTable {
  import opened DictLiteral

  /** What every entry satisfies: a number in 0-230, and 0 exactly for `"Unknown"`. */
  predicate NumberInRange(hall: string, number: int) {
    0 <= number <= 230 && (number == 0 <==> hall == "Unknown")
  }

  predicate AllInRange(d: map<string, int>) {
    forall h | h in d :: NumberInRange(h, d[h])
  }

  lemma InRangeUnion(a: map<string, int>, b: map<string, int>)
    requires AllInRange(a) && AllInRange(b)
    ensures AllInRange(a + b)
  {
  }

  /** Lines 1369-1395: groups 1-6. */
  const Hall2NumberPart00: map<string, int> := map[
    "Unknown" := 0,
    // 1
    "P 1" := 1,
    // 2
    "-P 1" := 2,
    // 3
    "P 2y" := 3,
    "P 2" := 3,
    "P 2x" := 3,
    // 4
    "P 2yb" := 4,
    "P 2c" := 4,
    "P 2xa" := 4,
    // 5
    "C 2y" := 5,
    "A 2y" := 5,
    "I 2y" := 5,
    "A 2" := 5,
    "B 2" := 5,
    "I 2" := 5,
    "B 2x" := 5,
    "C 2x" := 5,
    "I 2x" := 5,
    // 6
    "P -2y" := 6,
    "P -2" := 6,
    "P -2x" := 6
  ]

  /** Lines 1397-1415: groups 7-8. */
  const Hall2NumberPart01: map<string, int> := map[
    // 7
    "P -2yc" := 7,
    "P -2yac" := 7,
    "P -2ya" := 7,
    "P -2a" := 7,
    "P -2ab" := 7,
    "P -2b" := 7,
    "P -2xb" := 7,
    "P -2xbc" := 7,
    "P -2xc" := 7,
    // 8
    "C -2y" := 8,
    "A -2y" := 8,
    "I -2y" := 8,
    "A -2" := 8,
    "B -2" := 8,
    "I -2" := 8,
    "B -2x" := 8,
    "C -2x" := 8,
    "I -2x" := 8
  ]

  /** Lines 1417-1442: groups 9-11. */
  const Hall2NumberPart02: map<string, int> := map[
    // 9
    "C -2yc" := 9,
    "A -2yac" := 9,
    "I -2ya" := 9,
    "A -2ya" := 9,
    "C -2ybc" := 9,
    "I -2yc" := 9,
    "A -2a" := 9,
    "B -2bc" := 9,
    "I -2b" := 9,
    "B -2b" := 9,
    "A -2ac" := 9,
    "I -2a" := 9,
    "B -2xb" := 9,
    "C -2xbc" := 9,
    "I -2xc" := 9,
    "C -2xc" := 9,
    "B -2xbc" := 9,
    "I -2xb" := 9,
    // 10
    "-P 2y" := 10,
    "-P 2" := 10,
    "-P 2x" := 10,
    // 11
    "-P 2yb" := 11,
    "-P 2c" := 11,
    "-P 2xa" := 11
  ]

  /** Lines 1444-1462: groups 12-13. */
  const Hall2NumberPart03: map<string, int> := map[
    // 12
    "-C 2y" := 12,
    "-A 2y" := 12,
    "-I 2y" := 12,
    "-A 2" := 12,
    "-B 2" := 12,
    "-I 2" := 12,
    "-B 2x" := 12,
    "-C 2x" := 12,
    "-I 2x" := 12,
    // 13
    "-P 2yc" := 13,
    "-P 2yac" := 13,
    "-P 2ya" := 13,
    "-P 2a" := 13,
    "-P 2ab" := 13,
    "-P 2b" := 13,
    "-P 2xb" := 13,
    "-P 2xbc" := 13,
    "-P 2xc" := 13
  ]

  /** Lines 1464-1472: group 14. */
  const Hall2NumberPart04: map<string, int> := map[
    // 14
    "-P 2ybc" := 14,
    "-P 2yn" := 14,
    "-P 2yab" := 14,
    "-P 2ac" := 14,
    "-P 2n" := 14,
    "-P 2bc" := 14,
    "-P 2xab" := 14,
    "-P 2xn" := 14,
    "-P 2xac" := 14
  ]

  /** Lines 1474-1503: groups 15-19. */
  const Hall2NumberPart05: map<string, int> := map[
    // 15
    "-C 2yc" := 15,
    "-A 2yac" := 15,
    "-I 2ya" := 15,
    "-A 2ya" := 15,
    "-C 2ybc" := 15,
    "-I 2yc" := 15,
    "-A 2a" := 15,
    "-B 2bc" := 15,
    "-I 2b" := 15,
    "-B 2b" := 15,
    "-A 2ac" := 15,
    "-I 2a" := 15,
    "-B 2xb" := 15,
    "-C 2xbc" := 15,
    "-I 2xc" := 15,
    "-C 2xc" := 15,
    "-B 2xbc" := 15,
    "-I 2xb" := 15,
    // 16
    "P 2 2" := 16,
    // 17
    "P 2c 2" := 17,
    "P 2a 2a" := 17,
    "P 2 2b" := 17,
    // 18
    "P 2 2ab" := 18,
    "P 2bc 2" := 18,
    "P 2ac 2ac" := 18,
    // 19
    "P 2ac 2ab" := 19
  ]

  /** Lines 1505-1532: groups 20-27. */
  const Hall2NumberPart06: map<string, int> := map[
    // 20
    "C 2c 2" := 20,
    "A 2a 2a" := 20,
    "B 2 2b" := 20,
    // 21
    "C 2 2" := 21,
    "A 2 2" := 21,
    "B 2 2" := 21,
    // 22
    "F 2 2" := 22,
    // 23
    "I 2 2" := 23,
    // 24
    "I 2b 2c" := 24,
    // 25
    "P 2 -2" := 25,
    "P -2 2" := 25,
    "P -2 -2" := 25,
    // 26
    "P 2c -2" := 26,
    "P 2c -2c" := 26,
    "P -2a 2a" := 26,
    "P -2 2a" := 26,
    "P -2 -2b" := 26,
    "P -2b -2" := 26,
    // 27
    "P 2 -2c" := 27,
    "P -2a 2" := 27,
    "P -2b -2b" := 27
  ]

  /** Lines 1534-1560: groups 28-31. */
  const Hall2NumberPart07: map<string, int> := map[
    // 28
    "P 2 -2a" := 28,
    "P 2 -2b" := 28,
    "P -2b 2" := 28,
    "P -2c 2" := 28,
    "P -2c -2c" := 28,
    "P -2a -2a" := 28,
    // 29
    "P 2c -2ac" := 29,
    "P 2c -2b" := 29,
    "P -2b 2a" := 29,
    "P -2ac 2a" := 29,
    "P -2bc -2c" := 29,
    "P -2a -2ab" := 29,
    // 30
    "P 2 -2bc" := 30,
    "P 2 -2ac" := 30,
    "P -2ac 2" := 30,
    "P -2ab 2" := 30,
    "P -2ab -2ab" := 30,
    "P -2bc -2bc" := 30,
    // 31
    "P 2ac -2" := 31,
    "P 2bc -2bc" := 31,
    "P -2ab 2ab" := 31,
    "P -2 2ac" := 31,
    "P -2 -2bc" := 31,
    "P -2ab -2" := 31
  ]

  /** Lines 1562-1590: groups 32-37. */
  const Hall2NumberPart08: map<string, int> := map[
    // 32
    "P 2 -2ab" := 32,
    "P -2bc 2" := 32,
    "P -2ac -2ac" := 32,
    // 33
    "P 2c -2n" := 33,
    "P 2c -2ab" := 33,
    "P -2bc 2a" := 33,
    "P -2n 2a" := 33,
    "P -2n -2ac" := 33,
    "P -2ac -2n" := 33,
    // 34
    "P 2 -2n" := 34,
    "P -2n 2" := 34,
    "P -2n -2n" := 34,
    // 35
    "C 2 -2" := 35,
    "A -2 2" := 35,
    "B -2 -2" := 35,
    // 36
    "C 2c -2" := 36,
    "C 2c -2c" := 36,
    "A -2a 2a" := 36,
    "A -2 2a" := 36,
    "B -2 -2b" := 36,
    "B -2b -2" := 36,
    // 37
    "C 2 -2c" := 37,
    "A -2a 2" := 37,
    "B -2b -2b" := 37
  ]

  /** Lines 1592-1618: groups 38-41. */
  const Hall2NumberPart09: map<string, int> := map[
    // 38
    "A 2 -2" := 38,
    "B 2 -2" := 38,
    "B -2 2" := 38,
    "C -2 2" := 38,
    "C -2 -2" := 38,
    "A -2 -2" := 38,
    // 39
    "A 2 -2c" := 39,
    "B 2 -2c" := 39,
    "B -2c 2" := 39,
    "C -2b 2" := 39,
    "C -2b -2b" := 39,
    "A -2c -2c" := 39,
    // 40
    "A 2 -2a" := 40,
    "B 2 -2b" := 40,
    "B -2b 2" := 40,
    "C -2c 2" := 40,
    "C -2c -2c" := 40,
    "A -2a -2a" := 40,
    // 41
    "A 2 -2ac" := 41,
    "B 2 -2bc" := 41,
    "B -2bc 2" := 41,
    "C -2bc 2" := 41,
    "C -2bc -2bc" := 41,
    "A -2ac -2ac" := 41
  ]

  /** Lines 1620-1650: groups 42-49. */
  const Hall2NumberPart10: map<string, int> := map[
    // 42
    "F 2 -2" := 42,
    "F -2 2" := 42,
    "F -2 -2" := 42,
    // 43
    "F 2 -2d" := 43,
    "F -2d 2" := 43,
    "F -2d -2d" := 43,
    // 44
    "I 2 -2" := 44,
    "I -2 2" := 44,
    "I -2 -2" := 44,
    // 45
    "I 2 -2c" := 45,
    "I -2a 2" := 45,
    "I -2b -2b" := 45,
    // 46
    "I 2 -2a" := 46,
    "I 2 -2b" := 46,
    "I -2b 2" := 46,
    "I -2c 2" := 46,
    "I -2c -2c" := 46,
    "I -2a -2a" := 46,
    // 47
    "-P 2 2" := 47,
    // 48
    "P 2 2 -1n" := 48,
    "-P 2ab 2bc" := 48,
    // 49
    "-P 2 2c" := 49,
    "-P 2a 2" := 49,
    "-P 2b 2b" := 49
  ]

  /** Lines 1652-1678: groups 50-53. */
  const Hall2NumberPart11: map<string, int> := map[
    // 50
    "P 2 2 -1ab" := 50,
    "-P 2ab 2b" := 50,
    "P 2 2 -1bc" := 50,
    "-P 2b 2bc" := 50,
    "P 2 2 -1ac" := 50,
    "-P 2a 2c" := 50,
    // 51
    "-P 2a 2a" := 51,
    "-P 2b 2" := 51,
    "-P 2 2b" := 51,
    "-P 2c 2c" := 51,
    "-P 2c 2" := 51,
    "-P 2 2a" := 51,
    // 52
    "-P 2a 2bc" := 52,
    "-P 2b 2n" := 52,
    "-P 2n 2b" := 52,
    "-P 2ab 2c" := 52,
    "-P 2ab 2n" := 52,
    "-P 2n 2bc" := 52,
    // 53
    "-P 2ac 2" := 53,
    "-P 2bc 2bc" := 53,
    "-P 2ab 2ab" := 53,
    "-P 2 2ac" := 53,
    "-P 2 2bc" := 53,
    "-P 2ab 2" := 53
  ]

  /** Lines 1680-1704: groups 54-58. */
  const Hall2NumberPart12: map<string, int> := map[
    // 54
    "-P 2a 2ac" := 54,
    "-P 2b 2c" := 54,
    "-P 2a 2b" := 54,
    "-P 2ac 2c" := 54,
    "-P 2bc 2b" := 54,
    "-P 2b 2ab" := 54,
    // 55
    "-P 2 2ab" := 55,
    "-P 2bc 2" := 55,
    "-P 2ac 2ac" := 55,
    // 56
    "-P 2ab 2ac" := 56,
    "-P 2ac 2bc" := 56,
    "-P 2bc 2ab" := 56,
    // 57
    "-P 2c 2b" := 57,
    "-P 2c 2ac" := 57,
    "-P 2ac 2a" := 57,
    "-P 2b 2a" := 57,
    "-P 2a 2ab" := 57,
    "-P 2bc 2c" := 57,
    // 58
    "-P 2 2n" := 58,
    "-P 2n 2" := 58,
    "-P 2n 2n" := 58
  ]

  /** Lines 1706-1728: groups 59-62. */
  const Hall2NumberPart13: map<string, int> := map[
    // 59
    "P 2 2ab -1ab" := 59,
    "-P 2ab 2a" := 59,
    "P 2bc 2 -1bc" := 59,
    "-P 2c 2bc" := 59,
    "P 2ac 2ac -1ac" := 59,
    "-P 2c 2a" := 59,
    // 60
    "-P 2n 2ab" := 60,
    "-P 2n 2c" := 60,
    "-P 2a 2n" := 60,
    "-P 2bc 2n" := 60,
    "-P 2ac 2b" := 60,
    "-P 2b 2ac" := 60,
    // 61
    "-P 2ac 2ab" := 61,
    "-P 2bc 2ac" := 61,
    // 62
    "-P 2ac 2n" := 62,
    "-P 2bc 2a" := 62,
    "-P 2c 2ab" := 62,
    "-P 2n 2ac" := 62,
    "-P 2n 2a" := 62,
    "-P 2c 2n" := 62
  ]

  /** Lines 1730-1757: groups 63-67. */
  const Hall2NumberPart14: map<string, int> := map[
    // 63
    "-C 2c 2" := 63,
    "-C 2c 2c" := 63,
    "-A 2a 2a" := 63,
    "-A 2 2a" := 63,
    "-B 2 2b" := 63,
    "-B 2b 2" := 63,
    // 64
    "-C 2bc 2" := 64,
    "-C 2bc 2bc" := 64,
    "-A 2ac 2ac" := 64,
    "-A 2 2ac" := 64,
    "-B 2 2bc" := 64,
    "-B 2bc 2" := 64,
    // 65
    "-C 2 2" := 65,
    "-A 2 2" := 65,
    "-B 2 2" := 65,
    // 66
    "-C 2 2c" := 66,
    "-A 2a 2" := 66,
    "-B 2b 2b" := 66,
    // 67
    "-C 2b 2" := 67,
    "-C 2b 2b" := 67,
    "-A 2c 2c" := 67,
    "-A 2 2c" := 67,
    "-B 2 2c" := 67,
    "-B 2c 2" := 67
  ]

  /** Lines 1759-1784: groups 68-73. */
  const Hall2NumberPart15: map<string, int> := map[
    // 68
    "C 2 2 -1bc" := 68,
    "-C 2b 2bc" := 68,
    "C 2 2 -1bc" := 68,
    "-C 2b 2c" := 68,
    "A 2 2 -1ac" := 68,
    "-A 2a 2c" := 68,
    "A 2 2 -1ac" := 68,
    "-A 2ac 2c" := 68,
    "B 2 2 -1bc" := 68,
    "-B 2bc 2b" := 68,
    "B 2 2 -1bc" := 68,
    "-B 2b 2bc" := 68,
    // 69
    "-F 2 2" := 69,
    // 70
    "F 2 2 -1d" := 70,
    "-F 2uv 2vw" := 70,
    // 71
    "-I 2 2" := 71,
    // 72
    "-I 2 2c" := 72,
    "-I 2a 2" := 72,
    "-I 2b 2b" := 72,
    // 73
    "-I 2b 2c" := 73,
    "-I 2a 2b" := 73
  ]

  /** Lines 1786-1830: groups 74-92. */
  const Hall2NumberPart16: map<string, int> := map[
    // 74
    "-I 2b 2" := 74,
    "-I 2a 2a" := 74,
    "-I 2c 2c" := 74,
    "-I 2 2b" := 74,
    "-I 2 2a" := 74,
    "-I 2c 2" := 74,
    // 75
    "P 4" := 75,
    // 76
    "P 4w" := 76,
    // 77
    "P 4c" := 77,
    // 78
    "P 4cw" := 78,
    // 79
    "I 4" := 79,
    // 80
    "I 4bw" := 80,
    // 81
    "P -4" := 81,
    // 82
    "I -4" := 82,
    // 83
    "-P 4" := 83,
    // 84
    "-P 4c" := 84,
    // 85
    "P 4ab -1ab" := 85,
    "-P 4a" := 85,
    // 86
    "P 4n -1n" := 86,
    "-P 4bc" := 86,
    // 87
    "-I 4" := 87,
    // 88
    "I 4bw -1bw" := 88,
    "-I 4ad" := 88,
    // 89
    "P 4 2" := 89,
    // 90
    "P 4ab 2ab" := 90,
    // 91
    "P 4w 2c" := 91,
    // 92
    "P 4abw 2nw" := 92
  ]

  /** Lines 1832-1884: groups 93-119. */
  const Hall2NumberPart17: map<string, int> := map[
    // 93
    "P 4c 2" := 93,
    // 94
    "P 4n 2n" := 94,
    // 95
    "P 4cw 2c" := 95,
    // 96
    "P 4nw 2abw" := 96,
    // 97
    "I 4 2" := 97,
    // 98
    "I 4bw 2bw" := 98,
    // 99
    "P 4 -2" := 99,
    // 100
    "P 4 -2ab" := 100,
    // 101
    "P 4c -2c" := 101,
    // 102
    "P 4n -2n" := 102,
    // 103
    "P 4 -2c" := 103,
    // 104
    "P 4 -2n" := 104,
    // 105
    "P 4c -2" := 105,
    // 106
    "P 4c -2ab" := 106,
    // 107
    "I 4 -2" := 107,
    // 108
    "I 4 -2c" := 108,
    // 109
    "I 4bw -2" := 109,
    // 110
    "I 4bw -2c" := 110,
    // 111
    "P -4 2" := 111,
    // 112
    "P -4 2c" := 112,
    // 113
    "P -4 2ab" := 113,
    // 114
    "P -4 2n" := 114,
    // 115
    "P -4 -2" := 115,
    // 116
    "P -4 -2c" := 116,
    // 117
    "P -4 -2ab" := 117,
    // 118
    "P -4 -2n" := 118,
    // 119
    "I -4 -2" := 119
  ]

  /** Lines 1886-1930: groups 120-138. */
  const Hall2NumberPart18: map<string, int> := map[
    // 120
    "I -4 -2c" := 120,
    // 121
    "I -4 2" := 121,
    // 122
    "I -4 2bw" := 122,
    // 123
    "-P 4 2" := 123,
    // 124
    "-P 4 2c" := 124,
    // 125
    "P 4 2 -1ab" := 125,
    "-P 4a 2b" := 125,
    // 126
    "P 4 2 -1n" := 126,
    "-P 4a 2bc" := 126,
    // 127
    "-P 4 2ab" := 127,
    // 128
    "-P 4 2n" := 128,
    // 129
    "P 4ab 2ab -1ab" := 129,
    "-P 4a 2a" := 129,
    // 130
    "P 4ab 2n -1ab" := 130,
    "-P 4a 2ac" := 130,
    // 131
    "-P 4c 2" := 131,
    // 132
    "-P 4c 2c" := 132,
    // 133
    "P 4n 2c -1n" := 133,
    "-P 4ac 2b" := 133,
    // 134
    "P 4n 2 -1n" := 134,
    "-P 4ac 2bc" := 134,
    // 135
    "-P 4c 2ab" := 135,
    // 136
    "-P 4n 2n" := 136,
    // 137
    "P 4n 2n -1n" := 137,
    "-P 4ac 2a" := 137,
    // 138
    "P 4n 2ab -1n" := 138,
    "-P 4ac 2ac" := 138
  ]

  /** Lines 1932-1977: groups 139-159. */
  const Hall2NumberPart19: map<string, int> := map[
    // 139
    "-I 4 2" := 139,
    // 140
    "-I 4 2c" := 140,
    // 141
    "I 4bw 2bw -1bw" := 141,
    "-I 4bd 2" := 141,
    // 142
    "I 4bw 2aw -1bw" := 142,
    "-I 4bd 2c" := 142,
    // 143
    "P 3" := 143,
    // 144
    "P 31" := 144,
    // 145
    "P 32" := 145,
    // 146
    "R 3" := 146,
    "P 3*" := 146,
    // 147
    "-P 3" := 147,
    // 148
    "-R 3" := 148,
    "-P 3*" := 148,
    // 149
    "P 3 2" := 149,
    // 150
    "P 3 2\"" := 150,
    // 151
    "P 31 2c (0 0 1)" := 151,
    // 152
    "P 31 2\"" := 152,
    // 153
    "P 32 2c (0 0 -1)" := 153,
    // 154
    "P 32 2\"" := 154,
    // 155
    "R 3 2\"" := 155,
    "P 3* 2" := 155,
    // 156
    "P 3 -2\"" := 156,
    // 157
    "P 3 -2" := 157,
    // 158
    "P 3 -2\"c" := 158,
    // 159
    "P 3 -2c" := 159
  ]

  /** Lines 1979-2027: groups 160-182. */
  const Hall2NumberPart20: map<string, int> := map[
    // 160
    "R 3 -2\"" := 160,
    "P 3* -2" := 160,
    // 161
    "R 3 -2\"c" := 161,
    "P 3* -2n" := 161,
    // 162
    "-P 3 2" := 162,
    // 163
    "-P 3 2c" := 163,
    // 164
    "-P 3 2\"" := 164,
    // 165
    "-P 3 2\"c" := 165,
    // 166
    "-R 3 2\"" := 166,
    "-P 3* 2" := 166,
    // 167
    "-R 3 2\"c" := 167,
    "-P 3* 2n" := 167,
    // 168
    "P 6" := 168,
    // 169
    "P 61" := 169,
    // 170
    "P 65" := 170,
    // 171
    "P 62" := 171,
    // 172
    "P 64" := 172,
    // 173
    "P 6c" := 173,
    // 174
    "P -6" := 174,
    // 175
    "-P 6" := 175,
    // 176
    "-P 6c" := 176,
    // 177
    "P 6 2" := 177,
    // 178
    "P 61 2 (0 0 -1)" := 178,
    // 179
    "P 65 2 (0 0 1)" := 179,
    // 180
    "P 62 2c (0 0 1)" := 180,
    // 181
    "P 64 2c (0 0 -1)" := 181,
    // 182
    "P 6c 2c" := 182
  ]

  /** Lines 2029-2079: groups 183-207. */
  const Hall2NumberPart21: map<string, int> := map[
    // 183
    "P 6 -2" := 183,
    // 184
    "P 6 -2c" := 184,
    // 185
    "P 6c -2" := 185,
    // 186
    "P 6c -2c" := 186,
    // 187
    "P -6 2" := 187,
    // 188
    "P -6c 2" := 188,
    // 189
    "P -6 -2" := 189,
    // 190
    "P -6c -2c" := 190,
    // 191
    "-P 6 2" := 191,
    // 192
    "-P 6 2c" := 192,
    // 193
    "-P 6c 2" := 193,
    // 194
    "-P 6c 2c" := 194,
    // 195
    "P 2 2 3" := 195,
    // 196
    "F 2 2 3" := 196,
    // 197
    "I 2 2 3" := 197,
    // 198
    "P 2ac 2ab 3" := 198,
    // 199
    "I 2b 2c 3" := 199,
    // 200
    "-P 2 2 3" := 200,
    // 201
    "P 2 2 3 -1n" := 201,
    "-P 2ab 2bc 3" := 201,
    // 202
    "-F 2 2 3" := 202,
    // 203
    "F 2 2 3 -1d" := 203,
    "-F 2uv 2vw 3" := 203,
    // 204
    "-I 2 2 3" := 204,
    // 205
    "-P 2ac 2ab 3" := 205,
    // 206
    "-I 2b 2c 3" := 206,
    // 207
    "P 4 2 3" := 207
  ]

  /** Lines 2081-2129: groups 208-230. */
  const Hall2NumberPart22: map<string, int> := map[
    // 208
    "P 4n 2 3" := 208,
    // 209
    "F 4 2 3" := 209,
    // 210
    "F 4d 2 3" := 210,
    // 211
    "I 4 2 3" := 211,
    // 212
    "P 4acd 2ab 3" := 212,
    // 213
    "P 4bd 2ab 3" := 213,
    // 214
    "I 4bd 2c 3" := 214,
    // 215
    "P -4 2 3" := 215,
    // 216
    "F -4 2 3" := 216,
    // 217
    "I -4 2 3" := 217,
    // 218
    "P -4n 2 3" := 218,
    // 219
    "F -4c 2 3" := 219,
    // 220
    "I -4bd 2c 3" := 220,
    // 221
    "-P 4 2 3" := 221,
    // 222
    "P 4 2 3 -1n" := 222,
    "-P 4a 2bc 3" := 222,
    // 223
    "-P 4n 2 3" := 223,
    // 224
    "P 4n 2 3 -1n" := 224,
    "-P 4bc 2bc 3" := 224,
    // 225
    "-F 4 2 3" := 225,
    // 226
    "-F 4c 2 3" := 226,
    // 227
    "F 4d 2 3 -1d" := 227,
    "-F 4vw 2vw 3" := 227,
    // 228
    "F 4d 2 3 -1cd" := 228,
    "-F 4cvw 2vw 3" := 228,
    // 229
    "-I 4 2 3" := 229,
    // 230
    "-I 4bd 2c 3" := 230
  ]

  /** Lines 2133-2166: non-standard settings of groups 1-139. */
  const Hall2NumberPart23: map<string, int> := map[
    // 1
    "A 1" := 1,
    "B 1" := 1,
    "C 1" := 1,
    "I 1" := 1,
    "F 1" := 1,
    // 2
    "-A 1" := 2,
    "-B 1" := 2,
    "-C 1" := 2,
    "-I 1" := 2,
    "-F 1" := 2,
    // 5
    "F 2" := 5,
    "F 2x" := 5,
    "F 2y" := 5,
    // 8
    "F -2" := 8,
    "F -2x" := 8,
    "F -2y" := 8,
    // 9
    "F -2d" := 9,
    "F -2yd" := 9,
    "F -2xd" := 9,
    // 12
    "-F 2" := 12,
    "-F 2x" := 12,
    "-F 2y" := 12,
    // 15
    "F 2ycuw -1c" := 15,
    // 70
    "-F 2 2 -1d" := 70,
    "-F 2uv 2vw" := 70,
    // 139
    "-F 4 2" := 139
  ]

  /** `Hall2Number` as Python builds it: the parts in source order, each later entry replacing an earlier one with the same key. */
  const Hall2Number: map<string, int> := Hall2NumberThrough23

  /** The dict that the first parts of the literal build: after part 00, after parts 00-01, and so on. */
  const Hall2NumberThrough00: map<string, int> := Hall2NumberPart00
  const Hall2NumberThrough01: map<string, int> := Hall2NumberThrough00 + Hall2NumberPart01
  const Hall2NumberThrough02: map<string, int> := Hall2NumberThrough01 + Hall2NumberPart02
  const Hall2NumberThrough03: map<string, int> := Hall2NumberThrough02 + Hall2NumberPart03
  const Hall2NumberThrough04: map<string, int> := Hall2NumberThrough03 + Hall2NumberPart04
  const Hall2NumberThrough05: map<string, int> := Hall2NumberThrough04 + Hall2NumberPart05
  const Hall2NumberThrough06: map<string, int> := Hall2NumberThrough05 + Hall2NumberPart06
  const Hall2NumberThrough07: map<string, int> := Hall2NumberThrough06 + Hall2NumberPart07
  const Hall2NumberThrough08: map<string, int> := Hall2NumberThrough07 + Hall2NumberPart08
  const Hall2NumberThrough09: map<string, int> := Hall2NumberThrough08 + Hall2NumberPart09
  const Hall2NumberThrough10: map<string, int> := Hall2NumberThrough09 + Hall2NumberPart10
  const Hall2NumberThrough11: map<string, int> := Hall2NumberThrough10 + Hall2NumberPart11
  const Hall2NumberThrough12: map<string, int> := Hall2NumberThrough11 + Hall2NumberPart12
  const Hall2NumberThrough13: map<string, int> := Hall2NumberThrough12 + Hall2NumberPart13
  const Hall2NumberThrough14: map<string, int> := Hall2NumberThrough13 + Hall2NumberPart14
  const Hall2NumberThrough15: map<string, int> := Hall2NumberThrough14 + Hall2NumberPart15
  const Hall2NumberThrough16: map<string, int> := Hall2NumberThrough15 + Hall2NumberPart16
  const Hall2NumberThrough17: map<string, int> := Hall2NumberThrough16 + Hall2NumberPart17
  const Hall2NumberThrough18: map<string, int> := Hall2NumberThrough17 + Hall2NumberPart18
  const Hall2NumberThrough19: map<string, int> := Hall2NumberThrough18 + Hall2NumberPart19
  const Hall2NumberThrough20: map<string, int> := Hall2NumberThrough19 + Hall2NumberPart20
  const Hall2NumberThrough21: map<string, int> := Hall2NumberThrough20 + Hall2NumberPart21
  const Hall2NumberThrough22: map<string, int> := Hall2NumberThrough21 + Hall2NumberPart22
  const Hall2NumberThrough23: map<string, int> := Hall2NumberThrough22 + Hall2NumberPart23

  /** Every entry of part 00 has a number in range. */
  lemma Hall2NumberPart00InRange()
    ensures AllInRange(Hall2NumberPart00)
  {
  }

  lemma Hall2NumberPart01InRange()
    ensures AllInRange(Hall2NumberPart01)
  {
  }

  lemma Hall2NumberPart02InRange()
    ensures AllInRange(Hall2NumberPart02)
  {
  }

  lemma Hall2NumberPart03InRange()
    ensures AllInRange(Hall2NumberPart03)
  {
  }

  lemma Hall2NumberPart04InRange()
    ensures AllInRange(Hall2NumberPart04)
  {
  }

  lemma Hall2NumberPart05InRange()
    ensures AllInRange(Hall2NumberPart05)
  {
  }

  lemma Hall2NumberPart06InRange()
    ensures AllInRange(Hall2NumberPart06)
  {
  }

  lemma Hall2NumberPart07InRange()
    ensures AllInRange(Hall2NumberPart07)
  {
  }

  lemma Hall2NumberPart08InRange()
    ensures AllInRange(Hall2NumberPart08)
  {
  }

  lemma Hall2NumberPart09InRange()
    ensures AllInRange(Hall2NumberPart09)
  {
  }

  lemma Hall2NumberPart10InRange()
    ensures AllInRange(Hall2NumberPart10)
  {
  }

  lemma Hall2NumberPart11InRange()
    ensures AllInRange(Hall2NumberPart11)
  {
  }

  lemma Hall2NumberPart12InRange()
    ensures AllInRange(Hall2NumberPart12)
  {
  }

  lemma Hall2NumberPart13InRange()
    ensures AllInRange(Hall2NumberPart13)
  {
  }

  lemma Hall2NumberPart14InRange()
    ensures AllInRange(Hall2NumberPart14)
  {
  }

  lemma Hall2NumberPart15InRange()
    ensures AllInRange(Hall2NumberPart15)
  {
  }

  lemma Hall2NumberPart16InRange()
    ensures AllInRange(Hall2NumberPart16)
  {
  }

  lemma Hall2NumberPart17InRange()
    ensures AllInRange(Hall2NumberPart17)
  {
  }

  lemma Hall2NumberPart18InRange()
    ensures AllInRange(Hall2NumberPart18)
  {
  }

  lemma Hall2NumberPart19InRange()
    ensures AllInRange(Hall2NumberPart19)
  {
  }

  lemma Hall2NumberPart20InRange()
    ensures AllInRange(Hall2NumberPart20)
  {
  }

  lemma Hall2NumberPart21InRange()
    ensures AllInRange(Hall2NumberPart21)
  {
  }

  lemma Hall2NumberPart22InRange()
    ensures AllInRange(Hall2NumberPart22)
  {
  }

  lemma Hall2NumberPart23InRange()
    ensures AllInRange(Hall2NumberPart23)
  {
  }

  /** Symbols that no part after part 00 has are looked up in the dict that parts 00-00 build. */
  lemma {:induction false} Hall2NumberDecidedBy00(keys: set<string>)
    requires Avoids(keys, Hall2NumberPart01)
    requires Avoids(keys, Hall2NumberPart02)
    requires Avoids(keys, Hall2NumberPart03)
    requires Avoids(keys, Hall2NumberPart04)
    requires Avoids(keys, Hall2NumberPart05)
    requires Avoids(keys, Hall2NumberPart06)
    requires Avoids(keys, Hall2NumberPart07)
    requires Avoids(keys, Hall2NumberPart08)
    requires Avoids(keys, Hall2NumberPart09)
    requires Avoids(keys, Hall2NumberPart10)
    requires Avoids(keys, Hall2NumberPart11)
    requires Avoids(keys, Hall2NumberPart12)
    requires Avoids(keys, Hall2NumberPart13)
    requires Avoids(keys, Hall2NumberPart14)
    requires Avoids(keys, Hall2NumberPart15)
    requires Avoids(keys, Hall2NumberPart16)
    requires Avoids(keys, Hall2NumberPart17)
    requires Avoids(keys, Hall2NumberPart18)
    requires Avoids(keys, Hall2NumberPart19)
    requires Avoids(keys, Hall2NumberPart20)
    requires Avoids(keys, Hall2NumberPart21)
    requires Avoids(keys, Hall2NumberPart22)
    requires Avoids(keys, Hall2NumberPart23)
    ensures SameOn(keys, Hall2Number, Hall2NumberThrough00)
  {
    UnionKeeps(keys, Hall2NumberThrough22, Hall2NumberPart23);
    UnionKeeps(keys, Hall2NumberThrough21, Hall2NumberPart22);
    SameOnTrans(keys, Hall2Number, Hall2NumberThrough22, Hall2NumberThrough21);
    UnionKeeps(keys, Hall2NumberThrough20, Hall2NumberPart21);
    SameOnTrans(keys, Hall2Number, Hall2NumberThrough21, Hall2NumberThrough20);
    UnionKeeps(keys, Hall2NumberThrough19, Hall2NumberPart20);
    SameOnTrans(keys, Hall2Number, Hall2NumberThrough20, Hall2NumberThrough19);
    UnionKeeps(keys, Hall2NumberThrough18, Hall2NumberPart19);
    SameOnTrans(keys, Hall2Number, Hall2NumberThrough19, Hall2NumberThrough18);
    UnionKeeps(keys, Hall2NumberThrough17, Hall2NumberPart18);
    SameOnTrans(keys, Hall2Number, Hall2NumberThrough18, Hall2NumberThrough17);
    UnionKeeps(keys, Hall2NumberThrough16, Hall2NumberPart17);
    SameOnTrans(keys, Hall2Number, Hall2NumberThrough17, Hall2NumberThrough16);
    UnionKeeps(keys, Hall2NumberThrough15, Hall2NumberPart16);
    SameOnTrans(keys, Hall2Number, Hall2NumberThrough16, Hall2NumberThrough15);
    UnionKeeps(keys, Hall2NumberThrough14, Hall2NumberPart15);
    SameOnTrans(keys, Hall2Number, Hall2NumberThrough15, Hall2NumberThrough14);
    UnionKeeps(keys, Hall2NumberThrough13, Hall2NumberPart14);
    SameOnTrans(keys, Hall2Number, Hall2NumberThrough14, Hall2NumberThrough13);
    UnionKeeps(keys, Hall2NumberThrough12, Hall2NumberPart13);
    SameOnTrans(keys, Hall2Number, Hall2NumberThrough13, Hall2NumberThrough12);
    UnionKeeps(keys, Hall2NumberThrough11, Hall2NumberPart12);
    SameOnTrans(keys, Hall2Number, Hall2NumberThrough12, Hall2NumberThrough11);
    UnionKeeps(keys, Hall2NumberThrough10, Hall2NumberPart11);
    SameOnTrans(keys, Hall2Number, Hall2NumberThrough11, Hall2NumberThrough10);
    UnionKeeps(keys, Hall2NumberThrough09, Hall2NumberPart10);
    SameOnTrans(keys, Hall2Number, Hall2NumberThrough10, Hall2NumberThrough09);
    UnionKeeps(keys, Hall2NumberThrough08, Hall2NumberPart09);
    SameOnTrans(keys, Hall2Number, Hall2NumberThrough09, Hall2NumberThrough08);
    UnionKeeps(keys, Hall2NumberThrough07, Hall2NumberPart08);
    SameOnTrans(keys, Hall2Number, Hall2NumberThrough08, Hall2NumberThrough07);
    UnionKeeps(keys, Hall2NumberThrough06, Hall2NumberPart07);
    SameOnTrans(keys, Hall2Number, Hall2NumberThrough07, Hall2NumberThrough06);
    UnionKeeps(keys, Hall2NumberThrough05, Hall2NumberPart06);
    SameOnTrans(keys, Hall2Number, Hall2NumberThrough06, Hall2NumberThrough05);
    UnionKeeps(keys, Hall2NumberThrough04, Hall2NumberPart05);
    SameOnTrans(keys, Hall2Number, Hall2NumberThrough05, Hall2NumberThrough04);
    UnionKeeps(keys, Hall2NumberThrough03, Hall2NumberPart04);
    SameOnTrans(keys, Hall2Number, Hall2NumberThrough04, Hall2NumberThrough03);
    UnionKeeps(keys, Hall2NumberThrough02, Hall2NumberPart03);
    SameOnTrans(keys, Hall2Number, Hall2NumberThrough03, Hall2NumberThrough02);
    UnionKeeps(keys, Hall2NumberThrough01, Hall2NumberPart02);
    SameOnTrans(keys, Hall2Number, Hall2NumberThrough02, Hall2NumberThrough01);
    UnionKeeps(keys, Hall2NumberThrough00, Hall2NumberPart01);
    SameOnTrans(keys, Hall2Number, Hall2NumberThrough01, Hall2NumberThrough00);
  }

  /** Symbols that no part after part 05 has are looked up in the dict that parts 00-05 build. */
  lemma {:induction false} Hall2NumberDecidedBy05(keys: set<string>)
    requires Avoids(keys, Hall2NumberPart06)
    requires Avoids(keys, Hall2NumberPart07)
    requires Avoids(keys, Hall2NumberPart08)
    requires Avoids(keys, Hall2NumberPart09)
    requires Avoids(keys, Hall2NumberPart10)
    requires Avoids(keys, Hall2NumberPart11)
    requires Avoids(keys, Hall2NumberPart12)
    requires Avoids(keys, Hall2NumberPart13)
    requires Avoids(keys, Hall2NumberPart14)
    requires Avoids(keys, Hall2NumberPart15)
    requires Avoids(keys, Hall2NumberPart16)
    requires Avoids(keys, Hall2NumberPart17)
    requires Avoids(keys, Hall2NumberPart18)
    requires Avoids(keys, Hall2NumberPart19)
    requires Avoids(keys, Hall2NumberPart20)
    requires Avoids(keys, Hall2NumberPart21)
    requires Avoids(keys, Hall2NumberPart22)
    requires Avoids(keys, Hall2NumberPart23)
    ensures SameOn(keys, Hall2Number, Hall2NumberThrough05)
  {
    UnionKeeps(keys, Hall2NumberThrough22, Hall2NumberPart23);
    UnionKeeps(keys, Hall2NumberThrough21, Hall2NumberPart22);
    SameOnTrans(keys, Hall2Number, Hall2NumberThrough22, Hall2NumberThrough21);
    UnionKeeps(keys, Hall2NumberThrough20, Hall2NumberPart21);
    SameOnTrans(keys, Hall2Number, Hall2NumberThrough21, Hall2NumberThrough20);
    UnionKeeps(keys, Hall2NumberThrough19, Hall2NumberPart20);
    SameOnTrans(keys, Hall2Number, Hall2NumberThrough20, Hall2NumberThrough19);
    UnionKeeps(keys, Hall2NumberThrough18, Hall2NumberPart19);
    SameOnTrans(keys, Hall2Number, Hall2NumberThrough19, Hall2NumberThrough18);
    UnionKeeps(keys, Hall2NumberThrough17, Hall2NumberPart18);
    SameOnTrans(keys, Hall2Number, Hall2NumberThrough18, Hall2NumberThrough17);
    UnionKeeps(keys, Hall2NumberThrough16, Hall2NumberPart17);
    SameOnTrans(keys, Hall2Number, Hall2NumberThrough17, Hall2NumberThrough16);
    UnionKeeps(keys, Hall2NumberThrough15, Hall2NumberPart16);
    SameOnTrans(keys, Hall2Number, Hall2NumberThrough16, Hall2NumberThrough15);
    UnionKeeps(keys, Hall2NumberThrough14, Hall2NumberPart15);
    SameOnTrans(keys, Hall2Number, Hall2NumberThrough15, Hall2NumberThrough14);
    UnionKeeps(keys, Hall2NumberThrough13, Hall2NumberPart14);
    SameOnTrans(keys, Hall2Number, Hall2NumberThrough14, Hall2NumberThrough13);
    UnionKeeps(keys, Hall2NumberThrough12, Hall2NumberPart13);
    SameOnTrans(keys, Hall2Number, Hall2NumberThrough13, Hall2NumberThrough12);
    UnionKeeps(keys, Hall2NumberThrough11, Hall2NumberPart12);
    SameOnTrans(keys, Hall2Number, Hall2NumberThrough12, Hall2NumberThrough11);
    UnionKeeps(keys, Hall2NumberThrough10, Hall2NumberPart11);
    SameOnTrans(keys, Hall2Number, Hall2NumberThrough11, Hall2NumberThrough10);
    UnionKeeps(keys, Hall2NumberThrough09, Hall2NumberPart10);
    SameOnTrans(keys, Hall2Number, Hall2NumberThrough10, Hall2NumberThrough09);
    UnionKeeps(keys, Hall2NumberThrough08, Hall2NumberPart09);
    SameOnTrans(keys, Hall2Number, Hall2NumberThrough09, Hall2NumberThrough08);
    UnionKeeps(keys, Hall2NumberThrough07, Hall2NumberPart08);
    SameOnTrans(keys, Hall2Number, Hall2NumberThrough08, Hall2NumberThrough07);
    UnionKeeps(keys, Hall2NumberThrough06, Hall2NumberPart07);
    SameOnTrans(keys, Hall2Number, Hall2NumberThrough07, Hall2NumberThrough06);
    UnionKeeps(keys, Hall2NumberThrough05, Hall2NumberPart06);
    SameOnTrans(keys, Hall2Number, Hall2NumberThrough06, Hall2NumberThrough05);
  }

  /** Symbols that no part after part 06 has are looked up in the dict that parts 00-06 build. */
  lemma {:induction false} Hall2NumberDecidedBy06(keys: set<string>)
    requires Avoids(keys, Hall2NumberPart07)
    requires Avoids(keys, Hall2NumberPart08)
    requires Avoids(keys, Hall2NumberPart09)
    requires Avoids(keys, Hall2NumberPart10)
    requires Avoids(keys, Hall2NumberPart11)
    requires Avoids(keys, Hall2NumberPart12)
    requires Avoids(keys, Hall2NumberPart13)
    requires Avoids(keys, Hall2NumberPart14)
    requires Avoids(keys, Hall2NumberPart15)
    requires Avoids(keys, Hall2NumberPart16)
    requires Avoids(keys, Hall2NumberPart17)
    requires Avoids(keys, Hall2NumberPart18)
    requires Avoids(keys, Hall2NumberPart19)
    requires Avoids(keys, Hall2NumberPart20)
    requires Avoids(keys, Hall2NumberPart21)
    requires Avoids(keys, Hall2NumberPart22)
    requires Avoids(keys, Hall2NumberPart23)
    ensures SameOn(keys, Hall2Number, Hall2NumberThrough06)
  {
    UnionKeeps(keys, Hall2NumberThrough22, Hall2NumberPart23);
    UnionKeeps(keys, Hall2NumberThrough21, Hall2NumberPart22);
    SameOnTrans(keys, Hall2Number, Hall2NumberThrough22, Hall2NumberThrough21);
    UnionKeeps(keys, Hall2NumberThrough20, Hall2NumberPart21);
    SameOnTrans(keys, Hall2Number, Hall2NumberThrough21, Hall2NumberThrough20);
    UnionKeeps(keys, Hall2NumberThrough19, Hall2NumberPart20);
    SameOnTrans(keys, Hall2Number, Hall2NumberThrough20, Hall2NumberThrough19);
    UnionKeeps(keys, Hall2NumberThrough18, Hall2NumberPart19);
    SameOnTrans(keys, Hall2Number, Hall2NumberThrough19, Hall2NumberThrough18);
    UnionKeeps(keys, Hall2NumberThrough17, Hall2NumberPart18);
    SameOnTrans(keys, Hall2Number, Hall2NumberThrough18, Hall2NumberThrough17);
    UnionKeeps(keys, Hall2NumberThrough16, Hall2NumberPart17);
    SameOnTrans(keys, Hall2Number, Hall2NumberThrough17, Hall2NumberThrough16);
    UnionKeeps(keys, Hall2NumberThrough15, Hall2NumberPart16);
    SameOnTrans(keys, Hall2Number, Hall2NumberThrough16, Hall2NumberThrough15);
    UnionKeeps(keys, Hall2NumberThrough14, Hall2NumberPart15);
    SameOnTrans(keys, Hall2Number, Hall2NumberThrough15, Hall2NumberThrough14);
    UnionKeeps(keys, Hall2NumberThrough13, Hall2NumberPart14);
    SameOnTrans(keys, Hall2Number, Hall2NumberThrough14, Hall2NumberThrough13);
    UnionKeeps(keys, Hall2NumberThrough12, Hall2NumberPart13);
    SameOnTrans(keys, Hall2Number, Hall2NumberThrough13, Hall2NumberThrough12);
    UnionKeeps(keys, Hall2NumberThrough11, Hall2NumberPart12);
    SameOnTrans(keys, Hall2Number, Hall2NumberThrough12, Hall2NumberThrough11);
    UnionKeeps(keys, Hall2NumberThrough10, Hall2NumberPart11);
    SameOnTrans(keys, Hall2Number, Hall2NumberThrough11, Hall2NumberThrough10);
    UnionKeeps(keys, Hall2NumberThrough09, Hall2NumberPart10);
    SameOnTrans(keys, Hall2Number, Hall2NumberThrough10, Hall2NumberThrough09);
    UnionKeeps(keys, Hall2NumberThrough08, Hall2NumberPart09);
    SameOnTrans(keys, Hall2Number, Hall2NumberThrough09, Hall2NumberThrough08);
    UnionKeeps(keys, Hall2NumberThrough07, Hall2NumberPart08);
    SameOnTrans(keys, Hall2Number, Hall2NumberThrough08, Hall2NumberThrough07);
    UnionKeeps(keys, Hall2NumberThrough06, Hall2NumberPart07);
    SameOnTrans(keys, Hall2Number, Hall2NumberThrough07, Hall2NumberThrough06);
  }

  /** Symbols that no part after part 10 has are looked up in the dict that parts 00-10 build. */
  lemma {:induction false} Hall2NumberDecidedBy10(keys: set<string>)
    requires Avoids(keys, Hall2NumberPart11)
    requires Avoids(keys, Hall2NumberPart12)
    requires Avoids(keys, Hall2NumberPart13)
    requires Avoids(keys, Hall2NumberPart14)
    requires Avoids(keys, Hall2NumberPart15)
    requires Avoids(keys, Hall2NumberPart16)
    requires Avoids(keys, Hall2NumberPart17)
    requires Avoids(keys, Hall2NumberPart18)
    requires Avoids(keys, Hall2NumberPart19)
    requires Avoids(keys, Hall2NumberPart20)
    requires Avoids(keys, Hall2NumberPart21)
    requires Avoids(keys, Hall2NumberPart22)
    requires Avoids(keys, Hall2NumberPart23)
    ensures SameOn(keys, Hall2Number, Hall2NumberThrough10)
  {
    UnionKeeps(keys, Hall2NumberThrough22, Hall2NumberPart23);
    UnionKeeps(keys, Hall2NumberThrough21, Hall2NumberPart22);
    SameOnTrans(keys, Hall2Number, Hall2NumberThrough22, Hall2NumberThrough21);
    UnionKeeps(keys, Hall2NumberThrough20, Hall2NumberPart21);
    SameOnTrans(keys, Hall2Number, Hall2NumberThrough21, Hall2NumberThrough20);
    UnionKeeps(keys, Hall2NumberThrough19, Hall2NumberPart20);
    SameOnTrans(keys, Hall2Number, Hall2NumberThrough20, Hall2NumberThrough19);
    UnionKeeps(keys, Hall2NumberThrough18, Hall2NumberPart19);
    SameOnTrans(keys, Hall2Number, Hall2NumberThrough19, Hall2NumberThrough18);
    UnionKeeps(keys, Hall2NumberThrough17, Hall2NumberPart18);
    SameOnTrans(keys, Hall2Number, Hall2NumberThrough18, Hall2NumberThrough17);
    UnionKeeps(keys, Hall2NumberThrough16, Hall2NumberPart17);
    SameOnTrans(keys, Hall2Number, Hall2NumberThrough17, Hall2NumberThrough16);
    UnionKeeps(keys, Hall2NumberThrough15, Hall2NumberPart16);
    SameOnTrans(keys, Hall2Number, Hall2NumberThrough16, Hall2NumberThrough15);
    UnionKeeps(keys, Hall2NumberThrough14, Hall2NumberPart15);
    SameOnTrans(keys, Hall2Number, Hall2NumberThrough15, Hall2NumberThrough14);
    UnionKeeps(keys, Hall2NumberThrough13, Hall2NumberPart14);
    SameOnTrans(keys, Hall2Number, Hall2NumberThrough14, Hall2NumberThrough13);
    UnionKeeps(keys, Hall2NumberThrough12, Hall2NumberPart13);
    SameOnTrans(keys, Hall2Number, Hall2NumberThrough13, Hall2NumberThrough12);
    UnionKeeps(keys, Hall2NumberThrough11, Hall2NumberPart12);
    SameOnTrans(keys, Hall2Number, Hall2NumberThrough12, Hall2NumberThrough11);
    UnionKeeps(keys, Hall2NumberThrough10, Hall2NumberPart11);
    SameOnTrans(keys, Hall2Number, Hall2NumberThrough11, Hall2NumberThrough10);
  }

  /** Symbols that no part after part 15 has are looked up in the dict that parts 00-15 build. */
  lemma {:induction false} Hall2NumberDecidedBy15(keys: set<string>)
    requires Avoids(keys, Hall2NumberPart16)
    requires Avoids(keys, Hall2NumberPart17)
    requires Avoids(keys, Hall2NumberPart18)
    requires Avoids(keys, Hall2NumberPart19)
    requires Avoids(keys, Hall2NumberPart20)
    requires Avoids(keys, Hall2NumberPart21)
    requires Avoids(keys, Hall2NumberPart22)
    requires Avoids(keys, Hall2NumberPart23)
    ensures SameOn(keys, Hall2Number, Hall2NumberThrough15)
  {
    UnionKeeps(keys, Hall2NumberThrough22, Hall2NumberPart23);
    UnionKeeps(keys, Hall2NumberThrough21, Hall2NumberPart22);
    SameOnTrans(keys, Hall2Number, Hall2NumberThrough22, Hall2NumberThrough21);
    UnionKeeps(keys, Hall2NumberThrough20, Hall2NumberPart21);
    SameOnTrans(keys, Hall2Number, Hall2NumberThrough21, Hall2NumberThrough20);
    UnionKeeps(keys, Hall2NumberThrough19, Hall2NumberPart20);
    SameOnTrans(keys, Hall2Number, Hall2NumberThrough20, Hall2NumberThrough19);
    UnionKeeps(keys, Hall2NumberThrough18, Hall2NumberPart19);
    SameOnTrans(keys, Hall2Number, Hall2NumberThrough19, Hall2NumberThrough18);
    UnionKeeps(keys, Hall2NumberThrough17, Hall2NumberPart18);
    SameOnTrans(keys, Hall2Number, Hall2NumberThrough18, Hall2NumberThrough17);
    UnionKeeps(keys, Hall2NumberThrough16, Hall2NumberPart17);
    SameOnTrans(keys, Hall2Number, Hall2NumberThrough17, Hall2NumberThrough16);
    UnionKeeps(keys, Hall2NumberThrough15, Hall2NumberPart16);
    SameOnTrans(keys, Hall2Number, Hall2NumberThrough16, Hall2NumberThrough15);
  }

  /** Symbols that no part after part 16 has are looked up in the dict that parts 00-16 build. */
  lemma {:induction false} Hall2NumberDecidedBy16(keys: set<string>)
    requires Avoids(keys, Hall2NumberPart17)
    requires Avoids(keys, Hall2NumberPart18)
    requires Avoids(keys, Hall2NumberPart19)
    requires Avoids(keys, Hall2NumberPart20)
    requires Avoids(keys, Hall2NumberPart21)
    requires Avoids(keys, Hall2NumberPart22)
    requires Avoids(keys, Hall2NumberPart23)
    ensures SameOn(keys, Hall2Number, Hall2NumberThrough16)
  {
    UnionKeeps(keys, Hall2NumberThrough22, Hall2NumberPart23);
    UnionKeeps(keys, Hall2NumberThrough21, Hall2NumberPart22);
    SameOnTrans(keys, Hall2Number, Hall2NumberThrough22, Hall2NumberThrough21);
    UnionKeeps(keys, Hall2NumberThrough20, Hall2NumberPart21);
    SameOnTrans(keys, Hall2Number, Hall2NumberThrough21, Hall2NumberThrough20);
    UnionKeeps(keys, Hall2NumberThrough19, Hall2NumberPart20);
    SameOnTrans(keys, Hall2Number, Hall2NumberThrough20, Hall2NumberThrough19);
    UnionKeeps(keys, Hall2NumberThrough18, Hall2NumberPart19);
    SameOnTrans(keys, Hall2Number, Hall2NumberThrough19, Hall2NumberThrough18);
    UnionKeeps(keys, Hall2NumberThrough17, Hall2NumberPart18);
    SameOnTrans(keys, Hall2Number, Hall2NumberThrough18, Hall2NumberThrough17);
    UnionKeeps(keys, Hall2NumberThrough16, Hall2NumberPart17);
    SameOnTrans(keys, Hall2Number, Hall2NumberThrough17, Hall2NumberThrough16);
  }

  /** Symbols that no part after part 17 has are looked up in the dict that parts 00-17 build. */
  lemma {:induction false} Hall2NumberDecidedBy17(keys: set<string>)
    requires Avoids(keys, Hall2NumberPart18)
    requires Avoids(keys, Hall2NumberPart19)
    requires Avoids(keys, Hall2NumberPart20)
    requires Avoids(keys, Hall2NumberPart21)
    requires Avoids(keys, Hall2NumberPart22)
    requires Avoids(keys, Hall2NumberPart23)
    ensures SameOn(keys, Hall2Number, Hall2NumberThrough17)
  {
    UnionKeeps(keys, Hall2NumberThrough22, Hall2NumberPart23);
    UnionKeeps(keys, Hall2NumberThrough21, Hall2NumberPart22);
    SameOnTrans(keys, Hall2Number, Hall2NumberThrough22, Hall2NumberThrough21);
    UnionKeeps(keys, Hall2NumberThrough20, Hall2NumberPart21);
    SameOnTrans(keys, Hall2Number, Hall2NumberThrough21, Hall2NumberThrough20);
    UnionKeeps(keys, Hall2NumberThrough19, Hall2NumberPart20);
    SameOnTrans(keys, Hall2Number, Hall2NumberThrough20, Hall2NumberThrough19);
    UnionKeeps(keys, Hall2NumberThrough18, Hall2NumberPart19);
    SameOnTrans(keys, Hall2Number, Hall2NumberThrough19, Hall2NumberThrough18);
    UnionKeeps(keys, Hall2NumberThrough17, Hall2NumberPart18);
    SameOnTrans(keys, Hall2Number, Hall2NumberThrough18, Hall2NumberThrough17);
  }

  /** Symbols that no part after part 18 has are looked up in the dict that parts 00-18 build. */
  lemma {:induction false} Hall2NumberDecidedBy18(keys: set<string>)
    requires Avoids(keys, Hall2NumberPart19)
    requires Avoids(keys, Hall2NumberPart20)
    requires Avoids(keys, Hall2NumberPart21)
    requires Avoids(keys, Hall2NumberPart22)
    requires Avoids(keys, Hall2NumberPart23)
    ensures SameOn(keys, Hall2Number, Hall2NumberThrough18)
  {
    UnionKeeps(keys, Hall2NumberThrough22, Hall2NumberPart23);
    UnionKeeps(keys, Hall2NumberThrough21, Hall2NumberPart22);
    SameOnTrans(keys, Hall2Number, Hall2NumberThrough22, Hall2NumberThrough21);
    UnionKeeps(keys, Hall2NumberThrough20, Hall2NumberPart21);
    SameOnTrans(keys, Hall2Number, Hall2NumberThrough21, Hall2NumberThrough20);
    UnionKeeps(keys, Hall2NumberThrough19, Hall2NumberPart20);
    SameOnTrans(keys, Hall2Number, Hall2NumberThrough20, Hall2NumberThrough19);
    UnionKeeps(keys, Hall2NumberThrough18, Hall2NumberPart19);
    SameOnTrans(keys, Hall2Number, Hall2NumberThrough19, Hall2NumberThrough18);
  }

  /** Symbols that no part after part 19 has are looked up in the dict that parts 00-19 build. */
  lemma {:induction false} Hall2NumberDecidedBy19(keys: set<string>)
    requires Avoids(keys, Hall2NumberPart20)
    requires Avoids(keys, Hall2NumberPart21)
    requires Avoids(keys, Hall2NumberPart22)
    requires Avoids(keys, Hall2NumberPart23)
    ensures SameOn(keys, Hall2Number, Hall2NumberThrough19)
  {
    UnionKeeps(keys, Hall2NumberThrough22, Hall2NumberPart23);
    UnionKeeps(keys, Hall2NumberThrough21, Hall2NumberPart22);
    SameOnTrans(keys, Hall2Number, Hall2NumberThrough22, Hall2NumberThrough21);
    UnionKeeps(keys, Hall2NumberThrough20, Hall2NumberPart21);
    SameOnTrans(keys, Hall2Number, Hall2NumberThrough21, Hall2NumberThrough20);
    UnionKeeps(keys, Hall2NumberThrough19, Hall2NumberPart20);
    SameOnTrans(keys, Hall2Number, Hall2NumberThrough20, Hall2NumberThrough19);
  }

  /** Symbols that no part after part 20 has are looked up in the dict that parts 00-20 build. */
  lemma {:induction false} Hall2NumberDecidedBy20(keys: set<string>)
    requires Avoids(keys, Hall2NumberPart21)
    requires Avoids(keys, Hall2NumberPart22)
    requires Avoids(keys, Hall2NumberPart23)
    ensures SameOn(keys, Hall2Number, Hall2NumberThrough20)
  {
    UnionKeeps(keys, Hall2NumberThrough22, Hall2NumberPart23);
    UnionKeeps(keys, Hall2NumberThrough21, Hall2NumberPart22);
    SameOnTrans(keys, Hall2Number, Hall2NumberThrough22, Hall2NumberThrough21);
    UnionKeeps(keys, Hall2NumberThrough20, Hall2NumberPart21);
    SameOnTrans(keys, Hall2Number, Hall2NumberThrough21, Hall2NumberThrough20);
  }

  /** Symbols that no part after part 21 has are looked up in the dict that parts 00-21 build. */
  lemma {:induction false} Hall2NumberDecidedBy21(keys: set<string>)
    requires Avoids(keys, Hall2NumberPart22)
    requires Avoids(keys, Hall2NumberPart23)
    ensures SameOn(keys, Hall2Number, Hall2NumberThrough21)
  {
    UnionKeeps(keys, Hall2NumberThrough22, Hall2NumberPart23);
    UnionKeeps(keys, Hall2NumberThrough21, Hall2NumberPart22);
    SameOnTrans(keys, Hall2Number, Hall2NumberThrough22, Hall2NumberThrough21);
  }

  /** Symbols that no part after part 22 has are looked up in the dict that parts 00-22 build. */
  lemma {:induction false} Hall2NumberDecidedBy22(keys: set<string>)
    requires Avoids(keys, Hall2NumberPart23)
    ensures SameOn(keys, Hall2Number, Hall2NumberThrough22)
  {
    UnionKeeps(keys, Hall2NumberThrough22, Hall2NumberPart23);
  }

  /** Symbols that no part has are not keys of the dict. */
  lemma {:induction false} Hall2NumberAvoidedBy(keys: set<string>)
    requires Avoids(keys, Hall2NumberPart00)
    requires Avoids(keys, Hall2NumberPart01)
    requires Avoids(keys, Hall2NumberPart02)
    requires Avoids(keys, Hall2NumberPart03)
    requires Avoids(keys, Hall2NumberPart04)
    requires Avoids(keys, Hall2NumberPart05)
    requires Avoids(keys, Hall2NumberPart06)
    requires Avoids(keys, Hall2NumberPart07)
    requires Avoids(keys, Hall2NumberPart08)
    requires Avoids(keys, Hall2NumberPart09)
    requires Avoids(keys, Hall2NumberPart10)
    requires Avoids(keys, Hall2NumberPart11)
    requires Avoids(keys, Hall2NumberPart12)
    requires Avoids(keys, Hall2NumberPart13)
    requires Avoids(keys, Hall2NumberPart14)
    requires Avoids(keys, Hall2NumberPart15)
    requires Avoids(keys, Hall2NumberPart16)
    requires Avoids(keys, Hall2NumberPart17)
    requires Avoids(keys, Hall2NumberPart18)
    requires Avoids(keys, Hall2NumberPart19)
    requires Avoids(keys, Hall2NumberPart20)
    requires Avoids(keys, Hall2NumberPart21)
    requires Avoids(keys, Hall2NumberPart22)
    requires Avoids(keys, Hall2NumberPart23)
    ensures Avoids(keys, Hall2Number)
  {
    AvoidsUnion(keys, Hall2NumberThrough00, Hall2NumberPart01);
    AvoidsUnion(keys, Hall2NumberThrough01, Hall2NumberPart02);
    AvoidsUnion(keys, Hall2NumberThrough02, Hall2NumberPart03);
    AvoidsUnion(keys, Hall2NumberThrough03, Hall2NumberPart04);
    AvoidsUnion(keys, Hall2NumberThrough04, Hall2NumberPart05);
    AvoidsUnion(keys, Hall2NumberThrough05, Hall2NumberPart06);
    AvoidsUnion(keys, Hall2NumberThrough06, Hall2NumberPart07);
    AvoidsUnion(keys, Hall2NumberThrough07, Hall2NumberPart08);
    AvoidsUnion(keys, Hall2NumberThrough08, Hall2NumberPart09);
    AvoidsUnion(keys, Hall2NumberThrough09, Hall2NumberPart10);
    AvoidsUnion(keys, Hall2NumberThrough10, Hall2NumberPart11);
    AvoidsUnion(keys, Hall2NumberThrough11, Hall2NumberPart12);
    AvoidsUnion(keys, Hall2NumberThrough12, Hall2NumberPart13);
    AvoidsUnion(keys, Hall2NumberThrough13, Hall2NumberPart14);
    AvoidsUnion(keys, Hall2NumberThrough14, Hall2NumberPart15);
    AvoidsUnion(keys, Hall2NumberThrough15, Hall2NumberPart16);
    AvoidsUnion(keys, Hall2NumberThrough16, Hall2NumberPart17);
    AvoidsUnion(keys, Hall2NumberThrough17, Hall2NumberPart18);
    AvoidsUnion(keys, Hall2NumberThrough18, Hall2NumberPart19);
    AvoidsUnion(keys, Hall2NumberThrough19, Hall2NumberPart20);
    AvoidsUnion(keys, Hall2NumberThrough20, Hall2NumberPart21);
    AvoidsUnion(keys, Hall2NumberThrough21, Hall2NumberPart22);
    AvoidsUnion(keys, Hall2NumberThrough22, Hall2NumberPart23);
  }

  /** Every value of the dict is a group number 1-230, except the 0 of `"Unknown"`: the property the range holds part by part, kept by each union. */
  lemma {:induction false} Hall2NumberInRange()
    ensures forall h | h in Hall2Number :: NumberInRange(h, Hall2Number[h])
  {
    Hall2NumberPart00InRange();
    Hall2NumberPart01InRange();
    Hall2NumberPart02InRange();
    Hall2NumberPart03InRange();
    Hall2NumberPart04InRange();
    Hall2NumberPart05InRange();
    Hall2NumberPart06InRange();
    Hall2NumberPart07InRange();
    Hall2NumberPart08InRange();
    Hall2NumberPart09InRange();
    Hall2NumberPart10InRange();
    Hall2NumberPart11InRange();
    Hall2NumberPart12InRange();
    Hall2NumberPart13InRange();
    Hall2NumberPart14InRange();
    Hall2NumberPart15InRange();
    Hall2NumberPart16InRange();
    Hall2NumberPart17InRange();
    Hall2NumberPart18InRange();
    Hall2NumberPart19InRange();
    Hall2NumberPart20InRange();
    Hall2NumberPart21InRange();
    Hall2NumberPart22InRange();
    Hall2NumberPart23InRange();
    InRangeUnion(Hall2NumberThrough00, Hall2NumberPart01);
    InRangeUnion(Hall2NumberThrough01, Hall2NumberPart02);
    InRangeUnion(Hall2NumberThrough02, Hall2NumberPart03);
    InRangeUnion(Hall2NumberThrough03, Hall2NumberPart04);
    InRangeUnion(Hall2NumberThrough04, Hall2NumberPart05);
    InRangeUnion(Hall2NumberThrough05, Hall2NumberPart06);
    InRangeUnion(Hall2NumberThrough06, Hall2NumberPart07);
    InRangeUnion(Hall2NumberThrough07, Hall2NumberPart08);
    InRangeUnion(Hall2NumberThrough08, Hall2NumberPart09);
    InRangeUnion(Hall2NumberThrough09, Hall2NumberPart10);
    InRangeUnion(Hall2NumberThrough10, Hall2NumberPart11);
    InRangeUnion(Hall2NumberThrough11, Hall2NumberPart12);
    InRangeUnion(Hall2NumberThrough12, Hall2NumberPart13);
    InRangeUnion(Hall2NumberThrough13, Hall2NumberPart14);
    InRangeUnion(Hall2NumberThrough14, Hall2NumberPart15);
    InRangeUnion(Hall2NumberThrough15, Hall2NumberPart16);
    InRangeUnion(Hall2NumberThrough16, Hall2NumberPart17);
    InRangeUnion(Hall2NumberThrough17, Hall2NumberPart18);
    InRangeUnion(Hall2NumberThrough18, Hall2NumberPart19);
    InRangeUnion(Hall2NumberThrough19, Hall2NumberPart20);
    InRangeUnion(Hall2NumberThrough20, Hall2NumberPart21);
    InRangeUnion(Hall2NumberThrough21, Hall2NumberPart22);
    InRangeUnion(Hall2NumberThrough22, Hall2NumberPart23);
  }
}
