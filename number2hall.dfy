/**
 * The dict `Number2Hall` of abacuskit/utils/constants.py (lines 2170-2311):
 * the space groups with a single standard setting (line 2169), each with the
 * Hall symbol of that setting; groups with several settings are not keys.
 * Transcribed in full, in source order, as consecutive parts.
 */
module Number2HallTable {
  import opened Wrappers
  import opened DictLiteral

  /** Lines 2171-2172: groups 1-2. */
  const Number2HallPart00: map<int, string> := map[
    1 := "P 1",
    2 := "-P 1"
  ]

  /** Lines 2173-2174: groups 16-19. */
  const Number2HallPart01: map<int, string> := map[
    16 := "P 2 2",
    19 := "P 2ac 2ab"
  ]

  /** Lines 2175-2177: groups 22-24. */
  const Number2HallPart02: map<int, string> := map[
    22 := "F 2 2",
    23 := "I 2 2",
    24 := "I 2b 2c"
  ]

  /** Lines 2178-2178: group 47. */
  const Number2HallPart03: map<int, string> := map[
    47 := "-P 2 2"
  ]

  /** Lines 2179-2180: groups 69-71. */
  const Number2HallPart04: map<int, string> := map[
    69 := "-F 2 2",
    71 := "-I 2 2"
  ]

  /** Lines 2181-2188: groups 75-82. */
  const Number2HallPart05: map<int, string> := map[
    75 := "P 4",
    76 := "P 4w",
    77 := "P 4c",
    78 := "P 4cw",
    79 := "I 4",
    80 := "I 4bw",
    81 := "P -4",
    82 := "I -4"
  ]

  /** Lines 2189-2195: groups 83-92. */
  const Number2HallPart06: map<int, string> := map[
    83 := "-P 4",
    84 := "-P 4c",
    87 := "-I 4",
    89 := "P 4 2",
    90 := "P 4ab 2ab",
    91 := "P 4w 2c",
    92 := "P 4abw 2nw"
  ]

  /** Lines 2196-2205: groups 93-102. */
  const Number2HallPart07: map<int, string> := map[
    93 := "P 4c 2",
    94 := "P 4n 2n",
    95 := "P 4cw 2c",
    96 := "P 4nw 2abw",
    97 := "I 4 2",
    98 := "I 4bw 2bw",
    99 := "P 4 -2",
    100 := "P 4 -2ab",
    101 := "P 4c -2c",
    102 := "P 4n -2n"
  ]

  /** Lines 2206-2215: groups 103-112. */
  const Number2HallPart08: map<int, string> := map[
    103 := "P 4 -2c",
    104 := "P 4 -2n",
    105 := "P 4c -2",
    106 := "P 4c -2ab",
    107 := "I 4 -2",
    108 := "I 4 -2c",
    109 := "I 4bw -2",
    110 := "I 4bw -2c",
    111 := "P -4 2",
    112 := "P -4 2c"
  ]

  /** Lines 2216-2222: groups 113-119. */
  const Number2HallPart09: map<int, string> := map[
    113 := "P -4 2ab",
    114 := "P -4 2n",
    115 := "P -4 -2",
    116 := "P -4 -2c",
    117 := "P -4 -2ab",
    118 := "P -4 -2n",
    119 := "I -4 -2"
  ]

  /** Lines 2223-2228: groups 120-127. */
  const Number2HallPart10: map<int, string> := map[
    120 := "I -4 -2c",
    121 := "I -4 2",
    122 := "I -4 2bw",
    123 := "-P 4 2",
    124 := "-P 4 2c",
    127 := "-P 4 2ab"
  ]

  /** Lines 2229-2233: groups 128-136. */
  const Number2HallPart11: map<int, string> := map[
    128 := "-P 4 2n",
    131 := "-P 4c 2",
    132 := "-P 4c 2c",
    135 := "-P 4c 2ab",
    136 := "-P 4n 2n"
  ]

  /** Lines 2234-2241: groups 139-150. */
  const Number2HallPart12: map<int, string> := map[
    139 := "-I 4 2",
    140 := "-I 4 2c",
    143 := "P 3",
    144 := "P 31",
    145 := "P 32",
    147 := "-P 3",
    149 := "P 3 2",
    150 := "P 3 2\""
  ]

  /** Lines 2242-2249: groups 151-159. */
  const Number2HallPart13: map<int, string> := map[
    151 := "P 31 2c (0 0 1)",
    152 := "P 31 2\"",
    153 := "P 32 2c (0 0 -1)",
    154 := "P 32 2\"",
    156 := "P 3 -2\"",
    157 := "P 3 -2",
    158 := "P 3 -2\"c",
    159 := "P 3 -2c"
  ]

  /** Lines 2250-2259: groups 162-173. */
  const Number2HallPart14: map<int, string> := map[
    162 := "-P 3 2",
    163 := "-P 3 2c",
    164 := "-P 3 2\"",
    165 := "-P 3 2\"c",
    168 := "P 6",
    169 := "P 61",
    170 := "P 65",
    171 := "P 62",
    172 := "P 64",
    173 := "P 6c"
  ]

  /** Lines 2260-2268: groups 174-182. */
  const Number2HallPart15: map<int, string> := map[
    174 := "P -6",
    175 := "-P 6",
    176 := "-P 6c",
    177 := "P 6 2",
    178 := "P 61 2 (0 0 -1)",
    179 := "P 65 2 (0 0 1)",
    180 := "P 62 2c (0 0 1)",
    181 := "P 64 2c (0 0 -1)",
    182 := "P 6c 2c"
  ]

  /** Lines 2269-2278: groups 183-192. */
  const Number2HallPart16: map<int, string> := map[
    183 := "P 6 -2",
    184 := "P 6 -2c",
    185 := "P 6c -2",
    186 := "P 6c -2c",
    187 := "P -6 2",
    188 := "P -6c 2",
    189 := "P -6 -2",
    190 := "P -6c -2c",
    191 := "-P 6 2",
    192 := "-P 6 2c"
  ]

  /** Lines 2279-2288: groups 193-204. */
  const Number2HallPart17: map<int, string> := map[
    193 := "-P 6c 2",
    194 := "-P 6c 2c",
    195 := "P 2 2 3",
    196 := "F 2 2 3",
    197 := "I 2 2 3",
    198 := "P 2ac 2ab 3",
    199 := "I 2b 2c 3",
    200 := "-P 2 2 3",
    202 := "-F 2 2 3",
    204 := "-I 2 2 3"
  ]

  /** Lines 2289-2291: groups 205-207. */
  const Number2HallPart18: map<int, string> := map[
    205 := "-P 2ac 2ab 3",
    206 := "-I 2b 2c 3",
    207 := "P 4 2 3"
  ]

  /** Lines 2292-2295: groups 208-211. */
  const Number2HallPart19: map<int, string> := map[
    208 := "P 4n 2 3",
    209 := "F 4 2 3",
    210 := "F 4d 2 3",
    211 := "I 4 2 3"
  ]

  /** Lines 2296-2296: group 212. */
  const Number2HallPart20: map<int, string> := map[
    212 := "P 4acd 2a 3"
  ]

  /** Lines 2297-2303: groups 213-219. */
  const Number2HallPart21: map<int, string> := map[
    213 := "P 4bd 2ab 3",
    214 := "I 4bd 2c 3",
    215 := "P -4 2 3",
    216 := "F -4 2 3",
    217 := "I -4 2 3",
    218 := "P -4n 2 3",
    219 := "F -4c 2 3"
  ]

  /** Lines 2304-2310: groups 220-230. */
  const Number2HallPart22: map<int, string> := map[
    220 := "I -4bd 2c 3",
    221 := "-P 4 2 3",
    223 := "-P 4n 2 3",
    225 := "-F 4 2 3",
    226 := "-F 4c 2 3",
    229 := "-I 4 2 3",
    230 := "-I 4bd 2c 3"
  ]

  /** `Number2Hall` as Python builds it: the parts in source order, each later entry replacing an earlier one with the same key. */
  const Number2Hall: map<int, string> := Number2HallThrough22

  /** The dict that the first parts of the literal build: after part 00, after parts 00-01, and so on. */
  const Number2HallThrough00: map<int, string> := Number2HallPart00
  const Number2HallThrough01: map<int, string> := Number2HallThrough00 + Number2HallPart01
  const Number2HallThrough02: map<int, string> := Number2HallThrough01 + Number2HallPart02
  const Number2HallThrough03: map<int, string> := Number2HallThrough02 + Number2HallPart03
  const Number2HallThrough04: map<int, string> := Number2HallThrough03 + Number2HallPart04
  const Number2HallThrough05: map<int, string> := Number2HallThrough04 + Number2HallPart05
  const Number2HallThrough06: map<int, string> := Number2HallThrough05 + Number2HallPart06
  const Number2HallThrough07: map<int, string> := Number2HallThrough06 + Number2HallPart07
  const Number2HallThrough08: map<int, string> := Number2HallThrough07 + Number2HallPart08
  const Number2HallThrough09: map<int, string> := Number2HallThrough08 + Number2HallPart09
  const Number2HallThrough10: map<int, string> := Number2HallThrough09 + Number2HallPart10
  const Number2HallThrough11: map<int, string> := Number2HallThrough10 + Number2HallPart11
  const Number2HallThrough12: map<int, string> := Number2HallThrough11 + Number2HallPart12
  const Number2HallThrough13: map<int, string> := Number2HallThrough12 + Number2HallPart13
  const Number2HallThrough14: map<int, string> := Number2HallThrough13 + Number2HallPart14
  const Number2HallThrough15: map<int, string> := Number2HallThrough14 + Number2HallPart15
  const Number2HallThrough16: map<int, string> := Number2HallThrough15 + Number2HallPart16
  const Number2HallThrough17: map<int, string> := Number2HallThrough16 + Number2HallPart17
  const Number2HallThrough18: map<int, string> := Number2HallThrough17 + Number2HallPart18
  const Number2HallThrough19: map<int, string> := Number2HallThrough18 + Number2HallPart19
  const Number2HallThrough20: map<int, string> := Number2HallThrough19 + Number2HallPart20
  const Number2HallThrough21: map<int, string> := Number2HallThrough20 + Number2HallPart21
  const Number2HallThrough22: map<int, string> := Number2HallThrough21 + Number2HallPart22

  /** Every key of `d` is a space-group number. */
  predicate NumbersInRange(d: map<int, string>) {
    forall n | n in d :: 1 <= n <= 230
  }

  lemma NumbersInRangeUnion(a: map<int, string>, b: map<int, string>)
    requires NumbersInRange(a) && NumbersInRange(b)
    ensures NumbersInRange(a + b)
  {
  }


  // The predicates of DictLiteral are over string keys; these are their
  // counterparts for the int keys of this dict.

  /** No number of `numbers` is a key of `part`. */
  predicate AvoidsNumbers(numbers: set<int>, part: map<int, string>) {
    forall n | n in part :: n !in numbers
  }

  /** `a` and `b` give the same answer to a lookup of any number of `numbers`. */
  ghost predicate SameOnNumbers(numbers: set<int>, a: map<int, string>, b: map<int, string>) {
    forall n | n in numbers :: Get(a, n) == Get(b, n)
  }

  /** A part that has none of the numbers leaves their lookups as they were. */
  lemma KeepsNumbers(numbers: set<int>, before: map<int, string>, part: map<int, string>)
    requires AvoidsNumbers(numbers, part)
    ensures SameOnNumbers(numbers, before + part, before)
  {
  }

  /** A part decides the lookups of its own keys. */
  lemma DecidesNumbers(before: map<int, string>, part: map<int, string>)
    ensures SameOnNumbers(part.Keys, before + part, part)
  {
  }

  lemma SameOnNumbersTrans(numbers: set<int>, a: map<int, string>, b: map<int, string>, c: map<int, string>)
    requires SameOnNumbers(numbers, a, b) && SameOnNumbers(numbers, b, c)
    ensures SameOnNumbers(numbers, a, c)
  {
  }


  /** Group 212 is not listed again after line 2296. */
  lemma Number2HallPart21Without212()
    ensures AvoidsNumbers(Number2HallPart20.Keys, Number2HallPart21)
  {
  }

  lemma Number2HallPart22Without212()
    ensures AvoidsNumbers(Number2HallPart20.Keys, Number2HallPart22)
  {
  }

  /** The dict looks group 212 up in the part that holds line 2296. */
  lemma {:induction false} Number2HallAt212()
    ensures SameOnNumbers(Number2HallPart20.Keys, Number2Hall, Number2HallPart20)
  {
    Number2HallPart21Without212();
    Number2HallPart22Without212();
    KeepsNumbers(Number2HallPart20.Keys, Number2HallThrough21, Number2HallPart22);
    KeepsNumbers(Number2HallPart20.Keys, Number2HallThrough20, Number2HallPart21);
    SameOnNumbersTrans(Number2HallPart20.Keys, Number2Hall, Number2HallThrough21, Number2HallThrough20);
    DecidesNumbers(Number2HallThrough19, Number2HallPart20);
    SameOnNumbersTrans(Number2HallPart20.Keys, Number2Hall, Number2HallThrough20, Number2HallPart20);
  }

  /** The keys of part 00 are group numbers. */
  lemma Number2HallPart00InRange()
    ensures NumbersInRange(Number2HallPart00)
  {
  }

  lemma Number2HallPart01InRange()
    ensures NumbersInRange(Number2HallPart01)
  {
  }

  lemma Number2HallPart02InRange()
    ensures NumbersInRange(Number2HallPart02)
  {
  }

  lemma Number2HallPart03InRange()
    ensures NumbersInRange(Number2HallPart03)
  {
  }

  lemma Number2HallPart04InRange()
    ensures NumbersInRange(Number2HallPart04)
  {
  }

  lemma Number2HallPart05InRange()
    ensures NumbersInRange(Number2HallPart05)
  {
  }

  lemma Number2HallPart06InRange()
    ensures NumbersInRange(Number2HallPart06)
  {
  }

  lemma Number2HallPart07InRange()
    ensures NumbersInRange(Number2HallPart07)
  {
  }

  lemma Number2HallPart08InRange()
    ensures NumbersInRange(Number2HallPart08)
  {
  }

  lemma Number2HallPart09InRange()
    ensures NumbersInRange(Number2HallPart09)
  {
  }

  lemma Number2HallPart10InRange()
    ensures NumbersInRange(Number2HallPart10)
  {
  }

  lemma Number2HallPart11InRange()
    ensures NumbersInRange(Number2HallPart11)
  {
  }

  lemma Number2HallPart12InRange()
    ensures NumbersInRange(Number2HallPart12)
  {
  }

  lemma Number2HallPart13InRange()
    ensures NumbersInRange(Number2HallPart13)
  {
  }

  lemma Number2HallPart14InRange()
    ensures NumbersInRange(Number2HallPart14)
  {
  }

  lemma Number2HallPart15InRange()
    ensures NumbersInRange(Number2HallPart15)
  {
  }

  lemma Number2HallPart16InRange()
    ensures NumbersInRange(Number2HallPart16)
  {
  }

  lemma Number2HallPart17InRange()
    ensures NumbersInRange(Number2HallPart17)
  {
  }

  lemma Number2HallPart18InRange()
    ensures NumbersInRange(Number2HallPart18)
  {
  }

  lemma Number2HallPart19InRange()
    ensures NumbersInRange(Number2HallPart19)
  {
  }

  lemma Number2HallPart20InRange()
    ensures NumbersInRange(Number2HallPart20)
  {
  }

  lemma Number2HallPart21InRange()
    ensures NumbersInRange(Number2HallPart21)
  {
  }

  lemma Number2HallPart22InRange()
    ensures NumbersInRange(Number2HallPart22)
  {
  }

  /** Every key of the dict is a space-group number. */
  lemma {:induction false} Number2HallKeys()
    ensures forall n | n in Number2Hall :: 1 <= n <= 230
  {
    Number2HallPart00InRange();
    Number2HallPart01InRange();
    Number2HallPart02InRange();
    Number2HallPart03InRange();
    Number2HallPart04InRange();
    Number2HallPart05InRange();
    Number2HallPart06InRange();
    Number2HallPart07InRange();
    Number2HallPart08InRange();
    Number2HallPart09InRange();
    Number2HallPart10InRange();
    Number2HallPart11InRange();
    Number2HallPart12InRange();
    Number2HallPart13InRange();
    Number2HallPart14InRange();
    Number2HallPart15InRange();
    Number2HallPart16InRange();
    Number2HallPart17InRange();
    Number2HallPart18InRange();
    Number2HallPart19InRange();
    Number2HallPart20InRange();
    Number2HallPart21InRange();
    Number2HallPart22InRange();
    NumbersInRangeUnion(Number2HallThrough00, Number2HallPart01);
    NumbersInRangeUnion(Number2HallThrough01, Number2HallPart02);
    NumbersInRangeUnion(Number2HallThrough02, Number2HallPart03);
    NumbersInRangeUnion(Number2HallThrough03, Number2HallPart04);
    NumbersInRangeUnion(Number2HallThrough04, Number2HallPart05);
    NumbersInRangeUnion(Number2HallThrough05, Number2HallPart06);
    NumbersInRangeUnion(Number2HallThrough06, Number2HallPart07);
    NumbersInRangeUnion(Number2HallThrough07, Number2HallPart08);
    NumbersInRangeUnion(Number2HallThrough08, Number2HallPart09);
    NumbersInRangeUnion(Number2HallThrough09, Number2HallPart10);
    NumbersInRangeUnion(Number2HallThrough10, Number2HallPart11);
    NumbersInRangeUnion(Number2HallThrough11, Number2HallPart12);
    NumbersInRangeUnion(Number2HallThrough12, Number2HallPart13);
    NumbersInRangeUnion(Number2HallThrough13, Number2HallPart14);
    NumbersInRangeUnion(Number2HallThrough14, Number2HallPart15);
    NumbersInRangeUnion(Number2HallThrough15, Number2HallPart16);
    NumbersInRangeUnion(Number2HallThrough16, Number2HallPart17);
    NumbersInRangeUnion(Number2HallThrough17, Number2HallPart18);
    NumbersInRangeUnion(Number2HallThrough18, Number2HallPart19);
    NumbersInRangeUnion(Number2HallThrough19, Number2HallPart20);
    NumbersInRangeUnion(Number2HallThrough20, Number2HallPart21);
    NumbersInRangeUnion(Number2HallThrough21, Number2HallPart22);
  }
}
