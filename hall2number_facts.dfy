/**
 * How the dicts `Number2Hall` and `Hall2Number` of abacuskit/utils/constants.py
 * fit together: looking up the Hall symbol that `Number2Hall` gives for a
 * group number in `Hall2Number` gives that number back, for every key except
 * 212, whose symbol (line 2296) is not a key of `Hall2Number`.
 *
 * Each part of `Number2Hall` is checked against the part of `Hall2Number` that
 * holds its symbols (its home) and shown absent from every later part, so that
 * the home decides the lookup in the whole dict.
 */
module Hall2NumberFacts {
  import opened Wrappers
  import opened DictLiteral
  import opened Hall2NumberTable
  import opened Number2HallTable

  /** Every number of `src` comes back from `table` under its symbol. */
  ghost predicate Inverts(src: map<int, string>, table: map<string, int>) {
    forall n | n in src :: Get(table, src[n]) == Some(n)
  }

  /** The same, for every number of `src` other than `skip`. */
  ghost predicate InvertsExcept(src: map<int, string>, table: map<string, int>, skip: int) {
    forall n | n in src && n != skip :: Get(table, src[n]) == Some(n)
  }

  /** A round trip through a part of `table` carries over to any dict that agrees with that part on the symbols. */
  lemma InvertsTransfer(src: map<int, string>, whole: map<string, int>, part: map<string, int>)
    requires SameOn(src.Values, whole, part)
    requires Inverts(src, part)
    ensures Inverts(src, whole)
  {
    forall n | n in src
      ensures Get(whole, src[n]) == Some(n)
    {
      assert src[n] in src.Values;
    }
  }

  /** A part that gives the numbers back still does so after it is added to what came before it. */
  lemma InvertsUnionRight(src: map<int, string>, before: map<string, int>, part: map<string, int>)
    requires Inverts(src, part)
    ensures Inverts(src, before + part)
  {
    forall n | n in src
      ensures Get(before + part, src[n]) == Some(n)
    {
      assert Get(part, src[n]) == Some(n);
    }
  }

  lemma InvertsExceptUnion(a: map<int, string>, b: map<int, string>, table: map<string, int>, skip: int)
    requires InvertsExcept(a, table, skip) && InvertsExcept(b, table, skip)
    ensures InvertsExcept(a + b, table, skip)
  {
  }

  /** A dict whose only key is the skipped number has nothing to give back. */
  lemma InvertsExceptOnlySkip(src: map<int, string>, table: map<string, int>, skip: int)
    requires forall n | n in src :: n == skip
    ensures InvertsExcept(src, table, skip)
  {
  }

  /** Replacing the value of the skipped number by one that round-trips completes the round trip. */
  lemma InvertsPatched(src: map<int, string>, patch: map<int, string>, table: map<string, int>, skip: int)
    requires InvertsExcept(src, table, skip)
    requires Inverts(patch, table)
    requires skip in patch
    ensures Inverts(src + patch, table)
  {
  }

  lemma InvertsWeaken(src: map<int, string>, table: map<string, int>, skip: int)
    requires Inverts(src, table)
    ensures InvertsExcept(src, table, skip)
  {
  }

  /** Part 00 of `Hall2Number` gives back the numbers of part 00 of `Number2Hall`. */
  lemma Number2HallPart00Home()
    ensures Inverts(Number2HallPart00, Hall2NumberPart00)
  {
  }

  /** No symbol of part 00 of `Number2Hall` is a key of part 01 of `Hall2Number`. */
  lemma Number2HallPart00NotIn01()
    ensures Avoids(Number2HallPart00.Values, Hall2NumberPart01)
  {
  }

  lemma Number2HallPart00NotIn02()
    ensures Avoids(Number2HallPart00.Values, Hall2NumberPart02)
  {
  }

  lemma Number2HallPart00NotIn03()
    ensures Avoids(Number2HallPart00.Values, Hall2NumberPart03)
  {
  }

  lemma Number2HallPart00NotIn04()
    ensures Avoids(Number2HallPart00.Values, Hall2NumberPart04)
  {
  }

  lemma Number2HallPart00NotIn05()
    ensures Avoids(Number2HallPart00.Values, Hall2NumberPart05)
  {
  }

  lemma Number2HallPart00NotIn06()
    ensures Avoids(Number2HallPart00.Values, Hall2NumberPart06)
  {
  }

  lemma Number2HallPart00NotIn07()
    ensures Avoids(Number2HallPart00.Values, Hall2NumberPart07)
  {
  }

  lemma Number2HallPart00NotIn08()
    ensures Avoids(Number2HallPart00.Values, Hall2NumberPart08)
  {
  }

  lemma Number2HallPart00NotIn09()
    ensures Avoids(Number2HallPart00.Values, Hall2NumberPart09)
  {
  }

  lemma Number2HallPart00NotIn10()
    ensures Avoids(Number2HallPart00.Values, Hall2NumberPart10)
  {
  }

  lemma Number2HallPart00NotIn11()
    ensures Avoids(Number2HallPart00.Values, Hall2NumberPart11)
  {
  }

  lemma Number2HallPart00NotIn12()
    ensures Avoids(Number2HallPart00.Values, Hall2NumberPart12)
  {
  }

  lemma Number2HallPart00NotIn13()
    ensures Avoids(Number2HallPart00.Values, Hall2NumberPart13)
  {
  }

  lemma Number2HallPart00NotIn14()
    ensures Avoids(Number2HallPart00.Values, Hall2NumberPart14)
  {
  }

  lemma Number2HallPart00NotIn15()
    ensures Avoids(Number2HallPart00.Values, Hall2NumberPart15)
  {
  }

  lemma Number2HallPart00NotIn16()
    ensures Avoids(Number2HallPart00.Values, Hall2NumberPart16)
  {
  }

  lemma Number2HallPart00NotIn17()
    ensures Avoids(Number2HallPart00.Values, Hall2NumberPart17)
  {
  }

  lemma Number2HallPart00NotIn18()
    ensures Avoids(Number2HallPart00.Values, Hall2NumberPart18)
  {
  }

  lemma Number2HallPart00NotIn19()
    ensures Avoids(Number2HallPart00.Values, Hall2NumberPart19)
  {
  }

  lemma Number2HallPart00NotIn20()
    ensures Avoids(Number2HallPart00.Values, Hall2NumberPart20)
  {
  }

  lemma Number2HallPart00NotIn21()
    ensures Avoids(Number2HallPart00.Values, Hall2NumberPart21)
  {
  }

  lemma Number2HallPart00NotIn22()
    ensures Avoids(Number2HallPart00.Values, Hall2NumberPart22)
  {
  }

  lemma Number2HallPart00NotIn23()
    ensures Avoids(Number2HallPart00.Values, Hall2NumberPart23)
  {
  }

  /** Every number of part 00 of `Number2Hall` comes back from the whole of `Hall2Number`. */
  lemma {:induction false} Number2HallPart00RoundTrip()
    ensures Inverts(Number2HallPart00, Hall2Number)
  {
    Number2HallPart00NotIn01();
    Number2HallPart00NotIn02();
    Number2HallPart00NotIn03();
    Number2HallPart00NotIn04();
    Number2HallPart00NotIn05();
    Number2HallPart00NotIn06();
    Number2HallPart00NotIn07();
    Number2HallPart00NotIn08();
    Number2HallPart00NotIn09();
    Number2HallPart00NotIn10();
    Number2HallPart00NotIn11();
    Number2HallPart00NotIn12();
    Number2HallPart00NotIn13();
    Number2HallPart00NotIn14();
    Number2HallPart00NotIn15();
    Number2HallPart00NotIn16();
    Number2HallPart00NotIn17();
    Number2HallPart00NotIn18();
    Number2HallPart00NotIn19();
    Number2HallPart00NotIn20();
    Number2HallPart00NotIn21();
    Number2HallPart00NotIn22();
    Number2HallPart00NotIn23();
    Number2HallPart00Home();
    Hall2NumberDecidedBy00(Number2HallPart00.Values);
    InvertsTransfer(Number2HallPart00, Hall2Number, Hall2NumberThrough00);
  }

  lemma Number2HallPart01Home()
    ensures Inverts(Number2HallPart01, Hall2NumberPart05)
  {
  }

  lemma Number2HallPart01NotIn06()
    ensures Avoids(Number2HallPart01.Values, Hall2NumberPart06)
  {
  }

  lemma Number2HallPart01NotIn07()
    ensures Avoids(Number2HallPart01.Values, Hall2NumberPart07)
  {
  }

  lemma Number2HallPart01NotIn08()
    ensures Avoids(Number2HallPart01.Values, Hall2NumberPart08)
  {
  }

  lemma Number2HallPart01NotIn09()
    ensures Avoids(Number2HallPart01.Values, Hall2NumberPart09)
  {
  }

  lemma Number2HallPart01NotIn10()
    ensures Avoids(Number2HallPart01.Values, Hall2NumberPart10)
  {
  }

  lemma Number2HallPart01NotIn11()
    ensures Avoids(Number2HallPart01.Values, Hall2NumberPart11)
  {
  }

  lemma Number2HallPart01NotIn12()
    ensures Avoids(Number2HallPart01.Values, Hall2NumberPart12)
  {
  }

  lemma Number2HallPart01NotIn13()
    ensures Avoids(Number2HallPart01.Values, Hall2NumberPart13)
  {
  }

  lemma Number2HallPart01NotIn14()
    ensures Avoids(Number2HallPart01.Values, Hall2NumberPart14)
  {
  }

  lemma Number2HallPart01NotIn15()
    ensures Avoids(Number2HallPart01.Values, Hall2NumberPart15)
  {
  }

  lemma Number2HallPart01NotIn16()
    ensures Avoids(Number2HallPart01.Values, Hall2NumberPart16)
  {
  }

  lemma Number2HallPart01NotIn17()
    ensures Avoids(Number2HallPart01.Values, Hall2NumberPart17)
  {
  }

  lemma Number2HallPart01NotIn18()
    ensures Avoids(Number2HallPart01.Values, Hall2NumberPart18)
  {
  }

  lemma Number2HallPart01NotIn19()
    ensures Avoids(Number2HallPart01.Values, Hall2NumberPart19)
  {
  }

  lemma Number2HallPart01NotIn20()
    ensures Avoids(Number2HallPart01.Values, Hall2NumberPart20)
  {
  }

  lemma Number2HallPart01NotIn21()
    ensures Avoids(Number2HallPart01.Values, Hall2NumberPart21)
  {
  }

  lemma Number2HallPart01NotIn22()
    ensures Avoids(Number2HallPart01.Values, Hall2NumberPart22)
  {
  }

  lemma Number2HallPart01NotIn23()
    ensures Avoids(Number2HallPart01.Values, Hall2NumberPart23)
  {
  }

  /** Every number of part 01 of `Number2Hall` comes back from the whole of `Hall2Number`. */
  lemma {:induction false} Number2HallPart01RoundTrip()
    ensures Inverts(Number2HallPart01, Hall2Number)
  {
    Number2HallPart01NotIn06();
    Number2HallPart01NotIn07();
    Number2HallPart01NotIn08();
    Number2HallPart01NotIn09();
    Number2HallPart01NotIn10();
    Number2HallPart01NotIn11();
    Number2HallPart01NotIn12();
    Number2HallPart01NotIn13();
    Number2HallPart01NotIn14();
    Number2HallPart01NotIn15();
    Number2HallPart01NotIn16();
    Number2HallPart01NotIn17();
    Number2HallPart01NotIn18();
    Number2HallPart01NotIn19();
    Number2HallPart01NotIn20();
    Number2HallPart01NotIn21();
    Number2HallPart01NotIn22();
    Number2HallPart01NotIn23();
    Number2HallPart01Home();
    InvertsUnionRight(Number2HallPart01, Hall2NumberThrough04, Hall2NumberPart05);
    Hall2NumberDecidedBy05(Number2HallPart01.Values);
    InvertsTransfer(Number2HallPart01, Hall2Number, Hall2NumberThrough05);
  }

  lemma Number2HallPart02Home()
    ensures Inverts(Number2HallPart02, Hall2NumberPart06)
  {
  }

  lemma Number2HallPart02NotIn07()
    ensures Avoids(Number2HallPart02.Values, Hall2NumberPart07)
  {
  }

  lemma Number2HallPart02NotIn08()
    ensures Avoids(Number2HallPart02.Values, Hall2NumberPart08)
  {
  }

  lemma Number2HallPart02NotIn09()
    ensures Avoids(Number2HallPart02.Values, Hall2NumberPart09)
  {
  }

  lemma Number2HallPart02NotIn10()
    ensures Avoids(Number2HallPart02.Values, Hall2NumberPart10)
  {
  }

  lemma Number2HallPart02NotIn11()
    ensures Avoids(Number2HallPart02.Values, Hall2NumberPart11)
  {
  }

  lemma Number2HallPart02NotIn12()
    ensures Avoids(Number2HallPart02.Values, Hall2NumberPart12)
  {
  }

  lemma Number2HallPart02NotIn13()
    ensures Avoids(Number2HallPart02.Values, Hall2NumberPart13)
  {
  }

  lemma Number2HallPart02NotIn14()
    ensures Avoids(Number2HallPart02.Values, Hall2NumberPart14)
  {
  }

  lemma Number2HallPart02NotIn15()
    ensures Avoids(Number2HallPart02.Values, Hall2NumberPart15)
  {
  }

  lemma Number2HallPart02NotIn16()
    ensures Avoids(Number2HallPart02.Values, Hall2NumberPart16)
  {
  }

  lemma Number2HallPart02NotIn17()
    ensures Avoids(Number2HallPart02.Values, Hall2NumberPart17)
  {
  }

  lemma Number2HallPart02NotIn18()
    ensures Avoids(Number2HallPart02.Values, Hall2NumberPart18)
  {
  }

  lemma Number2HallPart02NotIn19()
    ensures Avoids(Number2HallPart02.Values, Hall2NumberPart19)
  {
  }

  lemma Number2HallPart02NotIn20()
    ensures Avoids(Number2HallPart02.Values, Hall2NumberPart20)
  {
  }

  lemma Number2HallPart02NotIn21()
    ensures Avoids(Number2HallPart02.Values, Hall2NumberPart21)
  {
  }

  lemma Number2HallPart02NotIn22()
    ensures Avoids(Number2HallPart02.Values, Hall2NumberPart22)
  {
  }

  lemma Number2HallPart02NotIn23()
    ensures Avoids(Number2HallPart02.Values, Hall2NumberPart23)
  {
  }

  /** Every number of part 02 of `Number2Hall` comes back from the whole of `Hall2Number`. */
  lemma {:induction false} Number2HallPart02RoundTrip()
    ensures Inverts(Number2HallPart02, Hall2Number)
  {
    Number2HallPart02NotIn07();
    Number2HallPart02NotIn08();
    Number2HallPart02NotIn09();
    Number2HallPart02NotIn10();
    Number2HallPart02NotIn11();
    Number2HallPart02NotIn12();
    Number2HallPart02NotIn13();
    Number2HallPart02NotIn14();
    Number2HallPart02NotIn15();
    Number2HallPart02NotIn16();
    Number2HallPart02NotIn17();
    Number2HallPart02NotIn18();
    Number2HallPart02NotIn19();
    Number2HallPart02NotIn20();
    Number2HallPart02NotIn21();
    Number2HallPart02NotIn22();
    Number2HallPart02NotIn23();
    Number2HallPart02Home();
    InvertsUnionRight(Number2HallPart02, Hall2NumberThrough05, Hall2NumberPart06);
    Hall2NumberDecidedBy06(Number2HallPart02.Values);
    InvertsTransfer(Number2HallPart02, Hall2Number, Hall2NumberThrough06);
  }

  lemma Number2HallPart03Home()
    ensures Inverts(Number2HallPart03, Hall2NumberPart10)
  {
  }

  lemma Number2HallPart03NotIn11()
    ensures Avoids(Number2HallPart03.Values, Hall2NumberPart11)
  {
  }

  lemma Number2HallPart03NotIn12()
    ensures Avoids(Number2HallPart03.Values, Hall2NumberPart12)
  {
  }

  lemma Number2HallPart03NotIn13()
    ensures Avoids(Number2HallPart03.Values, Hall2NumberPart13)
  {
  }

  lemma Number2HallPart03NotIn14()
    ensures Avoids(Number2HallPart03.Values, Hall2NumberPart14)
  {
  }

  lemma Number2HallPart03NotIn15()
    ensures Avoids(Number2HallPart03.Values, Hall2NumberPart15)
  {
  }

  lemma Number2HallPart03NotIn16()
    ensures Avoids(Number2HallPart03.Values, Hall2NumberPart16)
  {
  }

  lemma Number2HallPart03NotIn17()
    ensures Avoids(Number2HallPart03.Values, Hall2NumberPart17)
  {
  }

  lemma Number2HallPart03NotIn18()
    ensures Avoids(Number2HallPart03.Values, Hall2NumberPart18)
  {
  }

  lemma Number2HallPart03NotIn19()
    ensures Avoids(Number2HallPart03.Values, Hall2NumberPart19)
  {
  }

  lemma Number2HallPart03NotIn20()
    ensures Avoids(Number2HallPart03.Values, Hall2NumberPart20)
  {
  }

  lemma Number2HallPart03NotIn21()
    ensures Avoids(Number2HallPart03.Values, Hall2NumberPart21)
  {
  }

  lemma Number2HallPart03NotIn22()
    ensures Avoids(Number2HallPart03.Values, Hall2NumberPart22)
  {
  }

  lemma Number2HallPart03NotIn23()
    ensures Avoids(Number2HallPart03.Values, Hall2NumberPart23)
  {
  }

  /** Every number of part 03 of `Number2Hall` comes back from the whole of `Hall2Number`. */
  lemma {:induction false} Number2HallPart03RoundTrip()
    ensures Inverts(Number2HallPart03, Hall2Number)
  {
    Number2HallPart03NotIn11();
    Number2HallPart03NotIn12();
    Number2HallPart03NotIn13();
    Number2HallPart03NotIn14();
    Number2HallPart03NotIn15();
    Number2HallPart03NotIn16();
    Number2HallPart03NotIn17();
    Number2HallPart03NotIn18();
    Number2HallPart03NotIn19();
    Number2HallPart03NotIn20();
    Number2HallPart03NotIn21();
    Number2HallPart03NotIn22();
    Number2HallPart03NotIn23();
    Number2HallPart03Home();
    InvertsUnionRight(Number2HallPart03, Hall2NumberThrough09, Hall2NumberPart10);
    Hall2NumberDecidedBy10(Number2HallPart03.Values);
    InvertsTransfer(Number2HallPart03, Hall2Number, Hall2NumberThrough10);
  }

  lemma Number2HallPart04Home()
    ensures Inverts(Number2HallPart04, Hall2NumberPart15)
  {
  }

  lemma Number2HallPart04NotIn16()
    ensures Avoids(Number2HallPart04.Values, Hall2NumberPart16)
  {
  }

  lemma Number2HallPart04NotIn17()
    ensures Avoids(Number2HallPart04.Values, Hall2NumberPart17)
  {
  }

  lemma Number2HallPart04NotIn18()
    ensures Avoids(Number2HallPart04.Values, Hall2NumberPart18)
  {
  }

  lemma Number2HallPart04NotIn19()
    ensures Avoids(Number2HallPart04.Values, Hall2NumberPart19)
  {
  }

  lemma Number2HallPart04NotIn20()
    ensures Avoids(Number2HallPart04.Values, Hall2NumberPart20)
  {
  }

  lemma Number2HallPart04NotIn21()
    ensures Avoids(Number2HallPart04.Values, Hall2NumberPart21)
  {
  }

  lemma Number2HallPart04NotIn22()
    ensures Avoids(Number2HallPart04.Values, Hall2NumberPart22)
  {
  }

  lemma Number2HallPart04NotIn23()
    ensures Avoids(Number2HallPart04.Values, Hall2NumberPart23)
  {
  }

  /** Every number of part 04 of `Number2Hall` comes back from the whole of `Hall2Number`. */
  lemma {:induction false} Number2HallPart04RoundTrip()
    ensures Inverts(Number2HallPart04, Hall2Number)
  {
    Number2HallPart04NotIn16();
    Number2HallPart04NotIn17();
    Number2HallPart04NotIn18();
    Number2HallPart04NotIn19();
    Number2HallPart04NotIn20();
    Number2HallPart04NotIn21();
    Number2HallPart04NotIn22();
    Number2HallPart04NotIn23();
    Number2HallPart04Home();
    InvertsUnionRight(Number2HallPart04, Hall2NumberThrough14, Hall2NumberPart15);
    Hall2NumberDecidedBy15(Number2HallPart04.Values);
    InvertsTransfer(Number2HallPart04, Hall2Number, Hall2NumberThrough15);
  }

  lemma Number2HallPart05Home()
    ensures Inverts(Number2HallPart05, Hall2NumberPart16)
  {
  }

  lemma Number2HallPart05NotIn17()
    ensures Avoids(Number2HallPart05.Values, Hall2NumberPart17)
  {
  }

  lemma Number2HallPart05NotIn18()
    ensures Avoids(Number2HallPart05.Values, Hall2NumberPart18)
  {
  }

  lemma Number2HallPart05NotIn19()
    ensures Avoids(Number2HallPart05.Values, Hall2NumberPart19)
  {
  }

  lemma Number2HallPart05NotIn20()
    ensures Avoids(Number2HallPart05.Values, Hall2NumberPart20)
  {
  }

  lemma Number2HallPart05NotIn21()
    ensures Avoids(Number2HallPart05.Values, Hall2NumberPart21)
  {
  }

  lemma Number2HallPart05NotIn22()
    ensures Avoids(Number2HallPart05.Values, Hall2NumberPart22)
  {
  }

  lemma Number2HallPart05NotIn23()
    ensures Avoids(Number2HallPart05.Values, Hall2NumberPart23)
  {
  }

  /** Every number of part 05 of `Number2Hall` comes back from the whole of `Hall2Number`. */
  lemma {:induction false} Number2HallPart05RoundTrip()
    ensures Inverts(Number2HallPart05, Hall2Number)
  {
    Number2HallPart05NotIn17();
    Number2HallPart05NotIn18();
    Number2HallPart05NotIn19();
    Number2HallPart05NotIn20();
    Number2HallPart05NotIn21();
    Number2HallPart05NotIn22();
    Number2HallPart05NotIn23();
    Number2HallPart05Home();
    InvertsUnionRight(Number2HallPart05, Hall2NumberThrough15, Hall2NumberPart16);
    Hall2NumberDecidedBy16(Number2HallPart05.Values);
    InvertsTransfer(Number2HallPart05, Hall2Number, Hall2NumberThrough16);
  }

  lemma Number2HallPart06Home()
    ensures Inverts(Number2HallPart06, Hall2NumberPart16)
  {
  }

  lemma Number2HallPart06NotIn17()
    ensures Avoids(Number2HallPart06.Values, Hall2NumberPart17)
  {
  }

  lemma Number2HallPart06NotIn18()
    ensures Avoids(Number2HallPart06.Values, Hall2NumberPart18)
  {
  }

  lemma Number2HallPart06NotIn19()
    ensures Avoids(Number2HallPart06.Values, Hall2NumberPart19)
  {
  }

  lemma Number2HallPart06NotIn20()
    ensures Avoids(Number2HallPart06.Values, Hall2NumberPart20)
  {
  }

  lemma Number2HallPart06NotIn21()
    ensures Avoids(Number2HallPart06.Values, Hall2NumberPart21)
  {
  }

  lemma Number2HallPart06NotIn22()
    ensures Avoids(Number2HallPart06.Values, Hall2NumberPart22)
  {
  }

  lemma Number2HallPart06NotIn23()
    ensures Avoids(Number2HallPart06.Values, Hall2NumberPart23)
  {
  }

  /** Every number of part 06 of `Number2Hall` comes back from the whole of `Hall2Number`. */
  lemma {:induction false} Number2HallPart06RoundTrip()
    ensures Inverts(Number2HallPart06, Hall2Number)
  {
    Number2HallPart06NotIn17();
    Number2HallPart06NotIn18();
    Number2HallPart06NotIn19();
    Number2HallPart06NotIn20();
    Number2HallPart06NotIn21();
    Number2HallPart06NotIn22();
    Number2HallPart06NotIn23();
    Number2HallPart06Home();
    InvertsUnionRight(Number2HallPart06, Hall2NumberThrough15, Hall2NumberPart16);
    Hall2NumberDecidedBy16(Number2HallPart06.Values);
    InvertsTransfer(Number2HallPart06, Hall2Number, Hall2NumberThrough16);
  }

  lemma Number2HallPart07Home()
    ensures Inverts(Number2HallPart07, Hall2NumberPart17)
  {
  }

  lemma Number2HallPart07NotIn18()
    ensures Avoids(Number2HallPart07.Values, Hall2NumberPart18)
  {
  }

  lemma Number2HallPart07NotIn19()
    ensures Avoids(Number2HallPart07.Values, Hall2NumberPart19)
  {
  }

  lemma Number2HallPart07NotIn20()
    ensures Avoids(Number2HallPart07.Values, Hall2NumberPart20)
  {
  }

  lemma Number2HallPart07NotIn21()
    ensures Avoids(Number2HallPart07.Values, Hall2NumberPart21)
  {
  }

  lemma Number2HallPart07NotIn22()
    ensures Avoids(Number2HallPart07.Values, Hall2NumberPart22)
  {
  }

  lemma Number2HallPart07NotIn23()
    ensures Avoids(Number2HallPart07.Values, Hall2NumberPart23)
  {
  }

  /** Every number of part 07 of `Number2Hall` comes back from the whole of `Hall2Number`. */
  lemma {:induction false} Number2HallPart07RoundTrip()
    ensures Inverts(Number2HallPart07, Hall2Number)
  {
    Number2HallPart07NotIn18();
    Number2HallPart07NotIn19();
    Number2HallPart07NotIn20();
    Number2HallPart07NotIn21();
    Number2HallPart07NotIn22();
    Number2HallPart07NotIn23();
    Number2HallPart07Home();
    InvertsUnionRight(Number2HallPart07, Hall2NumberThrough16, Hall2NumberPart17);
    Hall2NumberDecidedBy17(Number2HallPart07.Values);
    InvertsTransfer(Number2HallPart07, Hall2Number, Hall2NumberThrough17);
  }

  lemma Number2HallPart08Home()
    ensures Inverts(Number2HallPart08, Hall2NumberPart17)
  {
  }

  lemma Number2HallPart08NotIn18()
    ensures Avoids(Number2HallPart08.Values, Hall2NumberPart18)
  {
  }

  lemma Number2HallPart08NotIn19()
    ensures Avoids(Number2HallPart08.Values, Hall2NumberPart19)
  {
  }

  lemma Number2HallPart08NotIn20()
    ensures Avoids(Number2HallPart08.Values, Hall2NumberPart20)
  {
  }

  lemma Number2HallPart08NotIn21()
    ensures Avoids(Number2HallPart08.Values, Hall2NumberPart21)
  {
  }

  lemma Number2HallPart08NotIn22()
    ensures Avoids(Number2HallPart08.Values, Hall2NumberPart22)
  {
  }

  lemma Number2HallPart08NotIn23()
    ensures Avoids(Number2HallPart08.Values, Hall2NumberPart23)
  {
  }

  /** Every number of part 08 of `Number2Hall` comes back from the whole of `Hall2Number`. */
  lemma {:induction false} Number2HallPart08RoundTrip()
    ensures Inverts(Number2HallPart08, Hall2Number)
  {
    Number2HallPart08NotIn18();
    Number2HallPart08NotIn19();
    Number2HallPart08NotIn20();
    Number2HallPart08NotIn21();
    Number2HallPart08NotIn22();
    Number2HallPart08NotIn23();
    Number2HallPart08Home();
    InvertsUnionRight(Number2HallPart08, Hall2NumberThrough16, Hall2NumberPart17);
    Hall2NumberDecidedBy17(Number2HallPart08.Values);
    InvertsTransfer(Number2HallPart08, Hall2Number, Hall2NumberThrough17);
  }

  lemma Number2HallPart09Home()
    ensures Inverts(Number2HallPart09, Hall2NumberPart17)
  {
  }

  lemma Number2HallPart09NotIn18()
    ensures Avoids(Number2HallPart09.Values, Hall2NumberPart18)
  {
  }

  lemma Number2HallPart09NotIn19()
    ensures Avoids(Number2HallPart09.Values, Hall2NumberPart19)
  {
  }

  lemma Number2HallPart09NotIn20()
    ensures Avoids(Number2HallPart09.Values, Hall2NumberPart20)
  {
  }

  lemma Number2HallPart09NotIn21()
    ensures Avoids(Number2HallPart09.Values, Hall2NumberPart21)
  {
  }

  lemma Number2HallPart09NotIn22()
    ensures Avoids(Number2HallPart09.Values, Hall2NumberPart22)
  {
  }

  lemma Number2HallPart09NotIn23()
    ensures Avoids(Number2HallPart09.Values, Hall2NumberPart23)
  {
  }

  /** Every number of part 09 of `Number2Hall` comes back from the whole of `Hall2Number`. */
  lemma {:induction false} Number2HallPart09RoundTrip()
    ensures Inverts(Number2HallPart09, Hall2Number)
  {
    Number2HallPart09NotIn18();
    Number2HallPart09NotIn19();
    Number2HallPart09NotIn20();
    Number2HallPart09NotIn21();
    Number2HallPart09NotIn22();
    Number2HallPart09NotIn23();
    Number2HallPart09Home();
    InvertsUnionRight(Number2HallPart09, Hall2NumberThrough16, Hall2NumberPart17);
    Hall2NumberDecidedBy17(Number2HallPart09.Values);
    InvertsTransfer(Number2HallPart09, Hall2Number, Hall2NumberThrough17);
  }

  lemma Number2HallPart10Home()
    ensures Inverts(Number2HallPart10, Hall2NumberPart18)
  {
  }

  lemma Number2HallPart10NotIn19()
    ensures Avoids(Number2HallPart10.Values, Hall2NumberPart19)
  {
  }

  lemma Number2HallPart10NotIn20()
    ensures Avoids(Number2HallPart10.Values, Hall2NumberPart20)
  {
  }

  lemma Number2HallPart10NotIn21()
    ensures Avoids(Number2HallPart10.Values, Hall2NumberPart21)
  {
  }

  lemma Number2HallPart10NotIn22()
    ensures Avoids(Number2HallPart10.Values, Hall2NumberPart22)
  {
  }

  lemma Number2HallPart10NotIn23()
    ensures Avoids(Number2HallPart10.Values, Hall2NumberPart23)
  {
  }

  /** Every number of part 10 of `Number2Hall` comes back from the whole of `Hall2Number`. */
  lemma {:induction false} Number2HallPart10RoundTrip()
    ensures Inverts(Number2HallPart10, Hall2Number)
  {
    Number2HallPart10NotIn19();
    Number2HallPart10NotIn20();
    Number2HallPart10NotIn21();
    Number2HallPart10NotIn22();
    Number2HallPart10NotIn23();
    Number2HallPart10Home();
    InvertsUnionRight(Number2HallPart10, Hall2NumberThrough17, Hall2NumberPart18);
    Hall2NumberDecidedBy18(Number2HallPart10.Values);
    InvertsTransfer(Number2HallPart10, Hall2Number, Hall2NumberThrough18);
  }

  lemma Number2HallPart11Home()
    ensures Inverts(Number2HallPart11, Hall2NumberPart18)
  {
  }

  lemma Number2HallPart11NotIn19()
    ensures Avoids(Number2HallPart11.Values, Hall2NumberPart19)
  {
  }

  lemma Number2HallPart11NotIn20()
    ensures Avoids(Number2HallPart11.Values, Hall2NumberPart20)
  {
  }

  lemma Number2HallPart11NotIn21()
    ensures Avoids(Number2HallPart11.Values, Hall2NumberPart21)
  {
  }

  lemma Number2HallPart11NotIn22()
    ensures Avoids(Number2HallPart11.Values, Hall2NumberPart22)
  {
  }

  lemma Number2HallPart11NotIn23()
    ensures Avoids(Number2HallPart11.Values, Hall2NumberPart23)
  {
  }

  /** Every number of part 11 of `Number2Hall` comes back from the whole of `Hall2Number`. */
  lemma {:induction false} Number2HallPart11RoundTrip()
    ensures Inverts(Number2HallPart11, Hall2Number)
  {
    Number2HallPart11NotIn19();
    Number2HallPart11NotIn20();
    Number2HallPart11NotIn21();
    Number2HallPart11NotIn22();
    Number2HallPart11NotIn23();
    Number2HallPart11Home();
    InvertsUnionRight(Number2HallPart11, Hall2NumberThrough17, Hall2NumberPart18);
    Hall2NumberDecidedBy18(Number2HallPart11.Values);
    InvertsTransfer(Number2HallPart11, Hall2Number, Hall2NumberThrough18);
  }

  lemma Number2HallPart12Home()
    ensures Inverts(Number2HallPart12, Hall2NumberPart19)
  {
  }

  lemma Number2HallPart12NotIn20()
    ensures Avoids(Number2HallPart12.Values, Hall2NumberPart20)
  {
  }

  lemma Number2HallPart12NotIn21()
    ensures Avoids(Number2HallPart12.Values, Hall2NumberPart21)
  {
  }

  lemma Number2HallPart12NotIn22()
    ensures Avoids(Number2HallPart12.Values, Hall2NumberPart22)
  {
  }

  lemma Number2HallPart12NotIn23()
    ensures Avoids(Number2HallPart12.Values, Hall2NumberPart23)
  {
  }

  /** Every number of part 12 of `Number2Hall` comes back from the whole of `Hall2Number`. */
  lemma {:induction false} Number2HallPart12RoundTrip()
    ensures Inverts(Number2HallPart12, Hall2Number)
  {
    Number2HallPart12NotIn20();
    Number2HallPart12NotIn21();
    Number2HallPart12NotIn22();
    Number2HallPart12NotIn23();
    Number2HallPart12Home();
    InvertsUnionRight(Number2HallPart12, Hall2NumberThrough18, Hall2NumberPart19);
    Hall2NumberDecidedBy19(Number2HallPart12.Values);
    InvertsTransfer(Number2HallPart12, Hall2Number, Hall2NumberThrough19);
  }

  lemma Number2HallPart13Home()
    ensures Inverts(Number2HallPart13, Hall2NumberPart19)
  {
  }

  lemma Number2HallPart13NotIn20()
    ensures Avoids(Number2HallPart13.Values, Hall2NumberPart20)
  {
  }

  lemma Number2HallPart13NotIn21()
    ensures Avoids(Number2HallPart13.Values, Hall2NumberPart21)
  {
  }

  lemma Number2HallPart13NotIn22()
    ensures Avoids(Number2HallPart13.Values, Hall2NumberPart22)
  {
  }

  lemma Number2HallPart13NotIn23()
    ensures Avoids(Number2HallPart13.Values, Hall2NumberPart23)
  {
  }

  /** Every number of part 13 of `Number2Hall` comes back from the whole of `Hall2Number`. */
  lemma {:induction false} Number2HallPart13RoundTrip()
    ensures Inverts(Number2HallPart13, Hall2Number)
  {
    Number2HallPart13NotIn20();
    Number2HallPart13NotIn21();
    Number2HallPart13NotIn22();
    Number2HallPart13NotIn23();
    Number2HallPart13Home();
    InvertsUnionRight(Number2HallPart13, Hall2NumberThrough18, Hall2NumberPart19);
    Hall2NumberDecidedBy19(Number2HallPart13.Values);
    InvertsTransfer(Number2HallPart13, Hall2Number, Hall2NumberThrough19);
  }

  lemma Number2HallPart14Home()
    ensures Inverts(Number2HallPart14, Hall2NumberPart20)
  {
  }

  lemma Number2HallPart14NotIn21()
    ensures Avoids(Number2HallPart14.Values, Hall2NumberPart21)
  {
  }

  lemma Number2HallPart14NotIn22()
    ensures Avoids(Number2HallPart14.Values, Hall2NumberPart22)
  {
  }

  lemma Number2HallPart14NotIn23()
    ensures Avoids(Number2HallPart14.Values, Hall2NumberPart23)
  {
  }

  /** Every number of part 14 of `Number2Hall` comes back from the whole of `Hall2Number`. */
  lemma {:induction false} Number2HallPart14RoundTrip()
    ensures Inverts(Number2HallPart14, Hall2Number)
  {
    Number2HallPart14NotIn21();
    Number2HallPart14NotIn22();
    Number2HallPart14NotIn23();
    Number2HallPart14Home();
    InvertsUnionRight(Number2HallPart14, Hall2NumberThrough19, Hall2NumberPart20);
    Hall2NumberDecidedBy20(Number2HallPart14.Values);
    InvertsTransfer(Number2HallPart14, Hall2Number, Hall2NumberThrough20);
  }

  lemma Number2HallPart15Home()
    ensures Inverts(Number2HallPart15, Hall2NumberPart20)
  {
  }

  lemma Number2HallPart15NotIn21()
    ensures Avoids(Number2HallPart15.Values, Hall2NumberPart21)
  {
  }

  lemma Number2HallPart15NotIn22()
    ensures Avoids(Number2HallPart15.Values, Hall2NumberPart22)
  {
  }

  lemma Number2HallPart15NotIn23()
    ensures Avoids(Number2HallPart15.Values, Hall2NumberPart23)
  {
  }

  /** Every number of part 15 of `Number2Hall` comes back from the whole of `Hall2Number`. */
  lemma {:induction false} Number2HallPart15RoundTrip()
    ensures Inverts(Number2HallPart15, Hall2Number)
  {
    Number2HallPart15NotIn21();
    Number2HallPart15NotIn22();
    Number2HallPart15NotIn23();
    Number2HallPart15Home();
    InvertsUnionRight(Number2HallPart15, Hall2NumberThrough19, Hall2NumberPart20);
    Hall2NumberDecidedBy20(Number2HallPart15.Values);
    InvertsTransfer(Number2HallPart15, Hall2Number, Hall2NumberThrough20);
  }

  lemma Number2HallPart16Home()
    ensures Inverts(Number2HallPart16, Hall2NumberPart21)
  {
  }

  lemma Number2HallPart16NotIn22()
    ensures Avoids(Number2HallPart16.Values, Hall2NumberPart22)
  {
  }

  lemma Number2HallPart16NotIn23()
    ensures Avoids(Number2HallPart16.Values, Hall2NumberPart23)
  {
  }

  /** Every number of part 16 of `Number2Hall` comes back from the whole of `Hall2Number`. */
  lemma {:induction false} Number2HallPart16RoundTrip()
    ensures Inverts(Number2HallPart16, Hall2Number)
  {
    Number2HallPart16NotIn22();
    Number2HallPart16NotIn23();
    Number2HallPart16Home();
    InvertsUnionRight(Number2HallPart16, Hall2NumberThrough20, Hall2NumberPart21);
    Hall2NumberDecidedBy21(Number2HallPart16.Values);
    InvertsTransfer(Number2HallPart16, Hall2Number, Hall2NumberThrough21);
  }

  lemma Number2HallPart17Home()
    ensures Inverts(Number2HallPart17, Hall2NumberPart21)
  {
  }

  lemma Number2HallPart17NotIn22()
    ensures Avoids(Number2HallPart17.Values, Hall2NumberPart22)
  {
  }

  lemma Number2HallPart17NotIn23()
    ensures Avoids(Number2HallPart17.Values, Hall2NumberPart23)
  {
  }

  /** Every number of part 17 of `Number2Hall` comes back from the whole of `Hall2Number`. */
  lemma {:induction false} Number2HallPart17RoundTrip()
    ensures Inverts(Number2HallPart17, Hall2Number)
  {
    Number2HallPart17NotIn22();
    Number2HallPart17NotIn23();
    Number2HallPart17Home();
    InvertsUnionRight(Number2HallPart17, Hall2NumberThrough20, Hall2NumberPart21);
    Hall2NumberDecidedBy21(Number2HallPart17.Values);
    InvertsTransfer(Number2HallPart17, Hall2Number, Hall2NumberThrough21);
  }

  lemma Number2HallPart18Home()
    ensures Inverts(Number2HallPart18, Hall2NumberPart21)
  {
  }

  lemma Number2HallPart18NotIn22()
    ensures Avoids(Number2HallPart18.Values, Hall2NumberPart22)
  {
  }

  lemma Number2HallPart18NotIn23()
    ensures Avoids(Number2HallPart18.Values, Hall2NumberPart23)
  {
  }

  /** Every number of part 18 of `Number2Hall` comes back from the whole of `Hall2Number`. */
  lemma {:induction false} Number2HallPart18RoundTrip()
    ensures Inverts(Number2HallPart18, Hall2Number)
  {
    Number2HallPart18NotIn22();
    Number2HallPart18NotIn23();
    Number2HallPart18Home();
    InvertsUnionRight(Number2HallPart18, Hall2NumberThrough20, Hall2NumberPart21);
    Hall2NumberDecidedBy21(Number2HallPart18.Values);
    InvertsTransfer(Number2HallPart18, Hall2Number, Hall2NumberThrough21);
  }

  lemma Number2HallPart19Home()
    ensures Inverts(Number2HallPart19, Hall2NumberPart22)
  {
  }

  lemma Number2HallPart19NotIn23()
    ensures Avoids(Number2HallPart19.Values, Hall2NumberPart23)
  {
  }

  /** Every number of part 19 of `Number2Hall` comes back from the whole of `Hall2Number`. */
  lemma {:induction false} Number2HallPart19RoundTrip()
    ensures Inverts(Number2HallPart19, Hall2Number)
  {
    Number2HallPart19NotIn23();
    Number2HallPart19Home();
    InvertsUnionRight(Number2HallPart19, Hall2NumberThrough21, Hall2NumberPart22);
    Hall2NumberDecidedBy22(Number2HallPart19.Values);
    InvertsTransfer(Number2HallPart19, Hall2Number, Hall2NumberThrough22);
  }

  lemma Number2HallPart21Home()
    ensures Inverts(Number2HallPart21, Hall2NumberPart22)
  {
  }

  lemma Number2HallPart21NotIn23()
    ensures Avoids(Number2HallPart21.Values, Hall2NumberPart23)
  {
  }

  /** Every number of part 21 of `Number2Hall` comes back from the whole of `Hall2Number`. */
  lemma {:induction false} Number2HallPart21RoundTrip()
    ensures Inverts(Number2HallPart21, Hall2Number)
  {
    Number2HallPart21NotIn23();
    Number2HallPart21Home();
    InvertsUnionRight(Number2HallPart21, Hall2NumberThrough21, Hall2NumberPart22);
    Hall2NumberDecidedBy22(Number2HallPart21.Values);
    InvertsTransfer(Number2HallPart21, Hall2Number, Hall2NumberThrough22);
  }

  lemma Number2HallPart22Home()
    ensures Inverts(Number2HallPart22, Hall2NumberPart22)
  {
  }

  lemma Number2HallPart22NotIn23()
    ensures Avoids(Number2HallPart22.Values, Hall2NumberPart23)
  {
  }

  /** Every number of part 22 of `Number2Hall` comes back from the whole of `Hall2Number`. */
  lemma {:induction false} Number2HallPart22RoundTrip()
    ensures Inverts(Number2HallPart22, Hall2Number)
  {
    Number2HallPart22NotIn23();
    Number2HallPart22Home();
    InvertsUnionRight(Number2HallPart22, Hall2NumberThrough21, Hall2NumberPart22);
    Hall2NumberDecidedBy22(Number2HallPart22.Values);
    InvertsTransfer(Number2HallPart22, Hall2Number, Hall2NumberThrough22);
  }

  /** The symbol listed for group 212 is not a key of part 00 of `Hall2Number`. */
  lemma Number2HallPart20NotIn00()
    ensures Avoids(Number2HallPart20.Values, Hall2NumberPart00)
  {
  }

  lemma Number2HallPart20NotIn01()
    ensures Avoids(Number2HallPart20.Values, Hall2NumberPart01)
  {
  }

  lemma Number2HallPart20NotIn02()
    ensures Avoids(Number2HallPart20.Values, Hall2NumberPart02)
  {
  }

  lemma Number2HallPart20NotIn03()
    ensures Avoids(Number2HallPart20.Values, Hall2NumberPart03)
  {
  }

  lemma Number2HallPart20NotIn04()
    ensures Avoids(Number2HallPart20.Values, Hall2NumberPart04)
  {
  }

  lemma Number2HallPart20NotIn05()
    ensures Avoids(Number2HallPart20.Values, Hall2NumberPart05)
  {
  }

  lemma Number2HallPart20NotIn06()
    ensures Avoids(Number2HallPart20.Values, Hall2NumberPart06)
  {
  }

  lemma Number2HallPart20NotIn07()
    ensures Avoids(Number2HallPart20.Values, Hall2NumberPart07)
  {
  }

  lemma Number2HallPart20NotIn08()
    ensures Avoids(Number2HallPart20.Values, Hall2NumberPart08)
  {
  }

  lemma Number2HallPart20NotIn09()
    ensures Avoids(Number2HallPart20.Values, Hall2NumberPart09)
  {
  }

  lemma Number2HallPart20NotIn10()
    ensures Avoids(Number2HallPart20.Values, Hall2NumberPart10)
  {
  }

  lemma Number2HallPart20NotIn11()
    ensures Avoids(Number2HallPart20.Values, Hall2NumberPart11)
  {
  }

  lemma Number2HallPart20NotIn12()
    ensures Avoids(Number2HallPart20.Values, Hall2NumberPart12)
  {
  }

  lemma Number2HallPart20NotIn13()
    ensures Avoids(Number2HallPart20.Values, Hall2NumberPart13)
  {
  }

  lemma Number2HallPart20NotIn14()
    ensures Avoids(Number2HallPart20.Values, Hall2NumberPart14)
  {
  }

  lemma Number2HallPart20NotIn15()
    ensures Avoids(Number2HallPart20.Values, Hall2NumberPart15)
  {
  }

  lemma Number2HallPart20NotIn16()
    ensures Avoids(Number2HallPart20.Values, Hall2NumberPart16)
  {
  }

  lemma Number2HallPart20NotIn17()
    ensures Avoids(Number2HallPart20.Values, Hall2NumberPart17)
  {
  }

  lemma Number2HallPart20NotIn18()
    ensures Avoids(Number2HallPart20.Values, Hall2NumberPart18)
  {
  }

  lemma Number2HallPart20NotIn19()
    ensures Avoids(Number2HallPart20.Values, Hall2NumberPart19)
  {
  }

  lemma Number2HallPart20NotIn20()
    ensures Avoids(Number2HallPart20.Values, Hall2NumberPart20)
  {
  }

  lemma Number2HallPart20NotIn21()
    ensures Avoids(Number2HallPart20.Values, Hall2NumberPart21)
  {
  }

  lemma Number2HallPart20NotIn22()
    ensures Avoids(Number2HallPart20.Values, Hall2NumberPart22)
  {
  }

  lemma Number2HallPart20NotIn23()
    ensures Avoids(Number2HallPart20.Values, Hall2NumberPart23)
  {
  }

  /** The symbol that line 2296 gives for group 212 is not a key of `Hall2Number`. */
  lemma {:induction false} Number2Hall212Missing()
    ensures Avoids(Number2HallPart20.Values, Hall2Number)
  {
    Number2HallPart20NotIn00();
    Number2HallPart20NotIn01();
    Number2HallPart20NotIn02();
    Number2HallPart20NotIn03();
    Number2HallPart20NotIn04();
    Number2HallPart20NotIn05();
    Number2HallPart20NotIn06();
    Number2HallPart20NotIn07();
    Number2HallPart20NotIn08();
    Number2HallPart20NotIn09();
    Number2HallPart20NotIn10();
    Number2HallPart20NotIn11();
    Number2HallPart20NotIn12();
    Number2HallPart20NotIn13();
    Number2HallPart20NotIn14();
    Number2HallPart20NotIn15();
    Number2HallPart20NotIn16();
    Number2HallPart20NotIn17();
    Number2HallPart20NotIn18();
    Number2HallPart20NotIn19();
    Number2HallPart20NotIn20();
    Number2HallPart20NotIn21();
    Number2HallPart20NotIn22();
    Number2HallPart20NotIn23();
    Hall2NumberAvoidedBy(Number2HallPart20.Values);
  }

  /** Part 20 holds group 212 alone. */
  lemma Number2HallPart20Only212()
    ensures forall n | n in Number2HallPart20 :: n == 212
  {
  }

  /** A table that gives back the numbers of parts 00-05, and those that come before them, gives back those of the dict that parts 00-05 build, 212 aside. */
  lemma {:induction false} Number2HallThrough05InvertedBy(table: map<string, int>)
    requires Inverts(Number2HallPart00, table)
    requires Inverts(Number2HallPart01, table)
    requires Inverts(Number2HallPart02, table)
    requires Inverts(Number2HallPart03, table)
    requires Inverts(Number2HallPart04, table)
    requires Inverts(Number2HallPart05, table)
    ensures InvertsExcept(Number2HallThrough05, table, 212)
  {
    InvertsWeaken(Number2HallPart00, table, 212);
    InvertsWeaken(Number2HallPart01, table, 212);
    InvertsWeaken(Number2HallPart02, table, 212);
    InvertsWeaken(Number2HallPart03, table, 212);
    InvertsWeaken(Number2HallPart04, table, 212);
    InvertsWeaken(Number2HallPart05, table, 212);
    InvertsExceptUnion(Number2HallThrough00, Number2HallPart01, table, 212);
    InvertsExceptUnion(Number2HallThrough01, Number2HallPart02, table, 212);
    InvertsExceptUnion(Number2HallThrough02, Number2HallPart03, table, 212);
    InvertsExceptUnion(Number2HallThrough03, Number2HallPart04, table, 212);
    InvertsExceptUnion(Number2HallThrough04, Number2HallPart05, table, 212);
  }

  lemma {:induction false} Number2HallThrough11InvertedBy(table: map<string, int>)
    requires InvertsExcept(Number2HallThrough05, table, 212)
    requires Inverts(Number2HallPart06, table)
    requires Inverts(Number2HallPart07, table)
    requires Inverts(Number2HallPart08, table)
    requires Inverts(Number2HallPart09, table)
    requires Inverts(Number2HallPart10, table)
    requires Inverts(Number2HallPart11, table)
    ensures InvertsExcept(Number2HallThrough11, table, 212)
  {
    InvertsWeaken(Number2HallPart06, table, 212);
    InvertsWeaken(Number2HallPart07, table, 212);
    InvertsWeaken(Number2HallPart08, table, 212);
    InvertsWeaken(Number2HallPart09, table, 212);
    InvertsWeaken(Number2HallPart10, table, 212);
    InvertsWeaken(Number2HallPart11, table, 212);
    InvertsExceptUnion(Number2HallThrough05, Number2HallPart06, table, 212);
    InvertsExceptUnion(Number2HallThrough06, Number2HallPart07, table, 212);
    InvertsExceptUnion(Number2HallThrough07, Number2HallPart08, table, 212);
    InvertsExceptUnion(Number2HallThrough08, Number2HallPart09, table, 212);
    InvertsExceptUnion(Number2HallThrough09, Number2HallPart10, table, 212);
    InvertsExceptUnion(Number2HallThrough10, Number2HallPart11, table, 212);
  }

  lemma {:induction false} Number2HallThrough17InvertedBy(table: map<string, int>)
    requires InvertsExcept(Number2HallThrough11, table, 212)
    requires Inverts(Number2HallPart12, table)
    requires Inverts(Number2HallPart13, table)
    requires Inverts(Number2HallPart14, table)
    requires Inverts(Number2HallPart15, table)
    requires Inverts(Number2HallPart16, table)
    requires Inverts(Number2HallPart17, table)
    ensures InvertsExcept(Number2HallThrough17, table, 212)
  {
    InvertsWeaken(Number2HallPart12, table, 212);
    InvertsWeaken(Number2HallPart13, table, 212);
    InvertsWeaken(Number2HallPart14, table, 212);
    InvertsWeaken(Number2HallPart15, table, 212);
    InvertsWeaken(Number2HallPart16, table, 212);
    InvertsWeaken(Number2HallPart17, table, 212);
    InvertsExceptUnion(Number2HallThrough11, Number2HallPart12, table, 212);
    InvertsExceptUnion(Number2HallThrough12, Number2HallPart13, table, 212);
    InvertsExceptUnion(Number2HallThrough13, Number2HallPart14, table, 212);
    InvertsExceptUnion(Number2HallThrough14, Number2HallPart15, table, 212);
    InvertsExceptUnion(Number2HallThrough15, Number2HallPart16, table, 212);
    InvertsExceptUnion(Number2HallThrough16, Number2HallPart17, table, 212);
  }

  lemma {:induction false} Number2HallThrough22InvertedBy(table: map<string, int>)
    requires InvertsExcept(Number2HallThrough17, table, 212)
    requires Inverts(Number2HallPart18, table)
    requires Inverts(Number2HallPart19, table)
    requires Inverts(Number2HallPart21, table)
    requires Inverts(Number2HallPart22, table)
    ensures InvertsExcept(Number2HallThrough22, table, 212)
  {
    InvertsWeaken(Number2HallPart18, table, 212);
    InvertsWeaken(Number2HallPart19, table, 212);
    Number2HallPart20Only212();
    InvertsExceptOnlySkip(Number2HallPart20, table, 212);
    InvertsWeaken(Number2HallPart21, table, 212);
    InvertsWeaken(Number2HallPart22, table, 212);
    InvertsExceptUnion(Number2HallThrough17, Number2HallPart18, table, 212);
    InvertsExceptUnion(Number2HallThrough18, Number2HallPart19, table, 212);
    InvertsExceptUnion(Number2HallThrough19, Number2HallPart20, table, 212);
    InvertsExceptUnion(Number2HallThrough20, Number2HallPart21, table, 212);
    InvertsExceptUnion(Number2HallThrough21, Number2HallPart22, table, 212);
  }

  /** A table that gives back the numbers of every part but the one of group 212 gives back every number of `Number2Hall` but 212. */
  lemma {:induction false} Number2HallInvertedBy(table: map<string, int>)
    requires Inverts(Number2HallPart00, table)
    requires Inverts(Number2HallPart01, table)
    requires Inverts(Number2HallPart02, table)
    requires Inverts(Number2HallPart03, table)
    requires Inverts(Number2HallPart04, table)
    requires Inverts(Number2HallPart05, table)
    requires Inverts(Number2HallPart06, table)
    requires Inverts(Number2HallPart07, table)
    requires Inverts(Number2HallPart08, table)
    requires Inverts(Number2HallPart09, table)
    requires Inverts(Number2HallPart10, table)
    requires Inverts(Number2HallPart11, table)
    requires Inverts(Number2HallPart12, table)
    requires Inverts(Number2HallPart13, table)
    requires Inverts(Number2HallPart14, table)
    requires Inverts(Number2HallPart15, table)
    requires Inverts(Number2HallPart16, table)
    requires Inverts(Number2HallPart17, table)
    requires Inverts(Number2HallPart18, table)
    requires Inverts(Number2HallPart19, table)
    requires Inverts(Number2HallPart21, table)
    requires Inverts(Number2HallPart22, table)
    ensures InvertsExcept(Number2Hall, table, 212)
  {
    Number2HallThrough05InvertedBy(table);
    Number2HallThrough11InvertedBy(table);
    Number2HallThrough17InvertedBy(table);
    Number2HallThrough22InvertedBy(table);
  }

  /** For every group number that `Number2Hall` lists other than 212, `Hall2Number` maps its symbol back to it. */
  lemma {:induction false} Number2HallRoundTrip()
    ensures InvertsExcept(Number2Hall, Hall2Number, 212)
  {
    Number2HallPart00RoundTrip();
    Number2HallPart01RoundTrip();
    Number2HallPart02RoundTrip();
    Number2HallPart03RoundTrip();
    Number2HallPart04RoundTrip();
    Number2HallPart05RoundTrip();
    Number2HallPart06RoundTrip();
    Number2HallPart07RoundTrip();
    Number2HallPart08RoundTrip();
    Number2HallPart09RoundTrip();
    Number2HallPart10RoundTrip();
    Number2HallPart11RoundTrip();
    Number2HallPart12RoundTrip();
    Number2HallPart13RoundTrip();
    Number2HallPart14RoundTrip();
    Number2HallPart15RoundTrip();
    Number2HallPart16RoundTrip();
    Number2HallPart17RoundTrip();
    Number2HallPart18RoundTrip();
    Number2HallPart19RoundTrip();
    Number2HallPart21RoundTrip();
    Number2HallPart22RoundTrip();
    Number2HallInvertedBy(Hall2Number);
  }
  /** A dict that agrees with `part` on its keys, where `part` gives only symbols that `table` lacks, sends those keys nowhere in `table`. */
  lemma LeadsNowhere(whole: map<int, string>, part: map<int, string>, table: map<string, int>)
    requires SameOnNumbers(part.Keys, whole, part)
    requires Avoids(part.Values, table)
    ensures forall n | n in part :: n in whole && whole[n] !in table
  {
    forall n | n in part
      ensures n in whole && whole[n] !in table
    {
      assert Get(whole, n) == Get(part, n);
      assert part[n] in part.Values;
    }
  }

  /** Part 20 is the single entry of group 212, line 2296. */
  lemma Number2HallPart20Is212()
    ensures Number2HallPart20 == map[212 := "P 4acd 2a 3"]
  {
  }

  /** As written, group 212 (the only key of part 20, line 2296) is a key of `Number2Hall` whose symbol is not a key of `Hall2Number`. */
  lemma {:induction false} Number2Hall212AsWritten()
    ensures forall n | n in Number2HallPart20 :: n in Number2Hall && Number2Hall[n] !in Hall2Number
  {
    Number2HallAt212();
    Number2Hall212Missing();
    LeadsNowhere(Number2Hall, Number2HallPart20, Hall2Number);
  }


  /** The entry that line 2296 evidently means: the Hall symbol that lines 1247 and 2089 give group 212. */
  const Group212Intended: map<int, string> := map[212 := "P 4acd 2ab 3"]

  /** `Number2Hall` with the entry of group 212 corrected. */
  const Number2HallCorrected: map<int, string> := Number2Hall + Group212Intended

  /** Part 22 of `Hall2Number` gives 212 for the corrected symbol. */
  lemma Group212IntendedHome()
    ensures Inverts(Group212Intended, Hall2NumberPart22)
  {
  }

  lemma Group212IntendedNotIn23()
    ensures Avoids(Group212Intended.Values, Hall2NumberPart23)
  {
  }

  /** `Hall2Number` gives 212 back for the corrected symbol. */
  lemma {:induction false} Group212IntendedRoundTrip()
    ensures Inverts(Group212Intended, Hall2Number)
  {
    Group212IntendedNotIn23();
    Group212IntendedHome();
    InvertsUnionRight(Group212Intended, Hall2NumberThrough21, Hall2NumberPart22);
    Hall2NumberDecidedBy22(Group212Intended.Values);
    InvertsTransfer(Group212Intended, Hall2Number, Hall2NumberThrough22);
  }

  /** A table that gives back every number of `Number2Hall` but 212, and 212 for the corrected symbol, gives back every number of the corrected dict. */
  lemma {:induction false} Number2HallCorrectedInvertedBy(table: map<string, int>)
    requires InvertsExcept(Number2Hall, table, 212)
    requires Inverts(Group212Intended, table)
    ensures Inverts(Number2HallCorrected, table)
  {
    InvertsPatched(Number2Hall, Group212Intended, table, 212);
  }

  /** With group 212 corrected, `Hall2Number` gives back every number of `Number2Hall`. */
  lemma {:induction false} Number2HallCorrectedRoundTrip()
    ensures Inverts(Number2HallCorrected, Hall2Number)
  {
    Number2HallRoundTrip();
    Group212IntendedRoundTrip();
    Number2HallCorrectedInvertedBy(Hall2Number);
  }
}
