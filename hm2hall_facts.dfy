/**
 * What the duplicated keys and a few values of `HM2Hall` come to
 * (abacuskit/utils/constants.py, lines 77-1365), and how `HM2Hall` meets
 * `Hall2Number`: four Hermann-Mauguin symbols lead to Hall symbols that
 * `Hall2Number` does not list, no Hermann-Mauguin symbol leads to the Hall
 * symbol `"F 2 2 -1d"`, and `"P4332"` leads to the Hall symbol of group 212.
 */
module HM2HallFacts {
  import opened Wrappers
  import opened DictLiteral
  import opened HM2HallTable
  import opened Hall2NumberTable

  /** The entry of `"B1a1"` (line 179). */
  const B1a1: map<string, string> := map["B1a1" := "B -2yc"]

  /** The entry of `"B121/c1"` (line 388). */
  const B121c1: map<string, string> := map["B121/c1" := "-B 2ybc"]

  /** The entry of `"Pcc2"` as the group-27 entry (line 491). */
  const Pcc2Final: map<string, string> := map["Pcc2" := "P 2 -2c"]

  /** The entry of `"R3mHR"` (line 1100). */
  const R3mHR: map<string, string> := map["R3mHR" := "T 3 -2\""]

  /** The entry of `"R-3mHR"` (line 1127). */
  const RBar3mHR: map<string, string> := map["R-3mHR" := "-T 3 2\""]

  /** The entry of the four spellings of group 70, origin choice 1 (lines 1355-1358). */
  const FdddFinal: map<string, string> := map["Fddd" := "-F 2 2 -1d", "Fddd:1" := "-F 2 2 -1d", "Fddd1" := "-F 2 2 -1d", "FdddS" := "-F 2 2 -1d"]

  /** The entry of `"P4332"`, group 212 (line 1247). */
  const P4332: map<string, string> := map["P4332" := "P 4acd 2ab 3"]

  /** The earlier entry for `"Pcc2"` (line 164), an alias of group 7 that line 491 replaces. */
  const Pcc2Alias: map<string, string> := map["Pcc2" := "P -2ab"]

  /** The earlier entries for group 70, origin choice 1 (lines 807-810), which lines 1355-1358 replace. */
  const FdddAliases: map<string, string> := map["Fddd" := "F 2 2 -1d", "Fddd:1" := "F 2 2 -1d", "Fddd1" := "F 2 2 -1d", "FdddS" := "F 2 2 -1d"]

  /** The Hermann-Mauguin symbols whose Hall symbol is not a key of `Hall2Number`. */
  const Dangling: map<string, string> := map["B1a1" := "B -2yc", "B121/c1" := "-B 2ybc", "R3mHR" := "T 3 -2\"", "R-3mHR" := "-T 3 2\""]

  /** Part 03 gives the entry of B1a1. */
  lemma B1a1In03()
    ensures Gives(B1a1, HM2HallPart03)
  {
  }

  lemma B1a1NotIn04()
    ensures Avoids(B1a1.Keys, HM2HallPart04)
  {
  }

  lemma B1a1NotIn05()
    ensures Avoids(B1a1.Keys, HM2HallPart05)
  {
  }

  lemma B1a1NotIn06()
    ensures Avoids(B1a1.Keys, HM2HallPart06)
  {
  }

  lemma B1a1NotIn07()
    ensures Avoids(B1a1.Keys, HM2HallPart07)
  {
  }

  lemma B1a1NotIn08()
    ensures Avoids(B1a1.Keys, HM2HallPart08)
  {
  }

  lemma B1a1NotIn09()
    ensures Avoids(B1a1.Keys, HM2HallPart09)
  {
  }

  lemma B1a1NotIn10()
    ensures Avoids(B1a1.Keys, HM2HallPart10)
  {
  }

  lemma B1a1NotIn11()
    ensures Avoids(B1a1.Keys, HM2HallPart11)
  {
  }

  lemma B1a1NotIn12()
    ensures Avoids(B1a1.Keys, HM2HallPart12)
  {
  }

  lemma B1a1NotIn13()
    ensures Avoids(B1a1.Keys, HM2HallPart13)
  {
  }

  lemma B1a1NotIn14()
    ensures Avoids(B1a1.Keys, HM2HallPart14)
  {
  }

  lemma B1a1NotIn15()
    ensures Avoids(B1a1.Keys, HM2HallPart15)
  {
  }

  lemma B1a1NotIn16()
    ensures Avoids(B1a1.Keys, HM2HallPart16)
  {
  }

  lemma B1a1NotIn17()
    ensures Avoids(B1a1.Keys, HM2HallPart17)
  {
  }

  lemma B1a1NotIn18()
    ensures Avoids(B1a1.Keys, HM2HallPart18)
  {
  }

  lemma B1a1NotIn19()
    ensures Avoids(B1a1.Keys, HM2HallPart19)
  {
  }

  lemma B1a1NotIn20()
    ensures Avoids(B1a1.Keys, HM2HallPart20)
  {
  }

  lemma B1a1NotIn21()
    ensures Avoids(B1a1.Keys, HM2HallPart21)
  {
  }

  lemma B1a1NotIn22()
    ensures Avoids(B1a1.Keys, HM2HallPart22)
  {
  }

  lemma B1a1NotIn23()
    ensures Avoids(B1a1.Keys, HM2HallPart23)
  {
  }

  lemma B1a1NotIn24()
    ensures Avoids(B1a1.Keys, HM2HallPart24)
  {
  }

  lemma B1a1NotIn25()
    ensures Avoids(B1a1.Keys, HM2HallPart25)
  {
  }

  lemma B1a1NotIn26()
    ensures Avoids(B1a1.Keys, HM2HallPart26)
  {
  }

  lemma B1a1NotIn27()
    ensures Avoids(B1a1.Keys, HM2HallPart27)
  {
  }

  lemma B1a1NotIn28()
    ensures Avoids(B1a1.Keys, HM2HallPart28)
  {
  }

  lemma B1a1NotIn29()
    ensures Avoids(B1a1.Keys, HM2HallPart29)
  {
  }

  lemma B1a1NotIn30()
    ensures Avoids(B1a1.Keys, HM2HallPart30)
  {
  }

  lemma B1a1NotIn31()
    ensures Avoids(B1a1.Keys, HM2HallPart31)
  {
  }

  lemma B1a1NotIn32()
    ensures Avoids(B1a1.Keys, HM2HallPart32)
  {
  }

  lemma B1a1NotIn33()
    ensures Avoids(B1a1.Keys, HM2HallPart33)
  {
  }

  lemma B1a1NotIn34()
    ensures Avoids(B1a1.Keys, HM2HallPart34)
  {
  }

  lemma B1a1NotIn35()
    ensures Avoids(B1a1.Keys, HM2HallPart35)
  {
  }

  lemma B1a1NotIn36()
    ensures Avoids(B1a1.Keys, HM2HallPart36)
  {
  }

  lemma B1a1NotIn37()
    ensures Avoids(B1a1.Keys, HM2HallPart37)
  {
  }

  lemma B1a1NotIn38()
    ensures Avoids(B1a1.Keys, HM2HallPart38)
  {
  }

  lemma B1a1NotIn39()
    ensures Avoids(B1a1.Keys, HM2HallPart39)
  {
  }

  lemma B1a1NotIn40()
    ensures Avoids(B1a1.Keys, HM2HallPart40)
  {
  }

  lemma B1a1NotIn41()
    ensures Avoids(B1a1.Keys, HM2HallPart41)
  {
  }

  lemma B1a1NotIn42()
    ensures Avoids(B1a1.Keys, HM2HallPart42)
  {
  }

  lemma B1a1NotIn43()
    ensures Avoids(B1a1.Keys, HM2HallPart43)
  {
  }

  lemma B1a1NotIn44()
    ensures Avoids(B1a1.Keys, HM2HallPart44)
  {
  }

  lemma B1a1NotIn45()
    ensures Avoids(B1a1.Keys, HM2HallPart45)
  {
  }

  /** The dict keeps the entry of `"B1a1"`. */
  lemma {:induction false} B1a1InHM2Hall()
    ensures Gives(B1a1, HM2Hall)
  {
    B1a1NotIn04();
    B1a1NotIn05();
    B1a1NotIn06();
    B1a1NotIn07();
    B1a1NotIn08();
    B1a1NotIn09();
    B1a1NotIn10();
    B1a1NotIn11();
    B1a1NotIn12();
    B1a1NotIn13();
    B1a1NotIn14();
    B1a1NotIn15();
    B1a1NotIn16();
    B1a1NotIn17();
    B1a1NotIn18();
    B1a1NotIn19();
    B1a1NotIn20();
    B1a1NotIn21();
    B1a1NotIn22();
    B1a1NotIn23();
    B1a1NotIn24();
    B1a1NotIn25();
    B1a1NotIn26();
    B1a1NotIn27();
    B1a1NotIn28();
    B1a1NotIn29();
    B1a1NotIn30();
    B1a1NotIn31();
    B1a1NotIn32();
    B1a1NotIn33();
    B1a1NotIn34();
    B1a1NotIn35();
    B1a1NotIn36();
    B1a1NotIn37();
    B1a1NotIn38();
    B1a1NotIn39();
    B1a1NotIn40();
    B1a1NotIn41();
    B1a1NotIn42();
    B1a1NotIn43();
    B1a1NotIn44();
    B1a1NotIn45();
    B1a1In03();
    GivesUnionRight(B1a1, HM2HallThrough02, HM2HallPart03);
    HM2HallDecidedBy03(B1a1.Keys);
    GivesTransfer(B1a1, HM2Hall, HM2HallThrough03);
  }

  /** Part 12 gives the entry of B121c1. */
  lemma B121c1In12()
    ensures Gives(B121c1, HM2HallPart12)
  {
  }

  lemma B121c1NotIn13()
    ensures Avoids(B121c1.Keys, HM2HallPart13)
  {
  }

  lemma B121c1NotIn14()
    ensures Avoids(B121c1.Keys, HM2HallPart14)
  {
  }

  lemma B121c1NotIn15()
    ensures Avoids(B121c1.Keys, HM2HallPart15)
  {
  }

  lemma B121c1NotIn16()
    ensures Avoids(B121c1.Keys, HM2HallPart16)
  {
  }

  lemma B121c1NotIn17()
    ensures Avoids(B121c1.Keys, HM2HallPart17)
  {
  }

  lemma B121c1NotIn18()
    ensures Avoids(B121c1.Keys, HM2HallPart18)
  {
  }

  lemma B121c1NotIn19()
    ensures Avoids(B121c1.Keys, HM2HallPart19)
  {
  }

  lemma B121c1NotIn20()
    ensures Avoids(B121c1.Keys, HM2HallPart20)
  {
  }

  lemma B121c1NotIn21()
    ensures Avoids(B121c1.Keys, HM2HallPart21)
  {
  }

  lemma B121c1NotIn22()
    ensures Avoids(B121c1.Keys, HM2HallPart22)
  {
  }

  lemma B121c1NotIn23()
    ensures Avoids(B121c1.Keys, HM2HallPart23)
  {
  }

  lemma B121c1NotIn24()
    ensures Avoids(B121c1.Keys, HM2HallPart24)
  {
  }

  lemma B121c1NotIn25()
    ensures Avoids(B121c1.Keys, HM2HallPart25)
  {
  }

  lemma B121c1NotIn26()
    ensures Avoids(B121c1.Keys, HM2HallPart26)
  {
  }

  lemma B121c1NotIn27()
    ensures Avoids(B121c1.Keys, HM2HallPart27)
  {
  }

  lemma B121c1NotIn28()
    ensures Avoids(B121c1.Keys, HM2HallPart28)
  {
  }

  lemma B121c1NotIn29()
    ensures Avoids(B121c1.Keys, HM2HallPart29)
  {
  }

  lemma B121c1NotIn30()
    ensures Avoids(B121c1.Keys, HM2HallPart30)
  {
  }

  lemma B121c1NotIn31()
    ensures Avoids(B121c1.Keys, HM2HallPart31)
  {
  }

  lemma B121c1NotIn32()
    ensures Avoids(B121c1.Keys, HM2HallPart32)
  {
  }

  lemma B121c1NotIn33()
    ensures Avoids(B121c1.Keys, HM2HallPart33)
  {
  }

  lemma B121c1NotIn34()
    ensures Avoids(B121c1.Keys, HM2HallPart34)
  {
  }

  lemma B121c1NotIn35()
    ensures Avoids(B121c1.Keys, HM2HallPart35)
  {
  }

  lemma B121c1NotIn36()
    ensures Avoids(B121c1.Keys, HM2HallPart36)
  {
  }

  lemma B121c1NotIn37()
    ensures Avoids(B121c1.Keys, HM2HallPart37)
  {
  }

  lemma B121c1NotIn38()
    ensures Avoids(B121c1.Keys, HM2HallPart38)
  {
  }

  lemma B121c1NotIn39()
    ensures Avoids(B121c1.Keys, HM2HallPart39)
  {
  }

  lemma B121c1NotIn40()
    ensures Avoids(B121c1.Keys, HM2HallPart40)
  {
  }

  lemma B121c1NotIn41()
    ensures Avoids(B121c1.Keys, HM2HallPart41)
  {
  }

  lemma B121c1NotIn42()
    ensures Avoids(B121c1.Keys, HM2HallPart42)
  {
  }

  lemma B121c1NotIn43()
    ensures Avoids(B121c1.Keys, HM2HallPart43)
  {
  }

  lemma B121c1NotIn44()
    ensures Avoids(B121c1.Keys, HM2HallPart44)
  {
  }

  lemma B121c1NotIn45()
    ensures Avoids(B121c1.Keys, HM2HallPart45)
  {
  }

  /** The dict keeps the entry of `"B121/c1"`. */
  lemma {:induction false} B121c1InHM2Hall()
    ensures Gives(B121c1, HM2Hall)
  {
    B121c1NotIn13();
    B121c1NotIn14();
    B121c1NotIn15();
    B121c1NotIn16();
    B121c1NotIn17();
    B121c1NotIn18();
    B121c1NotIn19();
    B121c1NotIn20();
    B121c1NotIn21();
    B121c1NotIn22();
    B121c1NotIn23();
    B121c1NotIn24();
    B121c1NotIn25();
    B121c1NotIn26();
    B121c1NotIn27();
    B121c1NotIn28();
    B121c1NotIn29();
    B121c1NotIn30();
    B121c1NotIn31();
    B121c1NotIn32();
    B121c1NotIn33();
    B121c1NotIn34();
    B121c1NotIn35();
    B121c1NotIn36();
    B121c1NotIn37();
    B121c1NotIn38();
    B121c1NotIn39();
    B121c1NotIn40();
    B121c1NotIn41();
    B121c1NotIn42();
    B121c1NotIn43();
    B121c1NotIn44();
    B121c1NotIn45();
    B121c1In12();
    GivesUnionRight(B121c1, HM2HallThrough11, HM2HallPart12);
    HM2HallDecidedBy12(B121c1.Keys);
    GivesTransfer(B121c1, HM2Hall, HM2HallThrough12);
  }

  /** Part 15 gives the entry of Pcc2Final. */
  lemma Pcc2FinalIn15()
    ensures Gives(Pcc2Final, HM2HallPart15)
  {
  }

  lemma Pcc2FinalNotIn16()
    ensures Avoids(Pcc2Final.Keys, HM2HallPart16)
  {
  }

  lemma Pcc2FinalNotIn17()
    ensures Avoids(Pcc2Final.Keys, HM2HallPart17)
  {
  }

  lemma Pcc2FinalNotIn18()
    ensures Avoids(Pcc2Final.Keys, HM2HallPart18)
  {
  }

  lemma Pcc2FinalNotIn19()
    ensures Avoids(Pcc2Final.Keys, HM2HallPart19)
  {
  }

  lemma Pcc2FinalNotIn20()
    ensures Avoids(Pcc2Final.Keys, HM2HallPart20)
  {
  }

  lemma Pcc2FinalNotIn21()
    ensures Avoids(Pcc2Final.Keys, HM2HallPart21)
  {
  }

  lemma Pcc2FinalNotIn22()
    ensures Avoids(Pcc2Final.Keys, HM2HallPart22)
  {
  }

  lemma Pcc2FinalNotIn23()
    ensures Avoids(Pcc2Final.Keys, HM2HallPart23)
  {
  }

  lemma Pcc2FinalNotIn24()
    ensures Avoids(Pcc2Final.Keys, HM2HallPart24)
  {
  }

  lemma Pcc2FinalNotIn25()
    ensures Avoids(Pcc2Final.Keys, HM2HallPart25)
  {
  }

  lemma Pcc2FinalNotIn26()
    ensures Avoids(Pcc2Final.Keys, HM2HallPart26)
  {
  }

  lemma Pcc2FinalNotIn27()
    ensures Avoids(Pcc2Final.Keys, HM2HallPart27)
  {
  }

  lemma Pcc2FinalNotIn28()
    ensures Avoids(Pcc2Final.Keys, HM2HallPart28)
  {
  }

  lemma Pcc2FinalNotIn29()
    ensures Avoids(Pcc2Final.Keys, HM2HallPart29)
  {
  }

  lemma Pcc2FinalNotIn30()
    ensures Avoids(Pcc2Final.Keys, HM2HallPart30)
  {
  }

  lemma Pcc2FinalNotIn31()
    ensures Avoids(Pcc2Final.Keys, HM2HallPart31)
  {
  }

  lemma Pcc2FinalNotIn32()
    ensures Avoids(Pcc2Final.Keys, HM2HallPart32)
  {
  }

  lemma Pcc2FinalNotIn33()
    ensures Avoids(Pcc2Final.Keys, HM2HallPart33)
  {
  }

  lemma Pcc2FinalNotIn34()
    ensures Avoids(Pcc2Final.Keys, HM2HallPart34)
  {
  }

  lemma Pcc2FinalNotIn35()
    ensures Avoids(Pcc2Final.Keys, HM2HallPart35)
  {
  }

  lemma Pcc2FinalNotIn36()
    ensures Avoids(Pcc2Final.Keys, HM2HallPart36)
  {
  }

  lemma Pcc2FinalNotIn37()
    ensures Avoids(Pcc2Final.Keys, HM2HallPart37)
  {
  }

  lemma Pcc2FinalNotIn38()
    ensures Avoids(Pcc2Final.Keys, HM2HallPart38)
  {
  }

  lemma Pcc2FinalNotIn39()
    ensures Avoids(Pcc2Final.Keys, HM2HallPart39)
  {
  }

  lemma Pcc2FinalNotIn40()
    ensures Avoids(Pcc2Final.Keys, HM2HallPart40)
  {
  }

  lemma Pcc2FinalNotIn41()
    ensures Avoids(Pcc2Final.Keys, HM2HallPart41)
  {
  }

  lemma Pcc2FinalNotIn42()
    ensures Avoids(Pcc2Final.Keys, HM2HallPart42)
  {
  }

  lemma Pcc2FinalNotIn43()
    ensures Avoids(Pcc2Final.Keys, HM2HallPart43)
  {
  }

  lemma Pcc2FinalNotIn44()
    ensures Avoids(Pcc2Final.Keys, HM2HallPart44)
  {
  }

  lemma Pcc2FinalNotIn45()
    ensures Avoids(Pcc2Final.Keys, HM2HallPart45)
  {
  }

  /** The dict keeps the entry of `"Pcc2"` as the group-27 entry. */
  lemma {:induction false} Pcc2FinalInHM2Hall()
    ensures Gives(Pcc2Final, HM2Hall)
  {
    Pcc2FinalNotIn16();
    Pcc2FinalNotIn17();
    Pcc2FinalNotIn18();
    Pcc2FinalNotIn19();
    Pcc2FinalNotIn20();
    Pcc2FinalNotIn21();
    Pcc2FinalNotIn22();
    Pcc2FinalNotIn23();
    Pcc2FinalNotIn24();
    Pcc2FinalNotIn25();
    Pcc2FinalNotIn26();
    Pcc2FinalNotIn27();
    Pcc2FinalNotIn28();
    Pcc2FinalNotIn29();
    Pcc2FinalNotIn30();
    Pcc2FinalNotIn31();
    Pcc2FinalNotIn32();
    Pcc2FinalNotIn33();
    Pcc2FinalNotIn34();
    Pcc2FinalNotIn35();
    Pcc2FinalNotIn36();
    Pcc2FinalNotIn37();
    Pcc2FinalNotIn38();
    Pcc2FinalNotIn39();
    Pcc2FinalNotIn40();
    Pcc2FinalNotIn41();
    Pcc2FinalNotIn42();
    Pcc2FinalNotIn43();
    Pcc2FinalNotIn44();
    Pcc2FinalNotIn45();
    Pcc2FinalIn15();
    GivesUnionRight(Pcc2Final, HM2HallThrough14, HM2HallPart15);
    HM2HallDecidedBy15(Pcc2Final.Keys);
    GivesTransfer(Pcc2Final, HM2Hall, HM2HallThrough15);
  }

  /** Part 37 gives the entry of R3mHR. */
  lemma R3mHRIn37()
    ensures Gives(R3mHR, HM2HallPart37)
  {
  }

  lemma R3mHRNotIn38()
    ensures Avoids(R3mHR.Keys, HM2HallPart38)
  {
  }

  lemma R3mHRNotIn39()
    ensures Avoids(R3mHR.Keys, HM2HallPart39)
  {
  }

  lemma R3mHRNotIn40()
    ensures Avoids(R3mHR.Keys, HM2HallPart40)
  {
  }

  lemma R3mHRNotIn41()
    ensures Avoids(R3mHR.Keys, HM2HallPart41)
  {
  }

  lemma R3mHRNotIn42()
    ensures Avoids(R3mHR.Keys, HM2HallPart42)
  {
  }

  lemma R3mHRNotIn43()
    ensures Avoids(R3mHR.Keys, HM2HallPart43)
  {
  }

  lemma R3mHRNotIn44()
    ensures Avoids(R3mHR.Keys, HM2HallPart44)
  {
  }

  lemma R3mHRNotIn45()
    ensures Avoids(R3mHR.Keys, HM2HallPart45)
  {
  }

  /** The dict keeps the entry of `"R3mHR"`. */
  lemma {:induction false} R3mHRInHM2Hall()
    ensures Gives(R3mHR, HM2Hall)
  {
    R3mHRNotIn38();
    R3mHRNotIn39();
    R3mHRNotIn40();
    R3mHRNotIn41();
    R3mHRNotIn42();
    R3mHRNotIn43();
    R3mHRNotIn44();
    R3mHRNotIn45();
    R3mHRIn37();
    GivesUnionRight(R3mHR, HM2HallThrough36, HM2HallPart37);
    HM2HallDecidedBy37(R3mHR.Keys);
    GivesTransfer(R3mHR, HM2Hall, HM2HallThrough37);
  }

  /** Part 38 gives the entry of RBar3mHR. */
  lemma RBar3mHRIn38()
    ensures Gives(RBar3mHR, HM2HallPart38)
  {
  }

  lemma RBar3mHRNotIn39()
    ensures Avoids(RBar3mHR.Keys, HM2HallPart39)
  {
  }

  lemma RBar3mHRNotIn40()
    ensures Avoids(RBar3mHR.Keys, HM2HallPart40)
  {
  }

  lemma RBar3mHRNotIn41()
    ensures Avoids(RBar3mHR.Keys, HM2HallPart41)
  {
  }

  lemma RBar3mHRNotIn42()
    ensures Avoids(RBar3mHR.Keys, HM2HallPart42)
  {
  }

  lemma RBar3mHRNotIn43()
    ensures Avoids(RBar3mHR.Keys, HM2HallPart43)
  {
  }

  lemma RBar3mHRNotIn44()
    ensures Avoids(RBar3mHR.Keys, HM2HallPart44)
  {
  }

  lemma RBar3mHRNotIn45()
    ensures Avoids(RBar3mHR.Keys, HM2HallPart45)
  {
  }

  /** The dict keeps the entry of `"R-3mHR"`. */
  lemma {:induction false} RBar3mHRInHM2Hall()
    ensures Gives(RBar3mHR, HM2Hall)
  {
    RBar3mHRNotIn39();
    RBar3mHRNotIn40();
    RBar3mHRNotIn41();
    RBar3mHRNotIn42();
    RBar3mHRNotIn43();
    RBar3mHRNotIn44();
    RBar3mHRNotIn45();
    RBar3mHRIn38();
    GivesUnionRight(RBar3mHR, HM2HallThrough37, HM2HallPart38);
    HM2HallDecidedBy38(RBar3mHR.Keys);
    GivesTransfer(RBar3mHR, HM2Hall, HM2HallThrough38);
  }

  /** Part 45 gives the entry of FdddFinal. */
  lemma FdddFinalIn45()
    ensures Gives(FdddFinal, HM2HallPart45)
  {
  }

  /** The dict keeps the entry of the four spellings of group 70, origin choice 1. */
  lemma {:induction false} FdddFinalInHM2Hall()
    ensures Gives(FdddFinal, HM2Hall)
  {
    FdddFinalIn45();
    GivesUnionRight(FdddFinal, HM2HallThrough44, HM2HallPart45);
  }

  /** Part 41 gives the entry of P4332. */
  lemma P4332In41()
    ensures Gives(P4332, HM2HallPart41)
  {
  }

  lemma P4332NotIn42()
    ensures Avoids(P4332.Keys, HM2HallPart42)
  {
  }

  lemma P4332NotIn43()
    ensures Avoids(P4332.Keys, HM2HallPart43)
  {
  }

  lemma P4332NotIn44()
    ensures Avoids(P4332.Keys, HM2HallPart44)
  {
  }

  lemma P4332NotIn45()
    ensures Avoids(P4332.Keys, HM2HallPart45)
  {
  }

  /** The dict keeps the entry of `"P4332"`, group 212. */
  lemma {:induction false} P4332InHM2Hall()
    ensures Gives(P4332, HM2Hall)
  {
    P4332NotIn42();
    P4332NotIn43();
    P4332NotIn44();
    P4332NotIn45();
    P4332In41();
    GivesUnionRight(P4332, HM2HallThrough40, HM2HallPart41);
    HM2HallDecidedBy41(P4332.Keys);
    GivesTransfer(P4332, HM2Hall, HM2HallThrough41);
  }

  /** Part 03 holds the earlier `"Pcc2"` entry. */
  lemma Pcc2AliasIn03()
    ensures Gives(Pcc2Alias, HM2HallPart03)
  {
  }

  /** Part 28 holds the earlier group-70 entries. */
  lemma FdddAliasesIn28()
    ensures Gives(FdddAliases, HM2HallPart28)
  {
  }

  lemma DanglingIsJoin()
    ensures Dangling == B1a1 + B121c1 + R3mHR + RBar3mHR
  {
  }

  /** The dict gives the four dangling Hall symbols. */
  lemma {:induction false} DanglingInHM2Hall()
    ensures Gives(Dangling, HM2Hall)
  {
    B1a1InHM2Hall();
    B121c1InHM2Hall();
    R3mHRInHM2Hall();
    RBar3mHRInHM2Hall();
    GivesJoin(B1a1, B121c1, HM2Hall);
    GivesJoin(B1a1 + B121c1, R3mHR, HM2Hall);
    GivesJoin(B1a1 + B121c1 + R3mHR, RBar3mHR, HM2Hall);
    DanglingIsJoin();
  }

  /** No dangling Hall symbol is a key of part 00 of `Hall2Number`. */
  lemma DanglingNotInHall2Number00()
    ensures Avoids(Dangling.Values, Hall2NumberPart00)
  {
  }

  lemma DanglingNotInHall2Number01()
    ensures Avoids(Dangling.Values, Hall2NumberPart01)
  {
  }

  lemma DanglingNotInHall2Number02()
    ensures Avoids(Dangling.Values, Hall2NumberPart02)
  {
  }

  lemma DanglingNotInHall2Number03()
    ensures Avoids(Dangling.Values, Hall2NumberPart03)
  {
  }

  lemma DanglingNotInHall2Number04()
    ensures Avoids(Dangling.Values, Hall2NumberPart04)
  {
  }

  lemma DanglingNotInHall2Number05()
    ensures Avoids(Dangling.Values, Hall2NumberPart05)
  {
  }

  lemma DanglingNotInHall2Number06()
    ensures Avoids(Dangling.Values, Hall2NumberPart06)
  {
  }

  lemma DanglingNotInHall2Number07()
    ensures Avoids(Dangling.Values, Hall2NumberPart07)
  {
  }

  lemma DanglingNotInHall2Number08()
    ensures Avoids(Dangling.Values, Hall2NumberPart08)
  {
  }

  lemma DanglingNotInHall2Number09()
    ensures Avoids(Dangling.Values, Hall2NumberPart09)
  {
  }

  lemma DanglingNotInHall2Number10()
    ensures Avoids(Dangling.Values, Hall2NumberPart10)
  {
  }

  lemma DanglingNotInHall2Number11()
    ensures Avoids(Dangling.Values, Hall2NumberPart11)
  {
  }

  lemma DanglingNotInHall2Number12()
    ensures Avoids(Dangling.Values, Hall2NumberPart12)
  {
  }

  lemma DanglingNotInHall2Number13()
    ensures Avoids(Dangling.Values, Hall2NumberPart13)
  {
  }

  lemma DanglingNotInHall2Number14()
    ensures Avoids(Dangling.Values, Hall2NumberPart14)
  {
  }

  lemma DanglingNotInHall2Number15()
    ensures Avoids(Dangling.Values, Hall2NumberPart15)
  {
  }

  lemma DanglingNotInHall2Number16()
    ensures Avoids(Dangling.Values, Hall2NumberPart16)
  {
  }

  lemma DanglingNotInHall2Number17()
    ensures Avoids(Dangling.Values, Hall2NumberPart17)
  {
  }

  lemma DanglingNotInHall2Number18()
    ensures Avoids(Dangling.Values, Hall2NumberPart18)
  {
  }

  lemma DanglingNotInHall2Number19()
    ensures Avoids(Dangling.Values, Hall2NumberPart19)
  {
  }

  lemma DanglingNotInHall2Number20()
    ensures Avoids(Dangling.Values, Hall2NumberPart20)
  {
  }

  lemma DanglingNotInHall2Number21()
    ensures Avoids(Dangling.Values, Hall2NumberPart21)
  {
  }

  lemma DanglingNotInHall2Number22()
    ensures Avoids(Dangling.Values, Hall2NumberPart22)
  {
  }

  lemma DanglingNotInHall2Number23()
    ensures Avoids(Dangling.Values, Hall2NumberPart23)
  {
  }

  /** No dangling Hall symbol is a key of `Hall2Number`. */
  lemma {:induction false} DanglingNotInHall2Number()
    ensures Avoids(Dangling.Values, Hall2Number)
  {
    DanglingNotInHall2Number00();
    DanglingNotInHall2Number01();
    DanglingNotInHall2Number02();
    DanglingNotInHall2Number03();
    DanglingNotInHall2Number04();
    DanglingNotInHall2Number05();
    DanglingNotInHall2Number06();
    DanglingNotInHall2Number07();
    DanglingNotInHall2Number08();
    DanglingNotInHall2Number09();
    DanglingNotInHall2Number10();
    DanglingNotInHall2Number11();
    DanglingNotInHall2Number12();
    DanglingNotInHall2Number13();
    DanglingNotInHall2Number14();
    DanglingNotInHall2Number15();
    DanglingNotInHall2Number16();
    DanglingNotInHall2Number17();
    DanglingNotInHall2Number18();
    DanglingNotInHall2Number19();
    DanglingNotInHall2Number20();
    DanglingNotInHall2Number21();
    DanglingNotInHall2Number22();
    DanglingNotInHall2Number23();
    Hall2NumberAvoidedBy(Dangling.Values);
  }

  /** Only the group-70 spellings map to `"F 2 2 -1d"` in part 00. */
  lemma HM2HallPart00OnlyFddd()
    ensures GivesOnlyAt(HM2HallPart00, "F 2 2 -1d", FdddFinal.Keys)
  {
  }

  lemma HM2HallPart01OnlyFddd()
    ensures GivesOnlyAt(HM2HallPart01, "F 2 2 -1d", FdddFinal.Keys)
  {
  }

  lemma HM2HallPart02OnlyFddd()
    ensures GivesOnlyAt(HM2HallPart02, "F 2 2 -1d", FdddFinal.Keys)
  {
  }

  lemma HM2HallPart03OnlyFddd()
    ensures GivesOnlyAt(HM2HallPart03, "F 2 2 -1d", FdddFinal.Keys)
  {
  }

  lemma HM2HallPart04OnlyFddd()
    ensures GivesOnlyAt(HM2HallPart04, "F 2 2 -1d", FdddFinal.Keys)
  {
  }

  lemma HM2HallPart05OnlyFddd()
    ensures GivesOnlyAt(HM2HallPart05, "F 2 2 -1d", FdddFinal.Keys)
  {
  }

  lemma HM2HallPart06OnlyFddd()
    ensures GivesOnlyAt(HM2HallPart06, "F 2 2 -1d", FdddFinal.Keys)
  {
  }

  lemma HM2HallPart07OnlyFddd()
    ensures GivesOnlyAt(HM2HallPart07, "F 2 2 -1d", FdddFinal.Keys)
  {
  }

  lemma HM2HallPart08OnlyFddd()
    ensures GivesOnlyAt(HM2HallPart08, "F 2 2 -1d", FdddFinal.Keys)
  {
  }

  lemma HM2HallPart09OnlyFddd()
    ensures GivesOnlyAt(HM2HallPart09, "F 2 2 -1d", FdddFinal.Keys)
  {
  }

  lemma HM2HallPart10OnlyFddd()
    ensures GivesOnlyAt(HM2HallPart10, "F 2 2 -1d", FdddFinal.Keys)
  {
  }

  lemma HM2HallPart11OnlyFddd()
    ensures GivesOnlyAt(HM2HallPart11, "F 2 2 -1d", FdddFinal.Keys)
  {
  }

  lemma HM2HallPart12OnlyFddd()
    ensures GivesOnlyAt(HM2HallPart12, "F 2 2 -1d", FdddFinal.Keys)
  {
  }

  lemma HM2HallPart13OnlyFddd()
    ensures GivesOnlyAt(HM2HallPart13, "F 2 2 -1d", FdddFinal.Keys)
  {
  }

  lemma HM2HallPart14OnlyFddd()
    ensures GivesOnlyAt(HM2HallPart14, "F 2 2 -1d", FdddFinal.Keys)
  {
  }

  lemma HM2HallPart15OnlyFddd()
    ensures GivesOnlyAt(HM2HallPart15, "F 2 2 -1d", FdddFinal.Keys)
  {
  }

  lemma HM2HallPart16OnlyFddd()
    ensures GivesOnlyAt(HM2HallPart16, "F 2 2 -1d", FdddFinal.Keys)
  {
  }

  lemma HM2HallPart17OnlyFddd()
    ensures GivesOnlyAt(HM2HallPart17, "F 2 2 -1d", FdddFinal.Keys)
  {
  }

  lemma HM2HallPart18OnlyFddd()
    ensures GivesOnlyAt(HM2HallPart18, "F 2 2 -1d", FdddFinal.Keys)
  {
  }

  lemma HM2HallPart19OnlyFddd()
    ensures GivesOnlyAt(HM2HallPart19, "F 2 2 -1d", FdddFinal.Keys)
  {
  }

  lemma HM2HallPart20OnlyFddd()
    ensures GivesOnlyAt(HM2HallPart20, "F 2 2 -1d", FdddFinal.Keys)
  {
  }

  lemma HM2HallPart21OnlyFddd()
    ensures GivesOnlyAt(HM2HallPart21, "F 2 2 -1d", FdddFinal.Keys)
  {
  }

  lemma HM2HallPart22OnlyFddd()
    ensures GivesOnlyAt(HM2HallPart22, "F 2 2 -1d", FdddFinal.Keys)
  {
  }

  lemma HM2HallPart23OnlyFddd()
    ensures GivesOnlyAt(HM2HallPart23, "F 2 2 -1d", FdddFinal.Keys)
  {
  }

  lemma HM2HallPart24OnlyFddd()
    ensures GivesOnlyAt(HM2HallPart24, "F 2 2 -1d", FdddFinal.Keys)
  {
  }

  lemma HM2HallPart25OnlyFddd()
    ensures GivesOnlyAt(HM2HallPart25, "F 2 2 -1d", FdddFinal.Keys)
  {
  }

  lemma HM2HallPart26OnlyFddd()
    ensures GivesOnlyAt(HM2HallPart26, "F 2 2 -1d", FdddFinal.Keys)
  {
  }

  lemma HM2HallPart27OnlyFddd()
    ensures GivesOnlyAt(HM2HallPart27, "F 2 2 -1d", FdddFinal.Keys)
  {
  }

  lemma HM2HallPart28OnlyFddd()
    ensures GivesOnlyAt(HM2HallPart28, "F 2 2 -1d", FdddFinal.Keys)
  {
  }

  lemma HM2HallPart29OnlyFddd()
    ensures GivesOnlyAt(HM2HallPart29, "F 2 2 -1d", FdddFinal.Keys)
  {
  }

  lemma HM2HallPart30OnlyFddd()
    ensures GivesOnlyAt(HM2HallPart30, "F 2 2 -1d", FdddFinal.Keys)
  {
  }

  lemma HM2HallPart31OnlyFddd()
    ensures GivesOnlyAt(HM2HallPart31, "F 2 2 -1d", FdddFinal.Keys)
  {
  }

  lemma HM2HallPart32OnlyFddd()
    ensures GivesOnlyAt(HM2HallPart32, "F 2 2 -1d", FdddFinal.Keys)
  {
  }

  lemma HM2HallPart33OnlyFddd()
    ensures GivesOnlyAt(HM2HallPart33, "F 2 2 -1d", FdddFinal.Keys)
  {
  }

  lemma HM2HallPart34OnlyFddd()
    ensures GivesOnlyAt(HM2HallPart34, "F 2 2 -1d", FdddFinal.Keys)
  {
  }

  lemma HM2HallPart35OnlyFddd()
    ensures GivesOnlyAt(HM2HallPart35, "F 2 2 -1d", FdddFinal.Keys)
  {
  }

  lemma HM2HallPart36OnlyFddd()
    ensures GivesOnlyAt(HM2HallPart36, "F 2 2 -1d", FdddFinal.Keys)
  {
  }

  lemma HM2HallPart37OnlyFddd()
    ensures GivesOnlyAt(HM2HallPart37, "F 2 2 -1d", FdddFinal.Keys)
  {
  }

  lemma HM2HallPart38OnlyFddd()
    ensures GivesOnlyAt(HM2HallPart38, "F 2 2 -1d", FdddFinal.Keys)
  {
  }

  lemma HM2HallPart39OnlyFddd()
    ensures GivesOnlyAt(HM2HallPart39, "F 2 2 -1d", FdddFinal.Keys)
  {
  }

  lemma HM2HallPart40OnlyFddd()
    ensures GivesOnlyAt(HM2HallPart40, "F 2 2 -1d", FdddFinal.Keys)
  {
  }

  lemma HM2HallPart41OnlyFddd()
    ensures GivesOnlyAt(HM2HallPart41, "F 2 2 -1d", FdddFinal.Keys)
  {
  }

  lemma HM2HallPart42OnlyFddd()
    ensures GivesOnlyAt(HM2HallPart42, "F 2 2 -1d", FdddFinal.Keys)
  {
  }

  lemma HM2HallPart43OnlyFddd()
    ensures GivesOnlyAt(HM2HallPart43, "F 2 2 -1d", FdddFinal.Keys)
  {
  }

  lemma HM2HallPart44OnlyFddd()
    ensures GivesOnlyAt(HM2HallPart44, "F 2 2 -1d", FdddFinal.Keys)
  {
  }

  /** The last part maps nothing to `"F 2 2 -1d"`. */
  lemma HM2HallPart45NeverF222d()
    ensures NeverGives(HM2HallPart45, "F 2 2 -1d")
  {
  }

  /** Parts in which only `keys` map to `v` build a dict in which only `keys` map to `v`. */
  lemma {:induction false} HM2HallThrough07GivesOnlyAt(v: string, keys: set<string>)
    requires GivesOnlyAt(HM2HallPart00, v, keys)
    requires GivesOnlyAt(HM2HallPart01, v, keys)
    requires GivesOnlyAt(HM2HallPart02, v, keys)
    requires GivesOnlyAt(HM2HallPart03, v, keys)
    requires GivesOnlyAt(HM2HallPart04, v, keys)
    requires GivesOnlyAt(HM2HallPart05, v, keys)
    requires GivesOnlyAt(HM2HallPart06, v, keys)
    requires GivesOnlyAt(HM2HallPart07, v, keys)
    ensures GivesOnlyAt(HM2HallThrough07, v, keys)
  {
    GivesOnlyAtUnion(HM2HallThrough00, HM2HallPart01, v, keys);
    GivesOnlyAtUnion(HM2HallThrough01, HM2HallPart02, v, keys);
    GivesOnlyAtUnion(HM2HallThrough02, HM2HallPart03, v, keys);
    GivesOnlyAtUnion(HM2HallThrough03, HM2HallPart04, v, keys);
    GivesOnlyAtUnion(HM2HallThrough04, HM2HallPart05, v, keys);
    GivesOnlyAtUnion(HM2HallThrough05, HM2HallPart06, v, keys);
    GivesOnlyAtUnion(HM2HallThrough06, HM2HallPart07, v, keys);
  }

  lemma {:induction false} HM2HallThrough15GivesOnlyAt(v: string, keys: set<string>)
    requires GivesOnlyAt(HM2HallThrough07, v, keys)
    requires GivesOnlyAt(HM2HallPart08, v, keys)
    requires GivesOnlyAt(HM2HallPart09, v, keys)
    requires GivesOnlyAt(HM2HallPart10, v, keys)
    requires GivesOnlyAt(HM2HallPart11, v, keys)
    requires GivesOnlyAt(HM2HallPart12, v, keys)
    requires GivesOnlyAt(HM2HallPart13, v, keys)
    requires GivesOnlyAt(HM2HallPart14, v, keys)
    requires GivesOnlyAt(HM2HallPart15, v, keys)
    ensures GivesOnlyAt(HM2HallThrough15, v, keys)
  {
    GivesOnlyAtUnion(HM2HallThrough07, HM2HallPart08, v, keys);
    GivesOnlyAtUnion(HM2HallThrough08, HM2HallPart09, v, keys);
    GivesOnlyAtUnion(HM2HallThrough09, HM2HallPart10, v, keys);
    GivesOnlyAtUnion(HM2HallThrough10, HM2HallPart11, v, keys);
    GivesOnlyAtUnion(HM2HallThrough11, HM2HallPart12, v, keys);
    GivesOnlyAtUnion(HM2HallThrough12, HM2HallPart13, v, keys);
    GivesOnlyAtUnion(HM2HallThrough13, HM2HallPart14, v, keys);
    GivesOnlyAtUnion(HM2HallThrough14, HM2HallPart15, v, keys);
  }

  lemma {:induction false} HM2HallThrough23GivesOnlyAt(v: string, keys: set<string>)
    requires GivesOnlyAt(HM2HallThrough15, v, keys)
    requires GivesOnlyAt(HM2HallPart16, v, keys)
    requires GivesOnlyAt(HM2HallPart17, v, keys)
    requires GivesOnlyAt(HM2HallPart18, v, keys)
    requires GivesOnlyAt(HM2HallPart19, v, keys)
    requires GivesOnlyAt(HM2HallPart20, v, keys)
    requires GivesOnlyAt(HM2HallPart21, v, keys)
    requires GivesOnlyAt(HM2HallPart22, v, keys)
    requires GivesOnlyAt(HM2HallPart23, v, keys)
    ensures GivesOnlyAt(HM2HallThrough23, v, keys)
  {
    GivesOnlyAtUnion(HM2HallThrough15, HM2HallPart16, v, keys);
    GivesOnlyAtUnion(HM2HallThrough16, HM2HallPart17, v, keys);
    GivesOnlyAtUnion(HM2HallThrough17, HM2HallPart18, v, keys);
    GivesOnlyAtUnion(HM2HallThrough18, HM2HallPart19, v, keys);
    GivesOnlyAtUnion(HM2HallThrough19, HM2HallPart20, v, keys);
    GivesOnlyAtUnion(HM2HallThrough20, HM2HallPart21, v, keys);
    GivesOnlyAtUnion(HM2HallThrough21, HM2HallPart22, v, keys);
    GivesOnlyAtUnion(HM2HallThrough22, HM2HallPart23, v, keys);
  }

  lemma {:induction false} HM2HallThrough31GivesOnlyAt(v: string, keys: set<string>)
    requires GivesOnlyAt(HM2HallThrough23, v, keys)
    requires GivesOnlyAt(HM2HallPart24, v, keys)
    requires GivesOnlyAt(HM2HallPart25, v, keys)
    requires GivesOnlyAt(HM2HallPart26, v, keys)
    requires GivesOnlyAt(HM2HallPart27, v, keys)
    requires GivesOnlyAt(HM2HallPart28, v, keys)
    requires GivesOnlyAt(HM2HallPart29, v, keys)
    requires GivesOnlyAt(HM2HallPart30, v, keys)
    requires GivesOnlyAt(HM2HallPart31, v, keys)
    ensures GivesOnlyAt(HM2HallThrough31, v, keys)
  {
    GivesOnlyAtUnion(HM2HallThrough23, HM2HallPart24, v, keys);
    GivesOnlyAtUnion(HM2HallThrough24, HM2HallPart25, v, keys);
    GivesOnlyAtUnion(HM2HallThrough25, HM2HallPart26, v, keys);
    GivesOnlyAtUnion(HM2HallThrough26, HM2HallPart27, v, keys);
    GivesOnlyAtUnion(HM2HallThrough27, HM2HallPart28, v, keys);
    GivesOnlyAtUnion(HM2HallThrough28, HM2HallPart29, v, keys);
    GivesOnlyAtUnion(HM2HallThrough29, HM2HallPart30, v, keys);
    GivesOnlyAtUnion(HM2HallThrough30, HM2HallPart31, v, keys);
  }

  lemma {:induction false} HM2HallThrough39GivesOnlyAt(v: string, keys: set<string>)
    requires GivesOnlyAt(HM2HallThrough31, v, keys)
    requires GivesOnlyAt(HM2HallPart32, v, keys)
    requires GivesOnlyAt(HM2HallPart33, v, keys)
    requires GivesOnlyAt(HM2HallPart34, v, keys)
    requires GivesOnlyAt(HM2HallPart35, v, keys)
    requires GivesOnlyAt(HM2HallPart36, v, keys)
    requires GivesOnlyAt(HM2HallPart37, v, keys)
    requires GivesOnlyAt(HM2HallPart38, v, keys)
    requires GivesOnlyAt(HM2HallPart39, v, keys)
    ensures GivesOnlyAt(HM2HallThrough39, v, keys)
  {
    GivesOnlyAtUnion(HM2HallThrough31, HM2HallPart32, v, keys);
    GivesOnlyAtUnion(HM2HallThrough32, HM2HallPart33, v, keys);
    GivesOnlyAtUnion(HM2HallThrough33, HM2HallPart34, v, keys);
    GivesOnlyAtUnion(HM2HallThrough34, HM2HallPart35, v, keys);
    GivesOnlyAtUnion(HM2HallThrough35, HM2HallPart36, v, keys);
    GivesOnlyAtUnion(HM2HallThrough36, HM2HallPart37, v, keys);
    GivesOnlyAtUnion(HM2HallThrough37, HM2HallPart38, v, keys);
    GivesOnlyAtUnion(HM2HallThrough38, HM2HallPart39, v, keys);
  }

  lemma {:induction false} HM2HallThrough44GivesOnlyAt(v: string, keys: set<string>)
    requires GivesOnlyAt(HM2HallThrough39, v, keys)
    requires GivesOnlyAt(HM2HallPart40, v, keys)
    requires GivesOnlyAt(HM2HallPart41, v, keys)
    requires GivesOnlyAt(HM2HallPart42, v, keys)
    requires GivesOnlyAt(HM2HallPart43, v, keys)
    requires GivesOnlyAt(HM2HallPart44, v, keys)
    ensures GivesOnlyAt(HM2HallThrough44, v, keys)
  {
    GivesOnlyAtUnion(HM2HallThrough39, HM2HallPart40, v, keys);
    GivesOnlyAtUnion(HM2HallThrough40, HM2HallPart41, v, keys);
    GivesOnlyAtUnion(HM2HallThrough41, HM2HallPart42, v, keys);
    GivesOnlyAtUnion(HM2HallThrough42, HM2HallPart43, v, keys);
    GivesOnlyAtUnion(HM2HallThrough43, HM2HallPart44, v, keys);
  }

  /** No Hermann-Mauguin symbol maps to `"F 2 2 -1d"`: the four that did (lines 807-810) are given `"-F 2 2 -1d"` by lines 1355-1358. */
  lemma {:induction false} HM2HallNeverF222d()
    ensures NeverGives(HM2Hall, "F 2 2 -1d")
  {
    HM2HallPart00OnlyFddd();
    HM2HallPart01OnlyFddd();
    HM2HallPart02OnlyFddd();
    HM2HallPart03OnlyFddd();
    HM2HallPart04OnlyFddd();
    HM2HallPart05OnlyFddd();
    HM2HallPart06OnlyFddd();
    HM2HallPart07OnlyFddd();
    HM2HallThrough07GivesOnlyAt("F 2 2 -1d", FdddFinal.Keys);
    HM2HallPart08OnlyFddd();
    HM2HallPart09OnlyFddd();
    HM2HallPart10OnlyFddd();
    HM2HallPart11OnlyFddd();
    HM2HallPart12OnlyFddd();
    HM2HallPart13OnlyFddd();
    HM2HallPart14OnlyFddd();
    HM2HallPart15OnlyFddd();
    HM2HallThrough15GivesOnlyAt("F 2 2 -1d", FdddFinal.Keys);
    HM2HallPart16OnlyFddd();
    HM2HallPart17OnlyFddd();
    HM2HallPart18OnlyFddd();
    HM2HallPart19OnlyFddd();
    HM2HallPart20OnlyFddd();
    HM2HallPart21OnlyFddd();
    HM2HallPart22OnlyFddd();
    HM2HallPart23OnlyFddd();
    HM2HallThrough23GivesOnlyAt("F 2 2 -1d", FdddFinal.Keys);
    HM2HallPart24OnlyFddd();
    HM2HallPart25OnlyFddd();
    HM2HallPart26OnlyFddd();
    HM2HallPart27OnlyFddd();
    HM2HallPart28OnlyFddd();
    HM2HallPart29OnlyFddd();
    HM2HallPart30OnlyFddd();
    HM2HallPart31OnlyFddd();
    HM2HallThrough31GivesOnlyAt("F 2 2 -1d", FdddFinal.Keys);
    HM2HallPart32OnlyFddd();
    HM2HallPart33OnlyFddd();
    HM2HallPart34OnlyFddd();
    HM2HallPart35OnlyFddd();
    HM2HallPart36OnlyFddd();
    HM2HallPart37OnlyFddd();
    HM2HallPart38OnlyFddd();
    HM2HallPart39OnlyFddd();
    HM2HallThrough39GivesOnlyAt("F 2 2 -1d", FdddFinal.Keys);
    HM2HallPart40OnlyFddd();
    HM2HallPart41OnlyFddd();
    HM2HallPart42OnlyFddd();
    HM2HallPart43OnlyFddd();
    HM2HallPart44OnlyFddd();
    HM2HallThrough44GivesOnlyAt("F 2 2 -1d", FdddFinal.Keys);
    HM2HallPart45NeverF222d();
    FdddFinalIn45();
    GivesCovers(FdddFinal, HM2HallPart45);
    GivesOnlyAtOverridden(HM2HallThrough44, HM2HallPart45, "F 2 2 -1d", FdddFinal.Keys);
  }
}
