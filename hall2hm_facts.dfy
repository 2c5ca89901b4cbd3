/**
 * What the keys that the literal of `Hall2HM` repeats come to
 * (abacuskit/utils/constants.py, lines 2705-2715): the later of the two entries
 * wins, as it does in Python.  Also the entry of the Hall symbol of group 212
 * (line 3035).
 */
module Hall2HMFacts {
  import opened DictLiteral
  import opened Hall2HMTable

  /**
   * The entries that the dict keeps for the three Hall symbols written twice
   * with different values (lines 2707, 2711, 2715), and for `"F 2 2 -1d"`
   * (line 2720).
   */
  const LastWins: map<string, string> := map["C 2 2 -1bc" := "Cccb:1", "A 2 2 -1ac" := "Acaa:1", "B 2 2 -1bc" := "Bbab:1", "F 2 2 -1d" := "Fddd:1"]

  /** The entry of `"P 4acd 2ab 3"`, the Hall symbol of group 212 (line 3035). */
  const P4acd2ab3: map<string, string> := map["P 4acd 2ab 3" := "P4332"]

  /** Part 15 gives the entries of `LastWins`. */
  lemma LastWinsIn15()
    ensures Gives(LastWins, Hall2HMPart15)
  {
  }

  lemma LastWinsNotIn16()
    ensures Avoids(LastWins.Keys, Hall2HMPart16)
  {
  }

  lemma LastWinsNotIn17()
    ensures Avoids(LastWins.Keys, Hall2HMPart17)
  {
  }

  lemma LastWinsNotIn18()
    ensures Avoids(LastWins.Keys, Hall2HMPart18)
  {
  }

  lemma LastWinsNotIn19()
    ensures Avoids(LastWins.Keys, Hall2HMPart19)
  {
  }

  lemma LastWinsNotIn20()
    ensures Avoids(LastWins.Keys, Hall2HMPart20)
  {
  }

  lemma LastWinsNotIn21()
    ensures Avoids(LastWins.Keys, Hall2HMPart21)
  {
  }

  lemma LastWinsNotIn22()
    ensures Avoids(LastWins.Keys, Hall2HMPart22)
  {
  }

  lemma LastWinsNotIn23()
    ensures Avoids(LastWins.Keys, Hall2HMPart23)
  {
  }

  /** The dict keeps the later entry of each repeated Hall symbol. */
  lemma {:induction false} LastWinsInHall2HM()
    ensures Gives(LastWins, Hall2HM)
  {
    LastWinsNotIn16();
    LastWinsNotIn17();
    LastWinsNotIn18();
    LastWinsNotIn19();
    LastWinsNotIn20();
    LastWinsNotIn21();
    LastWinsNotIn22();
    LastWinsNotIn23();
    LastWinsIn15();
    GivesUnionRight(LastWins, Hall2HMThrough14, Hall2HMPart15);
    Hall2HMDecidedBy15(LastWins.Keys);
    GivesTransfer(LastWins, Hall2HM, Hall2HMThrough15);
  }

  /** Part 22 gives the entry of `P4acd2ab3`. */
  lemma P4acd2ab3In22()
    ensures Gives(P4acd2ab3, Hall2HMPart22)
  {
  }

  lemma P4acd2ab3NotIn23()
    ensures Avoids(P4acd2ab3.Keys, Hall2HMPart23)
  {
  }

  /** The dict gives `"P4332"` for the Hall symbol of group 212. */
  lemma {:induction false} P4acd2ab3InHall2HM()
    ensures Gives(P4acd2ab3, Hall2HM)
  {
    P4acd2ab3NotIn23();
    P4acd2ab3In22();
    GivesUnionRight(P4acd2ab3, Hall2HMThrough21, Hall2HMPart22);
    Hall2HMDecidedBy22(P4acd2ab3.Keys);
    GivesTransfer(P4acd2ab3, Hall2HM, Hall2HMThrough22);
  }
}
