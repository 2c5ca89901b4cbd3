/**
 * How the four symbol tables of abacuskit/utils/constants.py fit together, as
 * a caller chaining `d[k]` lookups sees it: Hermann-Mauguin symbol to Hall
 * symbol (`HM2Hall`), Hall symbol to space-group number (`Hall2Number`),
 * number to Hall symbol (`Number2Hall`), and Hall symbol to Hermann-Mauguin
 * symbol (`Hall2HM`), and the crystal system of the numbers they hold.
 *
 * Each theorem spells out, key by key, a fact proved part by part about the
 * dict literals in the modules it imports.
 */
module SpaceGroup {
  import opened Wrappers
  import opened DictLiteral
  import opened HM2HallTable
  import opened Hall2NumberTable
  import opened Number2HallTable
  import opened Hall2HMTable
  import opened HM2HallFacts
  import opened Hall2NumberFacts
  import opened Hall2HMFacts
  import opened CrystalSystem

  /** A dict gives its expected answers exactly when each of their keys is a key with the expected value. */
  lemma GivesEntries<V>(expected: map<string, V>, d: map<string, V>)
    requires Gives(expected, d)
    ensures forall h | h in expected :: h in d && d[h] == expected[h]
  {
    forall h | h in expected
      ensures h in d && d[h] == expected[h]
    {
      assert Get(d, h) == Some(expected[h]);
    }
  }

  /** A round trip through `table`, spelled out key by key. */
  lemma InvertsEntries(src: map<int, string>, table: map<string, int>, skip: int)
    requires InvertsExcept(src, table, skip)
    ensures forall n | n in src && n != skip :: src[n] in table && table[src[n]] == n
  {
    forall n | n in src && n != skip
      ensures src[n] in table && table[src[n]] == n
    {
      assert Get(table, src[n]) == Some(n);
    }
  }

  /**
   * The chain from Hermann-Mauguin symbol to number is partial: `"B1a1"`,
   * `"B121/c1"`, `"R3mHR"` and `"R-3mHR"` are keys of `HM2Hall` whose Hall
   * symbols are not keys of `Hall2Number`.
   */
  lemma {:induction false} HMWithoutNumber()
    ensures forall hm | hm in Dangling :: hm in HM2Hall && HM2Hall[hm] !in Hall2Number
  {
    DanglingInHM2Hall();
    DanglingNotInHall2Number();
    GivesDangling(Dangling, HM2Hall, Hall2Number);
  }

  /** `Hall2Number` maps the symbol that `Number2Hall` gives each listed group back to the group, except for 212. */
  lemma {:induction false} NumberHallNumber()
    ensures forall n | n in Number2Hall && n != 212 :: Number2Hall[n] in Hall2Number && Hall2Number[Number2Hall[n]] == n
  {
    Number2HallRoundTrip();
    InvertsEntries(Number2Hall, Hall2Number, 212);
  }

  /** With the entry of group 212 corrected, the round trip holds for every listed group. */
  lemma {:induction false} CorrectedNumberHallNumber()
    ensures forall n | n in Number2HallCorrected :: Number2HallCorrected[n] in Hall2Number && Hall2Number[Number2HallCorrected[n]] == n
  {
    Number2HallCorrectedRoundTrip();
    InvertsEntries(Number2HallCorrected, Hall2Number, 0);
  }

  /** Every group that `Number2Hall` lists has a crystal system in `CrySysNumber`. */
  lemma {:induction false} ListedGroupsHaveSystem()
    ensures forall n | n in Number2Hall :: CrystalSystemOf(n).Some?
  {
    Number2HallKeys();
  }

  /** Every number `Hall2Number` gives, other than the 0 of `"Unknown"`, has a crystal system in `CrySysNumber`. */
  lemma {:induction false} NumbersHaveSystem()
    ensures forall h | h in Hall2Number && h != "Unknown" :: CrystalSystemOf(Hall2Number[h]).Some?
  {
    Hall2NumberInRange();
  }

  /** No Hermann-Mauguin symbol maps to `"F 2 2 -1d"`: the four that did (lines 807-810) are remapped by lines 1355-1358. */
  lemma {:induction false} NoHMForF222d()
    ensures forall hm | hm in HM2Hall :: HM2Hall[hm] != "F 2 2 -1d"
  {
    HM2HallNeverF222d();
  }

  /** The Hall symbols written twice in `Hall2HM` (lines 2705-2715) keep their later entry. */
  lemma {:induction false} Hall2HMLastWins()
    ensures forall hall | hall in LastWins :: hall in Hall2HM && Hall2HM[hall] == LastWins[hall]
  {
    LastWinsInHall2HM();
    GivesEntries(LastWins, Hall2HM);
  }
}
