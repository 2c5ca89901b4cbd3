/**
 * `CrySysNumber` of abacuskit/utils/constants.py (lines 3115-3123): the
 * space-group numbers belonging to each of the seven crystal systems, each an
 * `np.arange(start, stop, 1)`, that is the integers start, ..., stop - 1.
 *
 * The seven ranges follow one another without gap or overlap and together
 * cover the space-group numbers 1..230, so every space group has exactly one
 * crystal system.
 */
module CrystalSystem {
  import opened Wrappers

  /** `np.arange(start, stop, 1)` on integers: start, start + 1, ..., stop - 1, empty when stop <= start. */
  function Arange(start: int, stop: int): (r: seq<int>)
    ensures |r| == if start <= stop then stop - start else 0
    ensures forall i | 0 <= i < |r| :: r[i] == start + i
  {
    if start <= stop then seq(stop - start, i => start + i) else []
  }

  /** n is in `Arange(start, stop)` exactly when start <= n < stop. */
  lemma ArangeContains(start: int, stop: int, n: int)
    ensures n in Arange(start, stop) <==> start <= n < stop
  {
    var r := Arange(start, stop);
    if start <= n < stop {
      assert r[n - start] == n;
    }
  }

  /** The seven crystal systems, in the order of the dict literal. */
  const Systems: seq<string> :=
    ["triclinic", "monoclinic", "orthorhombic", "tetragonal", "trigonal", "hexagonal", "cubic"]

  /** `CrySysNumber`: the space-group numbers of each crystal system. */
  const CrySysNumber: map<string, seq<int>> := map[
    "triclinic" := Arange(1, 3),
    "monoclinic" := Arange(3, 16),
    "orthorhombic" := Arange(16, 75),
    "tetragonal" := Arange(75, 143),
    "trigonal" := Arange(143, 168),
    "hexagonal" := Arange(168, 195),
    "cubic" := Arange(195, 231)
  ]

  /** The first space-group number of each system, and 231 past the last. */
  const Bounds: seq<int> := [1, 3, 16, 75, 143, 168, 195, 231]

  /** The dict holds exactly the seven systems, system i holding the numbers from Bounds[i] to Bounds[i + 1] - 1. */
  lemma CrySysNumberRanges()
    ensures CrySysNumber.Keys == set s | s in Systems
    ensures forall i | 0 <= i < |Systems| :: CrySysNumber[Systems[i]] == Arange(Bounds[i], Bounds[i + 1])
  {
  }

  /**
   * The ranges are contiguous: each starts where the previous one stops, the
   * first at 1 and the last stops at 231.
   */
  lemma CrySysNumberContiguous()
    ensures |Bounds| == |Systems| + 1
    ensures Bounds[0] == 1 && Bounds[|Systems|] == 231
    ensures forall i | 0 <= i < |Systems| :: Bounds[i] < Bounds[i + 1]
  {
  }

  /**
   * The crystal system of space group n: the system whose range holds n, or
   * `None` when n is outside 1..230.
   */
  function CrystalSystemOf(n: int): (r: Option<string>)
    ensures r.Some? <==> 1 <= n <= 230
    ensures r.Some? ==> r.value in CrySysNumber && n in CrySysNumber[r.value]
  {
    ArangeContains(1, 3, n);
    ArangeContains(3, 16, n);
    ArangeContains(16, 75, n);
    ArangeContains(75, 143, n);
    ArangeContains(143, 168, n);
    ArangeContains(168, 195, n);
    ArangeContains(195, 231, n);
    if n < 1 then None
    else if n < 3 then Some("triclinic")
    else if n < 16 then Some("monoclinic")
    else if n < 75 then Some("orthorhombic")
    else if n < 143 then Some("tetragonal")
    else if n < 168 then Some("trigonal")
    else if n < 195 then Some("hexagonal")
    else if n < 231 then Some("cubic")
    else None
  }

  /** The ranges are disjoint: a number lies in the range of at most one system, the one `CrystalSystemOf` names. */
  lemma {:induction false} CrystalSystemUnique(system: string, n: int)
    requires system in CrySysNumber && n in CrySysNumber[system]
    ensures CrystalSystemOf(n) == Some(system)
  {
    CrySysNumberRanges();
    var i :| 0 <= i < |Systems| && Systems[i] == system;
    ArangeContains(Bounds[i], Bounds[i + 1], n);
  }

  /** Every number in the dict is a space-group number 1..230, and every one of 1..230 is in some range. */
  lemma {:induction false} CrySysNumberCovers(n: int)
    ensures (exists s | s in CrySysNumber :: n in CrySysNumber[s]) <==> 1 <= n <= 230
  {
    var r := CrystalSystemOf(n);
    if r.Some? {
      assert r.value in CrySysNumber && n in CrySysNumber[r.value];
    } else if s :| s in CrySysNumber && n in CrySysNumber[s] {
      CrystalSystemUnique(s, n);
    }
  }
}
