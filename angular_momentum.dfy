/**
 * The atomic-orbital angular-momentum helpers of abacuskit/utils/constants.py
 * (lines 17-64): the label of each angular momentum l = 0..4, the display name
 * of each orbital (l, m) with m = 0..2l, and the inverse lookup from label to l.
 *
 * Python strings are modelled as `string`; the Python `None` that
 * `get_angular_momentum_index` falls through to for an unknown label is `None`.
 */
module AngularMomentum {
  import opened Wrappers

  /** `angular_momentum_label`: the label of each angular momentum, indexed by l. */
  const Labels: seq<string> := ["s", "p", "d", "f", "g"]

  /** `angular_momentum_name`: row l holds the LaTeX names of the 2l + 1 orbitals of angular momentum l. */
  const Names: seq<seq<string>> := [
    ["$s$"],
    ["$p_x$", "$p_y$", "$p_z$"],
    ["$d_{3z^2-r^2}$", "$d_{xy}$", "$d_{xz}$", "$d_{x^2-y^2}$", "$d_{yz}$"],
    ["$f_{5z^2-3r^2}$", "$f_{5xz^2-xr^2}$", "$f_{5yz^2-yr^2}$",
     "$f_{zx^2-zy^2}$", "$f_{xyz}$", "$f_{x^3-3*xy^2}$", "$f_{3yx^2-y^3}$"],
    ["$g_1$", "$g_2$", "$g_3$", "$g_4$", "$g_5$", "$g_6$", "$g_7$", "$g_8$", "$g_9$"]
  ]

  /** An angular momentum the tables know: 0 (s) to 4 (g). */
  predicate ValidL(l: int) {
    0 <= l <= 4
  }

  /** `get_angular_momentum_index`: the l of a label, or `None` when the label is none of s, p, d, f, g. */
  function Index(symbol: string): (r: Option<int>)
    ensures r.Some? <==> symbol in Labels
    ensures r.Some? ==> ValidL(r.value) && Labels[r.value] == symbol
  {
    if symbol == "s" then Some(0)
    else if symbol == "p" then Some(1)
    else if symbol == "d" then Some(2)
    else if symbol == "f" then Some(3)
    else if symbol == "g" then Some(4)
    else None
  }

  /** `get_angular_momentum_label`: the label of angular momentum l, which `Index` maps back to l. */
  function Label(l: int): (r: string)
    requires ValidL(l)
    ensures r in Labels && |r| == 1
    ensures Index(r) == Some(l)
  {
    Labels[l]
  }

  /**
   * `get_angular_momentum_name`: the display name of orbital m of angular
   * momentum l.  Every name is a LaTeX formula, `$...$`, whose first letter is
   * the label of l.
   */
  function Name(l: int, m: int): (r: string)
    requires ValidL(l) && 0 <= m <= 2 * l
    ensures |r| >= 3 && r[0] == '$' && r[|r| - 1] == '$'
    ensures r[1] == Label(l)[0]
  {
    NamesShape(l, m);
    Names[l][m]
  }

  /** Row l of the names table has exactly 2l + 1 entries, one per magnetic quantum number m = 0..2l. */
  lemma NamesRowLengths()
    ensures |Names| == |Labels|
    ensures forall l | ValidL(l) :: |Names[l]| == 2 * l + 1
  {
  }

  /** `Name(l, m)` is defined exactly for 0 <= m <= 2l: m indexes row l precisely in that range. */
  lemma NameDomain(l: int, m: int)
    requires ValidL(l)
    ensures 0 <= m < |Names[l]| <==> 0 <= m <= 2 * l
  {
    NamesRowLengths();
  }

  /** Each name is `$`, the label of its row, some text, and `$`. */
  lemma NamesShape(l: int, m: int)
    requires ValidL(l) && 0 <= m <= 2 * l
    ensures |Names[l][m]| >= 3
    ensures Names[l][m][0] == '$' && Names[l][m][|Names[l][m]| - 1] == '$'
    ensures Names[l][m][1] == Labels[l][0]
  {
    NamesRowLengths();
  }

  /** index(label(l)) == l for every l in 0..4. */
  lemma LabelThenIndex()
    ensures forall l | ValidL(l) :: Index(Label(l)) == Some(l)
  {
  }

  /** label(index(s)) == s for every label that `Index` knows. */
  lemma IndexThenLabel(symbol: string)
    ensures Index(symbol).Some? ==> Label(Index(symbol).value) == symbol
  {
  }

  /**
   * `Index` finds nothing for any label outside s, p, d, f, g (the lookup
   * accepts "g" although the comment at line 52 lists only s, p, d, f).
   */
  lemma IndexUnknown(symbol: string)
    requires symbol !in {"s", "p", "d", "f", "g"}
    ensures Index(symbol) == None
  {
  }
}
