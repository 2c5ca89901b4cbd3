# Crystallographic and orbital constants of abacuskit, in Dafny

This project models `abacuskit/utils/constants.py`, the constants module of the
ABACUS test kit:

- the atomic-orbital angular-momentum helpers: the label of each angular
  momentum l = 0..4 (`s p d f g`), the LaTeX name of each orbital (l, m) for
  m = 0..2l, and the inverse lookup from label to l;
- the four space-group symbol tables, each a Python dict literal: `HM2Hall`
  (Hermann-Mauguin symbol to Hall symbol: 1046 entries written, 1038
  distinct keys), `Hall2Number` (Hall symbol to space-group number, 0 for
  `"Unknown"`: 557 entries, 553 keys), `Number2Hall` (the groups with a
  single standard setting, each with its Hall symbol: 140 entries, lines
  2171-2310) and `Hall2HM` (Hall symbol to Hermann-Mauguin symbol: 557
  entries, 553 keys);
- `CrySysNumber`, the range of space-group numbers of each of the seven
  crystal systems.

The tables are transcribed entry by entry, in source order. A Python dict
literal keeps the last value written for a repeated key, and a Dafny map
display does the same. `m + m'` keeps the value of `m'` where both have a key.
So each literal is written as consecutive parts (`HM2HallPart00`,
`HM2HallPart01`, ...), each a map display headed by the source lines it covers,
and the dict is their left-to-right union. `DictLiteral` gives the predicates
and lemmas that decide a lookup in such a union part by part:

- `Gives(expected, d)`: looking up each key of `expected` in `d` yields its value;
- `Avoids(keys, d)`: none of `keys` is a key of `d`;
- `SameOn(keys, a, b)`: `a` and `b` answer those lookups alike;
- `NeverGives(d, v)`: no key maps to `v`.

`Hall2NumberFacts` defines `Inverts(src, table)` (every number of `src` comes
back from `table` under its symbol) and `InvertsExcept(src, table, skip)` (the
same, except for `skip`).

Modules: `Wrappers` (Option), `DictLiteral`, `AngularMomentum`,
`CrystalSystem`, `HM2HallTable`, `Hall2NumberTable`, `Number2HallTable`,
`Hall2HMTable` (the transcribed dicts), `HM2HallFacts`, `Hall2NumberFacts`,
`Hall2HMFacts` (the facts proved part by part), and `SpaceGroup` (the same
facts spelled out key by key, and the crystal system of the numbers).

## Model

| member | source | states |
|---|---|---|
| AngularMomentum.Index | abacuskit/utils/constants.py:49-64 | `Some` exactly when the label is one of `s p d f g`, holding that label's position in `angular_momentum_label`; `None` (Python's implicit return) for every other string |
| AngularMomentum.Label | abacuskit/utils/constants.py:20-26 | the label of l in 0..4 is a one-letter entry of the label list, and `Index` maps it back to l |
| AngularMomentum.Name | abacuskit/utils/constants.py:39-46 | for l in 0..4 and m in 0..2l, the name is a `$...$` formula whose first letter is the label of l |
| AngularMomentum.NamesRowLengths | abacuskit/utils/constants.py:29-36 | the names table has one row per label, and row l has exactly 2l + 1 names |
| AngularMomentum.NameDomain | abacuskit/utils/constants.py:39-46 | m indexes row l exactly when 0 <= m <= 2l, the range the docstring documents |
| AngularMomentum.NamesShape | abacuskit/utils/constants.py:29-36 | every name starts with `$` and the label of its row and ends with `$` |
| AngularMomentum.LabelThenIndex | abacuskit/utils/constants.py:49-64 | index(label(l)) == l for every l in 0..4 |
| AngularMomentum.IndexThenLabel | abacuskit/utils/constants.py:20-26 | label(index(s)) == s for every label that the index lookup knows |
| AngularMomentum.IndexUnknown | abacuskit/utils/constants.py:49-64 | any label other than `s p d f g` gives `None`; "g" is accepted although the docstring lists only s, p, d, f |
| CrystalSystem.Arange | abacuskit/utils/constants.py:3115-3123 | `np.arange(start, stop, 1)` has stop - start elements (none when stop <= start), element i being start + i |
| CrystalSystem.ArangeContains | abacuskit/utils/constants.py:3115-3123 | n is in `arange(start, stop)` exactly when start <= n < stop |
| CrystalSystem.CrySysNumberRanges | abacuskit/utils/constants.py:3115-3123 | the dict has exactly the seven systems, system i holding `arange(Bounds[i], Bounds[i+1])` |
| CrystalSystem.CrySysNumberContiguous | abacuskit/utils/constants.py:3115-3123 | the ranges follow one another without gap: bounds strictly increase from 1 to 231 |
| CrystalSystem.CrystalSystemOf | abacuskit/utils/constants.py:3115-3123 | the crystal system of n is defined exactly for 1 <= n <= 230, and its range holds n |
| CrystalSystem.CrystalSystemUnique | abacuskit/utils/constants.py:3115-3123 | the ranges are disjoint: a number in the range of a system has that system and no other |
| CrystalSystem.CrySysNumberCovers | abacuskit/utils/constants.py:3115-3123 | some range holds n exactly when 1 <= n <= 230 |
| Hall2NumberTable.Hall2NumberInRange | abacuskit/utils/constants.py:1368-2167 | every value of `Hall2Number` is a group number 1-230, except that 0 is the value of `"Unknown"` and of no other key |
| Number2HallTable.Number2HallKeys | abacuskit/utils/constants.py:2170-2311 | every key of `Number2Hall` is a space-group number 1-230 |
| Hall2NumberFacts.Number2HallRoundTrip | abacuskit/utils/constants.py:2170-2311 | `Hall2Number` maps the symbol that `Number2Hall` gives each listed group back to that group, for every group but 212 |
| Hall2NumberFacts.Number2Hall212Missing | abacuskit/utils/constants.py:2296 | the symbol given for group 212, `P 4acd 2a 3`, is not a key of `Hall2Number` |
| Hall2NumberFacts.Number2HallPart20Is212 | abacuskit/utils/constants.py:2296 | part 20 of `Number2Hall` is the single entry `212: 'P 4acd 2a 3'` |
| Hall2NumberFacts.Number2Hall212AsWritten | abacuskit/utils/constants.py:2296 | as written, 212 is a key of `Number2Hall` whose symbol `Hall2Number` does not know |
| Hall2NumberFacts.Group212IntendedRoundTrip | abacuskit/utils/constants.py:2089 | `Hall2Number` gives 212 for `P 4acd 2ab 3`, the corrected symbol of group 212 |
| HM2HallFacts.P4332InHM2Hall | abacuskit/utils/constants.py:1247 | `HM2Hall` gives `P 4acd 2ab 3` for `P4332`, the Hermann-Mauguin symbol of group 212 |
| Hall2HMFacts.P4acd2ab3InHall2HM | abacuskit/utils/constants.py:3035 | `Hall2HM` gives `P4332` for `P 4acd 2ab 3` |
| Hall2NumberFacts.Number2HallCorrectedRoundTrip | abacuskit/utils/constants.py:2170-2311 | with group 212 corrected, the round trip number to symbol to number holds for every listed group |
| HM2HallFacts.B1a1InHM2Hall | abacuskit/utils/constants.py:179 | `HM2Hall` gives `B -2yc` for `B1a1` |
| HM2HallFacts.B121c1InHM2Hall | abacuskit/utils/constants.py:388 | `HM2Hall` gives `-B 2ybc` for `B121/c1` |
| HM2HallFacts.R3mHRInHM2Hall | abacuskit/utils/constants.py:1100 | `HM2Hall` gives `T 3 -2"` for `R3mHR` |
| HM2HallFacts.RBar3mHRInHM2Hall | abacuskit/utils/constants.py:1127 | `HM2Hall` gives `-T 3 2"` for `R-3mHR` |
| HM2HallFacts.DanglingNotInHall2Number | abacuskit/utils/constants.py:1368-2167 | none of those four Hall symbols is a key of `Hall2Number` |
| HM2HallFacts.Pcc2AliasIn03 | abacuskit/utils/constants.py:164 | the literal first gives `Pcc2` the group-7 symbol `P -2ab` |
| HM2HallFacts.Pcc2FinalInHM2Hall | abacuskit/utils/constants.py:491 | the dict keeps the later entry of `Pcc2`: `P 2 -2c` |
| HM2HallFacts.FdddAliasesIn28 | abacuskit/utils/constants.py:807-810 | the literal first gives `Fddd`, `Fddd:1`, `Fddd1`, `FdddS` the symbol `F 2 2 -1d` |
| HM2HallFacts.FdddFinalInHM2Hall | abacuskit/utils/constants.py:1355-1358 | the dict keeps their later entry, `-F 2 2 -1d` |
| HM2HallFacts.HM2HallNeverF222d | abacuskit/utils/constants.py:77-1365 | no key of `HM2Hall` maps to `F 2 2 -1d` |
| Hall2HMFacts.LastWinsInHall2HM | abacuskit/utils/constants.py:2705-2720 | `Hall2HM` keeps the later of the two entries of `C 2 2 -1bc`, `A 2 2 -1ac` and `B 2 2 -1bc` (`Cccb:1`, `Acaa:1`, `Bbab:1`), and gives `Fddd:1` for `F 2 2 -1d` |
| SpaceGroup.HMWithoutNumber | abacuskit/utils/constants.py:77-1365 | the chain from Hermann-Mauguin symbol through Hall symbol to number is partial: `B1a1`, `B121/c1`, `R3mHR` and `R-3mHR` are keys of `HM2Hall` whose Hall symbols are not keys of `Hall2Number` |
| SpaceGroup.NumberHallNumber | abacuskit/utils/constants.py:2170-2311 | for every key n of `Number2Hall` other than 212, `Number2Hall[n]` is a key of `Hall2Number` and maps back to n |
| SpaceGroup.CorrectedNumberHallNumber | abacuskit/utils/constants.py:2296 | with the entry of 212 corrected, that holds for every key |
| SpaceGroup.ListedGroupsHaveSystem | abacuskit/utils/constants.py:3115-3123 | every group that `Number2Hall` lists has a crystal system |
| SpaceGroup.NumbersHaveSystem | abacuskit/utils/constants.py:3115-3123 | every number in `Hall2Number` other than the 0 of `"Unknown"` has a crystal system |
| SpaceGroup.NoHMForF222d | abacuskit/utils/constants.py:1355-1358 | for every key of `HM2Hall`, the value is not `F 2 2 -1d`: the keys of lines 807-810 that had it are all given `-F 2 2 -1d` later, so the Hall symbol that `Hall2HM` sends to `Fddd:1` (line 2720) comes back from no Hermann-Mauguin symbol |
| SpaceGroup.Hall2HMLastWins | abacuskit/utils/constants.py:2705-2715 | for each repeated Hall symbol, `Hall2HM` holds the value of its later entry |

Each row's lemma is proved from lemmas about the parts of the literals; those
part lemmas have no rows of their own. They are named after their part:
`Number2HallPart07Home`, `Number2HallPart07NotIn22`, `B1a1In03`,
`HM2HallPart12OnlyFddd` and so on. The generic lemmas of `DictLiteral`,
`Hall2NumberFacts` (`InvertsTransfer`, `InvertsPatched`, ...) and `SpaceGroup`
(`GivesEntries`, `InvertsEntries`) combine those parts.

## Left out

- `BOHR_TO_A`, `Hartree_TO_eV` and `Rydberg_TO_eV` (lines 11-14) are not modelled. They are floating-point values read from `scipy.constants`.
- `LatticeType` (lines 66-74) is not modelled. It maps centring letters to descriptions, and nothing in the module uses it or states a property about it.
- Everything outside `abacuskit/utils/constants.py` is not part of this model, including `abacuskit/calculations/plugins/dis.py`.
- AngularMomentum.Label, AngularMomentum.Name: they require the documented domain (l in 0..4, m in 0..2l). Python's negative indices and its `IndexError` outside the list are not modelled.
- CrystalSystem.Arange: models `np.arange(start, stop, 1)` as a sequence of unbounded integers. The numpy array type and its integer width are not modelled.
- Hall symbols and Hermann-Mauguin symbols are opaque strings. Their syntax and their crystallographic meaning (the symmetry operations they encode) are not modelled.
- Lookups are stated as `k in d && d[k] == v`, or through `Gives`, not as lookup functions. Wrapping a whole table in a function makes every proof about it expand the whole literal.
- HM2HallFacts.Pcc2FinalInHM2Hall, HM2HallFacts.FdddFinalInHM2Hall: the entry each key keeps is stated with `Gives`, not key by key as in `SpaceGroup`, for the same reason.
- Relating all keys of `Hall2HM` to `Hall2Number` or to `HM2Hall` is not proved. That covers two facts: `Hall2HM` and `Hall2Number` have the same keys, and the round trip Hall symbol to Hermann-Mauguin symbol to Hall symbol fails only for `"Unknown"` and `"F 2 2 -1d"`. Only individual cases are proved (`SpaceGroup.NoHMForF222d`, `SpaceGroup.HMWithoutNumber`, `Hall2HMFacts.P4acd2ab3InHall2HM`).

## Findings

| source | as written | input that shows it | evidently intended | confidence | as-written member | corrected member |
|---|---|---|---|---|---|---|
| abacuskit/utils/constants.py:2296 | `Number2Hall[212] = 'P 4acd 2a 3'`, a symbol that is not a key of `Hall2Number` | group 212: `Hall2Number[Number2Hall[212]]` raises `KeyError` | `'P 4acd 2ab 3'`, the symbol that lines 1247, 2089 and 3035 use for group 212 (P4_332); `HM2HallFacts.P4332InHM2Hall`, `Hall2NumberFacts.Group212IntendedRoundTrip` and `Hall2HMFacts.P4acd2ab3InHall2HM` prove those three entries | not executed | Hall2NumberFacts.Number2Hall212AsWritten | Hall2NumberFacts.Number2HallCorrectedRoundTrip |
