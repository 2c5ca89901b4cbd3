/**
 * What a Python dict literal evaluates to, and how a lookup in it is decided.
 *
 * Python inserts the `key: value` entries of a literal from left to right, so
 * when a key is written more than once the last occurrence wins.  A Dafny map
 * display `map[k := v, ...]` follows the same rule, and `m + m'` keeps the
 * value of `m'` for a key both have.  A long literal is therefore written as
 * consecutive parts, each a map display, and the literal is the
 * left-to-right union of its parts.
 *
 * A lookup `d.get(h)` in such a union is decided by the last part that has
 * `h`.  The predicates below state that for a whole set of symbols at once:
 * a part `Avoids` the symbols (has none of them), `Covers` them (has all of
 * them), and two dicts are the `SameOn` them (answer every lookup of one of
 * them alike).  The lemmas combine those facts part by part.
 */
module DictLiteral {
  import opened Wrappers

  /** `d.get(k)`: the value of `k`, or `None` for a missing key. */
  function Get<K, V>(d: map<K, V>, k: K): (r: Option<V>)
    ensures r.Some? <==> k in d
    ensures r.Some? ==> d[k] == r.value
  {
    if k in d then Some(d[k]) else None
  }

  /** No symbol of `keys` is a key of `part`. */
  predicate Avoids<V>(keys: set<string>, part: map<string, V>) {
    forall h | h in part :: h !in keys
  }

  /** Every symbol of `keys` is a key of `part`. */
  predicate Covers<V>(keys: set<string>, part: map<string, V>) {
    forall h | h in keys :: h in part
  }

  /** `a` and `b` give the same answer to a lookup of any symbol of `keys`. */
  ghost predicate SameOn<V>(keys: set<string>, a: map<string, V>, b: map<string, V>) {
    forall h | h in keys :: Get(a, h) == Get(b, h)
  }

  /** A part that has none of the symbols leaves their lookups as they were. */
  lemma UnionKeeps<V>(keys: set<string>, before: map<string, V>, part: map<string, V>)
    requires Avoids(keys, part)
    ensures SameOn(keys, before + part, before)
  {
  }

  /** Agreement on the symbols is transitive. */
  lemma SameOnTrans<V>(keys: set<string>, a: map<string, V>, b: map<string, V>, c: map<string, V>)
    requires SameOn(keys, a, b) && SameOn(keys, b, c)
    ensures SameOn(keys, a, c)
  {
  }

  /** A union of two dicts that both avoid the symbols avoids them too. */
  lemma AvoidsUnion<V>(keys: set<string>, a: map<string, V>, b: map<string, V>)
    requires Avoids(keys, a) && Avoids(keys, b)
    ensures Avoids(keys, a + b)
  {
  }

  /** Looking up each key of `expected` in `d` gives its value in `expected`. */
  ghost predicate Gives<V>(expected: map<string, V>, d: map<string, V>) {
    forall h | h in expected :: Get(d, h) == Some(expected[h])
  }

  /** What a part gives, a dict that agrees with the part on those keys gives too. */
  lemma GivesTransfer<V>(expected: map<string, V>, whole: map<string, V>, part: map<string, V>)
    requires SameOn(expected.Keys, whole, part)
    requires Gives(expected, part)
    ensures Gives(expected, whole)
  {
    forall h | h in expected
      ensures Get(whole, h) == Some(expected[h])
    {
      assert h in expected.Keys;
    }
  }

  /** What the last part of a union gives, the union gives. */
  lemma GivesUnionRight<V>(expected: map<string, V>, before: map<string, V>, part: map<string, V>)
    requires Gives(expected, part)
    ensures Gives(expected, before + part)
  {
    forall h | h in expected
      ensures Get(before + part, h) == Some(expected[h])
    {
      assert Get(part, h) == Some(expected[h]);
    }
  }

  /** Two lists of expected answers that a dict gives combine into one. */
  lemma GivesJoin<V>(e1: map<string, V>, e2: map<string, V>, d: map<string, V>)
    requires Gives(e1, d) && Gives(e2, d)
    ensures Gives(e1 + e2, d)
  {
  }

  /** No key of `d` maps to `v`. */
  ghost predicate NeverGives<V>(d: map<string, V>, v: V) {
    forall h | h in d :: d[h] != v
  }

  /** Only keys in `keys` map to `v` in `d`. */
  ghost predicate GivesOnlyAt<V>(d: map<string, V>, v: V, keys: set<string>) {
    forall h | h in d && d[h] == v :: h in keys
  }

  lemma GivesOnlyAtUnion<V>(a: map<string, V>, b: map<string, V>, v: V, keys: set<string>)
    requires GivesOnlyAt(a, v, keys) && GivesOnlyAt(b, v, keys)
    ensures GivesOnlyAt(a + b, v, keys)
  {
  }

  /** Keys looked up successfully are keys of the dict. */
  lemma GivesCovers<V>(expected: map<string, V>, d: map<string, V>)
    requires Gives(expected, d)
    ensures Covers(expected.Keys, d)
  {
    forall h | h in expected.Keys
      ensures h in d
    {
      assert Get(d, h) == Some(expected[h]);
    }
  }

  /**
   * The keys of `expected` are keys of `d`, and what `d` gives for them is not
   * a key of `next`: looking them up in `d` and then in `next` finds nothing.
   */
  lemma GivesDangling<W>(expected: map<string, string>, d: map<string, string>, next: map<string, W>)
    requires Gives(expected, d)
    requires Avoids(expected.Values, next)
    ensures forall h | h in expected :: h in d && d[h] !in next
  {
    forall h | h in expected
      ensures h in d && d[h] !in next
    {
      assert Get(d, h) == Some(expected[h]);
      assert expected[h] in expected.Values;
    }
  }

  /** A later part that has every key mapping to `v`, and maps none to `v`, rules `v` out of the union. */
  lemma GivesOnlyAtOverridden<V>(a: map<string, V>, b: map<string, V>, v: V, keys: set<string>)
    requires GivesOnlyAt(a, v, keys) && Covers(keys, b) && NeverGives(b, v)
    ensures NeverGives(a + b, v)
  {
  }
}
