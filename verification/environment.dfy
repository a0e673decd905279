/** A process environment as the action sees it: an object whose string keys
    keep their insertion order. Assigning an existing key replaces its value in
    place; assigning a new key appends it; `{...a, ...b}` assigns the pairs of
    `b` onto `a` one after the other. */
module Environment {
  import opened Results

  /** Name/value pairs in key order. */
  type Env = seq<(string, string)>

  function Keys(e: Env): (ks: seq<string>)
    ensures |ks| == |e|
    ensures forall i :: 0 <= i < |e| ==> ks[i] == e[i].0
  {
    seq(|e|, i requires 0 <= i < |e| => e[i].0)
  }

  /** No key occurs twice, as in any JavaScript object. */
  predicate UniqueKeys(e: Env) {
    forall i, j :: 0 <= i < j < |e| ==> e[i].0 != e[j].0
  }

  /** `e[k]`: the value of the last pair named `k`, if there is one. */
  function Lookup(e: Env, k: string): (r: Option<string>)
    ensures r.Some? <==> k in Keys(e)
  {
    if |e| == 0 then None
    else
      assert Keys(e) == Keys(e[..|e| - 1]) + [e[|e| - 1].0];
      if e[|e| - 1].0 == k then Some(e[|e| - 1].1)
      else Lookup(e[..|e| - 1], k)
  }

  /** Replaces the value of every pair named `k` by `v`, keeping positions. */
  function Overwrite(e: Env, k: string, v: string): (r: Env)
    ensures |r| == |e|
    ensures forall i :: 0 <= i < |e| ==> r[i] == (if e[i].0 == k then (k, v) else e[i])
  {
    seq(|e|, i requires 0 <= i < |e| => if e[i].0 == k then (k, v) else e[i])
  }

  /** `e[k] = v`. */
  function Assign(e: Env, k: string, v: string): Env {
    if k in Keys(e) then Overwrite(e, k, v) else e + [(k, v)]
  }

  /** `{...base, ...e}`: the pairs of `e` assigned onto `base` in order, so a
      later pair wins over an earlier one with the same key. */
  function Spread(base: Env, e: Env): Env
    decreases |e|
  {
    if |e| == 0 then base
    else Assign(Spread(base, e[..|e| - 1]), e[|e| - 1].0, e[|e| - 1].1)
  }

  /** Position of the first occurrence of `x` in `s`. */
  function FirstIndex(s: seq<string>, x: string): (i: nat)
    requires x in s
    ensures i < |s| && s[i] == x && x !in s[..i]
  {
    if s[0] == x then 0
    else
      var i := 1 + FirstIndex(s[1..], x);
      assert s[..i] == [s[0]] + s[1..][..i - 1];
      i
  }

  lemma KeysSnoc(e: Env)
    requires |e| > 0
    ensures Keys(e) == Keys(e[..|e| - 1]) + [e[|e| - 1].0]
  {
  }

  /** The first occurrence is the only index with the defining property. */
  lemma FirstIndexUnique(s: seq<string>, x: string, i: nat)
    requires i < |s| && s[i] == x && x !in s[..i]
    ensures FirstIndex(s, x) == i
  {
  }

  /** Appending elements does not move the first occurrence of an element already present. */
  lemma FirstIndexAppend(s: seq<string>, extra: seq<string>, x: string)
    requires x in s
    ensures x in s + extra
    ensures FirstIndex(s + extra, x) == FirstIndex(s, x)
  {
    var f := FirstIndex(s, x);
    assert (s + extra)[..f] == s[..f];
    FirstIndexUnique(s + extra, x, f);
  }

  /** In a list without repetitions, the first occurrence is the occurrence. */
  lemma FirstIndexDistinct(s: seq<string>, i: nat)
    requires forall p, q :: 0 <= p < q < |s| ==> s[p] != s[q]
    requires i < |s|
    ensures FirstIndex(s, s[i]) == i
  {
    FirstIndexUnique(s, s[i], i);
  }

  lemma {:induction false} OverwriteLookup(e: Env, k: string, v: string, j: string)
    ensures Lookup(Overwrite(e, k, v), j) == if j == k && k in Keys(e) then Some(v) else Lookup(e, j)
  {
    if |e| > 0 {
      var n := |e| - 1;
      assert Overwrite(e, k, v)[..n] == Overwrite(e[..n], k, v);
      OverwriteLookup(e[..n], k, v, j);
      KeysSnoc(e);
    }
  }

  /** After `e[k] = v`, reading `k` gives `v` and every other key reads as before. */
  lemma AssignLookup(e: Env, k: string, v: string, j: string)
    ensures Lookup(Assign(e, k, v), j) == if j == k then Some(v) else Lookup(e, j)
  {
    if k in Keys(e) {
      OverwriteLookup(e, k, v, j);
    } else {
      assert (e + [(k, v)])[..|e|] == e;
    }
  }

  /** Assignment keeps the key order and appends a key only when it is new. */
  lemma AssignKeys(e: Env, k: string, v: string)
    ensures Keys(Assign(e, k, v)) == if k in Keys(e) then Keys(e) else Keys(e) + [k]
  {
  }

  /** Assignment never creates a second pair with the same key. */
  lemma AssignUnique(e: Env, k: string, v: string)
    requires UniqueKeys(e)
    ensures UniqueKeys(Assign(e, k, v))
  {
    AssignKeys(e, k, v);
    var r := Assign(e, k, v);
    forall i, j | 0 <= i < j < |r|
      ensures r[i].0 != r[j].0
    {
      assert Keys(r)[i] == r[i].0 && Keys(r)[j] == r[j].0;
      if k !in Keys(e) && j == |e| {
        assert Keys(e)[i] == r[i].0;
      } else {
        assert Keys(e)[i] == r[i].0 && Keys(e)[j] == r[j].0;
      }
    }
  }

  /** Spreading one more pair assigns it after the others. */
  lemma SpreadSnoc(base: Env, e: Env, p: (string, string))
    ensures Spread(base, e + [p]) == Assign(Spread(base, e), p.0, p.1)
  {
    assert (e + [p])[..|e|] == e;
  }

  /** Reading a spread object: a key of `e` reads as in `e` (its last pair), any
      other key reads as in `base`. */
  lemma {:induction false} SpreadLookup(base: Env, e: Env, k: string)
    ensures Lookup(Spread(base, e), k) == if k in Keys(e) then Lookup(e, k) else Lookup(base, k)
    decreases |e|
  {
    if |e| > 0 {
      var n := |e| - 1;
      SpreadLookup(base, e[..n], k);
      AssignLookup(Spread(base, e[..n]), e[n].0, e[n].1, k);
      KeysSnoc(e);
    }
  }

  /** The keys of `base` come first, in their order, and the spread holds exactly
      the keys of `base` and of `e`. */
  lemma {:induction false} SpreadKeys(base: Env, e: Env)
    ensures |base| <= |Spread(base, e)|
    ensures Keys(Spread(base, e))[..|base|] == Keys(base)
    ensures forall k :: k in Keys(Spread(base, e)) <==> k in Keys(base) || k in Keys(e)
    decreases |e|
  {
    if |e| > 0 {
      var n := |e| - 1;
      var prev := Spread(base, e[..n]);
      SpreadKeys(base, e[..n]);
      AssignKeys(prev, e[n].0, e[n].1);
      KeysSnoc(e);
      var K := Keys(Spread(base, e));
      assert K[..|base|] == Keys(prev)[..|base|];
      forall k
        ensures k in K <==> k in Keys(base) || k in Keys(e)
      {
        assert k in K <==> k in Keys(prev) || k == e[n].0;
        assert k in Keys(e) <==> k in Keys(e[..n]) || k == e[n].0;
      }
    }
  }

  /** Spreading onto an object never duplicates a key. */
  lemma {:induction false} SpreadUnique(base: Env, e: Env)
    requires UniqueKeys(base)
    ensures UniqueKeys(Spread(base, e))
    decreases |e|
  {
    if |e| > 0 {
      var n := |e| - 1;
      SpreadUnique(base, e[..n]);
      AssignUnique(Spread(base, e[..n]), e[n].0, e[n].1);
    }
  }

  /** Keys that `e` adds to `base` appear in the order of their first occurrence in `e`. */
  lemma {:induction false} SpreadOrder(base: Env, e: Env, i: nat, j: nat)
    requires i < j < |Spread(base, e)|
    requires Keys(Spread(base, e))[i] !in Keys(base)
    requires Keys(Spread(base, e))[j] !in Keys(base)
    ensures Keys(Spread(base, e))[i] in Keys(e)
    ensures Keys(Spread(base, e))[j] in Keys(e)
    ensures FirstIndex(Keys(e), Keys(Spread(base, e))[i]) < FirstIndex(Keys(e), Keys(Spread(base, e))[j])
    decreases |e|
  {
    if |e| == 0 {
      assert false;
    } else {
      var n := |e| - 1;
      var prev := Spread(base, e[..n]);
      var k := e[n].0;
      var K := Keys(Spread(base, e));
      SpreadKeys(base, e);
      SpreadKeys(base, e[..n]);
      AssignKeys(prev, k, e[n].1);
      KeysSnoc(e);
      assert Keys(e) == Keys(e[..n]) + [k];
      if j < |prev| {
        assert K[i] == Keys(prev)[i] && K[j] == Keys(prev)[j];
        SpreadOrder(base, e[..n], i, j);
        FirstIndexAppend(Keys(e[..n]), [k], K[i]);
        FirstIndexAppend(Keys(e[..n]), [k], K[j]);
      } else {
        assert k !in Keys(prev) && K == Keys(prev) + [k] && j == |prev|;
        assert K[i] == Keys(prev)[i];
        assert K[i] in Keys(prev);
        assert K[i] in Keys(e[..n]);
        FirstIndexAppend(Keys(e[..n]), [k], K[i]);
        assert k !in Keys(e[..n]);
        assert Keys(e)[..n] == Keys(e[..n]);
        FirstIndexUnique(Keys(e), k, n);
      }
    }
  }
}
