/** `URLSearchParams` as the frontend uses it: an ordered list of name/value
  * pairs where `get` reads the first pair of a name, `delete` drops every
  * pair of a name and `set` keeps exactly one. */
module SearchParams {
  import opened Wrappers

  type Params = seq<(string, string)>

  /** `params.get(k)`: the value of the first pair named `k`. */
  function Get(p: Params, k: string): (r: Option<string>)
    ensures r.Some? ==> (k, r.value) in p
  {
    if p == [] then None else if p[0].0 == k then Some(p[0].1) else Get(p[1..], k)
  }

  /** `params.delete(k)`: every pair named `k` removed, the rest in order. */
  function Delete(p: Params, k: string): (r: Params)
    ensures |r| <= |p|
  {
    if p == [] then [] else if p[0].0 == k then Delete(p[1..], k) else [p[0]] + Delete(p[1..], k)
  }

  /** The pairs `delete` keeps are exactly those of other names. */
  lemma {:induction false} DeleteKeeps(p: Params, k: string, x: (string, string))
    ensures x in Delete(p, k) <==> x in p && x.0 != k
  {
    if p != [] {
      DeleteKeeps(p[1..], k, x);
      assert p == [p[0]] + p[1..];
    }
  }

  lemma {:induction false} GetDelete(p: Params, k: string, other: string)
    ensures Get(Delete(p, k), other) == if other == k then None else Get(p, other)
  {
    if p != [] {
      GetDelete(p[1..], k, other);
      if p[0].0 != k {
        assert Delete(p, k)[1..] == Delete(p[1..], k);
      }
    }
  }

  /** `params.set(k, v)`: the first pair named `k` takes the value `v` and
    * the later pairs named `k` go; with no such pair, `(k, v)` is appended. */
  function Set(p: Params, k: string, v: string): (r: Params)
    ensures Get(p, k).None? ==> r == p + [(k, v)]
    ensures Delete(r, k) == Delete(p, k)
  {
    if p == [] then [(k, v)]
    else if p[0].0 == k then
      DeleteTwice(p[1..], k);
      [(k, v)] + Delete(p[1..], k)
    else
      var r := [p[0]] + Set(p[1..], k, v);
      assert r[1..] == Set(p[1..], k, v) && r[0] == p[0];
      assert Delete(r, k) == [p[0]] + Delete(p[1..], k);
      assert Get(p, k).None? ==> r == p + [(k, v)] by {
        if Get(p, k).None? {
          assert [p[0]] + (p[1..] + [(k, v)]) == p + [(k, v)];
        }
      }
      r
  }

  lemma {:induction false} DeleteTwice(p: Params, k: string)
    ensures Delete(Delete(p, k), k) == Delete(p, k)
  {
    if p != [] {
      DeleteTwice(p[1..], k);
      if p[0].0 != k {
        assert Delete(p, k)[1..] == Delete(p[1..], k);
      }
    }
  }

  /** After `set`, `get` reads the new value, every other name reads as
    * before, and exactly one pair carries the name. */
  lemma {:induction false} SetGet(p: Params, k: string, v: string, other: string)
    ensures Get(Set(p, k, v), other) == if other == k then Some(v) else Get(p, other)
  {
    if p != [] && p[0].0 != k {
      SetGet(p[1..], k, v, other);
      assert Set(p, k, v)[1..] == Set(p[1..], k, v);
    } else if p != [] {
      GetDelete(p[1..], k, other);
      assert Set(p, k, v)[1..] == Delete(p[1..], k);
    }
  }

  /** The number of pairs named `k`. */
  function Count(p: Params, k: string): (n: nat)
    ensures n <= |p|
    ensures n == 0 <==> Get(p, k).None?
  {
    if p == [] then 0 else (if p[0].0 == k then 1 else 0) + Count(p[1..], k)
  }

  lemma {:induction false} CountDelete(p: Params, k: string)
    ensures Count(Delete(p, k), k) == 0
  {
    if p != [] {
      CountDelete(p[1..], k);
      if p[0].0 != k {
        assert Delete(p, k)[1..] == Delete(p[1..], k);
      }
    }
  }

  lemma {:induction false} SetCount(p: Params, k: string, v: string)
    ensures Count(Set(p, k, v), k) == 1
  {
    if p == [] {
    } else if p[0].0 == k {
      CountDelete(p[1..], k);
      assert Set(p, k, v)[1..] == Delete(p[1..], k);
    } else {
      SetCount(p[1..], k, v);
      assert Set(p, k, v)[1..] == Set(p[1..], k, v);
    }
  }

  /** Setting the same value twice changes nothing more. */
  lemma {:induction false} SetIdempotent(p: Params, k: string, v: string)
    ensures Set(Set(p, k, v), k, v) == Set(p, k, v)
  {
    if p != [] && p[0].0 == k {
      DeleteTwice(p[1..], k);
      assert Set(p, k, v)[1..] == Delete(p[1..], k);
    } else if p != [] {
      SetIdempotent(p[1..], k, v);
      assert Set(p, k, v)[1..] == Set(p[1..], k, v);
    }
  }

  /** `set` applied to each pair of `entries` in turn. */
  function SetAll(p: Params, entries: Params): (r: Params)
  {
    if entries == [] then p
    else
      var last := entries[|entries| - 1];
      Set(SetAll(p, entries[..|entries| - 1]), last.0, last.1)
  }

  /** The value of the last entry named `k`. */
  function LastValue(entries: Params, k: string): (r: Option<string>)
    ensures r.None? <==> forall i :: 0 <= i < |entries| ==> entries[i].0 != k
    ensures r.Some? ==> (k, r.value) in entries
  {
    if entries == [] then None
    else if entries[|entries| - 1].0 == k then Some(entries[|entries| - 1].1)
    else
      var r := LastValue(entries[..|entries| - 1], k);
      assert forall i :: 0 <= i < |entries| - 1 ==> entries[..|entries| - 1][i] == entries[i];
      r
  }

  /** After setting every entry, a name reads as its last entry when it has
    * one, and as before otherwise: repeated names keep their last value. */
  lemma {:induction false} SetAllGet(p: Params, entries: Params, k: string)
    ensures Get(SetAll(p, entries), k) == if LastValue(entries, k).Some? then LastValue(entries, k) else Get(p, k)
  {
    if entries != [] {
      var last := entries[|entries| - 1];
      SetAllGet(p, entries[..|entries| - 1], k);
      SetGet(SetAll(p, entries[..|entries| - 1]), last.0, last.1, k);
    }
  }

  lemma SetAllSnoc(p: Params, entries: Params, k: string, v: string)
    ensures SetAll(p, entries + [(k, v)]) == Set(SetAll(p, entries), k, v)
  {
    assert (entries + [(k, v)])[..|entries|] == entries;
  }

  lemma {:induction false} DeleteSnoc(p: Params, x: (string, string), k: string)
    ensures Delete(p + [x], k) == Delete(p, k) + (if x.0 == k then [] else [x])
  {
    if p != [] {
      assert (p + [x])[1..] == p[1..] + [x];
      DeleteSnoc(p[1..], x, k);
    }
  }

  /** Deleting one name leaves the last value of every other name as it was. */
  lemma {:induction false} LastValueDelete(p: Params, gone: string, k: string)
    requires k != gone
    ensures LastValue(Delete(p, gone), k) == LastValue(p, k)
  {
    if p != [] {
      var init := p[..|p| - 1];
      var x := p[|p| - 1];
      assert p == init + [x];
      DeleteSnoc(init, x, gone);
      LastValueDelete(init, gone, k);
      assert LastValue(p, k) == if x.0 == k then Some(x.1) else LastValue(init, k);
      if x.0 != gone {
        var d := Delete(init, gone) + [x];
        assert Delete(p, gone) == d;
        assert d[..|d| - 1] == Delete(init, gone) && d[|d| - 1] == x;
      } else {
        assert Delete(p, gone) == Delete(init, gone);
      }
    }
  }
}
