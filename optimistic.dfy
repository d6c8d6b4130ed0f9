/** Pieces shared by the three data hooks of the web client (threads,
  * projects, messages): the shape of a repository reply, `asOne`, the
  * merge that `Object.fromEntries` performs, the in-place swap of a
  * temporary id for the server's id, and the pattern that classifies a
  * delete error as benign. */
module Optimistic {
  import opened Wrappers
  import opened Text
  import opened EntityStore

  /** A repository reply: an empty body (`undefined`), one record, or an
    * array of records (`T | T[]`). */
  datatype Wire<T> = Nothing | Single(record: T) | Rows(rows: seq<T>)

  /** `asOne`: an array stands for its first element; an empty array and an
    * empty body give `undefined`. */
  function AsOne<T>(w: Wire<T>): (r: Option<T>)
    ensures r.Some? <==> w.Single? || (w.Rows? && |w.rows| > 0)
    ensures w.Single? ==> r == Some(w.record)
    ensures w.Rows? && |w.rows| > 0 ==> r == Some(w.rows[0])
  {
    match w
    case Nothing => None
    case Single(x) => Some(x)
    case Rows(xs) => if xs == [] then None else Some(xs[0])
  }

  /** `Array.isArray(data) ? data : [data]` for a reply that must hold
    * records: an empty body becomes `[undefined]`, whose `id` cannot be
    * read, so it has no rows (None). */
  function RowsOf<T>(w: Wire<T>): (r: Option<seq<T>>)
    ensures r.None? <==> w.Nothing?
    ensures w.Single? ==> r == Some([w.record])
    ensures w.Rows? ==> r == Some(w.rows)
  {
    match w
    case Nothing => None
    case Single(x) => Some([x])
    case Rows(xs) => Some(xs)
  }

  /** The message V8 gives the TypeError raised by reading `id` of
    * `undefined`. */
  const UndefinedIdError: string := "Cannot read properties of undefined (reading 'id')"

  /** `rows.map((t) => String(t.id))`. */
  function KeysOf<T>(rows: seq<T>, key: T -> Id): (r: seq<Id>)
    ensures |r| == |rows|
    ensures forall i :: 0 <= i < |rows| ==> r[i] == key(rows[i])
  {
    if rows == [] then [] else [key(rows[0])] + KeysOf(rows[1..], key)
  }

  /** `{ ...m, ...Object.fromEntries(rows.map((t) => [String(t.id), t])) }`:
    * every row is stored under its id, later rows winning over earlier
    * ones with the same id, and the other entries of `m` are kept. */
  function Upsert<T>(m: map<Id, T>, rows: seq<T>, key: T -> Id): (r: map<Id, T>)
    ensures r.Keys == m.Keys + Elems(KeysOf(rows, key))
    ensures forall k :: k in m && k !in KeysOf(rows, key) ==> r[k] == m[k]
  {
    if rows == [] then m
    else
      var init := rows[..|rows| - 1];
      var last := rows[|rows| - 1];
      assert KeysOf(rows, key) == KeysOf(init, key) + [key(last)];
      Upsert(m, init, key)[key(last) := last]
  }

  /** The row stored under an id is the last row carrying that id. */
  lemma {:induction false} UpsertLastWins<T>(m: map<Id, T>, rows: seq<T>, key: T -> Id, i: nat)
    requires i < |rows|
    requires forall j :: i < j < |rows| ==> key(rows[j]) != key(rows[i])
    ensures key(rows[i]) in Upsert(m, rows, key)
    ensures Upsert(m, rows, key)[key(rows[i])] == rows[i]
  {
    var init := rows[..|rows| - 1];
    if i < |rows| - 1 {
      assert forall j :: i < j < |init| ==> key(init[j]) != key(init[i]);
      UpsertLastWins(m, init, key, i);
    }
  }

  /** Listing fetched rows whose ids are distinct after merging them gives
    * back exactly those rows, in response order. */
  lemma UpsertThenResolve<T>(m: map<Id, T>, rows: seq<T>, key: T -> Id)
    requires NoDup(KeysOf(rows, key))
    ensures Resolve(Upsert(m, rows, key), KeysOf(rows, key)) == rows
  {
    var ids := KeysOf(rows, key);
    var u := Upsert(m, rows, key);
    forall i | 0 <= i < |rows|
      ensures ids[i] in u && u[ids[i]] == rows[i]
    {
      UpsertLastWins(m, rows, key, i);
    }
    var r := Resolve(u, ids);
    assert |r| == |rows|;
  }

  /** `Object.fromEntries(rows.map((p) => [String(p.id), p]))`: the rows
    * alone, with nothing kept from before. */
  function FromRows<T>(rows: seq<T>, key: T -> Id): (r: map<Id, T>)
    ensures r.Keys == Elems(KeysOf(rows, key))
  {
    Upsert(map[], rows, key)
  }

  /** `ids.map((id) => (id === from ? to : id))`. */
  function ReplaceId(ids: seq<Id>, from: Id, to: Id): (r: seq<Id>)
    ensures |r| == |ids|
    ensures forall i :: 0 <= i < |ids| ==> r[i] == (if ids[i] == from then to else ids[i])
  {
    if ids == [] then [] else [if ids[0] == from then to else ids[0]] + ReplaceId(ids[1..], from, to)
  }

  /** A list without `from` is left as it is. */
  lemma ReplaceAbsent(ids: seq<Id>, from: Id, to: Id)
    requires from !in ids
    ensures ReplaceId(ids, from, to) == ids
  {
  }

  /** `\s*`: s[i..j] is all white space. */
  predicate SpaceRun(s: string, i: nat, j: nat)
    requires i <= j <= |s|
  {
    forall k | i <= k < j :: IsJsSpace(s[k])
  }

  /** The regular expression `w1\s*w2\s*...\s*wn` matches `s` at `i`. */
  predicate PhraseAt(s: string, i: nat, words: seq<string>)
    decreases |words|
  {
    if words == [] then i <= |s|
    else
      && At(s, i, words[0])
      && (|words| == 1
          || exists j | i + |words[0]| <= j <= |s| :: SpaceRun(s, i + |words[0]|, j) && PhraseAt(s, j, words[1..]))
  }

  /** The phrase occurs somewhere in `s`. */
  predicate Matches(s: string, words: seq<string>)
  {
    exists i | 0 <= i <= |s| :: PhraseAt(s, i, words)
  }

  /** `/not\s*found|already\s*deleted|no\s*such|does\s*not\s*exist/i.test(msg)`:
    * the case-insensitive flag compares ASCII letters case-blind and no
    * other character equals an ASCII letter, so the test runs on the
    * ASCII-lower-cased message. */
  predicate IsBenignDeleteError(msg: string)
  {
    var m := Lower(msg);
    Matches(m, ["not", "found"]) || Matches(m, ["already", "deleted"])
    || Matches(m, ["no", "such"]) || Matches(m, ["does", "not", "exist"])
  }

  lemma LowerConcat(a: string, b: string)
    ensures Lower(a + b) == Lower(a) + Lower(b)
  {
    assert forall i :: 0 <= i < |a + b| ==> Lower(a + b)[i] == (Lower(a) + Lower(b))[i];
  }

  /** `w1`, white space, `w2` inside a string match `w1\s*w2`. */
  lemma PhraseInfix(pre: string, w1: string, sp: string, w2: string, post: string)
    requires forall k :: 0 <= k < |sp| ==> IsJsSpace(sp[k])
    ensures Matches(pre + w1 + sp + w2 + post, [w1, w2])
  {
    var s := pre + w1 + sp + w2 + post;
    var i := |pre|;
    var j := i + |w1| + |sp|;
    assert s[i..i + |w1|] == w1;
    assert s[j..j + |w2|] == w2;
    assert forall k | i + |w1| <= k < j :: s[k] == sp[k - i - |w1|];
    assert SpaceRun(s, i + |w1|, j);
    assert [w1, w2][1..] == [w2];
    assert PhraseAt(s, j, [w2]);
    assert PhraseAt(s, i, [w1, w2]);
  }

  lemma LowerSpaces(sp: string)
    requires forall k :: 0 <= k < |sp| ==> IsJsSpace(sp[k])
    ensures Lower(sp) == sp
  {
  }

  /** Any message holding "not", then white space, then "found", in any
    * letter case, is benign. */
  lemma BenignNotFound(a: string, w1: string, sp: string, w2: string, b: string)
    requires Lower(w1) == "not" && Lower(w2) == "found"
    requires forall k :: 0 <= k < |sp| ==> IsJsSpace(sp[k])
    ensures IsBenignDeleteError(a + w1 + sp + w2 + b)
  {
    LowerConcat(a, w1);
    LowerConcat(a + w1, sp);
    LowerConcat(a + w1 + sp, w2);
    LowerConcat(a + w1 + sp + w2, b);
    LowerSpaces(sp);
    PhraseInfix(Lower(a), "not", sp, "found", Lower(b));
  }

  /** An error without a message is never benign. */
  lemma EmptyMessageNotBenign()
    ensures !IsBenignDeleteError("")
  {
    assert Lower("") == "";
  }
}
