/** Order-preserving de-duplication, as `Array.from(new Set(xs))` performs it, and
    `xs.map(f).filter(Boolean)`. */
module Seqs {
  import opened Wrappers

  /** No element occurs twice. */
  predicate NoDup<T(==)>(s: seq<T>) {
    forall i, j :: 0 <= i < j < |s| ==> s[i] != s[j]
  }

  /** Adding `x` to a Set whose iteration order is `acc`: a repeated element is ignored. */
  function Insert<T(==)>(acc: seq<T>, x: T): seq<T> {
    if x in acc then acc else acc + [x]
  }

  /** Inserting the elements of `s` one by one, in order, into a Set holding `acc`. */
  function InsertAll<T(==)>(acc: seq<T>, s: seq<T>): seq<T>
    decreases |s|
  {
    if |s| == 0 then acc else InsertAll(Insert(acc, s[0]), s[1..])
  }

  /** The distinct elements of `s` in order of first occurrence. */
  function Dedup<T(==)>(s: seq<T>): (r: seq<T>)
    ensures NoDup(r)
    ensures forall i :: 0 <= i < |r| ==> r[i] in s
    ensures forall i :: 0 <= i < |s| ==> s[i] in r
  {
    InsertAllFacts([], s);
    InsertAll([], s)
  }

  /** What inserting keeps: the earlier contents as a prefix, no repetition, and exactly the inserted elements. */
  lemma {:induction false} InsertAllFacts<T>(acc: seq<T>, s: seq<T>)
    ensures var r := InsertAll(acc, s);
      && |acc| <= |r| && r[..|acc|] == acc
      && (NoDup(acc) ==> NoDup(r))
      && (forall i :: 0 <= i < |r| ==> r[i] in acc || r[i] in s)
      && (forall i :: 0 <= i < |s| ==> s[i] in r)
    decreases |s|
  {
    if |s| > 0 {
      var acc' := Insert(acc, s[0]);
      InsertAllFacts(acc', s[1..]);
      var r := InsertAll(acc', s[1..]);
      assert r[..|acc'|][..|acc|] == acc;
      assert s[0] in acc';
      forall i | 0 <= i < |r| ensures r[i] in acc || r[i] in s {
        if r[i] !in acc' {
          assert r[i] in s[1..];
        }
      }
      forall i | 0 <= i < |s| ensures s[i] in r {
        if i > 0 {
          assert s[i] == s[1..][i - 1];
        } else {
          var k :| 0 <= k < |acc'| && acc'[k] == s[0];
          assert r[k] == s[0];
        }
      }
    }
  }

  /** De-duplicating `a + b` is de-duplicating `a` and then inserting the elements of `b`. */
  lemma {:induction false} InsertAllAppend<T>(acc: seq<T>, a: seq<T>, b: seq<T>)
    ensures InsertAll(acc, a + b) == InsertAll(InsertAll(acc, a), b)
    decreases |a|
  {
    if |a| == 0 {
      assert a + b == b;
    } else {
      assert (a + b)[1..] == a[1..] + b;
      InsertAllAppend(Insert(acc, a[0]), a[1..], b);
    }
  }

  /** De-duplicating `a + b` begins with the de-duplication of `a`: earlier entries keep their place and order. */
  lemma DedupPrefix<T>(a: seq<T>, b: seq<T>)
    ensures |Dedup(a)| <= |Dedup(a + b)|
    ensures Dedup(a + b)[..|Dedup(a)|] == Dedup(a)
  {
    InsertAllAppend([], a, b);
    InsertAllFacts(Dedup(a), b);
  }

  /** A sequence without repetitions is its own de-duplication. */
  lemma NoDupUnchanged<T>(s: seq<T>)
    requires NoDup(s)
    ensures Dedup(s) == s
  {
    NoDupInsertAll([], s);
  }

  lemma {:induction false} NoDupInsertAll<T>(acc: seq<T>, s: seq<T>)
    requires NoDup(acc + s)
    ensures InsertAll(acc, s) == acc + s
    decreases |s|
  {
    if |s| > 0 {
      assert forall k :: 0 <= k < |acc| ==> acc[k] == (acc + s)[k] != (acc + s)[|acc|] == s[0];
      assert s[0] !in acc;
      assert acc + [s[0]] + s[1..] == acc + s;
      NoDupInsertAll(acc + [s[0]], s[1..]);
    }
  }

  /** `xs.map(f)` with the absent results filtered out, in order. */
  function FilterMap<T, U(==)>(f: T -> Option<U>, xs: seq<T>): (r: seq<U>)
    ensures |r| <= |xs|
    ensures forall i :: 0 <= i < |r| ==> exists j :: 0 <= j < |xs| && f(xs[j]) == Some(r[i])
    ensures forall j :: 0 <= j < |xs| && f(xs[j]).Some? ==> f(xs[j]).value in r
    decreases |xs|
  {
    if |xs| == 0 then []
    else
      var rest := FilterMap(f, xs[1..]);
      assert forall j :: 1 <= j < |xs| ==> xs[j] == xs[1..][j - 1];
      if f(xs[0]).Some? then [f(xs[0]).value] + rest else rest
  }

  /** An element without a result adds nothing at the end. */
  lemma {:induction false} FilterMapAppendNone<T, U>(f: T -> Option<U>, xs: seq<T>, x: T)
    requires f(x).None?
    ensures FilterMap(f, xs + [x]) == FilterMap(f, xs)
    decreases |xs|
  {
    if |xs| == 0 {
      assert [x][1..] == [];
    } else {
      assert (xs + [x])[1..] == xs[1..] + [x];
      FilterMapAppendNone(f, xs[1..], x);
    }
  }

  /** An element some input maps to is kept, and the kept list is then not empty. */
  lemma FilterMapKeeps<T, U>(f: T -> Option<U>, xs: seq<T>, j: nat, y: U)
    requires j < |xs| && f(xs[j]) == Some(y)
    ensures |FilterMap(f, xs)| > 0 && y in Dedup(FilterMap(f, xs))
  {
  }

  /** A value survives `map`, `filter(Boolean)` and de-duplication exactly when some element maps to it. */
  lemma FilterMapDedupMembers<T, U>(f: T -> Option<U>, xs: seq<T>, y: U)
    ensures y in Dedup(FilterMap(f, xs)) <==> exists j :: 0 <= j < |xs| && f(xs[j]) == Some(y)
  {
    var ys := FilterMap(f, xs);
    if y in Dedup(ys) {
      var i :| 0 <= i < |Dedup(ys)| && Dedup(ys)[i] == y;
      var k :| 0 <= k < |ys| && ys[k] == y;
    }
    if exists j :: 0 <= j < |xs| && f(xs[j]) == Some(y) {
      var j :| 0 <= j < |xs| && f(xs[j]) == Some(y);
      var k :| 0 <= k < |ys| && ys[k] == y;
    }
  }
}
