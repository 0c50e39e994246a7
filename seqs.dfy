/** Sequence operations shared by the components: the array idioms the front end
    uses (`filter`, `includes`, `some`, `flat`, `indexOf`, `new Set`) stated once. */
module Seqs {

  /** `s.filter(y => y !== x)`: every occurrence of `x` removed, the rest kept in order. */
  function RemoveAll<T(==,!new)>(s: seq<T>, x: T): (r: seq<T>)
    ensures x !in r
    ensures forall y :: y in r <==> y in s && y != x
    ensures |r| <= |s|
    ensures x !in s ==> r == s
  {
    if s == [] then []
    else (if s[0] == x then [] else [s[0]]) + RemoveAll(s[1..], x)
  }

  lemma {:induction false} RemoveAllAppend<T(!new)>(a: seq<T>, b: seq<T>, x: T)
    ensures RemoveAll(a + b, x) == RemoveAll(a, x) + RemoveAll(b, x)
  {
    if a == [] {
      assert a + b == b;
    } else {
      assert (a + b)[1..] == a[1..] + b;
      RemoveAllAppend(a[1..], b, x);
    }
  }

  /** `a` is `b` with some elements dropped and the rest in their original order. */
  ghost predicate IsSubseq<T>(a: seq<T>, b: seq<T>)
    decreases |b|
  {
    a == [] || (b != [] && ((a[0] == b[0] && IsSubseq(a[1..], b[1..])) || IsSubseq(a, b[1..])))
  }

  lemma {:induction false} SubseqRefl<T>(s: seq<T>)
    ensures IsSubseq(s, s)
  {
    if s != [] {
      SubseqRefl(s[1..]);
    }
  }

  lemma {:induction false} RemoveAllIsSubseq<T(!new)>(s: seq<T>, x: T)
    ensures IsSubseq(RemoveAll(s, x), s)
  {
    if s != [] {
      RemoveAllIsSubseq(s[1..], x);
      var r := RemoveAll(s, x);
      if s[0] != x {
        assert r == [s[0]] + RemoveAll(s[1..], x);
        assert r[0] == s[0] && r[1..] == RemoveAll(s[1..], x);
        assert IsSubseq(r[1..], s[1..]);
      } else {
        assert r == RemoveAll(s[1..], x);
      }
    }
  }

  /** No element occurs twice. */
  predicate NoDup<T(==,!new)>(s: seq<T>) {
    forall i, j :: 0 <= i < j < |s| ==> s[i] != s[j]
  }

  /** `s.indexOf(x)` for an element that is present. */
  function FirstIndex<T(==,!new)>(s: seq<T>, x: T): (i: nat)
    requires x in s
    ensures i < |s| && s[i] == x && x !in s[..i]
  {
    if s[0] == x then 0
    else
      var j := FirstIndex(s[1..], x);
      assert s[..j + 1] == [s[0]] + s[1..][..j];
      j + 1
  }

  /** `s.slice(0, n).filter((y, i, self) => self.indexOf(y) === i)` with `self` the whole of `s`:
      the elements of `s[..n]` kept at their first occurrence only. */
  function KeepFirst<T(==,!new)>(s: seq<T>, n: nat): (r: seq<T>)
    requires n <= |s|
    ensures forall y :: y in r <==> y in s[..n]
    ensures forall i :: 0 <= i < |r| ==> r[i] in s
    ensures NoDup(r)
    ensures forall i :: 0 <= i < |r| ==> FirstIndex(s, r[i]) < n
    ensures forall i, j :: 0 <= i < j < |r| ==> FirstIndex(s, r[i]) < FirstIndex(s, r[j])
  {
    if n == 0 then []
    else
      var prev := KeepFirst(s, n - 1);
      assert s[..n] == s[..n - 1] + [s[n - 1]];
      var k := FirstIndex(s, s[n - 1]);
      if k == n - 1 then
        assert s[n - 1] !in prev;
        prev + [s[n - 1]]
      else
        assert s[..n - 1][k] == s[n - 1];
        prev
  }

  /** First-occurrence deduplication, the `indexOf` idiom over the whole sequence. */
  function Dedup<T(==,!new)>(s: seq<T>): (r: seq<T>)
    ensures forall y :: y in r <==> y in s
    ensures NoDup(r)
    ensures forall i, j :: 0 <= i < j < |r| ==> FirstIndex(s, r[i]) < FirstIndex(s, r[j])
  {
    assert s[..|s|] == s;
    KeepFirst(s, |s|)
  }

  /** Inserting the elements of `s` one by one into an insertion-ordered set that already
      holds `acc`: the order `Array.from(new Set(...))` yields. */
  function InsertAll<T(==,!new)>(acc: seq<T>, s: seq<T>): seq<T>
    decreases |s|
  {
    if s == [] then acc
    else InsertAll(if s[0] in acc then acc else acc + [s[0]], s[1..])
  }

  function SetOrder<T(==,!new)>(s: seq<T>): seq<T> {
    InsertAll([], s)
  }

  lemma {:induction false} InsertAllSnoc<T(!new)>(acc: seq<T>, a: seq<T>, x: T)
    ensures InsertAll(acc, a + [x]) == (var r := InsertAll(acc, a); if x in r then r else r + [x])
    decreases |a|
  {
    if a == [] {
      assert a + [x] == [x];
      assert [x][1..] == [];
    } else {
      assert (a + [x])[1..] == a[1..] + [x];
      InsertAllSnoc(if a[0] in acc then acc else acc + [a[0]], a[1..], x);
    }
  }

  /** The set-insertion order and the `indexOf` filter agree on every prefix. */
  lemma {:induction false} SetOrderIsKeepFirst<T(!new)>(s: seq<T>, n: nat)
    requires n <= |s|
    ensures SetOrder(s[..n]) == KeepFirst(s, n)
  {
    if n == 0 {
      assert s[..0] == [];
    } else {
      SetOrderIsKeepFirst(s, n - 1);
      var prev := KeepFirst(s, n - 1);
      assert s[..n] == s[..n - 1] + [s[n - 1]];
      InsertAllSnoc([], s[..n - 1], s[n - 1]);
      var k := FirstIndex(s, s[n - 1]);
      if k != n - 1 {
        assert s[..n - 1][k] == s[n - 1];
        assert s[n - 1] in prev;
        assert KeepFirst(s, n) == prev;
      } else {
        assert s[n - 1] !in prev;
        assert KeepFirst(s, n) == prev + [s[n - 1]];
      }
    }
  }

  /** `Array.from(new Set(s))` is the first-occurrence deduplication of `s`. */
  lemma SetOrderIsDedup<T(!new)>(s: seq<T>)
    ensures SetOrder(s) == Dedup(s)
  {
    SetOrderIsKeepFirst(s, |s|);
    assert s[..|s|] == s;
  }

  /** `ss.flat()`: the lists concatenated in order. */
  function Flatten<T(!new)>(ss: seq<seq<T>>): (r: seq<T>)
    ensures forall x :: x in r <==> exists i :: 0 <= i < |ss| && x in ss[i]
  {
    if ss == [] then []
    else
      var rest := Flatten(ss[1..]);
      assert forall i :: 1 <= i < |ss| ==> ss[i] == ss[1..][i - 1];
      ss[0] + rest
  }

  /** Each list sits whole in the flattening, after all lists before it and before all lists
      after it. */
  lemma {:induction false} FlattenSplit<T(!new)>(ss: seq<seq<T>>, k: nat)
    requires k < |ss|
    ensures Flatten(ss) == Flatten(ss[..k]) + ss[k] + Flatten(ss[k + 1..])
  {
    if k == 0 {
      assert ss[..0] == [] && ss[1..] == ss[k + 1..];
    } else {
      var tail := ss[1..];
      FlattenSplit(tail, k - 1);
      assert tail[..k - 1] == ss[..k][1..];
      assert tail[k - 1] == ss[k] && tail[k..] == ss[k + 1..];
      assert ss[..k][0] == ss[0];
    }
  }

  /** `s.includes(x) ? s.filter(y => y !== x) : [...s, x]`: flips the membership of `x` and
      of nothing else. */
  function Toggle<T(==,!new)>(s: seq<T>, x: T): (r: seq<T>)
    ensures x in r <==> x !in s
    ensures forall y :: y != x ==> (y in r <==> y in s)
    ensures x !in s ==> r == s + [x]
  {
    if x in s then RemoveAll(s, x) else s + [x]
  }

  /** Toggling leaves the other elements in their relative order: with `x` removed, the list
      before and the list after are the same. */
  lemma ToggleKeepsOthersInOrder<T(!new)>(s: seq<T>, x: T)
    ensures RemoveAll(Toggle(s, x), x) == RemoveAll(s, x)
  {
    if x !in s {
      RemoveAllAppend(s, [x], x);
      assert RemoveAll([x], x) == [];
    }
  }

  /** Toggling never introduces a duplicate. */
  lemma ToggleKeepsNoDup<T(!new)>(s: seq<T>, x: T)
    requires NoDup(s)
    ensures NoDup(Toggle(s, x))
  {
    RemoveAllKeepsNoDup(s, x);
  }

  lemma RemoveAllKeepsNoDup<T(!new)>(s: seq<T>, x: T)
    ensures NoDup(s) ==> NoDup(RemoveAll(s, x))
  {
    RemoveAllIsSubseq(s, x);
    if NoDup(s) {
      SubseqKeepsNoDup(RemoveAll(s, x), s);
    }
  }

  lemma {:induction false} SubseqKeepsNoDup<T(!new)>(a: seq<T>, b: seq<T>)
    requires IsSubseq(a, b) && NoDup(b)
    ensures NoDup(a) && forall y :: y in a ==> y in b
    decreases |b|
  {
    if a != [] {
      assert b != [];
      assert NoDup(b[1..]);
      if a[0] == b[0] && IsSubseq(a[1..], b[1..]) {
        SubseqKeepsNoDup(a[1..], b[1..]);
        assert a == [a[0]] + a[1..];
        assert forall j :: 0 < j < |a| ==> a[j] in b[1..];
      } else {
        SubseqKeepsNoDup(a, b[1..]);
      }
    }
  }

  /** Toggling the same element twice restores the same members, and restores the very same
      sequence when the element was absent to begin with. */
  lemma ToggleTwice<T(!new)>(s: seq<T>, x: T)
    ensures forall y :: y in Toggle(Toggle(s, x), x) <==> y in s
    ensures x !in s ==> Toggle(Toggle(s, x), x) == s
  {
    if x !in s {
      RemoveAllAppend(s, [x], x);
      assert RemoveAll([x], x) == [];
    }
  }

  /** `xs.some(y => filter.includes(y))`. */
  predicate SharesAny<T(==,!new)>(xs: seq<T>, filter: seq<T>) {
    exists y :: y in xs && y in filter
  }
}
