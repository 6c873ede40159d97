// Signer order. blocktree.go:195 and pacemaker.go:164 hand their signatures to the library
// sort; this is what that sort returns.
module Sorting {

  function Insert<T>(key: T -> int, x: T, s: seq<T>): seq<T> {
    if s == [] || key(x) <= key(s[0]) then [x] + s else [s[0]] + Insert(key, x, s[1..])
  }

  function SortBy<T>(key: T -> int, s: seq<T>): seq<T> {
    if s == [] then [] else Insert(key, s[0], SortBy(key, s[1..]))
  }

  ghost predicate Distinct<T(!new)>(key: T -> int, s: seq<T>) {
    forall i, j :: 0 <= i < j < |s| ==> key(s[i]) != key(s[j])
  }

  ghost predicate Ascending<T(!new)>(key: T -> int, s: seq<T>) {
    forall i :: 0 < i < |s| ==> key(s[i - 1]) < key(s[i])
  }

  lemma {:induction false} InsertPermutes<T>(key: T -> int, x: T, s: seq<T>)
    ensures multiset(Insert(key, x, s)) == multiset([x] + s)
  {
    if s != [] && key(x) > key(s[0]) {
      InsertPermutes(key, x, s[1..]);
      assert s == [s[0]] + s[1..];
    }
  }

  lemma {:induction false} SortPermutes<T>(key: T -> int, s: seq<T>)
    ensures multiset(SortBy(key, s)) == multiset(s)
  {
    if s != [] {
      SortPermutes(key, s[1..]);
      InsertPermutes(key, s[0], SortBy(key, s[1..]));
      assert s == [s[0]] + s[1..];
    }
  }

  lemma {:induction false} InsertAscends<T(!new)>(key: T -> int, x: T, s: seq<T>)
    requires Ascending(key, s) && forall i :: 0 <= i < |s| ==> key(s[i]) != key(x)
    ensures Ascending(key, Insert(key, x, s))
    ensures Insert(key, x, s)[0] == if s == [] || key(x) <= key(s[0]) then x else s[0]
  {
    if s != [] && key(x) > key(s[0]) {
      var rest := s[1..];
      assert forall i :: 0 < i < |rest| ==> rest[i - 1] == s[i] && rest[i] == s[i + 1];
      InsertAscends(key, x, rest);
      var t := Insert(key, x, rest);
      assert Insert(key, x, s) == [s[0]] + t;
      assert rest != [] ==> rest[0] == s[1];
    }
  }

  /** Elements with distinct keys come out strictly ascending. */
  lemma {:induction false} SortAscends<T(!new)>(key: T -> int, s: seq<T>)
    requires Distinct(key, s)
    ensures Ascending(key, SortBy(key, s))
  {
    if s != [] {
      var rest := s[1..];
      SortAscends(key, rest);
      SortPermutes(key, rest);
      var t := SortBy(key, rest);
      forall i | 0 <= i < |t| ensures key(t[i]) != key(s[0]) {
        assert t[i] in multiset(t);
        assert t[i] in rest;
        var j :| 0 <= j < |rest| && rest[j] == t[i];
        assert s[j + 1] == t[i];
      }
      InsertAscends(key, s[0], t);
    }
  }

  lemma {:induction false} AscendingHeadLeast<T(!new)>(key: T -> int, s: seq<T>, i: nat)
    requires Ascending(key, s) && 0 < i < |s|
    ensures key(s[0]) < key(s[i])
  {
    if i > 1 { AscendingHeadLeast(key, s, i - 1); }
  }

  lemma SameHead<T(!new)>(key: T -> int, s: seq<T>, t: seq<T>)
    requires Ascending(key, s) && Ascending(key, t) && |s| > 0 && |t| > 0
    requires s[0] in t && t[0] in s
    ensures s[0] == t[0]
  {
    var i :| 0 <= i < |t| && t[i] == s[0];
    var j :| 0 <= j < |s| && s[j] == t[0];
    if i > 0 && j > 0 {
      AscendingHeadLeast(key, t, i);
      AscendingHeadLeast(key, s, j);
      assert false;
    }
  }

  lemma AscendingTail<T(!new)>(key: T -> int, s: seq<T>)
    requires Ascending(key, s) && s != []
    ensures Ascending(key, s[1..])
  {
    var t := s[1..];
    forall i | 0 < i < |t| ensures key(t[i - 1]) < key(t[i]) { assert t[i - 1] == s[i] && t[i] == s[i + 1]; }
  }

  lemma TailMultiset<T>(s: seq<T>)
    requires s != []
    ensures multiset(s[1..]) == multiset(s) - multiset{s[0]}
  {
    assert s == [s[0]] + s[1..];
  }

  /** Strictly ascending order is unique: one signature set has one wire form. */
  lemma {:induction false} AscendingUnique<T(!new)>(key: T -> int, s: seq<T>, t: seq<T>)
    requires Ascending(key, s) && Ascending(key, t) && multiset(s) == multiset(t)
    ensures s == t
  {
    hide Ascending;
    assert |multiset(s)| == |s| && |multiset(t)| == |t|;
    if s != [] {
      assert s[0] in multiset(t) && t[0] in multiset(s);
      AscendingTail(key, s);
      AscendingTail(key, t);
      SameHead(key, s, t);
      TailMultiset(s);
      TailMultiset(t);
      AscendingUnique(key, s[1..], t[1..]);
      assert s == [s[0]] + s[1..] && t == [t[0]] + t[1..];
    }
  }

  /** Whatever order distinct elements arrive in, they sort to the same sequence. */
  lemma SortOrderIrrelevant<T(!new)>(key: T -> int, s: seq<T>, t: seq<T>)
    requires Distinct(key, s) && Distinct(key, t) && multiset(s) == multiset(t)
    ensures SortBy(key, s) == SortBy(key, t)
  {
    SortAscends(key, s);
    SortAscends(key, t);
    SortPermutes(key, s);
    SortPermutes(key, t);
    AscendingUnique(key, SortBy(key, s), SortBy(key, t));
  }
}
