// The quorum arithmetic of diem/quorum.go and what it buys: any two quorums meet in a
// correct replica.
module Quorums {

  /** `(n - 1) / 3` with Go's division, which truncates toward zero. */
  function Faulty(n: nat): nat { if n == 0 then 0 else (n - 1) / 3 }

  function QuorumSize(n: nat): nat { (n + Faulty(n) + 2) / 2 }

  /** Any `p` and any `q` out of `n` share at least `k`. */
  ghost predicate Overlap(n: nat, p: nat, q: nat, k: nat) {
    forall all: set<int>, a: set<int>, b: set<int> ::
      Inside(all, a, b) && |all| == n && |a| >= p && |b| >= q ==> |a * b| >= k
  }

  predicate Inside(all: set<int>, a: set<int>, b: set<int>) { a <= all && b <= all }

  /** From QuorumSize on, and not before, an overlap of f+1 is certain; n-f is enough to get there. */
  lemma QuorumSizeIsLeast(n: nat, q: nat)
    requires n >= 1
    ensures Overlap(n, q, q, Faulty(n) + 1) <==> q >= QuorumSize(n)
    ensures QuorumSize(n) <= n - Faulty(n)
  {
    if q <= n { OverlapIff(n, q, q, Faulty(n) + 1); } else { OverlapHolds(n, q, q, Faulty(n) + 1); }
  }

  /** The paper's "globally direct-committed" counts f+1 correct voters. They are sure to meet every
      quorum exactly when n is not a multiple of three; the proofs here count a whole quorum of
      voters instead. */
  lemma CorrectVotersMeetQuorum(n: nat)
    requires n >= 1
    ensures Overlap(n, Faulty(n) + 1, QuorumSize(n), 1) <==> n % 3 != 0
  {
    OverlapIff(n, Faulty(n) + 1, QuorumSize(n), 1);
  }

  /** Two sets can be pushed apart until together they cover everything, and no further. */
  lemma OverlapIff(n: nat, p: nat, q: nat, k: nat)
    requires k > 0 && p <= n && q <= n
    ensures Overlap(n, p, q, k) <==> p + q >= n + k
  {
    hide Overlap;
    if p + q >= n + k { OverlapHolds(n, p, q, k); } else { OverlapFails(n, p, q, k); }
  }

  lemma OverlapHolds(n: nat, p: nat, q: nat, k: nat)
    requires p + q >= n + k
    ensures Overlap(n, p, q, k)
  {
    forall all: set<int>, a: set<int>, b: set<int> | Inside(all, a, b) && |all| == n && |a| >= p && |b| >= q
      ensures |a * b| >= k
    {
      SubsetSize(a + b, all);
      assert |a * b| == |a| + |b| - |a + b|;
    }
  }

  lemma OverlapFails(n: nat, p: nat, q: nat, k: nat)
    requires p + q < n + k && k > 0 && p <= n && q <= n
    ensures !Overlap(n, p, q, k)
  {
    hide Interval;
    var all, a, b, both := Interval(0, n), Interval(0, p), Interval(n - q, n), Interval(n - q, p);
    IntervalSize(0, n);
    IntervalSize(0, p);
    IntervalSize(n - q, n);
    IntervalSize(n - q, p);
    assert Inside(all, a, b);
    assert a * b == both;
  }

  function Interval(lo: int, hi: int): (s: set<int>)
    ensures forall x :: x in s <==> lo <= x < hi
    decreases hi - lo
  {
    if lo >= hi then {} else Interval(lo, hi - 1) + {hi - 1}
  }

  lemma {:induction false} IntervalSize(lo: int, hi: int)
    ensures |Interval(lo, hi)| == if lo <= hi then hi - lo else 0
    decreases hi - lo
  {
    if lo < hi { IntervalSize(lo, hi - 1); }
  }

  lemma {:induction false} SubsetSize<T>(a: set<T>, b: set<T>)
    requires a <= b
    ensures |a| <= |b|
  {
    if a != {} {
      var x :| x in a;
      SubsetSize(a - {x}, b - {x});
    }
  }

  /** Any two quorums share a correct replica. */
  lemma QuorumsMeet<T>(all: set<T>, faulty: set<T>, a: set<T>, b: set<T>) returns (x: T)
    requires a <= all && b <= all
    requires |faulty| <= Faulty(|all|)
    requires |a| >= QuorumSize(|all|) && |b| >= QuorumSize(|all|)
    ensures x in a && x in b && x !in faulty
  {
    SubsetSize(a + b, all);
    assert |a * b| == |a| + |b| - |a + b|;
    if a * b <= faulty {
      SubsetSize(a * b, faulty);
      QuorumTwice(|all|);
      assert false;
    }
    x :| x in a * b && x !in faulty;
  }

  lemma QuorumTwice(n: nat)
    ensures 2 * QuorumSize(n) >= n + Faulty(n) + 1
  { }

  /** A quorum is more than f replicas, so one of them is correct. */
  lemma QuorumHasCorrect<T>(all: set<T>, faulty: set<T>, a: set<T>) returns (x: T)
    requires a <= all && |faulty| <= Faulty(|all|) && |a| >= QuorumSize(|all|)
    ensures x in a && x !in faulty
  {
    x := QuorumsMeet(all, faulty, a, a);
  }
}
