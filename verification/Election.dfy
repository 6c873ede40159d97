// The reputation election of diem/leader.go on values: where its loop stops turn by turn, whether it
// ends, the two sets it builds, and which of the remaining ids is elected.
module Election {
  import opened Wire
  import opened Hashing
  import opened Verification
  import opened Chains
  import opened LedgerModel
  import opened Agreement
  import Quorums

  /** One stop of the walk: the certificate it came by and the committed block it found. */
  datatype Visit = Visit(cert: QuorumCert, block: Block)

  /** The certificate the loop holds on its n-th turn: the given one, then the one of the block it
      found on the turn before. */
  ghost function CertAt(kept: seq<Block>, qc: QuorumCert, n: nat): Option<QuorumCert>
    decreases n, 0
  {
    if n == 0 then Some(qc)
    else
      var b := StopAt(kept, qc, n - 1);
      if b.None? then None else b.value.qc
  }

  /** The committed block that certificate names as its parent's id, if the ledger still holds it. */
  ghost function StopAt(kept: seq<Block>, qc: QuorumCert, n: nat): Option<Block>
    decreases n, 1
  {
    var c := CertAt(kept, qc, n);
    if c.None? then None else Lookup(kept, c.value.voteInfo.parentId)
  }

  /** The stops of the first `n` turns. */
  ghost function Trail(kept: seq<Block>, qc: QuorumCert, n: nat): seq<Visit> {
    if n == 0 then []
    else
      var c, b := CertAt(kept, qc, n - 1), StopAt(kept, qc, n - 1);
      Trail(kept, qc, n - 1) + if c.Some? && b.Some? then [Visit(c.value, b.value)] else []
  }

  ghost function Authors(trail: seq<Visit>): set<Id> { set i | 0 <= i < |trail| :: trail[i].block.author }

  /** The loop leaves at turn `n`: the ledger lacks the next block, or both sets are complete. */
  ghost predicate Exits(kept: seq<Block>, qc: QuorumCert, window: nat, exclude: nat, n: nat) {
    StopAt(kept, qc, n).None? || (n >= window && |Authors(Trail(kept, qc, n))| >= exclude)
  }

  ghost predicate Ends(kept: seq<Block>, qc: QuorumCert, window: nat, exclude: nat) {
    exists n :: Exits(kept, qc, window, exclude, n)
  }

  ghost predicate EndsAt(kept: seq<Block>, qc: QuorumCert, window: nat, exclude: nat, n: nat) {
    Exits(kept, qc, window, exclude, n) && forall m :: 0 <= m < n ==> !Exits(kept, qc, window, exclude, m)
  }

  /** What the loop visits before it leaves. A loop that never leaves elects nobody. */
  ghost function TrailOf(kept: seq<Block>, qc: QuorumCert, window: nat, exclude: nat): seq<Visit> {
    if n :| EndsAt(kept, qc, window, exclude, n) then Trail(kept, qc, n) else []
  }

  /** Signers of the certificates at the first `window` stops. */
  ghost function ActiveSigners(trail: seq<Visit>, window: nat): set<Id> {
    set i, j | 0 <= i < |trail| && i < window && 0 <= j < |trail[i].cert.signatures|
      :: trail[i].cert.signatures[j].signer
  }

  /** Authors from the most recent stop back, until `exclude` distinct ones are found. */
  ghost function LastAuthors(trail: seq<Visit>, exclude: nat): set<Id> {
    if trail == [] then {}
    else
      var before := LastAuthors(trail[..|trail| - 1], exclude);
      if |before| < exclude then before + {trail[|trail| - 1].block.author} else before
  }

  ghost function CandidatesOf(trail: seq<Visit>, window: nat, exclude: nat): set<Id> {
    ActiveSigners(trail, window) - LastAuthors(trail, exclude)
  }

  ghost function Smaller(candidates: set<Id>, x: Id): set<Id> { set y | y in candidates && y < x }

  /** How many candidates have a smaller id: the index in sorted order. */
  ghost function Rank(candidates: set<Id>, x: Id): nat { |Smaller(candidates, x)| }

  ghost predicate IsElected(candidates: set<Id>, index: nat, x: Id) {
    x in candidates && Rank(candidates, x) == index
  }

  /** `spread` is the first eight bytes of the seed's SHA-256, read as a number. */
  ghost function Elect(window: nat, exclude: nat, spread: Round -> Round, kept: seq<Block>,
                       qc: QuorumCert): Option<Id> {
    var c := CandidatesOf(TrailOf(kept, qc, window, exclude), window, exclude);
    if x :| |c| > 0 && IsElected(c, spread(qc.voteInfo.round) % |c|, x) then Some(x) else None
  }

  // -------------------------------------------------------------------------- properties

  lemma RankAscends(c: set<Id>, x: Id, y: Id)
    requires x in c && y in c && x < y
    ensures Rank(c, x) < Rank(c, y)
  {
    assert Smaller(c, x) <= Smaller(c, y) - {x};
    Quorums.SubsetSize(Smaller(c, x), Smaller(c, y) - {x});
  }

  /** At most one candidate has a given index. */
  lemma ElectedUnique(c: set<Id>, index: nat, x: Id, y: Id)
    requires IsElected(c, index, x) && IsElected(c, index, y)
    ensures x == y
  {
    if x < y { RankAscends(c, x, y); }
    if y < x { RankAscends(c, y, x); }
  }

  /** Every index below the number of candidates elects somebody. */
  lemma {:induction false} ElectedExists(c: set<Id>, index: nat)
    requires index < |c|
    ensures exists x :: IsElected(c, index, x)
  {
    var x := Largest(c);
    var rest := c - {x};
    assert forall y :: y in rest ==> y < x;
    if index == |rest| {
      assert Smaller(c, x) == rest;
      assert IsElected(c, index, x);
    } else {
      ElectedExists(rest, index);
      var y :| IsElected(rest, index, y);
      assert Smaller(c, y) == Smaller(rest, y);
      assert IsElected(c, index, y);
    }
  }

  lemma {:induction false} Largest(c: set<Id>) returns (x: Id)
    requires c != {}
    ensures x in c && forall y :: y in c ==> y <= x
  {
    var a :| a in c;
    if c == {a} { x := a; }
    else {
      var b := Largest(c - {a});
      x := if a > b then a else b;
      forall y | y in c ensures y <= x { if y != a { assert y in c - {a}; } }
    }
  }

  /** An election succeeds exactly when a window signer is left after the exclusions; the winner is
      such a signer, and so never the author of an excluded block. */
  lemma ElectedIsCandidate(window: nat, exclude: nat, spread: Round -> Round, kept: seq<Block>, qc: QuorumCert)
    ensures var trail := TrailOf(kept, qc, window, exclude);
            var c := ActiveSigners(trail, window) - LastAuthors(trail, exclude);
            var e := Elect(window, exclude, spread, kept, qc);
            && (e.Some? <==> c != {})
            && (e.Some? ==> e.value in c && Rank(c, e.value) == spread(qc.voteInfo.round) % |c|)
  {
    var c := CandidatesOf(TrailOf(kept, qc, window, exclude), window, exclude);
    if c != {} {
      assert |c| > 0;
      ElectedExists(c, spread(qc.voteInfo.round) % |c|);
    }
  }

  /** The exclusion holds out at most `exclude` authors, all of them authors on the trail. */
  lemma {:induction false} LastAuthorsBounded(trail: seq<Visit>, exclude: nat)
    ensures |LastAuthors(trail, exclude)| <= exclude
    ensures forall a :: a in LastAuthors(trail, exclude) ==> exists i :: 0 <= i < |trail| && trail[i].block.author == a
  {
    if trail != [] {
      var front := trail[..|trail| - 1];
      LastAuthorsBounded(front, exclude);
      forall a | a in LastAuthors(trail, exclude) ensures exists i :: 0 <= i < |trail| && trail[i].block.author == a {
        if a in LastAuthors(front, exclude) {
          var i :| 0 <= i < |front| && front[i].block.author == a;
          assert trail[i].block.author == a;
        } else {
          assert trail[|trail| - 1].block.author == a;
        }
      }
    }
  }

  // ------------------------------------------------------------------ where the walk leaves

  lemma {:induction false} FirstExit(kept: seq<Block>, qc: QuorumCert, window: nat, exclude: nat, n: nat)
    returns (first: nat)
    requires Exits(kept, qc, window, exclude, n)
    ensures EndsAt(kept, qc, window, exclude, first)
  {
    if m :| 0 <= m < n && Exits(kept, qc, window, exclude, m) {
      first := FirstExit(kept, qc, window, exclude, m);
    } else {
      first := n;
    }
  }

  /** The loop leaves once, so what it visits is determined. */
  lemma TrailEndsAt(kept: seq<Block>, qc: QuorumCert, window: nat, exclude: nat, n: nat)
    requires EndsAt(kept, qc, window, exclude, n)
    ensures TrailOf(kept, qc, window, exclude) == Trail(kept, qc, n)
  {
    forall m: nat | EndsAt(kept, qc, window, exclude, m) ensures m == n {
      assert m >= n || !Exits(kept, qc, window, exclude, m);
      assert n >= m || !Exits(kept, qc, window, exclude, n);
    }
  }

  /** The excluded set is short of `exclude` exactly while the authors seen are, and is then all of
      them. */
  lemma {:induction false} ExcludedIsAuthors(trail: seq<Visit>, exclude: nat)
    ensures LastAuthors(trail, exclude) <= Authors(trail)
    ensures |LastAuthors(trail, exclude)| >= exclude <==> |Authors(trail)| >= exclude
    ensures |Authors(trail)| < exclude ==> LastAuthors(trail, exclude) == Authors(trail)
  {
    if trail != [] {
      var front, last := trail[..|trail| - 1], trail[|trail| - 1];
      ExcludedIsAuthors(front, exclude);
      AuthorsSnoc(front, last);
      assert trail == front + [last];
      Quorums.SubsetSize(Authors(front), Authors(trail));
      Quorums.SubsetSize(LastAuthors(trail, exclude), Authors(trail));
    }
  }

  lemma AuthorsSnoc(trail: seq<Visit>, v: Visit)
    ensures Authors(trail + [v]) == Authors(trail) + {v.block.author}
  {
    var longer := trail + [v];
    assert forall i :: 0 <= i < |trail| ==> longer[i] == trail[i];
    assert longer[|trail|] == v;
  }

  /** Whoever is elected has not authored a recent block: the walk saw `exclude` other authors
      before any block of theirs, all but `|faulty| - 1` of them honest if the elected one is not. */
  lemma ElectedIsNotRecent(window: nat, exclude: nat, spread: Round -> Round, kept: seq<Block>, qc: QuorumCert,
                           i: nat, faulty: set<Id>)
    requires var trail := TrailOf(kept, qc, window, exclude);
             var e := Elect(window, exclude, spread, kept, qc);
             e.Some? && i < |trail| && trail[i].block.author == e.value
    ensures var trail := TrailOf(kept, qc, window, exclude);
            var e := Elect(window, exclude, spread, kept, qc).value;
            && |Authors(trail[..i]) - {e}| >= exclude
            && (e in faulty ==> |Authors(trail[..i]) - faulty| >= exclude - |faulty| + 1)
  {
    hide Elect;
    hide TrailOf;
    var trail, e := TrailOf(kept, qc, window, exclude), Elect(window, exclude, spread, kept, qc).value;
    ElectedIsCandidate(window, exclude, spread, kept, qc);
    var recent := LastAuthors(trail[..i], exclude);
    ExclusionKeeps(trail, exclude, i);
    ExcludedIsAuthors(trail[..i], exclude);
    Quorums.SubsetSize(recent, Authors(trail[..i]) - {e});
    if e in faulty {
      var others := faulty - {e};
      assert recent - others <= Authors(trail[..i]) - faulty;
      Quorums.SubsetSize(recent - others, Authors(trail[..i]) - faulty);
      Quorums.SubsetSize(recent * others, others);
      assert |recent| == |recent - others| + |recent * others|;
    }
  }

  /** Exclusions are never undone, and a stop's author is excluded unless enough were before it. */
  lemma {:induction false} ExclusionKeeps(trail: seq<Visit>, exclude: nat, i: nat)
    requires i < |trail|
    ensures LastAuthors(trail[..i], exclude) <= LastAuthors(trail, exclude)
    ensures trail[i].block.author in LastAuthors(trail, exclude) || |LastAuthors(trail[..i], exclude)| >= exclude
  {
    var front := trail[..|trail| - 1];
    if i == |front| {
      assert trail[..i] == front;
    } else {
      assert front[..i] == trail[..i];
      ExclusionKeeps(front, exclude, i);
    }
  }

  /** Two replicas that visit the same blocks elect the same leader, whatever else either of them
      retains and in whatever order its map is walked. */
  lemma ReplicasElectAlike(window: nat, exclude: nat, spread: Round -> Round, kept: seq<Block>, other: seq<Block>,
                           qc: QuorumCert, n: nat)
    requires EndsAt(kept, qc, window, exclude, n)
    requires forall i :: 0 <= i < n ==> StopAt(kept, qc, i) == StopAt(other, qc, i)
    requires StopAt(kept, qc, n).None? ==> StopAt(other, qc, n).None?
    ensures Elect(window, exclude, spread, kept, qc) == Elect(window, exclude, spread, other, qc)
  {
    hide Elect;
    forall m | 0 <= m <= n
      ensures Trail(kept, qc, m) == Trail(other, qc, m)
      ensures m < n ==> !Exits(other, qc, window, exclude, m)
    {
      SameStopsSameTrail(kept, other, qc, m);
      if m < n { assert !Exits(kept, qc, window, exclude, m); }
    }
    assert EndsAt(other, qc, window, exclude, n);
    TrailEndsAt(kept, qc, window, exclude, n);
    TrailEndsAt(other, qc, window, exclude, n);
    SameCandidatesElectAlike(window, exclude, spread, kept, other, qc);
  }

  lemma {:induction false} SameStopsSameTrail(kept: seq<Block>, other: seq<Block>, qc: QuorumCert, n: nat)
    requires forall i :: 0 <= i < n ==> StopAt(kept, qc, i) == StopAt(other, qc, i)
    ensures Trail(kept, qc, n) == Trail(other, qc, n)
  {
    if n > 0 {
      SameStopsSameTrail(kept, other, qc, n - 1);
      if n > 1 { assert StopAt(kept, qc, n - 2) == StopAt(other, qc, n - 2); }
    }
  }

  lemma SameCandidatesElectAlike(window: nat, exclude: nat, spread: Round -> Round, kept: seq<Block>, other: seq<Block>,
                                 qc: QuorumCert)
    requires var t, u := TrailOf(kept, qc, window, exclude), TrailOf(other, qc, window, exclude);
             ActiveSigners(t, window) - LastAuthors(t, exclude) == ActiveSigners(u, window) - LastAuthors(u, exclude)
    ensures Elect(window, exclude, spread, kept, qc) == Elect(window, exclude, spread, other, qc)
  {
    hide TrailOf;
    hide LastAuthors;
    hide ActiveSigners;
    hide Elect;
    ElectedIsCandidate(window, exclude, spread, kept, qc);
    ElectedIsCandidate(window, exclude, spread, other, qc);
    var t := TrailOf(kept, qc, window, exclude);
    var c := ActiveSigners(t, window) - LastAuthors(t, exclude);
    var e, f := Elect(window, exclude, spread, kept, qc), Elect(window, exclude, spread, other, qc);
    if e.Some? { ElectedUnique(c, spread(qc.voteInfo.round) % |c|, e.value, f.value); }
  }

  // ------------------------------------------------------------------------- termination

  ghost predicate Revisits(kept: seq<Block>, qc: QuorumCert, exclude: nat, i: nat, j: nat) {
    i < j && StopAt(kept, qc, i).Some? && StopAt(kept, qc, i) == StopAt(kept, qc, j)
    && |Authors(Trail(kept, qc, j))| < exclude
  }

  /** The loop ends unless, still short of `exclude` authors, it comes back to a block it has
      visited, and then it never does. */
  lemma WalkEndsIff(kept: seq<Block>, qc: QuorumCert, window: nat, exclude: nat)
    ensures Ends(kept, qc, window, exclude) <==> !(exists i, j :: Revisits(kept, qc, exclude, i, j))
  {
    if i, j :| Revisits(kept, qc, exclude, i, j) {
      forall n: nat ensures !Exits(kept, qc, window, exclude, n) {
        var m := RepeatedStop(kept, qc, i, j, n);
        AuthorsStay(kept, qc, i, j, n);
        Quorums.SubsetSize(Authors(Trail(kept, qc, n)), Authors(Trail(kept, qc, j)));
      }
    } else if forall n: nat :: !Exits(kept, qc, window, exclude, n) {
      forall n: nat ensures StopAt(kept, qc, n).Some? { assert !Exits(kept, qc, window, exclude, n); }
      var i, j := SomeRepeat(kept, qc);
      var n := if j > window then j else window;
      AuthorsGrow(kept, qc, j, n);
      Quorums.SubsetSize(Authors(Trail(kept, qc, j)), Authors(Trail(kept, qc, n)));
      assert !Exits(kept, qc, window, exclude, n);
      assert Revisits(kept, qc, exclude, i, j);
    }
  }

  /** With an exclusion of one author at most, every walk ends, whatever the ledger holds. */
  lemma SmallExclusionEnds(kept: seq<Block>, qc: QuorumCert, window: nat, exclude: nat)
    requires exclude <= 1
    ensures Ends(kept, qc, window, exclude)
  {
    hide Ends;
    WalkEndsIff(kept, qc, window, exclude);
    forall i: nat, j: nat ensures !Revisits(kept, qc, exclude, i, j) {
      if i < j && StopAt(kept, qc, i).Some? { StopHasAuthor(kept, qc, i, j); }
    }
  }

  lemma StopHasAuthor(kept: seq<Block>, qc: QuorumCert, i: nat, j: nat)
    requires i < j && StopAt(kept, qc, i).Some?
    ensures |Authors(Trail(kept, qc, j))| >= 1
  {
    hide StopAt;
    hide Trail;
    TrailStep(kept, qc, i);
    AuthorsGrow(kept, qc, i + 1, j);
    Quorums.SubsetSize({StopAt(kept, qc, i).value.author}, Authors(Trail(kept, qc, j)));
  }

  lemma {:induction false} StopsStart(kept: seq<Block>, qc: QuorumCert, n: nat, m: nat)
    requires n <= m && StopAt(kept, qc, m).Some?
    ensures StopAt(kept, qc, n).Some?
    decreases m
  {
    if n < m { StopsStart(kept, qc, n, m - 1); }
  }

  /** One more turn adds at most the author of its stop. */
  lemma TrailStep(kept: seq<Block>, qc: QuorumCert, n: nat)
    requires StopAt(kept, qc, n).Some?
    ensures CertAt(kept, qc, n).Some?
    ensures Trail(kept, qc, n + 1) == Trail(kept, qc, n) + [Visit(CertAt(kept, qc, n).value, StopAt(kept, qc, n).value)]
    ensures Authors(Trail(kept, qc, n + 1)) == Authors(Trail(kept, qc, n)) + {StopAt(kept, qc, n).value.author}
  {
    AuthorsSnoc(Trail(kept, qc, n), Visit(CertAt(kept, qc, n).value, StopAt(kept, qc, n).value));
  }

  lemma {:induction false} AuthorsGrow(kept: seq<Block>, qc: QuorumCert, n: nat, m: nat)
    requires n <= m
    ensures Authors(Trail(kept, qc, n)) <= Authors(Trail(kept, qc, m))
    decreases m
  {
    if n < m {
      AuthorsGrow(kept, qc, n, m - 1);
      if StopAt(kept, qc, m - 1).Some? { TrailStep(kept, qc, m - 1); }
      else { assert Trail(kept, qc, m) == Trail(kept, qc, m - 1); }
    }
  }

  /** After a repeat every stop is one of those before it. */
  lemma {:induction false} RepeatedStop(kept: seq<Block>, qc: QuorumCert, i: nat, j: nat, n: nat) returns (m: nat)
    requires i < j && StopAt(kept, qc, i).Some? && StopAt(kept, qc, i) == StopAt(kept, qc, j)
    ensures m < j && StopAt(kept, qc, n).Some? && StopAt(kept, qc, n) == StopAt(kept, qc, m)
    decreases n
  {
    if n < j {
      StopsStart(kept, qc, n, j);
      m := n;
    } else if n == j {
      m := i;
    } else {
      var p := RepeatedStop(kept, qc, i, j, n - 1);
      assert StopAt(kept, qc, n) == StopAt(kept, qc, p + 1);
      if p + 1 < j {
        StopsStart(kept, qc, p + 1, j);
        m := p + 1;
      } else {
        m := i;
      }
    }
  }

  lemma {:induction false} AuthorsStay(kept: seq<Block>, qc: QuorumCert, i: nat, j: nat, n: nat)
    requires i < j && StopAt(kept, qc, i).Some? && StopAt(kept, qc, i) == StopAt(kept, qc, j)
    ensures Authors(Trail(kept, qc, n)) <= Authors(Trail(kept, qc, j))
    decreases n
  {
    hide StopAt;
    hide Trail;
    hide Authors;
    if n <= j {
      AuthorsGrow(kept, qc, n, j);
    } else {
      AuthorsStay(kept, qc, i, j, n - 1);
      var m := RepeatedStop(kept, qc, i, j, n - 1);
      TrailStep(kept, qc, n - 1);
      TrailStep(kept, qc, m);
      AuthorsGrow(kept, qc, m + 1, j);
    }
  }

  lemma LookupIsKept(kept: seq<Block>, id: Hash)
    requires Lookup(kept, id).Some?
    ensures Lookup(kept, id).value in kept && Lookup(kept, id).value.id == id
  { }

  /** More places than values: one value comes twice. */
  lemma {:induction false} Pigeonhole<T>(s: seq<T>, values: set<T>) returns (i: nat, j: nat)
    requires |s| > |values| && forall k :: 0 <= k < |s| ==> s[k] in values
    ensures i < j < |s| && s[i] == s[j]
    decreases |s|
  {
    var last := |s| - 1;
    if k :| 0 <= k < last && s[k] == s[last] {
      i, j := k, last;
    } else {
      i, j := Pigeonhole(s[..last], values - {s[last]});
    }
  }

  ghost function Stops(kept: seq<Block>, qc: QuorumCert, n: nat): (s: seq<Block>)
    requires forall i: nat :: StopAt(kept, qc, i).Some?
    ensures |s| == n && forall i :: 0 <= i < n ==> StopAt(kept, qc, i) == Some(s[i])
  {
    if n == 0 then [] else Stops(kept, qc, n - 1) + [StopAt(kept, qc, n - 1).value]
  }

  /** A walk that always finds a next block comes back to one. */
  lemma SomeRepeat(kept: seq<Block>, qc: QuorumCert) returns (i: nat, j: nat)
    requires forall n: nat :: StopAt(kept, qc, n).Some?
    ensures i < j && StopAt(kept, qc, i) == StopAt(kept, qc, j)
  {
    hide StopAt;
    var blocks := set b | b in kept;
    var s := Stops(kept, qc, |blocks| + 1);
    forall n | 0 <= n < |s| ensures s[n] in blocks { StopIsKept(kept, qc, n); }
    i, j := Pigeonhole(s, blocks);
  }

  lemma StopIsKept(kept: seq<Block>, qc: QuorumCert, n: nat)
    requires StopAt(kept, qc, n).Some?
    ensures StopAt(kept, qc, n).value in kept
    ensures CertAt(kept, qc, n).Some? && StopAt(kept, qc, n).value.id == CertAt(kept, qc, n).value.voteInfo.parentId
  {
    LookupIsKept(kept, CertAt(kept, qc, n).value.voteInfo.parentId);
  }

  /** No committed block's certificate names a parent that is not in a lower round. */
  ghost predicate Descends(kept: seq<Block>) {
    forall b, c :: b in kept && c in kept && b.qc.Some? && c.id == b.qc.value.voteInfo.parentId ==> c.round < b.round
  }

  lemma {:induction false} StopsDescend(kept: seq<Block>, qc: QuorumCert, i: nat, j: nat)
    requires Descends(kept) && i < j && StopAt(kept, qc, j).Some?
    ensures StopAt(kept, qc, i).Some? && StopAt(kept, qc, j).value.round < StopAt(kept, qc, i).value.round
    decreases j
  {
    StopIsKept(kept, qc, j);
    StopsStart(kept, qc, j - 1, j);
    StopIsKept(kept, qc, j - 1);
    if i < j - 1 { StopsDescend(kept, qc, i, j - 1); }
  }

  /** A walk that descends ends. */
  lemma DescentEnds(kept: seq<Block>, qc: QuorumCert, window: nat, exclude: nat)
    requires Descends(kept)
    ensures Ends(kept, qc, window, exclude)
  {
    WalkEndsIff(kept, qc, window, exclude);
    if i, j :| Revisits(kept, qc, exclude, i, j) { StopsDescend(kept, qc, i, j); }
  }

  /** A block the ledger holds, committed or not. */
  ghost predicate Stored(l: Ledger, b: Block) { b in l.log || b in l.pending.Values || b in l.held.Values }

  /** Nothing the ledger could come to commit would lead the walk astray. */
  ghost predicate StoresDescend(l: Ledger) {
    forall b, c :: Stored(l, b) && Stored(l, c) && b.qc.Some? && c.id == b.qc.value.voteInfo.parentId ==>
      c.round < b.round
  }

  lemma StoredKeptDescend(l: Ledger, history: nat)
    requires StoresDescend(l)
    ensures Descends(Retained(l.log, history))
  {
    forall b | b in Retained(l.log, history) ensures Stored(l, b) { }
  }

  lemma {:induction false} PathIsStored(blocks: map<Hash, Block>, root: Hash, id: Hash, b: Block)
    requires Reaches(blocks, root, id) && b in Path(blocks, root, id)
    ensures b in blocks.Values
    decreases Height(id)
  {
    if b != blocks[id] { PathIsStored(blocks, root, ParentId(blocks[id]), b); }
    else { assert id in blocks.Keys; }
  }

  /** A commit moves blocks and drops blocks, and stores nothing new. */
  lemma CommitStores(l: Ledger, id: Hash, b: Block)
    requires Stored(Commit(l, id), b)
    ensures Stored(l, b)
  {
    hide Reaches;
    hide Path;
    var l' := Commit(l, id);
    if l' != l && b !in l.log {
      if b in l'.log { PathIsStored(l.pending, CommitId(l), id, b); }
      else if b in l'.pending.Values { assert exists k :: k in l'.pending && l'.pending[k] == b; }
      else { assert exists k :: k in l'.held && l'.held[k] == b; }
    }
  }

  lemma SpeculateStores(l: Ledger, b: Block, x: Block)
    requires Stored(Speculate(l, b), x)
    ensures Stored(l, x) || x == b
  {
    hide Reaches;
    var l' := Speculate(l, b);
    if x !in l.log {
      if x in l'.pending.Values {
        var k :| k in l'.pending && l'.pending[k] == x;
        assert k in l.pending || k in l.held || x == b;
      } else {
        var k :| k in l'.held && l'.held[k] == x;
        assert k in l.held || x == b;
      }
    }
  }

  lemma CommitKeepsDescent(l: Ledger, id: Hash)
    requires StoresDescend(l)
    ensures StoresDescend(Commit(l, id))
  {
    hide Commit;
    hide Stored;
    var l' := Commit(l, id);
    forall b | Stored(l', b) ensures Stored(l, b) { CommitStores(l, id, b); }
  }

  /** A block as a verified proposal delivers it. */
  ghost predicate Checked(k: Keyring, b: Block) {
    Names(b.id, b) && VerifyOptQC(k, b.qc) && QCRound(b.qc) < b.round
  }

  /** A verified certificate states the true round of the block it certifies. */
  lemma CertifiedRound(execute: Execution, w: World, qc: QuorumCert, b: Block)
    requires WorldInv(execute, w) && VerifyQC(w.keys, qc) && ValidBlockId(b) && b.id == qc.voteInfo.id
    ensures b.round == qc.voteInfo.round
  {
    hide BlockId;
    if qc.voteInfo.round == 0 {
      GenesisRoundZero(b);
    } else {
      var _, s := CorrectVoter(execute, w, qc);
      BlockIdInjective(b, s.block);
    }
  }

  /** Over committed blocks whose certificates verify, the walk always descends. */
  lemma VerifiedDescends(execute: Execution, w: World, kept: seq<Block>)
    requires WorldInv(execute, w)
    requires forall b :: b in kept ==> b == GENESIS_BLOCK || Checked(w.keys, b)
    ensures Descends(kept)
  {
    forall b, c | b in kept && c in kept && b.qc.Some? && c.id == b.qc.value.voteInfo.parentId
      ensures c.round < b.round
    {
      VerifiedStep(execute, w, b, c);
    }
  }

  lemma VerifiedStep(execute: Execution, w: World, b: Block, c: Block)
    requires WorldInv(execute, w)
    requires b == GENESIS_BLOCK || Checked(w.keys, b)
    requires c == GENESIS_BLOCK || Checked(w.keys, c)
    requires b.qc.Some? && c.id == b.qc.value.voteInfo.parentId
    ensures c.round < b.round
  {
    GenesisNamed();
    assert c.id.Sha? && GENESIS_QC.voteInfo.parentId.Raw? && GENESIS_BLOCK.qc.value.voteInfo.parentId.Raw?;
    hide BlockId;
    assert Checked(w.keys, b);
    var qc := b.qc.value;
    assert qc.voteInfo.round > 0;
    var _, s := CorrectVoter(execute, w, qc);
    CertifiedRound(execute, w, s.block.qc.value, c);
  }

  /** Without verified certificates the walk need not end. A block's id does not cover the parent its
      certificate names, so a ledger can come to commit a block that names itself, and no walk that
      starts there finds a second author. */
  lemma WalkMayNotEnd() returns (b: Block)
    ensures ValidBlockId(b) && ValidHash(ParentId(b))
    ensures var l := Commit(Speculate(NEW_LEDGER, b), b.id);
            CommitId(l) == b.id && forall q: QuorumCert, history: nat, window: nat, exclude: nat ::
              q.voteInfo.parentId == b.id && history >= 1 && exclude >= 2
              ==> !Ends(Retained(l.log, history), q, window, exclude)
  {
    hide BlockId;
    hide Commit;
    hide Speculate;
    hide Ends;
    b := SelfNaming(NewBlock(0, 1, [], Some(GENESIS_QC)));
    var l := Commit(Speculate(NEW_LEDGER, b), b.id);
    CommitsAlone(b);
    forall q: QuorumCert, history: nat, window: nat, exclude: nat
      | q.voteInfo.parentId == b.id && history >= 1 && exclude >= 2
      ensures !Ends(Retained(l.log, history), q, window, exclude)
    {
      CircleNeverEnds(Retained(l.log, history), b, q, window, exclude);
    }
  }

  /** The copy of a block over genesis whose certificate claims the block's own id as the parent's. */
  lemma SelfNaming(plain: Block) returns (b: Block)
    requires plain == NewBlock(plain.author, plain.round, plain.payload, Some(GENESIS_QC)) && plain.round > 0
    ensures b == plain.(qc := Some(GENESIS_QC.(voteInfo := GENESIS_QC.voteInfo.(parentId := plain.id))))
    ensures ValidBlockId(b) && ValidHash(ParentId(b)) && ParentId(b) == GENESIS_BLOCK.id && b.id != GENESIS_BLOCK.id
  {
    hide BlockPreimage;
    b := plain.(qc := Some(GENESIS_QC.(voteInfo := GENESIS_QC.voteInfo.(parentId := plain.id))));
    if b.id == GENESIS_BLOCK.id { GenesisRoundZero(b); }
  }

  lemma CommitsAlone(b: Block)
    requires ValidBlockId(b) && ParentId(b) == GENESIS_BLOCK.id && b.id != GENESIS_BLOCK.id
    ensures var l := Commit(Speculate(NEW_LEDGER, b), b.id); l.log == [GENESIS_BLOCK, b] && CommitId(l) == b.id
  {
    hide BlockId;
    hide BlockPreimage;
    var l := Speculate(NEW_LEDGER, b);
    assert Waiting(map[], b.id) == map[];
    assert l.pending == map[b.id := b] && CommitId(l) == GENESIS_BLOCK.id;
    ParentBelow(b);
    assert Reaches(l.pending, GENESIS_BLOCK.id, b.id);
    assert Path(l.pending, GENESIS_BLOCK.id, b.id) == [b];
  }

  /** `b` is the only retained block with its id, and names itself. */
  ghost predicate Circle(kept: seq<Block>, b: Block) {
    && b in kept && (forall c :: c in kept && c.id == b.id ==> c == b)
    && b.qc.Some? && b.qc.value.voteInfo.parentId == b.id
  }

  lemma CircleNeverEnds(kept: seq<Block>, b: Block, q: QuorumCert, window: nat, exclude: nat)
    requires Circle(kept, b) && q.voteInfo.parentId == b.id && exclude >= 2
    ensures !Ends(kept, q, window, exclude)
  {
    LookupFinds(kept, b);
    forall n: nat ensures !Exits(kept, q, window, exclude, n) { Circling(kept, b, q, n); }
  }

  lemma LookupFinds(kept: seq<Block>, b: Block)
    requires Circle(kept, b)
    ensures Lookup(kept, b.id) == Some(b)
  {
    var i :| 0 <= i < |kept| && kept[i] == b;
    assert kept[i].id == b.id;
    LookupIsKept(kept, b.id);
  }

  lemma {:induction false} Circling(kept: seq<Block>, b: Block, q: QuorumCert, n: nat)
    requires Lookup(kept, b.id) == Some(b) && q.voteInfo.parentId == b.id
    requires b.qc.Some? && b.qc.value.voteInfo.parentId == b.id
    ensures StopAt(kept, q, n) == Some(b)
    ensures Authors(Trail(kept, q, n)) <= {b.author} && |Authors(Trail(kept, q, n))| < 2
  {
    if n > 0 {
      Circling(kept, b, q, n - 1);
      TrailStep(kept, q, n - 1);
    }
    Quorums.SubsetSize(Authors(Trail(kept, q, n)), {b.author});
  }
}
