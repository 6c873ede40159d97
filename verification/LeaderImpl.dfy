// diem/leader.go: leader election, with the walk and the candidate set built step by step.
module LeaderImpl {
  import opened Wire
  import opened LedgerModel
  import opened Election
  import opened LedgerImpl
  import opened PacemakerImpl
  import opened ReplicaModel
  import Sorting

  function IdKey(id: Id): int { id }

  class LeaderElection {
    const validators: seq<Id>
    const windowSize: nat
    const excludeSize: nat
    const ledger: MemLedger
    const pacemaker: Pacemaker

    /** The first eight bytes of SHA-256 over a seed, as a number. */
    const spread: Round -> Round

    var reputationLeaders: map<Round, Id>

    constructor (validators: seq<Id>, windowSize: nat, excludeSize: nat, ledger: MemLedger, pacemaker: Pacemaker,
                 spread: Round -> Round)
      ensures this.validators == Sorting.SortBy(IdKey, validators)
      ensures this.windowSize == windowSize && this.excludeSize == excludeSize
      ensures this.ledger == ledger && this.pacemaker == pacemaker && this.spread == spread
      ensures reputationLeaders == map[]
    {
      this.validators := Sorting.SortBy(IdKey, validators);
      this.windowSize := windowSize;
      this.excludeSize := excludeSize;
      this.ledger := ledger;
      this.pacemaker := pacemaker;
      this.spread := spread;
      reputationLeaders := map[];
    }

    /** The leader this replica expects in `round`. */
    method GetLeader(round: Round) returns (id: Id)
      requires |validators| > 0
      ensures id == ExpectedLeader(validators, reputationLeaders, round)
    {
      if round in reputationLeaders {
        return reputationLeaders[round];
      }
      return validators[(round / 2) % |validators|];
    }

    /** Collect the signers and authors of everything visited before the loop leaves. */
    method Walk(qc: QuorumCert) returns (active: set<Id>, excluded: set<Id>)
      requires ledger.Valid() && Ends(Retained(ledger.log, ledger.history), qc, windowSize, excludeSize)
      ensures var trail := TrailOf(Retained(ledger.log, ledger.history), qc, windowSize, excludeSize);
              active == ActiveSigners(trail, windowSize) && excluded == LastAuthors(trail, excludeSize)
    {
      hide MemLedger.Valid;
      hide ActiveSigners;
      hide LastAuthors;
      hide Trail;
      hide TrailOf;
      hide Retained;
      hide Lookup;
      ghost var kept := Retained(ledger.log, ledger.history);
      ghost var last: nat :| Exits(kept, qc, windowSize, excludeSize, last);
      active, excluded := {}, {};
      var current := qc;
      var i := 0;
      WalkStart(kept, qc, windowSize, excludeSize);
      while i < windowSize || |excluded| < excludeSize
        invariant i <= last && CertAt(kept, qc, i) == Some(current)
        invariant forall m :: 0 <= m < i ==> !Exits(kept, qc, windowSize, excludeSize, m)
        invariant |Trail(kept, qc, i)| == i && active == ActiveSigners(Trail(kept, qc, i), windowSize)
        invariant excluded == LastAuthors(Trail(kept, qc, i), excludeSize)
        decreases last - i
      {
        ExcludedIsAuthors(Trail(kept, qc, i), excludeSize);
        var found := ledger.CommittedBlock(current.voteInfo.parentId);
        if found.None? {
          assert StopAt(kept, qc, i).None?;
          break;
        }
        var block := found.value;
        assert StopAt(kept, qc, i) == Some(block);
        assert !Exits(kept, qc, windowSize, excludeSize, i);
        WalkCollects(kept, qc, i, windowSize, excludeSize);
        if i < windowSize {
          active := AddSigners(active, current.signatures);
        }
        if |excluded| < excludeSize {
          excluded := excluded + {block.author};
        }
        i := i + 1;
        if block.qc.None? {
          assert StopAt(kept, qc, i).None?;
          break;
        }
        current := block.qc.value;
      }
      ExcludedIsAuthors(Trail(kept, qc, i), excludeSize);
      TrailEndsAt(kept, qc, windowSize, excludeSize, i);
    }

    method AddSigners(start: set<Id>, sigs: seq<Signature>) returns (ids: set<Id>)
      ensures ids == start + SignersOf(sigs)
    {
      ids := start;
      for j := 0 to |sigs|
        invariant ids == start + SignersOf(sigs[..j])
      {
        assert sigs[..j + 1] == sigs[..j] + [sigs[j]];
        SignersSnoc(sigs[..j], sigs[j]);
        ids := ids + {sigs[j].signer};
      }
      assert sigs[..|sigs|] == sigs;
    }

    /** The members of `active` that are not excluded, in whatever order the map yields them. */
    method GatherCandidates(active: set<Id>, excluded: set<Id>) returns (candidates: seq<Id>)
      ensures Sorting.Distinct(IdKey, candidates)
      ensures forall x :: x in candidates <==> x in active && x !in excluded
    {
      candidates := [];
      var todo := active;
      while todo != {}
        invariant todo <= active && Sorting.Distinct(IdKey, candidates)
        invariant forall x :: x in candidates <==> x in active && x !in todo && x !in excluded
        decreases |todo|
      {
        var x: Id :| x in todo;
        todo := todo - {x};
        if x !in excluded {
          assert x !in candidates;
          candidates := candidates + [x];
        }
      }
    }

    /** A deterministic pick from the difference, or nothing when it is empty. */
    method ElectReputationLeader(qc: QuorumCert) returns (elected: Option<Id>)
      requires ledger.Valid() && Ends(Retained(ledger.log, ledger.history), qc, windowSize, excludeSize)
      ensures elected == Elect(windowSize, excludeSize, spread, Retained(ledger.log, ledger.history), qc)
    {
      hide MemLedger.Valid;
      hide Ends;
      hide TrailOf;
      hide Elect;
      hide ActiveSigners;
      hide LastAuthors;
      ghost var kept := Retained(ledger.log, ledger.history);
      var active, excluded := Walk(qc);
      ElectedIsCandidate(windowSize, excludeSize, spread, kept, qc);
      var candidates := GatherCandidates(active, excluded);
      ghost var c := active - excluded;
      if |candidates| == 0 {
        NoCandidates(c, candidates);
        return None;
      }
      var sorted := Sorting.SortBy(IdKey, candidates);
      SortedCandidates(c, candidates);
      var index := spread(qc.voteInfo.round) % |candidates|;
      RankOfSorted(c, sorted, index);
      elected := Some(sorted[index]);
      ElectedUnique(c, index, sorted[index], Elect(windowSize, excludeSize, spread, kept, qc).value);
    }

    /** Remember a leader for the round after next on a fresh contiguous 2-chain, and no leader of a
        round left behind. */
    method UpdateLeaders(qc: QuorumCert, ghost cfg: Config, ghost r: Replica)
      requires ledger.Valid() && cfg.history == ledger.history && r.ledger.log == ledger.log
      requires r.pacemaker.currentRound == pacemaker.currentRound && r.leaders == reputationLeaders
      requires cfg.elect(qc, Retained(ledger.log, ledger.history))
               == Elect(windowSize, excludeSize, spread, Retained(ledger.log, ledger.history), qc)
      requires Fresh(r, qc) ==> Ends(Retained(ledger.log, ledger.history), qc, windowSize, excludeSize)
      modifies this
      ensures reputationLeaders == ReplicaModel.UpdateLeaders(cfg, r, qc)
      ensures var current, elected := pacemaker.currentRound, cfg.elect(qc, Retained(ledger.log, ledger.history));
              var counts := Fresh(r, qc) && elected.Some? && current < MAX_U64;
              && (counts ==> current + 1 in reputationLeaders && reputationLeaders[current + 1] == elected.value)
              && (forall x: Round :: x >= current && !(counts && x == current + 1) ==>
                    && (x in reputationLeaders <==> x in old(reputationLeaders))
                    && (x in reputationLeaders ==> reputationLeaders[x] == old(reputationLeaders)[x]))
    {
      hide MemLedger.Valid;
      hide Ends;
      hide Elect;
      hide Retained;
      var extendedRound := qc.voteInfo.parentRound;
      var qcRound := qc.voteInfo.round;
      var current := pacemaker.currentRound;
      if Succ(extendedRound) != qcRound || Succ(qcRound) != current {
        return;
      }
      var elected := ElectReputationLeader(qc);
      if elected.Some? {
        reputationLeaders := reputationLeaders[Succ(current) := elected.value];
      }
      ForgetBelow(current);
    }

    method ForgetBelow(current: Round)
      modifies this
      ensures reputationLeaders == map x | x in old(reputationLeaders) && x >= current :: old(reputationLeaders)[x]
    {
      var todo := reputationLeaders.Keys;
      while todo != {}
        invariant todo <= old(reputationLeaders).Keys
        invariant forall x :: x in reputationLeaders ==>
                    x in old(reputationLeaders) && reputationLeaders[x] == old(reputationLeaders)[x]
        invariant forall x :: x in old(reputationLeaders) && (x in todo || x >= current) ==> x in reputationLeaders
        invariant forall x :: x in reputationLeaders && x !in todo ==> x >= current
        decreases |todo|
      {
        var x: Round :| x in todo;
        todo := todo - {x};
        if x < current {
          reputationLeaders := reputationLeaders - {x};
        }
      }
    }
  }

  // ------------------------------------------------------------------------------- lemmas

  ghost function SignersOf(sigs: seq<Signature>): set<Id> { set j | 0 <= j < |sigs| :: sigs[j].signer }

  lemma SignersSnoc(sigs: seq<Signature>, s: Signature)
    ensures SignersOf(sigs + [s]) == SignersOf(sigs) + {s.signer}
  {
    assert forall j :: 0 <= j < |sigs| ==> (sigs + [s])[j] == sigs[j];
    assert (sigs + [s])[|sigs|] == s;
  }

  lemma WalkStart(kept: seq<Block>, qc: QuorumCert, window: nat, exclude: nat)
    ensures |Trail(kept, qc, 0)| == 0 && ActiveSigners(Trail(kept, qc, 0), window) == {}
            && LastAuthors(Trail(kept, qc, 0), exclude) == {}
  { }

  /** What one turn adds to each set. */
  lemma WalkCollects(kept: seq<Block>, qc: QuorumCert, i: nat, window: nat, exclude: nat)
    requires StopAt(kept, qc, i).Some? && CertAt(kept, qc, i).Some? && |Trail(kept, qc, i)| == i
    ensures |Trail(kept, qc, i + 1)| == i + 1
    ensures ActiveSigners(Trail(kept, qc, i + 1), window) == ActiveSigners(Trail(kept, qc, i), window) +
              (if i < window then SignersOf(CertAt(kept, qc, i).value.signatures) else {})
    ensures var before := LastAuthors(Trail(kept, qc, i), exclude);
            LastAuthors(Trail(kept, qc, i + 1), exclude) ==
              if |before| < exclude then before + {StopAt(kept, qc, i).value.author} else before
  {
    hide StopAt;
    hide CertAt;
    var t, v := Trail(kept, qc, i), Visit(CertAt(kept, qc, i).value, StopAt(kept, qc, i).value);
    TrailStep(kept, qc, i);
    var u := t + [v];
    assert u[..|u| - 1] == t && u[|u| - 1] == v;
    ActiveSnoc(t, v, window);
  }

  lemma ActiveSnoc(t: seq<Visit>, v: Visit, window: nat)
    ensures ActiveSigners(t + [v], window) == ActiveSigners(t, window) +
              (if |t| < window then SignersOf(v.cert.signatures) else {})
  {
    var u := t + [v];
    assert forall i :: 0 <= i < |t| ==> u[i] == t[i];
    assert u[|t|] == v;
    forall x | x in ActiveSigners(t, window) ensures x in ActiveSigners(u, window) {
      var i, j :| 0 <= i < |t| && i < window && 0 <= j < |t[i].cert.signatures| && x == t[i].cert.signatures[j].signer;
      assert x == u[i].cert.signatures[j].signer;
    }
    if |t| < window {
      forall x | x in SignersOf(v.cert.signatures) ensures x in ActiveSigners(u, window) {
        var j :| 0 <= j < |v.cert.signatures| && x == v.cert.signatures[j].signer;
        assert x == u[|t|].cert.signatures[j].signer;
      }
    }
  }

  lemma NoCandidates(c: set<Id>, candidates: seq<Id>)
    requires |candidates| == 0 && forall x :: x in candidates <==> x in c
    ensures c == {}
  { }

  lemma {:induction false} DistinctCount(s: seq<Id>, c: set<Id>)
    requires Sorting.Distinct(IdKey, s) && forall x :: x in s <==> x in c
    ensures |s| == |c|
  {
    if s == [] {
      assert c == {};
    } else {
      var last := |s| - 1;
      var x := s[last];
      forall y | y in s[..last] ensures y != x {
        var i :| 0 <= i < last && s[i] == y;
        assert IdKey(s[i]) != IdKey(s[last]);
      }
      forall y | y in c - {x} ensures y in s[..last] {
        var i :| 0 <= i < |s| && s[i] == y;
        assert s[..last][i] == y;
      }
      DistinctCount(s[..last], c - {x});
    }
  }

  lemma SortedCandidates(c: set<Id>, candidates: seq<Id>)
    requires Sorting.Distinct(IdKey, candidates) && forall x :: x in candidates <==> x in c
    ensures var sorted := Sorting.SortBy(IdKey, candidates);
            && |sorted| == |candidates| == |c| && Sorting.Ascending(IdKey, sorted)
            && forall x :: x in sorted <==> x in c
  {
    hide Sorting.SortBy;
    var sorted := Sorting.SortBy(IdKey, candidates);
    Sorting.SortAscends(IdKey, candidates);
    Sorting.SortPermutes(IdKey, candidates);
    DistinctCount(candidates, c);
    assert |multiset(sorted)| == |sorted| && |multiset(candidates)| == |candidates|;
    assert forall x :: x in sorted <==> x in multiset(sorted);
  }

  lemma {:induction false} AscendingPair(s: seq<Id>, i: nat, j: nat)
    requires Sorting.Ascending(IdKey, s) && i < j < |s|
    ensures s[i] < s[j]
    decreases j - i
  {
    assert IdKey(s[j - 1]) < IdKey(s[j]);
    if i < j - 1 { AscendingPair(s, i, j - 1); }
  }

  /** The index in the sorted candidates is the number of smaller ones. */
  lemma {:induction false} RankOfSorted(c: set<Id>, sorted: seq<Id>, index: nat)
    requires Sorting.Ascending(IdKey, sorted) && index < |sorted| && forall x :: x in sorted <==> x in c
    ensures IsElected(c, index, sorted[index])
  {
    forall i, j | 0 <= i < j < |sorted| ensures sorted[i] < sorted[j] { AscendingPair(sorted, i, j); }
    var below := sorted[..index];
    forall i, j | 0 <= i < j < |below| ensures IdKey(below[i]) != IdKey(below[j]) { assert sorted[i] < sorted[j]; }
    forall x ensures x in below <==> x in Smaller(c, sorted[index]) {
      if x in Smaller(c, sorted[index]) {
        var i :| 0 <= i < |sorted| && sorted[i] == x;
        assert below[i] == x;
      }
      if x in below { var i :| 0 <= i < |below| && below[i] == x; assert sorted[i] == x; }
    }
    DistinctCount(below, Smaller(c, sorted[index]));
  }
}
