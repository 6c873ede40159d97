// The reputation election over whole runs: how much it remembers, when its walk ends, and when two
// replicas elect the same leader.
module Reputation {
  import opened Wire
  import opened Hashing
  import opened Verification
  import opened Chains
  import opened LedgerModel
  import opened SafetyRules
  import opened Agreement
  import opened TreeModel
  import opened ReplicaModel
  import opened ReplicaInvariant
  import opened System
  import opened Election
  import opened Storage
  import opened Walks
  import opened Ceiling
  import opened Rounds
  import Quorums

  // ------------------------------------------------------------------- remembered leaders

  /** At most two rounds have an elected leader, and none is beyond the next round. */
  ghost predicate LeadersOk(r: Replica) {
    && r.pacemaker.currentRound >= 1 && |r.leaders| <= 2
    && forall x :: x in r.leaders ==> x <= r.pacemaker.currentRound + 1
  }

  lemma TwoRounds(m: map<Round, Id>, current: Round)
    requires forall x :: x in m ==> current <= x <= current + 1
    ensures |m| <= 2
  {
    var two: set<int> := {current, current + 1};
    var keys: set<int> := m.Keys;
    assert keys <= two;
    Quorums.SubsetSize(keys, two);
    assert |m| == |m.Keys|;
  }

  lemma UpdateLeadersOk(cfg: Config, r: Replica, qc: QuorumCert)
    requires LeadersOk(r)
    ensures LeadersOk(r.(leaders := UpdateLeaders(cfg, r, qc)))
  {
    hide Retained;
    var leaders := UpdateLeaders(cfg, r, qc);
    if leaders != r.leaders { TwoRounds(leaders, r.pacemaker.currentRound); }
  }

  lemma CertificateLeaders(cfg: Config, r: Replica, qc: Option<QuorumCert>)
    requires LeadersOk(r) && QCRound(qc) < MAX_U64
    ensures LeadersOk(ProcessCertificateQC(cfg, r, qc).0)
  {
    hide UpdateLeaders;
    hide ProcessQC;
    hide Commit;
    if qc.Some? {
      var r1 := ProcessTreeQC(r, qc);
      UpdateLeadersOk(cfg, r1, qc.value);
    }
  }

  lemma AbsorbLeaders(cfg: Config, r: Replica, qc: Option<QuorumCert>, commitQC: Option<QuorumCert>,
                      tc: Option<TimeoutCert>)
    requires LeadersOk(r) && QCRound(qc) < MAX_U64 && QCRound(commitQC) < MAX_U64 && TcBelowMax(tc)
    ensures LeadersOk(Absorb(cfg, r, qc, commitQC, tc))
  {
    hide ProcessCertificateQC;
    CertificateLeaders(cfg, r, qc);
    CertificateLeaders(cfg, ProcessCertificateQC(cfg, r, qc).0, commitQC);
  }

  lemma TimeoutLeaders(cfg: Config, k: Keyring, r: Replica, m: TimeoutMsg, inputs: Inputs)
    requires LeadersOk(r) && BelowMax(TimeoutEvent(m))
    ensures LeadersOk(HandleTimeout(cfg, k, r, m, inputs).replica)
  {
    hide Absorb;
    hide ProcessRemoteTimeout;
    AbsorbLeaders(cfg, r, m.tmoInfo.highQc, m.highCommitQc, m.lastRoundTc);
    RemoteTimeoutKeepsRest(cfg, k, Absorb(cfg, r, m.tmoInfo.highQc, m.highCommitQc, m.lastRoundTc), m.tmoInfo,
                           inputs.timeoutSig);
  }

  lemma VoteLeaders(cfg: Config, k: Keyring, r: Replica, m: VoteMsg, inputs: Inputs)
    requires ReplicaInv(k, r) && LeadersOk(r) && VerifyVote(k, m)
    ensures LeadersOk(HandleVote(cfg, r, m, inputs).replica)
  {
    hide VerifyVote;
    hide ProcessTreeQC;
    hide ProcessVote;
    hide ProcessCertificateQC;
    hide ReplicaInv;
    hide TreeInv;
    assert VerifyCommitQC(k, m.highCommitQc) by { VoteCarriesVerified(k, m); }
    ProcessTreeQCInv(k, r, m.highCommitQc);
    TreeQCKeepsLeaders(r, m.highCommitQc);
    var r1 := ProcessTreeQC(r, m.highCommitQc);
    assert TreeInv(k, r1.tree) by { InvHasTree(k, r1); }
    var (tree, qc) := ProcessVote(cfg.self, cfg.Quorum(), r1.tree, m, inputs.authorSig);
    if qc.Some? && !OutOfWindow(r.pacemaker.currentRound, m.voteInfo.round) {
      CompletedRound(cfg, k, r1.tree, m, inputs.authorSig);
      CertificateLeaders(cfg, r1.(tree := tree), qc);
    }
  }

  lemma TreeQCKeepsLeaders(r: Replica, qc: Option<QuorumCert>)
    ensures ProcessTreeQC(r, qc).leaders == r.leaders && ProcessTreeQC(r, qc).pacemaker == r.pacemaker
  { }

  lemma VoteCarriesVerified(k: Keyring, m: VoteMsg)
    requires VerifyVote(k, m)
    ensures VerifyCommitQC(k, m.highCommitQc)
  { }

  lemma InvHasTree(k: Keyring, r: Replica)
    requires ReplicaInv(k, r)
    ensures TreeInv(k, r.tree)
  { }

  lemma StepLeaders(cfg: Config, k: Keyring, r: Replica, e: Event, inputs: Inputs)
    requires ReplicaInv(k, r) && LeadersOk(r) && VerifiedEvent(k, e) && BelowMax(e)
    ensures LeadersOk(Step(cfg, k, r, e, inputs).replica)
  {
    hide ReplicaInv;
    hide VerifyProposal;
    hide VerifyVote;
    hide VerifyTimeout;
    hide HandleTimeout;
    hide HandleVote;
    hide Absorb;
    hide BallotFor;
    hide MayTimeout;
    match e
    case ProposalEvent(p) => AbsorbLeaders(cfg, r, p.block.qc, p.highCommitQc, p.lastRoundTc);
    case VoteEvent(m) => VoteLeaders(cfg, k, r, m, inputs);
    case TimeoutEvent(m) => TimeoutLeaders(cfg, k, r, m, inputs);
    case LocalTimeoutEvent(_) =>
    case BlockEvent(_) =>
    case BlockRequestEvent(_) =>
  }

  lemma NextLeaders(net: Network, s: SystemState, a: Action, r: Id)
    requires ValidNetwork(net) && SystemInv(net, s) && Enabled(net, s, a) && (a.Handle? ==> BelowMax(a.event))
    requires r in s.replicas ==> LeadersOk(s.replicas[r])
    requires r in Next(net, s, a).replicas
    ensures LeadersOk(Next(net, s, a).replicas[r])
  {
    hide LeadersOk;
    hide ReplicaInv;
    hide WorldInv;
    hide Covers;
    hide Step;
    hide Start;
    hide VerifiedEvent;
    hide BelowMax;
    if a.who == r {
      match a
      case StartUp(_, inputs) => StartLeaders(net.configs[r], inputs);
      case Handle(_, e, inputs) => StepLeaders(net.configs[r], s.world.keys, s.replicas[r], e, inputs);
    }
  }

  /** In every run a replica remembers an elected leader for at most two rounds. */
  lemma {:induction false} LeadersBounded(net: Network, states: seq<SystemState>, actions: seq<Action>, i: nat, r: Id)
    requires ValidNetwork(net) && IsRun(net, states, actions) && |actions| < MAX_U64
    requires i < |states| && r in states[i].replicas
    ensures LeadersOk(states[i].replicas[r])
  {
    hide LeadersOk;
    hide SystemInv;
    hide Next;
    hide BelowMax;
    if i > 0 {
      RunInv(net, states, actions, i - 1);
      RoundsRiseSlowly(net, states, actions, i - 1);
      if r in states[i - 1].replicas { LeadersBounded(net, states, actions, i - 1, r); }
      NextLeaders(net, states[i - 1], actions[i - 1], r);
    }
  }

  lemma StartLeaders(cfg: Config, inputs: Inputs)
    ensures LeadersOk(Start(cfg, inputs).replica)
  { }

  // -------------------------------------------------------------------------- rotation

  /** Without an elected leader, rounds 2k and 2k+1 share one, and every n consecutive values of k
      give each of the n positions exactly one turn. */
  lemma RotationIsFair(validators: seq<Id>, leaders: map<Round, Id>, first: nat, position: nat) returns (k: nat)
    requires position < |validators| && 2 * (first + |validators|) <= MAX_U64
    requires forall x :: x in leaders ==> x < 2 * first
    ensures first <= k < first + |validators|
    ensures ExpectedLeader(validators, leaders, 2 * k) == validators[position]
    ensures ExpectedLeader(validators, leaders, 2 * k + 1) == validators[position]
    ensures forall j :: first <= j < first + |validators| && j % |validators| == position ==> j == k
  {
    k := TurnInWindow(|validators|, first, position);
    TurnLeads(validators, leaders, k);
    forall j | first <= j < first + |validators| && j % |validators| == position ensures j == k {
      OnlyTurn(|validators|, j, k);
    }
  }

  lemma TurnLeads(validators: seq<Id>, leaders: map<Round, Id>, k: nat)
    requires |validators| > 0 && 2 * k + 1 <= MAX_U64 && 2 * k !in leaders && 2 * k + 1 !in leaders
    ensures ExpectedLeader(validators, leaders, 2 * k) == validators[k % |validators|]
    ensures ExpectedLeader(validators, leaders, 2 * k + 1) == validators[k % |validators|]
  {
    assert (2 * k) / 2 == k && (2 * k + 1) / 2 == k;
  }

  lemma OnlyTurn(n: nat, j: nat, k: nat)
    requires n > 0 && j % n == k % n && j < k + n && k < j + n
    ensures j == k
  {
    DivMod(n, j);
    DivMod(n, k);
    SameTurn(n, j / n, k / n, k % n);
  }

  lemma TurnInWindow(n: nat, first: nat, position: nat) returns (k: nat)
    requires position < n
    ensures first <= k < first + n && k % n == position
  {
    var q, m := first / n, first % n;
    assert first == n * q + m;
    var turn := if m <= position then q else q + 1;
    assert n * (q + 1) == n * q + n;
    k := n * turn + position;
    SmallRemainder(n, turn, position);
  }

  lemma MultiplesApart(n: nat, a: nat, b: nat)
    ensures a < b ==> n * a + n <= n * b
  {
    assert n * (a + 1) == n * a + n;
    if a < b { assert n * b == n * (a + 1) + n * (b - a - 1); }
  }

  lemma SmallRemainder(n: nat, q: nat, m: nat)
    requires m < n
    ensures (n * q + m) % n == m
  {
    var x := n * q + m;
    assert x == n * (x / n) + x % n;
    MultiplesApart(n, x / n, q);
    MultiplesApart(n, q, x / n);
  }

  lemma DivMod(n: nat, x: nat)
    requires n > 0
    ensures x == n * (x / n) + x % n
  { }

  lemma SameTurn(n: nat, a: nat, b: nat, m: nat)
    requires n * a + m < n * b + m + n && n * b + m < n * a + m + n
    ensures n * a + m == n * b + m
  {
    MultiplesApart(n, a, b);
    MultiplesApart(n, b, a);
  }

  // -------------------------------------------------------------------- the walk over a run

  /** In every run whose fetched blocks verify, nothing a replica stores can keep the walk going:
      each stop is in a lower round than the one before. */
  lemma WalkDescendsInRuns(net: Network, states: seq<SystemState>, actions: seq<Action>, i: nat, r: Id)
    requires ValidNetwork(net) && IsRun(net, states, actions) && FetchesChecked(states, actions)
    requires i < |states| && r in states[i].replicas
    ensures StoresDescend(states[i].replicas[r].ledger)
  {
    hide ReplicaInv;
    hide WorldInv;
    hide Covers;
    hide Next;
    hide Stored;
    hide Checked;
    RunInv(net, states, actions, i);
    RunGenuine(net, states, actions, i, r);
    var w, l := states[i].world, states[i].replicas[r].ledger;
    forall b, c | Stored(l, b) && Stored(l, c) && b.qc.Some? && c.id == b.qc.value.voteInfo.parentId
      ensures c.round < b.round
    {
      VerifiedStep(net.execute, w, b, c);
    }
  }

  /** So in every such run every step returns: each walk it starts ends. */
  lemma WalksEndInRuns(net: Network, states: seq<SystemState>, actions: seq<Action>, i: nat, window: nat, exclude: nat)
    requires ValidNetwork(net) && IsRun(net, states, actions) && FetchesChecked(states, actions)
    requires i < |actions| && actions[i].Handle?
    ensures var a := actions[i];
            StepWalksEnd(net.configs[a.who], window, exclude, states[i].replicas[a.who], a.event, a.inputs)
  {
    hide StoresDescend;
    hide Checked;
    hide Next;
    hide StepWalksEnd;
    var a := actions[i];
    WalkDescendsInRuns(net, states, actions, i, a.who);
    DescentWalksEnd(net.configs[a.who], window, exclude, states[i].replicas[a.who], a.event, a.inputs);
  }

  // ------------------------------------------------------------------------- one leader

  /** Walks that read the same signers and authors, stop by stop. */
  ghost predicate Matching(t: seq<Visit>, u: seq<Visit>) {
    |t| == |u| && forall i :: 0 <= i < |t| ==>
      t[i].cert.signatures == u[i].cert.signatures && t[i].block.author == u[i].block.author
  }

  ghost predicate AllGenuine(k: Keyring, kept: seq<Block>) { forall b :: b in kept ==> Genuine(k, b) }

  lemma LookupAlike(kept: seq<Block>, other: seq<Block>, id: Hash)
    requires Ids(kept) == Ids(other)
    ensures Lookup(kept, id).Some? <==> Lookup(other, id).Some?
    ensures Lookup(kept, id).Some? ==> Lookup(kept, id).value.id == id && Lookup(kept, id).value in kept
    ensures Lookup(other, id).Some? ==> Lookup(other, id).value.id == id && Lookup(other, id).value in other
  {
    assert forall i :: 0 <= i < |kept| ==> Ids(kept)[i] == kept[i].id;
    assert forall i :: 0 <= i < |other| ==> Ids(other)[i] == other[i].id;
    if Lookup(kept, id).Some? {
      var i :| 0 <= i < |kept| && kept[i].id == id;
      assert other[i].id == id;
    }
    if Lookup(other, id).Some? {
      var i :| 0 <= i < |other| && other[i].id == id;
      assert kept[i].id == id;
    }
  }

  /** What the walk reads from a certificate. */
  ghost predicate SameCert(p: Option<QuorumCert>, q: Option<QuorumCert>) {
    p.Some? == q.Some? && (p.Some? ==>
      p.value.voteInfo.parentId == q.value.voteInfo.parentId && p.value.signatures == q.value.signatures)
  }

  lemma StopsAlike(execute: Execution, w: World, kept: seq<Block>, other: seq<Block>, qc: QuorumCert, n: nat)
    requires WorldInv(execute, w) && AllGenuine(w.keys, kept) && AllGenuine(w.keys, other) && Ids(kept) == Ids(other)
    requires SameCert(CertAt(kept, qc, n), CertAt(other, qc, n))
    ensures var b, c := StopAt(kept, qc, n), StopAt(other, qc, n);
            b.Some? == c.Some? && (b.Some? ==> b.value.author == c.value.author)
    ensures SameCert(CertAt(kept, qc, n + 1), CertAt(other, qc, n + 1))
  {
    hide WorldInv;
    hide Genuine;
    hide Lookup;
    if CertAt(kept, qc, n).Some? {
      LookupAlike(kept, other, CertAt(kept, qc, n).value.voteInfo.parentId);
      var b, c := StopAt(kept, qc, n), StopAt(other, qc, n);
      if b.Some? { GenuineCopies(execute, w, b.value, c.value); }
    }
  }

  lemma {:induction false} TrailsMatch(execute: Execution, w: World, kept: seq<Block>, other: seq<Block>,
                                       qc: QuorumCert, n: nat)
    requires WorldInv(execute, w) && AllGenuine(w.keys, kept) && AllGenuine(w.keys, other) && Ids(kept) == Ids(other)
    ensures Matching(Trail(kept, qc, n), Trail(other, qc, n)) && SameCert(CertAt(kept, qc, n), CertAt(other, qc, n))
    ensures StopAt(kept, qc, n).Some? == StopAt(other, qc, n).Some?
  {
    hide WorldInv;
    hide AllGenuine;
    hide StopAt;
    hide Ids;
    if n > 0 {
      TrailsMatch(execute, w, kept, other, qc, n - 1);
      StopsAlike(execute, w, kept, other, qc, n - 1);
      MatchingStep(kept, other, qc, n - 1);
    }
    StopsAlike(execute, w, kept, other, qc, n);
  }

  lemma MatchingStep(kept: seq<Block>, other: seq<Block>, qc: QuorumCert, n: nat)
    requires Matching(Trail(kept, qc, n), Trail(other, qc, n)) && SameCert(CertAt(kept, qc, n), CertAt(other, qc, n))
    requires var b, c := StopAt(kept, qc, n), StopAt(other, qc, n);
             b.Some? == c.Some? && (b.Some? ==> b.value.author == c.value.author)
    ensures Matching(Trail(kept, qc, n + 1), Trail(other, qc, n + 1))
  {
    hide StopAt;
    hide CertAt;
    if StopAt(kept, qc, n).Some? {
      TrailStep(kept, qc, n);
      TrailStep(other, qc, n);
    }
  }

  lemma {:induction false} MatchingAll(t: seq<Visit>, u: seq<Visit>)
    requires Matching(t, u)
    ensures Authors(t) == Authors(u)
  {
    assert forall i :: 0 <= i < |t| ==> t[i].block.author == u[i].block.author;
    forall x ensures x in Authors(t) <==> x in Authors(u) {
      if x in Authors(t) { var i :| 0 <= i < |t| && t[i].block.author == x; assert u[i].block.author == x; }
      if x in Authors(u) { var i :| 0 <= i < |u| && u[i].block.author == x; assert t[i].block.author == x; }
    }
  }

  lemma WalksMatch(execute: Execution, w: World, kept: seq<Block>, other: seq<Block>, qc: QuorumCert, window: nat,
                   exclude: nat)
    requires WorldInv(execute, w) && AllGenuine(w.keys, kept) && AllGenuine(w.keys, other) && Ids(kept) == Ids(other)
    ensures Matching(TrailOf(kept, qc, window, exclude), TrailOf(other, qc, window, exclude))
  {
    hide WorldInv;
    hide AllGenuine;
    hide StopAt;
    hide CertAt;
    hide Trail;
    hide Matching;
    forall n: nat
      ensures Matching(Trail(kept, qc, n), Trail(other, qc, n))
      ensures Exits(kept, qc, window, exclude, n) <==> Exits(other, qc, window, exclude, n)
    {
      TrailsMatch(execute, w, kept, other, qc, n);
      MatchingAll(Trail(kept, qc, n), Trail(other, qc, n));
    }
    if n :| EndsAt(kept, qc, window, exclude, n) {
      assert EndsAt(other, qc, window, exclude, n);
      TrailEndsAt(kept, qc, window, exclude, n);
      TrailEndsAt(other, qc, window, exclude, n);
    } else {
      assert forall n: nat :: !EndsAt(other, qc, window, exclude, n) by {
        forall n: nat ensures !EndsAt(other, qc, window, exclude, n) {
          assert EndsAt(other, qc, window, exclude, n) ==> EndsAt(kept, qc, window, exclude, n);
        }
      }
      NothingMatches();
    }
  }

  lemma NothingMatches()
    ensures Matching([], [])
  { }

  lemma {:induction false} MatchingAuthors(t: seq<Visit>, u: seq<Visit>, exclude: nat)
    requires Matching(t, u)
    ensures LastAuthors(t, exclude) == LastAuthors(u, exclude)
  {
    if t != [] { MatchingAuthors(t[..|t| - 1], u[..|u| - 1], exclude); }
  }

  lemma MatchingSigners(t: seq<Visit>, u: seq<Visit>, window: nat)
    requires Matching(t, u)
    ensures ActiveSigners(t, window) <= ActiveSigners(u, window)
  {
    forall x | x in ActiveSigners(t, window) ensures x in ActiveSigners(u, window) {
      var i, j :| 0 <= i < |t| && i < window && 0 <= j < |t[i].cert.signatures| && t[i].cert.signatures[j].signer == x;
      assert u[i].cert.signatures[j].signer == x;
    }
  }

  lemma MatchingElect(window: nat, exclude: nat, spread: Round -> Round, kept: seq<Block>, other: seq<Block>,
                      qc: QuorumCert)
    requires Matching(TrailOf(kept, qc, window, exclude), TrailOf(other, qc, window, exclude))
    ensures Elect(window, exclude, spread, kept, qc) == Elect(window, exclude, spread, other, qc)
  {
    hide TrailOf;
    hide LastAuthors;
    hide ActiveSigners;
    hide Elect;
    var t, u := TrailOf(kept, qc, window, exclude), TrailOf(other, qc, window, exclude);
    MatchingAuthors(t, u, exclude);
    MatchingSigners(t, u, window);
    MatchingSigners(u, t, window);
    assert ActiveSigners(t, window) == ActiveSigners(u, window);
    SameCandidatesElectAlike(window, exclude, spread, kept, other, qc);
  }

  lemma RetainedIds(log: seq<Block>, other: seq<Block>, history: nat)
    requires Ids(log) == Ids(other)
    ensures Ids(Retained(log, history)) == Ids(Retained(other, history))
  {
    hide Ids;
    assert |log| == |Ids(log)| == |other|;
    var a, b := Retained(log, history), Retained(other, history);
    forall i | 0 <= i < |a| ensures Ids(a)[i] == Ids(b)[i] {
      var n := |log| - |a| + i;
      assert a[i] == log[n] && b[i] == other[n] && Ids(log)[n] == Ids(other)[n];
    }
  }

  lemma SameFrontierSameLog(l: Ledger, m: Ledger)
    requires LedgerInv(l) && LedgerInv(m) && CommitId(l) == CommitId(m)
    ensures Ids(l.log) == Ids(m.log)
  {
    hide ChainOf;
    hide BlockId;
    LogIsChain(l.log);
    LogIsChain(m.log);
  }

  lemma KeptGenuine(k: Keyring, l: Ledger, history: nat)
    requires StoresGenuine(k, l)
    ensures AllGenuine(k, Retained(l.log, history))
  {
    hide Checked;
    forall b | b in Retained(l.log, history) ensures Genuine(k, b) { assert Stored(l, b); }
  }

  /** Ledgers of genuine blocks with the same frontier elect the same leader. */
  lemma ElectAlike(execute: Execution, w: World, l: Ledger, m: Ledger, history: nat, window: nat, exclude: nat,
                   spread: Round -> Round, qc: QuorumCert)
    requires WorldInv(execute, w) && LedgerInv(l) && LedgerInv(m) && CommitId(l) == CommitId(m)
    requires StoresGenuine(w.keys, l) && StoresGenuine(w.keys, m)
    ensures Elect(window, exclude, spread, Retained(l.log, history), qc)
            == Elect(window, exclude, spread, Retained(m.log, history), qc)
  {
    hide WorldInv;
    hide LedgerInv;
    hide StoresGenuine;
    hide AllGenuine;
    hide Elect;
    SameFrontierSameLog(l, m);
    RetainedIds(l.log, m.log, history);
    KeptGenuine(w.keys, l, history);
    KeptGenuine(w.keys, m, history);
    WalksMatch(execute, w, Retained(l.log, history), Retained(m.log, history), qc, window, exclude);
    MatchingElect(window, exclude, spread, Retained(l.log, history), Retained(m.log, history), qc);
  }

  /** In every run whose fetched blocks verify, two correct replicas that have committed up to the
      same block, each at any time, elect the same leader on a certificate. */
  lemma ReplicasElectAlikeInRuns(net: Network, states: seq<SystemState>, actions: seq<Action>, i: nat, j: nat, a: Id,
                                 b: Id, history: nat, window: nat, exclude: nat, spread: Round -> Round, qc: QuorumCert)
    requires ValidNetwork(net) && IsRun(net, states, actions) && FetchesChecked(states, actions)
    requires i < |states| && j < |states| && a in states[i].replicas && b in states[j].replicas
    requires CommitId(states[i].replicas[a].ledger) == CommitId(states[j].replicas[b].ledger)
    ensures Elect(window, exclude, spread, Retained(states[i].replicas[a].ledger.log, history), qc)
            == Elect(window, exclude, spread, Retained(states[j].replicas[b].ledger.log, history), qc)
  {
    hide SystemInv;
    hide Next;
    hide StoresGenuine;
    hide Checked;
    hide Elect;
    RunInv(net, states, actions, i);
    RunInv(net, states, actions, j);
    RunGenuine(net, states, actions, i, a);
    RunGenuine(net, states, actions, j, b);
    KeysOnlyGrow(net, states, actions, if i <= j then i else j, if i <= j then j else i);
    var n := if i <= j then j else i;
    var k, l, m := states[n].world.keys, states[i].replicas[a].ledger, states[j].replicas[b].ledger;
    StoresGenuineGrows(states[i].world.keys, k, l);
    StoresGenuineGrows(states[j].world.keys, k, m);
    RunLedgers(net, states[i], a);
    RunLedgers(net, states[j], b);
    RunWorld(net, states[n]);
    ElectAlike(net.execute, states[n].world, l, m, history, window, exclude, spread, qc);
  }
}
