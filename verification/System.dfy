// The whole system: correct replicas stepping on any verified events in any order, faulty ones
// signing whatever they like. The agreement theorem over every run.
module System {
  import opened Wire
  import opened Hashing
  import opened Quorums
  import opened Verification
  import opened Chains
  import opened LedgerModel
  import opened SafetyRules
  import opened Agreement
  import opened TreeModel
  import P = PacemakerModel
  import opened ReplicaModel
  import opened ReplicaInvariant

  // ------------------------------------------------------------ one replica in the world

  ghost function RecordAll(w: World, r: Id, ss: seq<Statement>): (w': World)
    requires r in w.logs
    ensures w'.logs == w.logs[r := w.logs[r] + ss]
    ensures Grows(w.keys, w'.keys)
  {
    if ss == [] then
      assert w.logs[r] + ss == w.logs[r];
      w
    else
      var before := RecordAll(w, r, ss[..|ss| - 1]);
      assert w.logs[r] + ss == before.logs[r] + [ss[|ss| - 1]];
      Record(before, r, ss[|ss| - 1])
  }

  ghost predicate Member(cfg: Config, w: World) {
    && cfg.self in w.logs && cfg.self in w.keys.validators && cfg.self !in w.keys.faulty
    && |cfg.validators| == |w.keys.validators|
  }

  /** A correct replica whose state, statements and surroundings are all in order. */
  ghost predicate Healthy(cfg: Config, w: World, r: Replica) {
    && Member(cfg, w) && WorldInv(cfg.execute, w)
    && ReplicaInv(w.keys, r) && Covers(r.counters, w.logs[cfg.self])
  }

  lemma RecordOne(w: World, r: Id, s: Statement)
    requires r in w.logs
    ensures RecordAll(w, r, [s]) == Record(w, r, s)
  {
    assert [s][..0] == [];
    assert RecordAll(w, r, []) == w;
  }

  lemma {:induction false} RecordTwice(w: World, r: Id, a: seq<Statement>, b: seq<Statement>)
    requires r in w.logs
    ensures RecordAll(w, r, a + b) == RecordAll(RecordAll(w, r, a), r, b)
  {
    if b == [] {
      assert a + b == a;
    } else {
      var last := |b| - 1;
      assert (a + b)[..|a + b| - 1] == a + b[..last];
      RecordTwice(w, r, a, b[..last]);
    }
  }

  /** One statement made under the rules leaves the replica healthy. */
  lemma Signs(cfg: Config, w: World, r: Replica, r': Replica, s: Statement)
    requires Healthy(cfg, w, r) && ReplicaInv(w.keys, r')
    requires Justified(cfg.execute, w.keys, s) && Disciplined(w.logs[cfg.self] + [s])
    requires Covers(r'.counters, w.logs[cfg.self] + [s])
    ensures Healthy(cfg, RecordAll(w, cfg.self, [s]), r')
  {
    hide Justified;
    hide ReplicaInv;
    hide Disciplined;
    hide Covers;
    hide WorldInv;
    RecordOne(w, cfg.self, s);
    MembersAreValid(cfg, w);
    RecordKeepsWorld(cfg.execute, w, cfg.self, s);
    ReplicaInvGrows(w.keys, Record(w, cfg.self, s).keys, r');
  }

  lemma MembersAreValid(cfg: Config, w: World)
    requires Member(cfg, w) && WorldInv(cfg.execute, w)
    ensures w.keys.Valid() && Disciplined(w.logs[cfg.self])
  { }

  lemma SilentStep(cfg: Config, w: World, r: Replica)
    requires Healthy(cfg, w, r)
    ensures RecordAll(w, cfg.self, []) == w && Healthy(cfg, RecordAll(w, cfg.self, []), r)
  { }

  lemma MakeVoteHealthy(cfg: Config, w: World, r: Replica, b: Block, tc: Option<TimeoutCert>, sig: Option<Blob>)
    requires Healthy(cfg, w, r)
    ensures var o := MakeVote(cfg, w.keys, r, b, tc, sig); Healthy(cfg, RecordAll(w, cfg.self, o.signed), o.replica)
  {
    hide ReplicaInv;
    hide WorldInv;
    hide Justified;
    hide Disciplined;
    hide Covers;
    var ballot := BallotFor(cfg.execute, w.keys, r.counters, r.ledger, b, tc);
    hide BallotFor;
    if ballot.Some? {
      var c' := AfterVote(r.counters, b);
      var r' := r.(counters := c');
      LeadersIrrelevant(w.keys, r, r.leaders, c');
      CoversMore(r.counters, c', w.logs[cfg.self]);
      MembersAreValid(cfg, w);
      if sig.Some? {
        VoteIsSafe(cfg.execute, w.keys, r.counters, r.ledger, b, tc, w.logs[cfg.self]);
        Signs(cfg, w, r, r', Voted(b, tc, ballot.value));
      } else {
        SilentStep(cfg, w, r');
      }
    } else {
      SilentStep(cfg, w, r);
    }
  }

  lemma LocalTimeoutHealthy(cfg: Config, w: World, r: Replica, sig: Option<Blob>)
    requires Healthy(cfg, w, r)
    ensures var o := LocalTimeoutRound(cfg, w.keys, r, sig);
            Healthy(cfg, RecordAll(w, cfg.self, o.signed), o.replica) && o.replica.tree == r.tree
  {
    var p := P.StartTimer(r.pacemaker, r.pacemaker.currentRound);
    var r1 := r.(pacemaker := p);
    StartTimerKeeps(w.keys, r, r.pacemaker, r.pacemaker.currentRound);
    hide ReplicaInv;
    hide WorldInv;
    hide Justified;
    hide Disciplined;
    hide Covers;
    hide MayTimeout;
    if MayTimeout(w.keys, r.counters, p.currentRound, r.tree.highQC, p.lastRoundTC) {
      var c' := AfterTimeout(r.counters, p.currentRound);
      LeadersIrrelevant(w.keys, r1, r1.leaders, c');
      CoversMore(r.counters, c', w.logs[cfg.self]);
      MembersAreValid(cfg, w);
      if sig.Some? {
        TimeoutIsSafe(cfg.execute, w.keys, r.counters, p.currentRound, r.tree.highQC, p.lastRoundTC, w.logs[cfg.self]);
        Signs(cfg, w, r1, r1.(counters := c'), TimedOut(p.currentRound, r.tree.highQC, p.lastRoundTC));
      } else {
        SilentStep(cfg, w, r1.(counters := c'));
      }
    } else {
      SilentStep(cfg, w, r1);
    }
  }

  lemma NewRoundHealthy(cfg: Config, w: World, r: Replica, tc: Option<TimeoutCert>, inputs: Inputs)
    requires Healthy(cfg, w, r)
    ensures var o := ProcessNewRound(cfg, r, tc, inputs);
            Healthy(cfg, RecordAll(w, cfg.self, o.signed), o.replica)
  {
    hide ReplicaInv;
    hide WorldInv;
    hide Disciplined;
    hide Covers;
    hide BlockId;
    SilentStep(cfg, w, r);
    if inputs.proposalSig.Some? {
      var b := NewBlock(cfg.self, r.pacemaker.currentRound, inputs.txns, Some(r.tree.highQC));
      MembersAreValid(cfg, w);
      OtherIsSafe(r.counters, Proposed(b), w.logs[cfg.self]);
      assert Justified(cfg.execute, w.keys, Proposed(b));
      Signs(cfg, w, r, r, Proposed(b));
    }
  }

  // -------------------------------------------------------------------------- handlers

  /** Two phases of one step, each healthy on its own. */
  lemma Compose(cfg: Config, w: World, signed: seq<Statement>, o: Outcome, sent: seq<Message>)
    requires cfg.self in w.logs
    requires Healthy(cfg, RecordAll(RecordAll(w, cfg.self, signed), cfg.self, o.signed), o.replica)
    ensures Healthy(cfg, RecordAll(w, cfg.self, After(sent, signed, o).signed), After(sent, signed, o).replica)
  {
    hide Healthy;
    RecordTwice(w, cfg.self, signed, o.signed);
  }

  lemma ProposalHealthy(cfg: Config, w: World, r: Replica, p: ProposalMsg, inputs: Inputs)
    requires Healthy(cfg, w, r) && VerifyProposal(w.keys, p)
    ensures var o := HandleProposal(cfg, w.keys, r, p, inputs);
            Healthy(cfg, RecordAll(w, cfg.self, o.signed), o.replica)
  {
    hide ReplicaInv;
    hide WorldInv;
    hide Covers;
    hide VerifyQC;
    hide VerifyTC;
    hide BlockId;
    hide Absorb;
    hide MakeVote;
    AbsorbInv(cfg, w.keys, r, p.block.qc, p.highCommitQc, p.lastRoundTc);
    var r1 := Absorb(cfg, r, p.block.qc, p.highCommitQc, p.lastRoundTc);
    SilentStep(cfg, w, r1);
    InsertInv(w.keys, r1, p.block);
    var inserted := Insert(r1, p.block);
    SilentStep(cfg, w, inserted.replica);
    MakeVoteHealthy(cfg, w, inserted.replica, p.block, p.lastRoundTc, inputs.voteSig);
    Compose(cfg, w, [], MakeVote(cfg, w.keys, inserted.replica, p.block, p.lastRoundTc, inputs.voteSig), inserted.sent);
  }

  /** Collecting a verified timeout whose certificate has been absorbed keeps the invariant. */
  lemma CollectKeeps(k: Keyring, r: Replica, m: TimeoutMsg)
    requires ReplicaInv(k, r) && VerifyTimeout(k, m) && !P.Ignored(r.pacemaker, m.tmoInfo)
    requires r.tree.highQC.voteInfo.round >= QCRound(m.tmoInfo.highQc)
    ensures ReplicaInv(k, r.(pacemaker := P.Collect(r.pacemaker, m.tmoInfo)))
    ensures P.BucketInv(k, m.tmoInfo.round, P.BucketWith(r.pacemaker, m.tmoInfo))
    ensures forall i :: i in P.BucketWith(r.pacemaker, m.tmoInfo).infos ==>
              QCRound(i.highQc) <= r.tree.highQC.voteInfo.round
  {
    hide TreeInv;
    hide LedgerInv;
    hide CommitCertified;
    hide P.BucketInv;
    P.CollectInv(k, r.pacemaker, m);
    hide VerifyTimeout;
    assert P.Collect(r.pacemaker, m.tmoInfo).timeouts[m.tmoInfo.round] == P.BucketWith(r.pacemaker, m.tmoInfo);
  }

  lemma StopKeeps(k: Keyring, r: Replica)
    requires ReplicaInv(k, r)
    ensures ReplicaInv(k, r.(pacemaker := P.Stop(r.pacemaker)))
  {
    hide TreeInv;
    hide LedgerInv;
    hide CommitCertified;
    hide P.BucketInv;
    hide VerifyTC;
  }

  lemma RemoteTimeoutHealthy(cfg: Config, w: World, r: Replica, m: TimeoutMsg, sig: Option<Blob>)
    requires Healthy(cfg, w, r) && VerifyTimeout(w.keys, m)
    requires r.tree.highQC.voteInfo.round >= QCRound(m.tmoInfo.highQc)
    ensures var (o, tc) := ProcessRemoteTimeout(cfg, w.keys, r, m.tmoInfo, sig);
            && Healthy(cfg, RecordAll(w, cfg.self, o.signed), o.replica)
            && VerifyTC(w.keys, tc) && o.replica.tree == r.tree
            && (tc.Some? ==> tc.value.round == m.tmoInfo.round
                             && MaxHighQCRound(tc.value.votes) <= r.tree.highQC.voteInfo.round)
  {
    hide ReplicaInv;
    hide WorldInv;
    hide Covers;
    hide VerifyTimeout;
    hide LocalTimeoutRound;
    hide P.TimeoutCertOf;
    SilentStep(cfg, w, r);
    if !P.Ignored(r.pacemaker, m.tmoInfo) {
      var b := P.BucketWith(r.pacemaker, m.tmoInfo);
      var r1 := r.(pacemaker := P.Collect(r.pacemaker, m.tmoInfo));
      CollectKeeps(w.keys, r, m);
      StopKeeps(w.keys, r1);
      SilentStep(cfg, w, r1);
      LocalTimeoutHealthy(cfg, w, r1.(pacemaker := P.Stop(r1.pacemaker)), sig);
      if |b.senders| == cfg.Quorum() {
        P.TimeoutCertVerifies(w.keys, m.tmoInfo.round, b);
        P.TimeoutCertReports(m.tmoInfo.round, b, r.tree.highQC.voteInfo.round);
        TimeoutCertRound(m.tmoInfo.round, b);
      }
    }
  }

  lemma TimeoutCertRound(round: Round, b: P.TimeoutBucket)
    ensures P.TimeoutCertOf(round, b).round == round
  { }

  lemma TimeoutHealthy(cfg: Config, w: World, r: Replica, m: TimeoutMsg, inputs: Inputs)
    requires Healthy(cfg, w, r) && VerifyTimeout(w.keys, m)
    ensures var o := HandleTimeout(cfg, w.keys, r, m, inputs);
            Healthy(cfg, RecordAll(w, cfg.self, o.signed), o.replica)
  {
    hide ReplicaInv;
    hide WorldInv;
    hide Covers;
    hide VerifyQC;
    hide VerifyTC;
    hide Absorb;
    hide ProcessRemoteTimeout;
    hide ProcessNewRound;
    hide P.AdvanceTC;
    AbsorbInv(cfg, w.keys, r, m.tmoInfo.highQc, m.highCommitQc, m.lastRoundTc);
    var r1 := Absorb(cfg, r, m.tmoInfo.highQc, m.highCommitQc, m.lastRoundTc);
    RemoteTimeoutHealthy(cfg, w, r1, m, inputs.timeoutSig);
    var (o, tc) := ProcessRemoteTimeout(cfg, w.keys, r1, m.tmoInfo, inputs.timeoutSig);
    if tc.Some? {
      var w1 := RecordAll(w, cfg.self, o.signed);
      VerifyTCGrows(w.keys, w1.keys, tc);
      AdvanceTCInv(w1.keys, o.replica, tc);
      var r2 := AdvanceRoundTC(o.replica, tc);
      NewRoundHealthy(cfg, w1, r2, tc, inputs);
      Compose(cfg, w, o.signed, ProcessNewRound(cfg, r2, tc, inputs), o.sent);
    }
  }

  lemma TreeVoteKeeps(cfg: Config, k: Keyring, r: Replica, m: VoteMsg, sig: Option<Blob>)
    requires ReplicaInv(k, r) && VerifyVote(k, m)
    ensures ReplicaInv(k, r.(tree := ProcessVote(cfg.self, cfg.Quorum(), r.tree, m, sig).0))
  {
    hide TreeInv;
    hide LedgerInv;
    hide CommitCertified;
    hide P.PacemakerInv;
    hide VerifyVote;
    hide TreeModel.BucketWith;
    ProcessVoteInv(k, cfg.self, cfg.Quorum(), r.tree, m, sig);
  }

  /** The certificate a vote completes verifies once its author has signed the set. */
  lemma CompletedCertificate(cfg: Config, w: World, r: Replica, m: VoteMsg, sig: Option<Blob>)
    requires Healthy(cfg, w, r) && VerifyVote(w.keys, m)
    requires ProcessVote(cfg.self, cfg.Quorum(), r.tree, m, sig).1.Some?
    ensures var qc := ProcessVote(cfg.self, cfg.Quorum(), r.tree, m, sig).1.value;
            VerifyQC(RecordAll(w, cfg.self, [Aggregated(qc.signatures)]).keys, qc)
  {
    hide WorldInv;
    hide Covers;
    hide VerifyVote;
    hide VerifyQC;
    hide VotesInv;
    hide Canonical;
    hide TreeModel.BucketWith;
    var qc := ProcessVote(cfg.self, cfg.Quorum(), r.tree, m, sig).1.value;
    RecordOne(w, cfg.self, Aggregated(qc.signatures));
    LocalCertificateVerifies(cfg.execute, w, r.tree, cfg.self, m, sig.value);
  }

  lemma VoteHealthy(cfg: Config, w: World, r: Replica, m: VoteMsg, inputs: Inputs)
    requires Healthy(cfg, w, r) && VerifyVote(w.keys, m)
    ensures var o := HandleVote(cfg, r, m, inputs); Healthy(cfg, RecordAll(w, cfg.self, o.signed), o.replica)
  {
    hide ReplicaInv;
    hide WorldInv;
    hide Covers;
    hide VerifyQC;
    hide Disciplined;
    hide ProcessVote;
    hide ProcessNewRound;
    hide ProcessTreeQC;
    hide ProcessCertificateQC;
    SilentStep(cfg, w, r);
    ProcessTreeQCInv(w.keys, r, m.highCommitQc);
    var r1 := ProcessTreeQC(r, m.highCommitQc);
    TreeQCKeepsCounters(r, m.highCommitQc);
    TreeVoteKeeps(cfg, w.keys, r1, m, inputs.authorSig);
    var (tree, qc) := ProcessVote(cfg.self, cfg.Quorum(), r1.tree, m, inputs.authorSig);
    var r2 := r1.(tree := tree);
    SilentStep(cfg, w, r2);
    if qc.Some? && !OutOfWindow(r.pacemaker.currentRound, m.voteInfo.round) {
      CompletedCertificate(cfg, w, r1, m, inputs.authorSig);
      var s := Aggregated(qc.value.signatures);
      var w1 := RecordAll(w, cfg.self, [s]);
      MembersAreValid(cfg, w);
      OtherIsSafe(r2.counters, s, w.logs[cfg.self]);
      Signs(cfg, w, r2, r2, s);
      ProcessCertificateQCInv(cfg, w1.keys, r2, qc);
      var (r3, moved) := ProcessCertificateQC(cfg, r2, qc);
      NewRoundHealthy(cfg, w1, r3, None, inputs);
      Compose(cfg, w, [s], ProcessNewRound(cfg, r3, None, inputs), []);
    }
  }

  lemma TreeQCKeepsCounters(r: Replica, qc: Option<QuorumCert>)
    ensures ProcessTreeQC(r, qc).counters == r.counters
    ensures ProcessTreeQC(r, qc).pacemaker == r.pacemaker
  { }

  /** Every step of a correct replica, on any verified event, keeps it healthy. */
  lemma StepHealthy(cfg: Config, w: World, r: Replica, e: Event, inputs: Inputs)
    requires Healthy(cfg, w, r) && VerifiedEvent(w.keys, e)
    ensures var o := Step(cfg, w.keys, r, e, inputs); Healthy(cfg, RecordAll(w, cfg.self, o.signed), o.replica)
  {
    hide ReplicaInv;
    hide WorldInv;
    hide Covers;
    hide BlockId;
    hide VerifyProposal;
    hide VerifyVote;
    hide VerifyTimeout;
    hide HandleProposal;
    hide HandleTimeout;
    hide HandleVote;
    hide LocalTimeoutRound;
    SilentStep(cfg, w, r);
    match e
    case ProposalEvent(p) => ProposalHealthy(cfg, w, r, p, inputs);
    case VoteEvent(m) => VoteHealthy(cfg, w, r, m, inputs);
    case TimeoutEvent(m) => TimeoutHealthy(cfg, w, r, m, inputs);
    case LocalTimeoutEvent(_) => LocalTimeoutHealthy(cfg, w, r, inputs.timeoutSig);
    case BlockEvent(b) =>
      InsertInv(w.keys, r, b);
      SilentStep(cfg, w, Insert(r, b).replica);
    case BlockRequestEvent(_) =>
  }

  // ------------------------------------------------------------------- logs only grow

  lemma TreeQCExtendsLog(k: Keyring, r: Replica, qc: Option<QuorumCert>)
    requires ReplicaInv(k, r)
    ensures r.ledger.log <= ProcessTreeQC(r, qc).ledger.log
  {
    hide TreeInv;
    hide LedgerInv;
    hide CommitCertified;
    hide ProcessQC;
    hide Commit;
    if qc.Some? { CommitExtendsLog(r.ledger, qc.value.voteInfo.parentId); }
  }

  lemma CertificateExtendsLog(cfg: Config, k: Keyring, r: Replica, qc: Option<QuorumCert>)
    requires ReplicaInv(k, r)
    ensures r.ledger.log <= ProcessCertificateQC(cfg, r, qc).0.ledger.log
  {
    hide ReplicaInv;
    hide ProcessTreeQC;
    TreeQCExtendsLog(k, r, qc);
  }

  lemma AbsorbExtendsLog(cfg: Config, k: Keyring, r: Replica, qc: Option<QuorumCert>,
                         commitQC: Option<QuorumCert>, tc: Option<TimeoutCert>)
    requires ReplicaInv(k, r) && VerifyCommitQC(k, qc) && VerifyCommitQC(k, commitQC)
    ensures r.ledger.log <= Absorb(cfg, r, qc, commitQC, tc).ledger.log
  {
    hide ReplicaInv;
    hide VerifyQC;
    hide ProcessCertificateQC;
    CertificateExtendsLog(cfg, k, r, qc);
    ProcessCertificateQCInv(cfg, k, r, qc);
    CertificateExtendsLog(cfg, k, ProcessCertificateQC(cfg, r, qc).0, commitQC);
  }

  lemma VoteExtendsLog(cfg: Config, k: Keyring, r: Replica, m: VoteMsg, inputs: Inputs)
    requires ReplicaInv(k, r) && VerifyVote(k, m)
    ensures r.ledger.log <= HandleVote(cfg, r, m, inputs).replica.ledger.log
  {
    hide ReplicaInv;
    hide VerifyQC;
    hide LedgerCommitDigest;
    hide VoteInfoHash;
    hide ProcessVote;
    hide ProcessTreeQC;
    hide ProcessCertificateQC;
    TreeQCExtendsLog(k, r, m.highCommitQc);
    ProcessTreeQCInv(k, r, m.highCommitQc);
    var r1 := ProcessTreeQC(r, m.highCommitQc);
    TreeVoteKeeps(cfg, k, r1, m, inputs.authorSig);
    var (tree, qc) := ProcessVote(cfg.self, cfg.Quorum(), r1.tree, m, inputs.authorSig);
    CertificateExtendsLog(cfg, k, r1.(tree := tree), qc);
  }

  lemma ProposalExtendsLog(cfg: Config, k: Keyring, r: Replica, p: ProposalMsg, inputs: Inputs)
    requires ReplicaInv(k, r) && VerifyProposal(k, p)
    ensures r.ledger.log <= HandleProposal(cfg, k, r, p, inputs).replica.ledger.log
  {
    hide ReplicaInv;
    hide VerifyQC;
    hide VerifyTC;
    hide BlockId;
    hide Absorb;
    hide BallotFor;
    hide Waiting;
    AbsorbExtendsLog(cfg, k, r, p.block.qc, p.highCommitQc, p.lastRoundTc);
  }

  lemma TimeoutExtendsLog(cfg: Config, k: Keyring, r: Replica, m: TimeoutMsg, inputs: Inputs)
    requires ReplicaInv(k, r) && VerifyTimeout(k, m)
    ensures r.ledger.log <= HandleTimeout(cfg, k, r, m, inputs).replica.ledger.log
  {
    hide ReplicaInv;
    hide VerifyQC;
    hide VerifyTC;
    hide Absorb;
    hide MayTimeout;
    hide P.StartTimer;
    hide P.Collect;
    hide P.TimeoutCertOf;
    AbsorbExtendsLog(cfg, k, r, m.tmoInfo.highQc, m.highCommitQc, m.lastRoundTc);
  }

  /** A step never rewrites the commit log. */
  lemma StepExtendsLog(cfg: Config, k: Keyring, r: Replica, e: Event, inputs: Inputs)
    requires ReplicaInv(k, r) && VerifiedEvent(k, e)
    ensures r.ledger.log <= Step(cfg, k, r, e, inputs).replica.ledger.log
  {
    hide ReplicaInv;
    hide VerifyProposal;
    hide VerifyVote;
    hide VerifyTimeout;
    hide BlockId;
    hide HandleProposal;
    hide HandleVote;
    hide HandleTimeout;
    hide MayTimeout;
    hide Waiting;
    match e
    case ProposalEvent(p) => ProposalExtendsLog(cfg, k, r, p, inputs);
    case VoteEvent(m) => VoteExtendsLog(cfg, k, r, m, inputs);
    case TimeoutEvent(m) => TimeoutExtendsLog(cfg, k, r, m, inputs);
    case LocalTimeoutEvent(_) =>
    case BlockEvent(_) =>
    case BlockRequestEvent(_) =>
  }

  // ------------------------------------------------------------------------------- runs

  /** The replica set, who is faulty, how each correct member is configured, and the VM all
      correct replicas run. */
  datatype Network = Network(validators: set<Id>, faulty: set<Id>, configs: map<Id, Config>, execute: Execution)

  ghost predicate ValidNetwork(net: Network) {
    && net.faulty <= net.validators && |net.faulty| <= Faulty(|net.validators|)
    && net.configs.Keys == net.validators - net.faulty
    && StateIds(net.execute)
    && forall r :: r in net.configs ==>
         && net.configs[r].self == r && net.configs[r].execute == net.execute
         && |net.configs[r].validators| == |net.validators|
  }

  /** `replicas` are the correct replicas that have started. */
  datatype SystemState = SystemState(world: World, replicas: map<Id, Replica>)

  datatype Action =
    | StartUp(who: Id, inputs: Inputs)
    | Handle(who: Id, event: Event, inputs: Inputs)

  ghost function Init(net: Network): SystemState {
    SystemState(World(Keyring(net.validators, net.faulty, {}), map r | r in net.configs :: []), map[])
  }

  ghost predicate Enabled(net: Network, s: SystemState, a: Action) {
    && a.who in net.configs && a.who in s.world.logs
    && match a
       case StartUp(r, _) => r !in s.replicas
       case Handle(r, e, _) => r in s.replicas && VerifiedEvent(s.world.keys, e)
  }

  ghost function OutcomeOf(net: Network, s: SystemState, a: Action): Outcome
    requires Enabled(net, s, a)
  {
    match a
    case StartUp(r, inputs) => Start(net.configs[r], inputs)
    case Handle(r, e, inputs) => Step(net.configs[r], s.world.keys, s.replicas[r], e, inputs)
  }

  ghost function Next(net: Network, s: SystemState, a: Action): SystemState
    requires Enabled(net, s, a)
  {
    var o := OutcomeOf(net, s, a);
    SystemState(RecordAll(s.world, a.who, o.signed), s.replicas[a.who := o.replica])
  }

  /** Any interleaving of starts and verified events, from the initial state. */
  ghost predicate IsRun(net: Network, states: seq<SystemState>, actions: seq<Action>) {
    && |states| == |actions| + 1 && states[0] == Init(net)
    && forall i :: 0 <= i < |actions| ==>
         Enabled(net, states[i], actions[i]) && states[i + 1] == Next(net, states[i], actions[i])
  }

  ghost predicate SystemInv(net: Network, s: SystemState) {
    && s.world.keys.validators == net.validators && s.world.keys.faulty == net.faulty
    && s.world.logs.Keys == net.configs.Keys && s.replicas.Keys <= net.configs.Keys
    && WorldInv(net.execute, s.world)
    && (forall r :: r in s.replicas ==>
          ReplicaInv(s.world.keys, s.replicas[r]) && Covers(s.replicas[r].counters, s.world.logs[r]))
    && (forall r :: r in net.configs && r !in s.replicas ==> s.world.logs[r] == [])
  }

  lemma InitInv(net: Network)
    requires ValidNetwork(net)
    ensures SystemInv(net, Init(net))
  { }

  lemma StartHealthy(cfg: Config, w: World, inputs: Inputs)
    requires Member(cfg, w) && WorldInv(cfg.execute, w) && w.logs[cfg.self] == []
    ensures Healthy(cfg, RecordAll(w, cfg.self, Start(cfg, inputs).signed), Start(cfg, inputs).replica)
  {
    NewReplicaInv(w.keys);
    AdvanceQCInv(w.keys, NEW_REPLICA, GENESIS_QC);
    hide ReplicaInv;
    hide WorldInv;
    hide P.AdvanceQC;
    NewRoundHealthy(cfg, w, NEW_REPLICA.(pacemaker := P.AdvanceQC(P.NEW_PACEMAKER, GENESIS_QC).0), None, inputs);
  }

  /** The acting replica stays healthy, whether it starts or handles an event. */
  lemma ActorHealthy(net: Network, s: SystemState, a: Action)
    requires ValidNetwork(net) && SystemInv(net, s) && Enabled(net, s, a)
    ensures var o := OutcomeOf(net, s, a);
            Healthy(net.configs[a.who], RecordAll(s.world, a.who, o.signed), o.replica)
  {
    hide ReplicaInv;
    hide WorldInv;
    hide Covers;
    hide VerifiedEvent;
    hide Step;
    hide Start;
    assert Member(net.configs[a.who], s.world);
    match a
    case StartUp(r, inputs) => StartHealthy(net.configs[r], s.world, inputs);
    case Handle(r, e, inputs) => StepHealthy(net.configs[r], s.world, s.replicas[r], e, inputs);
  }

  lemma NextInv(net: Network, s: SystemState, a: Action)
    requires ValidNetwork(net) && SystemInv(net, s) && Enabled(net, s, a)
    ensures SystemInv(net, Next(net, s, a)) && Grows(s.world.keys, Next(net, s, a).world.keys)
  {
    hide ReplicaInv;
    hide WorldInv;
    hide Covers;
    hide VerifiedEvent;
    hide OutcomeOf;
    ActorHealthy(net, s, a);
    var s' := Next(net, s, a);
    forall r | r in s'.replicas
      ensures ReplicaInv(s'.world.keys, s'.replicas[r]) && Covers(s'.replicas[r].counters, s'.world.logs[r])
    {
      if r != a.who { ReplicaInvGrows(s.world.keys, s'.world.keys, s.replicas[r]); }
    }
  }

  lemma {:induction false} RunInv(net: Network, states: seq<SystemState>, actions: seq<Action>, i: nat)
    requires ValidNetwork(net) && IsRun(net, states, actions) && i < |states|
    ensures SystemInv(net, states[i])
  {
    hide SystemInv;
    hide Next;
    if i == 0 { InitInv(net); }
    else {
      RunInv(net, states, actions, i - 1);
      NextInv(net, states[i - 1], actions[i - 1]);
    }
  }

  /** What verifies keeps verifying. */
  lemma {:induction false} KeysOnlyGrow(net: Network, states: seq<SystemState>, actions: seq<Action>, i: nat, j: nat)
    requires ValidNetwork(net) && IsRun(net, states, actions) && i <= j < |states|
    ensures Grows(states[i].world.keys, states[j].world.keys)
    decreases j - i
  {
    hide SystemInv;
    hide Next;
    if i < j {
      KeysOnlyGrow(net, states, actions, i, j - 1);
      RunInv(net, states, actions, j - 1);
      NextInv(net, states[j - 1], actions[j - 1]);
    }
  }

  lemma NextExtendsLogs(net: Network, s: SystemState, a: Action, r: Id)
    requires ValidNetwork(net) && SystemInv(net, s) && Enabled(net, s, a) && r in s.replicas
    ensures r in Next(net, s, a).replicas
    ensures s.replicas[r].ledger.log <= Next(net, s, a).replicas[r].ledger.log
  {
    hide ReplicaInv;
    hide WorldInv;
    hide Covers;
    hide VerifiedEvent;
    hide Step;
    hide Start;
    if a.Handle? && a.who == r {
      StepExtendsLog(net.configs[r], s.world.keys, s.replicas[r], a.event, a.inputs);
    }
  }

  /** Over a run a replica's commit log only grows. */
  lemma {:induction false} LogsOnlyGrow(net: Network, states: seq<SystemState>, actions: seq<Action>, i: nat, j: nat,
                                        r: Id)
    requires ValidNetwork(net) && IsRun(net, states, actions) && i <= j < |states| && r in states[i].replicas
    ensures r in states[j].replicas
    ensures states[i].replicas[r].ledger.log <= states[j].replicas[r].ledger.log
    decreases j - i
  {
    hide SystemInv;
    hide Next;
    if i < j {
      LogsOnlyGrow(net, states, actions, i, j - 1, r);
      RunInv(net, states, actions, j - 1);
      NextExtendsLogs(net, states[j - 1], actions[j - 1], r);
    }
  }

  // --------------------------------------------------------------------------- agreement

  ghost predicate Comparable<T>(a: seq<T>, b: seq<T>) { a <= b || b <= a }

  /** At one moment, two frontiers backed by verified 2-chains are on one chain. */
  lemma FrontiersComparable(execute: Execution, w: World, l: Ledger, m: Ledger)
    requires WorldInv(execute, w) && LedgerInv(l) && LedgerInv(m)
    requires CommitCertified(w.keys, l) && CommitCertified(w.keys, m)
    ensures Comparable(Ids(l.log), Ids(m.log))
  {
    hide WorldInv;
    hide VerifyQC;
    hide ChainOf;
    LogIsChain(l.log);
    LogIsChain(m.log);
    if CommitId(l) == GENESIS_BLOCK.id {
      GenesisLog(l);
    } else if CommitId(m) == GENESIS_BLOCK.id {
      GenesisLog(m);
    } else {
      var a :| TwoChain(w.keys, a) && a.voteInfo.parentId == CommitId(l);
      var b :| TwoChain(w.keys, b) && b.voteInfo.parentId == CommitId(m);
      if a.voteInfo.parentRound <= b.voteInfo.parentRound {
        CommitsOnOneChain(execute, w, a, b);
      } else {
        CommitsOnOneChain(execute, w, b, a);
      }
    }
  }

  lemma GenesisLog(l: Ledger)
    requires LedgerInv(l) && CommitId(l) == GENESIS_BLOCK.id
    ensures Ids(l.log) == [GENESIS_BLOCK.id]
  {
    hide BlockId;
    if |l.log| > 1 { LogAscends(l.log, 0, |l.log| - 1); }
  }

  lemma IdsPrefix(a: seq<Block>, b: seq<Block>)
    requires a <= b
    ensures Ids(a) <= Ids(b)
  {
    assert forall i :: 0 <= i < |a| ==> Ids(a)[i] == Ids(b)[i];
  }

  lemma AgreementNow(net: Network, s: SystemState, a: Id, b: Id)
    requires SystemInv(net, s) && a in s.replicas && b in s.replicas
    ensures Comparable(Ids(s.replicas[a].ledger.log), Ids(s.replicas[b].ledger.log))
  {
    hide WorldInv;
    hide LedgerInv;
    hide CommitCertified;
    hide TreeInv;
    hide Covers;
    FrontiersComparable(net.execute, s.world, s.replicas[a].ledger, s.replicas[b].ledger);
  }

  /** Agreement. In every run with at most Faulty(n) arbitrary replicas, the commit logs of any
      two correct replicas, each read at any time, are prefixes of one another. */
  lemma AgreementTheorem(net: Network, states: seq<SystemState>, actions: seq<Action>, i: nat, j: nat, a: Id, b: Id)
    requires ValidNetwork(net) && IsRun(net, states, actions)
    requires i < |states| && j < |states| && a in states[i].replicas && b in states[j].replicas
    ensures Comparable(Ids(states[i].replicas[a].ledger.log), Ids(states[j].replicas[b].ledger.log))
  {
    hide ValidNetwork;
    hide IsRun;
    hide SystemInv;
    var n := if i <= j then j else i;
    LogsOnlyGrow(net, states, actions, i, n, a);
    LogsOnlyGrow(net, states, actions, j, n, b);
    RunInv(net, states, actions, n);
    var s := states[n];
    AgreementNow(net, s, a, b);
    IdsPrefix(states[i].replicas[a].ledger.log, s.replicas[a].ledger.log);
    IdsPrefix(states[j].replicas[b].ledger.log, s.replicas[b].ledger.log);
  }

  /** Where both logs have an entry, the blocks agree on author, round, payload and parent. */
  lemma CommittedBlocksAgree(net: Network, states: seq<SystemState>, actions: seq<Action>, i: nat, j: nat,
                             a: Id, b: Id, n: nat)
    requires ValidNetwork(net) && IsRun(net, states, actions)
    requires i < |states| && j < |states| && a in states[i].replicas && b in states[j].replicas
    requires n < |states[i].replicas[a].ledger.log| && n < |states[j].replicas[b].ledger.log|
    ensures var x, y := states[i].replicas[a].ledger.log[n], states[j].replicas[b].ledger.log[n];
            && x.id == y.id && x.author == y.author && x.round == y.round && x.payload == y.payload
            && ParentId(x) == ParentId(y)
  {
    hide ValidNetwork;
    hide IsRun;
    var l, m := states[i].replicas[a].ledger.log, states[j].replicas[b].ledger.log;
    AgreementTheorem(net, states, actions, i, j, a, b);
    RunInv(net, states, actions, i);
    RunInv(net, states, actions, j);
    LogIdsAreShas(l, n);
    LogIdsAreShas(m, n);
    hide SystemInv;
    assert Ids(l)[n] == Ids(m)[n];
    hide BlockId;
    BlockIdInjective(l[n], m[n]);
  }

  /** Certified execution, in every run: a certificate any replica would accept carries the replay
      of its chain, and commits only the replay of its parent, one round below. */
  lemma CertifiedExecutionInRuns(net: Network, states: seq<SystemState>, actions: seq<Action>, i: nat, qc: QuorumCert)
    requires ValidNetwork(net) && IsRun(net, states, actions) && i < |states|
    requires VerifyQC(states[i].world.keys, qc) && qc.voteInfo.round > 0
    ensures qc.voteInfo.execStateId == Replay(net.execute, qc.voteInfo.id)
    ensures Commits(qc.ledgerCommitInfo) ==>
              && qc.ledgerCommitInfo.commitStateId == Replay(net.execute, qc.voteInfo.parentId)
              && qc.voteInfo.parentRound + 1 == qc.voteInfo.round
    ensures OnChain(GENESIS_BLOCK.id, qc.voteInfo.id)
  {
    hide Next;
    hide VerifyQC;
    RunInv(net, states, actions, i);
    CertifiedExecution(net.execute, states[i].world, qc);
    CertifiedFromGenesis(net.execute, states[i].world, qc);
  }

  /** In every run a replica's commit history is one duplicate-free parent chain from genesis, and
      every pending block reaches its end through pending blocks. */
  lemma LedgersInRuns(net: Network, states: seq<SystemState>, actions: seq<Action>, i: nat, r: Id)
    requires ValidNetwork(net) && IsRun(net, states, actions) && i < |states| && r in states[i].replicas
    ensures var l := states[i].replicas[r].ledger;
            && ParentChain(l.log) && (forall x, y :: 0 <= x < y < |l.log| ==> l.log[x].id != l.log[y].id)
            && (forall id :: id in l.pending ==> Reaches(l.pending, CommitId(l), id))
  {
    hide IsRun;
    hide ValidNetwork;
    hide WorldInv;
    hide TreeInv;
    hide Covers;
    hide BlockId;
    hide Reaches;
    RunInv(net, states, actions, i);
    var l := states[i].replicas[r].ledger;
    LogHasNoDuplicates(l.log);
    forall id | id in l.pending ensures Reaches(l.pending, CommitId(l), id) { PendingReaches(l, id); }
  }

  /** In every run a tree holds at most n signatures, and at most n buckets, for any one round. */
  lemma VotesBoundedInRuns(net: Network, states: seq<SystemState>, actions: seq<Action>, i: nat, r: Id, round: Round)
    requires ValidNetwork(net) && IsRun(net, states, actions) && i < |states| && r in states[i].replicas
    ensures |RoundSlots(states[i].replicas[r].tree, round)| <= |net.validators|
    ensures |RoundBuckets(states[i].replicas[r].tree, round)| <= |net.validators|
  {
    hide IsRun;
    hide ValidNetwork;
    hide LedgerInv;
    hide VotesInv;
    hide Covers;
    hide RoundSlots;
    hide RoundBuckets;
    RunInv(net, states, actions, i);
    RoundIsBounded(states[i].world.keys, states[i].replicas[r].tree, round);
  }
}
