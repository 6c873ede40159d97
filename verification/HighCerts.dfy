// The two highest certificates a replica keeps, over runs: each is the highest of all it has read or
// completed, neither ever falls, and everything it sends carries them.
module HighCerts {
  import opened Wire
  import opened Hashing
  import opened Verification
  import opened LedgerModel
  import opened SafetyRules
  import opened Agreement
  import opened TreeModel
  import P = PacemakerModel
  import opened ReplicaModel
  import opened ReplicaInvariant
  import opened System
  import opened Duties

  // -------------------------------------------------------------------------- one certificate

  /** The event carries the certificate, and a vote is near enough to be read. */
  ghost predicate Reads(r: Replica, e: Event, qc: QuorumCert) {
    match e
    case ProposalEvent(p) => p.block.qc == Some(qc) || p.highCommitQc == Some(qc)
    case TimeoutEvent(m) => m.tmoInfo.highQc == Some(qc) || m.highCommitQc == Some(qc)
    case VoteEvent(m) => m.highCommitQc == Some(qc) && !OutOfWindow(r.pacemaker.currentRound, m.voteInfo.round)
    case _ => false
  }

  /** The step assembled the certificate from votes, the last of which is the event's. */
  ghost predicate Assembles(cfg: Config, e: Event, o: Outcome, qc: QuorumCert) {
    && e.VoteEvent? && qc.author == cfg.self && Aggregated(qc.signatures) in o.signed
    && qc.voteInfo == e.vote.voteInfo && qc.ledgerCommitInfo == e.vote.ledgerCommitInfo
  }

  ghost predicate Meets(cfg: Config, r: Replica, e: Event, o: Outcome, qc: QuorumCert) {
    Reads(r, e, qc) || Assembles(cfg, e, o, qc)
  }

  /** Each of the two is the same or strictly higher. */
  ghost predicate NoLower(t: Tree, t': Tree) {
    && (t'.highQC == t.highQC || t'.highQC.voteInfo.round > t.highQC.voteInfo.round)
    && (t'.highCommitQC == t.highCommitQC || t'.highCommitQC.voteInfo.round > t.highCommitQC.voteInfo.round)
  }

  /** Both are at least as high as the certificate, the second if it commits. */
  ghost predicate Covered(t: Tree, qc: QuorumCert) {
    && t.highQC.voteInfo.round >= qc.voteInfo.round
    && (Commits(qc.ledgerCommitInfo) ==> t.highCommitQC.voteInfo.round >= qc.voteInfo.round)
  }

  lemma TreeReads(t: Tree, qc: QuorumCert)
    ensures var t' := ProcessQC(t, qc);
            && NoLower(t, t') && Covered(t', qc)
            && (t'.highQC == t.highQC || t'.highQC == qc)
            && (t'.highCommitQC == t.highCommitQC || (t'.highCommitQC == qc && Commits(qc.ledgerCommitInfo)))
  {
    hide Prune;
  }

  ghost function TreeAfter(t: Tree, qc: Option<QuorumCert>): Tree { if qc.None? then t else ProcessQC(t, qc.value) }

  lemma CertificateTree(cfg: Config, r: Replica, qc: Option<QuorumCert>)
    ensures ProcessTreeQC(r, qc).tree == TreeAfter(r.tree, qc)
    ensures ProcessCertificateQC(cfg, r, qc).0.tree == TreeAfter(r.tree, qc)
  {
    hide ProcessQC;
    hide Commit;
    hide UpdateLeaders;
    hide P.AdvanceQC;
  }

  lemma AbsorbTree(cfg: Config, r: Replica, qc: Option<QuorumCert>, commitQC: Option<QuorumCert>,
                   tc: Option<TimeoutCert>)
    ensures Absorb(cfg, r, qc, commitQC, tc).tree == TreeAfter(TreeAfter(r.tree, qc), commitQC)
  {
    hide ProcessCertificateQC;
    hide TreeAfter;
    CertificateTree(cfg, r, qc);
    CertificateTree(cfg, ProcessCertificateQC(cfg, r, qc).0, commitQC);
  }

  /** What reading two certificates, either of which may be absent, does to the two highest. */
  lemma TreeReadsTwo(t: Tree, p: Option<QuorumCert>, q: Option<QuorumCert>)
    ensures var t' := TreeAfter(TreeAfter(t, p), q);
            && NoLower(t, t') && (forall qc :: p == Some(qc) || q == Some(qc) ==> Covered(t', qc))
            && (t'.highQC == t.highQC || p == Some(t'.highQC) || q == Some(t'.highQC))
            && (t'.highCommitQC == t.highCommitQC || (Commits(t'.highCommitQC.ledgerCommitInfo)
                && (p == Some(t'.highCommitQC) || q == Some(t'.highCommitQC))))
  {
    hide ProcessQC;
    if p.Some? { TreeReads(t, p.value); }
    var t1 := TreeAfter(t, p);
    if q.Some? { TreeReads(t1, q.value); }
  }

  // ---------------------------------------------------------------------------- one step

  /** The two highest after a step are no lower than before, at least as high as every certificate the
      step met, and each is the old one or one the step met. */
  ghost predicate KeepsHighest(cfg: Config, r: Replica, e: Event, o: Outcome) {
    var t, t' := r.tree, o.replica.tree;
    && NoLower(t, t') && (forall qc :: Meets(cfg, r, e, o, qc) ==> Covered(t', qc))
    && (t'.highQC == t.highQC || Meets(cfg, r, e, o, t'.highQC))
    && (t'.highCommitQC == t.highCommitQC
        || (Meets(cfg, r, e, o, t'.highCommitQC) && Commits(t'.highCommitQC.ledgerCommitInfo)))
  }

  lemma ProposalHighest(cfg: Config, k: Keyring, r: Replica, p: ProposalMsg, inputs: Inputs)
    ensures KeepsHighest(cfg, r, ProposalEvent(p), HandleProposal(cfg, k, r, p, inputs))
  {
    hide Absorb;
    hide TreeAfter;
    hide ReplicaModel.MakeVote;
    hide Insert;
    hide MayVote;
    AbsorbTree(cfg, r, p.block.qc, p.highCommitQc, p.lastRoundTc);
    TreeReadsTwo(r.tree, p.block.qc, p.highCommitQc);
    var r1 := Absorb(cfg, r, p.block.qc, p.highCommitQc, p.lastRoundTc);
    InsertDoes(r1, p.block);
    if p.block.round == r1.pacemaker.currentRound { MakeVoteDoes(cfg, k, Insert(r1, p.block).replica, p,
                                                                 inputs.voteSig); }
  }

  lemma TimeoutHighest(cfg: Config, k: Keyring, r: Replica, m: TimeoutMsg, inputs: Inputs)
    ensures KeepsHighest(cfg, r, TimeoutEvent(m), HandleTimeout(cfg, k, r, m, inputs))
  {
    hide Absorb;
    hide TreeAfter;
    hide ProcessRemoteTimeout;
    hide ProcessNewRound;
    hide P.AdvanceTC;
    AbsorbTree(cfg, r, m.tmoInfo.highQc, m.highCommitQc, m.lastRoundTc);
    TreeReadsTwo(r.tree, m.tmoInfo.highQc, m.highCommitQc);
    var r1 := Absorb(cfg, r, m.tmoInfo.highQc, m.highCommitQc, m.lastRoundTc);
    RemoteTimeoutDoes(cfg, k, r1, m.tmoInfo, inputs.timeoutSig);
    var (o, tc) := ProcessRemoteTimeout(cfg, k, r1, m.tmoInfo, inputs.timeoutSig);
    if tc.Some? { NewRoundDoes(cfg, AdvanceRoundTC(o.replica, tc), tc, inputs); }
  }

  lemma CountingKeepsHigh(cfg: Config, t: Tree, m: VoteMsg, sig: Option<Blob>)
    ensures var t' := ProcessVote(cfg.self, cfg.Quorum(), t, m, sig).0;
            t'.highQC == t.highQC && t'.highCommitQC == t.highCommitQC
  {
    hide LedgerCommitDigest;
    hide Canonical;
  }

  lemma VoteHighest(cfg: Config, k: Keyring, r: Replica, m: VoteMsg, inputs: Inputs)
    requires ReplicaInv(k, r) && VerifyVote(k, m)
    ensures KeepsHighest(cfg, r, VoteEvent(m), HandleVote(cfg, r, m, inputs))
  {
    hide ReplicaInv;
    hide TreeInv;
    hide TreeAfter;
    hide ProcessTreeQC;
    hide ProcessVote;
    hide ProcessCertificateQC;
    hide ProcessNewRound;
    hide VerifyVote;
    var e, o := VoteEvent(m), HandleVote(cfg, r, m, inputs);
    var r1 := ProcessTreeQC(r, m.highCommitQc);
    CertificateTree(cfg, r, m.highCommitQc);
    var (tree, qc) := ProcessVote(cfg.self, cfg.Quorum(), r1.tree, m, inputs.authorSig);
    CountingKeepsHigh(cfg, r1.tree, m, inputs.authorSig);
    TreeReadsTwo(r.tree, m.highCommitQc, None);
    NoneRead(r1.tree);
    if !OutOfWindow(r.pacemaker.currentRound, m.voteInfo.round) {
      if qc.Some? {
        CompletedInfo(cfg, k, r, m, inputs.authorSig);
        CertificateTree(cfg, r1.(tree := tree), qc);
        TreeReadsTwo(tree, None, qc);
        NoneRead(tree);
        var r3 := ProcessCertificateQC(cfg, r1.(tree := tree), qc).0;
        NewRoundDoes(cfg, r3, None, inputs);
        assert o.replica.tree == TreeAfter(tree, qc);
        assert Aggregated(qc.value.signatures) in o.signed;
        assert Assembles(cfg, e, o, qc.value);
      }
    }
  }

  lemma NoneRead(t: Tree)
    ensures TreeAfter(t, None) == t
  { }

  lemma CompletedInfo(cfg: Config, k: Keyring, r: Replica, m: VoteMsg, sig: Option<Blob>)
    requires ReplicaInv(k, r) && VerifyVote(k, m)
    requires ProcessVote(cfg.self, cfg.Quorum(), ProcessTreeQC(r, m.highCommitQc).tree, m, sig).1.Some?
    ensures var qc := ProcessVote(cfg.self, cfg.Quorum(), ProcessTreeQC(r, m.highCommitQc).tree, m, sig).1.value;
            qc.voteInfo == m.voteInfo && qc.ledgerCommitInfo == m.ledgerCommitInfo && qc.author == cfg.self
  {
    hide VerifyQC;
    hide LedgerCommitDigest;
    hide VoteInfoHash;
    hide LedgerInv;
    hide CommitCertified;
    hide ProcessTreeQC;
    hide ProcessVote;
    hide VotesInv;
    ProcessTreeQCInv(k, r, m.highCommitQc);
    VoteCompletesIff(k, cfg.self, cfg.Quorum(), ProcessTreeQC(r, m.highCommitQc).tree, m, sig);
  }

  lemma StepHighest(cfg: Config, k: Keyring, r: Replica, e: Event, inputs: Inputs)
    requires ReplicaInv(k, r) && VerifiedEvent(k, e)
    ensures KeepsHighest(cfg, r, e, Step(cfg, k, r, e, inputs))
  {
    hide ReplicaInv;
    hide VerifyVote;
    hide VerifyProposal;
    hide VerifyTimeout;
    hide HandleProposal;
    hide HandleVote;
    hide HandleTimeout;
    hide LocalTimeoutRound;
    hide Insert;
    match e
    case ProposalEvent(p) => ProposalHighest(cfg, k, r, p, inputs);
    case VoteEvent(m) => VoteHighest(cfg, k, r, m, inputs);
    case TimeoutEvent(m) => TimeoutHighest(cfg, k, r, m, inputs);
    case LocalTimeoutEvent(_) => LocalTimeoutDoes(cfg, k, r, inputs.timeoutSig);
    case BlockEvent(b) => InsertDoes(r, b);
    case BlockRequestEvent(_) =>
  }

  // ---------------------------------------------------------------------------- over runs

  ghost predicate MetAt(net: Network, states: seq<SystemState>, actions: seq<Action>, j: nat, r: Id, qc: QuorumCert)
    requires IsRun(net, states, actions) && j < |actions|
  {
    && actions[j].Handle? && actions[j].who == r
    && Meets(net.configs[r], states[j].replicas[r], actions[j].event, OutcomeOf(net, states[j], actions[j]), qc)
  }

  /** By state `i` the replica has read or assembled the certificate. */
  ghost predicate Met(net: Network, states: seq<SystemState>, actions: seq<Action>, i: nat, r: Id, qc: QuorumCert)
    requires IsRun(net, states, actions) && i < |states|
  {
    exists j :: 0 <= j < i && MetAt(net, states, actions, j, r, qc)
  }

  lemma NextHighest(net: Network, s: SystemState, a: Action, r: Id)
    requires ValidNetwork(net) && SystemInv(net, s) && Enabled(net, s, a) && r in s.replicas
    ensures r in Next(net, s, a).replicas
    ensures if a.who == r then && a.Handle? && Next(net, s, a).replicas[r] == OutcomeOf(net, s, a).replica
                               && KeepsHighest(net.configs[r], s.replicas[r], a.event, OutcomeOf(net, s, a))
            else Next(net, s, a).replicas[r] == s.replicas[r]
  {
    hide ReplicaInv;
    hide WorldInv;
    hide Covers;
    hide VerifiedEvent;
    hide Step;
    hide Start;
    hide KeepsHighest;
    if a.who == r { StepHighest(net.configs[r], s.world.keys, s.replicas[r], a.event, a.inputs); }
  }

  lemma StartTree(net: Network, s: SystemState, a: Action)
    requires Enabled(net, s, a) && a.StartUp?
    ensures OutcomeOf(net, s, a).replica.tree == NEW_TREE
  {
    hide ProcessNewRound;
    NewRoundDoes(net.configs[a.who], NEW_REPLICA.(pacemaker := P.AdvanceQC(P.NEW_PACEMAKER, GENESIS_QC).0), None,
                 a.inputs);
  }

  /** Before it starts a replica meets nothing. */
  lemma StartsUnmet(net: Network, states: seq<SystemState>, actions: seq<Action>, i: nat, r: Id, qc: QuorumCert)
    requires ValidNetwork(net) && IsRun(net, states, actions) && i < |states| && r !in states[i].replicas
    ensures !Met(net, states, actions, i, r, qc)
  {
    hide Next;
    hide OutcomeOf;
    hide Meets;
    forall j | 0 <= j < i ensures !MetAt(net, states, actions, j, r, qc) {
      if r in states[j].replicas { LogsOnlyGrow(net, states, actions, j, i, r); }
      assert Enabled(net, states[j], actions[j]);
    }
  }

  /** In every run a replica's two highest certificates are the genesis certificate or one it has met, the
      second one that commits, and nothing it has met, or that commits, is higher. */
  lemma {:induction false} HighestInRuns(net: Network, states: seq<SystemState>, actions: seq<Action>, i: nat, r: Id)
    requires ValidNetwork(net) && IsRun(net, states, actions) && i < |states| && r in states[i].replicas
    ensures var t := states[i].replicas[r].tree;
            && (t.highQC == GENESIS_QC || Met(net, states, actions, i, r, t.highQC))
            && (t.highCommitQC == GENESIS_QC
                || (Met(net, states, actions, i, r, t.highCommitQC) && Commits(t.highCommitQC.ledgerCommitInfo)))
            && (forall qc :: Met(net, states, actions, i, r, qc) ==> Covered(t, qc))
  {
    hide SystemInv;
    hide Enabled;
    hide Next;
    hide OutcomeOf;
    hide Meets;
    if i > 0 {
      var s, a := states[i - 1], actions[i - 1];
      RunInv(net, states, actions, i - 1);
      if r in s.replicas {
        HighestInRuns(net, states, actions, i - 1, r);
        NextHighest(net, s, a, r);
        MetGrows(net, states, actions, i, r);
      } else {
        FirstStart(net, s, a, r);
        forall qc ensures !Met(net, states, actions, i, r, qc) {
          StartsUnmet(net, states, actions, i - 1, r, qc);
          assert !MetAt(net, states, actions, i - 1, r, qc);
        }
      }
    }
  }

  lemma FirstStart(net: Network, s: SystemState, a: Action, r: Id)
    requires Enabled(net, s, a) && r !in s.replicas && r in Next(net, s, a).replicas
    ensures a.StartUp? && a.who == r && Next(net, s, a).replicas[r].tree == NEW_TREE
  {
    hide Start;
    hide Step;
    if a.StartUp? { StartTree(net, s, a); }
  }

  /** What the last action meets joins what was met before. */
  lemma MetGrows(net: Network, states: seq<SystemState>, actions: seq<Action>, i: nat, r: Id)
    requires IsRun(net, states, actions) && 0 < i < |states|
    ensures forall qc :: Met(net, states, actions, i, r, qc) <==>
              Met(net, states, actions, i - 1, r, qc) || MetAt(net, states, actions, i - 1, r, qc)
  {
    hide Enabled;
    hide Next;
    hide OutcomeOf;
    hide Meets;
    forall qc ensures Met(net, states, actions, i, r, qc) <==>
                        Met(net, states, actions, i - 1, r, qc) || MetAt(net, states, actions, i - 1, r, qc)
    {
      if Met(net, states, actions, i - 1, r, qc) {
        var j :| 0 <= j < i - 1 && MetAt(net, states, actions, j, r, qc);
        assert 0 <= j < i;
      }
    }
  }

  /** In every run neither ever falls. */
  lemma {:induction false} HighestNeverFalls(net: Network, states: seq<SystemState>, actions: seq<Action>, i: nat,
                                             j: nat,
                                             r: Id)
    requires ValidNetwork(net) && IsRun(net, states, actions) && i <= j < |states| && r in states[i].replicas
    ensures r in states[j].replicas && NoLower(states[i].replicas[r].tree, states[j].replicas[r].tree)
    decreases j - i
  {
    hide SystemInv;
    hide Enabled;
    hide Next;
    hide OutcomeOf;
    hide Meets;
    if i < j {
      HighestNeverFalls(net, states, actions, i, j - 1, r);
      RunInv(net, states, actions, j - 1);
      NextHighest(net, states[j - 1], actions[j - 1], r);
    }
  }

  /** The message carries certificates at least as high as `qc`. */
  ghost predicate Carries(m: Message, qc: QuorumCert) {
    var round := qc.voteInfo.round;
    match m
    case Vote(v, _) => Commits(qc.ledgerCommitInfo) ==> v.highCommitQc.Some? && QCRound(v.highCommitQc) >= round
    case Proposal(p) =>
      && p.block.qc.Some? && QCRound(p.block.qc) >= round
      && (Commits(qc.ledgerCommitInfo) ==> p.highCommitQc.Some? && QCRound(p.highCommitQc) >= round)
    case Timeout(t) =>
      && t.tmoInfo.highQc.Some? && QCRound(t.tmoInfo.highQc) >= round
      && (Commits(qc.ledgerCommitInfo) ==> t.highCommitQc.Some? && QCRound(t.highCommitQc) >= round)
    case RequestBlock(_) => true
    case ReplyBlock(_) => true
  }

  lemma SentCarriesOwn(net: Network, s: SystemState, a: Action, m: Message, qc: QuorumCert)
    requires ValidNetwork(net) && Enabled(net, s, a) && m in OutcomeOf(net, s, a).sent
    requires Covered(OutcomeOf(net, s, a).replica.tree, qc)
    ensures Carries(m, qc)
  {
    hide Step;
    hide Start;
    hide VerifiedEvent;
    hide LeaderOf;
    var o := OutcomeOf(net, s, a);
    match a
    case StartUp(r, inputs) => StartDutiful(net.configs[r], inputs);
    case Handle(r, e, inputs) =>
      StepDutiful(net.configs[r], s.world.keys, s.replicas[r], e, inputs);
      assert Meant(net.configs[r], e, o, m);
  }

  /** In every run, whatever a replica sends carries certificates at least as high as every certificate it
      has met, those of the same step included, and as its highest ever. */
  lemma MessagesCarryHighest(net: Network, states: seq<SystemState>, actions: seq<Action>, i: nat, m: Message,
                             qc: QuorumCert)
    requires ValidNetwork(net) && IsRun(net, states, actions) && i < |actions|
    requires m in OutcomeOf(net, states[i], actions[i]).sent && Met(net, states, actions, i + 1, actions[i].who, qc)
    ensures Carries(m, qc)
  {
    hide SystemInv;
    hide OutcomeOf;
    hide VerifiedEvent;
    hide Meets;
    hide Carries;
    assert states[i + 1] == Next(net, states[i], actions[i]);
    HighestInRuns(net, states, actions, i + 1, actions[i].who);
    SentCarriesOwn(net, states[i], actions[i], m, qc);
  }
}
