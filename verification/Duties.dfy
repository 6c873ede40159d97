// What one step shows the outside: whom a replica votes for and where the vote goes, when it proposes,
// what it asks for and what it answers. Everything is said of the outcome of `Step`, in terms of the
// leader expected for a round and the state the step ends in.
module Duties {
  import opened Wire
  import opened Hashing
  import opened Verification
  import opened Chains
  import opened LedgerModel
  import opened SafetyRules
  import opened TreeModel
  import P = PacemakerModel
  import opened ReplicaModel
  import opened ReplicaInvariant
  import opened Rounds
  import Quorums
  import Sorting

  ghost function LeaderOf(cfg: Config, r: Replica, round: Round): Id {
    ExpectedLeader(cfg.validators, r.leaders, round)
  }

  ghost predicate HasProposal(o: Outcome) { exists s :: s in o.signed && s.Proposed? }

  // -------------------------------------------------------------------------------- votes

  /** The proposal is for the replica's round, and its sender and author are that round's leader. */
  ghost predicate Authorised(cfg: Config, r: Replica, p: ProposalMsg) {
    p.block.round == r.pacemaker.currentRound && p.sender == p.block.author == LeaderOf(cfg, r, p.block.round)
  }

  /** `v` is the vote `s` for the proposal's block, addressed to the leader of the round after. */
  ghost predicate VoteFor(cfg: Config, r: Replica, p: ProposalMsg, s: Statement, v: VoteMsg, to: Id) {
    && s == Voted(p.block, p.lastRoundTc, Ballot(v.voteInfo, v.ledgerCommitInfo))
    && v.voteInfo.id == p.block.id && v.voteInfo.round == p.block.round
    && v.sender == v.sig.signer == cfg.self && v.highCommitQc == Some(r.tree.highCommitQC)
    && to == LeaderOf(cfg, r, Succ(p.block.round))
  }

  lemma MakeVoteDoes(cfg: Config, k: Keyring, r: Replica, p: ProposalMsg, sig: Option<Blob>)
    requires p.block.round == r.pacemaker.currentRound
    ensures var o := ReplicaModel.MakeVote(cfg, k, r, p.block, p.lastRoundTc, sig);
            && o.replica == r.(counters := o.replica.counters)
            && (if MayVote(k, r.counters, p.block, p.lastRoundTc) && Ready(r.ledger, p.block.id) && sig.Some?
                then exists s, v, to ::
                       o.signed == [s] && o.sent == [Vote(v, to)] && VoteFor(cfg, o.replica, p, s, v, to)
                else o.signed == [] && o.sent == [])
  {
    hide MayVote;
    hide Replay;
    hide VoteInfoHash;
    hide CommitStateCandidate;
    var o := ReplicaModel.MakeVote(cfg, k, r, p.block, p.lastRoundTc, sig);
    if MayVote(k, r.counters, p.block, p.lastRoundTc) && Ready(r.ledger, p.block.id) && sig.Some? {
      assert o.sent == [Vote(o.sent[0].vote, o.sent[0].to)];
      assert VoteFor(cfg, o.replica, p, o.signed[0], o.sent[0].vote, o.sent[0].to);
    }
  }

  lemma InsertDoes(r: Replica, b: Block)
    ensures var o := Insert(r, b);
            && o.replica.leaders == r.leaders && o.replica.pacemaker == r.pacemaker && o.replica.counters == r.counters
            && o.replica.tree == r.tree.(pending := r.tree.pending[b.id := b]) && o.signed == []
            && (forall m :: m in o.sent ==> m.RequestBlock?)
  {
    hide Speculate;
    hide LedgerModel.Missing;
  }

  lemma AbsorbDoes(cfg: Config, r: Replica, qc: Option<QuorumCert>, commitQC: Option<QuorumCert>,
                   tc: Option<TimeoutCert>)
    ensures Absorb(cfg, r, qc, commitQC, tc).counters == r.counters
    ensures Absorb(cfg, r, qc, commitQC, tc).tree.pending.Keys <= r.tree.pending.Keys
  {
    hide Reaches;
    hide Commit;
    hide UpdateLeaders;
    hide P.AdvanceQC;
    hide P.AdvanceTC;
  }

  /** A vote is signed and sent exactly for the leader's proposal of the replica's round, if the rules
      allow it, the block is executed and signing succeeds; anything else leaves the block out. */
  lemma ProposalVotes(cfg: Config, k: Keyring, r: Replica, p: ProposalMsg, inputs: Inputs)
    ensures var o := HandleProposal(cfg, k, r, p, inputs);
            if Authorised(cfg, o.replica, p) then
              && p.block.id in o.replica.tree.pending && o.replica.tree.pending[p.block.id] == p.block
              && (if MayVote(k, r.counters, p.block, p.lastRoundTc) && Ready(o.replica.ledger, p.block.id)
                     && inputs.voteSig.Some?
                  then exists s, v, to ::
                         && o.signed == [s] && Vote(v, to) in o.sent && VoteFor(cfg, o.replica, p, s, v, to)
                         && forall m :: m in o.sent ==> m == Vote(v, to) || m.RequestBlock?
                  else o.signed == [] && forall m :: m in o.sent ==> m.RequestBlock?)
            else o.signed == [] && o.sent == [] && o.replica.tree.pending.Keys <= r.tree.pending.Keys
  {
    hide Absorb;
    hide ReplicaModel.MakeVote;
    hide Insert;
    hide MayVote;
    AbsorbDoes(cfg, r, p.block.qc, p.highCommitQc, p.lastRoundTc);
    var r1 := Absorb(cfg, r, p.block.qc, p.highCommitQc, p.lastRoundTc);
    InsertDoes(r1, p.block);
    var r2 := Insert(r1, p.block).replica;
    if Authorised(cfg, r1, p) {
      MakeVoteDoes(cfg, k, r2, p, inputs.voteSig);
      var v := ReplicaModel.MakeVote(cfg, k, r2, p.block, p.lastRoundTc, inputs.voteSig);
      assert HandleProposal(cfg, k, r, p, inputs) == After(Insert(r1, p.block).sent, [], v);
      assert [] + v.signed == v.signed;
    }
  }

  // ------------------------------------------------------------------ proposals and timeouts

  /** A proposal of this replica's own, as the leader of the round it is in, over the highest
      certificates it knows. */
  ghost predicate ProposalBy(cfg: Config, r: Replica, p: ProposalMsg) {
    && p.sender == p.sig.signer == p.block.author == cfg.self == LeaderOf(cfg, r, p.block.round)
    && p.block.round == r.pacemaker.currentRound && ValidBlockId(p.block)
    && p.block.qc == Some(r.tree.highQC) && p.highCommitQc == Some(r.tree.highCommitQC)
  }

  ghost predicate TimeoutBy(cfg: Config, r: Replica, t: TimeoutMsg) {
    && t.tmoInfo.sender == t.tmoInfo.sig.signer == cfg.self
    && t.tmoInfo.highQc == Some(r.tree.highQC) && t.highCommitQc == Some(r.tree.highCommitQC)
  }

  lemma NewRoundDoes(cfg: Config, r: Replica, tc: Option<TimeoutCert>, inputs: Inputs)
    ensures var o := ProcessNewRound(cfg, r, tc, inputs);
            && o.replica == r
            && (if LeaderOf(cfg, r, r.pacemaker.currentRound) == cfg.self && inputs.proposalSig.Some?
                then exists p: ProposalMsg ::
                       && o.signed == [Proposed(p.block)] && o.sent == [Proposal(p)]
                       && ProposalBy(cfg, r, p) && p.block.payload == inputs.txns
                else o.signed == [] && o.sent == [])
  {
    hide BlockId;
    var o := ProcessNewRound(cfg, r, tc, inputs);
    if LeaderOf(cfg, r, r.pacemaker.currentRound) == cfg.self && inputs.proposalSig.Some? {
      var p := o.sent[0].proposal;
      assert o.sent == [Proposal(p)] && o.signed == [Proposed(p.block)] && ProposalBy(cfg, r, p);
    }
  }

  /** Giving up a round changes the pacemaker and the counters; at most one timeout is signed and sent. */
  ghost predicate GaveUp(cfg: Config, r: Replica, o: Outcome) {
    && o.replica == r.(pacemaker := o.replica.pacemaker, counters := o.replica.counters)
    && o.replica.pacemaker.currentRound == r.pacemaker.currentRound
    && ((o.signed == [] && o.sent == []) ||
        exists t, tc :: && o.sent == [Timeout(t)] && o.signed == [TimedOut(t.tmoInfo.round, r.tree.highQC, tc)]
                        && TimeoutBy(cfg, r, t) && t.tmoInfo.round == r.pacemaker.currentRound)
  }

  lemma LocalTimeoutDoes(cfg: Config, k: Keyring, r: Replica, sig: Option<Blob>)
    ensures GaveUp(cfg, r, LocalTimeoutRound(cfg, k, r, sig))
  {
    hide MayTimeout;
    var o := LocalTimeoutRound(cfg, k, r, sig);
    if o.sent != [] {
      var t := o.sent[0].timeout;
      assert o.sent == [Timeout(t)] && o.signed == [TimedOut(t.tmoInfo.round, r.tree.highQC, r.pacemaker.lastRoundTC)];
      assert TimeoutBy(cfg, r, t);
    }
  }

  lemma RemoteTimeoutDoes(cfg: Config, k: Keyring, r: Replica, info: TimeoutInfo, sig: Option<Blob>)
    ensures GaveUp(cfg, r, ProcessRemoteTimeout(cfg, k, r, info, sig).0)
  {
    hide LocalTimeoutRound;
    hide P.BucketWith;
    LocalTimeoutDoes(cfg, k, r.(pacemaker := P.Stop(P.Collect(r.pacemaker, info))), sig);
  }

  // ------------------------------------------------------------------ signed against sent

  /** What a signed statement is on the wire. */
  ghost predicate Shown(cfg: Config, e: Event, o: Outcome, s: Statement) {
    match s
    case Voted(_, _, _) =>
      e.ProposalEvent? && Authorised(cfg, o.replica, e.proposal)
      && exists v, to :: Vote(v, to) in o.sent && VoteFor(cfg, o.replica, e.proposal, s, v, to)
    case TimedOut(round, high, _) =>
      exists t ::
        && Timeout(t) in o.sent && TimeoutBy(cfg, o.replica, t)
        && t.tmoInfo.round == round && t.tmoInfo.highQc == Some(high)
    case Proposed(b) => exists p :: Proposal(p) in o.sent && p.block == b && ProposalBy(cfg, o.replica, p)
    case Aggregated(_) => e.VoteEvent?
  }

  /** What a message stands for: nothing unsigned leaves the replica, and votes go to one place. */
  ghost predicate Meant(cfg: Config, e: Event, o: Outcome, m: Message) {
    match m
    case Vote(v, to) =>
      e.ProposalEvent? && Authorised(cfg, o.replica, e.proposal)
      && exists s :: s in o.signed && VoteFor(cfg, o.replica, e.proposal, s, v, to)
    case Timeout(t) =>
      TimeoutBy(cfg, o.replica, t) && exists tc :: TimedOut(t.tmoInfo.round, o.replica.tree.highQC, tc) in o.signed
    case Proposal(p) => ProposalBy(cfg, o.replica, p) && Proposed(p.block) in o.signed
    case RequestBlock(_) => e.ProposalEvent? || e.BlockEvent?
    case ReplyBlock(_) => e.BlockRequestEvent?
  }

  ghost predicate Dutiful(cfg: Config, e: Event, o: Outcome) {
    (forall s :: s in o.signed ==> Shown(cfg, e, o, s)) && forall m :: m in o.sent ==> Meant(cfg, e, o, m)
  }

  lemma ProposalDutiful(cfg: Config, k: Keyring, r: Replica, p: ProposalMsg, inputs: Inputs)
    ensures Dutiful(cfg, ProposalEvent(p), HandleProposal(cfg, k, r, p, inputs))
  {
    hide HandleProposal;
    hide LeaderOf;
    ProposalVotes(cfg, k, r, p, inputs);
  }

  lemma GaveUpDutiful(cfg: Config, e: Event, r: Replica, o: Outcome)
    requires GaveUp(cfg, r, o)
    ensures Dutiful(cfg, e, o)
  { }

  lemma NewRoundDutiful(cfg: Config, e: Event, r: Replica, tc: Option<TimeoutCert>, inputs: Inputs)
    ensures Dutiful(cfg, e, ProcessNewRound(cfg, r, tc, inputs))
  {
    hide ProcessNewRound;
    hide ProposalBy;
    NewRoundDoes(cfg, r, tc, inputs);
  }

  /** First giving up and then proposing, with the tree and the leaders as they were. */
  lemma BothDutiful(cfg: Config, e: Event, r: Replica, first: Outcome, second: Outcome)
    requires GaveUp(cfg, r, first) && Dutiful(cfg, e, second) && !e.ProposalEvent?
    requires second.replica.tree == r.tree && second.replica.leaders == r.leaders
    ensures Dutiful(cfg, e, After(first.sent, first.signed, second))
  {
    hide ProposalBy;
    GaveUpDutiful(cfg, e, r, first);
    var o := After(first.sent, first.signed, second);
    forall s | s in o.signed ensures Shown(cfg, e, o, s) {
      if s in first.signed { assert Shown(cfg, e, first, s); } else { assert Shown(cfg, e, second, s); }
    }
    forall m | m in o.sent ensures Meant(cfg, e, o, m) {
      if m in first.sent { assert Meant(cfg, e, first, m); } else { assert Meant(cfg, e, second, m); }
    }
  }

  lemma TimeoutDutiful(cfg: Config, k: Keyring, r: Replica, m: TimeoutMsg, inputs: Inputs)
    ensures Dutiful(cfg, TimeoutEvent(m), HandleTimeout(cfg, k, r, m, inputs))
  {
    hide Absorb;
    hide ProcessRemoteTimeout;
    hide ProcessNewRound;
    hide Dutiful;
    hide P.AdvanceTC;
    var r1 := Absorb(cfg, r, m.tmoInfo.highQc, m.highCommitQc, m.lastRoundTc);
    RemoteTimeoutDoes(cfg, k, r1, m.tmoInfo, inputs.timeoutSig);
    var (o, tc) := ProcessRemoteTimeout(cfg, k, r1, m.tmoInfo, inputs.timeoutSig);
    GaveUpDutiful(cfg, TimeoutEvent(m), r1, o);
    if tc.Some? {
      var r2 := AdvanceRoundTC(o.replica, tc);
      NewRoundDutiful(cfg, TimeoutEvent(m), r2, tc, inputs);
      NewRoundDoes(cfg, r2, tc, inputs);
      BothDutiful(cfg, TimeoutEvent(m), r1, o, ProcessNewRound(cfg, r2, tc, inputs));
    }
  }

  lemma AggregatedDutiful(cfg: Config, e: Event, sigs: seq<Signature>, o: Outcome)
    requires e.VoteEvent? && Dutiful(cfg, e, o)
    ensures Dutiful(cfg, e, After([], [Aggregated(sigs)], o))
  {
    hide ProposalBy;
    var a := After([], [Aggregated(sigs)], o);
    forall s | s in a.signed ensures Shown(cfg, e, a, s) { if s in o.signed { assert Shown(cfg, e, o, s); } }
    forall m | m in a.sent ensures Meant(cfg, e, a, m) { assert m in o.sent && Meant(cfg, e, o, m); }
  }

  lemma VoteDutiful(cfg: Config, r: Replica, m: VoteMsg, inputs: Inputs)
    ensures Dutiful(cfg, VoteEvent(m), HandleVote(cfg, r, m, inputs))
  {
    hide ProcessTreeQC;
    hide ProcessVote;
    hide ProcessCertificateQC;
    hide ProcessNewRound;
    var r1 := ProcessTreeQC(r, m.highCommitQc);
    var (tree, qc) := ProcessVote(cfg.self, cfg.Quorum(), r1.tree, m, inputs.authorSig);
    if qc.Some? {
      var r3 := ProcessCertificateQC(cfg, r1.(tree := tree), qc).0;
      NewRoundDutiful(cfg, VoteEvent(m), r3, None, inputs);
      AggregatedDutiful(cfg, VoteEvent(m), qc.value.signatures, ProcessNewRound(cfg, r3, None, inputs));
    }
  }

  /** Every statement a step signs is on the wire and every message it sends is signed for: votes only
      for the expected leader's proposal and only to the leader of the round after, proposals only as
      the expected leader, and all with the highest certificates the replica knows. */
  lemma StepDutiful(cfg: Config, k: Keyring, r: Replica, e: Event, inputs: Inputs)
    ensures Dutiful(cfg, e, Step(cfg, k, r, e, inputs))
  {
    hide HandleProposal;
    hide HandleVote;
    hide HandleTimeout;
    hide LocalTimeoutRound;
    hide Speculate;
    match e
    case ProposalEvent(p) => ProposalDutiful(cfg, k, r, p, inputs);
    case VoteEvent(m) => VoteDutiful(cfg, r, m, inputs);
    case TimeoutEvent(m) => TimeoutDutiful(cfg, k, r, m, inputs);
    case LocalTimeoutEvent(_) =>
      LocalTimeoutDoes(cfg, k, r, inputs.timeoutSig);
      GaveUpDutiful(cfg, e, r, LocalTimeoutRound(cfg, k, r, inputs.timeoutSig));
    case BlockEvent(_) =>
    case BlockRequestEvent(_) =>
  }

  /** Starting signs nothing but the first proposal, and sends it exactly if it is due. */
  lemma StartDutiful(cfg: Config, inputs: Inputs)
    ensures var o := Start(cfg, inputs);
            && o.replica.pacemaker.currentRound == 1
            && (if LeaderOf(cfg, o.replica, 1) == cfg.self && inputs.proposalSig.Some?
                then exists p: ProposalMsg ::
                       o.signed == [Proposed(p.block)] && o.sent == [Proposal(p)] && ProposalBy(cfg, o.replica, p)
                else o.signed == [] && o.sent == [])
  {
    hide ProcessNewRound;
    hide ProposalBy;
    NewRoundDoes(cfg, NEW_REPLICA.(pacemaker := P.AdvanceQC(P.NEW_PACEMAKER, GENESIS_QC).0), None, inputs);
  }

  // ------------------------------------------------------------------- when it proposes

  /** The step opens a round this replica may have to lead: it completed a certificate and entered the
      round after, or it completed a TC. */
  ghost predicate Opens(cfg: Config, k: Keyring, r: Replica, e: Event, inputs: Inputs) {
    match e
    case VoteEvent(m) =>
      var o := Step(cfg, k, r, e, inputs);
      (exists sigs :: Aggregated(sigs) in o.signed) && o.replica.pacemaker.epoch != r.pacemaker.epoch
    case TimeoutEvent(m) => FormsTC(cfg, k, r, m, inputs.timeoutSig)
    case _ => false
  }

  lemma CertificateEpoch(cfg: Config, r: Replica, qc: Option<QuorumCert>)
    ensures var (r', moved) := ProcessCertificateQC(cfg, r, qc); moved <==> r'.pacemaker.epoch != r.pacemaker.epoch
  {
    hide ProcessQC;
    hide Commit;
    hide UpdateLeaders;
  }

  lemma VoteProposes(cfg: Config, k: Keyring, r: Replica, m: VoteMsg, inputs: Inputs)
    ensures var e := VoteEvent(m);
            var o := Step(cfg, k, r, e, inputs);
            HasProposal(o) <==> && Opens(cfg, k, r, e, inputs) && inputs.proposalSig.Some?
                                && LeaderOf(cfg, o.replica, o.replica.pacemaker.currentRound) == cfg.self
  {
    hide ProcessVote;
    hide ProcessCertificateQC;
    hide ProcessNewRound;
    hide ProcessQC;
    hide Commit;
    hide ProposalBy;
    var r1 := ProcessTreeQC(r, m.highCommitQc);
    var (tree, qc) := ProcessVote(cfg.self, cfg.Quorum(), r1.tree, m, inputs.authorSig);
    CertificateEpoch(cfg, r1.(tree := tree), qc);
    var (r3, moved) := ProcessCertificateQC(cfg, r1.(tree := tree), qc);
    NewRoundDoes(cfg, r3, None, inputs);
    var o := HandleVote(cfg, r, m, inputs);
    if qc.Some? && !OutOfWindow(r.pacemaker.currentRound, m.voteInfo.round) {
      var n := ProcessNewRound(cfg, r3, None, inputs);
      assert Aggregated(qc.value.signatures) in o.signed;
      if moved && n.signed != [] { assert n.signed[0] in o.signed; }
    }
  }

  lemma TimeoutProposes(cfg: Config, k: Keyring, r: Replica, m: TimeoutMsg, inputs: Inputs)
    ensures var o := HandleTimeout(cfg, k, r, m, inputs);
            HasProposal(o) <==> && FormsTC(cfg, k, r, m, inputs.timeoutSig) && inputs.proposalSig.Some?
                                && LeaderOf(cfg, o.replica, o.replica.pacemaker.currentRound) == cfg.self
  {
    hide Absorb;
    hide ProcessRemoteTimeout;
    hide ProcessNewRound;
    hide P.AdvanceTC;
    hide ProposalBy;
    var r1 := Absorb(cfg, r, m.tmoInfo.highQc, m.highCommitQc, m.lastRoundTc);
    RemoteTimeoutDoes(cfg, k, r1, m.tmoInfo, inputs.timeoutSig);
    var (o, tc) := ProcessRemoteTimeout(cfg, k, r1, m.tmoInfo, inputs.timeoutSig);
    if tc.Some? {
      var r2 := AdvanceRoundTC(o.replica, tc);
      NewRoundDoes(cfg, r2, tc, inputs);
      var n := ProcessNewRound(cfg, r2, tc, inputs);
      if n.signed != [] { assert n.signed[0] in HandleTimeout(cfg, k, r, m, inputs).signed; }
    }
  }

  /** A proposal is made exactly when the step opens a round, this replica leads it and signing succeeds. */
  lemma StepProposes(cfg: Config, k: Keyring, r: Replica, e: Event, inputs: Inputs)
    ensures var o := Step(cfg, k, r, e, inputs);
            HasProposal(o) <==> && Opens(cfg, k, r, e, inputs) && inputs.proposalSig.Some?
                                && LeaderOf(cfg, o.replica, o.replica.pacemaker.currentRound) == cfg.self
  {
    hide HandleProposal;
    hide HandleVote;
    hide HandleTimeout;
    hide LocalTimeoutRound;
    hide FormsTC;
    hide Speculate;
    match e
    case ProposalEvent(p) => ProposalVotes(cfg, k, r, p, inputs);
    case VoteEvent(m) => VoteProposes(cfg, k, r, m, inputs);
    case TimeoutEvent(m) => TimeoutProposes(cfg, k, r, m, inputs);
    case LocalTimeoutEvent(_) => LocalTimeoutDoes(cfg, k, r, inputs.timeoutSig);
    case BlockEvent(_) =>
    case BlockRequestEvent(_) =>
  }

  // ------------------------------------------------------------------- requests and answers

  /** The block the step hands to the ledger, if any. */
  ghost predicate Inserts(cfg: Config, e: Event, o: Outcome, b: Block) {
    match e
    case ProposalEvent(p) => b == p.block && Authorised(cfg, o.replica, p)
    case BlockEvent(c) => b == c
    case _ => false
  }

  /** `h` is an ancestor of `b` that the ledger lacks: every block between them is held. */
  ghost predicate Lacks(l: Ledger, h: Hash, b: Block) {
    h !in l.held && !Ready(l, h) && Reaches(l.held, h, b.id)
  }

  lemma InsertRequests(r: Replica, b: Block)
    requires LedgerInv(r.ledger) && ValidBlockId(b)
    ensures var o := Insert(r, b);
            if b.id in o.replica.ledger.held
            then exists h :: o.sent == [RequestBlock(h)] && Lacks(o.replica.ledger, h, b)
            else o.sent == []
  {
    hide BlockId;
    hide Speculate;
    hide Reaches;
    SpeculateInv(r.ledger, b);
    var l := Speculate(r.ledger, b);
    if b.id in l.held {
      MissingIsUnseen(l, b.id);
      assert Lacks(l, OldestMissing(l.held, b.id), b);
    }
  }

  /** A block is asked for exactly when the step leaves the block it inserted held, and then it is an
      ancestor of that block which the replica lacks. */
  lemma StepRequests(cfg: Config, k: Keyring, r: Replica, e: Event, inputs: Inputs)
    requires ReplicaInv(k, r) && VerifiedEvent(k, e)
    ensures var o := Step(cfg, k, r, e, inputs);
            && (forall h :: RequestBlock(h) in o.sent ==>
                  exists b :: Inserts(cfg, e, o, b) && Lacks(o.replica.ledger, h, b))
            && (forall b :: Inserts(cfg, e, o, b) && b.id in o.replica.ledger.held ==>
                  exists h :: RequestBlock(h) in o.sent)
  {
    hide HandleVote;
    hide HandleTimeout;
    hide HandleProposal;
    hide LocalTimeoutRound;
    hide ReplicaInv;
    hide Insert;
    hide Lacks;
    hide LeaderOf;
    StepDutiful(cfg, k, r, e, inputs);
    match e
    case ProposalEvent(p) => ProposalRequests(cfg, k, r, p, inputs);
    case BlockEvent(b) =>
      InvHasLedger(k, r);
      InsertRequests(r, b);
      var o := Insert(r, b);
      assert Inserts(cfg, e, o, b);
      if b.id in o.replica.ledger.held {
        var h :| o.sent == [RequestBlock(h)];
        assert RequestBlock(h) in o.sent;
      }
    case VoteEvent(_) =>
    case TimeoutEvent(_) =>
    case LocalTimeoutEvent(_) =>
    case BlockRequestEvent(_) =>
  }

  lemma InvHasLedger(k: Keyring, r: Replica)
    requires ReplicaInv(k, r)
    ensures LedgerInv(r.ledger) && Filed(r.tree.pending)
  { }

  lemma ProposalRequests(cfg: Config, k: Keyring, r: Replica, p: ProposalMsg, inputs: Inputs)
    requires ReplicaInv(k, r) && VerifyProposal(k, p)
    ensures var e, o := ProposalEvent(p), HandleProposal(cfg, k, r, p, inputs);
            && (forall h :: RequestBlock(h) in o.sent ==>
                  exists b :: Inserts(cfg, e, o, b) && Lacks(o.replica.ledger, h, b))
            && (forall b :: Inserts(cfg, e, o, b) && b.id in o.replica.ledger.held ==>
                  exists h :: RequestBlock(h) in o.sent)
  {
    hide BlockId;
    hide VerifyQC;
    hide VerifyTC;
    hide ReplicaInv;
    hide Absorb;
    hide Insert;
    hide ReplicaModel.MakeVote;
    hide MayVote;
    hide Lacks;
    AbsorbInv(cfg, k, r, p.block.qc, p.highCommitQc, p.lastRoundTc);
    var r1 := Absorb(cfg, r, p.block.qc, p.highCommitQc, p.lastRoundTc);
    InvHasLedger(k, r1);
    InsertDoes(r1, p.block);
    InsertRequests(r1, p.block);
    var i := Insert(r1, p.block);
    var e, o := ProposalEvent(p), HandleProposal(cfg, k, r, p, inputs);
    if Authorised(cfg, r1, p) {
      MakeVoteDoes(cfg, k, i.replica, p, inputs.voteSig);
      var v := ReplicaModel.MakeVote(cfg, k, i.replica, p.block, p.lastRoundTc, inputs.voteSig);
      assert o == After(i.sent, i.signed, v) && Inserts(cfg, e, o, p.block);
      if p.block.id in i.replica.ledger.held { assert i.sent[0] in o.sent; }
    }
  }

  /** A request is answered, and changes nothing: with a block of that id from the pending tree or the
      last `history` committed ones, or with none if neither has one. */
  lemma StepServes(cfg: Config, k: Keyring, r: Replica, id: Hash, inputs: Inputs)
    requires ReplicaInv(k, r)
    ensures var o := Step(cfg, k, r, BlockRequestEvent(id), inputs);
            && o.replica == r && o.signed == [] && |o.sent| == 1 && o.sent[0].ReplyBlock?
            && var reply, log := o.sent[0].block, r.ledger.log;
               match reply
               case Some(b) =>
                 && b.id == id
                 && (b in r.tree.pending.Values ||
                     exists n :: 0 <= n < |log| && |log| - cfg.history <= n && log[n] == b)
               case None =>
                 && id !in r.tree.pending
                 && forall n :: 0 <= n < |log| && |log| - cfg.history <= n ==> log[n].id != id
  {
    hide BlockId;
    hide ReplicaInv;
    hide Lookup;
    hide Retained;
    InvHasLedger(k, r);
    FoundAmongLast(r.ledger.log, cfg.history, id);
  }

  lemma FoundAmongLast(log: seq<Block>, history: nat, id: Hash)
    ensures match Lookup(Retained(log, history), id)
            case Some(b) => b.id == id && exists n :: 0 <= n < |log| && |log| - history <= n && log[n] == b
            case None => forall n :: 0 <= n < |log| && |log| - history <= n ==> log[n].id != id
  {
    var kept := Retained(log, history);
    var from := |log| - |kept|;
    var b := Lookup(kept, id);
    if b.Some? {
      var n :| 0 <= n < |kept| && kept[n].id == id && kept[n] == b.value;
      assert log[from + n] == b.value;
    } else {
      forall n | 0 <= n < |log| && |log| - history <= n ensures log[n].id != id { assert kept[n - from] == log[n]; }
    }
  }

  // -------------------------------------------------------------------- counting votes

  ghost function SignersIn(t: Tree, idx: Hash): set<Id> {
    if idx in t.votes then Signers(t.votes[idx].sigs) else {}
  }

  lemma SignersGrow(sigs: seq<Signature>, s: Signature)
    ensures Signers(sigs + [s]) == Signers(sigs) + {s.signer}
  {
    assert forall i :: 0 <= i < |sigs| ==> (sigs + [s])[i] == sigs[i];
    assert (sigs + [s])[|sigs|] == s;
  }

  lemma {:induction false} DistinctSigners(sigs: seq<Signature>)
    requires Sorting.Distinct(SignerOf, sigs)
    ensures |Signers(sigs)| == |sigs|
  {
    if sigs != [] {
      var last := |sigs| - 1;
      var front := sigs[..last];
      assert sigs == front + [sigs[last]];
      DistinctSigners(front);
      SignersGrow(front, sigs[last]);
      assert forall i :: 0 <= i < last ==> SignerOf(sigs[i]) != SignerOf(sigs[last]);
    }
  }

  lemma CanonicalSigners(sigs: seq<Signature>)
    ensures Signers(Canonical(sigs)) == Signers(sigs)
  {
    hide Sorting.SortBy;
    Sorting.SortPermutes(SignerOf, sigs);
    var c := Canonical(sigs);
    forall s ensures s in c <==> s in sigs { assert s in multiset(c) <==> s in multiset(sigs); }
    forall x ensures x in Signers(c) <==> x in Signers(sigs) {
      if x in Signers(c) {
        var i :| 0 <= i < |c| && c[i].signer == x;
        assert c[i] in sigs;
      }
      if x in Signers(sigs) {
        var i :| 0 <= i < |sigs| && sigs[i].signer == x;
        assert sigs[i] in c;
      }
    }
  }

  lemma BucketSigners(k: Keyring, t: Tree, v: VoteMsg)
    requires VotesInv(k, t) && VerifyVote(k, v) && !HasVoted(t, v)
    ensures var b := TreeModel.BucketWith(t, v);
            && Signers(b.sigs) == SignersIn(t, LedgerCommitDigest(v.ledgerCommitInfo)) + {v.sender}
            && |b.sigs| == |Signers(b.sigs)| && b.voteInfo == v.voteInfo && b.commit == v.ledgerCommitInfo
  {
    hide LedgerCommitDigest;
    hide VoteInfoHash;
    hide VerifyQC;
    BucketWithInv(k, t, v);
    hide VotesInv;
    var b, idx := TreeModel.BucketWith(t, v), LedgerCommitDigest(v.ledgerCommitInfo);
    DistinctSigners(b.sigs);
    SignersGrow(if idx in t.votes then t.votes[idx].sigs else [], v.sig);
    assert [] + [v.sig] == [v.sig];
  }

  /** A vote counts once per signer and round, towards exactly the vote it is for. It completes a
      certificate exactly when it makes a quorum of signers and the set can be signed; the certificate
      is by those signers, and its votes are then forgotten. */
  lemma VoteCompletesIff(k: Keyring, self: Id, quorum: nat, t: Tree, v: VoteMsg, sig: Option<Blob>)
    requires VotesInv(k, t) && VerifyVote(k, v)
    ensures var (t', qc) := ProcessVote(self, quorum, t, v, sig);
            var idx, first := LedgerCommitDigest(v.ledgerCommitInfo), (v.voteInfo.round, v.sender) !in t.voters;
            && t'.voters == t.voters + {(v.voteInfo.round, v.sender)}
            && (forall x :: x != idx ==> SignersIn(t', x) == SignersIn(t, x))
            && (qc.Some? <==> first && sig.Some? && |SignersIn(t, idx) + {v.sender}| >= quorum)
            && (qc.Some? ==> && Signers(qc.value.signatures) == SignersIn(t, idx) + {v.sender} && idx !in t'.votes
                             && qc.value.voteInfo == v.voteInfo && qc.value.ledgerCommitInfo == v.ledgerCommitInfo
                             && qc.value.author == self)
            && (qc.None? ==> SignersIn(t', idx) == if first then SignersIn(t, idx) + {v.sender} else SignersIn(t, idx))
  {
    hide LedgerCommitDigest;
    hide VotesInv;
    hide VerifyVote;
    hide Canonical;
    hide TreeModel.BucketWith;
    if HasVoted(t, v) {
      assert t.voters + {(v.voteInfo.round, v.sender)} == t.voters;
    } else {
      BucketSigners(k, t, v);
      CanonicalSigners(TreeModel.BucketWith(t, v).sigs);
    }
  }

  /** Handling a vote assembles a certificate exactly if the vote is near enough, is its signer's first in
      the round, makes a quorum of the validators and can be signed for; the certificate is by exactly
      those who voted alike. */
  lemma StepAssembles(cfg: Config, k: Keyring, r: Replica, m: VoteMsg, inputs: Inputs)
    requires ReplicaInv(k, r) && VerifyVote(k, m)
    ensures var o, t := HandleVote(cfg, r, m, inputs), ProcessTreeQC(r, m.highCommitQc).tree;
            var signers := SignersIn(t, LedgerCommitDigest(m.ledgerCommitInfo)) + {m.sender};
            && ((exists sigs :: Aggregated(sigs) in o.signed) <==>
                  && !OutOfWindow(r.pacemaker.currentRound, m.voteInfo.round) && inputs.authorSig.Some?
                  && (m.voteInfo.round, m.sender) !in t.voters && |signers| >= Quorums.QuorumSize(|cfg.validators|))
            && (forall sigs :: Aggregated(sigs) in o.signed ==> Signers(sigs) == signers)
  {
    hide ReplicaInv;
    hide VerifyVote;
    hide LedgerCommitDigest;
    hide ProcessTreeQC;
    hide ProcessVote;
    hide ProcessCertificateQC;
    hide ProcessNewRound;
    assert VerifyCommitQC(k, m.highCommitQc) by { VoteIsVerified(k, m); }
    ProcessTreeQCInv(k, r, m.highCommitQc);
    var r1 := ProcessTreeQC(r, m.highCommitQc);
    InvHasVotes(k, r1);
    VoteCompletesIff(k, cfg.self, cfg.Quorum(), r1.tree, m, inputs.authorSig);
    var (tree, qc) := ProcessVote(cfg.self, cfg.Quorum(), r1.tree, m, inputs.authorSig);
    var o := HandleVote(cfg, r, m, inputs);
    if qc.Some? && !OutOfWindow(r.pacemaker.currentRound, m.voteInfo.round) {
      NewRoundDoes(cfg, ProcessCertificateQC(cfg, r1.(tree := tree), qc).0, None, inputs);
      assert Aggregated(qc.value.signatures) in o.signed;
    }
  }

  lemma VoteIsVerified(k: Keyring, m: VoteMsg)
    requires VerifyVote(k, m)
    ensures VerifyCommitQC(k, m.highCommitQc)
  { }

  lemma InvHasVotes(k: Keyring, r: Replica)
    requires ReplicaInv(k, r)
    ensures VotesInv(k, r.tree)
  { }

  /** A certificate that commits clears the votes of rounds up to its parent's; all others stay. */
  lemma CertificateKeepsNewerVotes(t: Tree, qc: QuorumCert)
    ensures var t' := ProcessQC(t, qc);
            var kept := (round: Round) => !Commits(qc.ledgerCommitInfo) || round > qc.voteInfo.parentRound;
            && (forall x :: x in t'.votes <==> x in t.votes && kept(t.votes[x].voteInfo.round))
            && (forall x :: x in t'.votes ==> t'.votes[x] == t.votes[x])
            && (forall v :: v in t'.voters <==> v in t.voters && kept(v.0))
  {
    hide Reaches;
  }

  /** A certificate that commits leaves the tree its root and what hangs on it above the root's round: a
      block stays exactly if it is the root, or is above and its parent is the root or stays. */
  lemma CertificateReroots(t: Tree, qc: QuorumCert, x: Hash)
    requires Filed(t.pending) && x in t.pending
    ensures var t', root, parent := ProcessQC(t, qc), qc.voteInfo.parentId, ParentId(t.pending[x]);
            && (Commits(qc.ledgerCommitInfo) ==>
                  (x in t'.pending <==> x == root || (t.pending[x].round > qc.voteInfo.parentRound
                                                     && (parent == root || parent in t'.pending))))
            && (!Commits(qc.ledgerCommitInfo) ==> x in t'.pending)
            && (x in t'.pending ==> t'.pending[x] == t.pending[x])
  {
    hide BlockId;
    ParentBelow(t.pending[x]);
  }

  /** Votes more than four rounds ahead or more than one behind are dropped unread; any other has been
      counted by the end of the step, or has completed a certificate. */
  lemma VoteWindow(cfg: Config, k: Keyring, r: Replica, m: VoteMsg, inputs: Inputs)
    requires r.pacemaker.currentRound + 4 <= MAX_U64 && m.voteInfo.round < MAX_U64
    ensures var o := Step(cfg, k, r, VoteEvent(m), inputs);
            if m.voteInfo.round > r.pacemaker.currentRound + 4 || m.voteInfo.round + 1 < r.pacemaker.currentRound
            then o == Outcome(r, [], [])
            else (m.voteInfo.round, m.sender) in o.replica.tree.voters || exists sigs :: Aggregated(sigs) in o.signed
  {
    hide ProcessTreeQC;
    hide ProcessCertificateQC;
    hide ProcessNewRound;
    hide Canonical;
    hide LedgerCommitDigest;
    var r1 := ProcessTreeQC(r, m.highCommitQc);
    var (tree, qc) := ProcessVote(cfg.self, cfg.Quorum(), r1.tree, m, inputs.authorSig);
    if qc.Some? && !OutOfWindow(r.pacemaker.currentRound, m.voteInfo.round) {
      assert Aggregated(qc.value.signatures) in HandleVote(cfg, r, m, inputs).signed;
    }
  }
}
