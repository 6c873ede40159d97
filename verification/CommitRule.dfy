// The 2-chain commit rule at both ends: when a correct replica's vote, and so a certificate, carries a
// commit, and what reading a certificate that does carries out.
module CommitRule {
  import opened Wire
  import opened Hashing
  import opened Verification
  import opened Chains
  import opened LedgerModel
  import opened SafetyRules
  import opened Agreement
  import opened TreeModel
  import P = PacemakerModel
  import opened ReplicaModel
  import opened ReplicaInvariant
  import opened System
  import opened LedgerImpl
  import opened Duties
  import opened HighCerts
  import opened Authenticity

  // ----------------------------------------------------------------------- what a vote carries

  /** The state a vote for `b` has to carry: the parent's replay if `b` is one round above its
      certificate and still pending, and nothing otherwise. */
  ghost function CommitState(execute: Execution, l: Ledger, b: Block): Hash {
    if Succ(QCRound(b.qc)) == b.round && b.id in l.pending then Replay(execute, ParentId(b)) else ZERO_HASH
  }

  /** A pending block's parent is ready, and the parent of the frontier is not. */
  lemma ParentReadyIff(l: Ledger, b: Block)
    requires LedgerInv(l) && ValidBlockId(b) && ValidHash(ParentId(b)) && Ready(l, b.id)
    ensures Ready(l, ParentId(b)) <==> b.id in l.pending
  {
    hide BlockId;
    FrontierNotPending(l);
    ParentBelow(b);
    if b.id in l.pending {
      ReadyIsAboveGenesis(l, ParentId(l.pending[b.id]));
      BlockIdInjective(b, l.pending[b.id]);
    } else if ParentId(b) in l.pending {
      PendingReaches(l, ParentId(b));
    }
  }

  lemma BallotCommits(execute: Execution, k: Keyring, c: Counters, l: Ledger, b: Block, tc: Option<TimeoutCert>)
    requires LedgerInv(l) && BallotFor(execute, k, c, l, b, tc).Some?
    ensures BallotFor(execute, k, c, l, b, tc).value.commit.commitStateId == CommitState(execute, l, b)
  {
    hide BlockId;
    hide LedgerInv;
    hide VoteInfoHash;
    hide LedgerCommitDigest;
    hide QcSigsDigest;
    hide VerifyTC;
    ParentReadyIff(l, b);
  }

  /** Every vote a step signs carries the commit the rule demands, and nothing else, over the ledger the
      step ends with. */
  lemma ProposalCommits(cfg: Config, k: Keyring, r: Replica, p: ProposalMsg, inputs: Inputs, s: Statement)
    requires ReplicaInv(k, r) && VerifyProposal(k, p)
    requires s in HandleProposal(cfg, k, r, p, inputs).signed && s.Voted?
    ensures s.ballot.commit.commitStateId == CommitState(cfg.execute, HandleProposal(cfg, k, r, p,
              inputs).replica.ledger, s.block)
  {
    hide BlockId;
    hide VerifyQC;
    hide VerifyTC;
    hide ReplicaInv;
    hide Absorb;
    hide Insert;
    hide BallotFor;
    hide CommitState;
    AbsorbInv(cfg, k, r, p.block.qc, p.highCommitQc, p.lastRoundTc);
    var r1 := Absorb(cfg, r, p.block.qc, p.highCommitQc, p.lastRoundTc);
    InsertInv(k, r1, p.block);
    InsertDoes(r1, p.block);
    var r2 := Insert(r1, p.block).replica;
    InvHasLedger(k, r2);
    if BallotFor(cfg.execute, k, r2.counters, r2.ledger, p.block, p.lastRoundTc).Some? {
      BallotCommits(cfg.execute, k, r2.counters, r2.ledger, p.block, p.lastRoundTc);
    }
  }

  lemma StepVotesCommit(net: Network, s: SystemState, a: Action, st: Statement)
    requires ValidNetwork(net) && SystemInv(net, s) && Enabled(net, s, a)
    requires st in OutcomeOf(net, s, a).signed && st.Voted?
    ensures st.ballot.commit.commitStateId == CommitState(net.execute, OutcomeOf(net, s, a).replica.ledger, st.block)
  {
    hide ReplicaInv;
    hide WorldInv;
    hide Covers;
    hide VerifyVote;
    hide VerifyProposal;
    hide VerifyTimeout;
    hide Start;
    hide HandleProposal;
    hide HandleVote;
    hide HandleTimeout;
    hide LocalTimeoutRound;
    hide CommitState;
    hide LeaderOf;
    var _, _ := VoteWentOut(net, s, a, st);
    ProposalCommits(net.configs[a.who], s.world.keys, s.replicas[a.who], a.event.proposal, a.inputs, st);
  }

  /** In every run, a correct replica's vote commits the parent exactly if the block was one round above
      its certificate and pending when the vote was cast. So does every certificate the vote is part of:
      for each correct signer of a verified certificate there is the action that cast the vote. */
  lemma CertificatesCommit(net: Network, states: seq<SystemState>, actions: seq<Action>, i: nat, qc: QuorumCert, r: Id)
    returns (j: nat, st: Statement)
    requires ValidNetwork(net) && IsRun(net, states, actions) && i < |states|
    requires VerifyQC(states[i].world.keys, qc) && qc.voteInfo.round > 0
    requires r in Signers(qc.signatures) && r !in net.faulty
    ensures j < i && actions[j].who == r && st in OutcomeOf(net, states[j], actions[j]).signed && st.Voted?
    ensures st.block.id == qc.voteInfo.id && QCRound(st.block.qc) == qc.voteInfo.parentRound
    ensures var contiguous := Succ(qc.voteInfo.parentRound) == qc.voteInfo.round;
            var pending := qc.voteInfo.id in OutcomeOf(net, states[j], actions[j]).replica.ledger.pending;
            && qc.ledgerCommitInfo.commitStateId ==
                 (if contiguous && pending then Replay(net.execute, qc.voteInfo.parentId) else ZERO_HASH)
            && (Commits(qc.ledgerCommitInfo) <==>
                  contiguous && pending && Replay(net.execute, qc.voteInfo.parentId) != ZERO_HASH)
  {
    hide OutcomeOf;
    hide Next;
    hide SystemInv;
    hide VerifyQC;
    hide BlockId;
    hide Replay;
    hide VerifyTC;
    hide VoteInfoHash;
    RunInv(net, states, actions, i);
    KeysStay(net, states[i]);
    st := VoteBehind(net.execute, states[i].world, qc, r);
    j := SignedBefore(net, states, actions, i, r, st);
    RunInv(net, states, actions, j);
    StepVotesCommit(net, states[j], actions[j], st);
    VerifiedIsSized(states[i].world.keys, qc);
    CommitsUnlessZero(qc.ledgerCommitInfo);
  }

  lemma VerifiedIsSized(k: Keyring, qc: QuorumCert)
    requires VerifyQC(k, qc)
    ensures ValidVote(qc.voteInfo, qc.ledgerCommitInfo)
  { }

  lemma KeysStay(net: Network, s: SystemState)
    requires SystemInv(net, s)
    ensures s.world.keys.faulty == net.faulty && WorldInv(net.execute, s.world)
  {
    hide WorldInv;
    hide ReplicaInv;
    hide Covers;
  }

  /** A well-sized commit state commits unless it is the zero hash. */
  lemma CommitsUnlessZero(l: LedgerCommitInfo)
    requires ValidHash(l.commitStateId)
    ensures Commits(l) <==> l.commitStateId != ZERO_HASH
  {
    if !Commits(l) {
      assert l.commitStateId.bytes == ZERO_HASH.bytes;
    }
  }

  // -------------------------------------------------------------------- what a commit does

  lemma {:induction false} ChainIsLow(h: Hash, x: Hash)
    requires OnChain(x, h)
    ensures Height(x) <= Height(h)
    decreases Height(h)
  {
    if x != h { ChainIsLow(ParentOf(h), x); }
  }

  /** Inside the pending blocks, reaching an id means having it on the chain. */
  lemma {:induction false} ReachesIffOnChain(l: Ledger, id: Hash, x: Hash)
    requires LedgerInv(l) && id in l.pending && x in l.pending
    ensures Reaches(l.pending, id, x) <==> OnChain(id, x) && x != id
    decreases Height(x)
  {
    hide BlockId;
    hide LedgerInv;
    PendingReaches(l, id);
    PendingReaches(l, x);
    FrontierNotPending(l);
    ReadyIsAboveGenesis(l, CommitId(l));
    PendingParent(l, x);
    var b := l.pending[x];
    var p := ParentId(b);
    ChainStep(b);
    ParentBelow(b);
    if OnChain(id, p) { ChainIsLow(p, id); }
    if p != id && p != CommitId(l) { ReachesIffOnChain(l, id, p); }
  }

  lemma PendingParent(l: Ledger, x: Hash)
    requires LedgerInv(l) && x in l.pending
    ensures var b := l.pending[x]; b.id == x && Names(x, b) && (ParentId(b) == CommitId(l) || ParentId(b) in l.pending)
  {
    hide BlockId;
    ReadyIsAboveGenesis(l, ParentId(l.pending[x]));
  }

  /** Committing a pending block makes its whole chain the history, keeps pending exactly the blocks that
      extend it, and keeps held exactly those whose certificates are above it. */
  lemma CommitExact(l: Ledger, id: Hash)
    requires LedgerInv(l) && id in l.pending
    ensures var m := Commit(l, id);
            && Ids(m.log) == ChainOf(id)
            && (forall x :: x in m.pending <==> x in l.pending && OnChain(id, x) && x != id)
            && (forall x :: x in m.pending ==> m.pending[x] == l.pending[x])
            && (forall x :: x in m.held <==> x in l.held && QCRound(l.held[x].qc) > l.pending[id].round)
            && (forall x :: x in m.held ==> m.held[x] == l.held[x])
  {
    hide BlockId;
    hide ChainOf;
    hide Reaches;
    PendingReaches(l, id);
    FrontierNotPending(l);
    CommitInv(l, id);
    CommitExtendsLog(l, id);
    LogIsChain(Commit(l, id).log);
    forall x | x in l.pending ensures Reaches(l.pending, id, x) <==> OnChain(id, x) && x != id {
      ReachesIffOnChain(l, id, x);
    }
  }

  // --------------------------------------------------------------- certificates take effect

  ghost function LedgerAfter(l: Ledger, qc: Option<QuorumCert>): Ledger {
    if qc.Some? && Commits(qc.value.ledgerCommitInfo) then Commit(l, qc.value.voteInfo.parentId) else l
  }

  ghost predicate Demands(qc: Option<QuorumCert>, id: Hash) {
    qc.Some? && Commits(qc.value.ledgerCommitInfo) && qc.value.voteInfo.parentId == id
  }

  lemma LogKeeps(l: Ledger, qc: Option<QuorumCert>, id: Hash)
    requires LedgerInv(l) && id in Ids(l.log)
    ensures LedgerInv(LedgerAfter(l, qc)) && id in Ids(LedgerAfter(l, qc).log)
  {
    hide BlockId;
    hide Commit;
    if qc.Some? {
      CommitInv(l, qc.value.voteInfo.parentId);
      CommitExtendsLog(l, qc.value.voteInfo.parentId);
      IdsPrefix(l.log, Commit(l, qc.value.voteInfo.parentId).log);
    }
  }

  lemma OneTakesEffect(l: Ledger, qc: Option<QuorumCert>, id: Hash)
    requires LedgerInv(l) && id in l.pending && Demands(qc, id)
    ensures LedgerInv(LedgerAfter(l, qc)) && id in Ids(LedgerAfter(l, qc).log)
  {
    hide BlockId;
    hide Commit;
    hide LedgerInv;
    CommitInv(l, id);
    CommitExact(l, id);
  }

  /** Of two committing certificates read one after the other, neither gets in the other's way. */
  lemma BothTakeEffect(execute: Execution, w: World, l: Ledger, p: Option<QuorumCert>, q: Option<QuorumCert>, id: Hash)
    requires WorldInv(execute, w) && LedgerInv(l) && VerifyCommitQC(w.keys, p) && VerifyCommitQC(w.keys, q)
    requires id in l.pending && (Demands(p, id) || Demands(q, id))
    ensures LedgerInv(LedgerAfter(LedgerAfter(l, p), q)) && id in Ids(LedgerAfter(LedgerAfter(l, p), q).log)
  {
    hide WorldInv;
    hide BlockId;
    hide VerifyQC;
    hide LedgerInv;
    hide Commit;
    hide ChainOf;
    var m := LedgerAfter(l, p);
    if Demands(p, id) {
      OneTakesEffect(l, p, id);
      LogKeeps(m, q, id);
    } else if p.Some? && Commits(p.value.ledgerCommitInfo) && p.value.voteInfo.parentId in l.pending {
      var first := p.value.voteInfo.parentId;
      CommitExact(l, first);
      CommitInv(l, first);
      CommittingIsTwoChain(w.keys, p.value);
      CommittingIsTwoChain(w.keys, q.value);
      if p.value.voteInfo.parentRound <= q.value.voteInfo.parentRound {
        CommitsOnOneChain(execute, w, p.value, q.value);
        OnPrefix(first, id);
        OneTakesEffect(m, q, id);
      } else {
        CommitsOnOneChain(execute, w, q.value, p.value);
        OnPrefix(id, first);
        LogKeeps(m, q, id);
      }
    } else {
      if p.Some? && Commits(p.value.ledgerCommitInfo) { NotPendingNoCommit(l, p.value.voteInfo.parentId); }
      OneTakesEffect(l, q, id);
    }
  }

  lemma OnPrefix(a: Hash, b: Hash)
    requires ChainOf(a) <= ChainOf(b)
    ensures OnChain(a, b)
  {
    assert ChainOf(b)[|ChainOf(a)| - 1] == a;
  }

  lemma NotPendingNoCommit(l: Ledger, id: Hash)
    requires id !in l.pending
    ensures Commit(l, id) == l
  { }

  lemma TreeQCLedger(cfg: Config, r: Replica, qc: Option<QuorumCert>)
    ensures ProcessTreeQC(r, qc).ledger == LedgerAfter(r.ledger, qc)
    ensures ProcessCertificateQC(cfg, r, qc).0.ledger == LedgerAfter(r.ledger, qc)
  {
    hide ProcessQC;
    hide Commit;
    hide UpdateLeaders;
    hide P.AdvanceQC;
  }

  lemma AbsorbLedger(cfg: Config, r: Replica, qc: Option<QuorumCert>, commitQC: Option<QuorumCert>,
                     tc: Option<TimeoutCert>)
    ensures Absorb(cfg, r, qc, commitQC, tc).ledger == LedgerAfter(LedgerAfter(r.ledger, qc), commitQC)
  {
    hide ProcessCertificateQC;
    hide LedgerAfter;
    TreeQCLedger(cfg, r, qc);
    TreeQCLedger(cfg, ProcessCertificateQC(cfg, r, qc).0, commitQC);
  }

  lemma InsertLog(r: Replica, b: Block)
    ensures Insert(r, b).replica.ledger.log == r.ledger.log
  {
    hide Reaches;
    hide LedgerModel.Missing;
  }

  lemma ProposalTakesEffect(cfg: Config, w: World, r: Replica, p: ProposalMsg, inputs: Inputs, id: Hash)
    requires Healthy(cfg, w, r) && VerifyProposal(w.keys, p) && id in r.ledger.pending
    requires Demands(p.block.qc, id) || Demands(p.highCommitQc, id)
    ensures id in Ids(HandleProposal(cfg, w.keys, r, p, inputs).replica.ledger.log)
  {
    hide ReplicaInv;
    hide WorldInv;
    hide Covers;
    hide BlockId;
    hide VerifyQC;
    hide VerifyTC;
    hide Absorb;
    hide Insert;
    hide ReplicaModel.MakeVote;
    hide LedgerAfter;
    hide LedgerInv;
    hide MayVote;
    InvHasLedger(w.keys, r);
    BothTakeEffect(cfg.execute, w, r.ledger, p.block.qc, p.highCommitQc, id);
    AbsorbLedger(cfg, r, p.block.qc, p.highCommitQc, p.lastRoundTc);
    var r1 := Absorb(cfg, r, p.block.qc, p.highCommitQc, p.lastRoundTc);
    InsertLog(r1, p.block);
    InsertDoes(r1, p.block);
    if p.block.round == r1.pacemaker.currentRound { MakeVoteDoes(cfg, w.keys, Insert(r1, p.block).replica, p,
                                                                 inputs.voteSig); }
  }

  lemma TimeoutTakesEffect(cfg: Config, w: World, r: Replica, m: TimeoutMsg, inputs: Inputs, id: Hash)
    requires Healthy(cfg, w, r) && VerifyTimeout(w.keys, m) && id in r.ledger.pending
    requires Demands(m.tmoInfo.highQc, id) || Demands(m.highCommitQc, id)
    ensures id in Ids(HandleTimeout(cfg, w.keys, r, m, inputs).replica.ledger.log)
  {
    hide ReplicaInv;
    hide WorldInv;
    hide Covers;
    hide VerifyQC;
    hide VerifyTC;
    hide TimeoutDigest;
    hide Absorb;
    hide ProcessRemoteTimeout;
    hide ProcessNewRound;
    hide P.AdvanceTC;
    hide LedgerAfter;
    hide LedgerInv;
    InvHasLedger(w.keys, r);
    BothTakeEffect(cfg.execute, w, r.ledger, m.tmoInfo.highQc, m.highCommitQc, id);
    AbsorbLedger(cfg, r, m.tmoInfo.highQc, m.highCommitQc, m.lastRoundTc);
    var r1 := Absorb(cfg, r, m.tmoInfo.highQc, m.highCommitQc, m.lastRoundTc);
    RemoteTimeoutDoes(cfg, w.keys, r1, m.tmoInfo, inputs.timeoutSig);
    var (o, tc) := ProcessRemoteTimeout(cfg, w.keys, r1, m.tmoInfo, inputs.timeoutSig);
    if tc.Some? { NewRoundDoes(cfg, AdvanceRoundTC(o.replica, tc), tc, inputs); }
  }

  lemma VoteTakesEffect(cfg: Config, w: World, r: Replica, m: VoteMsg, inputs: Inputs, qc: QuorumCert)
    requires Healthy(cfg, w, r) && VerifyVote(w.keys, m) && qc.voteInfo.parentId in r.ledger.pending
    requires Meets(cfg, r, VoteEvent(m), HandleVote(cfg, r, m, inputs), qc) && Commits(qc.ledgerCommitInfo)
    ensures qc.voteInfo.parentId in Ids(HandleVote(cfg, r, m, inputs).replica.ledger.log)
  {
    hide ReplicaInv;
    hide WorldInv;
    hide Covers;
    hide Disciplined;
    hide VerifyQC;
    hide LedgerCommitDigest;
    hide VoteInfoHash;
    hide ProcessTreeQC;
    hide ProcessVote;
    hide ProcessCertificateQC;
    hide ProcessNewRound;
    hide LedgerAfter;
    hide LedgerInv;
    var id := qc.voteInfo.parentId;
    InvHasLedger(w.keys, r);
    var r1 := ProcessTreeQC(r, m.highCommitQc);
    TreeQCLedger(cfg, r, m.highCommitQc);
    TreeQCKeepsCounters(r, m.highCommitQc);
    ProcessTreeQCInv(w.keys, r, m.highCommitQc);
    var (tree, done) := ProcessVote(cfg.self, cfg.Quorum(), r1.tree, m, inputs.authorSig);
    var r2 := r1.(tree := tree);
    if done.Some? {
      CompletedCertificate(cfg, w, r1, m, inputs.authorSig);
      CompletedInfo(cfg, w.keys, r, m, inputs.authorSig);
      TreeVoteKeeps(cfg, w.keys, r1, m, inputs.authorSig);
      var s := Aggregated(done.value.signatures);
      var w1 := RecordAll(w, cfg.self, [s]);
      MembersAreValid(cfg, w);
      OtherIsSafe(r2.counters, s, w.logs[cfg.self]);
      Signs(cfg, w, r2, r2, s);
      if m.highCommitQc.Some? { VerifyQCGrows(w.keys, w1.keys, m.highCommitQc.value); }
      BothTakeEffect(cfg.execute, w1, r.ledger, m.highCommitQc, done, id);
      TreeQCLedger(cfg, r2, done);
      NewRoundDoes(cfg, ProcessCertificateQC(cfg, r2, done).0, None, inputs);
    } else {
      OneTakesEffect(r.ledger, m.highCommitQc, id);
    }
  }

  /** A committing certificate that a step meets commits the parent it names, and with it the parent's
      whole chain, if the ledger has that chain. */
  lemma StepCommits(cfg: Config, w: World, r: Replica, e: Event, inputs: Inputs, qc: QuorumCert)
    requires Healthy(cfg, w, r) && VerifiedEvent(w.keys, e) && qc.voteInfo.parentId in r.ledger.pending
    requires Meets(cfg, r, e, Step(cfg, w.keys, r, e, inputs), qc) && Commits(qc.ledgerCommitInfo)
    ensures qc.voteInfo.parentId in Ids(Step(cfg, w.keys, r, e, inputs).replica.ledger.log)
  {
    hide Healthy;
    hide VerifyVote;
    hide VerifyProposal;
    hide VerifyTimeout;
    hide HandleProposal;
    hide HandleVote;
    hide HandleTimeout;
    hide LocalTimeoutRound;
    match e
    case ProposalEvent(p) => ProposalTakesEffect(cfg, w, r, p, inputs, qc.voteInfo.parentId);
    case VoteEvent(m) => VoteTakesEffect(cfg, w, r, m, inputs, qc);
    case TimeoutEvent(m) => TimeoutTakesEffect(cfg, w, r, m, inputs, qc.voteInfo.parentId);
    case _ =>
  }

  /** In every run, a committing certificate met by a replica whose pending blocks include the parent it
      names has that parent, and its whole chain from genesis, in the replica's history ever after. */
  lemma CommitsTakeEffect(net: Network, states: seq<SystemState>, actions: seq<Action>, i: nat, j: nat, r: Id,
                          qc: QuorumCert)
    requires ValidNetwork(net) && IsRun(net, states, actions) && i < |actions| && i < j < |states|
    requires MetAt(net, states, actions, i, r, qc) && Commits(qc.ledgerCommitInfo)
    requires qc.voteInfo.parentId in states[i].replicas[r].ledger.pending
    ensures r in states[j].replicas && ChainOf(qc.voteInfo.parentId) <= Ids(states[j].replicas[r].ledger.log)
  {
    hide ReplicaInv;
    hide WorldInv;
    hide Covers;
    hide VerifiedEvent;
    hide Step;
    hide Start;
    hide Meets;
    hide ChainOf;
    var s, a := states[i], actions[i];
    RunInv(net, states, actions, i);
    assert Member(net.configs[r], s.world);
    StepCommits(net.configs[r], s.world, s.replicas[r], a.event, a.inputs, qc);
    assert states[i + 1] == Next(net, s, a);
    LogsOnlyGrow(net, states, actions, i + 1, j, r);
    IdsPrefix(states[i + 1].replicas[r].ledger.log, states[j].replicas[r].ledger.log);
    ChainInLog(net, states, actions, j, r, qc.voteInfo.parentId);
  }

  lemma ChainInLog(net: Network, states: seq<SystemState>, actions: seq<Action>, j: nat, r: Id, id: Hash)
    requires ValidNetwork(net) && IsRun(net, states, actions) && j < |states| && r in states[j].replicas
    requires id in Ids(states[j].replicas[r].ledger.log)
    ensures ChainOf(id) <= Ids(states[j].replicas[r].ledger.log)
  {
    hide ChainOf;
    hide Next;
    LedgersInRuns(net, states, actions, j, r);
    var log := states[j].replicas[r].ledger.log;
    LogIsChain(log);
    ChainPrefix(id, log[|log| - 1].id);
  }
}
