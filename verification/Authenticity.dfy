// Who said what, over runs. Every statement of a correct replica was signed by one of its own steps and
// went out in a message, so nobody can propose, vote, time out or assemble a certificate in its name.
module Authenticity {
  import opened Wire
  import opened Hashing
  import opened Verification
  import opened Chains
  import opened SafetyRules
  import opened Agreement
  import opened TreeModel
  import opened ReplicaModel
  import opened ReplicaInvariant
  import opened System
  import opened Storage
  import opened Duties

  // ---------------------------------------------------------------------- where it was said

  /** What is in a replica's log was signed by one of its own actions before. */
  lemma {:induction false} SignedBefore(net: Network, states: seq<SystemState>, actions: seq<Action>, i: nat, r: Id,
                                        s: Statement) returns (j: nat)
    requires IsRun(net, states, actions) && i < |states| && r in states[i].world.logs && s in states[i].world.logs[r]
    ensures j < i && actions[j].who == r && s in OutcomeOf(net, states[j], actions[j]).signed
  {
    hide OutcomeOf;
    hide VerifiedEvent;
    var before, a := states[i - 1], actions[i - 1];
    assert Enabled(net, before, a) && states[i] == Next(net, before, a);
    if s in before.world.logs[r] { j := SignedBefore(net, states, actions, i - 1, r, s); } else { j := i - 1; }
  }

  /** What the digest behind a verified signature of a correct replica is the digest of. */
  lemma SignedIsSaid(net: Network, s: SystemState, signer: Id, digest: Hash, sig: Signature) returns (st: Statement)
    requires SystemInv(net, s) && s.world.keys.Verifies(digest, sig) && sig.signer == signer && signer !in net.faulty
    ensures signer in s.world.logs && st in s.world.logs[signer] && StatementDigest(st) == digest
    ensures Justified(net.execute, s.world.keys, st)
  {
    hide StatementDigest;
    hide Justified;
    hide ReplicaInv;
    hide Covers;
    hide Disciplined;
    assert Accounted(s.world, (signer, digest).0, (signer, digest).1);
    var n :| 0 <= n < |s.world.logs[signer]| && StatementDigest(s.world.logs[signer][n]) == digest;
    st := s.world.logs[signer][n];
  }

  // ------------------------------------------------------------------------- what went out

  lemma ProposalWentOut(net: Network, s: SystemState, a: Action, b: Block) returns (p: ProposalMsg)
    requires ValidNetwork(net) && Enabled(net, s, a) && Proposed(b) in OutcomeOf(net, s, a).signed
    ensures Proposal(p) in OutcomeOf(net, s, a).sent && p.block == b && p.sender == b.author == a.who
  {
    hide Step;
    hide Start;
    hide VerifiedEvent;
    var o := OutcomeOf(net, s, a);
    match a
    case StartUp(r, inputs) =>
      StartDutiful(net.configs[r], inputs);
      p :| o.signed == [Proposed(p.block)] && o.sent == [Proposal(p)] && ProposalBy(net.configs[r], o.replica, p);
    case Handle(r, e, inputs) =>
      StepDutiful(net.configs[r], s.world.keys, s.replicas[r], e, inputs);
      assert Shown(net.configs[r], e, o, Proposed(b));
      p :| Proposal(p) in o.sent && p.block == b && ProposalBy(net.configs[r], o.replica, p);
  }

  lemma VoteWentOut(net: Network, s: SystemState, a: Action, st: Statement) returns (v: VoteMsg, to: Id)
    requires ValidNetwork(net) && Enabled(net, s, a) && st in OutcomeOf(net, s, a).signed && st.Voted?
    ensures a.Handle? && a.event.ProposalEvent? && a.event.proposal.block == st.block
    ensures Vote(v, to) in OutcomeOf(net, s, a).sent && st.ballot == Ballot(v.voteInfo, v.ledgerCommitInfo)
            && v.sender == a.who
    ensures var cfg, r' := net.configs[a.who], OutcomeOf(net, s, a).replica;
            && Authorised(cfg, r', a.event.proposal)
            && to == LeaderOf(cfg, r', Succ(v.voteInfo.round)) && v.voteInfo.round == st.block.round
  {
    hide Step;
    hide Start;
    hide VerifiedEvent;
    hide LeaderOf;
    var o := OutcomeOf(net, s, a);
    match a
    case StartUp(r, inputs) => StartDutiful(net.configs[r], inputs);
    case Handle(r, e, inputs) =>
      StepDutiful(net.configs[r], s.world.keys, s.replicas[r], e, inputs);
      assert Shown(net.configs[r], e, o, st);
      v, to :| Vote(v, to) in o.sent && VoteFor(net.configs[r], o.replica, e.proposal, st, v, to);
  }

  lemma TimeoutWentOut(net: Network, s: SystemState, a: Action, st: Statement) returns (t: TimeoutMsg)
    requires ValidNetwork(net) && Enabled(net, s, a) && st in OutcomeOf(net, s, a).signed && st.TimedOut?
    ensures Timeout(t) in OutcomeOf(net, s, a).sent && t.tmoInfo.round == st.round
            && t.tmoInfo.highQc == Some(st.highQC)
    ensures t.tmoInfo.sender == a.who
  {
    hide Step;
    hide Start;
    hide VerifiedEvent;
    var o := OutcomeOf(net, s, a);
    match a
    case StartUp(r, inputs) => StartDutiful(net.configs[r], inputs);
    case Handle(r, e, inputs) =>
      StepDutiful(net.configs[r], s.world.keys, s.replicas[r], e, inputs);
      assert Shown(net.configs[r], e, o, st);
      t :| Timeout(t) in o.sent && TimeoutBy(net.configs[r], o.replica, t) && t.tmoInfo.round == st.round
           && t.tmoInfo.highQc == Some(st.highQC);
  }

  // ---------------------------------------------------------------------------- over a run

  /** In every run a proposal that a correct replica handles in a correct replica's name was proposed by
      that replica: an earlier action of its own sent a proposal of the very same block. */
  lemma ProposalsAreAuthentic(net: Network, states: seq<SystemState>, actions: seq<Action>, i: nat)
    returns (j: nat, p: ProposalMsg)
    requires ValidNetwork(net) && IsRun(net, states, actions) && i < |actions|
    requires actions[i].Handle? && actions[i].event.ProposalEvent? && actions[i].event.proposal.sender !in net.faulty
    ensures j < i && actions[j].who == actions[i].event.proposal.sender
    ensures Proposal(p) in OutcomeOf(net, states[j], actions[j]).sent
    ensures var q := actions[i].event.proposal;
            && p.sender == p.block.author == q.sender && p.block.id == q.block.id
            && p.block.author == q.block.author && p.block.round == q.block.round && p.block.payload == q.block.payload
  {
    hide OutcomeOf;
    hide Next;
    hide SystemInv;
    hide VerifyQC;
    hide VerifyTC;
    hide BlockId;
    var q := actions[i].event.proposal;
    RunInv(net, states, actions, i);
    var st := SignedIsSaid(net, states[i], q.sender, q.block.id, q.sig);
    OnlyProposals(net.execute, states[i].world.keys, st, q.block);
    j := SignedBefore(net, states, actions, i, q.sender, st);
    p := ProposalWentOut(net, states[j], actions[j], st.block);
    BlockIdInjective(p.block, q.block);
  }

  lemma OnlyProposals(execute: Execution, k: Keyring, st: Statement, b: Block)
    requires Justified(execute, k, st) && StatementDigest(st) == b.id && ValidBlockId(b)
    ensures st.Proposed? && st.block.id == b.id && ValidBlockId(st.block)
  {
    DigestDomain(execute, k, st);
    assert InDomain(b.id, DOMAIN_BLOCK);
  }

  /** In every run a vote handled in a correct replica's name was cast by that replica, exactly so. */
  lemma VotesAreAuthentic(net: Network, states: seq<SystemState>, actions: seq<Action>, i: nat)
    returns (j: nat, v: VoteMsg, to: Id)
    requires ValidNetwork(net) && IsRun(net, states, actions) && i < |actions|
    requires actions[i].Handle? && actions[i].event.VoteEvent? && actions[i].event.vote.sender !in net.faulty
    ensures j < i && actions[j].who == actions[i].event.vote.sender
    ensures Vote(v, to) in OutcomeOf(net, states[j], actions[j]).sent
    ensures var m := actions[i].event.vote;
            v.sender == m.sender && v.voteInfo == m.voteInfo && v.ledgerCommitInfo == m.ledgerCommitInfo
  {
    hide OutcomeOf;
    hide Next;
    hide SystemInv;
    hide VerifyQC;
    hide VoteInfoHash;
    hide LedgerCommitDigest;
    var m := actions[i].event.vote;
    RunInv(net, states, actions, i);
    var st := SignedIsSaid(net, states[i], m.sender, LedgerCommitDigest(m.ledgerCommitInfo), m.sig);
    VoteDigest(net.execute, states[i].world.keys, st, m.voteInfo, m.ledgerCommitInfo);
    j := SignedBefore(net, states, actions, i, m.sender, st);
    v, to := VoteWentOut(net, states[j], actions[j], st);
  }

  /** In every run a timeout handled in a correct replica's name was sent by that replica, for that round
      and with a certificate of that round. */
  lemma TimeoutsAreAuthentic(net: Network, states: seq<SystemState>, actions: seq<Action>, i: nat)
    returns (j: nat, t: TimeoutMsg)
    requires ValidNetwork(net) && IsRun(net, states, actions) && i < |actions|
    requires actions[i].Handle? && actions[i].event.TimeoutEvent?
    requires actions[i].event.timeout.tmoInfo.sender !in net.faulty
    ensures j < i && actions[j].who == actions[i].event.timeout.tmoInfo.sender
    ensures Timeout(t) in OutcomeOf(net, states[j], actions[j]).sent
    ensures var m := actions[i].event.timeout.tmoInfo;
            t.tmoInfo.sender == m.sender && t.tmoInfo.round == m.round && QCRound(t.tmoInfo.highQc) == QCRound(m.highQc)
  {
    hide OutcomeOf;
    hide Next;
    hide SystemInv;
    hide VerifyQC;
    hide VerifyTC;
    hide TimeoutDigest;
    var m := actions[i].event.timeout.tmoInfo;
    RunInv(net, states, actions, i);
    var st := SignedIsSaid(net, states[i], m.sender, TimeoutDigest(m.round, QCRound(m.highQc)), m.sig);
    TimeoutStatement(net.execute, states[i].world.keys, st, m.round, QCRound(m.highQc));
    j := SignedBefore(net, states, actions, i, m.sender, st);
    t := TimeoutWentOut(net, states[j], actions[j], st);
  }

  // ------------------------------------------------------------------- certificate authors

  lemma AggregatesShortLists(cfg: Config, w: World, r: Replica, m: VoteMsg, inputs: Inputs, sigs: seq<Signature>)
    requires Healthy(cfg, w, r) && VerifyVote(w.keys, m) && Aggregated(sigs) in HandleVote(cfg, r, m, inputs).signed
    ensures |sigs| <= MAX_U64
  {
    hide ReplicaInv;
    hide WorldInv;
    hide Covers;
    hide VerifyQC;
    hide ProcessVote;
    hide ProcessNewRound;
    hide ProcessTreeQC;
    hide ProcessCertificateQC;
    hide VoteInfoHash;
    hide LedgerCommitDigest;
    ProcessTreeQCInv(w.keys, r, m.highCommitQc);
    var r1 := ProcessTreeQC(r, m.highCommitQc);
    TreeQCKeepsCounters(r, m.highCommitQc);
    var (tree, qc) := ProcessVote(cfg.self, cfg.Quorum(), r1.tree, m, inputs.authorSig);
    if qc.Some? {
      CompletedCertificate(cfg, w, r1, m, inputs.authorSig);
      VerifiedIsShort(RecordAll(w, cfg.self, [Aggregated(qc.value.signatures)]).keys, qc.value);
      NewRoundDoes(cfg, ProcessCertificateQC(cfg, r1.(tree := tree), qc).0, None, inputs);
    }
  }

  lemma AggregatedIsShort(net: Network, s: SystemState, a: Action, sigs: seq<Signature>)
    requires ValidNetwork(net) && SystemInv(net, s) && Enabled(net, s, a)
    requires Aggregated(sigs) in OutcomeOf(net, s, a).signed
    ensures |sigs| <= MAX_U64 && a.Handle? && a.event.VoteEvent?
  {
    hide ReplicaInv;
    hide WorldInv;
    hide Covers;
    hide VerifyVote;
    hide VerifyProposal;
    hide VerifyTimeout;
    hide Start;
    hide HandleVote;
    hide HandleProposal;
    hide HandleTimeout;
    hide LocalTimeoutRound;
    assert Member(net.configs[a.who], s.world);
    match a
    case StartUp(r, inputs) => StartDutiful(net.configs[r], inputs);
    case Handle(r, e, inputs) =>
      StepDutiful(net.configs[r], s.world.keys, s.replicas[r], e, inputs);
      assert Shown(net.configs[r], e, OutcomeOf(net, s, a), Aggregated(sigs));
      AggregatesShortLists(net.configs[r], s.world, s.replicas[r], e.vote, inputs, sigs);
  }

  /** In every run a certificate that names a correct author was assembled by that replica: an earlier
      action of its own, on a vote, signed exactly this set of signatures. */
  lemma CertificateAuthorsAreAuthentic(net: Network, states: seq<SystemState>, actions: seq<Action>, i: nat,
                                       qc: QuorumCert)
    returns (j: nat)
    requires ValidNetwork(net) && IsRun(net, states, actions) && i < |states|
    requires VerifyQC(states[i].world.keys, qc) && qc.voteInfo.round > 0 && qc.author !in net.faulty
    ensures j < i && actions[j].who == qc.author && actions[j].Handle? && actions[j].event.VoteEvent?
    ensures Aggregated(qc.signatures) in OutcomeOf(net, states[j], actions[j]).signed
  {
    hide OutcomeOf;
    hide Next;
    hide SystemInv;
    hide VoteInfoHash;
    hide LedgerCommitDigest;
    hide QcSigsDigest;
    RunInv(net, states, actions, i);
    var st := SignedIsSaid(net, states[i], qc.author, QcSigsDigest(qc.signatures), qc.authorSig.value);
    OnlyAggregates(net.execute, states[i].world.keys, st, qc.signatures);
    j := SignedBefore(net, states, actions, i, qc.author, st);
    RunInv(net, states, actions, j);
    AggregatedIsShort(net, states[j], actions[j], st.sigs);
    VerifiedIsShort(states[i].world.keys, qc);
    QcSigsDigestInjective(st.sigs, qc.signatures);
  }

  lemma OnlyAggregates(execute: Execution, k: Keyring, st: Statement, sigs: seq<Signature>)
    requires Justified(execute, k, st) && StatementDigest(st) == QcSigsDigest(sigs)
    ensures st.Aggregated? && QcSigsDigest(st.sigs) == QcSigsDigest(sigs)
  {
    DigestDomain(execute, k, st);
    assert InDomain(QcSigsDigest(sigs), DOMAIN_QC_SIGS);
  }
}
