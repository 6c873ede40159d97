// diem/core.go: the modules wired together and the event handlers that drive them. Every handler
// does exactly what its counterpart in the replica model does: the same new state, the same
// messages, the same signatures, in the same order.
module CoreImpl {
  import opened Wire
  import opened Hashing
  import opened Quorums
  import opened Verification
  import opened LedgerModel
  import opened SafetyRules
  import opened TreeModel
  import opened Election
  import opened Walks
  import opened Duties
  import opened Seams
  import opened ReplicaModel
  import opened LedgerImpl
  import opened TreeImpl
  import opened SafetyImpl
  import opened PacemakerImpl
  import opened LeaderImpl
  import P = PacemakerModel
  import Sorting

  const DEFAULT_WINDOW_SIZE: nat := 10

  /** What the edge guarantees of an event the core is handed. */
  predicate BlockChecked(e: Event) {
    match e
    case ProposalEvent(p) => ValidBlockId(p.block)
    case BlockEvent(b) => ValidBlockId(b)
    case _ => true
  }

  class Core {
    const id: Id
    const crypto: Crypto
    const net: Transport
    const ledger: MemLedger
    const tree: BlockTree
    const safety: Safety
    const pacemaker: Pacemaker
    const leaders: LeaderElection

    /** Every module stands on the same ones. */
    ghost predicate Wired() {
      && tree.id == id && tree.ledger == ledger && tree.crypto == crypto
      && safety.id == id && safety.crypto == crypto && safety.ledger == ledger && safety.tree == tree
      && pacemaker.net == net && pacemaker.safety == safety && pacemaker.tree == tree
      && leaders.ledger == ledger && leaders.pacemaker == pacemaker
      && |leaders.validators| > 0
      && tree.quorum == pacemaker.quorum == QuorumSize(|leaders.validators|)
      && pacemaker.faulty == Quorums.Faulty(|leaders.validators|)
    }

    ghost predicate Valid()
      reads tree, ledger
    {
      Wired() && tree.Valid()
    }

    ghost function View(): Replica
      reads tree, ledger, safety, pacemaker, leaders
      requires |ledger.log| > 0
    {
      Replica(ledger.View(), tree.View(), safety.View(), pacemaker.View(), leaders.reputationLeaders)
    }

    ghost function Cfg(): Config
      requires |leaders.validators| > 0
    {
      ConfigData(id, leaders.validators, ledger.execute, ledger.history, (qc, kept) =>
        Elect(leaders.windowSize, leaders.excludeSize, leaders.spread, kept, qc))
    }

    /** Wire a replica over an empty ledger. A zero window or exclusion takes its default. */
    constructor (id: Id, validators: seq<Id>, windowSize: nat, excludeSize: nat, spread: Round -> Round,
                 crypto: Crypto, net: Transport, ledger: MemLedger)
      requires |validators| > 0 && ledger.Valid() && ledger.View() == NEW_LEDGER
      requires (if windowSize == 0 then DEFAULT_WINDOW_SIZE else windowSize)
               + (if excludeSize == 0 then MaxNat(Quorums.Faulty(|validators|), 1) else excludeSize) <= ledger.history
      ensures Valid() && View() == NEW_REPLICA
      ensures Cfg().self == id && Cfg().validators == Sorting.SortBy(IdKey, validators)
      ensures this.crypto == crypto && this.net == net && this.ledger == ledger
      ensures leaders.windowSize == (if windowSize == 0 then 10 else windowSize)
      ensures leaders.excludeSize == if excludeSize > 0 then excludeSize
                                     else if |validators| < 7 then 1 else (|validators| - 1) / 3
    {
      hide LedgerInv;
      hide MemLedger.Valid;
      hide Sorting.SortBy;
      hide Elect;
      var quorum, faulty := QuorumSize(|validators|), Quorums.Faulty(|validators|);
      var window := if windowSize == 0 then DEFAULT_WINDOW_SIZE else windowSize;
      var exclude := if excludeSize == 0 then MaxNat(faulty, 1) else excludeSize;
      var blockTree := new BlockTree(id, quorum, ledger, crypto);
      var rules := new Safety(id, crypto, ledger, blockTree);
      var pace := new Pacemaker(quorum, faulty, net, rules, blockTree);
      var election := new LeaderElection(validators, window, exclude, ledger, pace, spread);
      SortKeepsLength(validators);
      this.id := id;
      this.crypto := crypto;
      this.net := net;
      this.ledger := ledger;
      this.tree := blockTree;
      this.safety := rules;
      this.pacemaker := pace;
      this.leaders := election;
    }

    /** Disarm the round timer. */
    method Stop()
      requires Valid()
      modifies pacemaker
      ensures Valid() && View() == old(View()).(pacemaker := P.Stop(old(View()).pacemaker))
    {
      pacemaker.Stop();
    }

    // --------------------------------------------------------------------- certificates

    /** New state and result are the model's: the election sees the ledger after the commit and the
        pacemaker before it advances. */
    method ProcessCertificateQC(qc: Option<QuorumCert>) returns (moved: bool)
      requires Valid() && CertificateWalkEnds(Cfg(), leaders.windowSize, leaders.excludeSize, View(), qc)
      modifies tree, ledger, leaders, pacemaker
      ensures Valid()
      ensures (View(), moved) == ReplicaModel.ProcessCertificateQC(Cfg(), old(View()), qc)
    {
      hide MemLedger.Valid;
      hide LedgerInv;
      hide Commit;
      hide ProcessQC;
      hide BlockId;
      hide Elect;
      hide Ends;
      hide P.AdvanceQC;
      hide ReplicaModel.UpdateLeaders;
      hide Retained;
      if qc.None? {
        return false;
      }
      tree.ProcessQC(qc);
      ghost var r1 := View();
      assert r1 == ProcessTreeQC(old(View()), qc);
      leaders.UpdateLeaders(qc.value, Cfg(), r1);
      ghost var r2 := View();
      assert r2 == r1.(leaders := ReplicaModel.UpdateLeaders(Cfg(), r1, qc.value));
      moved := pacemaker.AdvanceRoundQC(qc.value);
    }

    /** The certificates a proposal or a timeout carries. */
    method Absorb(qc: Option<QuorumCert>, commitQC: Option<QuorumCert>, tc: Option<TimeoutCert>)
      requires Valid() && AbsorbWalksEnd(Cfg(), leaders.windowSize, leaders.excludeSize, View(), qc, commitQC)
      modifies tree, ledger, leaders, pacemaker
      ensures Valid()
      ensures View() == ReplicaModel.Absorb(Cfg(), old(View()), qc, commitQC, tc)
    {
      hide MemLedger.Valid;
      hide ReplicaModel.ProcessCertificateQC;
      hide P.AdvanceTC;
      hide CertificateWalkEnds;
      var _ := ProcessCertificateQC(qc);
      ghost var r1 := View();
      var _ := ProcessCertificateQC(commitQC);
      ghost var r2 := View();
      assert r2 == ReplicaModel.ProcessCertificateQC(Cfg(), r1, commitQC).0;
      var _ := pacemaker.AdvanceRoundTC(tc);
    }

    // ------------------------------------------------------------------------- handlers

    /** Ledger, tree and the request, if one is due, are the model's. */
    method Insert(b: Block)
      requires Valid() && ValidBlockId(b)
      modifies tree, ledger, net
      ensures Valid()
      ensures var o := ReplicaModel.Insert(old(View()), b);
              View() == o.replica && net.sent == old(net.sent) + o.sent
    {
      hide MemLedger.Valid;
      hide LedgerModel.Speculate;
      hide LedgerModel.Missing;
      hide BlockId;
      tree.ExecuteAndInsert(b);
      var missing := ledger.Missing(b.id);
      if missing.Some? {
        net.Send(RequestBlock(missing.value));
      }
    }

    /** Exactly one reply, and nothing else changes. */
    method ServeBlock(request: Hash)
      requires Valid()
      modifies net
      ensures net.sent == old(net.sent) + [ReplyBlock(ReplicaModel.ServeBlock(Cfg(), View(), request))]
    {
      hide MemLedger.Valid;
      if request in tree.pending {
        net.Send(ReplyBlock(Some(tree.pending[request])));
        return;
      }
      var b := ledger.CommittedBlock(request);
      net.Send(ReplyBlock(b));
    }

    /** Leaves the state alone; at most one message and the one signature it carries. */
    method ProcessNewRoundEvent(lastTC: Option<TimeoutCert>, inputs: Inputs)
      requires Valid()
      modifies net, crypto
      ensures var o := ReplicaModel.ProcessNewRound(Cfg(), View(), lastTC, inputs);
              && View() == o.replica
              && net.sent == old(net.sent) + o.sent && crypto.signed == old(crypto.signed) + o.signed
    {
      hide MemLedger.Valid;
      hide BlockPreimage;
      var round := pacemaker.currentRound;
      var leader := leaders.GetLeader(round);
      if leader != id {
        return;
      }
      var b := tree.GenerateBlock(inputs.txns, round);
      var sig := crypto.Sign(b.id, Proposed(b), inputs.proposalSig);
      if sig.None? {
        return;
      }
      net.Send(Proposal(ProposalMsg(b, JustifyingTC(QCRound(b.qc), round, lastTC), Some(tree.highCommitQC), id,
                                    Signature(id, sig.value))));
    }

    method ProcessProposalMsg(keys: Keyring, p: ProposalMsg, inputs: Inputs)
      requires Valid() && ValidBlockId(p.block)
      requires StepWalksEnd(Cfg(), leaders.windowSize, leaders.excludeSize, View(), ProposalEvent(p), inputs)
      modifies tree, ledger, leaders, pacemaker, safety, crypto, net
      ensures Valid()
      ensures var o := HandleProposal(Cfg(), keys, old(View()), p, inputs);
              && View() == o.replica
              && net.sent == old(net.sent) + o.sent && crypto.signed == old(crypto.signed) + o.signed
      ensures !Authorised(Cfg(), View(), p) ==> net.sent == old(net.sent) && crypto.signed == old(crypto.signed)
      ensures forall n :: |old(net.sent)| <= n < |net.sent| && net.sent[n].Vote? ==>
                && net.sent[n].vote.voteInfo.id == p.block.id
                && net.sent[n].to == LeaderOf(Cfg(), View(), Succ(p.block.round))
    {
      hide MemLedger.Valid;
      hide AbsorbWalksEnd;
      hide BlockId;
      hide ReplicaModel.Absorb;
      hide ReplicaModel.Insert;
      hide ReplicaModel.MakeVote;
      hide LedgerInv;
      hide LeaderOf;
      ProposalSends(Cfg(), keys, View(), p, inputs);
      Absorb(p.block.qc, p.highCommitQc, p.lastRoundTc);
      ghost var r1 := View();
      var round := pacemaker.currentRound;
      var leader := leaders.GetLeader(round);
      if p.block.round != round || p.sender != leader || p.block.author != leader {
        return;
      }
      Insert(p.block);
      InsertKeepsRest(r1, p.block);
      CastVote(keys, p.block, p.lastRoundTc, inputs);
    }

    /** The voting half of the proposal handler: at most one message, with a single addressee. */
    method CastVote(keys: Keyring, b: Block, tc: Option<TimeoutCert>, inputs: Inputs)
      requires Valid()
      modifies safety, crypto, net
      ensures Valid()
      ensures var o := ReplicaModel.MakeVote(Cfg(), keys, old(View()), b, tc, inputs.voteSig);
              && View() == o.replica
              && net.sent == old(net.sent) + o.sent && crypto.signed == old(crypto.signed) + o.signed
    {
      hide MemLedger.Valid;
      hide BallotFor;
      var vote := safety.MakeVote(keys, b, tc, inputs.voteSig);
      if vote.None? {
        return;
      }
      var next := leaders.GetLeader(Succ(pacemaker.currentRound));
      net.Send(Vote(vote.value, next));
    }

    method ProcessTimeoutMsg(keys: Keyring, m: TimeoutMsg, inputs: Inputs)
      requires Valid() && StepWalksEnd(Cfg(), leaders.windowSize, leaders.excludeSize, View(), TimeoutEvent(m), inputs)
      modifies tree, ledger, leaders, pacemaker, safety, crypto, net
      ensures Valid()
      ensures var o := HandleTimeout(Cfg(), keys, old(View()), m, inputs);
              && View() == o.replica
              && net.sent == old(net.sent) + o.sent && crypto.signed == old(crypto.signed) + o.signed
    {
      hide MemLedger.Valid;
      hide AbsorbWalksEnd;
      hide ReplicaModel.Absorb;
      hide ReplicaModel.ProcessRemoteTimeout;
      hide ReplicaModel.ProcessNewRound;
      hide P.AdvanceTC;
      Absorb(m.tmoInfo.highQc, m.highCommitQc, m.lastRoundTc);
      ghost var r1 := View();
      var tc := pacemaker.ProcessRemoteTimeout(keys, m, inputs.timeoutSig, Cfg(), r1);
      ghost var o := ReplicaModel.ProcessRemoteTimeout(Cfg(), keys, r1, m.tmoInfo, inputs.timeoutSig).0;
      assert View() == o.replica;
      if tc.None? {
        return;
      }
      var _ := pacemaker.AdvanceRoundTC(tc);
      assert View() == ReplicaModel.AdvanceRoundTC(o.replica, tc);
      ProcessNewRoundEvent(tc, inputs);
    }

    method ProcessVoteMsg(m: VoteMsg, inputs: Inputs)
      requires Valid() && StepWalksEnd(Cfg(), leaders.windowSize, leaders.excludeSize, View(), VoteEvent(m), inputs)
      modifies tree, ledger, leaders, pacemaker, crypto, net
      ensures Valid()
      ensures var o := HandleVote(Cfg(), old(View()), m, inputs);
              && View() == o.replica
              && net.sent == old(net.sent) + o.sent && crypto.signed == old(crypto.signed) + o.signed
    {
      hide MemLedger.Valid;
      hide CertificateWalkEnds;
      hide ReplicaModel.ProcessCertificateQC;
      hide ReplicaModel.ProcessNewRound;
      hide Commit;
      hide ProcessQC;
      hide TreeModel.ProcessVote;
      hide Elect;
      var round, current := m.voteInfo.round, pacemaker.currentRound;
      if round > AddLead(current) || Succ(round) < current {
        return;
      }
      ghost var r1 := ProcessTreeQC(View(), m.highCommitQc);
      var qc := tree.ProcessVote(m, inputs.authorSig);
      ghost var r2 := View();
      assert r2 == r1.(tree := TreeModel.ProcessVote(id, tree.quorum, r1.tree, m, inputs.authorSig).0);
      if qc.None? {
        return;
      }
      var moved := ProcessCertificateQC(qc);
      if !moved {
        return;
      }
      ProcessNewRoundEvent(None, inputs);
    }

    // ---------------------------------------------------------------------------- events

    /** The whole protocol surface. */
    method Step(keys: Keyring, e: Event, inputs: Inputs)
      requires Valid() && BlockChecked(e)
      requires StepWalksEnd(Cfg(), leaders.windowSize, leaders.excludeSize, View(), e, inputs)
      modifies tree, ledger, leaders, pacemaker, safety, crypto, net
      ensures Valid()
      ensures var o := ReplicaModel.Step(Cfg(), keys, old(View()), e, inputs);
              && View() == o.replica
              && net.sent == old(net.sent) + o.sent && crypto.signed == old(crypto.signed) + o.signed
    {
      hide MemLedger.Valid;
      hide StepWalksEnd;
      hide HandleProposal;
      hide HandleVote;
      hide HandleTimeout;
      hide ReplicaModel.LocalTimeoutRound;
      hide ReplicaModel.ServeBlock;
      match e
      case ProposalEvent(p) => ProcessProposalMsg(keys, p, inputs);
      case VoteEvent(m) => ProcessVoteMsg(m, inputs);
      case TimeoutEvent(m) => ProcessTimeoutMsg(keys, m, inputs);
      case LocalTimeoutEvent(epoch) =>
        if epoch == pacemaker.epoch {
          pacemaker.LocalTimeoutRound(keys, inputs.timeoutSig, Cfg(), View());
        }
      case BlockEvent(b) => Insert(b);
      case BlockRequestEvent(request) => ServeBlock(request);
    }

    /** From a new replica, the model's first state, message and signature. */
    method Start(inputs: Inputs)
      requires Valid() && View() == NEW_REPLICA
      modifies pacemaker, crypto, net
      ensures Valid()
      ensures var o := ReplicaModel.Start(Cfg(), inputs);
              && View() == o.replica
              && net.sent == old(net.sent) + o.sent && crypto.signed == old(crypto.signed) + o.signed
    {
      hide MemLedger.Valid;
      hide ReplicaModel.ProcessNewRound;
      var _ := pacemaker.AdvanceRoundQC(GENESIS_QC);
      ProcessNewRoundEvent(None, inputs);
    }
  }

  function MaxNat(a: nat, b: nat): nat { if a > b then a else b }

  lemma SortKeepsLength(ids: seq<Id>)
    ensures |Sorting.SortBy(IdKey, ids)| == |ids|
  {
    Sorting.SortPermutes(IdKey, ids);
    assert |multiset(Sorting.SortBy(IdKey, ids))| == |Sorting.SortBy(IdKey, ids)| && |multiset(ids)| == |ids|;
  }

  /** What a proposal makes a replica send: nothing unless it is authorised, and votes to one place. */
  lemma ProposalSends(cfg: Config, k: Keyring, r: Replica, p: ProposalMsg, inputs: Inputs)
    ensures var o := HandleProposal(cfg, k, r, p, inputs);
            && (!Authorised(cfg, o.replica, p) ==> o.sent == [] && o.signed == [])
            && (forall m :: m in o.sent && m.Vote? ==>
                  m.vote.voteInfo.id == p.block.id && m.to == LeaderOf(cfg, o.replica, Succ(p.block.round)))
  {
    hide HandleProposal;
    hide LeaderOf;
    ProposalVotes(cfg, k, r, p, inputs);
  }

  lemma InsertKeepsRest(r: Replica, b: Block)
    ensures var o := ReplicaModel.Insert(r, b);
            o.replica.leaders == r.leaders && o.replica.pacemaker == r.pacemaker && o.signed == []
  { }
}
