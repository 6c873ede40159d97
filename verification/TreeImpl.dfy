// diem/blocktree.go: the block tree, its maps updated in place.
module TreeImpl {
  import opened Wire
  import opened Hashing
  import opened HashWriter
  import opened Chains
  import opened TreeModel
  import opened LedgerImpl
  import LedgerModel
  import opened SafetyRules
  import opened Seams

  class BlockTree {
    const id: Id
    const quorum: nat
    const ledger: MemLedger
    const crypto: Crypto

    var pending: map<Hash, Block>
    var votes: map<Hash, VoteBucket>
    var voters: set<(Round, Id)>
    var highQC: QuorumCert
    var highCommitQC: QuorumCert

    function View(): Tree
      reads this
    {
      Tree(pending, votes, voters, highQC, highCommitQC)
    }

    ghost predicate Valid()
      reads this, ledger
    {
      Filed(pending) && ledger.Valid()
    }

    constructor (id: Id, quorum: nat, ledger: MemLedger, crypto: Crypto)
      requires ledger.Valid()
      ensures Valid() && View() == NEW_TREE
      ensures this.id == id && this.quorum == quorum && this.ledger == ledger && this.crypto == crypto
    {
      this.id := id;
      this.quorum := quorum;
      this.ledger := ledger;
      this.crypto := crypto;
      pending := map[];
      votes := map[];
      voters := {};
      highQC := GENESIS_QC;
      highCommitQC := GENESIS_QC;
    }

    // ----------------------------------------------------------------------------- prune

    method DropBelow(root: Hash, rootRound: Round)
      modifies this`pending
      ensures pending == Candidates(old(pending), root, rootRound)
    {
      var todo := pending.Keys;
      while todo != {}
        invariant todo <= old(pending).Keys
        invariant forall k :: k in pending ==> k in old(pending) && pending[k] == old(pending)[k]
        invariant forall k :: k in old(pending) && (k in todo || old(pending)[k].round > rootRound || k == root) ==>
                    k in pending
        invariant forall k :: k in pending && k !in todo ==> pending[k].round > rootRound || k == root
        decreases |todo|
      {
        var k :| k in todo;
        todo := todo - {k};
        if pending[k].round <= rootRound && k != root {
          pending := pending - {k};
        }
      }
    }

    /** One pass of the orphan loop. */
    method DropOrphansOnce(root: Hash, ghost before: map<Hash, Block>) returns (changed: bool)
      requires OnlyOrphansGone(before, pending, root)
      modifies this`pending
      ensures OnlyOrphansGone(before, pending, root)
      ensures if changed then |pending| < |old(pending)| else pending == old(pending) && NoOrphans(pending, root)
    {
      hide OnlyOrphansGone;
      changed := false;
      var todo := pending.Keys;
      while todo != {}
        invariant OnlyOrphansGone(before, pending, root)
        invariant changed ==> |pending| < |old(pending)|
        invariant !changed ==> pending == old(pending)
        invariant !changed ==> forall k :: k in pending && k !in todo ==>
                    k == root || ParentId(pending[k]) == root || ParentId(pending[k]) in pending
        decreases |todo|
      {
        var k :| k in todo;
        todo := todo - {k};
        if k in pending {
          var parent := ParentId(pending[k]);
          if !(k == root || parent == root) && parent !in pending {
            OrphanIsUnreachable(before, pending, root, k);
            FewerEntries(pending, k);
            pending := pending - {k};
            changed := true;
          }
        }
      }
    }

    method DropOrphans(root: Hash)
      requires Filed(pending)
      modifies this`pending
      ensures pending == Reaching(old(pending), root)
    {
      hide BlockId;
      hide OnlyOrphansGone;
      hide NoOrphans;
      hide Filed;
      NothingGone(pending, root);
      var changed := true;
      while changed
        invariant OnlyOrphansGone(old(pending), pending, root)
        invariant !changed ==> NoOrphans(pending, root)
        decreases |pending| + if changed then 1 else 0
      {
        changed := DropOrphansOnce(root, old(pending));
      }
      FixpointIsReachability(old(pending), pending, root);
    }

    method DropVotes(rootRound: Round)
      modifies this`votes
      ensures votes == map k | k in old(votes) && old(votes)[k].voteInfo.round > rootRound :: old(votes)[k]
    {
      var todo := votes.Keys;
      while todo != {}
        invariant todo <= old(votes).Keys
        invariant forall k :: k in votes ==> k in old(votes) && votes[k] == old(votes)[k]
        invariant forall k :: k in old(votes) && (k in todo || old(votes)[k].voteInfo.round > rootRound) ==> k in votes
        invariant forall k :: k in votes && k !in todo ==> votes[k].voteInfo.round > rootRound
        decreases |todo|
      {
        var k :| k in todo;
        todo := todo - {k};
        if votes[k].voteInfo.round <= rootRound {
          votes := votes - {k};
        }
      }
    }

    method DropVoters(rootRound: Round)
      modifies this`voters
      ensures voters == set v | v in old(voters) && v.0 > rootRound
    {
      var todo := voters;
      while todo != {}
        invariant todo <= old(voters) && voters <= old(voters)
        invariant forall v :: v in old(voters) && (v in todo || v.0 > rootRound) ==> v in voters
        invariant forall v :: v in voters && v !in todo ==> v.0 > rootRound
        decreases |todo|
      {
        var v: (Round, Id) :| v in todo;
        todo := todo - {v};
        if v.0 <= rootRound {
          voters := voters - {v};
        }
      }
    }

    /** The three maps become the specified ones, in whatever order they are walked. */
    method Prune(root: Hash, rootRound: Round)
      requires Filed(pending)
      modifies this`pending, this`votes, this`voters
      ensures View() == TreeModel.Prune(old(View()), root, rootRound)
    {
      hide BlockId;
      hide Reaches;
      DropBelow(root, rootRound);
      DropOrphans(root);
      DropVotes(rootRound);
      DropVoters(rootRound);
    }

    // ----------------------------------------------------------------------- certificates

    /** A certificate that commits commits its block's parent. */
    method ProcessQC(qc: Option<QuorumCert>)
      requires Valid()
      modifies this, ledger
      ensures Valid()
      ensures View() == if qc.None? then old(View()) else TreeModel.ProcessQC(old(View()), qc.value)
      ensures ledger.View() == if qc.Some? && Commits(qc.value.ledgerCommitInfo)
                               then LedgerModel.Commit(old(ledger.View()), qc.value.voteInfo.parentId)
                               else old(ledger.View())
      ensures qc.Some? ==>
                && highQC.voteInfo.round == MaxRound(qc.value.voteInfo.round, old(highQC).voteInfo.round)
                && (Commits(qc.value.ledgerCommitInfo) ==>
                      highCommitQC.voteInfo.round == MaxRound(qc.value.voteInfo.round,
                                                              old(highCommitQC).voteInfo.round))
                && (!Commits(qc.value.ledgerCommitInfo) ==> highCommitQC == old(highCommitQC))
    {
      hide BlockId;
      hide LedgerModel.Commit;
      hide LedgerModel.LedgerInv;
      hide MemLedger.Valid;
      hide Reaches;
      if qc.None? {
        return;
      }
      var c := qc.value;
      if Commits(c.ledgerCommitInfo) {
        ledger.Commit(c.voteInfo.parentId);
        Prune(c.voteInfo.parentId, c.voteInfo.parentRound);
        highCommitQC := Higher(c, highCommitQC);
      }
      highQC := Higher(c, highQC);
    }

    method ExecuteAndInsert(b: Block)
      requires Valid() && ValidBlockId(b)
      modifies this, ledger
      ensures Valid()
      ensures View() == InsertBlock(old(View()), b)
      ensures ledger.View() == LedgerModel.Speculate(old(ledger.View()), b)
    {
      hide BlockId;
      hide LedgerModel.Speculate;
      hide MemLedger.Valid;
      hide Chains.Replay;
      var _ := ledger.Speculate(b);
      pending := pending[b.id := b];
    }

    /** Accumulate a vote; the certificate it completes, or None. `sig` is what signing the
        signature set returned. */
    method ProcessVote(v: VoteMsg, sig: Option<Blob>) returns (qc: Option<QuorumCert>)
      requires Valid()
      modifies this, ledger, crypto
      ensures Valid()
      ensures crypto.signed == old(crypto.signed) + if qc.Some? then [Aggregated(qc.value.signatures)] else []
      ensures var t := if v.highCommitQc.None? then old(View())
                  else TreeModel.ProcessQC(old(View()), v.highCommitQc.value);
              (View(), qc) == TreeModel.ProcessVote(id, quorum, t, v, sig)
      ensures ledger.View() == if v.highCommitQc.Some? && Commits(v.highCommitQc.value.ledgerCommitInfo)
                               then LedgerModel.Commit(old(ledger.View()), v.highCommitQc.value.voteInfo.parentId)
                               else old(ledger.View())
    {
      hide BlockId;
      hide TreeModel.ProcessQC;
      hide TreeModel.ProcessVote;
      hide LedgerModel.Commit;
      hide LedgerModel.LedgerInv;
      ProcessQC(v.highCommitQc);
      qc := Accumulate(v, sig);
    }

    /** The accumulator: one vote per signer and round, bucketed by what is signed. */
    method Accumulate(v: VoteMsg, sig: Option<Blob>) returns (qc: Option<QuorumCert>)
      modifies this`votes, this`voters, crypto
      ensures crypto.signed == old(crypto.signed) + if qc.Some? then [Aggregated(qc.value.signatures)] else []
      ensures (View(), qc) == TreeModel.ProcessVote(id, quorum, old(View()), v, sig)
    {
      hide LedgerCommitDigest;
      hide QcSigsDigest;
      hide Canonical;
      var voterKey := (v.voteInfo.round, v.sender);
      if voterKey in voters {
        return None;
      }
      var idx := ComputeLedgerCommitDigest(v.ledgerCommitInfo);
      var b := if idx in votes then votes[idx] else VoteBucket(v.voteInfo, v.ledgerCommitInfo, []);
      voters := voters + {voterKey};
      b := b.(sigs := b.sigs + [v.sig]);
      assert b == BucketWith(old(View()), v);
      votes := votes[idx := b];
      if |b.sigs| < quorum {
        return None;
      }
      var sigs := Canonical(b.sigs);
      var digest := ComputeQcSigsDigest(sigs);
      var authorSig := crypto.Sign(digest, Aggregated(sigs), sig);
      if authorSig.None? {
        return None;
      }
      votes := votes - {idx};
      qc := Some(QuorumCert(b.voteInfo, b.commit, sigs, id, Some(Signature(id, authorSig.value))));
    }

    /** A block with a valid id that extends highQC. */
    method GenerateBlock(txns: Payload, round: Round) returns (b: Block)
      ensures b == NewBlock(id, round, txns, Some(highQC))
      ensures ValidBlockId(b) && ParentId(b) == highQC.voteInfo.id
    {
      hide BlockPreimage;
      var bid := ComputeBlockId(id, round, txns, Some(highQC));
      b := Block(id, round, txns, Some(highQC), bid);
    }
  }
}
