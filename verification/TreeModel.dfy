// diem/blocktree.go on values: pending blocks, votes counted so far, and the highest certificates.
module TreeModel {
  import opened Wire
  import opened Hashing
  import opened Verification
  import opened Chains
  import opened Sorting

  /** Votes under one key, and what all of them say. */
  datatype VoteBucket = VoteBucket(voteInfo: VoteInfo, commit: LedgerCommitInfo, sigs: seq<Signature>)

  datatype Tree = Tree(pending: map<Hash, Block>, votes: map<Hash, VoteBucket>, voters: set<(Round, Id)>,
                       highQC: QuorumCert, highCommitQC: QuorumCert)

  const NEW_TREE: Tree := Tree(map[], map[], {}, GENESIS_QC, GENESIS_QC)

  // ------------------------------------------------------------------------------- prune

  function Candidates(pending: map<Hash, Block>, root: Hash, rootRound: Round): map<Hash, Block> {
    map k | k in pending && (pending[k].round > rootRound || k == root) :: pending[k]
  }

  /** The root, and every candidate whose parent chain reaches it inside the candidates. */
  ghost function Rerooted(pending: map<Hash, Block>, root: Hash, rootRound: Round): map<Hash, Block> {
    var c := Candidates(pending, root, rootRound);
    map k | k in c && (k == root || Reaches(c, root, k)) :: c[k]
  }

  ghost function Prune(t: Tree, root: Hash, rootRound: Round): Tree {
    t.(pending := Rerooted(t.pending, root, rootRound),
       votes := map k | k in t.votes && t.votes[k].voteInfo.round > rootRound :: t.votes[k],
       voters := set v | v in t.voters && v.0 > rootRound)
  }

  ghost function ProcessQC(t: Tree, qc: QuorumCert): Tree {
    var t1 := if Commits(qc.ledgerCommitInfo)
              then Prune(t, qc.voteInfo.parentId, qc.voteInfo.parentRound)
                   .(highCommitQC := Higher(qc, t.highCommitQC))
              else t;
    t1.(highQC := Higher(qc, t.highQC))
  }

  function InsertBlock(t: Tree, b: Block): Tree { t.(pending := t.pending[b.id := b]) }

  // ------------------------------------------------------------------------------- votes

  function SignerOf(s: Signature): int { s.signer }

  function Canonical(sigs: seq<Signature>): seq<Signature> { SortBy(SignerOf, sigs) }

  function BucketWith(t: Tree, v: VoteMsg): VoteBucket {
    var idx := LedgerCommitDigest(v.ledgerCommitInfo);
    if idx in t.votes then t.votes[idx].(sigs := t.votes[idx].sigs + [v.sig])
    else VoteBucket(v.voteInfo, v.ledgerCommitInfo, [v.sig])
  }

  predicate HasVoted(t: Tree, v: VoteMsg) { (v.voteInfo.round, v.sender) in t.voters }

  function Tally(t: Tree, v: VoteMsg): Tree {
    t.(votes := t.votes[LedgerCommitDigest(v.ledgerCommitInfo) := BucketWith(t, v)],
       voters := t.voters + {(v.voteInfo.round, v.sender)})
  }

  function Certificate(self: Id, b: VoteBucket, sig: Blob): QuorumCert {
    QuorumCert(b.voteInfo, b.commit, Canonical(b.sigs), self, Some(Signature(self, sig)))
  }

  /** The accumulator proper, after the vote's commit certificate has been processed. `sig` is
      what signing the signature set returned. */
  function ProcessVote(self: Id, quorum: nat, t: Tree, v: VoteMsg, sig: Option<Blob>): (Tree, Option<QuorumCert>) {
    if HasVoted(t, v) then (t, None)
    else
      var b := BucketWith(t, v);
      if |b.sigs| < quorum || sig.None? then (Tally(t, v), None)
      else
        var t1 := Tally(t, v);
        (t1.(votes := t1.votes - {LedgerCommitDigest(v.ledgerCommitInfo)}), Some(Certificate(self, b, sig.value)))
  }

  // --------------------------------------------------------------------------- invariant

  ghost predicate BucketInv(k: Keyring, voters: set<(Round, Id)>, idx: Hash, b: VoteBucket) {
    && ValidVote(b.voteInfo, b.commit) && VoteInfoHash(b.voteInfo) == b.commit.voteInfoHash
    && idx == LedgerCommitDigest(b.commit)
    && |b.sigs| > 0 && Distinct(SignerOf, b.sigs)
    && forall s :: s in b.sigs ==> k.Verifies(idx, s) && (b.voteInfo.round, s.signer) in voters
  }

  ghost predicate SignersApart(b: VoteBucket, c: VoteBucket) {
    forall s, u :: s in b.sigs && u in c.sigs ==> s.signer != u.signer
  }

  /** Buckets hold verified, distinct votes on one VoteInfo; buckets of a round share no signer. */
  ghost predicate VotesInv(k: Keyring, t: Tree) {
    && (forall x :: x in t.votes ==> BucketInv(k, t.voters, x, t.votes[x]))
    && (forall x, y :: x in t.votes && y in t.votes && x != y && t.votes[x].voteInfo.round == t.votes[y].voteInfo.round
          ==> SignersApart(t.votes[x], t.votes[y]))
  }

  ghost predicate TreeInv(k: Keyring, t: Tree) {
    && VerifyQC(k, t.highQC) && VerifyQC(k, t.highCommitQC)
    && Filed(t.pending)
    && VotesInv(k, t)
  }

  lemma NewTreeInv(k: Keyring)
    ensures TreeInv(k, NEW_TREE)
  { }

  lemma TreeInvGrows(k: Keyring, k': Keyring, t: Tree)
    requires TreeInv(k, t) && Grows(k, k')
    ensures TreeInv(k', t)
  {
    hide VerifyQC;
    hide BlockId;
    hide LedgerCommitDigest;
    hide VoteInfoHash;
    VerifyQCGrows(k, k', t.highQC);
    VerifyQCGrows(k, k', t.highCommitQC);
    forall x | x in t.votes ensures BucketInv(k', t.voters, x, t.votes[x]) {
      assert BucketInv(k, t.voters, x, t.votes[x]);
    }
  }

  lemma PruneKeepsVotes(k: Keyring, t: Tree, root: Hash, rootRound: Round)
    requires VotesInv(k, t)
    ensures VotesInv(k, Prune(t, root, rootRound))
  {
    hide LedgerCommitDigest;
    hide VoteInfoHash;
    hide Rerooted;
    var t' := Prune(t, root, rootRound);
    forall x | x in t'.votes ensures BucketInv(k, t'.voters, x, t'.votes[x]) {
      assert BucketInv(k, t.voters, x, t.votes[x]);
    }
  }

  lemma ProcessQCInv(k: Keyring, t: Tree, qc: QuorumCert)
    requires TreeInv(k, t) && VerifyQC(k, qc)
    ensures TreeInv(k, ProcessQC(t, qc))
    ensures ProcessQC(t, qc).highQC.voteInfo.round >= MaxRound(qc.voteInfo.round, t.highQC.voteInfo.round)
  {
    hide VerifyQC;
    hide BlockId;
    hide Reaches;
    hide VotesInv;
    if Commits(qc.ledgerCommitInfo) {
      PruneKeepsVotes(k, t, qc.voteInfo.parentId, qc.voteInfo.parentRound);
    }
    VotesUnaffected(k, t, ProcessQC(t, qc));
    if Commits(qc.ledgerCommitInfo) {
      VotesUnaffected(k, Prune(t, qc.voteInfo.parentId, qc.voteInfo.parentRound), ProcessQC(t, qc));
    }
  }

  /** Only votes and voters matter to the accumulator. */
  lemma VotesUnaffected(k: Keyring, t: Tree, u: Tree)
    ensures t.votes == u.votes && t.voters == u.voters && VotesInv(k, t) ==> VotesInv(k, u)
  { }

  lemma InsertBlockInv(k: Keyring, t: Tree, b: Block)
    requires TreeInv(k, t) && ValidBlockId(b)
    ensures TreeInv(k, InsertBlock(t, b))
  {
    hide VerifyQC;
    hide BlockId;
    hide VotesInv;
    VotesUnaffected(k, t, InsertBlock(t, b));
  }

  /** A vote under an existing key agrees with the bucket on the whole VoteInfo. */
  lemma SameKeySameVote(k: Keyring, t: Tree, v: VoteMsg)
    requires VotesInv(k, t) && VerifyVote(k, v) && LedgerCommitDigest(v.ledgerCommitInfo) in t.votes
    ensures t.votes[LedgerCommitDigest(v.ledgerCommitInfo)].voteInfo == v.voteInfo
    ensures t.votes[LedgerCommitDigest(v.ledgerCommitInfo)].commit == v.ledgerCommitInfo
  {
    hide LedgerCommitPreimage;
    hide VoteInfoPreimage;
    var idx := LedgerCommitDigest(v.ledgerCommitInfo);
    var b := t.votes[idx];
    assert BucketInv(k, t.voters, idx, b);
    LedgerCommitDigestInjective(b.commit, v.ledgerCommitInfo);
    VoteInfoHashInjective(b.voteInfo, v.voteInfo);
  }

  lemma NewVoter(k: Keyring, t: Tree, v: VoteMsg, x: Hash, s: Signature)
    requires VotesInv(k, t) && !HasVoted(t, v)
    requires x in t.votes && t.votes[x].voteInfo.round == v.voteInfo.round && s in t.votes[x].sigs
    ensures s.signer != v.sender
  {
    hide LedgerCommitDigest;
    hide VoteInfoHash;
    assert BucketInv(k, t.voters, x, t.votes[x]);
  }

  lemma BucketWithInv(k: Keyring, t: Tree, v: VoteMsg)
    requires VotesInv(k, t) && VerifyVote(k, v) && !HasVoted(t, v)
    ensures BucketInv(k, Tally(t, v).voters, LedgerCommitDigest(v.ledgerCommitInfo), BucketWith(t, v))
    ensures BucketWith(t, v).voteInfo == v.voteInfo && BucketWith(t, v).commit == v.ledgerCommitInfo
  {
    hide VerifyQC;
    hide LedgerCommitDigest;
    hide VoteInfoHash;
    var idx := LedgerCommitDigest(v.ledgerCommitInfo);
    if idx in t.votes {
      SameKeySameVote(k, t, v);
      var sigs := t.votes[idx].sigs;
      assert BucketInv(k, t.voters, idx, t.votes[idx]);
      forall i | 0 <= i < |sigs| ensures sigs[i].signer != v.sender { NewVoter(k, t, v, idx, sigs[i]); }
    }
  }

  lemma TallyInv(k: Keyring, t: Tree, v: VoteMsg)
    requires VotesInv(k, t) && VerifyVote(k, v) && !HasVoted(t, v)
    ensures VotesInv(k, Tally(t, v))
  {
    hide VerifyVote;
    hide LedgerCommitDigest;
    hide VoteInfoHash;
    BucketWithInv(k, t, v);
    var idx, t' := LedgerCommitDigest(v.ledgerCommitInfo), Tally(t, v);
    forall x | x in t'.votes ensures BucketInv(k, t'.voters, x, t'.votes[x]) {
      if x != idx { assert BucketInv(k, t.voters, x, t.votes[x]); }
    }
    forall x, y | x in t'.votes && y in t'.votes && x != y && t'.votes[x].voteInfo.round == t'.votes[y].voteInfo.round
      ensures SignersApart(t'.votes[x], t'.votes[y])
    {
      if x == idx { TallyApart(k, t, v, y); }
      else if y == idx { TallyApart(k, t, v, x); }
      else { assert SignersApart(t.votes[x], t.votes[y]); }
    }
  }

  lemma TallyApart(k: Keyring, t: Tree, v: VoteMsg, y: Hash)
    requires VotesInv(k, t) && VerifyVote(k, v) && !HasVoted(t, v)
    requires y in t.votes && y != LedgerCommitDigest(v.ledgerCommitInfo)
    requires t.votes[y].voteInfo.round == v.voteInfo.round
    ensures SignersApart(BucketWith(t, v), t.votes[y]) && SignersApart(t.votes[y], BucketWith(t, v))
  {
    hide VerifyQC;
    hide LedgerCommitDigest;
    hide VoteInfoHash;
    var idx := LedgerCommitDigest(v.ledgerCommitInfo);
    if idx in t.votes {
      SameKeySameVote(k, t, v);
      assert SignersApart(t.votes[idx], t.votes[y]);
    }
    forall u | u in t.votes[y].sigs ensures u.signer != v.sender { NewVoter(k, t, v, y, u); }
  }

  /** In every reachable tree: a vote, in any form and any order, keeps the accumulator sound. */
  lemma ProcessVoteInv(k: Keyring, self: Id, quorum: nat, t: Tree, v: VoteMsg, sig: Option<Blob>)
    requires TreeInv(k, t) && VerifyVote(k, v)
    ensures TreeInv(k, ProcessVote(self, quorum, t, v, sig).0)
  {
    hide VerifyQC;
    hide VerifyVote;
    hide BlockId;
    hide LedgerCommitDigest;
    hide VoteInfoHash;
    if !HasVoted(t, v) { TallyInv(k, t, v); }
  }

  // ------------------------------------------------------------------- the memory bound

  /** Every (bucket, signer) pair a round holds. */
  ghost function RoundSlots(t: Tree, round: Round): set<(Id, Hash)> {
    set x, s | x in t.votes && t.votes[x].voteInfo.round == round && s in t.votes[x].sigs :: (s.signer, x)
  }

  ghost function RoundBuckets(t: Tree, round: Round): set<Hash> {
    set x | x in t.votes && t.votes[x].voteInfo.round == round
  }

  lemma {:induction false} InjectiveImage<A, B>(s: set<A>, f: A -> B, image: set<B>)
    requires forall a :: a in s ==> f(a) in image
    requires forall a, b :: a in s && b in s && f(a) == f(b) ==> a == b
    ensures |s| <= |image|
  {
    if s != {} {
      var a :| a in s;
      InjectiveImage(s - {a}, f, image - {f(a)});
    }
  }

  lemma SlotSigner(k: Keyring, t: Tree, x: Hash, s: Signature)
    requires k.Valid() && VotesInv(k, t) && x in t.votes && s in t.votes[x].sigs
    ensures s.signer in k.validators
  {
    hide LedgerCommitDigest;
    hide VoteInfoHash;
    assert BucketInv(k, t.voters, x, t.votes[x]);
    assert k.Verifies(x, s);
    if s.signer !in k.faulty { assert (s.signer, x) in k.signed && (s.signer, x).0 in k.validators; }
  }

  /** One round never holds more than n signatures, nor more than n buckets. */
  lemma RoundIsBounded(k: Keyring, t: Tree, round: Round)
    requires k.Valid() && VotesInv(k, t)
    ensures |RoundSlots(t, round)| <= |k.validators|
    ensures |RoundBuckets(t, round)| <= |k.validators|
  {
    hide LedgerCommitDigest;
    hide VoteInfoHash;
    var slots := RoundSlots(t, round);
    forall p | p in slots ensures p.0 in k.validators {
      var x, s :| x in t.votes && t.votes[x].voteInfo.round == round && s in t.votes[x].sigs && p == (s.signer, x);
      SlotSigner(k, t, x, s);
    }
    forall p, q | p in slots && q in slots && p.0 == q.0 ensures p == q {
      assert p.1 == q.1 || SignersApart(t.votes[p.1], t.votes[q.1]);
    }
    InjectiveImage(slots, (p: (Id, Hash)) => p.0, k.validators);
    forall x | x in RoundBuckets(t, round) ensures exists i :: (i, x) in slots {
      assert BucketInv(k, t.voters, x, t.votes[x]);
      assert t.votes[x].sigs[0] in t.votes[x].sigs;
      assert (t.votes[x].sigs[0].signer, x) in slots;
    }
    BucketsBySlots(RoundBuckets(t, round), slots);
  }

  lemma {:induction false} BucketsBySlots(buckets: set<Hash>, slots: set<(Id, Hash)>)
    requires forall x :: x in buckets ==> exists i :: (i, x) in slots
    ensures |buckets| <= |slots|
  {
    if buckets != {} {
      var x :| x in buckets;
      var i :| (i, x) in slots;
      forall y | y in buckets - {x} ensures exists j :: (j, y) in slots - {(i, x)} {
        var j :| (j, y) in slots;
        assert (j, y) in slots - {(i, x)};
      }
      BucketsBySlots(buckets - {x}, slots - {(i, x)});
    }
  }
}
