# DiemBFT v4: a verified model of the `diem` package

This project models the consensus core of a Go implementation of DiemBFT v4 and proves its safety in
Dafny 4.11. `dafny verify dfyconfig.toml` checks all of it.

The central result is **agreement**. In every run with at most `Faulty(n)` arbitrary replicas, under
any scheduling, loss, duplication and reordering of messages, the commit logs of any two correct
replicas are prefixes of one another. It holds for every n, for unbounded runs, for any leader choice,
and for uint64 rounds including wrap-around.

Where something the documentation suggests is false, there is a concrete input, or a whole run, that shows
it, and a theorem that says exactly when it does hold.

## How it is built

- **Wire and hashing.** `Wire`, `Hashing`, `Quorums` and `Verification` hold the messages, the
  byte-level digest preimages, the quorum arithmetic and the edge checks. SHA-256 is an ideal function:
  a digest is its preimage, so it is injective and never equals a chosen byte string. A signature
  verifies exactly when its signer is faulty or has signed that digest.
- **Chains and safety rules.** `Chains` defines parent chains, replay from genesis, and reachability.
  `SafetyRules` holds the voting and timeout rules, and what the two counters enforce between any two
  statements of one replica.
- **The replica as a value.** `LedgerModel`, `TreeModel`, `PacemakerModel` and `Election` are the
  modules as pure state. `ReplicaModel.Step` is one event of `core.go` over them. Payloads and the
  results of signing calls are arguments; messages and signatures are in the outcome.
- **Theorems.** `Agreement` is the protocol argument over what has been signed. `ReplicaInvariant`
  shows what every step keeps. `System` lifts it to runs. `Duties` says what one step signs, sends, asks
  for and answers, each exactly when, and `Authenticity` that nobody can speak in a correct replica's name.
  `CommitRule` says when votes and certificates commit and that commits take effect, `HighCerts` that a
  replica keeps and passes on the highest certificates it has met, `LeaderTable` for which round an election
  counts, and `GivingUp` that a replica can always time out. `Arrival` decides when the order of arrival
  matters. `Storage` says what ledgers come to hold, and `Ceiling` how high rounds can get. `Outbound`,
  `Rounds`, `Timers` and `Reputation` prove what is sent, how rounds move, how timers behave and how
  leaders are elected. `LaggingLeader` and `EndlessWalk`, over `Scenario`, are runs in which a correct
  leader's proposal is refused and in which a correct replica starts a walk that never ends.
- **The code's own form.** `HashWriter`, `LedgerImpl`, `TreeImpl`, `SafetyImpl`, `PacemakerImpl`,
  `LeaderImpl` and `CoreImpl` are classes whose methods and loops follow the source. Each method is
  proved to do what its function does on the view of the object. The last of these, `Core.Step`, has the
  same new state, messages and signatures as `ReplicaModel.Step`, so the theorems speak about it. It
  requires that the reputation walks the step starts end (`Walks`), and nothing else of the ledger.

## Where the code and its documentation differ

- The paper's notion of a globally committed block counts f+1 correct voters. They are sure to meet every
  quorum exactly when n is not a multiple of three (`CorrectVotersMeetQuorum`). The proofs count a whole
  quorum of voters, which is what the code waits for.
- `diem/verify.go:187-188` says a block that passes `VerifyBlock` is the block itself. `VerifyBlock` does not
  measure the parent id. Of a well-sized parent, a passing copy has the same one exactly when its own parent
  id is well sized (`VerifyBlockIdentifies`). The ambiguous pair (`ParentAmbiguousWithoutLengthCheck`) has
  a parent of raw bytes, the zero hash: where the parent is a digest, as of every block over a real
  one, the id fixes it (`DigestParentIsFixed`), because a digest is one indivisible item here.
- A block id does not cover what its certificate says beyond the certified id and the signatures. The
  reputation walk reads such a field, `parent_id`, and fetched blocks are not checked for it. The walk runs
  forever exactly when it revisits a block while still short of excluded authors (`WalkEndsIff`). That takes
  an exclusion of at least two (`SmallExclusionEnds`), which is the default from n = 7 on. For any such
  exclusion `WalkNeverEndsInSomeRun` is a run of four replicas, one faulty, that brings a correct replica to
  such a walk. It ends in every run whose fetched blocks carry verified certificates (`WalksEndInRuns`).
- A vote's commit certificate raises `highQC` without entering its round. So a leader can propose over a
  certificate at or above its own round, and such a proposal fails every edge: `LaggingLeaderProposesInVain`
  is a run of four replicas, one faulty, in which this happens. Every other proposal passes whenever it
  arrives (`SentMessagesVerifyInRuns`).
- `diem/ledger.go:64-68` says a block whose parent is missing is held unless the parent can never arrive. The
  code judges this by the round the block's certificate states, so order of arrival can matter in two ways.
  A block whose certificate is not above the commit round is lost if it comes before a parent that was still to
  be connected (`EarlyChildIsLost`). Of two copies of one block that are both kept, the later stands
  (`CopiesExist`). These are the only two ways (`ArrivalOrderIrrelevant`, an if-and-only-if). Blocks with
  verified certificates are never lost, and their copies differ in who assembled the certificate at most, so in
  every run whose fetched blocks verify all orders agree up to that (`OrdersAgreeInRuns`).
- Round 2^64-1 has successor 0 (`AdvancesUnlessLargest`). Agreement and the order of votes are unaffected. What
  is proved about rounds only growing is for runs shorter than 2^64-1 actions, which cannot reach that round
  (`RoundsRiseSlowly`).

## Model

| member | source | states |
|---|---|---|
| System.AgreementTheorem | diem/blocktree.go:82-93 | in every run with at most Faulty(n) arbitrary replicas, the commit logs of two correct replicas, each read at any time, are prefixes of one another |
| System.CommittedBlocksAgree | diem/ledger.go:126-154 | where two correct replicas' logs both have an entry, the blocks have the same id, author, round, payload and parent |
| System.LogsOnlyGrow | diem/ledger.go:126-154 | over any run, a replica's commit log at one time is a prefix of its log at any later time |
| System.LedgersInRuns | diem/ledger.go:126-185 | in every reachable ledger the commit history is one duplicate-free parent chain from genesis, and each pending block reaches its end through pending blocks |
| System.VotesBoundedInRuns | diem/blocktree.go:107-143 | in every run a tree holds at most n signatures and at most n buckets for any one round, however senders vary their votes |
| System.CertifiedExecutionInRuns | diem/safety.go:116-157 | in every run a certificate that verifies carries the replay of its whole chain from genesis; if it commits, it carries the replay of its parent, exactly one round below |
| System.RunInv | diem/core.go:166-194 | every state of every run satisfies the system invariant: all signed statements are justified and ordered, all stored certificates verify, all collected votes and timeouts are genuine |
| System.StepHealthy | diem/core.go:166-194 | any step of a correct replica on any verified event keeps its invariant, keeps its counters covering its statements, and signs only what the safety rules justify |
| System.StepExtendsLog | diem/core.go:166-194 | a step only ever appends to the commit log |
| Agreement.OneCertificatePerRound | diem/safety.go:69-78 | two certificates that verify for one round carry the same VoteInfo and LedgerCommitInfo |
| Agreement.TimeoutCertReportsCommit | diem/safety.go:83-97 | once a 2-chain certifies a block of round r, every TC above r that verifies reports a highest QC round of at least r |
| Agreement.LaterCertificatesExtend | diem/safety.go:62-78 | once a 2-chain certifies block B of round r, every certificate of round r or later that verifies is for a block whose parent chain contains B, through the consecutive and the TC branch |
| Agreement.CommitsOnOneChain | diem/blocktree.go:82-93 | of two committed parents, the chain of the one in the lower round is a prefix of the other's |
| Agreement.CertifiedFromGenesis | diem/verify.go:57-87 | every block with a verified certificate is on a parent chain from genesis |
| Agreement.CertifiedExecution | diem/safety.go:103-145 | a verified certificate states the replay of its block, and a non-zero commit state is the replay of the parent in the round just below |
| Agreement.CorrectVoter | diem/verify.go:57-102 | behind every verified certificate above round 0 is a correct replica's justified vote for exactly its VoteInfo and LedgerCommitInfo |
| Agreement.RecordKeepsWorld | diem/safety.go:116-173 | signing one more justified statement in order keeps the global invariant and invalidates no signature |
| SafetyRules.VoteIsSafe | diem/safety.go:116-157 | a vote the rules let through is justified, comes in order after everything signed before, and leaves counters that cover it |
| SafetyRules.TimeoutIsSafe | diem/safety.go:162-173 | a timeout the rules let through is justified, comes in order after everything signed before, and leaves counters that cover it |
| CommitRule.CertificatesCommit | diem/safety.go:103-157 | in every run, for each correct signer of a verified certificate there is the action that cast the vote, and the certificate commits the replay of its parent exactly if it is one round above it and the block was pending in that replica then |
| CommitRule.StepVotesCommit | diem/safety.go:103-157 | every vote a step signs carries the parent's replay exactly if the block is one round above its certificate and pending, and no commit otherwise |
| CommitRule.ParentReadyIff | diem/safety.go:103-112 | of a block the ledger can answer for, the parent is ready exactly if the block is pending |
| CommitRule.CommitsUnlessZero | diem/types.go:49-51 | a well-sized commit state commits exactly if it is not the zero hash |
| CommitRule.CommitsTakeEffect | diem/blocktree.go:82-93 | in every run, a committing certificate that a replica meets while it has the parent pending puts the whole chain of that parent into its history for good, also when another committing certificate comes first |
| CommitRule.CommitExact | diem/ledger.go:126-185 | committing a pending block makes its whole chain the history, keeps pending exactly the blocks with it on their chain, and keeps held exactly those with certificates above its round |
| GivingUp.LocalTimeoutsAreAloud | diem/safety.go:83-97 | in every run shorter than 2^64-1 actions, a local timeout that is not stale makes the replica broadcast a timeout exactly if signing succeeds and it knows no certificate of its round or later |
| GivingUp.CountersKeepUp | diem/safety.go:47-53 | in every such run the vote counter is at most the replica's round and the certificate counter at most its highest certificate's, and the round was entered on the remembered TC or on a certificate not above the highest |
| GivingUp.VotesMoveCounters | diem/safety.go:116-157 | a proposal moves the counters exactly when the rules allow the vote, to the higher of the old value and the block's, whether or not signing then succeeds |
| GivingUp.TimeoutsMoveCounters | diem/safety.go:162-173 | giving up moves the vote counter exactly when the rules allow the timeout, to the higher of the old value and the round, whether or not signing then succeeds |
| SafetyImpl.Safety.MakeVote | diem/safety.go:116-157 | returns the vote the ballot rules prescribe or None, moves the counters only with a ballot, and signs that vote's digest and nothing else |
| SafetyImpl.Safety.MakeTimeout | diem/safety.go:162-173 | returns a timeout exactly when the rules allow one and signing succeeds, and raises the vote counter whenever they allow it |
| SafetyImpl.Safety.CommitStateIDCandidate | diem/safety.go:103-112 | the replay of the certified block exactly when the round is the one after its certificate's and the ledger can answer for that block, the zero hash otherwise |
| Quorums.QuorumSizeIsLeast | diem/quorum.go:6-11 | any two sets of q out of n replicas share f+1 members exactly when q is at least QuorumSize(n), and n-f replicas reach that size |
| Quorums.CorrectVotersMeetQuorum | diem/quorum.go:6-11 | any f+1 replicas share a member with any quorum exactly when n is not a multiple of three |
| Quorums.OverlapIff | diem/quorum.go:6-11 | sets of p and q out of n are sure to share k members exactly when p + q is at least n + k |
| Quorums.QuorumsMeet | diem/quorum.go:6-11 | any two quorums share a correct replica |
| Verification.CertSigners | diem/verify.go:95-102 | a verified signature list is a quorum of distinct validators, and each correct one has signed the digest |
| Verification.TCSigners | diem/verify.go:108-126 | the votes of a verified TC come from a quorum of distinct validators, and each correct one has signed its reported round |
| Verification.VerifyQCGrows | diem/verify.go:57-87 | a certificate that verifies keeps verifying as more is signed |
| Verification.VerifyTCGrows | diem/verify.go:108-126 | a TC that verifies keeps verifying as more is signed |
| Authenticity.ProposalsAreAuthentic | diem/verify.go:132-151 | in every run a proposal handled in the name of a correct replica was sent by an earlier action of that replica, for the very same block |
| Authenticity.VotesAreAuthentic | diem/verify.go:168-181 | in every run a vote handled in the name of a correct replica was sent by it, with the same VoteInfo and LedgerCommitInfo |
| Authenticity.TimeoutsAreAuthentic | diem/verify.go:155-165 | in every run a timeout handled in the name of a correct replica was sent by it, for the same round and with a certificate of the same round |
| Authenticity.CertificateAuthorsAreAuthentic | diem/verify.go:57-87 | in every run a verified certificate that names a correct author was assembled by an earlier action of that replica, from exactly these signatures |
| Authenticity.SignedBefore | diem/core.go:166-194 | every statement in the log of a correct replica was signed by one of its own earlier actions |
| Verification.VerifyBlockIdentifies | diem/verify.go:189-191 | a copy that passes has the block's author, round and payload, and has its parent exactly when the copy's parent id is well sized; the signatures then agree too. Where digests are indivisible items, as here and not in bytes, the parent also agrees whenever it is a digest |
| Hashing.BlockIdInjective | diem/hash.go:58-70 | an id determines author, round and payload for any lists, and the parent and certificate signatures when the parent ids are well sized |
| Hashing.DigestParentIsFixed | diem/hash.go:58-70 | where digests are indivisible items, as here and not in bytes, an id over a parent that is a digest determines the parent whatever the other copy carries; an over-long id that spells a digest out in bytes is not covered |
| Hashing.VoteInfoHashInjective | diem/hash.go:73-82 | equal hashes of votes with well-sized ids mean equal votes |
| Hashing.LedgerCommitDigestInjective | diem/hash.go:87-93 | equal digests of commit infos with well-sized hashes mean equal commit infos |
| Hashing.TimeoutDigestInjective | diem/hash.go:98-104 | equal digests mean the same round and the same reported round |
| Hashing.QcSigsDigestInjective | diem/hash.go:107-112 | equal digests of signature lists whose count fits 64 bits mean equal lists |
| Hashing.ExecuteHashInjective | diem/hash.go:118-127 | equal states over well-sized predecessors mean the same predecessor and payload |
| Hashing.DomainSeparation | diem/hash.go:17-24 | the six kinds of digest never coincide for any arguments |
| Hashing.ParentAmbiguousWithoutLengthCheck | diem/verify.go:189-191 | two blocks can share an id and differ in parent when one parent id is over-long |
| HashWriter.Hasher.WriteBytes | diem/hash.go:39-42 | appends the length-prefixed encoding of a blob |
| HashWriter.Hasher.WriteSigs | diem/hash.go:44-50 | the loop appends the encoding of a whole signature list |
| HashWriter.Hasher.WritePayload | diem/hash.go:58-70 | the loop appends the encoding of a whole payload |
| HashWriter.ComputeBlockId | diem/hash.go:58-70 | the successive writes hash to the injective block preimage |
| HashWriter.ComputeVoteInfoHash | diem/hash.go:73-82 | the successive writes hash to the injective vote preimage |
| HashWriter.ComputeLedgerCommitDigest | diem/hash.go:87-93 | the successive writes hash to the injective commit preimage |
| HashWriter.ComputeTimeoutDigest | diem/hash.go:98-104 | the successive writes hash to the injective timeout preimage |
| HashWriter.ComputeQcSigsDigest | diem/hash.go:107-112 | the successive writes hash to the injective signature-list preimage |
| HashWriter.ComputeExecuteHash | diem/hash.go:118-127 | the successive writes hash to the injective state preimage |
| Wire.ScanMaxHighQCRound | diem/types.go:56-62 | the scan returns an upper bound on every reported round that is reported, or 0 |
| Wire.MaxHighQCRoundLeast | diem/types.go:56-62 | any bound on all reported rounds bounds the maximum |
| Chains.ParentBelow | diem/hash.go:58-70 | parent links are acyclic: a parent is strictly below its child |
| Chains.FixpointIsReachability | diem/ledger.go:166-185 | whatever order orphans are deleted in, the fixed point is the root and exactly the blocks whose parent chain reaches it |
| LedgerModel.PendingReaches | diem/ledger.go:77-95 | each pending block's chain reaches the commit frontier through pending blocks |
| LedgerModel.LogHasNoDuplicates | diem/ledger.go:126-154 | a commit history names no block twice |
| LedgerModel.LogIsChain | diem/ledger.go:126-154 | the commit history is the whole parent chain of its last block, oldest first |
| LedgerModel.SpeculateInv | diem/ledger.go:77-95 | speculating any block keeps pending connected to the frontier and held disconnected from it |
| LedgerModel.CommitInv | diem/ledger.go:126-185 | committing any id keeps the same |
| LedgerModel.CommitExtendsLog | diem/ledger.go:126-154 | a commit keeps the old history as a prefix, and a pending block that is committed becomes the frontier |
| LedgerModel.MissingIsUnseen | diem/ledger.go:99-110 | what is asked for is not held, pending or the frontier, and the block asked about reaches it through held blocks |
| Arrival.PendingIsConnected | diem/ledger.go:77-95 | of the known blocks, pending is exactly those connected to the frontier |
| Arrival.KnownDetermines | diem/ledger.go:77-95 | two ledgers with the same history and the same known blocks are equal |
| Arrival.ArrivalOrderIrrelevant | diem/ledger.go:77-95 | over a sound ledger, blocks with valid ids and well-sized parents leave the same ledger in every order and with any repeats if and only if each either stays whenever it comes (ready parent, or certificate above the commit round) or has a parent no order could connect, and no two copies of one block both stay |
| Arrival.EarlyChildIsLost | diem/ledger.go:77-95 | a child whose certificate is not above the commit round ends up pending if its parent comes first and nowhere if it comes second |
| Arrival.EarlyChildExists | diem/ledger.go:77-95 | such a parent and child exist for a new ledger |
| Arrival.LastCopyStands | diem/ledger.go:77-95 | two different copies of one block that both stay give different ledgers in the two orders |
| Arrival.CopiesExist | diem/ledger.go:77-95 | two blocks can share an id, state different certificate rounds and both stay in a new ledger, so their order matters |
| Arrival.Arrives | diem/ledger.go:77-95 | an arriving block that stays becomes known in place of any other copy, and one that does not changes nothing |
| Arrival.UnsizedNeverReady | diem/ledger.go:77-95 | a block whose parent id is not well sized never finds its parent ready |
| Storage.SoundInRuns | diem/ledger.go:77-185 | in every run whose fetched blocks verify, every ledger is sound: connected, well sized, and holding only blocks whose certificates are above the commit round |
| Storage.OrdersAgreeInRuns | diem/ledger.go:77-95 | in every such run, blocks whose certificates verify are never lost by coming before their parents, and leave the same ledger in every order up to the fields that say who assembled a certificate |
| Storage.CheckedIsPlaced | diem/ledger.go:77-95 | a block with a verified certificate is kept whenever it comes, unless no order could connect its parent |
| Storage.GenuineCopies | diem/verify.go:57-87 | two copies of one block with verified certificates agree on everything but who assembled the certificate |
| Storage.CertsAgree | diem/verify.go:57-87 | two verified certificates for one block carry the same VoteInfo and LedgerCommitInfo |
| Storage.StepStores | diem/core.go:253-258 | a step stores no block but the one its event delivers |
| LedgerImpl.MemLedger.constructor | diem/ledger.go:49-62 | a new ledger is valid and holds genesis alone |
| LedgerImpl.MemLedger.PendingState | diem/ledger.go:116-122 | answers exactly for the frontier and pending blocks, with the replay from genesis |
| LedgerImpl.MemLedger.Speculate | diem/ledger.go:77-95 | the recursion over held blocks ends in the specified maps; every stored state is the replay from genesis |
| LedgerImpl.MemLedger.Extend | diem/ledger.go:77-95 | executing a block adopts it and exactly the held blocks that reach it |
| LedgerImpl.MemLedger.Missing | diem/ledger.go:99-110 | the loop terminates and names the oldest unseen ancestor, never a held, pending or frontier block |
| LedgerImpl.MemLedger.CommittedBlock | diem/ledger.go:157-160 | finds exactly the blocks among the last `history` entries of the commit history |
| LedgerImpl.MemLedger.Walk | diem/ledger.go:126-139 | succeeds exactly when the block reaches the frontier, with the path between them and true states |
| LedgerImpl.MemLedger.Apply | diem/ledger.go:140-151 | appends the walked blocks to the history oldest first, each once, and moves the frontier to the last |
| LedgerImpl.MemLedger.Prune | diem/ledger.go:166-185 | the repeat-until-stable loop ends and leaves exactly the blocks whose chain reaches the frontier |
| LedgerImpl.MemLedger.Forget | diem/ledger.go:188-196 | leaves exactly the last min(length, history) committed blocks |
| LedgerImpl.MemLedger.Commit | diem/ledger.go:126-154 | walk, apply, prune and forget together are the specified commit, and states, order and store stay true |
| TreeModel.ProcessQCInv | diem/blocktree.go:82-93 | a verified certificate keeps the tree's certificates verified and its votes sound, and highQC reaches its round |
| TreeModel.ProcessVoteInv | diem/blocktree.go:107-143 | a verified vote keeps buckets uniform, signers distinct, and buckets of one round disjoint |
| TreeModel.SameKeySameVote | diem/blocktree.go:107-143 | a verified vote filed under an existing key agrees with the bucket on the whole VoteInfo |
| TreeModel.RoundIsBounded | diem/blocktree.go:36-46 | one round never holds more than n signatures or n buckets |
| Duties.VoteCompletesIff | diem/blocktree.go:107-143 | a vote counts once per signer and round; it completes a certificate exactly if it makes a quorum of signers of the same vote and signing succeeds; the certificate is by exactly those signers, and their bucket is gone |
| Duties.StepAssembles | diem/core.go:273-289 | handling a vote assembles a certificate exactly if the vote is in the window, its signer's first in the round, makes QuorumSize(n) signers of the same vote and signing succeeds, and the certificate is by exactly those signers |
| Duties.CertificateKeepsNewerVotes | diem/blocktree.go:158-190 | a committing certificate drops exactly the votes and voters of rounds up to its parent's, and any other drops none |
| Duties.CertificateReroots | diem/blocktree.go:158-179 | after a committing certificate a block stays exactly if it is the root, or is above the root's round and its parent is the root or stays |
| HighCerts.HighestInRuns | diem/blocktree.go:82-93 | in every run the two highest certificates are genesis or ones the replica has read or assembled, the second one that commits, and nothing it has met, or that commits, is higher |
| HighCerts.HighestNeverFalls | diem/types.go:38-43 | in every run each of the two stays the same or becomes strictly higher |
| HighCerts.MessagesCarryHighest | diem/core.go:222-316 | in every run, whatever a replica sends carries certificates at least as high as every certificate it has met, those of the same step included |
| TreeImpl.BlockTree.constructor | diem/blocktree.go:49-61 | a new tree is empty over the genesis certificate |
| TreeImpl.BlockTree.Prune | diem/blocktree.go:158-190 | leaves the root and exactly the blocks above its round whose chain reaches it inside those, and drops exactly the votes and voters not above its round |
| TreeImpl.BlockTree.DropOrphans | diem/blocktree.go:164-179 | the repeat-until-stable loop ends at reachability from the root |
| TreeImpl.BlockTree.ProcessQC | diem/blocktree.go:82-93 | commits and re-roots exactly on a committing certificate; highQC ends at the higher of the two rounds, and so does highCommitQC if the certificate commits, and is untouched if not |
| TreeImpl.BlockTree.ExecuteAndInsert | diem/blocktree.go:96-99 | the block is speculated in the ledger and filed under its id |
| TreeImpl.BlockTree.ProcessVote | diem/blocktree.go:107-143 | processes the vote's certificate and then counts the vote once per signer and round; signs exactly the set of a completed certificate |
| TreeImpl.BlockTree.GenerateBlock | diem/blocktree.go:148-150 | a block whose id is valid and whose parent is the highest certified block |
| Sorting.SortOrderIrrelevant | diem/blocktree.go:195-199 | distinct signatures sort to one sequence whatever order they arrived in |
| ReplicaInvariant.LocalCertificateVerifies | diem/blocktree.go:107-143 | a certificate assembled from collected votes passes VerifyQC everywhere once its author has signed the set |
| ReplicaInvariant.AbsorbInv | diem/core.go:222-225 | reading a message's certificates keeps the replica invariant, never touches the counters, and brings highQC up to the message's certificate |
| PacemakerModel.TimeoutCertVerifies | diem/pacemaker.go:127-168 | a quorum of collected timeouts sorts into a TC that passes VerifyTC everywhere |
| PacemakerModel.TimeoutCertReports | diem/pacemaker.go:127-168 | a TC reports no round above those its timeouts carried |
| PacemakerModel.CollectInv | diem/pacemaker.go:127-148 | counting a verified timeout keeps every bucket genuine, one per sender |
| PacemakerImpl.Pacemaker.Stop | diem/pacemaker.go:67-73 | disarms the timer and opens a new epoch |
| PacemakerImpl.Pacemaker.StartTimer | diem/pacemaker.go:78-91 | enters the round with one freshly armed timer and exactly the timeouts of that round or later |
| PacemakerImpl.Pacemaker.LocalTimeoutRound | diem/pacemaker.go:97-118 | re-arms whatever Safety decides, and broadcasts exactly the timeout Safety allows with the TC that justifies it |
| PacemakerImpl.Pacemaker.ProcessRemoteTimeout | diem/pacemaker.go:127-168 | ignores stale and repeated timeouts, amplifies at exactly f+1 and returns a TC at exactly the quorum |
| PacemakerImpl.Pacemaker.GatherVotes | diem/pacemaker.go:156-166 | one vote per timeout, each with its reported round and signature |
| PacemakerImpl.Pacemaker.AdvanceRoundTC | diem/pacemaker.go:172-180 | enters the round after a TC that is not stale and remembers it; otherwise nothing changes |
| PacemakerImpl.Pacemaker.AdvanceRoundQC | diem/pacemaker.go:185-193 | enters the round after a certificate that is not stale and forgets the TC; otherwise nothing changes |
| Outbound.SentMessagesVerifyInRuns | diem/core.go:222-316 | in every run each vote and timeout a correct replica sends passes every edge at every later time; a proposal does exactly when its certificate is below its round, and every replica with a lower vote counter may then vote for it |
| Outbound.SentMessagesVerify | diem/core.go:166-194 | the same for any single step of a healthy replica |
| Outbound.NewRoundAcceptable | diem/core.go:295-326 | a proposal made on entering a round, by certificate or TC, is well formed and votable exactly when its certificate is below the round |
| Outbound.TimeoutVerifies | diem/pacemaker.go:97-118 | every timeout broadcast passes VerifyTimeout |
| Outbound.VoteVerifies | diem/safety.go:116-157 | every vote sent passes VerifyVote |
| Duties.StepDutiful | diem/core.go:166-316 | everything a step signs is sent and everything it sends is signed for: votes only for a proposal whose sender and author are the leader expected for the replica's round, and only to the leader expected for the round after; proposals only as the expected leader; all with the highest certificates |
| Duties.ProposalVotes | diem/core.go:222-245 | a proposal is voted for exactly if it comes from the leader expected for the round, the rules allow it, the block is executed and signing succeeds; from anyone else it is neither stored nor answered |
| Duties.StepProposes | diem/core.go:260-316 | a step proposes exactly if it completed a certificate and entered the round after, or completed a TC, and leads that round and can sign |
| Duties.StartDutiful | diem/core.go:143-146 | a replica that starts is in round 1 and proposes exactly if it leads it and can sign |
| Duties.StepRequests | diem/core.go:253-258 | a block is asked for exactly if the inserted block is held, and it is an ancestor the replica lacks, with every block between held |
| Duties.StepServes | diem/core.go:198-204 | a request is answered with a block of that id from the pending tree or the last `history` committed blocks, with none exactly if neither has one, and changes nothing |
| Duties.VoteWindow | diem/core.go:273-277 | votes more than four rounds ahead or more than one behind change nothing, and every other is counted or completes a certificate |
| LaggingLeader.LaggingLeaderProposesInVain | diem/core.go:273-316 | whatever leaders are elected, there is a run of four replicas with one faulty and validators listed as the constructor sorts them, whose last step is a correct leader sending a proposal that no replica accepts under any keyring |
| Rounds.SigningDiscipline | diem/core.go:260-316 | in every run shorter than 2^64-1 actions a replica's proposals are in strictly increasing rounds, its statements are in order, and it holds timeouts for the current round only |
| Rounds.VotingDiscipline | diem/safety.go:69-78 | in every run of any length a replica's votes are in strictly increasing rounds and never at or below a round it has given up |
| Rounds.RoundsInRuns | diem/core.go:222-271 | in every such run no step lowers the round, and handling a proposal or timeout for a round leaves the replica in that round or later |
| Rounds.GivesUpOnce | diem/pacemaker.go:127-168 | in every such run the timeouts of one round make a replica amplify at most once and complete at most one TC, despite duplicates and retransmission |
| Rounds.ThresholdsAreCounts | diem/pacemaker.go:149-154 | handling a timeout returns a TC exactly when it brings the count to the quorum, re-arms exactly when it brings it to f+1, and otherwise signs and sends nothing |
| Ceiling.RoundsRiseSlowly | diem/pacemaker.go:172-193 | after i actions of a run no correct replica has signed for a round above i or entered one above i+1, so no verified event names round 2^64-1 |
| Rounds.AdvancesUnlessLargest | diem/pacemaker.go:172-193 | a certificate that is not stale raises the round exactly when its round is not the largest uint64 |
| Timers.TimerAlwaysPending | diem/pacemaker.go:67-102 | between start and stop, after every action exactly one timer of the current epoch is armed or queued, and all other queued ones are older |
| Timers.TimerFiresOnce | diem/core.go:178-188 | a timer causes at most one local timeout, however long its event waits |
| Timers.StepRearms | diem/pacemaker.go:78-118 | a step leaves the timer alone or arms a fresh one, and an accepted local timeout always re-arms |
| Timers.StoppedForGood | diem/pacemaker.go:67-73 | after a stop nothing armed or queued is of the current epoch |
| Election.ElectedIsCandidate | diem/leader.go:94-132 | an election succeeds exactly when a window signer is left after the exclusions, and picks such a signer by its rank |
| Election.ElectedIsNotRecent | diem/leader.go:94-132 | before any block of the elected id the walk saw at least `exclude` other authors; if the elected one is among t faulty replicas, at least exclude - t + 1 honest ones |
| Election.ElectedUnique | diem/leader.go:138-143 | at most one candidate has a given index, so the pick depends on the set and the seed alone |
| Election.LastAuthorsBounded | diem/leader.go:94-132 | at most `exclude` authors are held out, all of them authors of visited blocks |
| Election.ExcludedIsAuthors | diem/leader.go:110-112 | the excluded set is short of its size exactly while the authors seen are, and is then all of them |
| Election.TrailEndsAt | diem/leader.go:98-116 | what the loop visits is the stops up to the first turn on which it leaves |
| Election.ReplicasElectAlike | diem/leader.go:94-132 | two replicas that visit the same blocks until the loop leaves elect the same leader, whatever else they retain |
| Election.WalkEndsIff | diem/leader.go:94-116 | the walk ends exactly when it does not revisit a block while short of excluded authors |
| Election.SmallExclusionEnds | diem/leader.go:94-116 | with an exclusion of at most one author every walk ends, on every ledger |
| Election.VerifiedDescends | diem/leader.go:94-116 | over committed blocks whose certificates verify, every stop is in a lower round |
| Election.DescentEnds | diem/leader.go:94-116 | a walk whose stops descend ends |
| Election.WalkMayNotEnd | diem/leader.go:94-116 | there is a block with a valid id and a well-sized parent that a new ledger can commit and after which no walk that starts at it ends, for any certificate, window and retention and any exclusion of at least two |
| EndlessWalk.WalkNeverEndsInSomeRun | diem/leader.go:67-116 | there is a run of four replicas with one faulty and validators listed as the constructor sorts them, that brings a correct replica to a verified proposal on which a walk it starts never ends, for any window and retention and any exclusion of at least two |
| Election.CertifiedRound | diem/verify.go:57-87 | a verified certificate states the true round of the block it certifies |
| Reputation.LeadersBounded | diem/leader.go:67-85 | in every run shorter than 2^64-1 actions at most two rounds have a remembered leader, none beyond the next round |
| LeaderTable.ElectionCounts | diem/leader.go:67-85 | a contiguous 2-chain exactly one round behind, on which an id is elected, makes that id the leader expected for the round after the current one; no other expected leader from the current round on changes, and on any other certificate none does |
| LeaderTable.LeadersChangeByElection | diem/leader.go:67-85 | in every run shorter than 2^64-1 actions, the leader expected for a round not yet left changes only by an election on a contiguous 2-chain just met, exactly two rounds below |
| Reputation.WalkDescendsInRuns | diem/leader.go:94-116 | in every run whose fetched blocks verify, every stop over anything a replica stores is in a lower round |
| Reputation.WalksEndInRuns | diem/leader.go:94-116 | in every such run every walk a step starts ends |
| Walks.DescentWalksEnd | diem/core.go:210-217 | over a ledger whose stored blocks descend, every walk of every step ends |
| Reputation.ReplicasElectAlikeInRuns | diem/leader.go:94-132 | in every such run, two correct replicas that have committed up to the same block elect the same leader on a certificate |
| Reputation.RotationIsFair | diem/leader.go:54-59 | where no leader is elected, rounds 2k and 2k+1 share one, and every n consecutive k give each of the n positions exactly one turn |
| LeaderImpl.LeaderElection.Walk | diem/leader.go:94-116 | on every ledger on which the loop ends, it collects exactly the signers of the window and the last authors of everything visited before it leaves |
| LeaderImpl.LeaderElection.ElectReputationLeader | diem/leader.go:94-132 | on every such ledger, sorting and indexing the candidates elects the one of that rank, whatever order the map yields them in |
| LeaderImpl.LeaderElection.UpdateLeaders | diem/leader.go:67-85 | on a fresh contiguous 2-chain the elected id is filed under the round after the current one; entries of all other rounds from the current one on stay, and on any other certificate all do; requires the walk to end only when there is one |
| CoreImpl.Core.constructor | diem/core.go:80-119 | the modules are wired to each other over the sorted validators, a zero window means 10 and a zero exclusion max(f, 1), and the state is a new replica |
| CoreImpl.Core.Start | diem/core.go:143-146 | enters round 1 as the model does, with the same messages and signatures |
| CoreImpl.Core.Step | diem/core.go:166-194 | on every event whose walks end, the wired modules reach the model's state and produce the model's messages and signatures, in order |
| CoreImpl.Core.ServeBlock | diem/core.go:198-204 | answers from the pending tree, else from the retained committed blocks |
| CoreImpl.Core.ProcessCertificateQC | diem/core.go:210-217 | tree, leaders and pacemaker change in the model's order, and it reports whether the round moved |
| CoreImpl.Core.ProcessProposalMsg | diem/core.go:222-245 | reaches the model's state, messages and signatures; sends and signs nothing unless sender and author are the leader expected for the round, and sends a vote for that block only to the leader expected for the round after |
| CoreImpl.Core.Insert | diem/core.go:253-258 | inserts and requests the oldest missing ancestor as the model does |
| CoreImpl.Core.ProcessTimeoutMsg | diem/core.go:260-271 | absorbs, counts and, on a TC, advances and proposes as the model does |
| CoreImpl.Core.ProcessVoteMsg | diem/core.go:273-289 | drops votes outside the window, counts the rest, and proposes only if the round moved, as the model does |
| CoreImpl.Core.ProcessNewRoundEvent | diem/core.go:295-316 | proposes exactly when this replica leads and signing succeeds, as the model does |

## Left out

- Cryptography: SHA-256 and ECDSA are ideal, so collisions and forgeries do not exist in the model.
- Signature byte formats, key files, the transport, process lifecycle, flags, benchmarks and the event queues.
- Liveness after stabilisation, and the length of a timer: `Backoff` and wall-clock time are not modelled.
- Observability: `State`, `Observer` and how `DeclinedMissingAncestor` is read.
- Persistence and restarts: a replica starts once and keeps all of its state.
- The timer epoch is unbounded here and a uint64 in the source.
- Execution is one deterministic function whose results have the length of a hash, as `ExecuteHash` does.
- Absent sub-messages are zero values; only the fields the source tests for nil are optional.
- The `Sign` calls of the source become arguments that say what each returned; the payload source likewise.
- CoreImpl.Core.Step: requires that the reputation walks it starts end, because the source's loop does not return otherwise; `WalksEndInRuns` gives runs in which they always do, and `WalkNeverEndsInSomeRun` one in which one does not.
- LeaderImpl.LeaderElection.Walk: requires that the loop ends, for the same reason.
- Rounds.SigningDiscipline: is about runs shorter than 2^64-1 actions, because round 2^64-1 is followed by round 0.
- Rounds.GivesUpOnce: is about such runs, for the same reason.
- Rounds.RoundsInRuns: is about such runs, for the same reason.
- LeaderTable.LeadersChangeByElection: is about such runs, for the same reason.
- GivingUp.LocalTimeoutsAreAloud: is about such runs, for the same reason.
- GivingUp.CountersKeepUp: is about such runs, for the same reason.
- Reputation.LeadersBounded: is about such runs, for the same reason.
- Reputation.ReplicasElectAlikeInRuns: compares replicas with the same retention, window, exclusion and commit frontier; replicas at different frontiers may disagree until they catch up.
- Hashing.DigestParentIsFixed: relies on digests being indivisible, so an over-long parent id that spells out a real digest byte by byte is not expressible here; such an id names no block.
- Arrival.ArrivalOrderIrrelevant: is about blocks with well-sized parent ids; fetched blocks need not have one, and one without is never connected (`UnsizedNeverReady`).
