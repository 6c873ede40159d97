// What a replica's ledger comes to store over a run: only delivered blocks, none held without need,
// and genuine ones if those that block sync delivers are.
module Storage {
  import opened Wire
  import opened Hashing
  import opened Verification
  import opened Chains
  import opened LedgerModel
  import opened Arrival
  import opened SafetyRules
  import opened Agreement
  import opened TreeModel
  import P = PacemakerModel
  import opened ReplicaModel
  import opened System
  import opened Election

  lemma RemoteTimeoutKeepsRest(cfg: Config, k: Keyring, r: Replica, info: TimeoutInfo, sig: Option<Blob>)
    ensures var (o, tc) := ProcessRemoteTimeout(cfg, k, r, info, sig);
            && o.replica.leaders == r.leaders && o.replica.pacemaker.currentRound == r.pacemaker.currentRound
            && o.replica.ledger == r.ledger
            && (tc.Some? ==> tc.value.round == info.round)
  {
    hide LocalTimeoutRound;
    hide P.BucketWith;
    LocalTimeoutKeepsRest(cfg, k, r.(pacemaker := P.Stop(P.Collect(r.pacemaker, info))), sig);
  }

  lemma LocalTimeoutKeepsRest(cfg: Config, k: Keyring, r: Replica, sig: Option<Blob>)
    ensures var r' := LocalTimeoutRound(cfg, k, r, sig).replica;
            r'.leaders == r.leaders && r'.ledger == r.ledger && r'.pacemaker.currentRound == r.pacemaker.currentRound
  {
    hide MayTimeout;
  }

  // --------------------------------------------------------------- what comes to be stored

  ghost predicate Delivers(e: Event, b: Block) {
    (e.ProposalEvent? && e.proposal.block == b) || (e.BlockEvent? && e.block == b)
  }

  /** Commits keep `p`, and so does speculating what `e` delivers. */
  ghost predicate LedgerStable(p: Ledger -> bool, e: Event) {
    && (forall l, id :: p(l) ==> p(Commit(l, id)))
    && (forall l, b :: p(l) && Delivers(e, b) ==> p(Speculate(l, b)))
  }

  lemma TreeQCKeeps(r: Replica, qc: Option<QuorumCert>, e: Event, p: Ledger -> bool)
    requires LedgerStable(p, e) && p(r.ledger)
    ensures p(ProcessTreeQC(r, qc).ledger)
  {
    hide Commit;
    hide Speculate;
  }

  lemma CertificateKeeps(cfg: Config, r: Replica, qc: Option<QuorumCert>, e: Event, p: Ledger -> bool)
    requires LedgerStable(p, e) && p(r.ledger)
    ensures p(ProcessCertificateQC(cfg, r, qc).0.ledger)
  {
    hide ProcessTreeQC;
    hide UpdateLeaders;
    hide LedgerStable;
    TreeQCKeeps(r, qc, e, p);
  }

  lemma AbsorbKeeps(cfg: Config, r: Replica, qc: Option<QuorumCert>, commitQC: Option<QuorumCert>,
                    tc: Option<TimeoutCert>, e: Event, p: Ledger -> bool)
    requires LedgerStable(p, e) && p(r.ledger)
    ensures p(Absorb(cfg, r, qc, commitQC, tc).ledger)
  {
    hide ProcessCertificateQC;
    hide LedgerStable;
    CertificateKeeps(cfg, r, qc, e, p);
    CertificateKeeps(cfg, ProcessCertificateQC(cfg, r, qc).0, commitQC, e, p);
  }

  lemma VoteKeeps(cfg: Config, r: Replica, m: VoteMsg, inputs: Inputs, e: Event, p: Ledger -> bool)
    requires LedgerStable(p, e) && p(r.ledger)
    ensures p(HandleVote(cfg, r, m, inputs).replica.ledger)
  {
    hide ProcessTreeQC;
    hide ProcessCertificateQC;
    hide ProcessVote;
    hide LedgerStable;
    TreeQCKeeps(r, m.highCommitQc, e, p);
    var r1 := ProcessTreeQC(r, m.highCommitQc);
    var (tree, qc) := ProcessVote(cfg.self, cfg.Quorum(), r1.tree, m, inputs.authorSig);
    CertificateKeeps(cfg, r1.(tree := tree), qc, e, p);
  }

  /** Whatever commits and the event's own block keep, the step keeps. */
  lemma StepKeeps(cfg: Config, k: Keyring, r: Replica, e: Event, inputs: Inputs, p: Ledger -> bool)
    requires LedgerStable(p, e) && p(r.ledger)
    ensures p(Step(cfg, k, r, e, inputs).replica.ledger)
  {
    hide HandleVote;
    hide Absorb;
    hide ProcessRemoteTimeout;
    hide MayTimeout;
    hide BallotFor;
    hide Speculate;
    hide Commit;
    match e
    case ProposalEvent(m) => AbsorbKeeps(cfg, r, m.block.qc, m.highCommitQc, m.lastRoundTc, e, p);
    case VoteEvent(m) => VoteKeeps(cfg, r, m, inputs, e, p);
    case TimeoutEvent(m) =>
      AbsorbKeeps(cfg, r, m.tmoInfo.highQc, m.highCommitQc, m.lastRoundTc, e, p);
      RemoteTimeoutKeepsRest(cfg, k, Absorb(cfg, r, m.tmoInfo.highQc, m.highCommitQc, m.lastRoundTc), m.tmoInfo,
                             inputs.timeoutSig);
    case LocalTimeoutEvent(_) =>
    case BlockEvent(_) =>
    case BlockRequestEvent(_) =>
  }

  /** A step stores nothing but the block its event delivers. */
  lemma StepStores(cfg: Config, k: Keyring, r: Replica, e: Event, inputs: Inputs, x: Block)
    requires Stored(Step(cfg, k, r, e, inputs).replica.ledger, x)
    ensures Stored(r.ledger, x) || Delivers(e, x)
  {
    hide Step;
    hide Stored;
    hide Commit;
    hide Speculate;
    var p := (l: Ledger) => Stored(l, x) ==> Stored(r.ledger, x) || Delivers(e, x);
    forall l, id | p(l) ensures p(Commit(l, id)) { if Stored(Commit(l, id), x) { CommitStores(l, id, x); } }
    forall l, b | p(l) && Delivers(e, b) ensures p(Speculate(l, b)) {
      if Stored(Speculate(l, b), x) { SpeculateStores(l, b, x); }
    }
    StepKeeps(cfg, k, r, e, inputs, p);
  }

  /** A step leaves no held block at or below the commit round. */
  lemma StepKeepsHigh(cfg: Config, k: Keyring, r: Replica, e: Event, inputs: Inputs)
    requires LedgerInv(r.ledger) && HeldHigh(r.ledger) && VerifiedEvent(k, e)
    ensures HeldHigh(Step(cfg, k, r, e, inputs).replica.ledger)
  {
    hide Step;
    hide Commit;
    hide Speculate;
    hide HeldHigh;
    hide LedgerInv;
    hide BlockId;
    var p := (l: Ledger) => LedgerInv(l) && HeldHigh(l);
    forall l, id | p(l) ensures p(Commit(l, id)) {
      CommitInv(l, id);
      CommitKeepsHigh(l, id);
    }
    forall l, b | p(l) && Delivers(e, b) ensures p(Speculate(l, b)) {
      SpeculateInv(l, b);
      SpeculateKeepsHigh(l, b);
    }
    StepKeeps(cfg, k, r, e, inputs, p);
  }

  // ------------------------------------------------------------------------ genuine blocks

  /** Genesis, or a block whose certificate verifies. */
  ghost predicate Genuine(k: Keyring, b: Block) { b == GENESIS_BLOCK || Checked(k, b) }

  ghost predicate StoresGenuine(k: Keyring, l: Ledger) { forall b :: Stored(l, b) ==> Genuine(k, b) }

  /** Every block that block sync delivered carries a verified certificate for a lower round. The
      edge checks this of proposals and not of fetched blocks. */
  ghost predicate FetchesChecked(states: seq<SystemState>, actions: seq<Action>)
    requires |states| == |actions| + 1
  {
    forall i :: 0 <= i < |actions| && actions[i].Handle? && actions[i].event.BlockEvent?
      ==> Checked(states[i].world.keys, actions[i].event.block)
  }

  lemma CheckedGrows(k: Keyring, k': Keyring, b: Block)
    requires Grows(k, k') && Genuine(k, b)
    ensures Genuine(k', b)
  {
    hide VerifyQC;
    hide BlockId;
    if b != GENESIS_BLOCK { VerifyQCGrows(k, k', b.qc.value); }
  }

  lemma VerifiedProposalIsChecked(k: Keyring, p: ProposalMsg)
    requires VerifyProposal(k, p)
    ensures Checked(k, p.block)
  {
    hide BlockId;
  }

  lemma StepGenuine(cfg: Config, k: Keyring, k': Keyring, r: Replica, e: Event, inputs: Inputs)
    requires StoresGenuine(k, r.ledger) && VerifiedEvent(k, e) && Grows(k, k')
    requires e.BlockEvent? ==> Checked(k, e.block)
    ensures StoresGenuine(k', Step(cfg, k, r, e, inputs).replica.ledger)
  {
    hide Step;
    hide Stored;
    hide Checked;
    hide VerifyProposal;
    var l := Step(cfg, k, r, e, inputs).replica.ledger;
    forall b | Stored(l, b) ensures Genuine(k', b) {
      StepStores(cfg, k, r, e, inputs, b);
      if e.ProposalEvent? { VerifiedProposalIsChecked(k, e.proposal); }
      CheckedGrows(k, k', b);
    }
  }

  lemma NewLedgerGenuine(cfg: Config, k: Keyring, inputs: Inputs)
    ensures StoresGenuine(k, Start(cfg, inputs).replica.ledger)
  {
    hide BlockId;
    hide BlockPreimage;
  }

  lemma NextGenuine(net: Network, s: SystemState, a: Action, r: Id)
    requires ValidNetwork(net) && SystemInv(net, s) && Enabled(net, s, a)
    requires a.Handle? && a.event.BlockEvent? ==> Checked(s.world.keys, a.event.block)
    requires r in s.replicas ==> StoresGenuine(s.world.keys, s.replicas[r].ledger)
    requires r in Next(net, s, a).replicas
    ensures StoresGenuine(Next(net, s, a).world.keys, Next(net, s, a).replicas[r].ledger)
  {
    hide SystemInv;
    hide StoresGenuine;
    hide VerifiedEvent;
    hide Checked;
    hide Step;
    hide Start;
    NextInv(net, s, a);
    var k, k' := s.world.keys, Next(net, s, a).world.keys;
    if a.who != r {
      StoresGenuineGrows(k, k', s.replicas[r].ledger);
    } else {
      match a
      case StartUp(_, inputs) => NewLedgerGenuine(net.configs[r], k', inputs);
      case Handle(_, e, inputs) => StepGenuine(net.configs[r], k, k', s.replicas[r], e, inputs);
    }
  }

  lemma StoresGenuineGrows(k: Keyring, k': Keyring, l: Ledger)
    requires Grows(k, k') && StoresGenuine(k, l)
    ensures StoresGenuine(k', l)
  {
    hide Stored;
    hide Checked;
    forall b | Stored(l, b) ensures Genuine(k', b) { CheckedGrows(k, k', b); }
  }

  lemma {:induction false} RunGenuine(net: Network, states: seq<SystemState>, actions: seq<Action>, i: nat, r: Id)
    requires ValidNetwork(net) && IsRun(net, states, actions) && FetchesChecked(states, actions)
    requires i < |states| && r in states[i].replicas
    ensures StoresGenuine(states[i].world.keys, states[i].replicas[r].ledger)
  {
    hide SystemInv;
    hide StoresGenuine;
    hide Checked;
    hide Next;
    if i > 0 {
      RunInv(net, states, actions, i - 1);
      if r in states[i - 1].replicas { RunGenuine(net, states, actions, i - 1, r); }
      NextGenuine(net, states[i - 1], actions[i - 1], r);
    }
  }

  lemma NextHigh(net: Network, s: SystemState, a: Action, r: Id)
    requires ValidNetwork(net) && SystemInv(net, s) && Enabled(net, s, a)
    requires r in s.replicas ==> HeldHigh(s.replicas[r].ledger)
    requires r in Next(net, s, a).replicas
    ensures HeldHigh(Next(net, s, a).replicas[r].ledger)
  {
    hide SystemInv;
    hide VerifiedEvent;
    hide Step;
    hide LedgerInv;
    if a.Handle? && a.who == r {
      RunLedgers(net, s, r);
      StepKeepsHigh(net.configs[r], s.world.keys, s.replicas[r], a.event, a.inputs);
    }
  }

  lemma {:induction false} RunHigh(net: Network, states: seq<SystemState>, actions: seq<Action>, i: nat, r: Id)
    requires ValidNetwork(net) && IsRun(net, states, actions) && i < |states| && r in states[i].replicas
    ensures HeldHigh(states[i].replicas[r].ledger)
  {
    hide SystemInv;
    hide Next;
    hide HeldHigh;
    if i > 0 {
      RunInv(net, states, actions, i - 1);
      if r in states[i - 1].replicas { RunHigh(net, states, actions, i - 1, r); }
      NextHigh(net, states[i - 1], actions[i - 1], r);
    }
  }

  /** In every run whose fetched blocks verify, every ledger is one whose arrival orders
      `ArrivalOrderIrrelevant` decides. */
  lemma SoundInRuns(net: Network, states: seq<SystemState>, actions: seq<Action>, i: nat, r: Id)
    requires ValidNetwork(net) && IsRun(net, states, actions) && FetchesChecked(states, actions)
    requires i < |states| && r in states[i].replicas
    ensures Sound(states[i].replicas[r].ledger)
  {
    hide SystemInv;
    hide Next;
    hide HeldHigh;
    hide LedgerInv;
    hide VerifyQC;
    hide BlockId;
    RunInv(net, states, actions, i);
    RunLedgers(net, states[i], r);
    RunHigh(net, states, actions, i, r);
    RunGenuine(net, states, actions, i, r);
    GenuineIsSized(states[i].world.keys, states[i].replicas[r].ledger);
  }

  lemma GenuineIsSized(k: Keyring, l: Ledger)
    requires StoresGenuine(k, l)
    ensures WellSized(l.pending) && WellSized(l.held)
  {
    GenesisNamed();
    hide BlockId;
    hide VerifyQC;
    forall x | x in l.pending ensures ValidHash(ParentId(l.pending[x])) {
      assert l.pending[x] in l.pending.Values;
      assert Stored(l, l.pending[x]);
    }
    forall x | x in l.held ensures ValidHash(ParentId(l.held[x])) {
      assert l.held[x] in l.held.Values;
      assert Stored(l, l.held[x]);
    }
  }

  lemma RunLedgers(net: Network, s: SystemState, a: Id)
    requires SystemInv(net, s) && a in s.replicas
    ensures LedgerInv(s.replicas[a].ledger)
  {
    hide WorldInv;
    hide TreeInv;
    hide Covers;
  }

  lemma RunWorld(net: Network, s: SystemState)
    requires SystemInv(net, s)
    ensures WorldInv(net.execute, s.world)
  { }

  // ------------------------------------------------------------------- copies of one block

  /** Two verified certificates for one block say the same. */
  lemma CertsAgree(execute: Execution, w: World, p: QuorumCert, q: QuorumCert)
    requires WorldInv(execute, w) && VerifyQC(w.keys, p) && VerifyQC(w.keys, q) && p.voteInfo.id == q.voteInfo.id
    ensures p.voteInfo == q.voteInfo && p.ledgerCommitInfo == q.ledgerCommitInfo
  {
    hide BlockId;
    hide WorldInv;
    if p.voteInfo.round == 0 && q.voteInfo.round == 0 {
    } else if p.voteInfo.round == 0 {
      var _, s := CorrectVoter(execute, w, q);
      GenesisRoundZero(s.block);
    } else if q.voteInfo.round == 0 {
      var _, s := CorrectVoter(execute, w, p);
      GenesisRoundZero(s.block);
    } else {
      var _, s := CorrectVoter(execute, w, p);
      var _, t := CorrectVoter(execute, w, q);
      BlockIdInjective(s.block, t.block);
      OneCertificatePerRound(execute, w, p, q);
    }
  }

  lemma {:induction false} SignerAtLeast(sigs: seq<Signature>, i: nat)
    requires Ordered(sigs) && i < |sigs|
    ensures sigs[i].signer >= i
  {
    if i > 0 { SignerAtLeast(sigs, i - 1); }
  }

  lemma VerifiedIsShort(k: Keyring, qc: QuorumCert)
    requires VerifyQC(k, qc)
    ensures |qc.signatures| <= MAX_U64
  {
    hide VoteInfoHash;
    hide LedgerCommitDigest;
    hide QcSigsDigest;
    if |qc.signatures| > 0 && qc.voteInfo.round > 0 { SignerAtLeast(qc.signatures, |qc.signatures| - 1); }
  }

  /** A block without the two fields that say who assembled its certificate. */
  ghost function Plain(b: Block): Block {
    if b.qc.None? then b else b.(qc := Some(b.qc.value.(author := 0, authorSig := None)))
  }

  /** Two genuine copies of one block differ in who assembled the certificate, if at all. */
  lemma GenuineCopies(execute: Execution, w: World, b: Block, c: Block)
    requires WorldInv(execute, w) && Genuine(w.keys, b) && Genuine(w.keys, c) && b.id == c.id
    ensures b.qc.Some? && c.qc.Some? && Plain(b) == Plain(c)
  {
    GenesisNamed();
    hide BlockId;
    hide WorldInv;
    hide VerifyQC;
    BlockIdInjective(b, c);
    if b != GENESIS_BLOCK && c != GENESIS_BLOCK {
      CertsAgree(execute, w, b.qc.value, c.qc.value);
      VerifiedIsShort(w.keys, b.qc.value);
      VerifiedIsShort(w.keys, c.qc.value);
    }
  }

  // ------------------------------------------------------------------- orders of arrival

  ghost predicate AllChecked(k: Keyring, bs: seq<Block>) { forall b :: b in bs ==> Checked(k, b) }

  ghost predicate AllGenuineIn(k: Keyring, blocks: map<Hash, Block>) {
    forall x :: x in blocks ==> Genuine(k, blocks[x])
  }

  lemma FrontierIsValid(l: Ledger)
    requires LedgerInv(l)
    ensures ValidBlockId(Frontier(l)) && CommitId(l).Sha?
  {
    hide BlockPreimage;
    LogIdsAreShas(l.log, |l.log| - 1);
  }

  /** Over genuine blocks rounds rise along every path from the frontier. */
  lemma {:induction false} RisesAbove(execute: Execution, w: World, l: Ledger, blocks: map<Hash, Block>, x: Hash)
    requires WorldInv(execute, w) && LedgerInv(l) && Filed(blocks) && AllGenuineIn(w.keys, blocks)
    requires Reaches(blocks, CommitId(l), x)
    ensures blocks[x].round > CommitRound(l)
    decreases Height(x)
  {
    hide BlockId;
    hide WorldInv;
    hide VerifyQC;
    FrontierIsValid(l);
    var b := blocks[x];
    var p := ParentId(b);
    assert p == CommitId(l) || p == blocks[p].id;
    if p != CommitId(l) { FiledId(blocks, p); }
    NotGenesis(b);
    if p == CommitId(l) {
      CertifiedRound(execute, w, b.qc.value, Frontier(l));
    } else {
      RisesAbove(execute, w, l, blocks, p);
      CertifiedRound(execute, w, b.qc.value, blocks[p]);
    }
  }

  lemma FiledId(blocks: map<Hash, Block>, x: Hash)
    requires Filed(blocks) && x in blocks
    ensures x.Sha?
  { }

  lemma NotGenesis(b: Block)
    requires ParentId(b).Sha?
    ensures b != GENESIS_BLOCK
  {
    hide BlockId;
  }

  /** A block with a verified certificate is never dropped for coming before its parent. */
  lemma CheckedIsPlaced(execute: Execution, w: World, l: Ledger, bs: seq<Block>, b: Block)
    requires WorldInv(execute, w) && Sound(l) && StoresGenuine(w.keys, l) && AllChecked(w.keys, bs) && b in bs
    ensures Deliverable(b) && Placed(l, bs, b)
  {
    hide BlockId;
    hide WorldInv;
    hide VerifyQC;
    hide Reaches;
    var joined, p := AddAll(Known(l), bs), ParentId(b);
    assert forall c :: c in bs ==> Deliverable(c);
    JoinedIsFiled(l, bs);
    JoinedIsGenuine(w.keys, l, bs);
    hide AddAll;
    if !Stays(l, b) && Reaches(joined, CommitId(l), p) {
      RisesAbove(execute, w, l, joined, p);
      ReachedIsFiled(joined, CommitId(l), p);
      CertifiedRound(execute, w, b.qc.value, joined[p]);
    }
  }

  lemma ReachedIsFiled(blocks: map<Hash, Block>, root: Hash, x: Hash)
    requires Filed(blocks) && Reaches(blocks, root, x)
    ensures x in blocks && blocks[x].id == x && ValidBlockId(blocks[x])
  { }

  lemma JoinedIsGenuine(k: Keyring, l: Ledger, bs: seq<Block>)
    requires StoresGenuine(k, l) && AllChecked(k, bs)
    ensures AllGenuineIn(k, AddAll(Known(l), bs))
  {
    hide Checked;
    AddAllContents(Known(l), bs);
    hide AddAll;
    var joined := AddAll(Known(l), bs);
    forall x | x in joined ensures Genuine(k, joined[x]) {
      if joined[x] !in bs { KnownIsStored(l, x); }
    }
  }

  lemma KnownIsStored(l: Ledger, x: Hash)
    requires x in Known(l)
    ensures Stored(l, Known(l)[x])
  {
    if x in l.pending { assert l.pending[x] in l.pending.Values; }
    else { assert l.held[x] in l.held.Values; }
  }

  ghost function PlainMap(m: map<Hash, Block>): map<Hash, Block> { map k | k in m :: Plain(m[k]) }

  ghost predicate SameButAuthors(l: Ledger, m: Ledger) {
    l.log == m.log && PlainMap(l.pending) == PlainMap(m.pending) && PlainMap(l.held) == PlainMap(m.held)
  }

  /** Ledgers that know the same blocks, up to who assembled the certificates, are the same up to that. */
  lemma KnownAlike(l: Ledger, m: Ledger)
    requires Sound(l) && Sound(m) && l.log == m.log && PlainMap(Known(l)) == PlainMap(Known(m))
    ensures SameButAuthors(l, m)
  {
    hide Sound;
    hide Reaches;
    var x, y := Known(l), Known(m);
    forall k ensures k in x <==> k in y { assert k in PlainMap(x) <==> k in PlainMap(y); }
    forall k | k in x ensures Plain(x[k]) == Plain(y[k]) && ParentId(x[k]) == ParentId(y[k]) {
      assert PlainMap(x)[k] == PlainMap(y)[k];
    }
    forall k | k in x ensures k in l.pending <==> k in m.pending {
      PendingIsConnected(l, k);
      PendingIsConnected(m, k);
      if Reaches(x, CommitId(l), k) { ReachesGrows(x, y, CommitId(l), k); }
      if Reaches(y, CommitId(l), k) { ReachesGrows(y, x, CommitId(l), k); }
    }
    forall k ensures k in l.held ==> k !in l.pending {
      if k in l.held { HeldNotPending(l, k); }
    }
    forall k ensures k in m.held ==> k !in m.pending {
      if k in m.held { HeldNotPending(m, k); }
    }
    PartsAlike(l.held, l.pending, m.held, m.pending);
  }

  lemma PartsAlike(a: map<Hash, Block>, b: map<Hash, Block>, c: map<Hash, Block>, d: map<Hash, Block>)
    requires (forall k :: k in a + b <==> k in c + d) && forall k :: k in a + b ==> (k in b <==> k in d)
    requires (forall k :: k in a ==> k !in b) && forall k :: k in c ==> k !in d
    requires forall k :: k in a + b ==> Plain((a + b)[k]) == Plain((c + d)[k])
    ensures PlainMap(a) == PlainMap(c) && PlainMap(b) == PlainMap(d)
  {
    hide Plain;
    forall k ensures k in b <==> k in d {
      assert k in b ==> k in a + b;
      assert k in d ==> k in c + d;
    }
    forall k ensures k in a <==> k in c {
      assert k in a ==> k in a + b && k !in b;
      assert k in c ==> k in c + d && k !in d;
    }
    forall k | k in b ensures Plain(b[k]) == Plain(d[k]) { assert (a + b)[k] == b[k] && (c + d)[k] == d[k]; }
    forall k | k in a ensures Plain(a[k]) == Plain(c[k]) { assert (a + b)[k] == a[k] && (c + d)[k] == c[k]; }
  }

  /** Blocks with verified certificates leave the same ledger in every order, up to who assembled the
      certificates of the copies that arrived last. */
  lemma CheckedOrdersAgree(execute: Execution, w: World, l: Ledger, bs: seq<Block>, cs: seq<Block>)
    requires WorldInv(execute, w) && Sound(l) && StoresGenuine(w.keys, l) && AllChecked(w.keys, bs)
    requires SameBlocks(bs, cs)
    ensures SameButAuthors(SpeculateAll(l, bs), SpeculateAll(l, cs))
  {
    hide WorldInv;
    hide Sound;
    hide Checked;
    hide Placed;
    hide Known;
    hide SpeculateAll;
    forall b | b in bs ensures Deliverable(b) && Placed(l, bs, b) { CheckedIsPlaced(execute, w, l, bs, b); }
    AllArrive(l, bs);
    AllArrive(l, cs);
    PlacedArrive(l, bs, bs);
    PlacedArrive(l, bs, cs);
    KeepersAre(l, bs);
    KeepersAre(l, cs);
    JoinsAlike(execute, w, l, Keepers(l, bs), Keepers(l, cs));
    KnownAlike(SpeculateAll(l, bs), SpeculateAll(l, cs));
  }

  lemma JoinsAlike(execute: Execution, w: World, l: Ledger, bs: seq<Block>, cs: seq<Block>)
    requires WorldInv(execute, w) && Sound(l) && StoresGenuine(w.keys, l) && AllChecked(w.keys, bs)
    requires SameBlocks(bs, cs)
    ensures PlainMap(AddAll(Known(l), bs)) == PlainMap(AddAll(Known(l), cs))
  {
    hide WorldInv;
    hide BlockId;
    hide VerifyQC;
    hide Plain;
    var x, y := AddAll(Known(l), bs), AddAll(Known(l), cs);
    JoinedIsFiled(l, bs);
    JoinedIsFiled(l, cs);
    JoinedIsGenuine(w.keys, l, bs);
    JoinedIsGenuine(w.keys, l, cs);
    AddAllContents(Known(l), bs);
    AddAllContents(Known(l), cs);
    hide AddAll;
    forall k ensures k in x <==> k in y {
      if b :| b in bs && b.id == k { assert b in cs; }
      if b :| b in cs && b.id == k { assert b in bs; }
    }
    forall k | k in x ensures Plain(x[k]) == Plain(y[k]) { GenuineCopies(execute, w, x[k], y[k]); }
  }

  /** In every run whose fetched blocks verify, blocks that verify are never lost by coming early, and
      arrive to the same effect in every order, up to who assembled a certificate. */
  lemma OrdersAgreeInRuns(net: Network, states: seq<SystemState>, actions: seq<Action>, i: nat, r: Id,
                          bs: seq<Block>, cs: seq<Block>)
    requires ValidNetwork(net) && IsRun(net, states, actions) && FetchesChecked(states, actions)
    requires i < |states| && r in states[i].replicas
    requires AllChecked(states[i].world.keys, bs) && SameBlocks(bs, cs)
    ensures var l := states[i].replicas[r].ledger;
            && (forall b :: b in bs ==> Placed(l, bs, b))
            && SameButAuthors(SpeculateAll(l, bs), SpeculateAll(l, cs))
  {
    hide SystemInv;
    hide Next;
    hide Sound;
    hide Checked;
    hide StoresGenuine;
    hide SameButAuthors;
    hide Placed;
    var w, l := states[i].world, states[i].replicas[r].ledger;
    RunInv(net, states, actions, i);
    RunWorld(net, states[i]);
    SoundInRuns(net, states, actions, i, r);
    RunGenuine(net, states, actions, i, r);
    forall b | b in bs ensures Placed(l, bs, b) { CheckedIsPlaced(net.execute, w, l, bs, b); }
    CheckedOrdersAgree(net.execute, w, l, bs, cs);
  }
}
