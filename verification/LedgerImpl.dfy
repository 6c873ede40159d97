// diem/ledger.go: the in-memory ledger, its maps updated in place.
module LedgerImpl {
  import opened Wire
  import opened Hashing
  import opened Chains
  import opened LedgerModel
  import Quorums

  datatype Speculated = Speculated(block: Block, state: Hash)

  ghost function BlocksOf(m: map<Hash, Speculated>): map<Hash, Block> { map k | k in m :: m[k].block }

  /** Every stored state is re-execution from genesis. */
  ghost predicate TrueStates(execute: Execution, m: map<Hash, Speculated>) {
    forall k :: k in m ==> m[k].state == Replay(execute, k)
  }

  /** `committed` holds exactly the blocks of `kept`, by id. */
  ghost predicate Stores(committed: map<Hash, Block>, kept: seq<Block>) {
    && (forall i :: 0 <= i < |kept| ==> kept[i].id in committed && committed[kept[i].id] == kept[i])
    && (forall k :: k in committed ==> exists i :: 0 <= i < |kept| && kept[i].id == k)
  }

  // ------------------------------------------------------------------------------ lemmas

  /** A block over a chain above genesis executes on its parent's state. */
  lemma ReplayOver(b: Block)
    requires Names(b.id, b) && Height(b.id) > Height(GENESIS_BLOCK.id)
    ensures forall e: Execution :: Replay(e, b.id) == e(Replay(e, ParentId(b)), b.payload)
  {
    ChainStep(b);
  }

  lemma ReadyIsAboveGenesis(l: Ledger, id: Hash)
    requires LedgerInv(l) && Ready(l, id)
    ensures id.Sha? && Height(id) >= Height(GENESIS_BLOCK.id)
  {
    hide BlockId;
    var last := |l.log| - 1;
    LogIdsAreShas(l.log, last);
    if last > 0 { LogAscends(l.log, 0, last); }
    if id in l.pending {
      PendingReaches(l, id);
      FiledAreShas(l.pending, id);
    }
  }

  lemma FiledAreShas(blocks: map<Hash, Block>, id: Hash)
    requires Filed(blocks) && id in blocks
    ensures id.Sha?
  { }

  /** A descendant-closed set that has all children of `root` has all its descendants. */
  lemma {:induction false} ClosedCovers(blocks: map<Hash, Block>, moved: set<Hash>, root: Hash, k: Hash)
    requires forall x :: x in blocks && ParentId(blocks[x]) == root ==> x in moved
    requires forall x :: x in blocks && ParentId(blocks[x]) in moved ==> x in moved
    requires Reaches(blocks, root, k)
    ensures k in moved
    decreases Height(k)
  {
    if ParentId(blocks[k]) != root { ClosedCovers(blocks, moved, root, ParentId(blocks[k])); }
  }

  /** Adopting one child and everything that waits on it extends the adopted set. */
  lemma AdoptChild(blocks: map<Hash, Block>, root: Hash, moved: set<Hash>, h: Hash, rest: map<Hash, Block>)
    requires Filed(blocks) && h in blocks && ParentId(blocks[h]) == root && h !in moved
    requires rest == blocks - moved - {h}
    requires forall x :: x in moved ==> Reaches(blocks, root, x)
    requires forall x :: x in blocks && ParentId(blocks[x]) in moved ==> x in moved
    ensures var moved' := moved + {h} + Waiting(rest, h).Keys;
            && (forall x :: x in moved' ==> Reaches(blocks, root, x))
            && (forall x :: x in blocks && ParentId(blocks[x]) in moved' ==> x in moved')
  {
    hide BlockId;
    var moved' := moved + {h} + Waiting(rest, h).Keys;
    forall x | x in moved' ensures Reaches(blocks, root, x) {
      if x in Waiting(rest, h) {
        ReachesGrows(rest, blocks, h, x);
        ReachesVia(blocks, root, h, x);
      }
    }
    forall x | x in blocks && ParentId(blocks[x]) in moved' ensures x in moved' {
      if x in rest { ParentBelow(rest[x]); }
    }
  }

  lemma {:induction false} ReachesVia(blocks: map<Hash, Block>, root: Hash, h: Hash, x: Hash)
    requires Filed(blocks) && h in blocks && ParentId(blocks[h]) == root && Reaches(blocks, h, x)
    ensures Reaches(blocks, root, x)
    decreases Height(x)
  {
    hide BlockId;
    ParentBelow(blocks[x]);
    if ParentId(blocks[x]) == h {
      assert Reaches(blocks, root, h);
    } else {
      ReachesVia(blocks, root, h, ParentId(blocks[x]));
    }
  }

  class MemLedger {
    const execute: Execution
    const history: nat

    var pending: map<Hash, Speculated>
    var held: map<Hash, Block>
    var committed: map<Hash, Block>
    var order: seq<Hash>
    var commitID: Hash
    var commitState: Hash

    /** Genesis and everything OnCommit has seen. */
    ghost var log: seq<Block>

    ghost function View(): Ledger
      reads this
      requires |log| > 0
    {
      LedgerData(BlocksOf(pending), held, log)
    }

    ghost predicate Valid()
      reads this
    {
      && history >= 1 && |log| > 0 && LedgerInv(View())
      && TrueStates(execute, pending)
      && commitID == CommitId(View()) && commitState == Replay(execute, commitID)
      && order == Ids(Retained(log, history)) && Stores(committed, Retained(log, history))
    }

    constructor (execute: Execution, history: nat)
      requires history >= 1
      ensures Valid() && View() == NEW_LEDGER
      ensures this.execute == execute && this.history == history
    {
      this.execute := execute;
      this.history := history;
      pending := map[];
      held := map[];
      committed := map[GENESIS_BLOCK.id := GENESIS_BLOCK];
      order := [GENESIS_BLOCK.id];
      commitID := GENESIS_BLOCK.id;
      commitState := GENESIS_STATE;
      log := [GENESIS_BLOCK];
      new;
      hide BlockId;
      hide LedgerInv;
      NewLedgerInv();
      assert log[..0] == [] && View() == NEW_LEDGER;
    }

    /** The state a child of `id` executes on; the frontier answers too. */
    method PendingState(id: Hash) returns (state: Hash, ok: bool)
      requires Valid()
      ensures ok == Ready(View(), id)
      ensures ok ==> state == Replay(execute, id)
      ensures LedgerModel.PendingState(execute, View(), id) == if ok then Some(state) else None
    {
      hide BlockId;
      if id == commitID {
        return commitState, true;
      }
      if id in pending {
        return pending[id].state, true;
      }
      return ZERO_HASH, false;
    }

    /** Adopts `b` and all of its held descendants, whatever order the map yields them in, each with
        its replayed state. */
    method Extend(b: Block, prev: Hash) returns (state: Hash)
      requires Filed(held) && TrueStates(execute, pending)
      requires Names(b.id, b) && Height(b.id) > Height(GENESIS_BLOCK.id) && prev == Replay(execute, ParentId(b))
      modifies this`pending, this`held
      ensures BlocksOf(pending) == old(BlocksOf(pending))[b.id := b] + Waiting(old(held), b.id)
      ensures held == old(held) - Waiting(old(held), b.id).Keys
      ensures TrueStates(execute, pending)
      ensures state == Replay(execute, b.id)
      decreases |held|
    {
      hide BlockId;
      hide Replay;
      hide Height;
      hide Adopting;
      hide Waiting;
      hide Filed;
      hide Names;
      ghost var H, base := held, BlocksOf(pending)[b.id := b];
      ghost var moved: set<Hash> := {};
      state := execute(prev, b.payload);
      ReplayOver(b);
      pending := pending[b.id := Speculated(b, state)];
      assert BlocksOf(pending) == base;
      var todo := held.Keys;
      AdoptStart(H, base, b.id);
      while todo != {}
        invariant Adopting(H, base, b.id, moved, todo, held, BlocksOf(pending))
        invariant held.Keys <= H.Keys && Filed(held) && TrueStates(execute, pending)
        decreases |todo|
      {
        var hid :| hid in todo;
        if hid in held && ParentId(held[hid]) == b.id {
          var h := held[hid];
          FiledAt(held, hid);
          AdoptStep(H, base, b.id, moved, todo, hid, held, BlocksOf(pending));
          held := held - {hid};
          ghost var rest := held;
          ChildIsAbove(b, h);
          KeysShrink(H, rest, hid);
          var _ := Extend(h, state);
          FiledFewer(rest, held);
          moved := moved + {hid} + Waiting(rest, hid).Keys;
        } else {
          AdoptSkip(H, base, b.id, moved, todo, hid, held, BlocksOf(pending));
        }
        todo := todo - {hid};
      }
      AdoptDone(H, base, b.id, moved, held, BlocksOf(pending));
    }

    /** The frontier's round, read from the committed store. */
    method CommitRoundNow() returns (round: Round)
      requires Valid()
      ensures round == CommitRound(View())
    {
      hide BlockId;
      FrontierStored(committed, log, history);
      round := committed[commitID].round;
    }

    /** The view becomes the specified one, and the result is the replay of `b`, or zero if `b` was not
        executed. */
    method Speculate(b: Block) returns (state: Hash)
      requires Valid() && ValidBlockId(b)
      modifies this`pending, this`held
      ensures Valid() && View() == LedgerModel.Speculate(old(View()), b)
      ensures state == if Ready(old(View()), ParentId(b)) then Replay(execute, b.id) else ZERO_HASH
    {
      hide BlockId;
      hide LedgerInv;
      hide Waiting;
      hide Names;
      hide Height;
      hide Replay;
      hide Stores;
      hide Retained;
      hide Filed;
      ghost var l := View();
      SpeculateInv(l, b);
      var prev, ok := PendingState(ParentId(b));
      if !ok {
        var round := CommitRoundNow();
        if QCRound(b.qc) > round {
          held := held[b.id := b];
        }
        assert View() == LedgerModel.Speculate(l, b);
        return ZERO_HASH;
      }
      ReadyChild(l, b);
      HeldFiled(l);
      state := Extend(b, prev);
      assert View() == LedgerModel.Speculate(l, b);
    }

    /** What a held block's line of held ancestors lacks: never something this ledger stores. */
    method Missing(id: Hash) returns (missing: Option<Hash>)
      requires Valid()
      ensures missing == LedgerModel.Missing(View(), id)
      ensures missing.Some? ==> missing.value !in held && missing.value !in pending && missing.value != commitID
    {
      hide BlockId;
      if id !in held {
        return None;
      }
      MissingIsUnseen(View(), id);
      var b := held[id];
      var at := id;
      while true
        invariant at in held && b == held[at] && OldestMissing(held, at) == OldestMissing(held, id)
        decreases Height(at)
      {
        ParentBelow(b);
        var parent := ParentId(b);
        if parent !in held {
          return Some(parent);
        }
        b := held[parent];
        at := parent;
      }
    }

    /** Finds exactly what the end of the history holds under that id. */
    method CommittedBlock(id: Hash) returns (b: Option<Block>)
      requires Valid()
      ensures b == Lookup(Retained(log, history), id)
    {
      hide LedgerInv;
      hide Retained;
      b := if id in committed then Some(committed[id]) else None;
    }

    /** The pending blocks from `blockID` back to the frontier, newest first. */
    method Walk(blockID: Hash) returns (chain: seq<Speculated>, ok: bool)
      requires Valid() && blockID != commitID
      ensures ok <==> Reaches(BlocksOf(pending), commitID, blockID)
      ensures ok ==> OldestFirst(chain) == Path(BlocksOf(pending), commitID, blockID)
      ensures forall i :: 0 <= i < |chain| ==> chain[i].state == Replay(execute, chain[i].block.id)
    {
      hide BlockId;
      hide Replay;
      ghost var P := BlocksOf(pending);
      assert Filed(P) && TrueStates(execute, pending);
      hide MemLedger.Valid;
      hide LedgerInv;
      hide Filed;
      chain := [];
      var id := blockID;
      assert OnTheWay(P, commitID, blockID, id, chain);
      hide OnTheWay;
      while id != commitID
        invariant OnTheWay(P, commitID, blockID, id, chain)
        invariant forall i :: 0 <= i < |chain| ==> chain[i].state == Replay(execute, chain[i].block.id)
        decreases Height(id)
      {
        if id !in pending {
          return chain, false;
        }
        var s := pending[id];
        assert s.block == P[id] && s.block.id == id;
        ParentBelow(s.block);
        OneFurther(P, commitID, blockID, id, chain, s);
        chain := chain + [s];
        id := ParentId(s.block);
      }
      ok := true;
    }

    /** Commit the walked blocks oldest first; OnCommit runs once for each. `kept` is what the
        committed store held before. */
    method Apply(chain: seq<Speculated>, ghost kept: seq<Block>)
      requires |chain| > 0 && |log| > 0 && order == Ids(kept) && Stores(committed, kept)
      requires DistinctIds(kept + OldestFirst(chain))
      requires forall i :: 0 <= i < |chain| ==> chain[i].state == Replay(execute, chain[i].block.id)
      modifies this`pending, this`committed, this`order, this`commitID, this`commitState, this`log
      ensures log == old(log) + OldestFirst(chain)
      ensures pending == old(pending) - IdSet(OldestFirst(chain))
      ensures order == Ids(kept + OldestFirst(chain)) && Stores(committed, kept + OldestFirst(chain))
      ensures commitID == log[|log| - 1].id && commitState == Replay(execute, commitID)
    {
      hide Replay;
      hide DistinctIds;
      hide Stores;
      hide IdSet;
      hide Ids;
      hide OldestFirst;
      ghost var path, done: seq<Block> := OldestFirst(chain), [];
      ghost var P := pending;
      IdSetEmpty();
      assert kept + done == kept;
      for i := |chain| downto 0
        invariant |done| == |chain| - i && done == path[..|done|]
        invariant log == old(log) + done
        invariant pending == P - IdSet(done)
        invariant order == Ids(kept + done) && Stores(committed, kept + done)
        invariant i < |chain| ==> commitID == log[|log| - 1].id && commitState == Replay(execute, commitID)
      {
        var s := chain[i];
        var id := s.block.id;
        ApplyStep(committed, kept, path, done, s.block);
        pending := pending - {id};
        committed := committed[id := s.block];
        order := order + [id];
        commitID, commitState := id, s.state;
        log := log + [s.block];
        done := done + [s.block];
      }
      assert done == path;
    }

    /** Pending becomes reachability from the frontier, and held the part above its round. */
    method Prune()
      requires Filed(BlocksOf(pending)) && commitID in committed && commitID !in pending
      modifies this`pending, this`held
      ensures BlocksOf(pending) == Reaching(old(BlocksOf(pending)), commitID)
      ensures forall k :: k in pending ==> k in old(pending) && pending[k] == old(pending)[k]
      ensures held == HeldAbove(old(held), committed[commitID].round)
    {
      PruneHeld();
      hide BlockId;
      hide Reaches;
      hide OnlyOrphansGone;
      hide NoOrphans;
      hide Filed;
      hide BlocksOf;
      ghost var P := BlocksOf(pending);
      NothingGone(P, commitID);
      var changed := true;
      while changed
        invariant OnlyOrphansGone(P, BlocksOf(pending), commitID)
        invariant forall k :: k in pending ==> k in old(pending) && pending[k] == old(pending)[k]
        invariant !changed ==> NoOrphans(BlocksOf(pending), commitID)
        invariant held == HeldAbove(old(held), committed[commitID].round)
        decreases |pending| + if changed then 1 else 0
      {
        changed := PruneOnce(P);
      }
      FixpointIsReachability(P, BlocksOf(pending), commitID);
    }

    /** One pass over the pending map. */
    method PruneOnce(ghost P: map<Hash, Block>) returns (changed: bool)
      requires OnlyOrphansGone(P, BlocksOf(pending), commitID) && commitID !in pending
      modifies this`pending
      ensures OnlyOrphansGone(P, BlocksOf(pending), commitID)
      ensures forall k :: k in pending ==> k in old(pending) && pending[k] == old(pending)[k]
      ensures if changed then |pending| < |old(pending)|
              else pending == old(pending) && NoOrphans(BlocksOf(pending), commitID)
    {
      hide OnlyOrphansGone;
      changed := false;
      var todo := pending.Keys;
      while todo != {}
        invariant OnlyOrphansGone(P, BlocksOf(pending), commitID) && commitID !in pending
        invariant forall k :: k in pending ==> k in old(pending) && pending[k] == old(pending)[k]
        invariant changed ==> |pending| < |old(pending)|
        invariant !changed ==> pending == old(pending)
        invariant !changed ==> forall k :: k in pending && k !in todo ==>
                    ParentId(pending[k].block) == commitID || ParentId(pending[k].block) in pending
        decreases |todo|
      {
        var id :| id in todo;
        todo := todo - {id};
        if id in pending {
          var parent := ParentId(pending[id].block);
          if parent != commitID && parent !in pending {
            BlocksOfLess(pending, id);
            OrphanIsUnreachable(P, BlocksOf(pending), commitID, id);
            FewerEntries(pending, id);
            pending := pending - {id};
            changed := true;
          }
        }
      }
    }

    method PruneHeld()
      requires commitID in committed
      modifies this`held
      ensures held == HeldAbove(old(held), committed[commitID].round)
    {
      var todo := held.Keys;
      while todo != {}
        invariant todo <= old(held).Keys
        invariant forall k :: k in held ==> k in old(held) && held[k] == old(held)[k]
        invariant forall k :: k in old(held) && (k in todo || QCRound(old(held)[k].qc) > committed[commitID].round) ==>
                    k in held
        invariant forall k :: k in held && k !in todo ==> QCRound(held[k].qc) > committed[commitID].round
        decreases |todo|
      {
        var id :| id in todo;
        todo := todo - {id};
        if QCRound(held[id].qc) <= committed[commitID].round {
          held := held - {id};
        }
      }
    }

    /** What is left of `kept` is its last `history` entries. */
    method Forget(ghost kept: seq<Block>)
      requires history >= 1 && |kept| > 0 && order == Ids(kept) && Stores(committed, kept) && DistinctIds(kept)
      requires commitID == kept[|kept| - 1].id
      modifies this`committed, this`order
      ensures order == Ids(Retained(kept, history)) && Stores(committed, Retained(kept, history))
    {
      hide Stores;
      hide DistinctIds;
      hide Ids;
      ghost var n := 0;
      assert kept[0..] == kept;
      while |order| > history
        invariant 0 <= n < |kept| && (n > 0 ==> |kept| - n >= history)
        invariant order == Ids(kept[n..]) && Stores(committed, kept[n..])
        decreases |order|
      {
        var id := order[0];
        assert id == kept[n..][0].id;
        OldestIsNotFrontier(kept, n);
        StoresTail(committed, kept, n);
        assert kept[n + 1..] == kept[n..][1..];
        IdsTail(kept[n..]);
        order := order[1..];
        if id != commitID {
          committed := committed - {id};
        }
        n := n + 1;
      }
      assert |order| == |kept| - n;
      assert kept[n..] == Retained(kept, history);
    }

    /** The view becomes the specified one, and every stored state stays the replay of its block. */
    method Commit(blockID: Hash)
      requires Valid()
      modifies this`pending, this`held, this`committed, this`order, this`commitID, this`commitState, this`log
      ensures Valid() && View() == LedgerModel.Commit(old(View()), blockID)
    {
      hide BlockId;
      hide LedgerInv;
      hide Replay;
      hide Reaches;
      hide Path;
      hide Stores;
      hide Ids;
      hide IdSet;
      hide Retained;
      hide DistinctIds;
      hide OldestFirst;
      hide Filed;
      ghost var l := View();
      if blockID == commitID {
        return;
      }
      var chain, ok := Walk(blockID);
      if !ok {
        return;
      }
      ghost var kept, path := Retained(log, history), OldestFirst(chain);
      CommitPath(l, blockID, history);
      RetainedMore(l.log, path, history);
      CommitResult(l, blockID);
      CommitInv(l, blockID);
      hide LedgerModel.Commit;
      AppliedPending(l, blockID, path);
      Apply(chain, kept);
      AppliedFrontier(kept, path, committed);
      BlocksOfMinus(old(pending), IdSet(path));
      Prune();
      Forget(kept + path);
    }
  }

  /** A walk's blocks in commit order. */
  ghost function OldestFirst(chain: seq<Speculated>): (bs: seq<Block>)
    ensures |bs| == |chain|
    ensures forall i :: 0 <= i < |bs| ==> bs[i] == chain[|chain| - 1 - i].block
  {
    if chain == [] then [] else [chain[|chain| - 1].block] + OldestFirst(chain[..|chain| - 1])
  }

  lemma OldestFirstSnoc(chain: seq<Speculated>, s: Speculated)
    ensures OldestFirst(chain + [s]) == [s.block] + OldestFirst(chain)
  {
    assert (chain + [s])[..|chain|] == chain;
  }

  /** `chain` is what lies between `id` and `target`, newest first. */
  ghost predicate OnTheWay(blocks: map<Hash, Block>, root: Hash, target: Hash, id: Hash, chain: seq<Speculated>) {
    if id == root then Reaches(blocks, root, target) && Path(blocks, root, target) == OldestFirst(chain)
    else
      && (Reaches(blocks, root, target) <==> Reaches(blocks, root, id))
      && (Reaches(blocks, root, id) ==> Path(blocks, root, target) == Path(blocks, root, id) + OldestFirst(chain))
  }

  lemma OneFurther(blocks: map<Hash, Block>, root: Hash, target: Hash, id: Hash, chain: seq<Speculated>, s: Speculated)
    requires OnTheWay(blocks, root, target, id, chain) && id != root && id in blocks && blocks[id] == s.block
    requires Height(ParentId(s.block)) < Height(id)
    ensures OnTheWay(blocks, root, target, ParentId(s.block), chain + [s])
  {
    OldestFirstSnoc(chain, s);
  }

  lemma FrontierStored(committed: map<Hash, Block>, log: seq<Block>, history: nat)
    requires history >= 1 && |log| > 0 && Stores(committed, Retained(log, history))
    ensures log[|log| - 1].id in committed && committed[log[|log| - 1].id] == log[|log| - 1]
  {
    var kept := Retained(log, history);
    assert kept[|kept| - 1] == log[|log| - 1];
  }

  lemma ReadyChild(l: Ledger, b: Block)
    requires LedgerInv(l) && ValidBlockId(b) && Ready(l, ParentId(b))
    ensures Names(b.id, b) && Height(b.id) > Height(GENESIS_BLOCK.id)
  {
    hide BlockId;
    ReadyIsAboveGenesis(l, ParentId(b));
    ParentBelow(b);
  }

  lemma HeldFiled(l: Ledger)
    requires LedgerInv(l)
    ensures Filed(l.held) && Filed(l.pending)
  { }

  lemma FiledAt(blocks: map<Hash, Block>, k: Hash)
    requires Filed(blocks) && k in blocks
    ensures blocks[k].id == k && ValidBlockId(blocks[k]) && Filed(blocks - {k})
  {
    hide BlockId;
  }

  lemma FiledFewer(blocks: map<Hash, Block>, fewer: map<Hash, Block>)
    requires Filed(blocks) && fewer.Keys <= blocks.Keys && forall k :: k in fewer ==> fewer[k] == blocks[k]
    ensures Filed(fewer)
  {
    hide BlockId;
  }

  ghost function Restrict(m: map<Hash, Block>, ks: set<Hash>): map<Hash, Block> { map k | k in m && k in ks :: m[k] }

  lemma ChildIsAbove(b: Block, h: Block)
    requires Names(b.id, b) && Height(b.id) > Height(GENESIS_BLOCK.id) && ValidBlockId(h) && ParentId(h) == b.id
    ensures Names(h.id, h) && Height(h.id) > Height(GENESIS_BLOCK.id)
  {
    ParentBelow(h);
  }

  lemma KeysShrink(H: map<Hash, Block>, rest: map<Hash, Block>, k: Hash)
    requires rest.Keys <= H.Keys - {k} && k in H
    ensures |rest| < |H|
  {
    Quorums.SubsetSize(rest.Keys, H.Keys - {k});
    assert |H.Keys - {k}| == |H.Keys| - 1;
  }

  /** Part of the way through the held blocks: `moved` have been adopted, with all that hang below
      them, and every child of `root` not yet adopted is still in `todo`. */
  ghost predicate Adopting(H: map<Hash, Block>, base: map<Hash, Block>, root: Hash, moved: set<Hash>, todo: set<Hash>,
                           held: map<Hash, Block>, pending: map<Hash, Block>) {
    && todo <= H.Keys && moved <= H.Keys
    && held == H - moved && pending == base + Restrict(H, moved)
    && (forall x :: x in moved ==> Reaches(H, root, x))
    && (forall x :: x in H && ParentId(H[x]) in moved ==> x in moved)
    && (forall x :: x in H && ParentId(H[x]) == root ==> x in moved || x in todo)
  }

  lemma AdoptStart(H: map<Hash, Block>, base: map<Hash, Block>, root: Hash)
    ensures Adopting(H, base, root, {}, H.Keys, H, base)
  {
    hide Reaches;
    assert Restrict(H, {}) == map[];
  }

  lemma AdoptSkip(H: map<Hash, Block>, base: map<Hash, Block>, root: Hash, moved: set<Hash>, todo: set<Hash>, hid: Hash,
                  held: map<Hash, Block>, pending: map<Hash, Block>)
    requires Adopting(H, base, root, moved, todo, held, pending)
    requires hid !in held || ParentId(held[hid]) != root
    ensures Adopting(H, base, root, moved, todo - {hid}, held, pending)
  {
    hide Reaches;
    hide Restrict;
  }

  lemma AdoptStep(H: map<Hash, Block>, base: map<Hash, Block>, root: Hash, moved: set<Hash>, todo: set<Hash>, hid: Hash,
                  held: map<Hash, Block>, pending: map<Hash, Block>)
    requires Filed(H) && Adopting(H, base, root, moved, todo, held, pending)
    requires hid in held && ParentId(held[hid]) == root
    ensures var adopted := Waiting(held - {hid}, hid);
            Adopting(H, base, root, moved + {hid} + adopted.Keys, todo - {hid},
                     held - {hid} - adopted.Keys, pending[hid := held[hid]] + adopted)
  {
    hide BlockId;
    hide Reaches;
    var rest := held - {hid};
    assert rest == H - moved - {hid};
    AdoptChild(H, root, moved, hid, rest);
    AdoptMaps(H, base, moved, hid, rest);
  }

  lemma AdoptDone(H: map<Hash, Block>, base: map<Hash, Block>, root: Hash, moved: set<Hash>,
                  held: map<Hash, Block>, pending: map<Hash, Block>)
    requires Adopting(H, base, root, moved, {}, held, pending)
    ensures pending == base + Waiting(H, root) && held == H - Waiting(H, root).Keys
  {
    forall k | k in H ensures k in moved <==> Reaches(H, root, k) {
      if Reaches(H, root, k) { ClosedCovers(H, moved, root, k); }
    }
    hide Reaches;
    assert Restrict(H, moved) == Waiting(H, root);
    assert H - moved == H - Waiting(H, root).Keys;
  }

  /** The maps after adopting `hid` and what waited on it. */
  lemma AdoptMaps(H: map<Hash, Block>, base: map<Hash, Block>, moved: set<Hash>, hid: Hash, rest: map<Hash, Block>)
    requires hid in H && rest == H - moved - {hid}
    ensures var adopted := Waiting(rest, hid);
            var moved' := moved + {hid} + adopted.Keys;
            && (base + Restrict(H, moved))[hid := H[hid]] + adopted == base + Restrict(H, moved')
            && rest - adopted.Keys == H - moved' && moved' <= moved + H.Keys
  {
    hide Reaches;
  }

  // --------------------------------------------------------------------- commit bookkeeping

  ghost predicate DistinctIds(bs: seq<Block>) {
    forall i, j :: 0 <= i < j < |bs| ==> bs[i].id != bs[j].id
  }

  ghost function IdSet(bs: seq<Block>): set<Hash> { set i | 0 <= i < |bs| :: bs[i].id }

  ghost function HeldAbove(held: map<Hash, Block>, round: Round): map<Hash, Block> {
    map k | k in held && QCRound(held[k].qc) > round :: held[k]
  }

  lemma BlocksOfLess(m: map<Hash, Speculated>, k: Hash)
    ensures BlocksOf(m - {k}) == BlocksOf(m) - {k}
  { }

  lemma NothingGone(blocks: map<Hash, Block>, root: Hash)
    ensures OnlyOrphansGone(blocks, blocks, root)
  { }

  lemma FewerEntries<T>(m: map<Hash, T>, k: Hash)
    requires k in m
    ensures |m - {k}| == |m| - 1
  {
    assert (m - {k}).Keys == m.Keys - {k};
    assert |m.Keys - {k}| == |m.Keys| - 1;
  }

  lemma IdSetEmpty()
    ensures IdSet([]) == {}
  { }

  lemma IdSetSnoc(bs: seq<Block>, b: Block)
    ensures IdSet(bs + [b]) == IdSet(bs) + {b.id}
  {
    assert forall i :: 0 <= i < |bs| ==> (bs + [b])[i] == bs[i];
    assert (bs + [b])[|bs|] == b;
  }

  lemma IdsSnoc(bs: seq<Block>, b: Block)
    ensures Ids(bs + [b]) == Ids(bs) + [b.id]
  { }

  lemma ApplyStep(committed: map<Hash, Block>, kept: seq<Block>, path: seq<Block>, done: seq<Block>, b: Block)
    requires |done| < |path| && done == path[..|done|] && b == path[|done|]
    requires DistinctIds(kept + path) && Stores(committed, kept + done)
    ensures done + [b] == path[..|done| + 1]
    ensures IdSet(done + [b]) == IdSet(done) + {b.id}
    ensures Ids(kept + (done + [b])) == Ids(kept + done) + [b.id]
    ensures Stores(committed[b.id := b], kept + (done + [b]))
  {
    hide DistinctIds;
    hide Stores;
    hide IdSet;
    hide Ids;
    IdSetSnoc(done, b);
    assert kept + (done + [b]) == kept + done + [b];
    StoresSnoc(committed, kept, path, |done|);
    IdsSnoc(kept + done, b);
  }

  lemma IdsTail(bs: seq<Block>)
    requires |bs| > 0
    ensures Ids(bs[1..]) == Ids(bs)[1..]
  { }

  lemma StoresSnoc(committed: map<Hash, Block>, kept: seq<Block>, path: seq<Block>, n: nat)
    requires n < |path| && DistinctIds(kept + path) && Stores(committed, kept + path[..n])
    ensures Stores(committed[path[n].id := path[n]], kept + path[..n] + [path[n]])
  {
    var all, bs, b := kept + path, kept + path[..n], path[n];
    assert all[|bs|] == b;
    assert forall i :: 0 <= i < |bs| ==> bs[i] == all[i];
    var bs', c' := bs + [b], committed[b.id := b];
    forall i | 0 <= i < |bs'| ensures bs'[i].id in c' && c'[bs'[i].id] == bs'[i] {
      if i < |bs| { assert all[i].id != all[|bs|].id; }
    }
    forall k | k in c' ensures exists i :: 0 <= i < |bs'| && bs'[i].id == k {
      if k == b.id { assert bs'[|bs|].id == k; }
      else {
        var i :| 0 <= i < |bs| && bs[i].id == k;
        assert bs'[i].id == k;
      }
    }
  }

  lemma OldestIsNotFrontier(kept: seq<Block>, n: nat)
    requires DistinctIds(kept) && n < |kept| - 1
    ensures kept[n].id != kept[|kept| - 1].id
  { }

  lemma StoresTail(committed: map<Hash, Block>, kept: seq<Block>, n: nat)
    requires n < |kept| && DistinctIds(kept) && Stores(committed, kept[n..])
    ensures Stores(committed - {kept[n].id}, kept[n + 1..])
  {
    var old', new', c' := kept[n..], kept[n + 1..], committed - {kept[n].id};
    assert forall i :: 0 <= i < |new'| ==> new'[i] == old'[i + 1] == kept[n + 1 + i];
    forall k | k in c' ensures exists i :: 0 <= i < |new'| && new'[i].id == k {
      var i :| 0 <= i < |old'| && old'[i].id == k;
      assert new'[i - 1].id == k;
    }
  }

  lemma RetainedMore(log: seq<Block>, path: seq<Block>, history: nat)
    ensures Retained(Retained(log, history) + path, history) == Retained(log + path, history)
  { }

  lemma BlocksOfMinus(m: map<Hash, Speculated>, ks: set<Hash>)
    ensures BlocksOf(m - ks) == BlocksOf(m) - ks
  { }

  /** The path about to be committed: it continues the log, and its ids are new. */
  lemma CommitPath(l: Ledger, id: Hash, history: nat)
    requires LedgerInv(l) && Reaches(l.pending, CommitId(l), id)
    ensures var path := Path(l.pending, CommitId(l), id);
            && path[|path| - 1] == l.pending[id] && l.pending[id].id == id
            && DistinctIds(Retained(l.log, history) + path)
  {
    hide BlockId;
    hide Path;
    PathExtends(l, id);
    var path := Path(l.pending, CommitId(l), id);
    LogHasNoDuplicates(l.log + path);
    var from := if |l.log| <= history then 0 else |l.log| - history;
    assert Retained(l.log, history) + path == (l.log + path)[from..];
  }

  lemma AppliedFrontier(kept: seq<Block>, path: seq<Block>, committed: map<Hash, Block>)
    requires |path| > 0 && Stores(committed, kept + path)
    ensures path[|path| - 1].id in committed && committed[path[|path| - 1].id] == path[|path| - 1]
  {
    var all := kept + path;
    assert all[|all| - 1] == path[|path| - 1];
  }

  lemma PathIsLow(blocks: map<Hash, Block>, root: Hash, id: Hash, k: Hash)
    requires Filed(blocks) && Reaches(blocks, root, id) && k in IdSet(Path(blocks, root, id))
    ensures Height(k) <= Height(id)
  {
    hide BlockId;
    hide Path;
    var path := Path(blocks, root, id);
    var i :| 0 <= i < |path| && path[i].id == k;
    PathHeights(blocks, root, id, i);
  }

  lemma AppliedPending(l: Ledger, id: Hash, path: seq<Block>)
    requires LedgerInv(l) && Reaches(l.pending, CommitId(l), id) && path == Path(l.pending, CommitId(l), id)
    ensures Filed(l.pending - IdSet(path)) && id !in l.pending - IdSet(path)
  {
    hide BlockId;
    PathExtends(l, id);
    assert path[|path| - 1].id == id;
    FiledFewer(l.pending, l.pending - IdSet(path));
  }

  /** Pruning what Apply left gives the descendants of the new frontier. */
  lemma PrunedAfterCommit(l: Ledger, id: Hash, path: seq<Block>)
    requires LedgerInv(l) && Reaches(l.pending, CommitId(l), id) && path == Path(l.pending, CommitId(l), id)
    ensures Reaching(l.pending - IdSet(path), id) == map k | k in l.pending && Reaches(l.pending, id, k) :: l.pending[k]
  {
    hide BlockId;
    hide Path;
    hide IdSet;
    var gone := IdSet(path);
    AppliedPending(l, id, path);
    forall k | k in l.pending ensures Reaches(l.pending, id, k) <==> Reaches(l.pending - gone, id, k) {
      if Reaches(l.pending, id, k) {
        forall g | g in gone ensures Height(g) <= Height(id) { PathIsLow(l.pending, CommitId(l), id, g); }
        ReachesAvoids(l.pending, gone, id, k);
      }
      if Reaches(l.pending - gone, id, k) { ReachesGrows(l.pending - gone, l.pending, id, k); }
    }
  }

  lemma CommitResult(l: Ledger, id: Hash)
    requires LedgerInv(l) && id != CommitId(l) && Reaches(l.pending, CommitId(l), id)
    ensures var path := Path(l.pending, CommitId(l), id);
            LedgerModel.Commit(l, id) == LedgerData(Reaching(l.pending - IdSet(path), id),
                                                    HeldAbove(l.held, l.pending[id].round), l.log + path)
  {
    hide BlockId;
    hide LedgerInv;
    hide Reaches;
    hide Path;
    hide Reaching;
    PrunedAfterCommit(l, id, Path(l.pending, CommitId(l), id));
  }
}
