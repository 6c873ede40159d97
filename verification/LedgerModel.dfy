// What the ledger of diem/ledger.go computes, on values: the pending tree over the commit
// frontier, the blocks held for a missing parent, and the OnCommit history.
module LedgerModel {
  import opened Wire
  import opened Hashing
  import opened Chains

  /** `log` is genesis followed by every block OnCommit ever saw, oldest first. */
  datatype LedgerData = LedgerData(pending: map<Hash, Block>, held: map<Hash, Block>, log: seq<Block>)

  type Ledger = l: LedgerData | |l.log| > 0 witness LedgerData(map[], map[], [GENESIS_BLOCK])

  const NEW_LEDGER: Ledger := LedgerData(map[], map[], [GENESIS_BLOCK])

  ghost function Frontier(l: Ledger): Block { l.log[|l.log| - 1] }

  ghost function CommitId(l: Ledger): Hash { Frontier(l).id }

  ghost function CommitRound(l: Ledger): Round { Frontier(l).round }

  /** PendingState answers for `id`. */
  ghost predicate Ready(l: Ledger, id: Hash) { id == CommitId(l) || id in l.pending }

  /** The state it answers with: re-execution from genesis. */
  ghost function PendingState(execute: Execution, l: Ledger, id: Hash): Option<Hash> {
    if Ready(l, id) then Some(Replay(execute, id)) else None
  }

  /** The held blocks that hang below `id`. */
  ghost function Waiting(held: map<Hash, Block>, id: Hash): map<Hash, Block> {
    map k | k in held && Reaches(held, id, k) :: held[k]
  }

  ghost function Speculate(l: Ledger, b: Block): Ledger {
    if Ready(l, ParentId(b)) then
      l.(pending := l.pending[b.id := b] + Waiting(l.held, b.id), held := l.held - Waiting(l.held, b.id).Keys)
    else if QCRound(b.qc) > CommitRound(l) then l.(held := l.held[b.id := b])
    else l
  }

  ghost function Commit(l: Ledger, id: Hash): Ledger {
    if id == CommitId(l) || !Reaches(l.pending, CommitId(l), id) then l
    else LedgerData(
           map k | k in l.pending && Reaches(l.pending, id, k) :: l.pending[k],
           map k | k in l.held && QCRound(l.held[k].qc) > l.pending[id].round :: l.held[k],
           l.log + Path(l.pending, CommitId(l), id))
  }

  /** Where following parents from `id` leaves the held map. */
  ghost function OldestMissing(held: map<Hash, Block>, id: Hash): Hash
    requires id in held
    decreases Height(id)
  {
    var p := ParentId(held[id]);
    if p in held && Height(p) < Height(id) then OldestMissing(held, p) else p
  }

  ghost function Missing(l: Ledger, id: Hash): Option<Hash> {
    if id in l.held then Some(OldestMissing(l.held, id)) else None
  }

  /** The last `history` entries of the log. */
  ghost function Retained(log: seq<Block>, history: nat): seq<Block> {
    if |log| <= history then log else log[|log| - history..]
  }

  /** An entry with that id, if there is one. */
  ghost function Lookup(kept: seq<Block>, id: Hash): Option<Block> {
    if i :| 0 <= i < |kept| && kept[i].id == id then Some(kept[i]) else None
  }

  // -------------------------------------------------------------------------- invariant

  /** One parent chain from genesis, oldest first. */
  ghost predicate ParentChain(log: seq<Block>) {
    && |log| > 0 && log[0] == GENESIS_BLOCK
    && forall i :: 0 < i < |log| ==> ValidBlockId(log[i]) && ParentId(log[i]) == log[i - 1].id
  }

  ghost predicate LedgerInv(l: Ledger) {
    && ParentChain(l.log)
    && Filed(l.pending) && Filed(l.held)
    && (forall k :: k in l.pending ==> Ready(l, ParentId(l.pending[k])))
    && (forall k :: k in l.held ==> !Ready(l, ParentId(l.held[k])))
  }

  lemma NewLedgerInv()
    ensures LedgerInv(NEW_LEDGER)
  { }

  /** Each pending block's chain reaches the frontier through pending blocks. */
  lemma {:induction false} PendingReaches(l: Ledger, id: Hash)
    requires LedgerInv(l) && id in l.pending
    ensures Reaches(l.pending, CommitId(l), id)
    ensures Height(CommitId(l)) < Height(id)
    decreases Height(id)
  {
    ParentBelow(l.pending[id]);
    if ParentId(l.pending[id]) != CommitId(l) { PendingReaches(l, ParentId(l.pending[id])); }
  }

  /** The frontier is the commit id; it is never pending, and nothing below it is ready. */
  lemma FrontierNotPending(l: Ledger)
    requires LedgerInv(l)
    ensures CommitId(l) !in l.pending
  {
    if CommitId(l) in l.pending { PendingReaches(l, CommitId(l)); }
  }

  lemma LogIdsAreShas(log: seq<Block>, i: nat)
    requires ParentChain(log) && i < |log|
    ensures log[i].id.Sha? && Names(log[i].id, log[i])
  {
    if i > 0 { assert log[i - 1].id == ParentId(log[i]); LogIdsAreShas(log, i - 1); }
  }

  lemma {:induction false} LogAscends(log: seq<Block>, i: nat, j: nat)
    requires ParentChain(log) && i < j < |log|
    ensures Height(log[i].id) < Height(log[j].id)
    decreases j - i
  {
    ParentBelow(log[j]);
    if i < j - 1 { LogAscends(log, i, j - 1); }
  }

  /** The history is duplicate-free. */
  lemma LogHasNoDuplicates(log: seq<Block>)
    requires ParentChain(log)
    ensures forall i, j :: 0 <= i < j < |log| ==> log[i].id != log[j].id
  {
    forall i, j | 0 <= i < j < |log| ensures log[i].id != log[j].id { LogAscends(log, i, j); }
  }

  function Ids(log: seq<Block>): (ids: seq<Hash>)
    ensures |ids| == |log| && forall i :: 0 <= i < |log| ==> ids[i] == log[i].id
  {
    if log == [] then [] else Ids(log[..|log| - 1]) + [log[|log| - 1].id]
  }

  /** The history is the chain of the frontier: nothing skipped, nothing reordered. */
  lemma {:induction false} LogIsChain(log: seq<Block>)
    requires ParentChain(log)
    ensures Ids(log) == ChainOf(log[|log| - 1].id)
  {
    hide BlockId;
    var last := |log| - 1;
    LogIdsAreShas(log, last);
    if last == 0 {
      assert Ids(log) == [GENESIS_BLOCK.id];
    } else {
      LogIsChain(log[..last]);
      LogAscends(log, 0, last);
      ChainStep(log[last]);
    }
  }

  // ------------------------------------------------------------------------ preservation

  lemma SpeculateKeepsPendingClosed(l: Ledger, b: Block, k: Hash)
    requires LedgerInv(l) && Ready(l, ParentId(b)) && k in Speculate(l, b).pending
    ensures Ready(Speculate(l, b), ParentId(Speculate(l, b).pending[k]))
  {
    hide BlockId;
    var l' := Speculate(l, b);
    var p := ParentId(l'.pending[k]);
    if k in l.held && Reaches(l.held, b.id, k) {
      assert l'.pending[k] == l.held[k];
      assert p == b.id || Reaches(l.held, b.id, p);
      assert p == b.id || p in l.held;
    } else {
      assert Ready(l, p);
    }
  }

  lemma SpeculateLeavesNoneReady(l: Ledger, b: Block, k: Hash)
    requires LedgerInv(l) && Ready(l, ParentId(b)) && k in Speculate(l, b).held
    ensures !Ready(Speculate(l, b), ParentId(l.held[k]))
  {
    hide BlockId;
    var p := ParentId(l.held[k]);
    ParentBelow(l.held[k]);
    assert !Ready(l, p);
    assert p != b.id && !(p in l.held && Reaches(l.held, b.id, p));
  }

  lemma SpeculateKeepsFiled(l: Ledger, b: Block)
    requires LedgerInv(l) && ValidBlockId(b)
    ensures Filed(Speculate(l, b).pending) && Filed(Speculate(l, b).held)
  {
    hide BlockId;
    hide Reaches;
  }

  lemma SpeculateInv(l: Ledger, b: Block)
    requires LedgerInv(l) && ValidBlockId(b)
    ensures LedgerInv(Speculate(l, b))
  {
    hide BlockId;
    hide Reaches;
    var l' := Speculate(l, b);
    SpeculateKeepsFiled(l, b);
    if Ready(l, ParentId(b)) {
      forall k | k in l'.pending ensures Ready(l', ParentId(l'.pending[k])) {
        SpeculateKeepsPendingClosed(l, b, k);
      }
      forall k | k in l'.held ensures !Ready(l', ParentId(l'.held[k])) {
        SpeculateLeavesNoneReady(l, b, k);
      }
    }
  }

  lemma {:induction false} PathExtends(l: Ledger, id: Hash)
    requires LedgerInv(l) && Reaches(l.pending, CommitId(l), id)
    ensures ParentChain(l.log + Path(l.pending, CommitId(l), id))
    ensures var p := Path(l.pending, CommitId(l), id); p[|p| - 1] == l.pending[id]
    decreases Height(id)
  {
    hide BlockId;
    var root := CommitId(l);
    var b := l.pending[id];
    if ParentId(b) == root {
      assert Path(l.pending, root, id) == [b];
    } else {
      PathExtends(l, ParentId(b));
      var below := Path(l.pending, root, ParentId(b));
      var longer := l.log + below;
      assert longer[|longer| - 1].id == ParentId(b);
      assert l.log + Path(l.pending, root, id) == longer + [b];
    }
  }

  lemma CommitInv(l: Ledger, id: Hash)
    requires LedgerInv(l)
    ensures LedgerInv(Commit(l, id))
  {
    hide BlockId;
    if id != CommitId(l) && Reaches(l.pending, CommitId(l), id) {
      PathExtends(l, id);
      var l' := Commit(l, id);
      assert Frontier(l') == l.pending[id] && CommitId(l') == id;
      forall k | k in l'.held ensures !Ready(l', ParentId(l'.held[k])) {
        assert !Ready(l, ParentId(l.held[k]));
      }
      forall k | k in l'.pending ensures Ready(l', ParentId(l'.pending[k])) {
        assert Reaches(l.pending, id, k);
      }
    }
  }

  /** A commit never rewrites history: the old log is a prefix of the new one, and the new
      frontier is the committed id. */
  lemma CommitExtendsLog(l: Ledger, id: Hash)
    requires LedgerInv(l)
    ensures l.log <= Commit(l, id).log
    ensures Commit(l, id) != l ==> CommitId(Commit(l, id)) == id
    ensures id in l.pending ==> CommitId(Commit(l, id)) == id
  {
    hide BlockId;
    FrontierNotPending(l);
    if id in l.pending { PendingReaches(l, id); }
    if id != CommitId(l) && Reaches(l.pending, CommitId(l), id) { PathExtends(l, id); }
  }

  /** What Missing names has not been seen: it is neither held, nor pending, nor the frontier,
      and the block asked about hangs below it through held blocks. */
  lemma {:induction false} MissingIsUnseen(l: Ledger, id: Hash)
    requires LedgerInv(l) && id in l.held
    ensures OldestMissing(l.held, id) !in l.held
    ensures !Ready(l, OldestMissing(l.held, id))
    ensures Reaches(l.held, OldestMissing(l.held, id), id)
    decreases Height(id)
  {
    ParentBelow(l.held[id]);
    var p := ParentId(l.held[id]);
    if p in l.held { MissingIsUnseen(l, p); }
  }
}
