// Between commits, when does the order in which blocks reach the ledger matter? Exactly when a block
// may be dropped for arriving too early, or when two copies of one block are both kept.
module Arrival {
  import opened Wire
  import opened Hashing
  import opened Chains
  import opened LedgerModel

  ghost function SpeculateAll(l: Ledger, bs: seq<Block>): Ledger {
    if bs == [] then l else Speculate(SpeculateAll(l, bs[..|bs| - 1]), bs[|bs| - 1])
  }

  /** Every block the ledger stores, whichever map it sits in. */
  ghost function Known(l: Ledger): map<Hash, Block> { l.held + l.pending }

  ghost predicate WellSized(blocks: map<Hash, Block>) {
    forall k :: k in blocks ==> ValidHash(ParentId(blocks[k]))
  }

  /** No held block's certificate is at or below the commit round. */
  ghost predicate HeldHigh(l: Ledger) { forall k :: k in l.held ==> QCRound(l.held[k].qc) > CommitRound(l) }

  ghost predicate Sound(l: Ledger) { LedgerInv(l) && WellSized(l.pending) && WellSized(l.held) && HeldHigh(l) }

  ghost predicate Deliverable(b: Block) { ValidBlockId(b) && ValidHash(ParentId(b)) }

  /** A block the ledger keeps on arrival. */
  ghost predicate Stays(l: Ledger, b: Block) { Ready(l, ParentId(b)) || QCRound(b.qc) > CommitRound(l) }

  /** Adding `bs` to `known`; the last copy of an id stands. */
  ghost function AddAll(known: map<Hash, Block>, bs: seq<Block>): map<Hash, Block> {
    if bs == [] then known else AddAll(known, bs[..|bs| - 1])[bs[|bs| - 1].id := bs[|bs| - 1]]
  }

  /** Some order of arrival could connect `id` to the frontier. */
  ghost predicate Connectable(l: Ledger, bs: seq<Block>, id: Hash) {
    id == CommitId(l) || Reaches(AddAll(Known(l), bs), CommitId(l), id)
  }

  /** Kept whenever it arrives, or dropped whenever it arrives. */
  ghost predicate Placed(l: Ledger, bs: seq<Block>, b: Block) {
    Stays(l, b) || !Connectable(l, bs, ParentId(b))
  }

  ghost predicate SameBlocks(bs: seq<Block>, cs: seq<Block>) { forall b :: b in bs <==> b in cs }

  /** No two copies of one block are both kept. */
  ghost predicate OneKept(l: Ledger, bs: seq<Block>) {
    forall b, c :: b in bs && c in bs && b.id == c.id && Stays(l, b) && Stays(l, c) ==> b == c
  }

  ghost predicate OrderIrrelevant(l: Ledger, bs: seq<Block>) {
    forall cs :: SameBlocks(bs, cs) ==> SpeculateAll(l, cs) == SpeculateAll(l, bs)
  }

  // ------------------------------------------------------------------ what one arrival does

  lemma HeldNotPending(l: Ledger, k: Hash)
    requires Sound(l) && k in l.held
    ensures k !in l.pending
  {
    if k in l.pending { BlockIdInjective(l.held[k], l.pending[k]); }
  }

  /** Pending is exactly the known blocks connected to the frontier, held exactly the rest. */
  lemma {:induction false} PendingIsConnected(l: Ledger, k: Hash)
    requires Sound(l) && k in Known(l)
    ensures k in l.pending <==> Reaches(Known(l), CommitId(l), k)
    decreases Height(k)
  {
    if k in l.pending {
      PendingReaches(l, k);
      ReachesGrows(l.pending, Known(l), CommitId(l), k);
    } else {
      ParentBelow(l.held[k]);
      var p := ParentId(l.held[k]);
      assert !Ready(l, p);
      if p in Known(l) { PendingIsConnected(l, p); }
    }
  }

  /** So the two maps are a function of what is known and where the frontier is. */
  lemma KnownDetermines(l: Ledger, m: Ledger)
    requires Sound(l) && Sound(m) && Known(l) == Known(m) && l.log == m.log
    ensures l == m
  {
    hide Sound;
    hide Reaches;
    forall k | k in Known(l) ensures k in l.pending <==> k in m.pending {
      PendingIsConnected(l, k);
      PendingIsConnected(m, k);
    }
    forall k ensures k in l.held ==> k !in l.pending {
      if k in l.held { HeldNotPending(l, k); }
    }
    forall k ensures k in m.held ==> k !in m.pending {
      if k in m.held { HeldNotPending(m, k); }
    }
    SameParts(l.held, l.pending, m.held, m.pending);
  }

  lemma SameParts(a: map<Hash, Block>, b: map<Hash, Block>, c: map<Hash, Block>, d: map<Hash, Block>)
    requires a + b == c + d && forall k :: k in a + b ==> (k in b <==> k in d)
    requires (forall k :: k in a ==> k !in b) && forall k :: k in c ==> k !in d
    ensures a == c && b == d
  {
    forall k ensures k in b ==> k in d && b[k] == d[k] { if k in b { assert (a + b)[k] == (c + d)[k]; } }
    forall k ensures k in d ==> k in b { if k in d { assert k in a + b; } }
    forall k ensures k in a ==> k in c && a[k] == c[k] {
      if k in a { assert k in a + b && k !in d && k in c + d && (a + b)[k] == (c + d)[k]; }
    }
    forall k ensures k in c ==> k in a {
      if k in c { assert k in c + d && k !in b && k in a + b; }
    }
  }

  lemma MoveIsUpdate(held: map<Hash, Block>, pending: map<Hash, Block>, moved: map<Hash, Block>, b: Block)
    requires forall k :: k in held ==> k !in pending && k != b.id
    requires forall k :: k in moved ==> k in held && moved[k] == held[k]
    ensures (held - moved.Keys) + (pending[b.id := b] + moved) == (held + pending)[b.id := b]
  { }

  lemma ReadyKnows(l: Ledger, b: Block)
    requires Sound(l) && Deliverable(b) && Ready(l, ParentId(b))
    ensures Known(Speculate(l, b)) == Known(l)[b.id := b]
  {
    hide BlockId;
    hide Reaches;
    if b.id in l.held { BlockIdInjective(l.held[b.id], b); }
    forall k | k in l.held ensures k !in l.pending { HeldNotPending(l, k); }
    MoveIsUpdate(l.held, l.pending, Waiting(l.held, b.id), b);
  }

  lemma HeldKnows(l: Ledger, b: Block)
    requires Sound(l) && Deliverable(b) && !Ready(l, ParentId(b)) && Stays(l, b)
    ensures Known(Speculate(l, b)) == Known(l)[b.id := b]
  {
    hide Reaches;
    hide BlockId;
    if b.id in l.pending { BlockIdInjective(l.pending[b.id], b); }
  }

  lemma SpeculateKeepsSizes(l: Ledger, b: Block)
    requires WellSized(l.pending) && WellSized(l.held) && ValidHash(ParentId(b)) && HeldHigh(l)
    ensures var m := Speculate(l, b); WellSized(m.pending) && WellSized(m.held) && HeldHigh(m)
  {
    hide Reaches;
  }

  /** A block that stays becomes known, replacing any other copy; one that does not changes nothing. */
  lemma Arrives(l: Ledger, b: Block)
    requires Sound(l) && Deliverable(b)
    ensures var m := Speculate(l, b);
            && Sound(m) && m.log == l.log && l.pending.Keys <= m.pending.Keys
            && (if Stays(l, b) then Known(m) == Known(l)[b.id := b] else m == l)
  {
    hide BlockId;
    hide Reaches;
    hide Known;
    SpeculateInv(l, b);
    SpeculateKeepsSizes(l, b);
    if Ready(l, ParentId(b)) { ReadyKnows(l, b); } else if Stays(l, b) { HeldKnows(l, b); }
  }

  // ---------------------------------------------------------------- what all of them do

  /** From anywhere: nothing already ready is lost, what stays at the start stays, and only what
      arrives becomes known. */
  lemma {:induction false} AllArrive(l: Ledger, cs: seq<Block>)
    requires Sound(l) && forall c :: c in cs ==> Deliverable(c)
    ensures var m := SpeculateAll(l, cs);
            && Sound(m) && m.log == l.log && l.pending.Keys <= m.pending.Keys && Known(l).Keys <= Known(m).Keys
            && (forall c :: c in cs && Stays(l, c) ==> c.id in Known(m))
            && (forall k :: k in Known(m) ==> (k in Known(l) && Known(m)[k] == Known(l)[k]) || Known(m)[k] in cs)
  {
    hide LedgerInv;
    hide Speculate;
    hide Deliverable;
    hide Known;
    if cs != [] {
      var front, c := cs[..|cs| - 1], cs[|cs| - 1];
      assert cs == front + [c];
      AllArrive(l, front);
      Arrives(SpeculateAll(l, front), c);
    }
  }

  /** Those that stay at the start. */
  ghost function Keepers(l: Ledger, cs: seq<Block>): seq<Block> {
    if cs == [] then []
    else Keepers(l, cs[..|cs| - 1]) + if Stays(l, cs[|cs| - 1]) then [cs[|cs| - 1]] else []
  }

  lemma {:induction false} KeepersAre(l: Ledger, cs: seq<Block>)
    ensures forall c :: c in Keepers(l, cs) <==> c in cs && Stays(l, c)
  {
    if cs != [] {
      var front, c := cs[..|cs| - 1], cs[|cs| - 1];
      assert cs == front + [c];
      KeepersAre(l, front);
    }
  }

  lemma {:induction false} AddAllContents(known: map<Hash, Block>, bs: seq<Block>)
    ensures forall k :: k in AddAll(known, bs) <==> k in known || exists b :: b in bs && b.id == k
    ensures forall k :: k in AddAll(known, bs) ==>
              (AddAll(known, bs)[k] in bs && AddAll(known, bs)[k].id == k) ||
              (k in known && AddAll(known, bs)[k] == known[k] && forall b :: b in bs ==> b.id != k)
  {
    if bs != [] {
      var front, last := bs[..|bs| - 1], bs[|bs| - 1];
      assert bs == front + [last];
      AddAllContents(known, front);
    }
  }

  lemma AddAllSame(known: map<Hash, Block>, bs: seq<Block>, cs: seq<Block>)
    requires SameBlocks(bs, cs) && forall b, c :: b in bs && c in bs && b.id == c.id ==> b == c
    ensures AddAll(known, bs) == AddAll(known, cs)
  {
    AddAllContents(known, bs);
    AddAllContents(known, cs);
    hide AddAll;
    var x, y := AddAll(known, bs), AddAll(known, cs);
    forall k ensures k in x <==> k in y {
      if b :| b in bs && b.id == k { assert b in cs; }
      if b :| b in cs && b.id == k { assert b in bs; }
    }
    forall k | k in x ensures x[k] == y[k] {
      if x[k] in bs { assert x[k] in cs; }
    }
  }

  /** What can ever be known is filed, and a block's parent does not depend on the copy. */
  lemma JoinedIsFiled(l: Ledger, bs: seq<Block>)
    requires Sound(l) && forall b :: b in bs ==> Deliverable(b)
    ensures Filed(AddAll(Known(l), bs)) && WellSized(AddAll(Known(l), bs))
  {
    hide BlockId;
    AddAllContents(Known(l), bs);
    hide AddAll;
    forall k | k in AddAll(Known(l), bs)
      ensures var b := AddAll(Known(l), bs)[k]; b.id == k && ValidBlockId(b) && ValidHash(ParentId(b))
    {
      assert k in Known(l) || AddAll(Known(l), bs)[k] in bs;
    }
  }

  lemma SameParent(blocks: map<Hash, Block>, other: map<Hash, Block>, k: Hash)
    requires Filed(blocks) && WellSized(blocks) && Filed(other) && WellSized(other) && k in blocks && k in other
    ensures ParentId(blocks[k]) == ParentId(other[k])
  {
    hide BlockId;
    BlockIdInjective(blocks[k], other[k]);
  }

  /** Nothing becomes ready that no order could connect. */
  lemma ReadyIsConnectable(l: Ledger, bs: seq<Block>, cs: seq<Block>, id: Hash)
    requires Sound(l) && (forall b :: b in bs ==> Deliverable(b)) && forall c :: c in cs ==> c in bs
    requires Ready(SpeculateAll(l, cs), id)
    ensures Connectable(l, bs, id)
  {
    hide BlockId;
    hide Reaches;
    hide SpeculateAll;
    var m, joined := SpeculateAll(l, cs), AddAll(Known(l), bs);
    AllArrive(l, cs);
    JoinedIsFiled(l, bs);
    AddAllContents(Known(l), bs);
    hide AddAll;
    if id != CommitId(l) {
      PendingReaches(m, id);
      forall k | k in m.pending ensures k in joined && ParentId(joined[k]) == ParentId(m.pending[k]) {
        assert k in Known(m) && Known(m)[k] == m.pending[k];
        assert k in Known(l) || m.pending[k] in bs;
        SameParent(joined, m.pending, k);
      }
      ReachesGrows(m.pending, joined, CommitId(l), id);
    }
  }

  // ------------------------------------------------------------------------ sufficiency

  lemma PlacedStep(l: Ledger, bs: seq<Block>, front: seq<Block>, c: Block)
    requires Sound(l) && (forall b :: b in bs ==> Deliverable(b)) && (forall x :: x in front ==> x in bs)
    requires Deliverable(c) && Placed(l, bs, c)
    ensures var m := SpeculateAll(l, front);
            Known(Speculate(m, c)) == if Stays(l, c) then Known(m)[c.id := c] else Known(m)
  {
    hide LedgerInv;
    hide Deliverable;
    hide Connectable;
    hide Speculate;
    hide SpeculateAll;
    hide Known;
    AllArrive(l, front);
    var m := SpeculateAll(l, front);
    if Ready(m, ParentId(c)) { ReadyIsConnectable(l, bs, front, ParentId(c)); }
    Arrives(m, c);
  }

  lemma AddAllSnoc(known: map<Hash, Block>, bs: seq<Block>, b: Block)
    ensures AddAll(known, bs + [b]) == AddAll(known, bs)[b.id := b]
  {
    assert (bs + [b])[..|bs|] == bs;
  }

  /** If every block is placed, exactly the keepers become known, whatever the order. */
  lemma {:induction false} PlacedArrive(l: Ledger, bs: seq<Block>, cs: seq<Block>)
    requires Sound(l) && (forall b :: b in bs ==> Deliverable(b) && Placed(l, bs, b)) && forall c :: c in cs ==> c in bs
    ensures Known(SpeculateAll(l, cs)) == AddAll(Known(l), Keepers(l, cs))
  {
    hide Sound;
    hide Deliverable;
    hide Placed;
    hide Stays;
    hide Speculate;
    hide Known;
    if cs != [] {
      var front, c := cs[..|cs| - 1], cs[|cs| - 1];
      assert cs == front + [c];
      PlacedArrive(l, bs, front);
      PlacedStep(l, bs, front, c);
      AddAllSnoc(Known(l), Keepers(l, front), c);
      assert Stays(l, c) || Keepers(l, cs) == Keepers(l, front);
    }
  }

  lemma PlacedSuffices(l: Ledger, bs: seq<Block>, cs: seq<Block>)
    requires Sound(l) && OneKept(l, bs) && SameBlocks(bs, cs)
    requires forall b :: b in bs ==> Deliverable(b) && Placed(l, bs, b)
    ensures SpeculateAll(l, cs) == SpeculateAll(l, bs)
  {
    hide LedgerInv;
    hide Deliverable;
    hide Placed;
    hide Known;
    hide SpeculateAll;
    PlacedArrive(l, bs, bs);
    PlacedArrive(l, bs, cs);
    AllArrive(l, bs);
    AllArrive(l, cs);
    KeepersAre(l, bs);
    KeepersAre(l, cs);
    AddAllSame(Known(l), Keepers(l, bs), Keepers(l, cs));
    KnownDetermines(SpeculateAll(l, bs), SpeculateAll(l, cs));
  }

  // -------------------------------------------------------------------------- necessity

  lemma SpeculateSnoc(l: Ledger, cs: seq<Block>, c: Block)
    ensures SpeculateAll(l, cs + [c]) == Speculate(SpeculateAll(l, cs), c)
  {
    assert (cs + [c])[..|cs|] == cs;
  }

  lemma {:induction false} SpeculateFirst(l: Ledger, c: Block, cs: seq<Block>)
    ensures SpeculateAll(l, [c] + cs) == SpeculateAll(Speculate(l, c), cs)
  {
    if cs == [] {
      assert [c] + cs == [] + [c];
      SpeculateSnoc(l, [], c);
    } else {
      var front, last := cs[..|cs| - 1], cs[|cs| - 1];
      assert cs == front + [last] && [c] + cs == ([c] + front) + [last];
      SpeculateFirst(l, c, front);
      SpeculateSnoc(l, [c] + front, last);
      SpeculateSnoc(Speculate(l, c), front, last);
    }
  }

  ghost function Without(bs: seq<Block>, b: Block): (cs: seq<Block>)
    ensures forall c :: c in cs <==> c in bs && c != b
  {
    if bs == [] then []
    else
      var front, last := bs[..|bs| - 1], bs[|bs| - 1];
      assert bs == front + [last];
      Without(front, b) + if last == b then [] else [last]
  }

  /** Two copies that are both kept: the later one stands. */
  lemma LastCopyStands(l: Ledger, rest: seq<Block>, b: Block, c: Block)
    requires Sound(l) && (forall x :: x in rest ==> Deliverable(x)) && Deliverable(b) && Deliverable(c)
    requires b.id == c.id && b != c && Stays(l, b) && Stays(l, c)
    ensures SpeculateAll(l, rest + [b] + [c]) != SpeculateAll(l, rest + [c] + [b])
  {
    hide Sound;
    hide Deliverable;
    hide Speculate;
    hide SpeculateAll;
    hide Known;
    AllArrive(l, rest);
    var m := SpeculateAll(l, rest);
    SpeculateSnoc(l, rest, b);
    SpeculateSnoc(l, rest + [b], c);
    SpeculateSnoc(l, rest, c);
    SpeculateSnoc(l, rest + [c], b);
    Arrives(m, b);
    Arrives(m, c);
    Arrives(Speculate(m, b), c);
    Arrives(Speculate(m, c), b);
    assert Known(Speculate(Speculate(m, b), c))[b.id] == c && Known(Speculate(Speculate(m, c), b))[b.id] == b;
  }

  lemma PutBack(bs: seq<Block>, rest: seq<Block>, b: Block, c: Block)
    requires b in bs && c in bs && forall x :: x in rest <==> x in bs && x != b && x != c
    ensures SameBlocks(bs, rest + [b] + [c])
  { }

  lemma CopiesMustNotBothStay(l: Ledger, bs: seq<Block>, b: Block, c: Block)
    requires Sound(l) && (forall x :: x in bs ==> Deliverable(x)) && b in bs && c in bs
    requires b.id == c.id && b != c && Stays(l, b) && Stays(l, c)
    ensures !OrderIrrelevant(l, bs)
  {
    hide Sound;
    hide Deliverable;
    hide Stays;
    hide SpeculateAll;
    hide Without;
    var rest := Without(Without(bs, b), c);
    LastCopyStands(l, rest, b, c);
    PutBack(bs, rest, b, c);
    PutBack(bs, rest, c, b);
  }

  ghost predicate Misplaced(l: Ledger, bs: seq<Block>, b: Block) { b in bs && !Placed(l, bs, b) }

  lemma {:induction false} LowestMisplaced(l: Ledger, bs: seq<Block>, b: Block) returns (v: Block)
    requires Misplaced(l, bs, b)
    ensures Misplaced(l, bs, v) && forall c :: Misplaced(l, bs, c) ==> Height(v.id) <= Height(c.id)
    decreases Height(b.id)
  {
    if c :| Misplaced(l, bs, c) && Height(c.id) < Height(b.id) {
      v := LowestMisplaced(l, bs, c);
    } else {
      v := b;
    }
  }

  /** Below the lowest misplaced block, everything connectable gets connected without it. */
  lemma {:induction false} LowerConnects(l: Ledger, bs: seq<Block>, v: Block, x: Hash)
    requires Sound(l) && (forall b :: b in bs ==> Deliverable(b)) && Height(x) < Height(v.id)
    requires forall c :: Misplaced(l, bs, c) ==> Height(v.id) <= Height(c.id)
    requires Connectable(l, bs, x)
    ensures Ready(SpeculateAll(l, Without(bs, v)), x)
    decreases Height(x)
  {
    hide BlockId;
    hide SpeculateAll;
    hide Deliverable;
    var rest, joined := Without(bs, v), AddAll(Known(l), bs);
    var m := SpeculateAll(l, rest);
    AllArrive(l, rest);
    if x != CommitId(l) {
      JoinedIsFiled(l, bs);
      AddAllContents(Known(l), bs);
      var b := joined[x];
      var q := ParentId(b);
      ParentBelow(b);
      LowerConnects(l, bs, v, q);
      if x !in Known(l) {
        assert b in bs && !Misplaced(l, bs, b) && Stays(l, b);
        assert b in rest;
      }
      assert x in Known(m);
      if x in m.held {
        SameParent(joined, m.held, x);
      }
    }
  }

  lemma MisplacedMatters(l: Ledger, bs: seq<Block>, b: Block)
    requires Sound(l) && (forall x :: x in bs ==> Deliverable(x)) && Misplaced(l, bs, b)
    ensures !OrderIrrelevant(l, bs)
  {
    hide BlockId;
    hide Sound;
    hide SpeculateAll;
    hide Speculate;
    hide Stays;
    hide Connectable;
    var v := LowestMisplaced(l, bs, b);
    var rest := Without(bs, v);
    ParentBelow(v);
    LowerConnects(l, bs, v, ParentId(v));
    SpeculateFirst(l, v, rest);
    SpeculateSnoc(l, rest, v);
    NewCopyChanges(l, rest, v);
    assert SameBlocks(bs, [v] + rest) && SameBlocks(bs, rest + [v]);
  }

  /** A block that did not stay at first, and was not known in that copy, is news once its parent is
      ready. */
  lemma NewCopyChanges(l: Ledger, rest: seq<Block>, v: Block)
    requires Sound(l) && (forall x :: x in rest ==> Deliverable(x)) && Deliverable(v) && v !in rest && !Stays(l, v)
    requires Ready(SpeculateAll(l, rest), ParentId(v))
    ensures Speculate(SpeculateAll(l, rest), v) != SpeculateAll(l, rest) && Speculate(l, v) == l
  {
    hide BlockId;
    hide SpeculateAll;
    hide Speculate;
    hide Reaches;
    var m := SpeculateAll(l, rest);
    AllArrive(l, rest);
    Arrives(m, v);
    Arrives(l, v);
    assert Known(Speculate(m, v))[v.id] == v;
  }

  // ------------------------------------------------------------------------- the theorem

  /** Whatever order blocks arrive in, and however often, the ledger ends up the same if and only if
      each block is kept or dropped regardless of when it comes, and no two copies of one are kept. */
  lemma ArrivalOrderIrrelevant(l: Ledger, bs: seq<Block>)
    requires Sound(l) && forall b :: b in bs ==> Deliverable(b)
    ensures OrderIrrelevant(l, bs) <==> OneKept(l, bs) && forall b :: b in bs ==> Placed(l, bs, b)
  {
    hide Sound;
    hide Deliverable;
    hide Placed;
    hide Stays;
    hide SpeculateAll;
    if b :| Misplaced(l, bs, b) {
      MisplacedMatters(l, bs, b);
    } else if b, c :| b in bs && c in bs && b.id == c.id && Stays(l, b) && Stays(l, c) && b != c {
      CopiesMustNotBothStay(l, bs, b, c);
    } else {
      forall b | b in bs ensures Placed(l, bs, b) { assert !Misplaced(l, bs, b); }
      forall cs | SameBlocks(bs, cs) ensures SpeculateAll(l, cs) == SpeculateAll(l, bs) { PlacedSuffices(l, bs, cs); }
    }
  }

  /** A block over a parent that has not arrived, with a certificate at or below the commit round. */
  lemma EarlyChildIsLost(l: Ledger, p: Block, c: Block)
    requires Sound(l) && Deliverable(p) && Deliverable(c)
    requires Ready(l, ParentId(p)) && ParentId(c) == p.id && !Ready(l, p.id)
    requires QCRound(c.qc) <= CommitRound(l) && c.id !in l.held
    ensures c.id in SpeculateAll(l, [p, c]).pending
    ensures c.id !in Known(SpeculateAll(l, [c, p]))
  {
    hide BlockId;
    hide Reaches;
    hide SpeculateAll;
    assert [p, c] == [] + [p] + [c] && [c, p] == [] + [c] + [p];
    SpeculateSnoc(l, [] + [p], c);
    SpeculateSnoc(l, [] + [c], p);
    SpeculateSnoc(l, [], p);
    SpeculateSnoc(l, [], c);
    SpeculateNone(l);
    if c.id in l.pending { BlockIdInjective(c, l.pending[c.id]); }
    ParentBelow(c);
    Arrives(l, p);
    PendsUnlessMoved(l, p);
    PendsUnlessMoved(Speculate(l, p), c);
  }

  lemma SpeculateNone(l: Ledger)
    ensures SpeculateAll(l, []) == l
  { }

  lemma PendsUnlessMoved(l: Ledger, b: Block)
    requires Ready(l, ParentId(b))
    ensures b.id in Speculate(l, b).pending
  { }

  /** Such a parent and child exist for a new ledger: the child's certificate claims round 0 for a
      block of round 1. */
  lemma EarlyChildExists() returns (p: Block, c: Block)
    ensures Deliverable(p) && Deliverable(c)
    ensures c.id in SpeculateAll(NEW_LEDGER, [p, c]).pending && c.id !in Known(SpeculateAll(NEW_LEDGER, [c, p]))
    ensures !Placed(NEW_LEDGER, [p, c], c)
  {
    p, c := ParentAndChild();
    hide BlockId;
    NewLedgerInv();
    EarlyChildIsLost(NEW_LEDGER, p, c);
    NotBoth(p, c);
  }

  lemma ParentAndChild() returns (p: Block, c: Block)
    ensures Deliverable(p) && Deliverable(c) && ParentId(p) == GENESIS_BLOCK.id && ParentId(c) == p.id
    ensures p.id != GENESIS_BLOCK.id && QCRound(c.qc) == 0
  {
    hide BlockPreimage;
    p := NewBlock(0, 1, [], Some(GENESIS_QC));
    c := NewBlock(0, 2, [], Some(ZeroQC(p.id)));
    if p.id == GENESIS_BLOCK.id { BlockIdInjective(p, GENESIS_BLOCK); }
  }

  lemma NotBoth(p: Block, c: Block)
    requires Deliverable(p) && Deliverable(c) && ParentId(p) == GENESIS_BLOCK.id && ParentId(c) == p.id
    requires p.id != GENESIS_BLOCK.id && QCRound(c.qc) == 0
    ensures !Placed(NEW_LEDGER, [p, c], c)
  {
    hide BlockId;
    var joined := AddAll(Known(NEW_LEDGER), [p, c]);
    assert [p, c] == [] + [p] + [c];
    AddAllSnoc(Known(NEW_LEDGER), [] + [p], c);
    AddAllSnoc(Known(NEW_LEDGER), [], p);
    ParentBelow(p);
    ParentBelow(c);
    assert joined[p.id] == p;
    assert Reaches(joined, GENESIS_BLOCK.id, p.id);
  }

  /** Two copies of one block that a new ledger keeps: an id does not cover the round its certificate
      states. */
  lemma CopiesExist() returns (b: Block, c: Block)
    ensures Deliverable(b) && Deliverable(c) && b.id == c.id && QCRound(b.qc) != QCRound(c.qc)
    ensures Stays(NEW_LEDGER, b) && Stays(NEW_LEDGER, c)
    ensures !OrderIrrelevant(NEW_LEDGER, [b, c])
  {
    hide BlockPreimage;
    var one := GENESIS_QC.(voteInfo := GENESIS_QC.voteInfo.(round := 1));
    var two := GENESIS_QC.(voteInfo := GENESIS_QC.voteInfo.(round := 2));
    b := NewBlock(0, 3, [], Some(one));
    c := b.(qc := Some(two));
    NewLedgerInv();
    CopiesMustNotBothStay(NEW_LEDGER, [b, c], b, c);
  }

  /** Outside the theorem: a block whose parent id is not well sized has no parent here, ever. */
  lemma UnsizedNeverReady(l: Ledger, b: Block)
    requires LedgerInv(l) && !ValidHash(ParentId(b))
    ensures !Ready(l, ParentId(b))
  {
    hide BlockPreimage;
    LogIdsAreShas(l.log, |l.log| - 1);
  }

  // ----------------------------------------------------------------- what a commit keeps

  lemma CommitKeepsHigh(l: Ledger, id: Hash)
    requires LedgerInv(l) && HeldHigh(l)
    ensures HeldHigh(Commit(l, id))
  {
    hide BlockId;
    if id != CommitId(l) && Reaches(l.pending, CommitId(l), id) { PathExtends(l, id); }
  }

  lemma SpeculateKeepsHigh(l: Ledger, b: Block)
    requires HeldHigh(l)
    ensures HeldHigh(Speculate(l, b))
  {
    hide Reaches;
  }
}
