// Parent chains. A block id is a digest over its parent's id, so ids are well founded and
// the chain below an id is a function of the id alone.
module Chains {
  import opened Wire
  import opened Hashing

  type Execution = (Hash, Payload) -> Hash

  // ---------------------------------------------------------------------- well-foundedness

  /** How deeply digests nest inside a hash value. */
  ghost function Height(h: Hash): nat
    decreases h
  {
    if h.Raw? then 0 else 1 + ItemsHeight(h.preimage)
  }

  ghost function ItemHeight(it: Item): nat
    decreases it
  {
    if it.Oct? then 0 else Height(it.h)
  }

  ghost function ItemsHeight(s: seq<Item>): nat
    decreases s
  {
    if s == [] then 0
    else
      var first, rest := ItemHeight(s[0]), ItemsHeight(s[1..]);
      if first > rest then first else rest
  }

  lemma {:induction false} ItemsHeightBounds(s: seq<Item>, i: nat)
    requires i < |s| && s[i].Digest?
    ensures Height(s[i].h) <= ItemsHeight(s)
  {
    if i > 0 {
      assert s[i] == s[1..][i - 1];
      ItemsHeightBounds(s[1..], i - 1);
    }
  }

  /** Parent links are acyclic: a parent is strictly below its child. */
  lemma ParentBelow(b: Block)
    requires ValidBlockId(b)
    ensures Height(ParentId(b)) < Height(b.id)
  {
    var p := ParentId(b);
    if p.Sha? {
      var pre := b.id.preimage;
      assert Digest(p) in HashField(p);
      assert Digest(p) in pre;
      var i :| 0 <= i < |pre| && pre[i] == Digest(p);
      ItemsHeightBounds(pre, i);
    }
  }

  // -------------------------------------------------------------------- the chain of an id

  ghost predicate Names(h: Hash, b: Block) {
    b.id == h && ValidBlockId(b) && ValidHash(ParentId(b))
  }

  ghost predicate HasBlock(h: Hash) { exists b :: Names(h, b) }

  ghost function BlockOf(h: Hash): (b: Block)
    requires HasBlock(h)
    ensures Names(h, b)
  {
    var b :| Names(h, b); b
  }

  /** Everything a chain reads from a block is determined by its id. */
  lemma BlockOfIs(b: Block)
    requires Names(b.id, b)
    ensures HasBlock(b.id)
    ensures var c := BlockOf(b.id);
            c.author == b.author && c.round == b.round && c.payload == b.payload && ParentId(c) == ParentId(b)
  {
    BlockIdInjective(b, BlockOf(b.id));
  }

  ghost predicate Rooted(h: Hash) { h == GENESIS_BLOCK.id || !HasBlock(h) }

  ghost function ParentOf(h: Hash): (p: Hash)
    requires !Rooted(h)
    ensures Height(p) < Height(h)
  {
    ParentBelow(BlockOf(h));
    ParentId(BlockOf(h))
  }

  /** The ids from genesis up to `h`, oldest first. */
  ghost function ChainOf(h: Hash): (c: seq<Hash>)
    ensures |c| > 0 && c[|c| - 1] == h
    decreases Height(h)
  {
    if Rooted(h) then [h] else ChainOf(ParentOf(h)) + [h]
  }

  /** Executing every payload from genesis up to `h`. */
  ghost function Replay(execute: Execution, h: Hash): Hash
    decreases Height(h)
  {
    if Rooted(h) then GENESIS_STATE
    else execute(Replay(execute, ParentOf(h)), BlockOf(h).payload)
  }

  /** `anc` is on the chain of `h`. */
  ghost predicate OnChain(anc: Hash, h: Hash) { anc in ChainOf(h) }

  lemma ChainStep(b: Block)
    requires Names(b.id, b) && b.id != GENESIS_BLOCK.id
    ensures ChainOf(b.id) == ChainOf(ParentId(b)) + [b.id]
    ensures forall e: Execution :: Replay(e, b.id) == e(Replay(e, ParentId(b)), b.payload)
  {
    BlockOfIs(b);
  }

  /** The chain of an ancestor is a prefix. */
  lemma {:induction false} ChainPrefix(anc: Hash, h: Hash)
    requires OnChain(anc, h)
    ensures ChainOf(anc) <= ChainOf(h)
    decreases Height(h)
  {
    if anc != h {
      assert !Rooted(h);
      ChainPrefix(anc, ParentOf(h));
    }
  }

  lemma GenesisNamed()
    ensures Names(GENESIS_BLOCK.id, GENESIS_BLOCK)
  { }

  // --------------------------------------------------------- reachability inside a block map

  /** Following parent links from `id` inside `blocks` arrives at `root`. */
  ghost predicate Reaches(blocks: map<Hash, Block>, root: Hash, id: Hash)
    decreases Height(id)
  {
    id in blocks &&
    var p := ParentId(blocks[id]);
    p == root || (Height(p) < Height(id) && Reaches(blocks, root, p))
  }

  /** The blocks from just above `root` up to `id`, oldest first. */
  ghost function Path(blocks: map<Hash, Block>, root: Hash, id: Hash): (p: seq<Block>)
    requires Reaches(blocks, root, id)
    ensures |p| > 0
    decreases Height(id)
  {
    if ParentId(blocks[id]) == root then [blocks[id]]
    else Path(blocks, root, ParentId(blocks[id])) + [blocks[id]]
  }

  /** Keys are ids, and every id is the digest of its own block. */
  ghost predicate Filed(blocks: map<Hash, Block>) {
    forall k :: k in blocks ==> blocks[k].id == k && ValidBlockId(blocks[k])
  }

  lemma ReachesAbove(blocks: map<Hash, Block>, root: Hash, id: Hash)
    requires Filed(blocks) && Reaches(blocks, root, id)
    ensures Height(root) < Height(id)
    decreases Height(id)
  {
    ParentBelow(blocks[id]);
    if ParentId(blocks[id]) != root { ReachesAbove(blocks, root, ParentId(blocks[id])); }
  }

  /** More blocks never lose a path. */
  lemma {:induction false} ReachesGrows(blocks: map<Hash, Block>, more: map<Hash, Block>, root: Hash, id: Hash)
    requires Reaches(blocks, root, id)
    requires forall k :: k in blocks ==> k in more && ParentId(more[k]) == ParentId(blocks[k])
    ensures Reaches(more, root, id)
    decreases Height(id)
  {
    if ParentId(blocks[id]) != root { ReachesGrows(blocks, more, root, ParentId(blocks[id])); }
  }

  lemma {:induction false} ReachesTransitive(blocks: map<Hash, Block>, root: Hash, mid: Hash, id: Hash)
    requires Reaches(blocks, mid, id) && Reaches(blocks, root, mid)
    requires Filed(blocks)
    ensures Reaches(blocks, root, id)
    decreases Height(id)
  {
    ParentBelow(blocks[id]);
    if ParentId(blocks[id]) != mid { ReachesTransitive(blocks, root, mid, ParentId(blocks[id])); }
  }

  // -------------------------------------------------------------- deleting orphans to a fixpoint

  /** Nothing left is an orphan: every block is the root, or its parent is the root or still there. */
  ghost predicate NoOrphans(blocks: map<Hash, Block>, root: Hash) {
    forall k :: k in blocks ==> k == root || ParentId(blocks[k]) == root || ParentId(blocks[k]) in blocks
  }

  /** Only orphans have been deleted so far. */
  ghost predicate OnlyOrphansGone(before: map<Hash, Block>, now: map<Hash, Block>, root: Hash) {
    && (forall k :: k in now ==> k in before && now[k] == before[k])
    && (forall k :: k in before && (k == root || Reaches(before, root, k)) ==> k in now)
  }

  lemma OrphanIsUnreachable(before: map<Hash, Block>, now: map<Hash, Block>, root: Hash, id: Hash)
    requires OnlyOrphansGone(before, now, root) && id in now && id != root
    requires ParentId(now[id]) != root && ParentId(now[id]) !in now
    ensures OnlyOrphansGone(before, now - {id}, root)
  {
    var p := ParentId(before[id]);
    assert now[id] == before[id];
    assert !Reaches(before, root, p);
    assert !Reaches(before, root, id);
  }

  lemma {:induction false} SurvivorReaches(blocks: map<Hash, Block>, root: Hash, k: Hash)
    requires Filed(blocks) && NoOrphans(blocks, root) && k in blocks && k != root
    ensures Reaches(blocks, root, k)
    decreases Height(k)
  {
    hide BlockId;
    ParentBelow(blocks[k]);
    if ParentId(blocks[k]) != root { SurvivorReaches(blocks, root, ParentId(blocks[k])); }
  }

  /** The root and the blocks that reach it. */
  ghost function Reaching(blocks: map<Hash, Block>, root: Hash): map<Hash, Block> {
    map k | k in blocks && (k == root || Reaches(blocks, root, k)) :: blocks[k]
  }

  /** In whatever order orphans go, what is left is the root and exactly the blocks whose parent
      chain reaches it. */
  lemma FixpointIsReachability(before: map<Hash, Block>, now: map<Hash, Block>, root: Hash)
    requires Filed(before) && OnlyOrphansGone(before, now, root) && NoOrphans(now, root)
    ensures now == Reaching(before, root)
  {
    hide BlockId;
    forall k | k in now ensures k == root || Reaches(before, root, k) {
      if k != root {
        SurvivorReaches(now, root, k);
        ReachesGrows(now, before, root, k);
      }
    }
  }

  lemma {:induction false} PathHeights(blocks: map<Hash, Block>, root: Hash, id: Hash, i: nat)
    requires Filed(blocks) && Reaches(blocks, root, id) && i < |Path(blocks, root, id)|
    ensures Height(Path(blocks, root, id)[i].id) <= Height(id)
    decreases Height(id)
  {
    hide BlockId;
    var path, p := Path(blocks, root, id), ParentId(blocks[id]);
    if i < |path| - 1 {
      ParentBelow(blocks[id]);
      PathHeights(blocks, root, p, i);
    }
  }

  /** Blocks at or below the root's height are on nobody's path to it. */
  lemma {:induction false} ReachesAvoids(blocks: map<Hash, Block>, gone: set<Hash>, root: Hash, k: Hash)
    requires Filed(blocks) && Reaches(blocks, root, k) && forall g :: g in gone ==> Height(g) <= Height(root)
    ensures Reaches(blocks - gone, root, k)
    decreases Height(k)
  {
    hide BlockId;
    ReachesAbove(blocks, root, k);
    ParentBelow(blocks[k]);
    if ParentId(blocks[k]) != root { ReachesAvoids(blocks, gone, root, ParentId(blocks[k])); }
  }
}
