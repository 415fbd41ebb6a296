/**
 * The JIT's translation cache: a two-level map from guest address to cache
 * entry.  The lower level is an ordered store that creates a blank entry the
 * first time an address is looked up (an AVL tree in the emulator, a `map`
 * here); the upper level is a direct-mapped hash table whose slots are
 * overwritten on collision.  Invalidation retires the whole current tree onto
 * a list of old generations instead of freeing it, because the block that is
 * running may belong to it; garbage collection tears that list down later.
 */
module CodeCache {
  import opened Errors
  import CodeBlockIntp

  /** The number of entry constructions after which the cache decides something is wrong (MAX_ENTRIES). */
  const MaxEntries: nat := 1024 * 1024

  /** A 32-bit guest address. */
  type Addr32 = x: int | 0 <= x < 0x1_0000_0000

  /** The current tree of a cache generation: one entry per address looked up since the last invalidation. */
  type Tree = map<Addr32, CacheEntry>

  /**
   * The hash slot of an address.  The emulator computes `addr & MASK` where
   * MASK is one less than the (power-of-two) table length, which is the
   * remainder of the address by that length.
   */
  function HashIdx(addr: Addr32, len: nat): (r: nat)
    requires len > 0
    ensures r < len
    ensures addr < len ==> r == addr
  {
    addr % len
  }

  /** A cache entry: the address it translates (its tree key) and the interpreter block compiled for it. */
  class CacheEntry {
    const key: Addr32
    const blk: CodeBlockIntp.IntpBlock

    /** cache_entry_ctor's allocation: a zeroed entry holding a freshly initialised block. */
    constructor (key: Addr32)
      ensures this.key == key && fresh(blk)
      ensures blk.Valid() && blk.instList == [] && blk.instCount == 0 && blk.nSlots == 0 && blk.cycleCount == 0
    {
      this.key := key;
      blk := new CodeBlockIntp.IntpBlock();
    }
  }

  class CodeCache {
    /** The hash table's length, CODE_CACHE_HASH_TBL_MASK + 1. */
    const tblLen: nat
    /** The upper level: a direct-mapped table; null is an empty slot. */
    const tbl: array<CacheEntry?>
    /** The lower level: the current generation's tree. */
    var tree: Tree
    /** Retired generations not yet torn down, most recently retired first. */
    var oldroot: seq<Tree>
    /** Entries constructed since the last invalidation. */
    var nEntries: nat
    /** The generations garbage collection has torn down, in the order it tore them down. */
    ghost var reclaimed: seq<Tree>

    /**
     * The cache's invariant.  Every tree entry is filed under its own key; the
     * counter counts the current tree and has not reached the ceiling; and
     * every occupied hash slot holds the current tree's entry for an address
     * that hashes to that slot, so the hash is a subset of the tree.
     */
    ghost predicate Valid()
      reads this, tbl
    {
      tblLen > 0 && tbl.Length == tblLen &&
      nEntries == |tree| < MaxEntries &&
      (forall a | a in tree :: tree[a].key == a) &&
      (forall i | 0 <= i < tbl.Length && tbl[i] != null ::
         HashIdx(tbl[i].key, tblLen) == i && tbl[i].key in tree && tree[tbl[i].key] == tbl[i])
    }

    /** code_cache_init on a zeroed cache: an empty tree, an empty table and nothing retired. */
    constructor (len: nat)
      requires len > 0
      ensures Valid() && fresh(tbl) && tblLen == len
      ensures tree == map[] && oldroot == [] && nEntries == 0 && reclaimed == []
      ensures forall i | 0 <= i < tbl.Length :: tbl[i] == null
    {
      tblLen := len;
      tbl := new CacheEntry?[len](_ => null);
      tree := map[];
      oldroot := [];
      nEntries := 0;
      reclaimed := [];
    }

    /**
     * code_cache_find_slow: the tree's entry for addr, constructing and
     * inserting a blank one when there is none.  Each construction counts, and
     * the construction that brings the count to MaxEntries raises
     * ERROR_INTEGRITY.
     */
    method FindSlow(addr: Addr32) returns (r: Result<CacheEntry>)
      requires Valid()
      modifies this
      ensures unchanged(this`oldroot) && unchanged(this`reclaimed)
      ensures addr in old(tree) ==> r == Ok(old(tree)[addr]) && tree == old(tree) && nEntries == old(nEntries)
      ensures addr !in old(tree) ==>
                nEntries == old(nEntries) + 1 &&
                (r.Err? <==> nEntries >= MaxEntries) &&
                (r.Err? ==> r.code == ErrorIntegrity && tree == old(tree)) &&
                (r.Ok? ==> fresh(r.value) && tree == old(tree)[addr := r.value] && r.value.blk.Blank())
      ensures r.Ok? ==> Valid() && r.value.key == addr
    {
      if addr in tree {
        return Ok(tree[addr]);
      }
      var ent := new CacheEntry(addr);
      nEntries := nEntries + 1;
      if nEntries >= MaxEntries {
        return Err(ErrorIntegrity);
      }
      tree := tree[addr := ent];
      return Ok(ent);
    }

    /**
     * code_cache_find: the entry for addr.  A hash hit counts only when the
     * slot's key is addr itself; anything else goes to the tree, and the slot
     * is overwritten with what the tree returned.  Either way the answer is
     * the tree's entry for addr and slot HashIdx(addr) holds it afterwards, so
     * a repeated lookup of addr hits.
     */
    method Find(addr: Addr32) returns (r: Result<CacheEntry>)
      requires Valid()
      modifies this, tbl
      ensures var h := HashIdx(addr, tblLen);
        old(tbl[h]) != null && old(tbl[h].key) == addr ==>
          r == Ok(old(tbl[h])) && unchanged(this) && unchanged(tbl)
      ensures unchanged(this`oldroot) && unchanged(this`reclaimed)
      ensures forall i | 0 <= i < tbl.Length && i != HashIdx(addr, tblLen) :: tbl[i] == old(tbl[i])
      ensures addr in old(tree) ==> r == Ok(old(tree)[addr]) && tree == old(tree) && nEntries == old(nEntries)
      ensures addr !in old(tree) ==>
                nEntries == old(nEntries) + 1 &&
                (r.Err? <==> nEntries >= MaxEntries) &&
                (r.Err? ==> r.code == ErrorIntegrity && tree == old(tree)) &&
                (r.Ok? ==> fresh(r.value) && tree == old(tree)[addr := r.value] && r.value.blk.Blank())
      ensures r.Ok? ==> Valid() && r.value.key == addr && tbl[HashIdx(addr, tblLen)] == r.value
    {
      var h := HashIdx(addr, tblLen);
      var maybe := tbl[h];
      if maybe != null && maybe.key == addr {
        return Ok(maybe);
      }
      r := FindSlow(addr);
      if r.Err? {
        return r;
      }
      tbl[h] := r.value;
    }

    /**
     * code_cache_invalidate_all: retire the current tree to the front of the
     * old-generation list, start an empty tree, clear every hash slot and
     * reset the counter.  Nothing is torn down, so the retired entries stay
     * intact for a block that may still be running.
     */
    method InvalidateAll()
      requires Valid()
      modifies this, tbl
      ensures Valid()
      ensures oldroot == [old(tree)] + old(oldroot) && reclaimed == old(reclaimed)
      ensures tree == map[] && nEntries == 0
      ensures forall i | 0 <= i < tbl.Length :: tbl[i] == null
    {
      oldroot := [tree] + oldroot;
      tree := map[];
      for i := 0 to tbl.Length
        invariant forall j | 0 <= j < i :: tbl[j] == null
        invariant tree == map[] && oldroot == [old(tree)] + old(oldroot) && reclaimed == old(reclaimed)
      {
        tbl[i] := null;
      }
      nEntries := 0;
    }

    /**
     * code_cache_gc: tear down the retired generations one at a time from the
     * front of the list until it is empty.  Each retired tree is torn down
     * exactly once, most recently retired first; the current tree and the
     * table are left alone.
     */
    method Gc()
      requires Valid()
      modifies this
      ensures Valid()
      ensures oldroot == [] && reclaimed == old(reclaimed) + old(oldroot)
      ensures tree == old(tree) && nEntries == old(nEntries)
    {
      while |oldroot| > 0
        invariant Valid() && tree == old(tree) && nEntries == old(nEntries)
        invariant reclaimed + oldroot == old(reclaimed) + old(oldroot)
        decreases |oldroot|
      {
        var next := oldroot[1..];
        reclaimed := reclaimed + [oldroot[0]];
        oldroot := next;
      }
    }

    /**
     * code_cache_cleanup: invalidate and then collect, so that every
     * generation, the current one included, has been torn down and nothing is
     * left retired.
     */
    method Cleanup()
      requires Valid()
      modifies this, tbl
      ensures Valid()
      ensures oldroot == [] && reclaimed == old(reclaimed) + [old(tree)] + old(oldroot)
      ensures tree == map[] && nEntries == 0
      ensures forall i | 0 <= i < tbl.Length :: tbl[i] == null
    {
      InvalidateAll();
      Gc();
    }
  }

  /**
   * Two lookups of the same address in a row: the second is answered from
   * the hash slot the first one filled, with the same entry and without
   * constructing anything.
   */
  method FindTwice(c: CodeCache, addr: Addr32) returns (r1: Result<CacheEntry>, r2: Result<CacheEntry>)
    requires c.Valid()
    modifies c, c.tbl
    ensures r1.Ok? ==> r2 == r1 && c.Valid() && addr in c.tree && c.tree[addr] == r1.value
  {
    r1 := c.Find(addr);
    if r1.Err? {
      return r1, r1;
    }
    r2 := c.Find(addr);
  }
}
