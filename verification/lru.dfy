/**
 * The chunk cache: a map from chunk coordinate to list node, plus a doubly
 * linked list of those nodes between two sentinels, least recently used
 * first. The ghost sequence `interior` is the list between the sentinels;
 * the map is the one that sequence induces (NodeMap), and the recency order
 * of the cache is the sequence of its keys (Keys).
 */
module Lru {
  import opened Wrappers
  import opened ChunkGrid
  import opened LruSpec
  import opened PersistStorage

  class Node {
    var next: Node?
    var prev: Node?
    const key: ChunkCoordinate
    const val: Grid

    /** A sentinel; its key and value are never read. */
    constructor Sentinel()
      ensures next == null && prev == null
    {
      key := ChunkCoordinate(0, 0);
      val := [];
      next := null;
      prev := null;
    }

    constructor (key: ChunkCoordinate, data: Grid)
      ensures this.key == key && this.val == data
      ensures next == null && prev == null
    {
      this.key := key;
      this.val := data;
      next := null;
      prev := null;
    }
  }

  /** The cached data, keyed like the map of nodes. */
  ghost function EntriesOf(cache: map<ChunkCoordinate, Node>): map<ChunkCoordinate, Grid>
  {
    map k | k in cache :: cache[k].val
  }

  /** The coordinates of a run of nodes, in list order. */
  ghost function Keys(s: seq<Node>): seq<ChunkCoordinate>
  {
    seq(|s|, i requires 0 <= i < |s| => s[i].key)
  }

  /** The map from coordinate to node that a run of nodes induces. */
  ghost function NodeMap(s: seq<Node>): map<ChunkCoordinate, Node>
  {
    if s == [] then map[] else NodeMap(s[1..])[s[0].key := s[0]]
  }

  class LRU {
    const cap: int
    const mruPtr: Node
    const lruPtr: Node
    var cache: map<ChunkCoordinate, Node>
    const storage: Storage

    /** The nodes strictly between the two sentinels, least recent first. */
    ghost var interior: seq<Node>
    /** Every node of the list, sentinels included. */
    ghost var Repr: set<Node>

    /** The whole list, from the least-recent sentinel to the most-recent one. */
    ghost function Nodes(): seq<Node>
      reads this`interior
    {
      [lruPtr] + interior + [mruPtr]
    }

    /** The sentinel-delimited list: distinct nodes, each linked to its successor both ways. */
    ghost predicate Linked()
      reads this`interior, this`Repr, Repr
    {
      && (forall i :: 0 <= i < |Nodes()| ==> Nodes()[i] in Repr)
      && Distinct(Nodes())
      && (forall i {:trigger Nodes()[i].next} :: 0 <= i < |Nodes()| - 1 ==> Nodes()[i].next == Nodes()[i + 1])
      && (forall i {:trigger Nodes()[i].prev} :: 0 < i < |Nodes()| ==> Nodes()[i].prev == Nodes()[i - 1])
    }

    /** The list and the map agree: the map is the one the list induces, and each coordinate is listed once. */
    ghost predicate Shaped()
      reads this, Repr
    {
      && Linked()
      && cache == NodeMap(interior)
      && Distinct(Keys(interior))
    }

    /** Shaped and within capacity. */
    ghost predicate Valid()
      reads this, Repr
    {
      Shaped() && |cache| <= Bound(cap)
    }

    /** A shaped cache is a well-formed cache value: its order lists each cached coordinate once. */
    lemma AbstractWellFormed()
      requires Shaped()
      ensures WellFormed(Abstract())
    {
      NodesCoherent(interior);
    }

    /** The cache as a value: recency order, cached data, and what persistence holds. */
    ghost function Abstract(): CacheState
      reads this, storage
    {
      CacheState(Keys(interior), EntriesOf(cache), storage.files)
    }

    constructor (cap: int, storage: Storage)
      ensures Valid() && fresh(Repr)
      ensures Abstract() == CacheState([], map[], storage.files)
      ensures this.cap == cap && this.storage == storage
    {
      this.cap := cap;
      this.storage := storage;
      var mru := new Node.Sentinel();
      var lru := new Node.Sentinel();
      mruPtr := mru;
      lruPtr := lru;
      cache := map[];
      new;
      mru.prev := lru;
      lru.next := mru;
      interior := [];
      Repr := {lru, mru};
      assert Nodes() == [lru, mru];
      assert EntriesOf(cache) == map[];
    }

    /**
     * A hit returns the cached data and makes it the most recent entry; a
     * miss loads from persistence and caches what it finds.
     */
    method Get(key: ChunkCoordinate) returns (r: Option<Grid>)
      requires Valid()
      modifies this, Repr, storage`files
      ensures Valid() && fresh(Repr - old(Repr))
      ensures WellFormed(old(Abstract())) && (r, Abstract()) == LruSpec.Get(old(Abstract()), cap, key)
    {
      AbstractWellFormed();
      if key in cache {
        var node := cache[key];
        ghost var s := interior;
        NodeMapDomain(s);
        ghost var i := IndexOf(Keys(s), key);
        MoveShape(s, i);
        MoveToMostRecent(node, i);
        return Some(node.val);
      } else {
        var loaded := storage.LoadFromFile(key);
        if loaded.Some? {
          Put(key, loaded.value);
          return loaded;
        }
      }
      return None;
    }

    /**
     * Stores val as the most recent entry for key; if the cache then holds
     * more than cap entries, the least recent one is saved to persistence
     * and dropped.
     */
    method Put(key: ChunkCoordinate, val: Grid)
      requires Valid()
      modifies this, Repr, storage`files
      ensures Valid() && fresh(Repr - old(Repr))
      ensures WellFormed(old(Abstract())) && Abstract() == LruSpec.Put(old(Abstract()), cap, key, val)
    {
      AbstractWellFormed();
      ghost var c := Abstract();
      EntriesSize(cache);
      Store(key, val);
      ghost var r1 := Repr;
      EntriesSize(cache);
      if |cache| > cap {
        PutEvictShape(c, cap, key, val);
        EvictLeastRecent();
      } else {
        PutKeepShape(c, cap, key, val);
      }
      assert Repr == r1;
      PutBounded(c, cap, key, val);
      EntriesSize(cache);
    }

    /** The first half of put: any node of key is unlinked, and a fresh node for key becomes the most recent. */
    method Store(key: ChunkCoordinate, val: Grid)
      requires Shaped()
      modifies this`cache, this`interior, this`Repr, Repr`next, Repr`prev
      ensures Shaped() && fresh(Repr - old(Repr))
      ensures Keys(interior) == Touch(old(Keys(interior)), key)
      ensures EntriesOf(cache) == old(EntriesOf(cache))[key := val]
    {
      ghost var e := EntriesOf(cache);
      NodeMapDomain(interior);
      if key in cache {
        Unlink(key);
      } else {
        WithoutAbsent(Keys(interior), key);
        MapRemoveAbsent(cache, key);
      }
      AddNewest(key, val);
      MapReplace(e, key, val);
    }

    /** The first step of put for a cached key: its node leaves the list; the map still names it until put overwrites it. */
    method Unlink(key: ChunkCoordinate)
      requires Shaped() && key in cache
      modifies this`interior, Repr`next, Repr`prev
      ensures Linked()
      ensures Keys(interior) == Without(old(Keys(interior)), key) && Distinct(Keys(interior))
      ensures NodeMap(interior) == cache - {key}
    {
      ghost var s := interior;
      NodeMapDomain(s);
      ghost var i := IndexOf(Keys(s), key);
      SpliceShape(s, i);
      assert Nodes()[i] in Repr && Nodes()[i + 1] in Repr && Nodes()[i + 2] in Repr;
      Remove(cache[key], i);
    }

    /** A fresh node for key becomes the most recent entry of both the map and the list. */
    method AddNewest(key: ChunkCoordinate, val: Grid)
      requires Linked() && Distinct(Keys(interior)) && key !in Keys(interior)
      requires NodeMap(interior) == cache - {key}
      modifies this`cache, this`interior, this`Repr, Repr`next, Repr`prev
      ensures Shaped() && fresh(Repr - old(Repr))
      ensures Keys(interior) == old(Keys(interior)) + [key]
      ensures EntriesOf(cache) == (EntriesOf(old(cache)) - {key})[key := val]
    {
      ghost var before := cache;
      ghost var s := interior;
      var node := new Node(key, val);
      assert Nodes()[|interior|] in Repr && Nodes()[|interior| + 1] in Repr;
      Insert(node);
      cache := cache[key := node];
      AppendShape(s, node);
      MapReplace(before, key, node);
      EntriesUpdate(before, key, node);
      EntriesRemove(before, key);
      MapReplace(EntriesOf(before), key, val);
    }

    /**
     * The eviction step of put: the entry right after the least-recent
     * sentinel is saved to persistence, unlinked and dropped from the map.
     */
    method EvictLeastRecent()
      requires Shaped() && |interior| > 0
      modifies this`interior, this`cache, {Nodes()[0], Nodes()[1]}`next, {Nodes()[1], Nodes()[2]}`prev, storage`files
      ensures Shaped()
      ensures var k := old(Keys(interior))[0];
        && Keys(interior) == old(Keys(interior))[1..]
        && EntriesOf(cache) == old(EntriesOf(cache)) - {k}
        && storage.files == old(storage.files)[k := old(EntriesOf(cache))[k]]
    {
      DropOldestShape(interior, cache);
      var lru := lruPtr.next;
      assert lru == Nodes()[1];
      storage.SaveToFile(lru.key, lru.val);
      Remove(lru, 0);
      cache := cache - {lru.key};
    }

    /** The hit path of Get: node is unlinked and relinked as the most recent entry. */
    method MoveToMostRecent(node: Node, ghost i: nat)
      requires Linked() && i < |interior| && interior[i] == node
      modifies this`interior, this`Repr, Repr`next, Repr`prev
      ensures Linked() && interior == Splice(old(interior), i) + [node]
      ensures Repr == old(Repr)
    {
      assert Nodes()[i] in Repr && Nodes()[i + 1] in Repr && Nodes()[i + 2] in Repr;
      Remove(node, i);
      assert Nodes()[|interior|] in Repr && Nodes()[|interior| + 1] in Repr;
      Insert(node);
    }

    /** Splices node (the i-th between the sentinels) out, so its former neighbours become adjacent. */
    method Remove(node: Node, ghost i: nat)
      requires Linked() && i < |interior| && interior[i] == node
      modifies this`interior, {Nodes()[i], node}`next, {node, Nodes()[i + 2]}`prev
      ensures Linked() && interior == Splice(old(interior), i) && node !in Nodes()
      ensures node.next == null && node.prev == null
    {
      ghost var s := Nodes();
      ghost var inner := interior;
      assert s[i + 1] == node;
      DistinctOnly(s, i);
      DistinctOnly(s, i + 1);
      DistinctOnly(s, i + 2);
      var tmpPrev := node.prev;
      var tmpNext := node.next;
      tmpPrev.next := node.next;
      tmpNext.prev := node.prev;
      node.next := null;
      node.prev := null;
      interior := Splice(interior, i);
      ghost var t := Nodes();
      UnlinkPositions(lruPtr, inner, mruPtr, i, s, t);
      DistinctDropAt(s, t, i + 1);
      forall j | 0 <= j < |t| ensures t[j] in Repr {
        if j <= i {
          assert t[j] == s[j];
        } else {
          assert t[j] == s[j + 1];
        }
      }
      forall j | 0 <= j < |t| - 1 ensures t[j].next == t[j + 1] {
        if j < i {
          assert t[j] == s[j] && t[j + 1] == s[j + 1] && old(s[j].next) == s[j + 1];
        } else if j == i {
          assert t[j] == s[i] && t[j + 1] == s[i + 2];
        } else {
          assert t[j] == s[j + 1] && t[j + 1] == s[j + 2] && old(s[j + 1].next) == s[j + 2];
        }
      }
      forall j | 0 < j < |t| ensures t[j].prev == t[j - 1] {
        if j < i + 1 {
          assert t[j] == s[j] && t[j - 1] == s[j - 1] && old(s[j].prev) == s[j - 1];
        } else if j == i + 1 {
          assert t[j] == s[i + 2] && t[j - 1] == s[i];
        } else {
          assert t[j] == s[j + 1] && t[j - 1] == s[j] && old(s[j + 1].prev) == s[j];
        }
      }
    }

    /** Places node just before the most-recent sentinel. */
    method Insert(node: Node)
      requires Linked() && node !in Nodes()
      modifies this`interior, this`Repr, {node, Nodes()[|interior|]}`next, {node, mruPtr}`prev
      ensures Linked() && interior == old(interior) + [node] && Repr == old(Repr) + {node}
    {
      ghost var s := Nodes();
      ghost var inner := interior;
      ghost var last := |s| - 1;
      DistinctOnly(s, last - 1);
      DistinctOnly(s, last);
      assert s[last - 1].next == s[last] && s[last].prev == s[last - 1];
      var mruPrev := mruPtr.prev;
      node.next := mruPtr;
      mruPtr.prev := node;
      node.prev := mruPrev;
      mruPrev.next := node;
      interior := interior + [node];
      Repr := Repr + {node};
      LinkAtEnd(lruPtr, inner, mruPtr, node);
      forall j | 0 <= j < |Nodes()| - 1 ensures Nodes()[j].next == Nodes()[j + 1] {
        if j < last - 1 {
          assert Nodes()[j] == s[j] && Nodes()[j + 1] == s[j + 1];
        }
      }
      forall j | 0 < j < |Nodes()| ensures Nodes()[j].prev == Nodes()[j - 1] {
        if j < last {
          assert Nodes()[j] == s[j] && Nodes()[j - 1] == s[j - 1];
        }
      }
    }
  }

  /** The list after unlinking the i-th node between the sentinels: earlier positions stay, later ones shift down. */
  lemma UnlinkPositions(l: Node, inner: seq<Node>, m: Node, i: nat, s: seq<Node>, t: seq<Node>)
    requires i < |inner| && s == [l] + inner + [m] && t == [l] + Splice(inner, i) + [m]
    ensures |t| == |s| - 1 && s[i + 1] == inner[i]
    ensures forall j :: 0 <= j <= i ==> t[j] == s[j]
    ensures forall j :: i < j < |t| ==> t[j] == s[j + 1]
  {
    SpliceAt(inner, i);
    Framed(l, inner, m);
    Framed(l, Splice(inner, i), m);
    forall j | 0 <= j <= i ensures t[j] == s[j] {
      if j > 0 { assert t[j] == Splice(inner, i)[j - 1] == inner[j - 1]; }
    }
    forall j | i < j < |t| ensures t[j] == s[j + 1] {
      if j < |t| - 1 { assert t[j] == Splice(inner, i)[j - 1] == inner[j]; }
    }
  }

  /** Positions in a sequence framed by two sentinels. */
  lemma Framed<T>(l: T, x: seq<T>, m: T)
    ensures |[l] + x + [m]| == |x| + 2
    ensures ([l] + x + [m])[0] == l && ([l] + x + [m])[|x| + 1] == m
    ensures forall j :: 0 <= j < |x| ==> ([l] + x + [m])[j + 1] == x[j]
  {
  }

  /** The list after linking n just before the most-recent sentinel. */
  lemma LinkAtEnd(l: Node, inner: seq<Node>, m: Node, n: Node)
    requires Distinct([l] + inner + [m]) && n !in [l] + inner + [m]
    ensures var s, t := [l] + inner + [m], [l] + (inner + [n]) + [m];
      && |t| == |s| + 1
      && (forall j :: 0 <= j < |s| - 1 ==> t[j] == s[j])
      && t[|s| - 1] == n && t[|s|] == m
      && Distinct(t)
  {
    var s, t := [l] + inner + [m], [l] + (inner + [n]) + [m];
    assert t == s[..|s| - 1] + [n, s[|s| - 1]];
    DistinctInsertBeforeLast(s, n);
  }

  /** The position of k in a sequence that contains it. */
  ghost function IndexOf(s: seq<ChunkCoordinate>, k: ChunkCoordinate): (i: nat)
    requires k in s
    ensures i < |s| && s[i] == k
  {
    if s[0] == k then 0 else 1 + IndexOf(s[1..], k)
  }

  lemma EntriesUpdate(cache: map<ChunkCoordinate, Node>, k: ChunkCoordinate, n: Node)
    ensures EntriesOf(cache[k := n]) == EntriesOf(cache)[k := n.val]
  {
  }

  lemma EntriesSize(cache: map<ChunkCoordinate, Node>)
    ensures |EntriesOf(cache)| == |cache|
  {
    assert EntriesOf(cache).Keys == cache.Keys;
  }

  lemma EntriesRemove(cache: map<ChunkCoordinate, Node>, k: ChunkCoordinate)
    ensures EntriesOf(cache - {k}) == EntriesOf(cache) - {k}
  {
  }

  lemma KeysSplice(s: seq<Node>, i: nat)
    requires i < |s|
    ensures Keys(Splice(s, i)) == Splice(Keys(s), i)
  {
    SpliceAt(s, i);
    SpliceAt(Keys(s), i);
    forall j | 0 <= j < |s| - 1 ensures Keys(Splice(s, i))[j] == Splice(Keys(s), i)[j] {
      if j < i { assert Splice(s, i)[j] == s[j]; } else { assert Splice(s, i)[j] == s[j + 1]; }
    }
  }

  lemma KeysSnoc(s: seq<Node>, n: Node)
    ensures Keys(s + [n]) == Keys(s) + [n.key]
  {
    assert forall j :: 0 <= j < |s| ==> (s + [n])[j] == s[j];
  }

  /** A coordinate is mapped exactly when some node of the run carries it. */
  lemma {:induction false} NodeMapDomain(s: seq<Node>)
    ensures forall k :: k in NodeMap(s) <==> k in Keys(s)
  {
    if s != [] {
      NodeMapDomain(s[1..]);
      assert Keys(s) == [s[0].key] + Keys(s[1..]);
    }
  }

  /** With distinct keys, each node is what the map holds for its key. */
  lemma {:induction false} NodeMapAt(s: seq<Node>, i: int)
    requires Distinct(Keys(s)) && 0 <= i < |s|
    ensures s[i].key in NodeMap(s) && NodeMap(s)[s[i].key] == s[i]
  {
    if i > 0 {
      assert Keys(s)[1..] == Keys(s[1..]);
      assert Keys(s)[i] in Keys(s)[1..];
      NodeMapAt(s[1..], i - 1);
    }
  }

  lemma {:induction false} NodeMapSize(s: seq<Node>)
    requires Distinct(Keys(s))
    ensures |NodeMap(s)| == |s|
  {
    if s != [] {
      assert Keys(s)[1..] == Keys(s[1..]);
      NodeMapSize(s[1..]);
      NodeMapDomain(s[1..]);
    }
  }

  lemma {:induction false} NodeMapSnoc(s: seq<Node>, n: Node)
    requires n.key !in Keys(s)
    ensures NodeMap(s + [n]) == NodeMap(s)[n.key := n]
  {
    if s == [] {
      assert ([] + [n])[1..] == [];
    } else {
      assert (s + [n])[1..] == s[1..] + [n];
      assert Keys(s)[1..] == Keys(s[1..]);
      NodeMapSnoc(s[1..], n);
      assert n.key != s[0].key by { assert Keys(s)[0] == s[0].key; }
      var m: map<ChunkCoordinate, Node> := NodeMap(s[1..]);
      assert m[n.key := n][s[0].key := s[0]] == m[s[0].key := s[0]][n.key := n];
    }
  }

  lemma {:induction false} NodeMapSplice(s: seq<Node>, i: nat)
    requires Distinct(Keys(s)) && i < |s|
    ensures NodeMap(Splice(s, i)) == NodeMap(s) - {s[i].key}
  {
    var t := s[1..];
    assert Keys(s)[1..] == Keys(t);
    if i == 0 {
      NodeMapDomain(t);
      assert NodeMap(t)[s[0].key := s[0]] - {s[0].key} == NodeMap(t);
    } else {
      assert ([s[0]] + Splice(t, i - 1))[1..] == Splice(t, i - 1);
      assert Keys(s)[i] in Keys(s)[1..];
      NodeMapSplice(t, i - 1);
      var m: map<ChunkCoordinate, Node> := NodeMap(t);
      assert (m - {s[i].key})[s[0].key := s[0]] == m[s[0].key := s[0]] - {s[i].key};
    }
  }

  /** Unlinking the i-th node: the keys lose that coordinate and the map loses its entry. */
  lemma SpliceShape(s: seq<Node>, i: nat)
    requires Distinct(Keys(s)) && i < |s|
    ensures s[i].key in NodeMap(s) && NodeMap(s)[s[i].key] == s[i]
    ensures Keys(Splice(s, i)) == Without(Keys(s), s[i].key)
    ensures i == 0 ==> Keys(Splice(s, i)) == Keys(s)[1..]
    ensures NodeMap(Splice(s, i)) == NodeMap(s) - {s[i].key}
    ensures Distinct(Keys(Splice(s, i)))
  {
    NodeMapAt(s, i);
    NodeMapSplice(s, i);
    KeysSplice(s, i);
    assert Keys(s)[i] == s[i].key;
    WithoutSplice(Keys(s), i);
    DistinctSplice(Keys(s), i);
  }

  /** Dropping the first node of a run keeps the map it induces and the data in step. */
  lemma DropOldestShape(s: seq<Node>, cache: map<ChunkCoordinate, Node>)
    requires Distinct(Keys(s)) && |s| > 0 && cache == NodeMap(s)
    ensures var k, t, rest := s[0].key, Splice(s, 0), cache - {s[0].key};
      && k == Keys(s)[0] && k in EntriesOf(cache) && EntriesOf(cache)[k] == s[0].val
      && Keys(t) == Keys(s)[1..]
      && NodeMap(t) == rest
      && EntriesOf(rest) == EntriesOf(cache) - {k}
      && Distinct(Keys(t))
  {
    SpliceShape(s, 0);
    EntriesRemove(cache, s[0].key);
  }

  /** Linking a node with a new coordinate at the most-recent end. */
  lemma AppendShape(s: seq<Node>, n: Node)
    requires Distinct(Keys(s)) && n.key !in Keys(s)
    ensures Keys(s + [n]) == Keys(s) + [n.key]
    ensures NodeMap(s + [n]) == NodeMap(s)[n.key := n]
    ensures Distinct(Keys(s + [n]))
  {
    KeysSnoc(s, n);
    NodeMapSnoc(s, n);
    DistinctSnoc(Keys(s), n.key);
  }

  /** Moving the i-th node to the most-recent end touches its coordinate and keeps the map. */
  lemma MoveShape(s: seq<Node>, i: nat)
    requires Distinct(Keys(s)) && i < |s|
    ensures s[i].key in NodeMap(s) && NodeMap(s)[s[i].key] == s[i]
    ensures var t := Splice(s, i) + [s[i]];
      && Keys(t) == Touch(Keys(s), s[i].key)
      && NodeMap(t) == NodeMap(s)
      && Distinct(Keys(t))
  {
    var s1 := Splice(s, i);
    SpliceShape(s, i);
    AppendShape(s1, s[i]);
    MapReplace(NodeMap(s), s[i].key, s[i]);
    MapSame(NodeMap(s), s[i].key);
  }

  /** A run of nodes with distinct keys is a well-formed cache: its keys and the data its map holds. */
  lemma NodesCoherent(s: seq<Node>)
    requires Distinct(Keys(s))
    ensures Coherent(Keys(s), EntriesOf(NodeMap(s)))
  {
    NodeMapDomain(s);
    NodeMapSize(s);
    assert EntriesOf(NodeMap(s)).Keys == NodeMap(s).Keys;
  }
}
