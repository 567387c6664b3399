/**
 * The chunk cache as a value: which chunks it holds, in which recency order,
 * and what persistence holds. The linked-list cache in lru.dfy is proved to
 * move through exactly these states.
 */
module LruSpec {
  import opened Wrappers
  import opened ChunkGrid

  /**
   * `order` lists the cached coordinates from least to most recently used,
   * `entries` maps each to its block data, and `disk` is what persistence
   * has saved so far.
   */
  datatype CacheState = CacheState(order: seq<ChunkCoordinate>, entries: map<ChunkCoordinate, Grid>,
                                   disk: map<ChunkCoordinate, Grid>)

  /**
   * No element occurs twice. Stated recursively so that it unfolds one
   * element at a time; DistinctIff gives the pairwise form.
   */
  predicate Distinct<T(==)>(s: seq<T>)
  {
    |s| <= 1 || (s[0] !in s[1..] && Distinct(s[1..]))
  }

  /** The recency list names each cached coordinate exactly once. */
  predicate WellFormed(c: CacheState)
  {
    Coherent(c.order, c.entries)
  }

  predicate Coherent(order: seq<ChunkCoordinate>, entries: map<ChunkCoordinate, Grid>)
  {
    && Distinct(order)
    && (forall k :: k in entries ==> k in order)
    && (forall i :: 0 <= i < |order| ==> order[i] in entries)
    && |entries| == |order|
  }

  /** The most entries the cache may hold: its capacity, or none when the capacity is negative. */
  function Bound(cap: int): nat
  {
    if cap < 0 then 0 else cap
  }

  /** The sequence with every occurrence of k removed. */
  function Without(s: seq<ChunkCoordinate>, k: ChunkCoordinate): (r: seq<ChunkCoordinate>)
    ensures forall i :: 0 <= i < |r| ==> r[i] in s && r[i] != k
    ensures forall j :: j in s && j != k ==> j in r
    ensures |r| <= |s|
  {
    if s == [] then []
    else if s[0] == k then Without(s[1..], k)
    else [s[0]] + Without(s[1..], k)
  }

  /** k becomes the most recently used coordinate. */
  function Touch(s: seq<ChunkCoordinate>, k: ChunkCoordinate): seq<ChunkCoordinate>
  {
    Without(s, k) + [k]
  }

  /**
   * Store v under k as the most recent entry; when that makes the cache hold
   * more than cap entries, the least recent one is saved to disk and dropped.
   */
  function Put(c: CacheState, cap: int, k: ChunkCoordinate, v: Grid): CacheState
    requires WellFormed(c)
  {
    var rest := Without(c.order, k);
    var entries := c.entries[k := v];
    if |entries| <= cap then CacheState(rest + [k], entries, c.disk)
    else if rest == [] then CacheState([], c.entries - {k}, c.disk[k := v])
    else
      assert rest[0] in c.order;
      CacheState(rest[1..] + [k], entries - {rest[0]}, c.disk[rest[0] := c.entries[rest[0]]])
  }

  /**
   * A hit returns the cached data and makes k the most recent entry; a miss
   * falls back to disk and caches what it finds there; otherwise None.
   */
  function Get(c: CacheState, cap: int, k: ChunkCoordinate): (Option<Grid>, CacheState)
    requires WellFormed(c)
  {
    if k in c.entries then (Some(c.entries[k]), c.(order := Touch(c.order, k)))
    else if k in c.disk then (Some(c.disk[k]), Put(c, cap, k, c.disk[k]))
    else (None, c)
  }

  /** What a reader of the cache sees: the cached data, and disk data for coordinates not cached. */
  function View(c: CacheState): map<ChunkCoordinate, Grid>
  {
    Overlay(c.entries, c.disk)
  }

  /** The entries of `top`, and those of `below` whose key `top` lacks. */
  function Overlay(top: map<ChunkCoordinate, Grid>, below: map<ChunkCoordinate, Grid>): map<ChunkCoordinate, Grid>
  {
    map k | k in below.Keys + top.Keys :: if k in top then top[k] else below[k]
  }

  lemma {:induction false} DistinctIff<T>(s: seq<T>)
    ensures Distinct(s) <==> forall i, j :: 0 <= i < j < |s| ==> s[i] != s[j]
  {
    if |s| > 1 {
      DistinctIff(s[1..]);
      assert (forall i, j :: 0 <= i < j < |s| ==> s[i] != s[j]) <==>
             (s[0] !in s[1..] && forall i, j :: 0 <= i < j < |s[1..]| ==> s[1..][i] != s[1..][j]) by {
        if forall i, j :: 0 <= i < j < |s| ==> s[i] != s[j] {
          forall i, j | 0 <= i < j < |s[1..]| ensures s[1..][i] != s[1..][j] {
            assert s[1..][i] == s[i + 1] && s[1..][j] == s[j + 1];
          }
          forall j | 0 <= j < |s[1..]| ensures s[1..][j] != s[0] {
            assert s[1..][j] == s[j + 1];
          }
        }
        if s[0] !in s[1..] && forall i, j :: 0 <= i < j < |s[1..]| ==> s[1..][i] != s[1..][j] {
          forall i, j | 0 <= i < j < |s| ensures s[i] != s[j] {
            if i == 0 { assert s[j] == s[1..][j - 1]; } else { assert s[i] == s[1..][i - 1] && s[j] == s[1..][j - 1]; }
          }
        }
      }
    }
  }

  /** In a sequence without repeats, the element at index i occurs nowhere else. */
  lemma DistinctOnly<T>(s: seq<T>, i: int)
    requires Distinct(s) && 0 <= i < |s|
    ensures forall j :: 0 <= j < |s| && j != i ==> s[j] != s[i]
  {
    DistinctIff(s);
    forall j | 0 <= j < |s| && j != i ensures s[j] != s[i] {
      if j < i { assert s[j] != s[i]; } else { assert s[i] != s[j]; }
    }
  }

  lemma DistinctSnoc<T>(s: seq<T>, k: T)
    requires Distinct(s) && k !in s
    ensures Distinct(s + [k])
  {
    DistinctIff(s);
    DistinctIff(s + [k]);
    assert forall i :: 0 <= i < |s| ==> (s + [k])[i] == s[i];
  }

  /** s with the element at index i taken out. */
  function Splice<T>(s: seq<T>, i: nat): (r: seq<T>)
    requires i < |s|
    ensures |r| == |s| - 1
  {
    if i == 0 then s[1..] else [s[0]] + Splice(s[1..], i - 1)
  }

  /** The elements of Splice(s, i) by position: those before i stay, those after move down by one. */
  lemma {:induction false} SpliceAt<T>(s: seq<T>, i: nat)
    requires i < |s|
    ensures forall j :: 0 <= j < i ==> Splice(s, i)[j] == s[j]
    ensures forall j :: i <= j < |s| - 1 ==> Splice(s, i)[j] == s[j + 1]
  {
    if i > 0 {
      SpliceAt(s[1..], i - 1);
      forall j | 0 < j < |s| - 1 ensures Splice(s, i)[j] == Splice(s[1..], i - 1)[j - 1] {
      }
    }
  }

  /** t lists s without its element at index k, by position; it has no repeats if s has none, and lacks s[k]. */
  lemma DistinctDropAt<T>(s: seq<T>, t: seq<T>, k: nat)
    requires Distinct(s) && k < |s| && |t| == |s| - 1
    requires forall j :: 0 <= j < k ==> t[j] == s[j]
    requires forall j :: k <= j < |t| ==> t[j] == s[j + 1]
    ensures Distinct(t) && s[k] !in t
  {
    DistinctIff(s);
    DistinctIff(t);
    forall a, b | 0 <= a < b < |t| ensures t[a] != t[b] {
      var a', b' := if a < k then a else a + 1, if b < k then b else b + 1;
      assert t[a] == s[a'] && t[b] == s[b'];
    }
    forall j | 0 <= j < |t| ensures t[j] != s[k] {
      if j < k { assert t[j] == s[j]; } else { assert t[j] == s[j + 1]; }
    }
  }

  /** Splicing an element out of a sequence without repeats leaves one without repeats. */
  lemma DistinctSplice<T>(s: seq<T>, i: nat)
    requires Distinct(s) && i < |s|
    ensures Distinct(Splice(s, i)) && s[i] !in Splice(s, i)
  {
    SpliceAt(s, i);
    DistinctDropAt(s, Splice(s, i), i);
  }

  lemma DistinctInsertBeforeLast<T>(s: seq<T>, x: T)
    requires Distinct(s) && |s| > 0 && x !in s
    ensures Distinct(s[..|s| - 1] + [x, s[|s| - 1]])
  {
    var t := s[..|s| - 1] + [x, s[|s| - 1]];
    var last := |s| - 1;
    DistinctIff(s);
    DistinctIff(t);
    forall a, b | 0 <= a < b < |t| ensures t[a] != t[b] {
      if b < last {
        assert t[a] == s[a] && t[b] == s[b];
      } else if b == last {
        assert t[a] == s[a];
      } else if a != last {
        assert t[a] == s[a] && t[b] == s[last];
      }
    }
  }

  lemma {:induction false} WithoutDistinct(s: seq<ChunkCoordinate>, k: ChunkCoordinate)
    requires Distinct(s)
    ensures Distinct(Without(s, k))
    ensures |Without(s, k)| == if k in s then |s| - 1 else |s|
  {
    if s != [] {
      WithoutDistinct(s[1..], k);
      if s[0] != k {
        var r := Without(s[1..], k);
        assert s[0] !in r;
        assert ([s[0]] + r)[1..] == r;
      } else if |s| > 1 {
        WithoutAbsent(s[1..], k);
      }
    }
  }

  /** Removing a coordinate that sits at index i is splicing index i out. */
  lemma {:induction false} WithoutSplice(s: seq<ChunkCoordinate>, i: nat)
    requires Distinct(s) && i < |s|
    ensures Without(s, s[i]) == Splice(s, i)
  {
    if i == 0 {
      WithoutAbsent(s[1..], s[0]);
    } else {
      assert s[i] == s[1..][i - 1];
      WithoutSplice(s[1..], i - 1);
    }
  }

  lemma {:induction false} WithoutAbsent(s: seq<ChunkCoordinate>, k: ChunkCoordinate)
    requires k !in s
    ensures Without(s, k) == s
  {
    if s != [] {
      WithoutAbsent(s[1..], k);
      assert [s[0]] + s[1..] == s;
    }
  }

  /** Touching keeps the recency list well formed and k is then the most recent. */
  lemma TouchWellFormed(c: CacheState, k: ChunkCoordinate)
    requires WellFormed(c) && k in c.entries
    ensures WellFormed(c.(order := Touch(c.order, k)))
    ensures Touch(c.order, k)[|c.order| - 1] == k
  {
    WithoutDistinct(c.order, k);
    DistinctSnoc(Without(c.order, k), k);
  }

  /** Forgetting k entirely keeps a cache state well formed. */
  lemma ForgetWellFormed(c: CacheState, k: ChunkCoordinate)
    requires WellFormed(c)
    ensures WellFormed(CacheState(Without(c.order, k), c.entries - {k}, c.disk))
  {
    WithoutDistinct(c.order, k);
  }

  /** A coordinate not yet cached can be added as the most recent entry. */
  lemma AddNewestWellFormed(c: CacheState, k: ChunkCoordinate, v: Grid, d: map<ChunkCoordinate, Grid>)
    requires WellFormed(c) && k !in c.entries
    ensures WellFormed(CacheState(c.order + [k], c.entries[k := v], d))
  {
    DistinctSnoc(c.order, k);
    forall i | 0 <= i < |c.order| + 1 ensures (c.order + [k])[i] in c.entries[k := v] {
      if i < |c.order| { assert (c.order + [k])[i] == c.order[i]; }
    }
  }

  /** Dropping the least recent entry keeps a cache state well formed. */
  lemma DropOldestWellFormed(c: CacheState, d: map<ChunkCoordinate, Grid>)
    requires WellFormed(c) && c.order != []
    ensures WellFormed(CacheState(c.order[1..], c.entries - {c.order[0]}, d))
  {
    var tail := c.order[1..];
    forall j | j in c.entries - {c.order[0]} ensures j in tail {
      assert j in c.order;
    }
    forall i | 0 <= i < |tail| ensures tail[i] in c.entries - {c.order[0]} {
      assert tail[i] == c.order[i + 1];
    }
  }

  /** put keeps the recency list and the entries in step. */
  lemma PutWellFormed(c: CacheState, cap: int, k: ChunkCoordinate, v: Grid)
    requires WellFormed(c)
    ensures WellFormed(Put(c, cap, k, v))
  {
    var rest := Without(c.order, k);
    var forgot := CacheState(rest, c.entries - {k}, c.disk);
    ForgetWellFormed(c, k);
    MapReplace(c.entries, k, v);
    AddNewestWellFormed(forgot, k, v, c.disk);
    if |c.entries[k := v]| > cap && rest != [] {
      var added := CacheState(rest + [k], c.entries[k := v], c.disk);
      DropOldestWellFormed(added, c.disk[rest[0] := c.entries[rest[0]]]);
      assert (rest + [k])[1..] == rest[1..] + [k];
    }
  }

  lemma MapReplace<V>(m: map<ChunkCoordinate, V>, k: ChunkCoordinate, v: V)
    ensures (m - {k})[k := v] == m[k := v]
  {
  }

  lemma MapSame<V>(m: map<ChunkCoordinate, V>, k: ChunkCoordinate)
    requires k in m
    ensures m[k := m[k]] == m
  {
  }

  lemma MapRemoveAbsent<V>(m: map<ChunkCoordinate, V>, k: ChunkCoordinate)
    requires k !in m
    ensures m - {k} == m
  {
  }

  /** put without overflow: k becomes the newest entry. */
  lemma PutKeepShape(c: CacheState, cap: int, k: ChunkCoordinate, v: Grid)
    requires WellFormed(c) && |c.entries[k := v]| <= cap
    ensures Put(c, cap, k, v) == CacheState(Touch(c.order, k), c.entries[k := v], c.disk)
  {
  }

  /** put with overflow: after k becomes the newest entry, the oldest one moves to disk. */
  lemma PutEvictShape(c: CacheState, cap: int, k: ChunkCoordinate, v: Grid)
    requires WellFormed(c) && |c.entries[k := v]| > cap
    ensures var o, e := Touch(c.order, k), c.entries[k := v];
      && |o| > 0 && o[0] in e
      && Put(c, cap, k, v) == CacheState(o[1..], e - {o[0]}, c.disk[o[0] := e[o[0]]])
  {
    var rest := Without(c.order, k);
    var o, e := rest + [k], c.entries[k := v];
    if rest == [] {
      assert o[1..] == [];
      assert e - {k} == c.entries - {k};
    } else {
      assert rest[0] in c.order && rest[0] != k;
      assert o[1..] == rest[1..] + [k];
    }
  }

  /** put never lets the cache grow past its capacity. */
  lemma PutBounded(c: CacheState, cap: int, k: ChunkCoordinate, v: Grid)
    requires WellFormed(c) && |c.entries| <= Bound(cap)
    ensures |Put(c, cap, k, v).entries| <= Bound(cap)
  {
  }

  /**
   * put makes k hold v as its most recent entry, unless the capacity is
   * below one, in which case the entry goes straight to disk.
   */
  lemma PutStoresNewest(c: CacheState, cap: int, k: ChunkCoordinate, v: Grid)
    requires WellFormed(c) && |c.entries| <= Bound(cap)
    ensures var r := Put(c, cap, k, v);
      if cap >= 1 then k in r.entries && r.entries[k] == v && r.order[|r.order| - 1] == k
      else r.entries == c.entries - {k} && r.disk == c.disk[k := v]
  {
    WithoutDistinct(c.order, k);
    var order := Touch(c.order, k);
    if cap >= 1 && |c.entries[k := v]| > cap {
      assert |order| >= 2;
      assert order[0] != k by { assert order[0] != order[|order| - 1]; }
    }
    if cap < 1 {
      assert c.entries == map[] && c.order == [];
      assert order == [k];
    }
  }

  /**
   * Overwriting a coordinate already cached keeps the number of entries; a
   * coordinate that leaves the cache on put is the least recent other one,
   * and its data is what disk now holds for it.
   */
  lemma PutEvictsLeastRecent(c: CacheState, cap: int, k: ChunkCoordinate, v: Grid)
    requires WellFormed(c)
    ensures var r := Put(c, cap, k, v);
      && (k in c.entries && |c.entries| <= cap ==> |r.entries| == |c.entries|)
      && r.entries.Keys <= c.entries.Keys + {k}
      && forall j :: j in c.entries && j != k && j !in r.entries ==>
           j == Without(c.order, k)[0] && r.disk == c.disk[j := c.entries[j]]
  {
  }

  lemma OverlayUpdate(top: map<ChunkCoordinate, Grid>, below: map<ChunkCoordinate, Grid>, k: ChunkCoordinate, v: Grid)
    ensures Overlay(top[k := v], below) == Overlay(top, below)[k := v]
  {
    var l, r := Overlay(top[k := v], below), Overlay(top, below)[k := v];
    assert l.Keys == r.Keys;
  }

  /** Moving one entry from the top map to the one below is invisible. */
  lemma OverlaySpill(top: map<ChunkCoordinate, Grid>, below: map<ChunkCoordinate, Grid>, j: ChunkCoordinate)
    requires j in top
    ensures Overlay(top - {j}, below[j := top[j]]) == Overlay(top, below)
  {
    var l, r := Overlay(top - {j}, below[j := top[j]]), Overlay(top, below);
    assert l.Keys == r.Keys;
  }

  /** Writing k below instead of on top, and dropping it from the top, is an update of k. */
  lemma OverlayWriteBelow(top: map<ChunkCoordinate, Grid>, below: map<ChunkCoordinate, Grid>, k: ChunkCoordinate, v: Grid)
    ensures Overlay(top - {k}, below[k := v]) == Overlay(top, below)[k := v]
  {
    var l, r := Overlay(top - {k}, below[k := v]), Overlay(top, below)[k := v];
    assert l.Keys == r.Keys;
  }

  /** put is seen through the cache as an ordinary map update. */
  lemma PutView(c: CacheState, cap: int, k: ChunkCoordinate, v: Grid)
    requires WellFormed(c)
    ensures View(Put(c, cap, k, v)) == View(c)[k := v]
  {
    if |c.entries[k := v]| <= cap {
      OverlayUpdate(c.entries, c.disk, k, v);
    } else if Without(c.order, k) == [] {
      OverlayWriteBelow(c.entries, c.disk, k, v);
    } else {
      PutEvictView(c, cap, k, v);
      OverlayUpdate(c.entries, c.disk, k, v);
    }
  }

  lemma PutEvictView(c: CacheState, cap: int, k: ChunkCoordinate, v: Grid)
    requires WellFormed(c)
    requires |c.entries[k := v]| > cap && Without(c.order, k) != []
    ensures View(Put(c, cap, k, v)) == Overlay(c.entries[k := v], c.disk)
  {
    var entries := c.entries[k := v];
    var lru := Without(c.order, k)[0];
    assert lru in c.order && lru != k;
    assert entries[lru] == c.entries[lru];
    OverlaySpill(entries, c.disk, lru);
  }

  /**
   * get returns exactly what the cache's view holds for k (None when no
   * data exists anywhere) and never changes that view.
   */
  lemma GetView(c: CacheState, cap: int, k: ChunkCoordinate)
    requires WellFormed(c)
    ensures Get(c, cap, k).0 == if k in View(c) then Some(View(c)[k]) else None
    ensures View(Get(c, cap, k).1) == View(c)
  {
    if k in c.entries {
      assert Get(c, cap, k) == (Some(c.entries[k]), c.(order := Touch(c.order, k)));
    } else if k in c.disk {
      var v := c.disk[k];
      assert Get(c, cap, k) == (Some(v), Put(c, cap, k, v));
      PutView(c, cap, k, v);
      assert k in View(c) && View(c)[k] == v;
      MapSame(View(c), k);
    }
  }

  /** get keeps the cache well formed and within its capacity. */
  lemma GetWellFormed(c: CacheState, cap: int, k: ChunkCoordinate)
    requires WellFormed(c) && |c.entries| <= Bound(cap)
    ensures WellFormed(Get(c, cap, k).1) && |Get(c, cap, k).1.entries| <= Bound(cap)
  {
    if k in c.entries {
      TouchWellFormed(c, k);
    } else if k in c.disk {
      PutWellFormed(c, cap, k, c.disk[k]);
    }
  }
}
