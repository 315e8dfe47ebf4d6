/** The router's bounded in-process caches: per-interaction command results
    (FIFO) and the interaction table itself (idle TTL, then LRU). */
module ResultCache {

  datatype StoredResult = StoredResult(payloadHash: string, accepted: bool)

  /** `order` is the FIFO of command ids backing the eviction of `results`. */
  datatype Cache = Cache(results: map<string, StoredResult>, order: seq<string>)

  ghost predicate Distinct(ids: seq<string>) {
    forall i, j :: 0 <= i < j < |ids| ==> ids[i] != ids[j]
  }

  /** Order and map hold the same ids, each once. */
  ghost predicate InStep(c: Cache) {
    && Distinct(c.order)
    && |c.order| == |c.results|
    && (forall id :: id in c.order <==> id in c.results)
  }

  function Evicted(c: Cache, max: int): Cache
    decreases |c.order|
  {
    if max > 0 && |c.results| > max && c.order != []
    then Evicted(Cache(c.results - {c.order[0]}, c.order[1..]), max)
    else c
  }

  function Put(c: Cache, id: string, sr: StoredResult, max: int): Cache {
    var order := if id in c.results then c.order else c.order + [id];
    Evicted(Cache(c.results[id := sr], order), max)
  }

  /** Folds in the entries of `rebuilt` that `c` lacks, oldest first. */
  function CopyMissing(c: Cache, rebuilt: Cache, ids: seq<string>, max: int): Cache {
    if ids == [] then c
    else
      var id := ids[|ids| - 1];
      var c' := CopyMissing(c, rebuilt, ids[..|ids| - 1], max);
      if id in rebuilt.results && id !in c'.results then Put(c', id, rebuilt.results[id], max) else c'
  }

  function Newest(ids: seq<string>, max: int): seq<string> {
    if 0 < max < |ids| then ids[|ids| - max..] else ids
  }

  lemma DropOldest(c: Cache)
    requires InStep(c) && c.order != []
    ensures InStep(Cache(c.results - {c.order[0]}, c.order[1..]))
  {
    var d := Cache(c.results - {c.order[0]}, c.order[1..]);
    assert c.order[0] in c.results;
    assert d.results.Keys == c.results.Keys - {c.order[0]};
    assert |d.results| == |d.results.Keys| == |c.results| - 1;
    forall id ensures id in d.order <==> id in d.results {
      if id in d.order {
        var i :| 0 <= i < |d.order| && d.order[i] == id;
        assert c.order[i + 1] == id;
      }
      if id in d.results {
        var i :| 0 <= i < |c.order| && c.order[i] == id;
        assert d.order[i - 1] == id;
      }
    }
  }

  lemma {:induction false} EvictedValues(c: Cache, max: int)
    ensures forall id :: id in Evicted(c, max).results ==>
              id in c.results && Evicted(c, max).results[id] == c.results[id]
    decreases |c.order|
  {
    if max > 0 && |c.results| > max && c.order != [] {
      EvictedValues(Cache(c.results - {c.order[0]}, c.order[1..]), max);
    }
  }

  lemma NewestDrop(ids: seq<string>, max: int)
    requires 0 < max < |ids|
    ensures Newest(ids[1..], max) == Newest(ids, max)
  {
  }

  lemma {:induction false} EvictedInStep(c: Cache, max: int)
    requires InStep(c)
    ensures InStep(Evicted(c, max))
    decreases |c.order|
  {
    if max > 0 && |c.results| > max && c.order != [] {
      DropOldest(c);
      EvictedInStep(Cache(c.results - {c.order[0]}, c.order[1..]), max);
    }
  }

  /** Eviction keeps exactly the newest `max` ids. */
  lemma {:induction false} EvictedKeepsNewest(c: Cache, max: int)
    requires InStep(c)
    ensures Evicted(c, max).order == Newest(c.order, max)
    decreases |c.order|
  {
    if 0 < max < |c.results| {
      DropOldest(c);
      NewestDrop(c.order, max);
      EvictedKeepsNewest(Cache(c.results - {c.order[0]}, c.order[1..]), max);
    }
  }

  lemma InsertInStep(c: Cache, id: string, sr: StoredResult)
    requires InStep(c)
    ensures InStep(Cache(c.results[id := sr], if id in c.results then c.order else c.order + [id]))
  {
    if id in c.results {
      assert c.results[id := sr].Keys == c.results.Keys;
      assert |c.results[id := sr]| == |c.results|;
    } else {
      assert id !in c.order;
      assert c.results[id := sr].Keys == c.results.Keys + {id};
      assert |c.results[id := sr]| == |c.results| + 1;
    }
  }

  /** A bounded FIFO: the queue is the newest `max` of the ids ever queued, the
      new value is stored, and no other value changes. */
  lemma PutIsBoundedFifo(c: Cache, id: string, sr: StoredResult, max: int)
    requires InStep(c)
    ensures InStep(Put(c, id, sr, max))
    ensures Put(c, id, sr, max).order == Newest(if id in c.results then c.order else c.order + [id], max)
    ensures max > 0 ==> |Put(c, id, sr, max).results| <= max
    ensures forall k :: k in Put(c, id, sr, max).results ==>
              if k == id then Put(c, id, sr, max).results[k] == sr
              else k in c.results && Put(c, id, sr, max).results[k] == c.results[k]
  {
    InsertInStep(c, id, sr);
    var d := Cache(c.results[id := sr], if id in c.results then c.order else c.order + [id]);
    EvictedInStep(d, max);
    EvictedKeepsNewest(d, max);
    EvictedValues(d, max);
  }

  /** Merging a rebuilt cache keeps the two structures in step, and every entry
      of the result is an entry of one of the two. */
  lemma {:induction false} CopyMissingMerges(c: Cache, rebuilt: Cache, ids: seq<string>, max: int)
    requires InStep(c)
    ensures InStep(CopyMissing(c, rebuilt, ids, max))
    ensures forall k :: k in CopyMissing(c, rebuilt, ids, max).results ==>
              || (k in c.results && CopyMissing(c, rebuilt, ids, max).results[k] == c.results[k])
              || (k in rebuilt.results && CopyMissing(c, rebuilt, ids, max).results[k] == rebuilt.results[k])
    ensures max > 0 && |c.results| <= max ==> |CopyMissing(c, rebuilt, ids, max).results| <= max
  {
    if ids != [] {
      var n := |ids| - 1;
      CopyMissingMerges(c, rebuilt, ids[..n], max);
      var c' := CopyMissing(c, rebuilt, ids[..n], max);
      if ids[n] in rebuilt.results && ids[n] !in c'.results {
        PutIsBoundedFifo(c', ids[n], rebuilt.results[ids[n]], max);
      }
    }
  }

  /** Which positions of `ids` the merge queues, in order. */
  function Queued(c: Cache, rebuilt: Cache, ids: seq<string>, max: int): (r: seq<nat>)
    ensures forall k :: 0 <= k < |r| ==> r[k] < |ids|
    ensures forall j, k :: 0 <= j < k < |r| ==> r[j] < r[k]
  {
    if ids == [] then []
    else
      var n := |ids| - 1;
      var c' := CopyMissing(c, rebuilt, ids[..n], max);
      Queued(c, rebuilt, ids[..n], max) + (if ids[n] in rebuilt.results && ids[n] !in c'.results then [n] else [])
  }

  function Picked(ids: seq<string>, at: seq<nat>): seq<string>
    requires forall k :: 0 <= k < |at| ==> at[k] < |ids|
  {
    seq(|at|, k requires 0 <= k < |at| => ids[at[k]])
  }

  /** A queue followed by further ids, cut to the newest `max` as they come. */
  function Followed(order: seq<string>, more: seq<string>, max: int): seq<string> {
    if more == [] then order else Newest(order + more, max)
  }

  lemma FollowedGrows(order: seq<string>, more: seq<string>, id: string, max: int)
    ensures Newest(Followed(order, more, max) + [id], max) == Followed(order, more + [id], max)
  {
    assert order + (more + [id]) == order + more + [id];
    assert more == [] ==> order + more == order;
  }

  lemma PickedGrows(ids: seq<string>, at: seq<nat>)
    requires ids != [] && forall k :: 0 <= k < |at| ==> at[k] < |ids| - 1
    ensures Picked(ids, at) == Picked(ids[..|ids| - 1], at)
    ensures Picked(ids, at + [|ids| - 1]) == Picked(ids[..|ids| - 1], at) + [ids[|ids| - 1]]
  {
  }

  /** The merged queue is the old one followed by the ids queued from the rebuilt one,
      in its order, cut to the newest `max`. */
  lemma {:induction false} CopyMissingKeepsOrder(c: Cache, rebuilt: Cache, ids: seq<string>, max: int)
    requires InStep(c)
    ensures CopyMissing(c, rebuilt, ids, max).order == Followed(c.order, Picked(ids, Queued(c, rebuilt, ids, max)), max)
  {
    if ids != [] {
      var n := |ids| - 1;
      var at := Queued(c, rebuilt, ids[..n], max);
      var c' := CopyMissing(c, rebuilt, ids[..n], max);
      CopyMissingMerges(c, rebuilt, ids[..n], max);
      CopyMissingKeepsOrder(c, rebuilt, ids[..n], max);
      PickedGrows(ids, at);
      FollowedGrows(c.order, Picked(ids[..n], at), ids[n], max);
      if ids[n] in rebuilt.results && ids[n] !in c'.results {
        PutIsBoundedFifo(c', ids[n], rebuilt.results[ids[n]], max);
        assert Queued(c, rebuilt, ids, max) == at + [n];
      } else {
        assert Queued(c, rebuilt, ids, max) == at + [] == at;
      }
    }
  }

  /** Every entry the old cache lacked is queued. */
  lemma {:induction false} MissingIsQueued(c: Cache, rebuilt: Cache, ids: seq<string>, max: int, i: nat)
    requires InStep(c) && i < |ids| && ids[i] in rebuilt.results && ids[i] !in c.results
    requires Distinct(ids)
    ensures i in Queued(c, rebuilt, ids, max)
  {
    var n := |ids| - 1;
    if i < n {
      MissingIsQueued(c, rebuilt, ids[..n], max, i);
    } else {
      NotYetCopied(c, rebuilt, ids[..n], max, ids[n]);
    }
  }

  lemma {:induction false} NotYetCopied(c: Cache, rebuilt: Cache, ids: seq<string>, max: int, id: string)
    requires InStep(c) && id !in ids && id !in c.results
    ensures id !in CopyMissing(c, rebuilt, ids, max).results
  {
    if ids != [] {
      var n := |ids| - 1;
      var c' := CopyMissing(c, rebuilt, ids[..n], max);
      CopyMissingMerges(c, rebuilt, ids[..n], max);
      NotYetCopied(c, rebuilt, ids[..n], max, id);
      if ids[n] in rebuilt.results && ids[n] !in c'.results {
        PutIsBoundedFifo(c', ids[n], rebuilt.results[ids[n]], max);
      }
    }
  }

  lemma {:induction false} QueuedFewer(c: Cache, rebuilt: Cache, ids: seq<string>, max: int)
    ensures |Queued(c, rebuilt, ids, max)| <= |ids|
  {
    if ids != [] {
      QueuedFewer(c, rebuilt, ids[..|ids| - 1], max);
    }
  }

  /** A rebuilt cache within the bound loses nothing it adds: every entry `c` lacked
      is there afterwards, with the rebuilt value. */
  lemma {:induction false} MissingSurvives(c: Cache, rebuilt: Cache, max: int, id: string)
    requires InStep(c) && InStep(rebuilt) && (max > 0 ==> |rebuilt.order| <= max)
    requires id in rebuilt.results && id !in c.results
    ensures var merged := CopyMissing(c, rebuilt, rebuilt.order, max);
            id in merged.results && merged.results[id] == rebuilt.results[id]
  {
    assert id in rebuilt.order;
    var i: nat :| i < |rebuilt.order| && rebuilt.order[i] == id;
    MissingIsQueued(c, rebuilt, rebuilt.order, max, i);
    QueuedStays(c, rebuilt, max, i);
    NotFromOld(c, rebuilt, rebuilt.order, max, id);
  }

  lemma {:induction false} QueuedStays(c: Cache, rebuilt: Cache, max: int, i: nat)
    requires InStep(c) && (max > 0 ==> |rebuilt.order| <= max) && i in Queued(c, rebuilt, rebuilt.order, max)
    ensures rebuilt.order[i] in CopyMissing(c, rebuilt, rebuilt.order, max).results
  {
    var at := Queued(c, rebuilt, rebuilt.order, max);
    QueuedFewer(c, rebuilt, rebuilt.order, max);
    CopyMissingKeepsOrder(c, rebuilt, rebuilt.order, max);
    CopyMissingMerges(c, rebuilt, rebuilt.order, max);
    var k :| 0 <= k < |at| && at[k] == i;
    SuffixStays(c.order, Picked(rebuilt.order, at), max, k);
  }

  lemma {:induction false} NotFromOld(c: Cache, rebuilt: Cache, ids: seq<string>, max: int, id: string)
    requires InStep(c) && id !in c.results && id in CopyMissing(c, rebuilt, ids, max).results
    ensures id in rebuilt.results && CopyMissing(c, rebuilt, ids, max).results[id] == rebuilt.results[id]
  {
    CopyMissingMerges(c, rebuilt, ids, max);
  }

  lemma SuffixStays(a: seq<string>, b: seq<string>, max: int, k: nat)
    requires k < |b| && (max > 0 ==> |b| <= max)
    ensures b[k] in Newest(a + b, max)
  {
    var all := a + b;
    assert all[|a| + k] == b[k];
    if 0 < max < |all| {
      assert Newest(all, max)[|a| + k - (|all| - max)] == b[k];
    }
  }

  /** The cache as the router updates it. */
  class Results {
    var results: map<string, StoredResult>
    var order: seq<string>

    ghost function Contents(): Cache
      reads this
    {
      Cache(results, order)
    }

    constructor ()
      ensures Contents() == Cache(map[], []) && InStep(Contents())
    {
      results, order := map[], [];
    }

    method PutResult(id: string, sr: StoredResult, max: int)
      requires InStep(Contents())
      modifies this
      ensures Contents() == Put(old(Contents()), id, sr, max) && InStep(Contents())
    {
      InsertInStep(Contents(), id, sr);
      if id !in results {
        order := order + [id];
      }
      results := results[id := sr];
      ghost var goal := Evicted(Contents(), max);
      while max > 0 && |results| > max
        invariant InStep(Contents())
        invariant Evicted(Contents(), max) == goal
        decreases |order|
      {
        DropOldest(Contents());
        var oldest := order[0];
        order := order[1..];
        results := results - {oldest};
      }
    }

    method CopyMissingResults(rebuilt: Results, max: int)
      requires rebuilt != this && InStep(Contents())
      modifies this
      ensures Contents() == CopyMissing(old(Contents()), rebuilt.Contents(), rebuilt.order, max)
      ensures InStep(Contents())
    {
      for i := 0 to |rebuilt.order|
        invariant rebuilt.Contents() == old(rebuilt.Contents())
        invariant InStep(Contents())
        invariant Contents() == CopyMissing(old(Contents()), rebuilt.Contents(), rebuilt.order[..i], max)
      {
        var id := rebuilt.order[i];
        assert rebuilt.order[..i + 1][..i] == rebuilt.order[..i];
        if id in rebuilt.results && id !in results {
          PutResult(id, rebuilt.results[id], max);
        }
      }
      assert rebuilt.order[..|rebuilt.order|] == rebuilt.order;
    }
  }

  ghost predicate Freshest(inter: map<string, int>, f: string) {
    f in inter && forall k :: k in inter && k != f ==> inter[k] < inter[f]
  }

  /** The interaction table: cache key to last use. */
  class StateTable {
    var inter: map<string, int>

    constructor ()
      ensures inter == map[]
    {
      inter := map[];
    }

    /** Drops entries idle past the TTL, then the least recently used down to
        `maxInter`. No survivor was used strictly earlier than an entry the size
        cap dropped, and a strictly freshest entry that is not idle survives. */
    method PruneLocked(now: int, idleTTL: int, maxInter: int)
      requires "" !in inter
      modifies this
      ensures inter.Keys <= old(inter).Keys
      ensures forall k :: k in inter ==> inter[k] == old(inter)[k]
      ensures idleTTL > 0 ==> forall k :: k in inter ==> now - idleTTL <= inter[k]
      ensures maxInter > 0 ==> |inter| <= maxInter
      ensures forall k, e :: k in inter && e in old(inter) && e !in inter ==>
                || (idleTTL > 0 && old(inter)[e] < now - idleTTL)
                || old(inter)[e] <= inter[k]
      ensures forall f :: Freshest(old(inter), f) && (idleTTL > 0 ==> now - idleTTL <= old(inter)[f]) ==> f in inter
    {
      if idleTTL > 0 {
        inter := map k | k in inter && !(inter[k] < now - idleTTL) :: inter[k];
      }
      while maxInter > 0 && |inter| > maxInter
        invariant inter.Keys <= old(inter).Keys
        invariant forall k :: k in inter ==> inter[k] == old(inter)[k]
        invariant idleTTL > 0 ==> forall k :: k in inter ==> now - idleTTL <= inter[k]
        invariant forall k, e :: k in inter && e in old(inter) && e !in inter ==>
                || (idleTTL > 0 && old(inter)[e] < now - idleTTL)
                || old(inter)[e] <= inter[k]
        invariant forall f :: Freshest(old(inter), f) && (idleTTL > 0 ==> now - idleTTL <= old(inter)[f]) ==> f in inter
        decreases inter.Keys
      {
        var lru := LeastRecentlyUsed();
        assert |inter.Keys - {lru}| == |inter.Keys| - 1;
        ghost var other :| other in inter.Keys - {lru};
        inter := inter - {lru};
      }
    }

    /** The inner scan; `""` marks that no candidate has been seen yet. */
    method LeastRecentlyUsed() returns (lru: string)
      requires "" !in inter && |inter| > 0
      ensures lru in inter && forall k :: k in inter ==> inter[lru] <= inter[k]
    {
      lru := "";
      var lruAt := 0;
      var todo := inter.Keys;
      assert todo != {};
      while todo != {}
        invariant todo <= inter.Keys
        invariant lru == "" <==> todo == inter.Keys
        invariant lru != "" ==> lru in inter && lruAt == inter[lru]
        invariant forall k :: k in inter && k !in todo ==> lruAt <= inter[k]
        decreases todo
      {
        var k :| k in todo;
        if lru == "" || inter[k] < lruAt {
          lru, lruAt := k, inter[k];
        }
        todo := todo - {k};
      }
    }
  }
}
