/**
 * The indexed store. Every mutating method is tied to the operation of the same name in
 * `View`; `Valid` ties the name, uid and inverse-index maps to the object map.
 */
module Informer {
  import opened Objects
  import opened Wrappers
  import V = View

  function Bucket(buckets: map<Index, set<Key>>, i: Index): set<Key> {
    if i in buckets then buckets[i] else {}
  }

  function Only(wanted: bool, key: Key): set<Key> {
    if wanted then {key} else {}
  }

  /** The inverse index is the plain filter, and keeps no empty bucket. */
  ghost predicate IndexAgrees(buckets: map<Index, set<Key>>, objects: map<Key, Item>) {
    && (forall i | i in buckets :: buckets[i] != {})
    && (forall i :: Bucket(buckets, i) == V.Selected(objects, i))
  }

  /** Each name maps to its one live object. */
  ghost predicate NamesAgree(names: map<(string, string), Key>, objects: map<Key, Item>) {
    && (forall n | n in names :: names[n] in objects && names[n].NameKey() == n)
    && (forall k | k in objects :: k.NameKey() in names && names[k.NameKey()] == k)
  }

  /** Every uid entry points at a live object that has it. */
  ghost predicate UidsSound(uids: map<string, Key>, objects: map<Key, Item>) {
    forall u | u in uids :: uids[u] in objects && uids[u].uid == u
  }

  /** Every live object is found by its uid. */
  ghost predicate UidsComplete(uids: map<string, Key>, objects: map<Key, Item>) {
    forall k | k in objects :: k.uid in uids && uids[k.uid] == k
  }

  lemma LoadStarts(items: seq<Item>, uids: map<string, Key>)
    ensures items[..0] == [] && V.Load(items[..0]) == map[] && V.Stamps(items[..0]) == [] && V.AllKeyed(items[..0])
    ensures UidsComplete(uids, map[])
  {
  }

  /** One more item of a snapshot. */
  lemma LoadStep(items: seq<Item>, n: nat)
    requires n < |items|
    ensures V.Load(items[..n + 1]) == V.PutItem(V.Load(items[..n]), items[n])
    ensures V.Stamps(items[..n + 1]) ==
            V.Stamps(items[..n]) + (if items[n].revision.Some? then [V.Stamp(items[n].uid, items[n].revision.value)] else [])
    ensures V.AllKeyed(items[..n + 1]) <==> V.AllKeyed(items[..n]) && items[n].HasKey()
    ensures !items[n].HasKey() ==> !V.AllKeyed(items)
    ensures V.Unshared(items) ==> V.UidIsFree(V.Load(items[..n]), items[n])
  {
    assert items[..n + 1][..n] == items[..n] && items[..n + 1] == items[..n] + [items[n]];
    if V.Unshared(items) {
      forall k | k in V.Load(items[..n]) && k.uid == items[n].uid ensures k.NameKey() == items[n].KeyOf().NameKey() {
        V.LoadedWasListed(items[..n], k);
      }
    }
  }

  /** Dropping the only key of a name is dropping the name. */
  lemma LastOfName<T>(m: map<Key, T>, key: Key, holder: Key)
    requires forall k | k in m && k.NameKey() == key.NameKey() :: k == holder
    ensures V.WithoutName(m, key.NameKey()) == if holder.NameKey() == key.NameKey() then m - {holder} else m
    ensures V.WithoutRivals(m, key) == if holder.NameKey() == key.NameKey() && holder != key then m - {holder} else m
  {
  }

  /** The uid map after a `put` that displaced `gone`. */
  function UidsAfterPut(uids: map<string, Key>, gone: Option<Item>, o: Item): map<string, Key> {
    (if gone.Some? then uids - {gone.value.uid} else uids)[o.uid := o.KeyOf()]
  }

  /** While uids are not shared between names, every live object is found by its uid. */
  lemma PutKeepsUidsComplete(uids: map<string, Key>, objects: map<Key, Item>, d: V.Delta, o: Item)
    requires V.Keyed(objects) && d.come == Some(o) && V.Explains(d, objects, V.PutItem(objects, o))
    requires UidsComplete(uids, objects) && V.UidIsFree(objects, o)
    ensures UidsComplete(UidsAfterPut(uids, d.gone, o), V.PutItem(objects, o))
  {
    if d.gone.Some? {
      assert V.Replay(objects, d) == V.PutItem(objects, o);
    }
  }

  lemma RemoveKeepsUidsComplete(uids: map<string, Key>, objects: map<Key, Item>, key: Key)
    requires UidsComplete(uids, objects)
    ensures UidsComplete(if key in objects then uids - {key.uid} else uids, objects - {key})
  {
  }

  lemma NoneAreShared(base: map<Key, Item>)
    ensures V.UnsharedOver(base, map[])
  {
  }

  lemma FewerAreUnshared(base: map<Key, Item>, writes: map<Key, Item>, kept: set<Key>)
    ensures V.UnsharedOver(base, writes) ==> V.UnsharedOver(base, V.Restrict(writes, kept))
  {
  }

  lemma ReapplyIsFree(base: map<Key, Item>, writes: map<Key, Item>, left: set<Key>, objects: map<Key, Item>, overlays: map<Key, Item>, k: Key)
    requires Reapplied(base, writes, left, objects, overlays) && k in writes && V.UnsharedOver(base, writes)
    ensures V.UidIsFree(objects, writes[k])
  {
    assert writes[k].KeyOf() == k;
  }

  lemma InsertIsIndexed(buckets: map<Index, set<Key>>, after: map<Index, set<Key>>, objects: map<Key, Item>, o: Item)
    requires IndexAgrees(buckets, objects) && o.KeyOf() !in objects
    requires forall i | i in after :: after[i] != {}
    requires forall i :: Bucket(after, i) == Bucket(buckets, i) + Only(i in o.routes, o.KeyOf())
    ensures IndexAgrees(after, objects[o.KeyOf() := o])
  {
    forall i ensures Bucket(after, i) == V.Selected(objects[o.KeyOf() := o], i) {
      assert Bucket(buckets, i) == V.Selected(objects, i);
    }
  }

  lemma RemoveIsIndexed(buckets: map<Index, set<Key>>, after: map<Index, set<Key>>, objects: map<Key, Item>, key: Key)
    requires IndexAgrees(buckets, objects) && key in objects
    requires forall i | i in after :: after[i] != {}
    requires forall i :: Bucket(after, i) == Bucket(buckets, i) - Only(i in objects[key].routes, key)
    ensures IndexAgrees(after, objects - {key})
  {
    forall i ensures Bucket(after, i) == V.Selected(objects - {key}, i) {
      assert Bucket(buckets, i) == V.Selected(objects, i);
    }
  }

  /** The derived maps agree with the object map. */
  ghost predicate Agree(
    objects: map<Key, Item>, names: map<(string, string), Key>, uids: map<string, Key>, buckets: map<Index, set<Key>>)
  {
    && V.ObjectsInv(objects)
    && IndexAgrees(buckets, objects)
    && NamesAgree(names, objects)
    && UidsSound(uids, objects)
  }

  lemma AgreeIsKeyed(
    objects: map<Key, Item>, names: map<(string, string), Key>, uids: map<string, Key>, buckets: map<Index, set<Key>>)
    requires Agree(objects, names, uids, buckets)
    ensures V.Keyed(objects)
  {
  }

  lemma RemoveAgrees(
    objects: map<Key, Item>, names: map<(string, string), Key>, uids: map<string, Key>, buckets: map<Index, set<Key>>,
    key: Key, after: map<Index, set<Key>>)
    requires Agree(objects, names, uids, buckets) && key in objects
    requires forall i | i in after :: after[i] != {}
    requires forall i :: Bucket(after, i) == Bucket(buckets, i) - Only(i in objects[key].routes, key)
    ensures key.NameKey() in names && names[key.NameKey()] == key
    ensures Agree(objects - {key}, names - {key.NameKey()}, uids - {key.uid}, after)
  {
    RemoveIsIndexed(buckets, after, objects, key);
  }

  lemma InsertAgrees(
    objects: map<Key, Item>, names: map<(string, string), Key>, uids: map<string, Key>, buckets: map<Index, set<Key>>,
    o: Item, after: map<Index, set<Key>>)
    requires Agree(objects, names, uids, buckets) && o.HasKey() && !V.NameIn(objects, o.KeyOf().NameKey())
    requires forall i | i in after :: after[i] != {}
    requires forall i :: Bucket(after, i) == Bucket(buckets, i) + Only(i in o.routes, o.KeyOf())
    ensures Agree(objects[o.KeyOf() := o], names[o.KeyOf().NameKey() := o.KeyOf()], uids[o.uid := o.KeyOf()], after)
  {
    InsertIsIndexed(buckets, after, objects, o);
  }

  /** The holder of a name is the only object of that name. */
  lemma HolderIsOnly(
    objects: map<Key, Item>, names: map<(string, string), Key>, uids: map<string, Key>, buckets: map<Index, set<Key>>,
    name: (string, string))
    requires Agree(objects, names, uids, buckets)
    ensures name !in names ==> !V.NameIn(objects, name)
    ensures name in names ==> names[name] in objects && objects[names[name]].KeyOf() == names[name] && names[name].NameKey() == name
    ensures name in names ==> forall k | k in objects && k.NameKey() == name :: k == names[name]
  {
  }

  lemma KeepsAll(times: map<Key, nat>, over: map<Key, Item>, key: Key)
    requires times.Keys == over.Keys && !V.NameIn(over, key.NameKey())
    ensures V.WithoutRivals(times, key) == times
  {
  }

  /** The writes outside `left` are back on top of the snapshot, unless it confirms them. */
  ghost predicate Reapplied(
    base: map<Key, Item>, writes: map<Key, Item>, left: set<Key>, objects: map<Key, Item>, overlays: map<Key, Item>)
  {
    && V.ObjectsInv(writes)
    && overlays == V.Restrict(writes, V.Unconfirmed(writes, base) - left)
    && objects == V.Override(base, overlays)
  }

  lemma ReapplyStarts(base: map<Key, Item>, writes: map<Key, Item>)
    requires V.ObjectsInv(writes)
    ensures Reapplied(base, writes, writes.Keys, base, map[])
  {
    assert V.Restrict(writes, V.Unconfirmed(writes, base) - writes.Keys) == map[];
    assert V.Override(base, map[]) == base;
  }

  lemma ReapplyNext(
    base: map<Key, Item>, writes: map<Key, Item>, left: set<Key>, objects: map<Key, Item>, overlays: map<Key, Item>, k: Key)
    requires Reapplied(base, writes, left, objects, overlays) && k in left && k in writes
    ensures writes[k].HasKey() && writes[k].KeyOf() == k && overlays.Keys <= objects.Keys
    ensures V.WithoutRivals(overlays, k) == overlays && !V.NameIn(overlays, k.NameKey())
    ensures
      if V.Confirms(objects, k, writes[k]) then Reapplied(base, writes, left - {k}, objects, overlays)
      else Reapplied(base, writes, left - {k}, V.PutItem(objects, writes[k]), overlays[k := writes[k]])
  {
    V.ReapplyStep(base, writes, left, k);
    V.PutOverrides(base, overlays, writes[k]);
  }

  lemma ReapplyEnds(base: map<Key, Item>, writes: map<Key, Item>, objects: map<Key, Item>, overlays: map<Key, Item>)
    requires Reapplied(base, writes, {}, objects, overlays)
    ensures overlays == V.Restrict(writes, V.Unconfirmed(writes, base)) && objects == V.Override(base, overlays)
  {
    assert V.Unconfirmed(writes, base) - {} == V.Unconfirmed(writes, base);
  }

  /** The deltas that take one object map to another, changed and removed keys first. */
  method Differences(before: map<Key, Item>, after: map<Key, Item>) returns (ds: seq<V.Delta>)
    requires V.Keyed(before) && V.Keyed(after)
    ensures V.ReplayAll(before, ds) == after
    ensures V.Covered(before, after, before.Keys + after.Keys, ds)
  {
    hide V.Progress;
    ds := [];
    V.ProgressStarts(before, after);
    var left := before.Keys;
    assert before.Keys - left == {};
    while left != {}
      invariant left <= before.Keys
      invariant V.Progress(before, after, before.Keys - left, ds)
    {
      var k :| k in left;
      ds := Difference(before, after, before.Keys - left, ds, k);
      assert before.Keys - (left - {k}) == before.Keys - left + {k};
      left := left - {k};
    }
    left := after.Keys - before.Keys;
    assert before.Keys - {} == before.Keys + after.Keys - left;
    while left != {}
      invariant left <= after.Keys - before.Keys
      invariant V.Progress(before, after, before.Keys + after.Keys - left, ds)
    {
      var k :| k in left;
      ds := Difference(before, after, before.Keys + after.Keys - left, ds, k);
      assert before.Keys + after.Keys - (left - {k}) == before.Keys + after.Keys - left + {k};
      left := left - {k};
    }
    assert before.Keys + after.Keys - {} == before.Keys + after.Keys;
    V.ProgressEnds(before, after, ds);
  }

  method Difference(
    before: map<Key, Item>, after: map<Key, Item>, ghost done: set<Key>, ds: seq<V.Delta>, k: Key)
    returns (r: seq<V.Delta>)
    requires k !in done && V.Progress(before, after, done, ds)
    ensures V.Progress(before, after, done + {k}, r)
  {
    V.ProgressStep(before, after, done, ds, k);
    if V.Lookup(before, k) == V.Lookup(after, k) {
      return ds;
    }
    r := ds + [V.DeltaOf(V.Lookup(before, k), V.Lookup(after, k))];
  }

  class Store {
    var synced: bool
    var initialized: bool
    var objects: map<Key, Item>
    var names: map<(string, string), Key>
    var uids: map<string, Key>
    var indexes: map<Index, set<Key>>
    var overlays: map<Key, Item>
    var seen: seq<V.Stamp>
    var evictedAt: Option<nat>
    var ackedAt: map<Key, nat>

    ghost function AsView(): V.View
      reads this
    {
      V.View(synced, initialized, objects, overlays, ackedAt, seen, evictedAt)
    }

    ghost predicate MapsAgree()
      reads this
    {
      Agree(objects, names, uids, indexes)
    }

    ghost predicate Valid()
      reads this
    {
      MapsAgree() && V.Inv(AsView())
    }

    constructor ()
      ensures Valid() && AsView() == V.EMPTY
      ensures UidsComplete(uids, objects)
    {
      synced, initialized := false, false;
      objects, names, uids, indexes := map[], map[], map[], map[];
      overlays, seen, evictedAt, ackedAt := map[], [], None, map[];
    }

    // ------------------------------------------------------------ index upkeep

    method Unroute(key: Key, routes: set<Index>)
      requires forall i | i in indexes :: indexes[i] != {}
      modifies `indexes
      ensures forall i | i in indexes :: indexes[i] != {}
      ensures forall i :: Bucket(indexes, i) == Bucket(old(indexes), i) - Only(i in routes, key)
    {
      var left := routes;
      while left != {}
        invariant left <= routes
        invariant forall i | i in indexes :: indexes[i] != {}
        invariant forall i :: Bucket(indexes, i) == Bucket(old(indexes), i) - Only(i in routes && i !in left, key)
      {
        var i :| i in left;
        if i in indexes {
          var keys := indexes[i] - {key};
          indexes := if keys == {} then indexes - {i} else indexes[i := keys];
        }
        left := left - {i};
      }
    }

    method Route(key: Key, routes: set<Index>)
      requires forall i | i in indexes :: indexes[i] != {}
      modifies `indexes
      ensures forall i | i in indexes :: indexes[i] != {}
      ensures forall i :: Bucket(indexes, i) == Bucket(old(indexes), i) + Only(i in routes, key)
    {
      var left := routes;
      while left != {}
        invariant left <= routes
        invariant forall i | i in indexes :: indexes[i] != {}
        invariant forall i :: Bucket(indexes, i) == Bucket(old(indexes), i) + Only(i in routes && i !in left, key)
      {
        var i :| i in left;
        indexes := indexes[i := Bucket(indexes, i) + {key}];
        left := left - {i};
      }
    }

    method Remove(key: Key) returns (gone: Option<Item>)
      requires MapsAgree()
      modifies `objects, `names, `uids, `indexes
      ensures MapsAgree()
      ensures objects == old(objects) - {key}
      ensures gone == if key in old(objects) then Some(old(objects)[key]) else None
      ensures uids == if key in old(objects) then old(uids) - {key.uid} else old(uids)
      ensures UidsComplete(old(uids), old(objects)) ==> UidsComplete(uids, objects)
    {
      if UidsComplete(uids, objects) {
        RemoveKeepsUidsComplete(uids, objects, key);
      }
      hide UidsComplete;
      if key !in objects {
        return None;
      }
      var item := objects[key];
      Unroute(key, item.routes);
      RemoveAgrees(objects, names, uids, old(indexes), key, indexes);
      hide Agree;
      objects := objects - {key};
      uids := uids - {key.uid};
      if key.NameKey() in names && names[key.NameKey()] == key {
        names := names - {key.NameKey()};
      }
      return Some(item);
    }

    /** The first half of `put`: the holder of the name leaves, with its overlay unless it is `key` itself. */
    method Displace(key: Key) returns (gone: Option<Item>)
      requires MapsAgree()
      requires overlays.Keys <= objects.Keys && ackedAt.Keys <= objects.Keys
      modifies `objects, `names, `uids, `indexes, `overlays, `ackedAt
      ensures MapsAgree()
      ensures objects == V.WithoutName(old(objects), key.NameKey()) && !V.NameIn(objects, key.NameKey())
      ensures overlays == V.WithoutRivals(old(overlays), key)
      ensures ackedAt == V.WithoutRivals(old(ackedAt), key)
      ensures gone.None? ==> uids == old(uids) && objects == old(objects)
      ensures gone.Some? ==>
        && gone.value.KeyOf() in old(objects) && old(objects)[gone.value.KeyOf()] == gone.value
        && objects == old(objects) - {gone.value.KeyOf()}
        && uids == old(uids) - {gone.value.uid}
    {
      hide Agree;
      HolderIsOnly(objects, names, uids, indexes, key.NameKey());
      ghost var holder := if key.NameKey() in names then names[key.NameKey()] else key;
      LastOfName(objects, key, holder);
      LastOfName(overlays, key, holder);
      LastOfName(ackedAt, key, holder);
      gone := None;
      if key.NameKey() in names {
        var previous := names[key.NameKey()];
        if previous != key {
          overlays := overlays - {previous};
          ackedAt := ackedAt - {previous};
        }
        gone := Remove(previous);
      }
    }

    /** The second half of `put`: the object enters every map under a name nobody holds. */
    method Insert(o: Item)
      requires MapsAgree() && o.HasKey() && !V.NameIn(objects, o.KeyOf().NameKey())
      modifies `objects, `names, `uids, `indexes
      ensures MapsAgree()
      ensures objects == old(objects)[o.KeyOf() := o]
      ensures uids == old(uids)[o.uid := o.KeyOf()]
    {
      var key := o.KeyOf();
      Route(key, o.routes);
      InsertAgrees(objects, names, uids, old(indexes), o, indexes);
      hide Agree;
      names := names[key.NameKey() := key];
      uids := uids[key.uid := key];
      objects := objects[key := o];
    }

    /** Both halves of `put`. */
    method Exchange(o: Item) returns (d: V.Delta)
      requires MapsAgree() && o.HasKey()
      requires overlays.Keys <= objects.Keys && ackedAt.Keys <= objects.Keys
      modifies `objects, `names, `uids, `indexes, `overlays, `ackedAt
      ensures MapsAgree()
      ensures AsView() == V.Put(old(AsView()), o)
      ensures V.Explains(d, old(objects), objects) && d.come == Some(o)
      ensures uids == UidsAfterPut(old(uids), d.gone, o)
    {
      hide Agree;
      var gone := Displace(o.KeyOf());
      assert o.KeyOf() !in objects;
      Insert(o);
      d := V.DeltaOf(gone, Some(o));
    }

    method Put(o: Item) returns (d: V.Delta)
      requires MapsAgree() && o.HasKey()
      requires overlays.Keys <= objects.Keys && ackedAt.Keys <= objects.Keys
      modifies `objects, `names, `uids, `indexes, `overlays, `ackedAt
      ensures MapsAgree()
      ensures AsView() == V.Put(old(AsView()), o)
      ensures V.Explains(d, old(objects), objects) && d.come == Some(o)
      ensures uids == UidsAfterPut(old(uids), d.gone, o)
      ensures UidsComplete(old(uids), old(objects)) && V.UidIsFree(old(objects), o) ==> UidsComplete(uids, objects)
    {
      AgreeIsKeyed(objects, names, uids, indexes);
      hide Agree, UidsComplete, V.UidIsFree, UidsAfterPut, V.Explains, V.PutItem, V.WithoutRivals, V.Keyed;
      d := Exchange(o);
      if UidsComplete(old(uids), old(objects)) && V.UidIsFree(old(objects), o) {
        PutKeepsUidsComplete(old(uids), old(objects), d, o);
      }
    }

    // ------------------------------------------------------------ observations

    method EvictHistory(now: nat)
      modifies `seen, `evictedAt
      ensures seen == V.Recent(old(seen)) && evictedAt == V.LastEviction(old(seen), old(evictedAt), now)
    {
      while |seen| > V.HISTORY
        invariant |seen| <= |old(seen)| && seen == old(seen)[|old(seen)| - |seen|..]
        invariant |seen| < |old(seen)| ==> |seen| >= V.HISTORY && evictedAt == Some(now)
        invariant |seen| == |old(seen)| ==> evictedAt == old(evictedAt)
      {
        seen := seen[1..];
        evictedAt := Some(now);
      }
    }

    /** Fill an empty store from a snapshot; fails on the first object without a key. */
    method LoadSnapshot(items: seq<Item>) returns (ok: bool)
      requires MapsAgree() && objects == map[] && overlays == map[] && ackedAt == map[]
      modifies `objects, `names, `uids, `indexes, `overlays, `ackedAt, `seen
      ensures ok <==> V.AllKeyed(items)
      ensures ok ==> MapsAgree() && objects == V.Load(items) && overlays == map[] && ackedAt == map[]
      ensures ok ==> seen == old(seen) + V.Stamps(items)
      ensures ok && V.Unshared(items) ==> UidsComplete(uids, objects)
    {
      LoadStarts(items, uids);
      hide Agree, V.Load, V.Stamps, V.Unshared, V.UidIsFree, UidsComplete, V.AllKeyed, V.PutItem;
      for n := 0 to |items|
        invariant V.AllKeyed(items[..n])
        invariant MapsAgree() && objects == V.Load(items[..n]) && overlays == map[] && ackedAt == map[]
        invariant seen == old(seen) + V.Stamps(items[..n])
        invariant V.Unshared(items) ==> UidsComplete(uids, objects)
      {
        LoadStep(items, n);
        if !items[n].HasKey() {
          return false;
        }
        LoadItem(items[n]);
      }
      assert items[..|items|] == items;
      return true;
    }

    /** One item of a snapshot. */
    method LoadItem(o: Item)
      requires MapsAgree() && overlays == map[] && ackedAt == map[] && o.HasKey()
      modifies `objects, `names, `uids, `indexes, `overlays, `ackedAt, `seen
      ensures MapsAgree() && objects == V.PutItem(old(objects), o) && overlays == map[] && ackedAt == map[]
      ensures seen == old(seen) + (if o.revision.Some? then [V.Stamp(o.uid, o.revision.value)] else [])
      ensures UidsComplete(old(uids), old(objects)) && V.UidIsFree(old(objects), o) ==> UidsComplete(uids, objects)
    {
      hide Agree, UidsComplete, V.UidIsFree, V.PutItem, V.Explains;
      var _ := Put(o);
      if o.revision.Some? {
        seen := seen + [V.Stamp(o.uid, o.revision.value)];
      }
    }

    method PutOverlay(o: Item, at: nat) returns (d: V.Delta)
      requires MapsAgree() && o.HasKey()
      requires overlays.Keys <= objects.Keys && ackedAt.Keys <= objects.Keys
      modifies `objects, `names, `uids, `indexes, `overlays, `ackedAt
      ensures MapsAgree()
      ensures objects == V.PutItem(old(objects), o)
      ensures overlays == V.WithoutRivals(old(overlays), o.KeyOf())[o.KeyOf() := o]
      ensures ackedAt == V.WithoutRivals(old(ackedAt), o.KeyOf())[o.KeyOf() := at]
      ensures V.Explains(d, old(objects), objects) && d.come == Some(o)
      ensures UidsComplete(old(uids), old(objects)) && V.UidIsFree(old(objects), o) ==> UidsComplete(uids, objects)
    {
      hide Agree, UidsComplete, V.UidIsFree;
      d := Put(o);
      ackedAt := ackedAt[o.KeyOf() := at];
      overlays := overlays[o.KeyOf() := o];
    }

    /** Put back the writes a snapshot does not confirm, with their acknowledgement times. */
    method Reapply(writes: map<Key, Item>, times: map<Key, nat>)
      requires MapsAgree() && overlays == map[] && ackedAt == map[]
      requires V.ObjectsInv(writes) && times.Keys == writes.Keys
      modifies `objects, `names, `uids, `indexes, `overlays, `ackedAt
      ensures MapsAgree()
      ensures overlays == V.Restrict(writes, V.Unconfirmed(writes, old(objects)))
      ensures ackedAt.Keys == overlays.Keys && forall k | k in ackedAt :: ackedAt[k] == times[k]
      ensures objects == V.Override(old(objects), overlays)
      ensures UidsComplete(old(uids), old(objects)) && V.UnsharedOver(old(objects), writes) ==> UidsComplete(uids, objects)
    {
      hide Agree, Reapplied, UidsComplete, V.UidIsFree, V.UnsharedOver;
      ghost var base := objects;
      ReapplyStarts(base, writes);
      var left := writes.Keys;
      while left != {}
        invariant left <= writes.Keys
        invariant MapsAgree()
        invariant Reapplied(base, writes, left, objects, overlays)
        invariant ackedAt.Keys == overlays.Keys <= writes.Keys && forall k | k in ackedAt :: ackedAt[k] == times[k]
        invariant UidsComplete(old(uids), base) && V.UnsharedOver(base, writes) ==> UidsComplete(uids, objects)
      {
        var k :| k in left;
        ReapplyNext(base, writes, left, objects, overlays, k);
        if V.UnsharedOver(base, writes) {
          ReapplyIsFree(base, writes, left, objects, overlays, k);
        }
        if !V.Confirms(objects, k, writes[k]) {
          KeepsAll(ackedAt, overlays, k);
          var _ := PutOverlay(writes[k], times[k]);
        }
        left := left - {k};
      }
      ReapplyEnds(base, writes, objects, overlays);
    }

    /** Become `other`, synchronized: the end of a replacement. */
    method Adopt(other: Store)
      requires other.MapsAgree()
      modifies this
      ensures MapsAgree()
      ensures AsView() == old(other.AsView()).(synced := true, initialized := true) && uids == old(other.uids)
    {
      hide Agree;
      objects, names, uids, indexes := other.objects, other.names, other.uids, other.indexes;
      overlays, ackedAt, seen, evictedAt := other.overlays, other.ackedAt, other.seen, other.evictedAt;
      synced, initialized := true, true;
    }

    /** The store a snapshot is to replace this one with; this one is untouched. */
    method Rebuild(items: seq<Item>, now: nat) returns (ok: bool, replacement: Store)
      requires Valid()
      ensures fresh(replacement)
      ensures ok <==> V.AllKeyed(items)
      ensures ok ==> replacement.MapsAgree()
      ensures ok ==> replacement.AsView().(synced := true, initialized := true) == V.Reset(AsView(), V.Items(items), now)
      ensures ok && V.Unshared(items) && V.UnsharedOver(V.Load(items), overlays) ==> UidsComplete(replacement.uids, replacement.objects)
    {
      V.OverlaysAreKeyed(AsView());
      hide Agree, UidsComplete, V.Unshared, V.UnsharedOver;
      replacement := new Store();
      replacement.seen := seen;
      replacement.evictedAt := evictedAt;
      ok := replacement.LoadSnapshot(items);
      if ok {
        replacement.EvictHistory(now);
        replacement.Reapply(overlays, ackedAt);
        V.RebuiltIsReset(AsView(), items, now, replacement.AsView());
      }
    }

    method Reset(list: V.Listing, now: nat) returns (r: Result<seq<V.Delta>, V.Error>)
      requires Valid()
      modifies this
      ensures Valid()
      ensures AsView() == V.Reset(old(AsView()), list, now)
      ensures r.Ok? <==> V.Acceptable(list)
      ensures r.Err? ==> V.ResetOutcome(list) == V.Failed(r.error)
      ensures r.Ok? ==> V.ReplayAll(old(objects), r.value) == objects
      ensures r.Ok? ==> V.Covered(old(objects), objects, old(objects).Keys + objects.Keys, r.value)
      ensures r.Ok? && V.Unshared(list.items) && V.UnsharedOver(V.Load(list.items), old(overlays)) ==> UidsComplete(uids, objects)
      ensures r.Err? ==> uids == old(uids) && objects == old(objects)
    {
      if list.Malformed? {
        return Err(V.NotAList);
      }
      hide UidsComplete, V.Unshared, V.UnsharedOver;
      var ok, replacement := Rebuild(list.items, now);
      if !ok {
        return Err(V.NoKey);
      }
      V.ResetKeepsInv(AsView(), list, now);
      hide Agree;
      var changes := Differences(objects, replacement.objects);
      Adopt(replacement);
      return Ok(changes);
    }

    /** Does every object of the snapshot have a key? Asked before anything is forgotten. */
    method CheckKeys(items: seq<Item>) returns (ok: bool)
      ensures ok <==> V.AllKeyed(items)
    {
      for n := 0 to |items|
        invariant V.AllKeyed(items[..n])
      {
        if !items[n].HasKey() {
          assert items[n] in items;
          return false;
        }
      }
      assert items[..|items|] == items;
      return true;
    }

    method Forget(started: nat)
      modifies `overlays, `ackedAt
      ensures AsView() == V.DropBefore(old(AsView()), started)
    {
      var kept := V.RecentWrites(overlays, ackedAt, started);
      overlays, ackedAt := V.Restrict(overlays, kept), V.Restrict(ackedAt, kept);
    }

    method ResetStartedAt(list: V.Listing, started: nat, now: nat) returns (r: Result<seq<V.Delta>, V.Error>)
      requires Valid()
      modifies this
      ensures Valid()
      ensures AsView() == V.ResetStartedAt(old(AsView()), list, started, now)
      ensures r.Ok? <==> V.Acceptable(list)
      ensures r.Err? ==> V.ResetOutcome(list) == V.Failed(r.error)
      ensures r.Ok? ==> V.ReplayAll(old(objects), r.value) == objects
      ensures r.Ok? ==> V.Covered(old(objects), objects, old(objects).Keys + objects.Keys, r.value)
      ensures r.Ok? && V.Unshared(list.items) && V.UnsharedOver(V.Load(list.items), old(overlays)) ==> UidsComplete(uids, objects)
      ensures r.Err? ==> uids == old(uids) && objects == old(objects)
    {
      hide Agree, UidsComplete, V.Unshared, V.UnsharedOver, V.Inv, V.Load, V.Reset, V.ReplayAll, V.Covered, V.ObjectsInv, V.OverlaysInv;
      if list.Malformed? {
        return Err(V.NotAList);
      }
      var ok := CheckKeys(list.items);
      if !ok {
        return Err(V.NoKey);
      }
      V.DropBeforeKeepsInv(AsView(), started);
      FewerAreUnshared(V.Load(list.items), overlays, V.RecentWrites(overlays, ackedAt, started));
      Forget(started);
      r := Reset(list, now);
    }

    method ResetAfterWrites(list: V.Listing, now: nat) returns (r: Result<seq<V.Delta>, V.Error>)
      requires Valid()
      modifies this
      ensures Valid()
      ensures AsView() == V.ResetAfterWrites(old(AsView()), list, now)
      ensures r.Ok? <==> V.Acceptable(list)
      ensures r.Err? ==> V.ResetOutcome(list) == V.Failed(r.error)
      ensures r.Ok? ==> V.ReplayAll(old(objects), r.value) == objects
      ensures r.Ok? ==> V.Covered(old(objects), objects, old(objects).Keys + objects.Keys, r.value)
      ensures r.Ok? && V.Unshared(list.items) ==> UidsComplete(uids, objects)
      ensures r.Err? ==> uids == old(uids) && objects == old(objects)
    {
      hide Agree, UidsComplete, V.Unshared, V.UnsharedOver, V.Inv, V.Load, V.Reset, V.ReplayAll, V.Covered, V.ObjectsInv, V.OverlaysInv;
      if list.Malformed? {
        return Err(V.NotAList);
      }
      var ok := CheckKeys(list.items);
      if !ok {
        return Err(V.NoKey);
      }
      NoneAreShared(V.Load(list.items));
      V.ClearedKeepsInv(AsView());
      overlays, ackedAt := map[], map[];
      r := Reset(list, now);
    }

    method AcknowledgeSince(o: Item, started: nat, now: nat) returns (r: Result<Option<V.Delta>, V.Error>)
      requires Valid()
      modifies this
      ensures Valid()
      ensures AsView() == V.Acknowledge(old(AsView()), o, started, now)
      ensures match V.AcknowledgeOutcome(old(AsView()), o, started)
              case Changed => r.Ok? && r.value.Some? && V.Explains(r.value.value, old(objects), objects)
              case Nothing => r == Ok(None) && objects == old(objects)
              case Failed(e) => r == Err(e) && objects == old(objects)
      ensures UidsComplete(old(uids), old(objects)) && V.UidIsFree(old(objects), o) ==> UidsComplete(uids, objects)
    {
      hide UidsComplete, V.UidIsFree;
      if !o.HasKey() {
        return Err(V.NoKey);
      }
      if o.revision.None? {
        return Err(V.NoRevision);
      }
      if V.Stamp(o.uid, o.revision.value) in seen {
        return Ok(None);
      }
      if evictedAt.Some? && evictedAt.value >= started {
        synced := false;
        initialized := false;
        return Err(V.HistoryExpired);
      }
      r := Record(o, started, now);
    }

    /** The accepting branch of an acknowledgement. */
    method Record(o: Item, ghost started: nat, now: nat) returns (r: Result<Option<V.Delta>, V.Error>)
      requires Valid() && V.AcknowledgeOutcome(AsView(), o, started) == V.Changed
      modifies `objects, `names, `uids, `indexes, `overlays, `ackedAt
      ensures Valid()
      ensures AsView() == V.Acknowledge(old(AsView()), o, started, now)
      ensures r.Ok? && r.value.Some? && V.Explains(r.value.value, old(objects), objects)
      ensures UidsComplete(old(uids), old(objects)) && V.UidIsFree(old(objects), o) ==> UidsComplete(uids, objects)
    {
      hide Agree, UidsComplete, V.UidIsFree, V.Explains, V.Inv, V.PutItem, V.WithoutRivals, V.ObjectsInv, V.OverlaysInv;
      V.AcknowledgeKeepsInv(AsView(), o, started, now);
      V.OverlaysAreLive(AsView());
      var change := PutOverlay(o, now);
      return Ok(Some(change));
    }

    method Apply(e: V.Event, now: nat) returns (r: Result<Option<V.Delta>, V.Error>)
      requires Valid()
      modifies this
      ensures Valid()
      ensures AsView() == V.Apply(old(AsView()), e, now)
      ensures match V.ApplyOutcome(old(AsView()), e)
              case Changed => r.Ok? && r.value.Some? && V.Explains(r.value.value, old(objects), objects)
              case Nothing => r == Ok(None) && objects == old(objects)
              case Failed(error) => r == Err(error) && objects == old(objects)
      ensures UidsComplete(old(uids), old(objects)) && V.UidIsFree(old(objects), e.item) ==> UidsComplete(uids, objects)
    {
      hide UidsComplete, V.UidIsFree;
      if e.kind.Bookmark? {
        return Ok(None);
      }
      if !e.item.HasKey() {
        return Err(V.NoKey);
      }
      if e.item.revision.None? {
        return Err(V.NoRevision);
      }
      V.ApplyKeepsInv(AsView(), e, now);
      V.OverlaysAreLive(AsView());
      hide Agree;
      var overlaid := Settle(e.item, now);
      if overlaid {
        return Ok(None);
      }
      r := ApplyEffect(e);
    }

    /** Remember the observation; clear the object's overlay if this is the write it stands for. */
    method Settle(o: Item, now: nat) returns (overlaid: bool)
      requires o.revision.Some? && ackedAt.Keys == overlays.Keys
      modifies `seen, `evictedAt, `overlays, `ackedAt
      ensures overlaid == V.Overlaid(old(AsView()), o)
      ensures var w := V.Observe(old(AsView()), V.Stamp(o.uid, o.revision.value), now);
              AsView() == if overlaid then w
                          else w.(overlays := w.overlays - {o.KeyOf()}, ackedAt := w.ackedAt - {o.KeyOf()})
      ensures overlays.Keys <= old(overlays).Keys && ackedAt.Keys <= old(ackedAt).Keys
    {
      var key := o.KeyOf();
      seen := seen + [V.Stamp(key.uid, o.revision.value)];
      EvictHistory(now);
      if key in overlays {
        if overlays[key].revision != o.revision {
          return true;
        }
        overlays := overlays - {key};
        ackedAt := ackedAt - {key};
      }
      return false;
    }

    /** What an event does once its own overlay is out of the way. */
    method ApplyEffect(e: V.Event) returns (r: Result<Option<V.Delta>, V.Error>)
      requires MapsAgree() && e.item.HasKey() && !e.kind.Bookmark?
      requires overlays.Keys <= objects.Keys && ackedAt.Keys <= objects.Keys
      modifies `objects, `names, `uids, `indexes, `overlays, `ackedAt
      ensures MapsAgree()
      ensures AsView() == V.Effect(old(AsView()), e)
      ensures r.Err? <==> e.kind.Unknown?
      ensures r.Err? ==> r.error == V.UnknownEvent && objects == old(objects)
      ensures r == Ok(None) <==> e.kind.Deleted? && e.item.KeyOf() !in old(objects)
      ensures r == Ok(None) ==> objects == old(objects)
      ensures r.Ok? && r.value.Some? ==> V.Explains(r.value.value, old(objects), objects)
      ensures UidsComplete(old(uids), old(objects)) && V.UidIsFree(old(objects), e.item) ==> UidsComplete(uids, objects)
    {
      hide Agree, V.Explains, UidsComplete, V.UidIsFree;
      match e.kind
      case Added =>
        var change := Put(e.item);
        return Ok(Some(change));
      case Modified =>
        var change := Put(e.item);
        return Ok(Some(change));
      case Deleted =>
        var change := RemoveTold(e.item.KeyOf());
        return Ok(change);
      case Unknown =>
        return Err(V.UnknownEvent);
    }

    /** A removal, told as a delta if there was something to remove. */
    method RemoveTold(key: Key) returns (change: Option<V.Delta>)
      requires MapsAgree()
      modifies `objects, `names, `uids, `indexes
      ensures MapsAgree() && objects == old(objects) - {key}
      ensures change.Some? <==> key in old(objects)
      ensures change.Some? ==> V.Explains(change.value, old(objects), objects)
      ensures UidsComplete(old(uids), old(objects)) ==> UidsComplete(uids, objects)
    {
      hide UidsComplete;
      assert key in objects ==> objects[key].KeyOf() == key;
      hide Agree;
      var gone := Remove(key);
      return if gone.Some? then Some(V.DeltaOf(gone, None)) else None;
    }

    method Unavailable()
      requires Valid()
      modifies `synced
      ensures Valid() && AsView() == V.Unavailable(old(AsView()))
    {
      synced := false;
    }

    method Resumed()
      requires Valid()
      modifies `synced
      ensures Valid() && AsView() == V.Resumed(old(AsView()))
    {
      synced := initialized;
    }

    // ------------------------------------------------------------ reads

    function Get(key: Key): (r: Result<Option<Item>, V.Error>)
      requires Valid()
      reads this
      ensures r.Ok? <==> synced
      ensures r.Ok? ==> (r.value.Some? <==> exists k :: k in objects && objects[k].KeyOf() == key)
      ensures r.Ok? && r.value.Some? ==> r.value.value in objects.Values && r.value.value.KeyOf() == key
    {
      if synced then Ok(V.Lookup(objects, key)) else Err(V.NotSynced)
    }

    function KeyForUid(uid: string): (r: Option<Key>)
      requires Valid()
      reads this
      ensures r.Some? ==> synced && r.value in objects && r.value.uid == uid
      ensures synced && UidsComplete(uids, objects) ==> (r.Some? <==> exists k :: k in objects && k.uid == uid)
    {
      if synced && uid in uids then Some(uids[uid]) else None
    }

    /** The objects filed under an index: exactly those whose computed index set contains it. */
    function Select(i: Index): (r: Result<set<Item>, V.Error>)
      requires Valid()
      reads this
      ensures r.Ok? <==> synced
      ensures r.Ok? ==> r.value == set k | k in objects && i in objects[k].routes :: objects[k]
    {
      if !synced then Err(V.NotSynced)
      else
        assert Bucket(indexes, i) == V.Selected(objects, i);
        Ok(set k | k in Bucket(indexes, i) && k in objects :: objects[k])
    }
  }
}
