/**
 * The informer store as a value: what its operations mean, without the name, uid and index
 * maps that make the real store fast. The class in `Informer` is proved to compute this.
 */
module View {
  import opened Objects
  import opened Wrappers

  /** How many observations are remembered. */
  const HISTORY := 4096

  /** An observed write: which object, at which revision. Revisions are opaque. */
  datatype Stamp = Stamp(uid: string, revision: string)

  datatype View = View(
    synced: bool,
    initialized: bool,
    objects: map<Key, Item>,
    overlays: map<Key, Item>,       // acknowledged writes whose watch event is still to come
    ackedAt: map<Key, nat>,
    seen: seq<Stamp>,
    evictedAt: Option<nat>)

  const EMPTY := View(false, false, map[], map[], map[], [], None)

  datatype Error = NoKey | NoRevision | NotAList | HistoryExpired | UnknownEvent | NotSynced

  datatype Kind = Added | Modified | Deleted | Bookmark | Unknown
  datatype Event = Event(kind: Kind, item: Item)
  datatype Listing = Malformed | Items(items: seq<Item>)

  /** What a write or an observation did. */
  datatype Outcome = Changed | Nothing | Failed(error: Error)

  // ---------------------------------------------------------------- objects by name

  function WithoutName<T>(m: map<Key, T>, name: (string, string)): map<Key, T> {
    m - (set k | k in m && k.NameKey() == name)
  }

  /** Without the other keys of the same name. */
  function WithoutRivals<T>(m: map<Key, T>, key: Key): map<Key, T> {
    m - (set k | k in m && k.NameKey() == key.NameKey() && k != key)
  }

  /** At most one object per name: a new uid replaces the old one. */
  function PutItem(m: map<Key, Item>, o: Item): map<Key, Item> {
    WithoutName(m, o.KeyOf().NameKey())[o.KeyOf() := o]
  }

  ghost predicate NameIn(m: map<Key, Item>, name: (string, string)) {
    exists k :: k in m && k.NameKey() == name
  }

  /** `base` with every name that `over` holds taken from `over`. */
  ghost function Override(base: map<Key, Item>, over: map<Key, Item>): map<Key, Item> {
    (base - (set k | k in base && NameIn(over, k.NameKey()))) + over
  }

  ghost predicate UniqueNames(m: map<Key, Item>) {
    forall j, k | j in m && k in m && j.NameKey() == k.NameKey() :: j == k
  }

  ghost predicate Keyed(m: map<Key, Item>) {
    forall k | k in m :: m[k].HasKey() && m[k].KeyOf() == k
  }

  /** No live object of another name has the uid of `o`. */
  ghost predicate UidIsFree(objects: map<Key, Item>, o: Item) {
    forall k | k in objects && k.uid == o.uid :: k.NameKey() == o.KeyOf().NameKey()
  }

  ghost predicate Unshared(items: seq<Item>) {
    forall a, b | a in items && b in items && a.uid == b.uid :: a.KeyOf().NameKey() == b.KeyOf().NameKey()
  }

  /** None of the writes shares a uid with an object of another name. */
  ghost predicate UnsharedOver(base: map<Key, Item>, writes: map<Key, Item>) {
    && (forall j, k | j in base && k in writes && j.uid == k.uid :: j.NameKey() == k.NameKey())
    && (forall j, k | j in writes && k in writes && j.uid == k.uid :: j.NameKey() == k.NameKey())
  }

  // ---------------------------------------------------------------- operations

  /** The most recent observations. */
  function Recent(seen: seq<Stamp>): seq<Stamp> {
    if |seen| > HISTORY then seen[|seen| - HISTORY..] else seen
  }

  function LastEviction(seen: seq<Stamp>, at: Option<nat>, now: nat): Option<nat> {
    if |seen| > HISTORY then Some(now) else at
  }

  function Observe(v: View, stamp: Stamp, now: nat): View {
    v.(seen := Recent(v.seen + [stamp]), evictedAt := LastEviction(v.seen + [stamp], v.evictedAt, now))
  }

  /** `put`: the object replaces its name's holder, and a different holder's overlay goes with it. */
  function Put(v: View, o: Item): View {
    var key := o.KeyOf();
    v.(objects := PutItem(v.objects, o),
       overlays := WithoutRivals(v.overlays, key),
       ackedAt := WithoutRivals(v.ackedAt, key))
  }

  function Unavailable(v: View): View { v.(synced := false) }

  function Resumed(v: View): View { v.(synced := v.initialized) }

  predicate AllKeyed(items: seq<Item>) {
    forall o | o in items :: o.HasKey()
  }

  predicate Acceptable(list: Listing) {
    list.Items? && AllKeyed(list.items)
  }

  /** The objects a snapshot holds. */
  function Load(items: seq<Item>): map<Key, Item> {
    if items == [] then map[] else PutItem(Load(items[..|items| - 1]), items[|items| - 1])
  }

  lemma {:induction false} LoadedWasListed(items: seq<Item>, k: Key)
    requires k in Load(items)
    ensures exists o :: o in items && o.KeyOf() == k
  {
    var last := items[|items| - 1];
    if k != last.KeyOf() {
      LoadedWasListed(items[..|items| - 1], k);
    }
  }

  function Stamps(items: seq<Item>): seq<Stamp> {
    if items == [] then []
    else
      var o := items[|items| - 1];
      Stamps(items[..|items| - 1])
      + (if o.revision.Some? then [Stamp(o.uid, o.revision.value)] else [])
  }

  /** Does the snapshot hold exactly the acknowledged revision? */
  predicate Confirms(base: map<Key, Item>, key: Key, overlay: Item) {
    key in base && base[key].revision == overlay.revision
  }

  function Unconfirmed(writes: map<Key, Item>, base: map<Key, Item>): set<Key> {
    set k | k in writes && !Confirms(base, k, writes[k])
  }

  function Restrict<T>(m: map<Key, T>, keys: set<Key>): map<Key, T> {
    m - (m.Keys - keys)
  }

  /** A complete snapshot replaces the view; unconfirmed writes stay on top of it. */
  ghost function Reset(v: View, list: Listing, now: nat): View {
    if !Acceptable(list) then v
    else
      var base := Load(list.items);
      var kept := Unconfirmed(v.overlays, base);
      var overlays := Restrict(v.overlays, kept);
      var seen := v.seen + Stamps(list.items);
      View(true, true, Override(base, overlays), overlays,
        Restrict(v.ackedAt, kept), Recent(seen), LastEviction(seen, v.evictedAt, now))
  }

  /** Forget the writes acknowledged before the LIST began: it contains them. */
  function DropBefore(v: View, started: nat): View {
    var kept := RecentWrites(v.overlays, v.ackedAt, started);
    v.(overlays := Restrict(v.overlays, kept), ackedAt := Restrict(v.ackedAt, kept))
  }

  function RecentWrites(overlays: map<Key, Item>, ackedAt: map<Key, nat>, started: nat): set<Key> {
    set k | k in overlays && k in ackedAt && ackedAt[k] >= started
  }

  ghost function ResetStartedAt(v: View, list: Listing, started: nat, now: nat): View {
    if Acceptable(list) then Reset(DropBefore(v, started), list, now) else v
  }

  ghost function ResetAfterWrites(v: View, list: Listing, now: nat): View {
    if Acceptable(list) then Reset(v.(overlays := map[], ackedAt := map[]), list, now) else v
  }

  function ResetOutcome(list: Listing): Outcome {
    if list.Malformed? then Failed(NotAList)
    else if !AllKeyed(list.items) then Failed(NoKey)
    else Changed
  }

  /** Why, or whether, a write response is recorded. */
  function AcknowledgeOutcome(v: View, o: Item, started: nat): Outcome {
    if !o.HasKey() then Failed(NoKey)
    else if o.revision.None? then Failed(NoRevision)
    else if Stamp(o.uid, o.revision.value) in v.seen then Nothing
    else if v.evictedAt.Some? && v.evictedAt.value >= started then Failed(HistoryExpired)
    else Changed
  }

  /** A write response: visible at once, unless the watch is known to have passed it. */
  function Acknowledge(v: View, o: Item, started: nat, now: nat): View {
    match AcknowledgeOutcome(v, o, started)
    case Changed =>
      var w := Put(v, o);
      w.(overlays := w.overlays[o.KeyOf() := o], ackedAt := w.ackedAt[o.KeyOf() := now])
    case Failed(HistoryExpired) => v.(synced := false, initialized := false)
    case _ => v
  }

  /** An event about an object whose acknowledged write it is not is not applied. */
  predicate Overlaid(v: View, o: Item) {
    o.KeyOf() in v.overlays && v.overlays[o.KeyOf()].revision != o.revision
  }

  function Apply(v: View, e: Event, now: nat): View {
    if e.kind.Bookmark? || !e.item.HasKey() || e.item.revision.None? then v
    else
      var key := e.item.KeyOf();
      var w := Observe(v, Stamp(key.uid, e.item.revision.value), now);
      if Overlaid(v, e.item) then w
      else
        Effect(w.(overlays := w.overlays - {key}, ackedAt := w.ackedAt - {key}), e)
  }

  /** What an event does to a view that has no overlay for its object. */
  function Effect(v: View, e: Event): View {
    match e.kind
    case Added => Put(v, e.item)
    case Modified => Put(v, e.item)
    case Deleted => v.(objects := v.objects - {e.item.KeyOf()})
    case _ => v
  }

  function ApplyOutcome(v: View, e: Event): Outcome {
    if e.kind.Bookmark? then Nothing
    else if !e.item.HasKey() then Failed(NoKey)
    else if e.item.revision.None? then Failed(NoRevision)
    else if Overlaid(v, e.item) then Nothing
    else if e.kind.Unknown? then Failed(UnknownEvent)
    else if e.kind.Deleted? && e.item.KeyOf() !in v.objects then Nothing
    else Changed
  }

  // ---------------------------------------------------------------- deltas

  datatype Delta = Delta(gone: Option<Item>, come: Option<Item>, affected: set<Index>)

  function RoutesOf(o: Option<Item>): set<Index> {
    if o.Some? then o.value.routes else {}
  }

  /** Both sides' indexes: moving an object must wake its previous dependents. */
  function DeltaOf(gone: Option<Item>, come: Option<Item>): Delta {
    Delta(gone, come, RoutesOf(gone) + RoutesOf(come))
  }

  /** What a subscriber that mirrors the map does with a delta. */
  function Replay(m: map<Key, Item>, d: Delta): map<Key, Item> {
    var dropped := if d.gone.Some? then m - {d.gone.value.KeyOf()} else m;
    if d.come.Some? then dropped[d.come.value.KeyOf() := d.come.value] else dropped
  }

  function ReplayAll(m: map<Key, Item>, ds: seq<Delta>): map<Key, Item> {
    if ds == [] then m else Replay(ReplayAll(m, ds[..|ds| - 1]), ds[|ds| - 1])
  }

  /** The keys an index selects: the plain filter. */
  function Selected(objects: map<Key, Item>, i: Index): set<Key> {
    set k | k in objects && i in objects[k].routes
  }

  /** A delta has a side, `affected` is the union of its sides, and what it replaces is what the map held. */
  ghost predicate Honest(m: map<Key, Item>, d: Delta) {
    && d == DeltaOf(d.gone, d.come) && (d.gone.Some? || d.come.Some?)
    && (d.gone.Some? ==> d.gone.value.KeyOf() in m && m[d.gone.value.KeyOf()] == d.gone.value)
    && (d.come.Some? && d.come.value.KeyOf() in m ==> d.gone.Some? && d.gone.value.KeyOf() == d.come.value.KeyOf())
  }

  /** One delta that takes `before` to `after`. */
  ghost predicate Explains(d: Delta, before: map<Key, Item>, after: map<Key, Item>) {
    Honest(before, d) && Replay(before, d) == after
  }

  /** An index whose selection one delta changes is among the indexes the delta wakes. */
  lemma DeltaWakes(d: Delta, before: map<Key, Item>, after: map<Key, Item>, i: Index)
    requires Explains(d, before, after)
    requires i !in d.affected
    ensures Selected(before, i) == Selected(after, i)
  {
    forall k ensures k in Selected(before, i) <==> k in Selected(after, i) {
      if d.come.Some? && k == d.come.value.KeyOf() {
      } else if d.gone.Some? && k == d.gone.value.KeyOf() {
      } else {
        assert k in before <==> k in after;
      }
    }
  }

  function Lookup(m: map<Key, Item>, k: Key): Option<Item> {
    if k in m then Some(m[k]) else None
  }

  /** The map half way through a replacement: the keys `done` already read from `after`. */
  function Mixed(before: map<Key, Item>, after: map<Key, Item>, done: set<Key>): map<Key, Item> {
    (before - done) + Restrict(after, done)
  }

  lemma MixedStep(before: map<Key, Item>, after: map<Key, Item>, done: set<Key>, k: Key)
    requires Keyed(before) && Keyed(after) && k !in done
    ensures
      var d := DeltaOf(Lookup(before, k), Lookup(after, k));
      Mixed(before, after, done + {k}) ==
        if d.gone == d.come then Mixed(before, after, done) else Replay(Mixed(before, after, done), d)
  {
    MixedMore(before, after, done, k);
    hide Restrict;
    var mixed := Mixed(before, after, done);
    assert Lookup(mixed, k) == Lookup(before, k);
  }

  lemma MixedMore(before: map<Key, Item>, after: map<Key, Item>, done: set<Key>, k: Key)
    requires k !in done
    ensures Lookup(Mixed(before, after, done), k) == Lookup(before, k)
    ensures Mixed(before, after, done + {k}) == if k in after then Mixed(before, after, done)[k := after[k]] else Mixed(before, after, done) - {k}
  {
  }

  /** The delta of a key at which two maps differ. */
  ghost predicate IsChange(before: map<Key, Item>, after: map<Key, Item>, k: Key, d: Delta) {
    Lookup(before, k) != Lookup(after, k) && d == DeltaOf(Lookup(before, k), Lookup(after, k))
  }

  /** The differences between two maps are the deltas, and there are no others. */
  ghost predicate Covered(before: map<Key, Item>, after: map<Key, Item>, done: set<Key>, ds: seq<Delta>) {
    && (forall d | d in ds :: exists k :: k in done && IsChange(before, after, k, d))
    && forall k | k in done && Lookup(before, k) != Lookup(after, k) ::
         DeltaOf(Lookup(before, k), Lookup(after, k)) in ds
  }

  /** The deltas so far bring the keys in `done` to their new state. */
  ghost predicate Progress(before: map<Key, Item>, after: map<Key, Item>, done: set<Key>, ds: seq<Delta>) {
    && Keyed(before) && Keyed(after)
    && ReplayAll(before, ds) == Mixed(before, after, done)
    && Covered(before, after, done, ds)
  }

  lemma ProgressStarts(before: map<Key, Item>, after: map<Key, Item>)
    requires Keyed(before) && Keyed(after)
    ensures Progress(before, after, {}, [])
  {
    assert Mixed(before, after, {}) == before;
  }

  lemma ProgressStep(before: map<Key, Item>, after: map<Key, Item>, done: set<Key>, ds: seq<Delta>, k: Key)
    requires Progress(before, after, done, ds) && k !in done
    ensures
      var d := DeltaOf(Lookup(before, k), Lookup(after, k));
      Progress(before, after, done + {k}, if d.gone == d.come then ds else ds + [d])
  {
    var d := DeltaOf(Lookup(before, k), Lookup(after, k));
    MixedStep(before, after, done, k);
    assert (ds + [d])[..|ds|] == ds;
    assert d.gone == d.come || IsChange(before, after, k, d);
    hide Mixed, Keyed, Replay, Lookup, DeltaOf, IsChange;
    CoveredStep(before, after, done, ds, k);
  }

  lemma CoveredStep(before: map<Key, Item>, after: map<Key, Item>, done: set<Key>, ds: seq<Delta>, k: Key)
    requires Covered(before, after, done, ds)
    ensures var d := DeltaOf(Lookup(before, k), Lookup(after, k));
            Covered(before, after, done + {k}, if d.gone == d.come then ds else ds + [d])
  {
    var d := DeltaOf(Lookup(before, k), Lookup(after, k));
    var more := if d.gone == d.come then ds else ds + [d];
    assert d.gone != d.come ==> IsChange(before, after, k, d);
    hide IsChange;
    forall c | c in more ensures exists j :: j in done + {k} && IsChange(before, after, j, c) {
      if c in ds {
        var j :| j in done && IsChange(before, after, j, c);
        assert j in done + {k};
      } else {
        assert k in done + {k};
      }
    }
  }

  lemma ProgressEnds(before: map<Key, Item>, after: map<Key, Item>, ds: seq<Delta>)
    requires Progress(before, after, before.Keys + after.Keys, ds)
    ensures ReplayAll(before, ds) == after && Covered(before, after, before.Keys + after.Keys, ds)
  {
    assert Mixed(before, after, before.Keys + after.Keys) == after;
  }

  /** An index whose selection a batch of deltas changes is woken by one of them. */
  lemma BatchWakes(before: map<Key, Item>, after: map<Key, Item>, ds: seq<Delta>, i: Index)
    requires Covered(before, after, before.Keys + after.Keys, ds)
    requires Selected(before, i) != Selected(after, i)
    ensures exists d :: d in ds && i in d.affected
  {
    var k :| (k in Selected(before, i)) != (k in Selected(after, i));
    assert DeltaOf(Lookup(before, k), Lookup(after, k)) in ds;
  }

  // ---------------------------------------------------------------- the invariant

  ghost predicate ObjectsInv(objects: map<Key, Item>) {
    Keyed(objects) && UniqueNames(objects)
  }

  /** Overlay and acknowledgement times cover the same keys, and every overlay is what readers see. */
  ghost predicate OverlaysInv(objects: map<Key, Item>, overlays: map<Key, Item>, ackedAt: map<Key, nat>) {
    && ackedAt.Keys == overlays.Keys
    && forall k | k in overlays :: k in objects && objects[k] == overlays[k] && overlays[k].revision.Some?
  }

  ghost predicate Inv(v: View) {
    && ObjectsInv(v.objects)
    && OverlaysInv(v.objects, v.overlays, v.ackedAt)
    && |v.seen| <= HISTORY
    && (v.synced ==> v.initialized)
  }

  lemma PutItemKeepsInv(m: map<Key, Item>, o: Item)
    requires ObjectsInv(m) && o.HasKey()
    ensures ObjectsInv(PutItem(m, o))
  {
  }

  lemma PutKeepsOverlays(v: View, o: Item)
    requires OverlaysInv(v.objects, v.overlays, v.ackedAt) && o.KeyOf() !in v.overlays
    ensures var w := Put(v, o); OverlaysInv(w.objects, w.overlays, w.ackedAt)
  {
  }

  lemma NamesGrow(over: map<Key, Item>, o: Item, n: (string, string))
    ensures NameIn(over[o.KeyOf() := o], n) <==> NameIn(WithoutRivals(over, o.KeyOf()), n) || n == o.KeyOf().NameKey()
  {
    var grown := over[o.KeyOf() := o];
    if k :| k in WithoutRivals(over, o.KeyOf()) && k.NameKey() == n {
      assert k in grown;
    }
    assert o.KeyOf() in grown;
    if k :| k in grown && k.NameKey() == n && n != o.KeyOf().NameKey() {
      assert k in WithoutRivals(over, o.KeyOf());
    }
  }

  /** Putting an object on top of an override extends what overrides. */
  lemma PutOverrides(base: map<Key, Item>, over: map<Key, Item>, o: Item)
    requires !NameIn(over, o.KeyOf().NameKey())
    ensures WithoutRivals(over, o.KeyOf()) == over
    ensures PutItem(Override(base, over), o) == Override(base, over[o.KeyOf() := o])
  {
    assert WithoutRivals(over, o.KeyOf()) == over;
    forall k | k in base
      ensures NameIn(over[o.KeyOf() := o], k.NameKey()) <==> NameIn(over, k.NameKey()) || k.NameKey() == o.KeyOf().NameKey()
    {
      NamesGrow(over, o, k.NameKey());
    }
  }

  /** One more of the kept writes goes on top; a confirmed one changes nothing. */
  lemma ReapplyStep(base: map<Key, Item>, writes: map<Key, Item>, left: set<Key>, k: Key)
    requires ObjectsInv(writes) && k in left && k in writes
    ensures
      var kept := Unconfirmed(writes, base);
      var over := Restrict(writes, kept - left);
      && !NameIn(over, k.NameKey())
      && (Confirms(Override(base, over), k, writes[k]) <==> k !in kept)
      && Restrict(writes, kept - (left - {k})) == (if k in kept then over[k := writes[k]] else over)
  {
    var kept := Unconfirmed(writes, base);
    if k !in kept {
      assert kept - (left - {k}) == kept - left;
    }
  }

  lemma OverrideKeepsInv(base: map<Key, Item>, over: map<Key, Item>)
    requires ObjectsInv(base) && ObjectsInv(over)
    ensures ObjectsInv(Override(base, over))
  {
  }

  lemma {:induction false} LoadKeepsInv(items: seq<Item>)
    requires AllKeyed(items)
    ensures ObjectsInv(Load(items))
  {
    if items != [] {
      LoadKeepsInv(items[..|items| - 1]);
      PutItemKeepsInv(Load(items[..|items| - 1]), items[|items| - 1]);
    }
  }

  lemma ResetKeepsInv(v: View, list: Listing, now: nat)
    requires Inv(v)
    ensures Inv(Reset(v, list, now))
  {
    if Acceptable(list) {
      var base := Load(list.items);
      LoadKeepsInv(list.items);
      var overlays := Restrict(v.overlays, Unconfirmed(v.overlays, base));
      OverrideKeepsInv(base, overlays);
    }
  }

  lemma OverlaysAreLive(v: View)
    requires Inv(v)
    ensures v.ackedAt.Keys == v.overlays.Keys && v.overlays.Keys <= v.objects.Keys
  {
  }

  lemma OverlaysAreKeyed(v: View)
    requires Inv(v)
    ensures ObjectsInv(v.overlays) && v.ackedAt.Keys == v.overlays.Keys
  {
  }

  /** What a rebuilt store must hold to be the reset view. */
  lemma RebuiltIsReset(v: View, items: seq<Item>, now: nat, rebuilt: View)
    requires AllKeyed(items) && v.ackedAt.Keys == v.overlays.Keys
    requires rebuilt.overlays == Restrict(v.overlays, Unconfirmed(v.overlays, Load(items)))
    requires rebuilt.objects == Override(Load(items), rebuilt.overlays)
    requires rebuilt.ackedAt.Keys == rebuilt.overlays.Keys
    requires forall k | k in rebuilt.ackedAt :: rebuilt.ackedAt[k] == v.ackedAt[k]
    requires rebuilt.seen == Recent(v.seen + Stamps(items))
    requires rebuilt.evictedAt == LastEviction(v.seen + Stamps(items), v.evictedAt, now)
    ensures rebuilt.(synced := true, initialized := true) == Reset(v, Items(items), now)
  {
    assert rebuilt.ackedAt == Restrict(v.ackedAt, Unconfirmed(v.overlays, Load(items)));
  }

  lemma DropBeforeKeepsInv(v: View, started: nat)
    requires Inv(v)
    ensures Inv(DropBefore(v, started))
  {
  }

  lemma AcknowledgeKeepsOverlays(v: View, o: Item, now: nat)
    requires OverlaysInv(v.objects, v.overlays, v.ackedAt) && o.revision.Some?
    ensures
      var w := Put(v, o);
      OverlaysInv(w.objects, w.overlays[o.KeyOf() := o], w.ackedAt[o.KeyOf() := now])
  {
  }

  lemma ClearedKeepsInv(v: View)
    requires Inv(v)
    ensures Inv(v.(overlays := map[], ackedAt := map[]))
  {
  }

  lemma AcknowledgeKeepsInv(v: View, o: Item, started: nat, now: nat)
    requires Inv(v)
    ensures Inv(Acknowledge(v, o, started, now))
  {
    if AcknowledgeOutcome(v, o, started) == Changed {
      PutItemKeepsInv(v.objects, o);
      AcknowledgeKeepsOverlays(v, o, now);
    }
  }

  lemma EffectKeepsInv(v: View, e: Event)
    requires Inv(v) && e.item.HasKey() && e.item.KeyOf() !in v.overlays
    ensures Inv(Effect(v, e))
  {
    hide ObjectsInv, OverlaysInv, PutItem, WithoutRivals;
    PutItemKeepsInv(v.objects, e.item);
    PutKeepsOverlays(v, e.item);
    RemoveKeepsInv(v.objects, v.overlays, v.ackedAt, e.item.KeyOf());
  }

  lemma RemoveKeepsInv(objects: map<Key, Item>, overlays: map<Key, Item>, ackedAt: map<Key, nat>, key: Key)
    requires ObjectsInv(objects) && OverlaysInv(objects, overlays, ackedAt) && key !in overlays
    ensures ObjectsInv(objects - {key}) && OverlaysInv(objects - {key}, overlays, ackedAt)
  {
  }

  lemma ApplyKeepsInv(v: View, e: Event, now: nat)
    requires Inv(v)
    ensures Inv(Apply(v, e, now))
  {
    if !e.kind.Bookmark? && e.item.HasKey() && e.item.revision.Some? && !Overlaid(v, e.item) {
      var key := e.item.KeyOf();
      var w := Observe(v, Stamp(key.uid, e.item.revision.value), now);
      EffectKeepsInv(w.(overlays := w.overlays - {key}, ackedAt := w.ackedAt - {key}), e);
    }
  }

  /** A watch event keeps some of the overlays, and never the one it confirms. */
  lemma ApplyOverlays(v: View, e: Event, now: nat)
    requires ObjectsInv(v.overlays) && e.item.HasKey() && e.item.revision.Some? && !e.kind.Bookmark?
    ensures
      var w := Apply(v, e, now);
      forall k | k in w.overlays ::
        k in v.overlays && w.overlays[k] == v.overlays[k] && v.overlays[k] != e.item
  {
    hide PutItem, Observe;
    var key, w := e.item.KeyOf(), Apply(v, e, now);
    ApplyDrops(v, e, now);
    hide Apply, Effect;
    if Overlaid(v, e.item) {
      assert v.overlays[key] != e.item;
    }
  }

  lemma ApplyDrops(v: View, e: Event, now: nat)
    requires e.item.HasKey() && e.item.revision.Some? && !e.kind.Bookmark?
    ensures var key, w := e.item.KeyOf(), Apply(v, e, now);
            if Overlaid(v, e.item) then w.overlays == v.overlays
            else w.overlays == if e.kind.Added? || e.kind.Modified? then WithoutRivals(v.overlays - {key}, key) else v.overlays - {key}
  {
    hide PutItem, WithoutRivals;
  }
}
