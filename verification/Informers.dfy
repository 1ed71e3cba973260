/** The glue between the reflector's changes, successful writes, and the store of one feed. */
module Informers {
  import opened Objects
  import opened Semantics
  import opened Wrappers
  import V = View
  import Informer

  /** What the reflector reports. */
  datatype Change =
    | Snapshot(list: V.Listing, started: nat)
    | Connected
    | Applied(event: V.Event, semantic: bool := true)   // differs from what the loop last observed
    | Lost

  /** A rejected observation leaves the store unsynchronized and asks for a recovery LIST. */
  ghost function Received(v: V.View, change: Change, now: nat): V.View {
    match change
    case Snapshot(list, started) =>
      var w := V.ResetStartedAt(v, list, started, now);
      if V.Acceptable(list) then w else V.Unavailable(w)
    case Applied(event, _) =>
      var w := V.Apply(v, event, now);
      if V.ApplyOutcome(v, event).Failed? then V.Unavailable(w) else w
    case Lost => V.Unavailable(v)
    case Connected => V.Resumed(v)
  }

  predicate Accepts(v: V.View, change: Change) {
    match change
    case Snapshot(list, started) => V.Acceptable(list)
    case Applied(event, _) => !V.ApplyOutcome(v, event).Failed?
    case _ => true
  }

  /** A write response that cannot be recorded leaves the store unsynchronized. */
  ghost function Responded(v: V.View, o: Item, started: nat, now: nat): V.View {
    var w := V.Acknowledge(v, o, started, now);
    if V.AcknowledgeOutcome(v, o, started).Failed? then V.Unavailable(w) else w
  }

  // ---------------------------------------------------------------- what subscribers are told

  predicate Means(a: Item, b: Item) { Semantic(a.document) == Semantic(b.document) }

  /** A delta that is more than bookkeeping. */
  predicate Matters(d: V.Delta) { d.gone.None? || d.come.None? || !Means(d.gone.value, d.come.value) }

  function Mattering(changes: seq<V.Delta>): (told: seq<V.Delta>)
    ensures forall d :: d in told <==> d in changes && Matters(d)
  {
    if changes == [] then []
    else Mattering(changes[..|changes| - 1]) + (if Matters(changes[|changes| - 1]) then [changes[|changes| - 1]] else [])
  }

  /** What the subscribers are called with, if they are: the changes, and whether to look at everything again. */
  datatype Notice = Quiet | Notice(changes: seq<V.Delta>, reset: bool)

  /** `notify`: a bookmark or a revision-only echo calls nobody. */
  function Notify(changes: seq<V.Delta>, reset: bool): (notice: Notice)
    ensures notice.Notice? <==> reset || exists d :: d in changes && Matters(d)
    ensures notice.Notice? ==> notice.reset == reset && forall d :: d in notice.changes <==> d in changes && Matters(d)
  {
    var told := Mattering(changes);
    assert told != [] ==> told[0] in told;
    if told == [] && !reset then Quiet else Notice(told, reset)
  }

  function ChangesOf(notice: Notice): seq<V.Delta> { if notice.Quiet? then [] else notice.changes }

  /** A subscriber's copy after it was called, or not. */
  function Hear(copy: map<Key, Item>, notice: Notice): map<Key, Item> { V.ReplayAll(copy, ChangesOf(notice)) }

  predicate AlikeAt(a: Option<Item>, b: Option<Item>) { (a.Some? <==> b.Some?) && (a.Some? ==> Means(a.value, b.value)) }

  /** The same objects up to bookkeeping. */
  ghost predicate Alike(a: map<Key, Item>, b: map<Key, Item>) { forall k :: AlikeAt(V.Lookup(a, k), V.Lookup(b, k)) }

  /** Every index whose selection changed is named by a change. */
  ghost predicate Wakes(changes: seq<V.Delta>, before: map<Key, Item>, after: map<Key, Item>) {
    forall i | V.Selected(before, i) != V.Selected(after, i) :: exists d :: d in changes && i in d.affected
  }

  /** Copies that were up to date stay so, and whatever reads a changed index is woken. */
  ghost predicate Follows(notice: Notice, before: map<Key, Item>, after: map<Key, Item>) {
    && (forall copy | Alike(copy, before) :: Alike(Hear(copy, notice), after))
    && Wakes(ChangesOf(notice), before, after)
  }

  /** Alike objects are filed alike. */
  lemma AlikeSelects(a: map<Key, Item>, b: map<Key, Item>, i: Index)
    requires Described(a) && Described(b) && Alike(a, b)
    ensures V.Selected(a, i) == V.Selected(b, i)
  {
    hide IsDescribed, Means;
    forall k ensures k in V.Selected(a, i) <==> k in V.Selected(b, i) {
      assert AlikeAt(V.Lookup(a, k), V.Lookup(b, k));
      if k in a && k in b {
        MeansSame(a[k], b[k]);
      }
    }
  }

  lemma MeansSame(a: Item, b: Item)
    requires IsDescribed(a) && IsDescribed(b) && Means(a, b)
    ensures a.KeyOf() == b.KeyOf() && a.routes == b.routes
  {
    SameMeaning(a.document, b.document);
  }

  /** Saying nothing is right exactly if nothing but bookkeeping changed. */
  lemma QuietFollows(before: map<Key, Item>, after: map<Key, Item>)
    requires Described(before) && Described(after)
    ensures Follows(Quiet, before, after) <==> Alike(before, after)
  {
    hide Described;
    assert Alike(before, before);
    assert Hear(before, Quiet) == before;
    if Alike(before, after) {
      forall copy | Alike(copy, before) ensures Alike(Hear(copy, Quiet), after) {
        AlikeTwice(copy, before, after);
      }
      forall i ensures V.Selected(before, i) == V.Selected(after, i) {
        AlikeSelects(before, after, i);
      }
    }
  }

  lemma AlikeTwice(a: map<Key, Item>, b: map<Key, Item>, c: map<Key, Item>)
    requires Alike(a, b) && Alike(b, c)
    ensures Alike(a, c)
  {
    forall k ensures AlikeAt(V.Lookup(a, k), V.Lookup(c, k)) {
      assert AlikeAt(V.Lookup(a, k), V.Lookup(b, k)) && AlikeAt(V.Lookup(b, k), V.Lookup(c, k));
    }
  }

  // ---------------------------------------------------------------- one change

  lemma ReplayedOne(copy: map<Key, Item>, d: V.Delta)
    ensures V.ReplayAll(copy, [d]) == V.Replay(copy, d)
  {
    assert [d][..0] == [];
    assert V.ReplayAll(copy, []) == copy;
  }

  lemma OneSided(d: V.Delta, before: map<Key, Item>, after: map<Key, Item>)
    requires V.Explains(d, before, after) && (d.gone.None? || d.come.None?)
    ensures !Alike(before, after)
  {
    var k := if d.gone.Some? then d.gone.value.KeyOf() else d.come.value.KeyOf();
    assert !AlikeAt(V.Lookup(before, k), V.Lookup(after, k));
  }

  lemma TwoSided(d: V.Delta, before: map<Key, Item>, after: map<Key, Item>)
    requires V.Explains(d, before, after) && d.gone.Some? && d.come.Some?
    ensures Alike(before, after) <==> d.gone.value.KeyOf() == d.come.value.KeyOf() && Means(d.gone.value, d.come.value)
  {
    hide Means;
    var j, k := d.gone.value.KeyOf(), d.come.value.KeyOf();
    assert V.Lookup(before, j) == d.gone && V.Lookup(after, k) == d.come;
    if j != k {
      assert !AlikeAt(V.Lookup(before, j), V.Lookup(after, j));
    } else {
      forall l | l != j ensures AlikeAt(V.Lookup(before, l), V.Lookup(after, l)) {
        assert V.Lookup(before, l) == V.Lookup(after, l);
        AlikeItself(V.Lookup(before, l));
      }
      assert AlikeAt(V.Lookup(before, j), V.Lookup(after, j)) <==> Means(d.gone.value, d.come.value);
    }
  }

  lemma AlikeItself(o: Option<Item>)
    ensures AlikeAt(o, o)
  {
  }

  /** A change between described objects matters exactly if they are no longer alike. */
  lemma MattersIff(d: V.Delta, before: map<Key, Item>, after: map<Key, Item>)
    requires V.Explains(d, before, after) && Described(before) && Described(after)
    ensures Matters(d) <==> !Alike(before, after)
  {
    hide Means, IsDescribed, Alike;
    if d.gone.None? || d.come.None? {
      OneSided(d, before, after);
    } else {
      TwoSided(d, before, after);
      assert before[d.gone.value.KeyOf()] == d.gone.value && after[d.come.value.KeyOf()] == d.come.value;
      if Means(d.gone.value, d.come.value) {
        MeansSame(d.gone.value, d.come.value);
      }
    }
  }

  lemma HeardOne(d: V.Delta, before: map<Key, Item>, after: map<Key, Item>, copy: map<Key, Item>)
    requires V.Explains(d, before, after) && Alike(copy, before)
    ensures Alike(V.Replay(copy, d), after)
  {
    hide Means;
    forall k ensures AlikeAt(V.Lookup(V.Replay(copy, d), k), V.Lookup(after, k)) {
      assert AlikeAt(V.Lookup(copy, k), V.Lookup(before, k));
      if d.come.Some? && k == d.come.value.KeyOf() {
        AlikeItself(d.come);
      }
    }
  }

  lemma NotifyOne(d: V.Delta)
    ensures Notify([d], false) == if Matters(d) then Notice([d], false) else Quiet
  {
    hide Matters;
    assert [d][..0] == [] && Mattering([]) == [];
    assert Mattering([d]) == Mattering([]) + (if Matters(d) then [d] else []);
  }

  lemma ToldFollows(d: V.Delta, before: map<Key, Item>, after: map<Key, Item>)
    requires V.Explains(d, before, after)
    ensures Follows(Notice([d], false), before, after)
  {
    hide Alike, V.Explains;
    forall copy | Alike(copy, before) ensures Alike(Hear(copy, Notice([d], false)), after) {
      ReplayedOne(copy, d);
      HeardOne(d, before, after, copy);
    }
    forall i | V.Selected(before, i) != V.Selected(after, i) ensures exists c :: c in [d] && i in c.affected {
      if i !in d.affected {
        V.DeltaWakes(d, before, after, i);
      }
      assert d in [d];
    }
  }

  /** One recorded change, told if it matters. */
  lemma OneFollows(d: V.Delta, before: map<Key, Item>, after: map<Key, Item>)
    requires V.Explains(d, before, after) && Described(before) && Described(after)
    ensures Follows(Notify([d], false), before, after)
    ensures Notify([d], false).Notice? <==> !Alike(before, after)
  {
    hide Alike, V.Explains, Described, Matters, Follows, Notify;
    MattersIff(d, before, after);
    NotifyOne(d);
    if Matters(d) {
      ToldFollows(d, before, after);
    } else {
      QuietFollows(before, after);
    }
  }

  // ---------------------------------------------------------------- a batch of changes

  /** What a key holds after a replay of final changes: its own, if it is among them. */
  lemma {:induction false} ReplayedAt(copy: map<Key, Item>, ds: seq<V.Delta>, before: map<Key, Item>, after: map<Key, Item>, k: Key)
    requires V.Keyed(before) && V.Keyed(after) && forall d | d in ds :: exists j :: V.IsChange(before, after, j, d)
    ensures V.Lookup(V.ReplayAll(copy, ds), k) ==
            if exists d :: d in ds && V.IsChange(before, after, k, d) then V.Lookup(after, k) else V.Lookup(copy, k)
  {
    if ds != [] {
      var front, d := ds[..|ds| - 1], ds[|ds| - 1];
      assert forall c :: c in ds <==> c in front || c == d;
      ReplayedAt(copy, front, before, after, k);
      assert d in ds;
      var j :| V.IsChange(before, after, j, d);
      ReplayedLast(V.ReplayAll(copy, front), before, after, j, d, k);
      OneChangePerKey(before, after, j, k, d);
      hide V.IsChange, V.Lookup, V.Keyed;
    }
  }

  lemma ReplayedLast(m: map<Key, Item>, before: map<Key, Item>, after: map<Key, Item>, j: Key, d: V.Delta, k: Key)
    requires V.Keyed(before) && V.Keyed(after) && V.IsChange(before, after, j, d)
    ensures V.Lookup(V.Replay(m, d), k) == if k == j then V.Lookup(after, j) else V.Lookup(m, k)
  {
  }

  lemma OneChangePerKey(before: map<Key, Item>, after: map<Key, Item>, j: Key, k: Key, d: V.Delta)
    requires V.Keyed(before) && V.Keyed(after) && V.IsChange(before, after, j, d)
    ensures V.IsChange(before, after, k, d) <==> j == k
  {
  }

  /** The changes of a snapshot, told where they matter, bring every copy up to date. */
  lemma HeardMany(ds: seq<V.Delta>, before: map<Key, Item>, after: map<Key, Item>, copy: map<Key, Item>)
    requires V.Keyed(before) && V.Keyed(after) && V.Covered(before, after, before.Keys + after.Keys, ds) && Alike(copy, before)
    ensures Alike(V.ReplayAll(copy, Mattering(ds)), after)
  {
    var told := Mattering(ds);
    forall d | d in told ensures exists j :: V.IsChange(before, after, j, d) {
      assert d in ds;
    }
    forall k ensures AlikeAt(V.Lookup(V.ReplayAll(copy, told), k), V.Lookup(after, k)) {
      ReplayedAt(copy, told, before, after, k);
      UntoldIsAlike(ds, before, after, k);
      assert AlikeAt(V.Lookup(copy, k), V.Lookup(before, k));
      AlikeItself(V.Lookup(after, k));
      hide V.IsChange, V.Covered, Mattering, V.Keyed, V.ReplayAll;
    }
  }

  /** A key none of whose changes is told is alike before and after. */
  lemma UntoldIsAlike(ds: seq<V.Delta>, before: map<Key, Item>, after: map<Key, Item>, k: Key)
    requires V.Covered(before, after, before.Keys + after.Keys, ds)
    ensures (exists d :: d in Mattering(ds) && V.IsChange(before, after, k, d)) || AlikeAt(V.Lookup(before, k), V.Lookup(after, k))
  {
    hide Means;
    if V.Lookup(before, k) != V.Lookup(after, k) {
      var d := V.DeltaOf(V.Lookup(before, k), V.Lookup(after, k));
      assert d in ds && V.IsChange(before, after, k, d);
    } else {
      AlikeItself(V.Lookup(before, k));
    }
  }

  lemma ManyWake(ds: seq<V.Delta>, before: map<Key, Item>, after: map<Key, Item>, i: Index)
    requires Described(before) && Described(after) && V.Covered(before, after, before.Keys + after.Keys, ds)
    requires V.Selected(before, i) != V.Selected(after, i)
    ensures exists d :: d in Mattering(ds) && i in d.affected
  {
    var k :| (k in V.Selected(before, i)) != (k in V.Selected(after, i));
    UntoldIsAlike(ds, before, after, k);
    hide Mattering, Means, IsDescribed;
    if k in before && k in after && Means(before[k], after[k]) {
      MeansSame(before[k], after[k]);
    }
    var d :| d in Mattering(ds) && V.IsChange(before, after, k, d);
    assert i in d.affected;
  }

  lemma ManyFollow(ds: seq<V.Delta>, before: map<Key, Item>, after: map<Key, Item>)
    requires V.Keyed(before) && V.Keyed(after) && Described(before) && Described(after)
    requires V.Covered(before, after, before.Keys + after.Keys, ds)
    ensures Follows(Notify(ds, true), before, after)
  {
    hide Alike, Described, V.Covered, V.Keyed, Mattering;
    forall copy | Alike(copy, before) ensures Alike(Hear(copy, Notify(ds, true)), after) {
      HeardMany(ds, before, after, copy);
    }
    forall i | V.Selected(before, i) != V.Selected(after, i) ensures exists d :: d in Mattering(ds) && i in d.affected {
      ManyWake(ds, before, after, i);
    }
  }

  /** Whether subscribers are called: for a snapshot, a recovery, and an event that changed more than bookkeeping. */
  ghost predicate Calls(v: V.View, change: Change, w: V.View) {
    match change
    case Snapshot(list, _) => V.Acceptable(list)
    case Connected => !v.synced
    case Applied(_, semantic) => semantic && !Alike(v.objects, w.objects)
    case Lost => false
  }

  /** Subscribers are called when they should be, and stay up to date unless told of nothing while something changed. */
  ghost predicate Informs(notice: Notice, v: V.View, change: Change, w: V.View) {
    && (notice.Notice? <==> Calls(v, change, w))
    && (Follows(notice, v.objects, w.objects) <==> (change.Applied? && !change.semantic ==> Alike(v.objects, w.objects)))
  }

  ghost predicate InformsOfWrite(notice: Notice, before: map<Key, Item>, after: map<Key, Item>) {
    (notice.Notice? <==> !Alike(before, after)) && Follows(notice, before, after)
  }

  class Feed {
    const store: Informer.Store

    constructor ()
      ensures fresh(store) && store.Valid() && store.AsView() == V.EMPTY
    {
      store := new Informer.Store();
    }

    /**
     * False when the observation could not be applied: the reflector then relists. Subscribers are called,
     * and stay up to date, unless the loop takes an event for bookkeeping that changed more in the store.
     */
    method Receive(change: Change, now: nat) returns (accepted: bool, notice: Notice)
      requires store.Valid()
      modifies store
      ensures store.Valid()
      ensures store.AsView() == Received(old(store.AsView()), change, now)
      ensures accepted == Accepts(old(store.AsView()), change)
      ensures notice.Notice? ==> (notice.reset <==> !change.Applied?) && forall d | d in notice.changes :: Matters(d)
      ensures Described(old(store.objects)) && Described(store.objects) ==>
        Informs(notice, old(store.AsView()), change, store.AsView())
    {
      hide Alike, Described, Follows, Matters;
      QuietIsRight(store.objects);
      match change
      case Snapshot(list, started) =>
        var r := store.ResetStartedAt(list, started, now);
        if r.Err? {
          store.Unavailable();
          return false, Quiet;
        }
        if Described(old(store.objects)) && Described(store.objects) {
          ManyFollow(r.value, old(store.objects), store.objects);
        }
        return true, Notify(r.value, true);
      case Applied(event, semantic) =>
        var r := store.Apply(event, now);
        EventFollows(r, semantic, old(store.objects), store.objects);
        if r.Err? {
          store.Unavailable();
          return false, Quiet;
        }
        return true, Notify(if semantic && r.value.Some? then [r.value.value] else [], false);
      case Lost =>
        store.Unavailable();
        return true, Quiet;
      case Connected =>
        var recovering := !store.synced;
        store.Resumed();
        return true, if recovering then Notify([], true) else Quiet;
    }

    /** `Hub::acknowledge` for this feed: subscribers hear of a recorded write; `relist` is the reflector's notification. */
    method Acknowledge(o: Item, started: nat, now: nat) returns (relist: bool, notice: Notice)
      requires store.Valid()
      modifies store
      ensures store.Valid()
      ensures store.AsView() == Responded(old(store.AsView()), o, started, now)
      ensures relist == V.AcknowledgeOutcome(old(store.AsView()), o, started).Failed?
      ensures notice.Notice? ==> !notice.reset && |notice.changes| == 1 && Matters(notice.changes[0])
      ensures Described(old(store.objects)) && Described(store.objects) ==>
        InformsOfWrite(notice, old(store.objects), store.objects)
    {
      hide Alike, Described, Follows, Matters;
      QuietIsRight(store.objects);
      var r := store.AcknowledgeSince(o, started, now);
      EventFollows(r, true, old(store.objects), store.objects);
      if r.Err? {
        store.Unavailable();
        return true, Quiet;
      }
      if r.value.None? {
        return false, Quiet;
      }
      NotifyOne(r.value.value);
      return false, Notify([r.value.value], false);
    }
  }

  lemma QuietIsRight(objects: map<Key, Item>)
    ensures Alike(objects, objects)
    ensures Described(objects) ==> Follows(Quiet, objects, objects) && Follows(Notify([], true), objects, objects)
  {
    if Described(objects) {
      QuietFollows(objects, objects);
      assert Notify([], true) == Notice([], true);
    }
  }

  /** What one event or response leads to. */
  lemma EventFollows(r: Result<Option<V.Delta>, V.Error>, semantic: bool, before: map<Key, Item>, after: map<Key, Item>)
    requires if r.Ok? && r.value.Some? then V.Explains(r.value.value, before, after) else after == before
    ensures var notice := if r.Err? then Quiet else Notify(if semantic && r.value.Some? then [r.value.value] else [], false);
            Described(before) && Described(after) ==>
              && (notice.Notice? <==> semantic && !Alike(before, after))
              && (Follows(notice, before, after) <==> (semantic || Alike(before, after)))
  {
    hide Follows, Matters, V.Explains;
    assert Notify([], false) == Quiet;
    assert Alike(before, before);
    hide Alike;
    if Described(before) && Described(after) {
      QuietFollows(before, after);
      if r.Ok? && r.value.Some? {
        OneFollows(r.value.value, before, after);
      }
    }
  }
}
