/**
 * The LIST/WATCH loop, the feed it drives and the local writers, against a server with an
 * ordered history. Requests, replies, disconnects and relists are interleaved freely.
 */
module Reflector {
  import opened Objects
  import opened Json
  import opened Wrappers
  import opened View
  import History
  import Informers

  /** One committed change of the collection, and when it was committed. */
  datatype Commit = Commit(deleted: bool, item: Item, at: nat)
  {
    predicate Proper() { item.HasKey() && item.revision.Some? }

    function StampOf(): Stamp
      requires Proper()
    {
      Stamp(item.uid, item.revision.value)
    }
  }

  /** The server's objects after the first `n` changes. */
  function ServerAt(history: seq<Commit>, n: nat): map<Key, Item>
    requires n <= |history|
  {
    if n == 0 then map[] else Follow(ServerAt(history, n - 1), history[n - 1])
  }

  function Follow(m: map<Key, Item>, c: Commit): map<Key, Item> {
    if c.deleted then m - {c.item.KeyOf()} else PutItem(m, c.item)
  }

  /** A LIST in flight: when it was sent, and how far the server was by then. */
  datatype Request = Request(started: nat, floor: nat)

  datatype System = System(
    history: seq<Commit>,
    clock: nat,
    view: View,
    position: Option<nat>,      // how far the watch is; None asks for a LIST
    listing: Option<Request>,
    delivered: nat,             // how much of the history the view reflects
    listed: nat)                // how much of it the LIST in force contained

  const START := System([], 0, EMPTY, None, None, 0, 0)

  datatype Step =
    | Tick(elapsed: nat)
    | Write(deleted: bool, item: Item)                  // any client's write is committed
    | StartList
    | FinishList(n: nat, items: seq<Item>)              // a complete snapshot of the first n changes
    | RejectList(list: Listing)                         // a snapshot the store cannot take
    | Reconnect
    | Deliver(kind: Kind)                               // the next change, as a watch event
    | DeliverBookmark(item: Item)
    | RejectEvent(event: Event)                         // an event the store cannot take
    | LoseConnection                                    // an outage: the position survives
    | LosePosition                                      // 410, a bad frame, an error event, a restart
    | Respond(i: nat, started: nat)                     // a writer reports change i: its reply, or a GET begun later
    | RespondMalformed(item: Item, started: nat)

  predicate KindFits(kind: Kind, deleted: bool) {
    if deleted then kind.Deleted? else kind.Added? || kind.Modified?
  }

  /** When the environment may take the step. */
  ghost predicate Enabled(s: System, step: Step) {
    match step
    case Write(deleted, item) =>
      var c := Commit(deleted, item, s.clock);
      c.Proper() && forall i | 0 <= i < |s.history| && s.history[i].Proper() :: s.history[i].StampOf() != c.StampOf()
    case StartList => s.position.None? && s.listing.None?
    case FinishList(n, items) =>
      s.listing.Some? && s.listing.value.floor <= n <= |s.history| && AllKeyed(items) && Load(items) == ServerAt(s.history, n)
    case RejectList(list) => s.listing.Some? && !Acceptable(list)
    case Reconnect => s.position.Some?
    case Deliver(kind) =>
      s.position.Some? && s.position.value < |s.history| && KindFits(kind, s.history[s.position.value].deleted)
    case DeliverBookmark(_) => s.position.Some?
    case RejectEvent(event) => s.position.Some? && !event.kind.Unknown? && ApplyOutcome(s.view, event).Failed?
    case Respond(i, started) => i < |s.history| && !s.history[i].deleted
    case RespondMalformed(item, started) => !item.HasKey() || item.revision.None?
    case _ => true
  }

  ghost function Next(s: System, step: Step): System
    requires Enabled(s, step)
  {
    match step
    case Tick(elapsed) => s.(clock := s.clock + elapsed)
    case Write(deleted, item) => s.(history := s.history + [Commit(deleted, item, s.clock)])
    case StartList => s.(listing := Some(Request(s.clock, |s.history|)))
    case FinishList(n, items) =>
      s.(view := Informers.Received(s.view, Informers.Snapshot(Items(items), s.listing.value.started), s.clock),
         position := Some(n), listing := None, delivered := n, listed := n)
    case RejectList(list) =>
      s.(view := Informers.Received(s.view, Informers.Snapshot(list, s.listing.value.started), s.clock), listing := None)
    case Reconnect => s.(view := Informers.Received(s.view, Informers.Connected, s.clock))
    case Deliver(kind) =>
      var n := s.position.value;
      s.(view := Informers.Received(s.view, Informers.Applied(Event(kind, s.history[n].item)), s.clock),
         position := Some(n + 1), delivered := n + 1)
    case DeliverBookmark(item) =>
      s.(view := Informers.Received(s.view, Informers.Applied(Event(Bookmark, item)), s.clock))
    case RejectEvent(event) =>
      s.(view := Informers.Received(s.view, Informers.Applied(event), s.clock), position := None)
    case LoseConnection => s.(view := Informers.Received(s.view, Informers.Lost, s.clock))
    case LosePosition => s.(position := None, listing := None)
    case Respond(i, started) => s.(view := Informers.Responded(s.view, s.history[i].item, started, s.clock))
    case RespondMalformed(item, started) => s.(view := Informers.Responded(s.view, item, started, s.clock))
  }

  /** A run: the states passed through, and the step between each two. */
  ghost predicate Behavior(states: seq<System>, steps: seq<Step>) {
    && |states| == |steps| + 1
    && states[0] == START
    && forall i | 0 <= i < |steps| :: Enabled(states[i], steps[i]) && states[i + 1] == Next(states[i], steps[i])
  }

  // ---------------------------------------------------------------- overriding the server

  lemma NamesGrown(over: map<Key, Item>, o: Item)
    ensures var grown := WithoutRivals(over, o.KeyOf())[o.KeyOf() := o];
            forall name :: NameIn(grown, name) <==> NameIn(over, name) || name == o.KeyOf().NameKey()
  {
    var grown := WithoutRivals(over, o.KeyOf())[o.KeyOf() := o];
    assert o.KeyOf() in grown;
    forall j | j in over && j.NameKey() != o.KeyOf().NameKey() ensures j in grown {
    }
  }

  lemma RespondOverrides(base: map<Key, Item>, over: map<Key, Item>, o: Item)
    ensures Override(base, WithoutRivals(over, o.KeyOf())[o.KeyOf() := o]) == PutItem(Override(base, over), o)
  {
    NamesGrown(over, o);
    hide NameIn;
  }

  /** A change to a name that an overlay holds is invisible. */
  lemma OverlaidChange(base: map<Key, Item>, over: map<Key, Item>, c: Commit)
    requires c.item.KeyOf() in over
    ensures Override(Follow(base, c), over) == Override(base, over)
  {
    var key := c.item.KeyOf();
    assert NameIn(over, key.NameKey());
    if c.deleted {
    } else {
      forall k ensures k in Override(Follow(base, c), over) <==> k in Override(base, over) {
      }
    }
  }

  /** A change to a name that no overlay holds any more is visible. */
  lemma VisiblePut(base: map<Key, Item>, over: map<Key, Item>, o: Item)
    ensures Override(PutItem(base, o), WithoutName(over, o.KeyOf().NameKey())) == PutItem(Override(base, over), o)
  {
    NamesLeft(over, o.KeyOf().NameKey());
    hide NameIn;
  }

  lemma NamesLeft(over: map<Key, Item>, gone: (string, string))
    ensures forall name :: NameIn(WithoutName(over, gone), name) <==> NameIn(over, name) && name != gone
  {
    forall j | j in over && j.NameKey() != gone ensures j in WithoutName(over, gone) {
    }
  }

  lemma VisibleDelete(base: map<Key, Item>, over: map<Key, Item>, key: Key)
    requires key !in over
    ensures Override(base - {key}, over) == Override(base, over) - {key}
  {
  }

  // ---------------------------------------------------------------- the invariant

  ghost predicate WellFormed(s: System) {
    && (forall i | 0 <= i < |s.history| :: s.history[i].Proper() && s.history[i].at <= s.clock)
    && (forall i, j | 0 <= i < j < |s.history| :: s.history[i].StampOf() != s.history[j].StampOf())
    && s.listed <= s.delivered <= |s.history|
    && (s.position.Some? ==> s.position.value == s.delivered && s.listing.None?)
    && (s.listing.Some? ==> s.delivered <= s.listing.value.floor <= |s.history|)
  }

  /** The view is the server's state at the last delivered change, overridden by the overlays. */
  ghost predicate Reflects(s: System)
    requires s.delivered <= |s.history|
  {
    Inv(s.view) && s.view.objects == Override(ServerAt(s.history, s.delivered), s.view.overlays)
  }

  /** The overlay of `k` is the write committed as change `j`. */
  ghost predicate Origin(s: System, k: Key, j: nat) {
    k in s.view.overlays && j < |s.history| && !s.history[j].deleted && s.history[j].item == s.view.overlays[k]
  }

  /** Every overlay is some committed write. */
  ghost predicate Committed(s: System) {
    forall k | k in s.view.overlays :: exists j: nat :: Origin(s, k, j)
  }

  predicate Shows(m: map<Key, Item>, o: Item) { o.KeyOf() in m && m[o.KeyOf()] == o }

  /** Change `i` has reached the view: by the watch since the LIST in force, or in that LIST. */
  ghost predicate Seen(s: System, i: nat)
    requires s.listed <= |s.history|
  {
    i < s.delivered && i < |s.history| && (i >= s.listed || Shows(ServerAt(s.history, s.listed), s.history[i].item))
  }

  /** What has reached the view is remembered, or known to be forgotten. */
  ghost predicate Remembers(s: System)
    requires WellFormed(s)
  {
    forall i: nat | Seen(s, i) :: History.Remembered(s.view, s.history[i].StampOf(), s.history[i].at)
  }

  ghost predicate Good(s: System) {
    WellFormed(s) && Reflects(s) && Committed(s) && Remembers(s)
  }

  lemma {:induction false} ServerAtPrefix(h: seq<Commit>, c: Commit, n: nat)
    requires n <= |h|
    ensures ServerAt(h + [c], n) == ServerAt(h, n)
  {
    if n > 0 {
      ServerAtPrefix(h, c, n - 1);
    }
  }

  lemma WriteKeepsGood(s: System, step: Step)
    requires Good(s) && step.Write? && Enabled(s, step)
    ensures Good(Next(s, step))
  {
    var c := Commit(step.deleted, step.item, s.clock);
    ServerAtPrefix(s.history, c, s.delivered);
    ServerAtPrefix(s.history, c, s.listed);
    var t := Next(s, step);
    assert forall i: nat :: Seen(t, i) <==> Seen(s, i);
    forall k | k in t.view.overlays
      ensures exists j: nat :: Origin(t, k, j)
    {
      var j: nat :| Origin(s, k, j);
      assert Origin(t, k, j);
    }
  }

  /** A step that touches neither the objects, the overlays nor the history. */
  ghost predicate OnlyFlags(v: View, w: View) {
    w == v.(synced := w.synced, initialized := w.initialized) && (w.synced ==> w.initialized)
  }

  lemma FlagsKeepGood(s: System, t: System)
    requires Good(s) && OnlyFlags(s.view, t.view)
    requires t == s.(view := t.view, clock := t.clock, position := t.position, listing := t.listing)
    requires t.clock >= s.clock && WellFormed(t)
    ensures Good(t)
  {
    forall k | k in t.view.overlays
      ensures exists j: nat :: Origin(t, k, j)
    {
      var j: nat :| Origin(s, k, j);
      assert Origin(t, k, j);
    }
  }

  /** Only the event of an acknowledged write finds its overlay at its revision; a deletion never does. */
  lemma DeletionIsOverlaid(s: System, n: nat)
    requires WellFormed(s) && Inv(s.view) && Committed(s) && n < |s.history| && s.history[n].deleted
    ensures s.history[n].item.KeyOf() in s.view.overlays ==> Overlaid(s.view, s.history[n].item)
  {
    var key := s.history[n].item.KeyOf();
    if key in s.view.overlays {
      var j: nat :| Origin(s, key, j);
      assert s.view.objects[key].KeyOf() == key;
      hide Committed;
      assert j != n && s.history[j].StampOf() != s.history[n].StampOf();
    }
  }

  /** One watch event, on the objects and overlays only. */
  lemma ApplyReflects(v: View, e: Event, now: nat, base: map<Key, Item>, c: Commit)
    requires c.Proper() && e.item == c.item && KindFits(e.kind, c.deleted)
    requires v.objects == Override(base, v.overlays)
    requires c.deleted && !Overlaid(v, c.item) ==> c.item.KeyOf() !in v.overlays
    ensures
      var w := Apply(v, e, now);
      w.objects == Override(Follow(base, c), w.overlays)
  {
    var key := c.item.KeyOf();
    if Overlaid(v, c.item) {
      OverlaidChange(base, v.overlays, c);
    } else if c.deleted {
      assert v.overlays - {key} == v.overlays;
      VisibleDelete(base, v.overlays, key);
    } else {
      assert WithoutRivals(v.overlays - {key}, key) == WithoutName(v.overlays, key.NameKey());
      VisiblePut(base, v.overlays, c.item);
    }
  }

  lemma DeliverKeepsCommitted(s: System, t: System)
    requires WellFormed(s) && Committed(s) && s.delivered < |s.history|
    requires t.history == s.history && t.listed == s.listed && t.delivered == s.delivered + 1
    requires forall k | k in t.view.overlays ::
      k in s.view.overlays && t.view.overlays[k] == s.view.overlays[k] && s.view.overlays[k] != s.history[s.delivered].item
    ensures Committed(t)
  {
    forall k | k in t.view.overlays
      ensures exists j: nat :: Origin(t, k, j)
    {
      var j: nat :| Origin(s, k, j);
      assert Origin(t, k, j);
    }
  }

  lemma DeliverKeepsRemembers(s: System, e: Event, t: System)
    requires WellFormed(s) && WellFormed(t) && Inv(s.view) && Remembers(s) && s.delivered < |s.history|
    requires e.item == s.history[s.delivered].item && !e.kind.Bookmark?
    requires t == s.(view := Apply(s.view, e, s.clock), position := t.position, delivered := s.delivered + 1)
    ensures Remembers(t)
  {
    forall i: nat | Seen(t, i) ensures History.Remembered(t.view, t.history[i].StampOf(), t.history[i].at) {
      var timed := History.Timed(History.Deliver(e), s.clock);
      assert History.Step(s.view, timed) == t.view;
      assert i == s.delivered || Seen(s, i);
      hide Seen;
      History.StepRemembers(s.view, timed, s.history[i].StampOf(), s.history[i].at);
    }
  }

  lemma DeliverNext(s: System, step: Step)
    requires WellFormed(s) && step.Deliver? && Enabled(s, step)
    ensures s.delivered < |s.history|
    ensures var n := s.delivered;
            Next(s, step) == s.(view := Apply(s.view, Event(step.kind, s.history[n].item), s.clock),
                                position := Some(n + 1), delivered := n + 1)
  {
    assert s.history[s.delivered].Proper();
  }

  /** One watch event moves the view by one change of the history. */
  lemma DeliverView(s: System, e: Event)
    requires Good(s) && s.delivered < |s.history|
    requires e.item == s.history[s.delivered].item && KindFits(e.kind, s.history[s.delivered].deleted)
    ensures var w := Apply(s.view, e, s.clock);
            Inv(w) && w.objects == Override(ServerAt(s.history, s.delivered + 1), w.overlays)
  {
    var c := s.history[s.delivered];
    if c.deleted {
      DeletionIsOverlaid(s, s.delivered);
    }
    hide Committed, Remembers;
    ApplyReflects(s.view, e, s.clock, ServerAt(s.history, s.delivered), c);
    ApplyKeepsInv(s.view, e, s.clock);
  }

  lemma DeliverKeepsReflects(s: System, step: Step)
    requires Good(s) && step.Deliver? && Enabled(s, step)
    ensures
      var t := Next(s, step);
      && WellFormed(t) && Reflects(t)
      && t.view == Apply(s.view, Event(step.kind, s.history[s.delivered].item), s.clock)
  {
    DeliverNext(s, step);
    assert KindFits(step.kind, s.history[s.delivered].deleted);
    DeliverView(s, Event(step.kind, s.history[s.delivered].item));
    hide Committed, Remembers, Next, Enabled, ServerAt;
  }

  lemma DeliverKeepsGood(s: System, step: Step)
    requires Good(s) && step.Deliver? && Enabled(s, step)
    ensures Good(Next(s, step))
  {
    var e := Event(step.kind, s.history[s.delivered].item);
    DeliverKeepsReflects(s, step);
    OverlaysAreKeyed(s.view);
    ApplyOverlays(s.view, e, s.clock);
    DeliverNext(s, step);
    DeliverKeepsRemembers(s, e, Next(s, step));
    hide Origin, Reflects, WellFormed, Remembers;
    DeliverKeepsCommitted(s, Next(s, step));
  }

  /** A snapshot keeps a subset of the overlays, none of which it confirms. */
  lemma SnapshotOverlays(v: View, items: seq<Item>, started: nat, now: nat)
    requires AllKeyed(items)
    ensures
      var w := ResetStartedAt(v, Items(items), started, now);
      && w.objects == Override(Load(items), w.overlays)
      && forall k :: k in w.overlays <==>
           k in v.overlays && k in v.ackedAt && v.ackedAt[k] >= started && !Confirms(Load(items), k, v.overlays[k])
  {
  }

  lemma SnapshotKeepsItems(v: View, items: seq<Item>, started: nat, now: nat)
    requires AllKeyed(items)
    ensures
      var w := ResetStartedAt(v, Items(items), started, now);
      forall k | k in w.overlays :: k in v.overlays && w.overlays[k] == v.overlays[k]
  {
  }

  lemma SnapshotKeepsCommitted(s: System, t: System)
    requires Committed(s) && t.history == s.history && t.delivered == t.listed
    requires forall k | k in t.view.overlays :: k in s.view.overlays && t.view.overlays[k] == s.view.overlays[k]
    ensures Committed(t)
  {
    forall k | k in t.view.overlays
      ensures exists j: nat :: Origin(t, k, j)
    {
      var j: nat :| Origin(s, k, j);
      assert Origin(t, k, j);
    }
  }

  lemma {:induction false} LoadedIsStamped(items: seq<Item>, k: Key)
    requires k in Load(items) && Load(items)[k].revision.Some?
    ensures Stamp(Load(items)[k].uid, Load(items)[k].revision.value) in Stamps(items)
  {
    var last := items[|items| - 1];
    if k != last.KeyOf() {
      LoadedIsStamped(items[..|items| - 1], k);
    }
  }

  lemma SnapshotRemembers(v: View, items: seq<Item>, started: nat, now: nat, s: Stamp, at: nat)
    requires AllKeyed(items) && s in Stamps(items) && at <= now
    ensures History.Remembered(ResetStartedAt(v, Items(items), started, now), s, at)
  {
    var seen := DropBefore(v, started).seen + Stamps(items);
    assert s in seen;
  }

  lemma FinishListRemembers(s: System, step: Step)
    requires Good(s) && step.FinishList? && Enabled(s, step) && WellFormed(Next(s, step))
    requires Next(s, step).view == ResetStartedAt(s.view, Items(step.items), s.listing.value.started, s.clock)
    ensures Remembers(Next(s, step))
  {
    var t := Next(s, step);
    forall i: nat | Seen(t, i) ensures History.Remembered(t.view, t.history[i].StampOf(), t.history[i].at) {
      LoadedIsStamped(step.items, t.history[i].item.KeyOf());
      hide Stamps, Load, ServerAt, ResetStartedAt;
      SnapshotRemembers(s.view, step.items, s.listing.value.started, s.clock, t.history[i].StampOf(), t.history[i].at);
    }
  }

  lemma FinishListReflects(s: System, step: Step)
    requires Good(s) && step.FinishList? && Enabled(s, step)
    ensures
      var t := Next(s, step);
      && WellFormed(t) && Reflects(t)
      && t.view == ResetStartedAt(s.view, Items(step.items), s.listing.value.started, s.clock)
  {
    var started := s.listing.value.started;
    SnapshotOverlays(s.view, step.items, started, s.clock);
    History.StepKeepsInv(s.view, History.Timed(History.ReplaceStartedAt(Items(step.items), started), s.clock));
    hide Committed;
  }

  lemma FinishListKeepsGood(s: System, step: Step)
    requires Good(s) && step.FinishList? && Enabled(s, step)
    ensures Good(Next(s, step))
  {
    FinishListReflects(s, step);
    SnapshotKeepsItems(s.view, step.items, s.listing.value.started, s.clock);
    FinishListRemembers(s, step);
    hide Reflects, WellFormed, Remembers;
    SnapshotKeepsCommitted(s, Next(s, step));
    hide Committed;
  }

  /** A reply to a change that has reached the view, by watch or in the LIST in force, is never recorded. */
  lemma DeliveredIsRefused(s: System, i: nat, started: nat)
    requires Good(s) && Seen(s, i) && started <= s.history[i].at
    ensures AcknowledgeOutcome(s.view, s.history[i].item, started) != Changed
  {
    assert History.Remembered(s.view, s.history[i].StampOf(), s.history[i].at);
  }

  lemma AcceptKeepsCommitted(s: System, i: nat, t: System)
    requires Committed(s) && i < |s.history| && !s.history[i].deleted
    requires t.history == s.history && t.delivered == s.delivered && t.listed == s.listed
    requires
      var key := s.history[i].item.KeyOf();
      t.view.overlays == WithoutRivals(s.view.overlays, key)[key := s.history[i].item]
    ensures Committed(t)
  {
    forall k | k in t.view.overlays
      ensures exists j: nat :: Origin(t, k, j)
    {
      if k == s.history[i].item.KeyOf() {
        assert Origin(t, k, i);
      } else {
        var j: nat :| Origin(s, k, j);
        assert Origin(t, k, j);
      }
    }
  }

  lemma AcceptReflects(s: System, o: Item, started: nat)
    requires s.delivered <= |s.history| && Reflects(s)
    requires AcknowledgeOutcome(s.view, o, started) == Changed
    ensures Reflects(s.(view := Acknowledge(s.view, o, started, s.clock)))
  {
    RespondOverrides(ServerAt(s.history, s.delivered), s.view.overlays, o);
    AcknowledgeKeepsInv(s.view, o, started, s.clock);
  }

  lemma RecordKeepsGood(s: System, step: Step)
    requires Good(s) && step.Respond? && Enabled(s, step)
    requires AcknowledgeOutcome(s.view, s.history[step.i].item, step.started) == Changed
    ensures Good(Next(s, step))
  {
    RespondNext(s, step);
    hide Enabled, Next, Reflects, Remembers, Committed;
    AcceptKeepsGood(s, step.i, step.started);
  }

  lemma AcceptKeepsGood(s: System, i: nat, started: nat)
    requires Good(s) && i < |s.history| && !s.history[i].deleted
    requires AcknowledgeOutcome(s.view, s.history[i].item, started) == Changed
    ensures Good(s.(view := Acknowledge(s.view, s.history[i].item, started, s.clock)))
  {
    hide Reflects, Remembers, Committed;
    AcceptReflects(s, s.history[i].item, started);
    AcceptRemembers(s, s.history[i].item, started);
    AcceptKeepsCommitted(s, i, s.(view := Acknowledge(s.view, s.history[i].item, started, s.clock)));
  }

  lemma RespondNext(s: System, step: Step)
    requires WellFormed(s) && step.Respond? && Enabled(s, step)
    requires AcknowledgeOutcome(s.view, s.history[step.i].item, step.started) == Changed
    ensures step.i < |s.history| && !s.history[step.i].deleted
    ensures Next(s, step) == s.(view := Acknowledge(s.view, s.history[step.i].item, step.started, s.clock))
  {
  }

  lemma AcceptRemembers(s: System, o: Item, started: nat)
    requires WellFormed(s) && Remembers(s) && AcknowledgeOutcome(s.view, o, started) == Changed
    ensures Remembers(s.(view := Acknowledge(s.view, o, started, s.clock)))
  {
    var t := s.(view := Acknowledge(s.view, o, started, s.clock));
    assert t.view.seen == s.view.seen && t.view.evictedAt == s.view.evictedAt;
    assert forall i: nat :: Seen(t, i) <==> Seen(s, i);
  }

  lemma RespondKeepsGood(s: System, step: Step)
    requires Good(s) && step.Respond? && Enabled(s, step)
    ensures Good(Next(s, step))
  {
    if AcknowledgeOutcome(s.view, s.history[step.i].item, step.started) == Changed {
      RecordKeepsGood(s, step);
    } else {
      hide Reflects, Committed, Remembers;
      FlagsKeepGood(s, Next(s, step));
    }
  }

  /** Every step keeps the invariant. */
  lemma StepKeepsGood(s: System, step: Step)
    requires Good(s) && Enabled(s, step)
    ensures Good(Next(s, step))
  {
    var t := Next(s, step);
    match step
    case Write(_, _) => WriteKeepsGood(s, step);
    case FinishList(_, _) => FinishListKeepsGood(s, step);
    case Deliver(_) => DeliverKeepsGood(s, step);
    case Respond(_, _) => RespondKeepsGood(s, step);
    case _ => FlagsKeepGood(s, t);
  }

  lemma {:induction false} BehaviorIsGood(states: seq<System>, steps: seq<Step>, i: nat)
    requires Behavior(states, steps) && i < |states|
    ensures Good(states[i])
  {
    if i > 0 {
      BehaviorIsGood(states, steps, i - 1);
      StepKeepsGood(states[i - 1], steps[i - 1]);
    }
  }

  // ---------------------------------------------------------------- convergence

  /**
   * Convergence: in every state of every run the visible objects are the server's at the last
   * delivered change, overridden by the writes that are acknowledged and not yet observed.
   */
  lemma Convergence(states: seq<System>, steps: seq<Step>, i: nat)
    requires Behavior(states, steps) && i < |states|
    ensures
      var s := states[i];
      && s.delivered <= |s.history|
      && s.view.objects == Override(ServerAt(s.history, s.delivered), s.view.overlays)
      && (s.position.Some? ==> s.position.value == s.delivered)
  {
    BehaviorIsGood(states, steps, i);
  }

  /** Every overlay stands for a write whose change is still to be delivered. */
  ghost predicate Fresh(s: System) {
    forall k, j: nat | Origin(s, k, j) :: j >= s.delivered
  }

  /** Every acknowledged write still shown has been delivered, by watch or by LIST. */
  ghost predicate CaughtUp(s: System) {
    forall k, j: nat | Origin(s, k, j) :: j < s.delivered
  }

  lemma {:induction false} ServerNamesAreUnique(h: seq<Commit>, n: nat)
    requires n <= |h|
    ensures UniqueNames(ServerAt(h, n))
  {
    if n > 0 {
      ServerNamesAreUnique(h, n - 1);
    }
  }

  /** Overriding changes nothing exactly if what overrides is there already. */
  lemma OverrideIsBase(base: map<Key, Item>, over: map<Key, Item>)
    requires UniqueNames(base)
    ensures Override(base, over) == base <==> forall k | k in over :: k in base && base[k] == over[k]
  {
    if Override(base, over) == base {
      forall k | k in over ensures k in base && base[k] == over[k] {
        assert k in Override(base, over);
      }
    }
  }

  /** The view is the server's state exactly if every overlay shows what the server has. */
  lemma ExactIff(s: System)
    requires Good(s)
    ensures s.view.objects == ServerAt(s.history, s.delivered) <==>
            forall k | k in s.view.overlays ::
              k in ServerAt(s.history, s.delivered) && ServerAt(s.history, s.delivered)[k] == s.view.overlays[k]
  {
    ServerNamesAreUnique(s.history, s.delivered);
    OverrideIsBase(ServerAt(s.history, s.delivered), s.view.overlays);
  }

  /** Once the watch has caught up, no overlay is left exactly if none is stale, and then the view is the server's state. */
  lemma CaughtUpIsExact(s: System)
    requires Good(s) && CaughtUp(s)
    ensures Fresh(s) <==> s.view.overlays == map[]
    ensures Fresh(s) ==> s.view.objects == ServerAt(s.history, s.delivered)
  {
    forall k | k in s.view.overlays ensures exists j: nat :: Origin(s, k, j) && j < s.delivered {
      var j: nat :| Origin(s, k, j);
    }
    ExactIff(s);
  }

  /**
   * The steps that leave no stale overlay: a response that is recorded is of a change still to be
   * delivered, and a snapshot has not moved past a write acknowledged while it was being taken.
   */
  ghost predicate Benign(s: System, step: Step)
    requires Enabled(s, step)
  {
    match step
    case Respond(i, started) => AcknowledgeOutcome(s.view, s.history[i].item, started) == Changed ==> i >= s.delivered
    case FinishList(n, items) =>
      forall k, j: nat | Origin(s, k, j) && j < n && k in s.view.ackedAt && s.view.ackedAt[k] >= s.listing.value.started ::
        Confirms(ServerAt(s.history, n), k, s.view.overlays[k])
    case _ => true
  }

  /** For a reply, whose write began before it was committed, only what the LIST in force had behind it counts. */
  lemma ReplyIsBenign(s: System, step: Step)
    requires Good(s) && step.Respond? && Enabled(s, step) && step.started <= s.history[step.i].at
    ensures Benign(s, step) <==> AcknowledgeOutcome(s.view, s.history[step.i].item, step.started) == Changed ==> step.i >= s.listed
  {
    if s.listed <= step.i < s.delivered {
      DeliveredIsRefused(s, step.i, step.started);
    }
  }

  lemma FinishListFreshness(s: System, step: Step)
    requires Good(s) && Fresh(s) && step.FinishList? && Enabled(s, step)
    ensures Fresh(Next(s, step)) <==> Benign(s, step)
  {
    var started := s.listing.value.started;
    SnapshotOverlays(s.view, step.items, started, s.clock);
    SnapshotKeepsItems(s.view, step.items, started, s.clock);
    var t := Next(s, step);
    hide ServerAt;
    assert t.view == ResetStartedAt(s.view, Items(step.items), started, s.clock);
    assert forall k, j: nat :: Origin(t, k, j) <==> Origin(s, k, j) && k in t.view.overlays;
  }

  lemma RecordedOrigins(s: System, t: System, i: nat)
    requires WellFormed(s) && i < |s.history| && !s.history[i].deleted && t.history == s.history
    requires var key := s.history[i].item.KeyOf();
             t.view.overlays == WithoutRivals(s.view.overlays, key)[key := s.history[i].item]
    ensures Origin(t, s.history[i].item.KeyOf(), i)
    ensures forall k, j: nat | Origin(t, k, j) :: j == i || Origin(s, k, j)
  {
    var key := s.history[i].item.KeyOf();
    assert forall j | 0 <= j < |s.history| && j != i :: s.history[j].StampOf() != s.history[i].StampOf();
    assert forall k, j: nat | Origin(t, k, j) && k != key :: Origin(s, k, j);
  }

  lemma RecordedFreshness(s: System, step: Step)
    requires Good(s) && Fresh(s) && step.Respond? && Enabled(s, step)
    requires AcknowledgeOutcome(s.view, s.history[step.i].item, step.started) == Changed
    ensures Fresh(Next(s, step)) <==> step.i >= s.delivered
  {
    RespondNext(s, step);
    var t := Next(s, step);
    hide Next, Enabled, Good, Origin;
    RecordedOrigins(s, t, step.i);
  }

  lemma RefusedNext(s: System, step: Step)
    requires step.Respond? && Enabled(s, step) && AcknowledgeOutcome(s.view, s.history[step.i].item, step.started) != Changed
    ensures var t := Next(s, step); t.view.overlays == s.view.overlays && t.delivered == s.delivered && t.history == s.history
  {
  }

  lemma SameOverlaysFresh(s: System, t: System)
    requires t.view.overlays == s.view.overlays && t.delivered == s.delivered <= |s.history| && s.history <= t.history
    requires Fresh(s)
    ensures Fresh(t)
  {
    forall k, j: nat | Origin(t, k, j) ensures j >= t.delivered {
      if j < |s.history| {
        assert Origin(s, k, j);
      }
    }
  }

  lemma RespondFreshness(s: System, step: Step)
    requires Good(s) && Fresh(s) && step.Respond? && Enabled(s, step)
    ensures Fresh(Next(s, step)) <==> Benign(s, step)
  {
    if AcknowledgeOutcome(s.view, s.history[step.i].item, step.started) == Changed {
      RecordedFreshness(s, step);
    } else {
      RefusedNext(s, step);
      hide Next, Good;
      SameOverlaysFresh(s, Next(s, step));
    }
  }

  lemma DeliverKeepsFresh(s: System, t: System)
    requires Fresh(s) && s.delivered < |s.history| && t.history == s.history && t.delivered == s.delivered + 1
    requires forall k | k in t.view.overlays ::
      k in s.view.overlays && t.view.overlays[k] == s.view.overlays[k] && s.view.overlays[k] != s.history[s.delivered].item
    ensures Fresh(t)
  {
    forall k, j: nat | Origin(t, k, j) ensures j >= t.delivered {
      assert Origin(s, k, j);
    }
  }

  lemma DeliverFreshness(s: System, step: Step)
    requires Good(s) && Fresh(s) && Enabled(s, step) && step.Deliver?
    ensures Fresh(Next(s, step))
  {
    var e := Event(step.kind, s.history[s.delivered].item);
    hide Origin, Reflects, Fresh, Committed, Remembers;
    DeliverKeepsReflects(s, step);
    OverlaysAreKeyed(s.view);
    ApplyOverlays(s.view, e, s.clock);
    DeliverKeepsFresh(s, Next(s, step));
  }

  lemma OtherNext(s: System, step: Step)
    requires Enabled(s, step) && !step.Respond? && !step.FinishList? && !step.Deliver?
    ensures var t := Next(s, step); t.view.overlays == s.view.overlays && t.delivered == s.delivered && s.history <= t.history
  {
  }

  lemma OtherFreshness(s: System, step: Step)
    requires Good(s) && Fresh(s) && Enabled(s, step) && !step.Respond? && !step.FinishList?
    ensures Fresh(Next(s, step))
  {
    if step.Deliver? {
      DeliverFreshness(s, step);
    } else {
      OtherNext(s, step);
      hide Next, Enabled, Fresh;
      SameOverlaysFresh(s, Next(s, step));
    }
  }

  /** From a view without stale overlays, exactly the benign steps lead to one. */
  lemma BenignIsFresh(s: System, step: Step)
    requires Good(s) && Fresh(s) && Enabled(s, step)
    ensures Fresh(Next(s, step)) <==> Benign(s, step)
  {
    if step.Respond? {
      RespondFreshness(s, step);
    } else if step.FinishList? {
      FinishListFreshness(s, step);
    } else {
      OtherFreshness(s, step);
    }
  }

  lemma {:induction false} BenignRunIsFresh(states: seq<System>, steps: seq<Step>, n: nat)
    requires Behavior(states, steps) && n < |states|
    requires forall i | 0 <= i < |steps| :: Benign(states[i], steps[i])
    ensures Fresh(states[n])
  {
    if n > 0 {
      BenignRunIsFresh(states, steps, n - 1);
      BehaviorIsGood(states, steps, n - 1);
      BenignIsFresh(states[n - 1], steps[n - 1]);
    }
  }

  /** A run never shows a stale overlay if and only if every step of it is benign. */
  lemma {:induction false} FreshRuns(states: seq<System>, steps: seq<Step>)
    requires Behavior(states, steps)
    ensures (forall n | 0 <= n < |states| :: Fresh(states[n])) <==> (forall i | 0 <= i < |steps| :: Benign(states[i], steps[i]))
  {
    if forall n | 0 <= n < |states| :: Fresh(states[n]) {
      forall i | 0 <= i < |steps| ensures Benign(states[i], steps[i]) {
        BehaviorIsGood(states, steps, i);
        BenignIsFresh(states[i], steps[i]);
        assert Fresh(states[i + 1]);
      }
    } else if forall i | 0 <= i < |steps| :: Benign(states[i], steps[i]) {
      forall n | 0 <= n < |states| ensures Fresh(states[n]) {
        BenignRunIsFresh(states, steps, n);
      }
    }
  }

  /** The convergence the feed is for: after only benign steps, a caught-up view is the server's state. */
  lemma {:induction false} BenignRunsConverge(states: seq<System>, steps: seq<Step>)
    requires Behavior(states, steps)
    requires forall i | 0 <= i < |steps| :: Benign(states[i], steps[i])
    ensures
      var s := states[|steps|];
      CaughtUp(s) ==> s.view.overlays == map[] && s.delivered <= |s.history| && s.view.objects == ServerAt(s.history, s.delivered)
  {
    var s := states[|steps|];
    BehaviorIsGood(states, steps, |steps|);
    BenignRunIsFresh(states, steps, |steps|);
    if CaughtUp(s) {
      CaughtUpIsExact(s);
    }
  }

  // ---------------------------------------------------------------- when responses are replies

  /** A response to a write was asked for before the write was committed. */
  ghost predicate Prompt(s: System, step: Step)
    requires Enabled(s, step)
  {
    step.Respond? ==> step.started <= s.history[step.i].at
  }

  /** A stale overlay never shows what the server has. */
  ghost predicate StaleDiffers(s: System)
    requires s.delivered <= |s.history|
  {
    forall k, j: nat | Origin(s, k, j) && j < s.delivered :: !Shows(ServerAt(s.history, s.delivered), s.history[j].item)
  }

  /** What the server shows now and wrote before change `n`, it showed then. */
  lemma {:induction false} ShownBefore(s: System, i: nat, n: nat, m: nat)
    requires WellFormed(s) && i < n <= m <= |s.history|
    ensures Shows(ServerAt(s.history, m), s.history[i].item) ==> Shows(ServerAt(s.history, n), s.history[i].item)
  {
    if n < m {
      ShownBefore(s, i, n, m - 1);
      assert s.history[i].StampOf() != s.history[m - 1].StampOf();
    }
  }

  lemma SameStaleDiffers(s: System, t: System)
    requires s.delivered <= |s.history| && StaleDiffers(s)
    requires t.view.overlays == s.view.overlays && t.delivered == s.delivered && t.history == s.history
    ensures StaleDiffers(t)
  {
    assert forall k, j: nat :: Origin(t, k, j) <==> Origin(s, k, j);
  }

  lemma WriteStaleDiffers(s: System, step: Step)
    requires Good(s) && StaleDiffers(s) && step.Write? && Enabled(s, step)
    ensures StaleDiffers(Next(s, step))
  {
    var t := Next(s, step);
    ServerAtPrefix(s.history, Commit(step.deleted, step.item, s.clock), s.delivered);
    hide ServerAt, Reflects, Committed, Remembers;
    assert forall k, j: nat | Origin(t, k, j) && j < |s.history| :: Origin(s, k, j);
  }

  lemma DeliverStaleDiffers(s: System, step: Step)
    requires Good(s) && StaleDiffers(s) && step.Deliver? && Enabled(s, step)
    ensures var t := Next(s, step); t.delivered <= |t.history| && StaleDiffers(t)
  {
    var t, n := Next(s, step), s.delivered;
    var e := Event(step.kind, s.history[n].item);
    DeliverNext(s, step);
    OverlaysAreKeyed(s.view);
    ApplyOverlays(s.view, e, s.clock);
    hide Next, Enabled, Apply, Reflects, Committed, Remembers;
    forall k, j: nat | Origin(t, k, j) && j < t.delivered ensures !Shows(ServerAt(t.history, t.delivered), t.history[j].item) {
      assert Origin(s, k, j) && j != n;
      ShownBefore(s, j, n, n + 1);
    }
  }

  lemma FinishListStaleDiffers(s: System, step: Step)
    requires Good(s) && step.FinishList? && Enabled(s, step)
    ensures var t := Next(s, step); t.delivered <= |t.history| && StaleDiffers(t)
  {
    FinishListReflects(s, step);
    var started := s.listing.value.started;
    SnapshotOverlays(s.view, step.items, started, s.clock);
    SnapshotKeepsItems(s.view, step.items, started, s.clock);
    OverlaysAreKeyed(s.view);
    var t := Next(s, step);
    hide Next, Enabled, Reflects, Committed, Remembers, ResetStartedAt, Good;
    forall k, j: nat | Origin(t, k, j) && j < t.delivered ensures !Shows(ServerAt(t.history, t.delivered), t.history[j].item) {
      assert !Confirms(Load(step.items), k, s.view.overlays[k]);
    }
  }

  lemma RecordedStaleDiffers(s: System, step: Step)
    requires Good(s) && StaleDiffers(s) && step.Respond? && Enabled(s, step) && Prompt(s, step)
    requires AcknowledgeOutcome(s.view, s.history[step.i].item, step.started) == Changed
    ensures StaleDiffers(Next(s, step))
  {
    RespondNext(s, step);
    var t, i := Next(s, step), step.i;
    RecordedOrigins(s, t, i);
    if i < s.delivered && Shows(ServerAt(s.history, s.delivered), s.history[i].item) {
      if i < s.listed {
        ShownBefore(s, i, s.listed, s.delivered);
      }
      DeliveredIsRefused(s, i, step.started);
    }
    hide Next, Enabled, Good, ServerAt, Origin;
  }

  lemma StepStaleDiffers(s: System, step: Step)
    requires Good(s) && StaleDiffers(s) && Enabled(s, step) && Prompt(s, step)
    ensures var t := Next(s, step); t.delivered <= |t.history| && StaleDiffers(t)
  {
    hide StaleDiffers, Reflects, Committed, Remembers;
    if step.Write? {
      WriteStaleDiffers(s, step);
    } else if step.Deliver? {
      DeliverStaleDiffers(s, step);
    } else if step.FinishList? {
      FinishListStaleDiffers(s, step);
    } else if step.Respond? && AcknowledgeOutcome(s.view, s.history[step.i].item, step.started) == Changed {
      RecordedStaleDiffers(s, step);
    } else {
      SameStaleDiffers(s, Next(s, step));
    }
  }

  lemma {:induction false} PromptRunStaleDiffers(states: seq<System>, steps: seq<Step>, n: nat)
    requires Behavior(states, steps) && n < |states|
    requires forall i | 0 <= i < |steps| :: Prompt(states[i], steps[i])
    ensures Good(states[n]) && StaleDiffers(states[n])
  {
    BehaviorIsGood(states, steps, n);
    if n > 0 {
      PromptRunStaleDiffers(states, steps, n - 1);
      StepStaleDiffers(states[n - 1], steps[n - 1]);
    }
  }

  /** When every response is a reply, a caught-up view is the server's state exactly if no overlay is stale. */
  lemma PromptRunsAreExact(states: seq<System>, steps: seq<Step>, n: nat)
    requires Behavior(states, steps) && n < |states| && CaughtUp(states[n])
    requires forall i | 0 <= i < |steps| :: Prompt(states[i], steps[i])
    ensures var s := states[n];
            s.delivered <= |s.history| && (s.view.objects == ServerAt(s.history, s.delivered) <==> Fresh(s))
  {
    var s := states[n];
    PromptRunStaleDiffers(states, steps, n);
    CaughtUpIsExact(s);
    ExactIff(s);
    OverlaysAreKeyed(s.view);
    forall k | k in s.view.overlays ensures s.view.objects != ServerAt(s.history, s.delivered) {
      var j: nat :| Origin(s, k, j);
      assert !Shows(ServerAt(s.history, s.delivered), s.history[j].item);
    }
  }

  // ---------------------------------------------------------------- the step that is not benign

  function Pod(revision: string): Item {
    Item("ns", "pod", "uid", Some(revision), {}, Null)
  }

  lemma OverwrittenPod(h: seq<Commit>)
    requires |h| == 2 && h[0] == Commit(false, Pod("1"), h[0].at) && h[1] == Commit(false, Pod("2"), h[1].at)
    ensures ServerAt(h, 2) == Load([Pod("2")]) == map[Pod("2").KeyOf() := Pod("2")]
  {
    assert ServerAt(h, 0) == map[];
    assert ServerAt(h, 1) == map[Pod("1").KeyOf() := Pod("1")];
    assert Load([]) == map[];
    assert [Pod("2")][..0] == [];
  }

  /** The view that shows an acknowledged pod and nothing else. */
  function Showing(pod: Item): View {
    View(false, false, map[pod.KeyOf() := pod], map[pod.KeyOf() := pod], map[pod.KeyOf() := 0], [], None)
  }

  lemma PodIsShown()
    ensures Informers.Responded(EMPTY, Pod("1"), 0, 0) == Showing(Pod("1"))
  {
    assert EMPTY.seen == [];
  }

  lemma PodIsStuck()
    ensures
      var w := Informers.Received(Showing(Pod("1")), Informers.Snapshot(Items([Pod("2")]), 0), 0);
      w.synced && Pod("1").KeyOf() in w.objects && w.objects[Pod("1").KeyOf()] == Pod("1")
  {
    var v, items := Showing(Pod("1")), [Pod("2")];
    var key := Pod("1").KeyOf();
    OverwrittenPod([Commit(false, Pod("1"), 0), Commit(false, Pod("2"), 0)]);
    SnapshotOverlays(v, items, 0, 0);
    SnapshotKeepsItems(v, items, 0, 0);
    var w := ResetStartedAt(v, Items(items), 0, 0);
    assert key in w.overlays && w.overlays[key] == Pod("1");
  }

  function Stage(i: nat): System
    requires i < 5
  {
    var c1, c2 := Commit(false, Pod("1"), 0), Commit(false, Pod("2"), 0);
    var request := Some(Request(0, 0));
    match i
    case 0 => START
    case 1 => START.(listing := request)
    case 2 => System([c1], 0, EMPTY, None, request, 0, 0)
    case 3 => System([c1], 0, Showing(Pod("1")), None, request, 0, 0)
    case _ => System([c1, c2], 0, Showing(Pod("1")), None, request, 0, 0)
  }

  lemma StagesFollow()
    ensures Stage(0) == START
    ensures Enabled(Stage(0), StartList) && Stage(1) == Next(Stage(0), StartList)
    ensures Enabled(Stage(1), Write(false, Pod("1"))) && Stage(2) == Next(Stage(1), Write(false, Pod("1")))
    ensures Enabled(Stage(2), Respond(0, 0)) && Stage(3) == Next(Stage(2), Respond(0, 0))
    ensures Enabled(Stage(3), Write(false, Pod("2"))) && Stage(4) == Next(Stage(3), Write(false, Pod("2")))
  {
    PodIsShown();
    hide Showing;
    var c1, c2 := Commit(false, Pod("1"), 0), Commit(false, Pod("2"), 0);
    assert [] + [c1] == [c1] && [c1] + [c2] == [c1, c2];
    assert c1.StampOf() != c2.StampOf();
  }

  lemma StuckAtLast()
    ensures var step := FinishList(2, [Pod("2")]);
            && Enabled(Stage(4), step)
            && var s := Next(Stage(4), step);
               s.view.synced && s.delivered == |s.history| && s.view.objects != ServerAt(s.history, s.delivered)
  {
    PodIsStuck();
    OverwrittenPod(Stage(4).history);
    hide ServerAt, Load;
  }

  /**
   * A write acknowledged while a LIST is in flight, and overwritten before the LIST is read,
   * hides the newer state although everything has been delivered and the store is synchronized.
   */
  lemma StuckOverlay() returns (states: seq<System>, steps: seq<Step>)
    ensures Behavior(states, steps)
    ensures
      var s := states[|steps|];
      s.view.synced && s.delivered == |s.history| && s.view.objects != ServerAt(s.history, s.delivered)
  {
    hide Stage, Next, Enabled, ServerAt, Pod;
    StagesFollow();
    StuckAtLast();
    steps := [StartList, Write(false, Pod("1")), Respond(0, 0), Write(false, Pod("2")), FinishList(2, [Pod("2")])];
    states := [Stage(0), Stage(1), Stage(2), Stage(3), Stage(4), Next(Stage(4), FinishList(2, [Pod("2")]))];
  }
}
