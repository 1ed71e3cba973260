/** Whole runs of the store under a monotone clock: a late write response never rewinds the view. */
module History {
  import opened Objects
  import opened Wrappers
  import opened View

  datatype Op =
    | GoUnavailable
    | Resume
    | Replace(list: Listing)
    | ReplaceStartedAt(list: Listing, started: nat)
    | ReplaceAfterWrites(list: Listing)
    | Respond(item: Item, started: nat)
    | Deliver(event: Event)

  /** An operation and the instant it takes effect. */
  datatype Timed = Timed(op: Op, now: nat)

  ghost function Step(v: View, t: Timed): View {
    match t.op
    case GoUnavailable => Unavailable(v)
    case Resume => Resumed(v)
    case Replace(list) => Reset(v, list, t.now)
    case ReplaceStartedAt(list, started) => ResetStartedAt(v, list, started, t.now)
    case ReplaceAfterWrites(list) => ResetAfterWrites(v, list, t.now)
    case Respond(item, started) => Acknowledge(v, item, started, t.now)
    case Deliver(event) => Apply(v, event, t.now)
  }

  ghost function RunFrom(v: View, ops: seq<Timed>): View {
    if ops == [] then v else Step(RunFrom(v, ops[..|ops| - 1]), ops[|ops| - 1])
  }

  ghost predicate Monotone(ops: seq<Timed>) {
    forall i, j | 0 <= i <= j < |ops| :: ops[i].now <= ops[j].now
  }

  /** The operation accepts a complete snapshot. */
  predicate TakesSnapshot(op: Op) {
    (op.Replace? || op.ReplaceStartedAt? || op.ReplaceAfterWrites?) && Acceptable(op.list)
  }

  /** What an operation lets the store see. */
  function Observations(op: Op): seq<Stamp> {
    if TakesSnapshot(op) then Stamps(op.list.items)
    else if op.Deliver? && !op.event.kind.Bookmark? && op.event.item.HasKey() && op.event.item.revision.Some? then
      [Stamp(op.event.item.uid, op.event.item.revision.value)]
    else []
  }

  /** Every operation keeps the store's invariant. */
  lemma StepKeepsInv(v: View, t: Timed)
    requires Inv(v)
    ensures Inv(Step(v, t))
  {
    match t.op
    case GoUnavailable =>
    case Resume =>
    case Replace(list) => ResetKeepsInv(v, list, t.now);
    case ReplaceStartedAt(list, started) =>
      DropBeforeKeepsInv(v, started);
      ResetKeepsInv(DropBefore(v, started), list, t.now);
    case ReplaceAfterWrites(list) => ResetKeepsInv(v.(overlays := map[], ackedAt := map[]), list, t.now);
    case Respond(item, started) => AcknowledgeKeepsInv(v, item, started, t.now);
    case Deliver(event) => ApplyKeepsInv(v, event, t.now);
  }

  /** Over every run, overlay and time domains coincide and every overlay is the visible object. */
  lemma {:induction false} RunKeepsInv(ops: seq<Timed>)
    ensures Inv(RunFrom(EMPTY, ops))
  {
    if ops != [] {
      RunKeepsInv(ops[..|ops| - 1]);
      StepKeepsInv(RunFrom(EMPTY, ops[..|ops| - 1]), ops[|ops| - 1]);
    }
  }

  /** An observation made at `at` is still remembered, or its loss is: the history was cut since. */
  ghost predicate Remembered(v: View, s: Stamp, at: nat) {
    s in v.seen || (v.evictedAt.Some? && v.evictedAt.value >= at)
  }

  /** The only change any operation makes to the history: append, then cut to the recent part. */
  lemma StepAppends(v: View, t: Timed)
    requires |v.seen| <= HISTORY
    ensures
      var seen := v.seen + Observations(t.op);
      Step(v, t).seen == Recent(seen) && Step(v, t).evictedAt == LastEviction(seen, v.evictedAt, t.now)
  {
    assert v.seen + [] == v.seen;
    match t.op
    case GoUnavailable =>
    case Resume =>
    case Replace(list) =>
    case ReplaceStartedAt(list, started) =>
    case ReplaceAfterWrites(list) =>
    case Respond(item, started) =>
    case Deliver(event) => ApplyAppends(v, event, t.now);
  }

  lemma EffectKeepsHistory(v: View, e: Event)
    ensures Effect(v, e).seen == v.seen && Effect(v, e).evictedAt == v.evictedAt
  {
  }

  lemma ApplyAppends(v: View, e: Event, now: nat)
    requires |v.seen| <= HISTORY
    ensures
      var seen := v.seen + Observations(Deliver(e));
      Apply(v, e, now).seen == Recent(seen) && Apply(v, e, now).evictedAt == LastEviction(seen, v.evictedAt, now)
  {
    assert v.seen + [] == v.seen;
    if !e.kind.Bookmark? && e.item.HasKey() && e.item.revision.Some? {
      var key := e.item.KeyOf();
      var w := Observe(v, Stamp(key.uid, e.item.revision.value), now);
      EffectKeepsHistory(w.(overlays := w.overlays - {key}, ackedAt := w.ackedAt - {key}), e);
    } else {
      assert Recent(v.seen) == v.seen && LastEviction(v.seen, v.evictedAt, now) == v.evictedAt by { NothingEvicted(v, now); }
    }
  }

  lemma NothingEvicted(v: View, now: nat)
    requires |v.seen| <= HISTORY
    ensures Recent(v.seen) == v.seen && LastEviction(v.seen, v.evictedAt, now) == v.evictedAt
  {
  }

  lemma StepRemembers(v: View, t: Timed, s: Stamp, at: nat)
    requires Inv(v) && at <= t.now
    requires Remembered(v, s, at) || s in Observations(t.op)
    ensures Remembered(Step(v, t), s, at)
  {
    StepAppends(v, t);
  }

  lemma {:induction false} RunRemembers(ops: seq<Timed>, i: int, s: Stamp)
    requires Monotone(ops) && 0 <= i < |ops| && s in Observations(ops[i].op)
    ensures Remembered(RunFrom(EMPTY, ops), s, ops[i].now)
  {
    var before := ops[..|ops| - 1];
    RunKeepsInv(before);
    if i < |ops| - 1 {
      RunRemembers(before, i, s);
    }
    StepRemembers(RunFrom(EMPTY, before), ops[|ops| - 1], s, ops[i].now);
  }

  /**
   * No rewind: a write response is accepted only if no event and no snapshot observed its
   * revision since its request started, although only the last 4096 observations are kept.
   */
  lemma {:induction false} NoRewind(ops: seq<Timed>, o: Item, started: nat)
    requires Monotone(ops)
    requires AcknowledgeOutcome(RunFrom(EMPTY, ops), o, started) == Changed
    ensures forall i | 0 <= i < |ops| && ops[i].now >= started ::
      Stamp(o.uid, o.revision.value) !in Observations(ops[i].op)
  {
    var s := Stamp(o.uid, o.revision.value);
    forall i | 0 <= i < |ops| && s in Observations(ops[i].op)
      ensures ops[i].now < started
    {
      RunRemembers(ops, i, s);
    }
  }

  lemma {:induction false} UnreadableStays(v: View, later: seq<Timed>)
    requires !v.synced && !v.initialized
    requires forall t | t in later :: !TakesSnapshot(t.op)
    ensures !RunFrom(v, later).synced && !RunFrom(v, later).initialized
  {
    if later != [] {
      UnreadableStays(v, later[..|later| - 1]);
    }
  }

  /**
   * A response whose revision may have fallen out of the history makes reads fail until a new
   * snapshot is accepted, whatever else happens in between.
   */
  lemma {:induction false} ExpiredHistoryNeedsSnapshot(v: View, o: Item, started: nat, now: nat, later: seq<Timed>)
    requires AcknowledgeOutcome(v, o, started) == Failed(HistoryExpired)
    requires forall t | t in later :: !TakesSnapshot(t.op)
    ensures !RunFrom(Acknowledge(v, o, started, now), later).synced
  {
    UnreadableStays(Acknowledge(v, o, started, now), later);
  }

  // ---------------------------------------------------------------- objects found by uid

  /** The objects an operation brings. */
  function Brought(op: Op): seq<Item> {
    match op
    case Respond(item, _) => [item]
    case Deliver(event) => [event.item]
    case GoUnavailable => []
    case Resume => []
    case _ => if op.list.Items? then op.list.items else []
  }

  ghost predicate WasBrought(op: Op, k: Key) { exists o :: o in Brought(op) && o.KeyOf() == k }

  lemma ResetBrings(v: View, list: Listing, now: nat, k: Key)
    requires k in Reset(v, list, now).objects && forall j | j in v.overlays :: j in v.objects
    ensures k in v.objects || (list.Items? && exists o :: o in list.items && o.KeyOf() == k)
  {
    if Acceptable(list) && k in Load(list.items) {
      LoadedWasListed(list.items, k);
    }
  }

  lemma RespondBrings(v: View, o: Item, started: nat, now: nat, k: Key)
    requires k in Acknowledge(v, o, started, now).objects
    ensures k in v.objects || WasBrought(Respond(o, started), k)
  {
    assert o in Brought(Respond(o, started));
  }

  lemma DeliverBrings(v: View, e: Event, now: nat, k: Key)
    requires k in Apply(v, e, now).objects
    ensures k in v.objects || WasBrought(Deliver(e), k)
  {
    assert e.item in Brought(Deliver(e));
  }

  /** Every object was there or is brought. */
  lemma StepBrings(v: View, t: Timed, k: Key)
    requires Inv(v) && k in Step(v, t).objects
    ensures k in v.objects || WasBrought(t.op, k)
  {
    hide Acknowledge, Apply, Load, Override;
    match t.op
    case GoUnavailable =>
    case Resume =>
    case Replace(list) => ResetBrings(v, list, t.now, k);
    case ReplaceStartedAt(list, started) => ResetBrings(DropBefore(v, started), list, t.now, k);
    case ReplaceAfterWrites(list) => ResetBrings(v.(overlays := map[], ackedAt := map[]), list, t.now, k);
    case Respond(item, started) => RespondBrings(v, item, started, t.now, k);
    case Deliver(event) => DeliverBrings(v, event, t.now, k);
  }

  lemma {:induction false} RunBrings(ops: seq<Timed>, k: Key)
    requires k in RunFrom(EMPTY, ops).objects
    ensures exists i :: 0 <= i < |ops| && WasBrought(ops[i].op, k)
  {
    hide WasBrought, Step;
    var before := ops[..|ops| - 1];
    RunKeepsInv(before);
    StepBrings(RunFrom(EMPTY, before), ops[|ops| - 1], k);
    if k in RunFrom(EMPTY, before).objects {
      RunBrings(before, k);
      var i :| 0 <= i < |before| && WasBrought(before[i].op, k);
      assert ops[i] == before[i];
    }
  }

  /** Nothing brought in the run shares a uid with an object of another name. */
  ghost predicate RunUnshared(ops: seq<Timed>) {
    forall i, j, a, b | 0 <= i < |ops| && 0 <= j < |ops| && a in Brought(ops[i].op) && b in Brought(ops[j].op) && a.uid == b.uid ::
      a.KeyOf().NameKey() == b.KeyOf().NameKey()
  }

  /** What the store's methods ask of an operation to keep every object found by its uid. */
  ghost predicate KeepsUidsFree(v: View, op: Op) {
    match op
    case Respond(item, _) => UidIsFree(v.objects, item)
    case Deliver(event) => UidIsFree(v.objects, event.item)
    case Replace(list) => list.Items? ==> Unshared(list.items) && UnsharedOver(Load(list.items), v.overlays)
    case ReplaceStartedAt(list, _) => list.Items? ==> Unshared(list.items) && UnsharedOver(Load(list.items), v.overlays)
    case ReplaceAfterWrites(list) => list.Items? ==> Unshared(list.items)
    case _ => true
  }

  lemma HeldIsUnshared(ops: seq<Timed>, n: nat, k: Key, o: Item)
    requires RunUnshared(ops) && n < |ops| && k in RunFrom(EMPTY, ops[..n]).objects && o in Brought(ops[n].op) && o.uid == k.uid
    ensures o.KeyOf().NameKey() == k.NameKey()
  {
    hide Brought, RunFrom;
    var i, b := Bringer(ops, n, k);
  }

  lemma Bringer(ops: seq<Timed>, n: nat, k: Key) returns (i: nat, o: Item)
    requires n <= |ops| && k in RunFrom(EMPTY, ops[..n]).objects
    ensures i < n && o in Brought(ops[i].op) && o.KeyOf() == k
  {
    hide Brought, RunFrom;
    RunBrings(ops[..n], k);
    i :| 0 <= i < n && WasBrought(ops[..n][i].op, k);
    o :| o in Brought(ops[i].op) && o.KeyOf() == k;
  }

  lemma ListedIsFree(ops: seq<Timed>, n: nat, items: seq<Item>)
    requires RunUnshared(ops) && n < |ops| && Brought(ops[n].op) == items
    ensures Unshared(items) && UnsharedOver(Load(items), RunFrom(EMPTY, ops[..n]).overlays)
  {
    var v := RunFrom(EMPTY, ops[..n]);
    RunKeepsInv(ops[..n]);
    assert forall k | k in v.overlays :: k in v.objects;
    hide Brought, RunFrom, Inv;
    forall j, k | j in Load(items) && k in v.overlays && j.uid == k.uid ensures j.NameKey() == k.NameKey() {
      LoadedWasListed(items, j);
      var o :| o in items && o.KeyOf() == j;
      HeldIsUnshared(ops, n, k, o);
    }
    forall j, k | j in v.overlays && k in v.overlays && j.uid == k.uid ensures j.NameKey() == k.NameKey() {
      HeldTwice(ops, n, j, k);
    }
  }

  lemma HeldTwice(ops: seq<Timed>, n: nat, j: Key, k: Key)
    requires RunUnshared(ops) && n < |ops| && j.uid == k.uid
    requires j in RunFrom(EMPTY, ops[..n]).objects && k in RunFrom(EMPTY, ops[..n]).objects
    ensures j.NameKey() == k.NameKey()
  {
    hide Brought, RunFrom;
    var i, a := Bringer(ops, n, j);
    var l, b := Bringer(ops, n, k);
  }

  /** Over a run in which no uid is shared between names, every operation keeps every object found by its uid. */
  lemma RunKeepsUidsFree(ops: seq<Timed>, n: nat)
    requires RunUnshared(ops) && n < |ops|
    ensures KeepsUidsFree(RunFrom(EMPTY, ops[..n]), ops[n].op)
  {
    var v := RunFrom(EMPTY, ops[..n]);
    hide RunFrom;
    match ops[n].op
    case Respond(item, _) =>
      forall k | k in v.objects && k.uid == item.uid ensures k.NameKey() == item.KeyOf().NameKey() {
        HeldIsUnshared(ops, n, k, item);
      }
    case Deliver(event) =>
      forall k | k in v.objects && k.uid == event.item.uid ensures k.NameKey() == event.item.KeyOf().NameKey() {
        HeldIsUnshared(ops, n, k, event.item);
      }
    case Replace(list) => ListedIsFree(ops, n, Brought(ops[n].op));
    case ReplaceStartedAt(list, _) => ListedIsFree(ops, n, Brought(ops[n].op));
    case ReplaceAfterWrites(list) => ListedIsFree(ops, n, Brought(ops[n].op));
    case _ =>
  }
}
