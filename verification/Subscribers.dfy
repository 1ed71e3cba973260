/** What the subscribers of a feed miss: an event the loop takes for bookkeeping, though the store changes more. */
module Subscribers {
  import opened Json
  import opened Objects
  import opened Semantics
  import opened View
  import opened Wrappers
  import Informers
  import Observed
  import R = Reflector

  /** The changes are of described objects in plain namespaces, with revisions, and a deletion is of its name's one object. */
  ghost predicate Tidy(h: seq<R.Commit>) {
    && (forall i | 0 <= i < |h| :: IsDescribed(h[i].item) && Observed.Plain(h[i].item) && Observed.HasRevision(h[i].item))
    && forall i, k | 0 <= i < |h| && h[i].deleted && k in R.ServerAt(h, i) && k.NameKey() == h[i].item.KeyOf().NameKey() ::
         k == h[i].item.KeyOf()
  }

  lemma {:induction false} ServerIsTidy(h: seq<R.Commit>, n: nat)
    requires Tidy(h) && n <= |h|
    ensures Described(R.ServerAt(h, n)) && Observed.AllPlain(R.ServerAt(h, n))
  {
    hide IsDescribed, Observed.Plain, R.Follow;
    if n > 0 {
      ServerIsTidy(h, n - 1);
      FollowIsTidy(R.ServerAt(h, n - 1), h[n - 1]);
    }
  }

  lemma FollowIsTidy(m: map<Key, Item>, c: R.Commit)
    requires Described(m) && Observed.AllPlain(m) && IsDescribed(c.item) && Observed.Plain(c.item)
    ensures Described(R.Follow(m, c)) && Observed.AllPlain(R.Follow(m, c))
  {
    Observed.PutIsPlain(m, c.item);
    hide IsDescribed, Observed.Plain;
  }

  lemma FollowIsObserved(mirror: map<string, Json>, server: map<Key, Item>, c: R.Commit)
    requires Observed.Observes(mirror, server) && Observed.AllPlain(server) && Observed.Plain(c.item)
    requires c.deleted ==> forall k | k in server && k.NameKey() == c.item.KeyOf().NameKey() :: k == c.item.KeyOf()
    ensures Observed.Observes(Observed.After(mirror, c.deleted, c.item), R.Follow(server, c))
  {
    hide Observed.Plain, Observed.Observes, Observed.After, Observed.AllPlain;
    if c.deleted {
      Observed.RemovalIsObserved(mirror, server, c.item);
    } else {
      Observed.PutIsObserved(mirror, server, c.item);
    }
  }

  /** An acknowledged write holds the name for another object. */
  ghost predicate Rivalled(v: View, key: Key) { exists k :: k in v.overlays && k.NameKey() == key.NameKey() && k != key }

  /** The acknowledged write whose event this is is what the event says. */
  lemma ConfirmedIsShown(s: R.System, n: nat)
    requires R.Good(s) && n < |s.history| && s.history[n].item.KeyOf() in s.view.overlays && !Overlaid(s.view, s.history[n].item)
    ensures s.view.overlays[s.history[n].item.KeyOf()] == s.history[n].item
  {
    hide R.Reflects, R.Remembers;
    var key := s.history[n].item.KeyOf();
    var j: nat :| R.Origin(s, key, j);
    assert Inv(s.view) by { InvHolds(s); }
    OverlaysAreKeyed(s.view);
    SameStamp(s, j, n);
  }

  lemma InvHolds(s: R.System)
    requires R.Good(s)
    ensures Inv(s.view)
  {
  }

  lemma SameStamp(s: R.System, j: nat, n: nat)
    requires R.WellFormed(s) && j < |s.history| && n < |s.history|
    requires s.history[j].item.KeyOf() == s.history[n].item.KeyOf() && s.history[j].item.revision == s.history[n].item.revision
    ensures j == n
  {
    assert s.history[j].StampOf() == s.history[n].StampOf();
  }

  lemma PutAgain(m: map<Key, Item>, o: Item)
    requires UniqueNames(m) && o.KeyOf() in m && Informers.Means(m[o.KeyOf()], o)
    ensures Informers.Alike(m, PutItem(m, o))
  {
    hide Informers.Means;
    forall k ensures Informers.AlikeAt(Lookup(m, k), Lookup(PutItem(m, o), k)) {
      if k != o.KeyOf() {
        assert Lookup(m, k) == Lookup(PutItem(m, o), k);
        Informers.AlikeItself(Lookup(m, k));
      }
    }
  }

  lemma PutOverRival(m: map<Key, Item>, o: Item, k: Key)
    requires k in m && k.NameKey() == o.KeyOf().NameKey() && k != o.KeyOf()
    ensures !Informers.Alike(m, PutItem(m, o))
  {
    assert !Informers.AlikeAt(Lookup(m, k), Lookup(PutItem(m, o), k));
  }

  /** What an event about a live object does to the objects. */
  lemma EventPuts(v: View, e: Event, now: nat)
    requires e.item.HasKey() && e.item.revision.Some? && (e.kind.Added? || e.kind.Modified?)
    ensures Apply(v, e, now).objects == if Overlaid(v, e.item) then v.objects else PutItem(v.objects, e.item)
  {
  }

  /**
   * An event the loop says is no different: exactly if an acknowledged write holds its name for another
   * object does the store change more than bookkeeping, and the subscribers are not called.
   */
  lemma MissedIff(s: R.System, step: R.Step, mirror: map<string, Json>)
    requires R.Good(s) && step.Deliver? && R.Enabled(s, step) && s.delivered < |s.history| && Tidy(s.history)
    requires Observed.Observes(mirror, R.ServerAt(s.history, s.delivered))
    requires !Observed.Differs(mirror, s.history[s.delivered].deleted, s.history[s.delivered].item)
    ensures !Informers.Alike(s.view.objects, R.Next(s, step).view.objects) <==> Rivalled(s.view, s.history[s.delivered].item.KeyOf())
  {
    var c, base := s.history[s.delivered], R.ServerAt(s.history, s.delivered);
    ServerIsTidy(s.history, s.delivered);
    Observed.SaidSame(mirror, base, c.item);
    R.DeliverNext(s, step);
    EventPuts(s.view, Event(step.kind, c.item), s.clock);
    OverlaysAreKeyed(s.view);
    if c.item.KeyOf() in s.view.overlays && !Overlaid(s.view, c.item) {
      ConfirmedIsShown(s, s.delivered);
    }
    hide R.Next, R.Enabled, Semantic, R.Committed, R.Remembers, Tidy, R.ServerAt, Informers.Alike, Apply;
    EventIsSeen(s.view, base, c.item);
  }

  lemma EventIsSeen(v: View, base: map<Key, Item>, o: Item)
    requires Inv(v) && v.objects == Override(base, v.overlays)
    requires o.KeyOf() in base && Informers.Means(base[o.KeyOf()], o)
    requires o.KeyOf() in v.overlays && !Overlaid(v, o) ==> v.overlays[o.KeyOf()] == o
    ensures !Informers.Alike(v.objects, if Overlaid(v, o) then v.objects else PutItem(v.objects, o)) <==> Rivalled(v, o.KeyOf())
  {
    hide Informers.Means;
    var key := o.KeyOf();
    if key in v.overlays {
      assert !Rivalled(v, key);
      if Overlaid(v, o) {
        Informers.QuietIsRight(v.objects);
      } else {
        assert Informers.Means(o, o) by { MeansItself(o); }
        PutAgain(v.objects, o);
      }
    } else if Rivalled(v, key) {
      var k :| k in v.overlays && k.NameKey() == key.NameKey() && k != key;
      PutOverRival(v.objects, o, k);
    } else {
      assert !NameIn(v.overlays, key.NameKey());
      assert v.objects[key] == base[key];
      PutAgain(v.objects, o);
    }
  }

  lemma MeansItself(o: Item)
    ensures Informers.Means(o, o)
  {
  }

  // ---------------------------------------------------------------- over whole runs

  /** The event that is taken for bookkeeping and is not. */
  ghost predicate Misses(s: R.System, step: R.Step, mirror: map<string, Json>)
    requires R.Enabled(s, step)
  {
    && step.Deliver? && s.delivered < |s.history|
    && !Observed.Differs(mirror, s.history[s.delivered].deleted, s.history[s.delivered].item)
    && Rivalled(s.view, s.history[s.delivered].item.KeyOf())
  }

  /** How the loop's mirror moves: a list replaces it, a delivered event enters it; between lists it matters only while watching. */
  ghost predicate Mirrors(s: R.System, step: R.Step, mirror: map<string, Json>, next: map<string, Json>)
    requires R.Enabled(s, step)
  {
    match step
    case FinishList(_, items) => next == Observed.Loaded(items)
    case Deliver(_) =>
      s.delivered < |s.history| && next == Observed.After(mirror, s.history[s.delivered].deleted, s.history[s.delivered].item)
    case RejectList(_) => true
    case RejectEvent(_) => true
    case _ => next == mirror
  }

  /** What the subscribers are told of a step: what the feed's two methods promise. */
  ghost predicate Hears(s: R.System, step: R.Step, mirror: map<string, Json>, notice: Informers.Notice)
    requires R.Enabled(s, step)
  {
    var v, w := s.view, R.Next(s, step).view;
    match step
    case FinishList(_, items) => Informers.Informs(notice, v, Informers.Snapshot(Items(items), s.listing.value.started), w)
    case RejectList(list) => Informers.Informs(notice, v, Informers.Snapshot(list, s.listing.value.started), w)
    case Reconnect => Informers.Informs(notice, v, Informers.Connected, w)
    case Deliver(kind) =>
      s.delivered < |s.history| &&
      var c := s.history[s.delivered];
      Informers.Informs(notice, v, Informers.Applied(Event(kind, c.item), Observed.Differs(mirror, c.deleted, c.item)), w)
    case DeliverBookmark(item) => Informers.Informs(notice, v, Informers.Applied(Event(Bookmark, item), false), w)
    case RejectEvent(event) => exists semantic :: Informers.Informs(notice, v, Informers.Applied(event, semantic), w)
    case LoseConnection => Informers.Informs(notice, v, Informers.Lost, w)
    case Respond(_, _) => Informers.InformsOfWrite(notice, v.objects, w.objects)
    case RespondMalformed(_, _) => Informers.InformsOfWrite(notice, v.objects, w.objects)
    case _ => notice.Quiet?
  }

  /** A run with the loop's mirror, the notices, and a subscriber's copy that replays them. */
  ghost predicate Attended(
    states: seq<R.System>, steps: seq<R.Step>, mirrors: seq<map<string, Json>>, notices: seq<Informers.Notice>, copies: seq<map<Key, Item>>)
  {
    && R.Behavior(states, steps) && |mirrors| == |copies| == |states| && |notices| == |steps| && copies[0] == map[]
    && (forall i | 0 <= i < |states| :: Tidy(states[i].history))
    && (forall i | 0 <= i < |steps| && steps[i].FinishList? :: forall o | o in steps[i].items :: Observed.Plain(o))
    && (forall i | 0 <= i < |steps| :: Mirrors(states[i], steps[i], mirrors[i], mirrors[i + 1]))
    && (forall i | 0 <= i < |steps| :: Hears(states[i], steps[i], mirrors[i], notices[i]))
    && (forall i | 0 <= i < |steps| :: copies[i + 1] == Informers.Hear(copies[i], notices[i]))
  }

  lemma ViewIsDescribed(s: R.System)
    requires R.Good(s) && Tidy(s.history)
    ensures Described(s.view.objects)
  {
    ServerIsTidy(s.history, s.delivered);
    hide IsDescribed, R.ServerAt, Observed.AllPlain;
    forall k | k in s.view.overlays ensures IsDescribed(s.view.overlays[k]) {
      var j: nat :| R.Origin(s, k, j);
    }
  }

  /** While watching, the mirror is of the server's objects at the last delivered change. */
  ghost predicate Watches(s: R.System, mirror: map<string, Json>)
    requires s.delivered <= |s.history|
  {
    s.position.Some? ==> Observed.Observes(mirror, R.ServerAt(s.history, s.delivered))
  }

  lemma StepWatches(s: R.System, step: R.Step, mirror: map<string, Json>, next: map<string, Json>)
    requires R.Good(s) && R.Enabled(s, step) && Tidy(s.history) && Mirrors(s, step, mirror, next) && Watches(s, mirror)
    requires step.FinishList? ==> forall o | o in step.items :: Observed.Plain(o)
    ensures var t := R.Next(s, step); t.delivered <= |t.history| && Watches(t, next)
  {
    hide Observed.Observes, R.ServerAt, R.Reflects, R.Committed, R.Remembers, R.Follow, Observed.After, Observed.Plain, Tidy;
    match step
    case Write(deleted, item) => R.ServerAtPrefix(s.history, R.Commit(deleted, item, s.clock), s.delivered);
    case FinishList(n, items) => Observed.LoadedObserves(items);
    case Deliver(_) =>
      R.DeliverNext(s, step);
      DeliverIsObserved(s, mirror);
    case _ =>
  }

  lemma DeliverIsObserved(s: R.System, mirror: map<string, Json>)
    requires s.delivered < |s.history| && Tidy(s.history) && Observed.Observes(mirror, R.ServerAt(s.history, s.delivered))
    ensures var c := s.history[s.delivered];
            Observed.Observes(Observed.After(mirror, c.deleted, c.item), R.ServerAt(s.history, s.delivered + 1))
  {
    hide Observed.Observes, R.Follow, Observed.After, IsDescribed, Observed.Plain, Observed.AllPlain;
    ServerIsTidy(s.history, s.delivered);
    FollowIsObserved(mirror, R.ServerAt(s.history, s.delivered), s.history[s.delivered]);
  }

  lemma {:induction false} RunWatches(
    states: seq<R.System>, steps: seq<R.Step>, mirrors: seq<map<string, Json>>, notices: seq<Informers.Notice>,
    copies: seq<map<Key, Item>>, n: nat)
    requires Attended(states, steps, mirrors, notices, copies) && n < |states|
    ensures R.Good(states[n]) && Watches(states[n], mirrors[n])
  {
    hide R.Good, Mirrors, Hears, Tidy, Watches, Observed.Plain;
    R.BehaviorIsGood(states, steps, n);
    if n > 0 {
      RunWatches(states, steps, mirrors, notices, copies, n - 1);
      StepWatches(states[n - 1], steps[n - 1], mirrors[n - 1], mirrors[n]);
    } else {
      StartWatches(states[0], mirrors[0]);
    }
  }

  lemma StartWatches(s: R.System, mirror: map<string, Json>)
    requires s == R.START
    ensures Watches(s, mirror)
  {
  }

  lemma HearsNothing(copy: map<Key, Item>, before: map<Key, Item>, after: map<Key, Item>)
    requires Informers.Alike(copy, before)
    ensures Informers.Hear(copy, Informers.Quiet) == copy
    ensures Informers.Alike(copy, after) <==> Informers.Alike(before, after)
  {
    AlikeBack(copy, before);
    if Informers.Alike(before, after) {
      Informers.AlikeTwice(copy, before, after);
    }
    if Informers.Alike(copy, after) {
      Informers.AlikeTwice(before, copy, after);
    }
  }

  lemma AlikeBack(a: map<Key, Item>, b: map<Key, Item>)
    requires Informers.Alike(a, b)
    ensures Informers.Alike(b, a)
  {
    forall k ensures Informers.AlikeAt(Lookup(b, k), Lookup(a, k)) {
      assert Informers.AlikeAt(Lookup(a, k), Lookup(b, k));
    }
  }

  lemma DeliverFollowsIff(s: R.System, step: R.Step, mirror: map<string, Json>, notice: Informers.Notice, copy: map<Key, Item>)
    requires R.Good(s) && R.Enabled(s, step) && Tidy(s.history) && step.Deliver?
    requires Watches(s, mirror) && Hears(s, step, mirror, notice) && Informers.Alike(copy, s.view.objects)
    ensures Informers.Alike(Informers.Hear(copy, notice), R.Next(s, step).view.objects) <==> !Misses(s, step, mirror)
  {
    hide R.Good, R.Next, Tidy, Informers.Alike, Informers.Hear, Observed.Differs, Observed.Observes, Rivalled;
    assert s.position.Some?;
    var c, t := s.history[s.delivered], R.Next(s, step);
    if !Observed.Differs(mirror, c.deleted, c.item) {
      MissedIff(s, step, mirror);
      HearsNothing(copy, s.view.objects, t.view.objects);
    }
  }

  /** The steps that neither deliver an event nor change objects but through the feed. */
  lemma OtherFollows(s: R.System, step: R.Step, mirror: map<string, Json>, notice: Informers.Notice, copy: map<Key, Item>)
    requires R.Good(s) && R.Enabled(s, step) && !step.Deliver?
    requires Hears(s, step, mirror, notice) && Informers.Alike(copy, s.view.objects)
    ensures Informers.Alike(Informers.Hear(copy, notice), R.Next(s, step).view.objects)
  {
    hide R.Good, Informers.Alike, Informers.Hear, Observed.Differs, R.Next, R.Enabled;
    HearsNothing(copy, s.view.objects, R.Next(s, step).view.objects);
    if !step.FinishList? && !step.RejectList? && !step.Respond? && !step.RespondMalformed? {
      OtherKeepsObjects(s, step);
      Informers.QuietIsRight(s.view.objects);
    }
  }

  lemma OtherKeepsObjects(s: R.System, step: R.Step)
    requires R.Enabled(s, step) && !step.Deliver?
    requires !step.FinishList? && !step.RejectList? && !step.Respond? && !step.RespondMalformed?
    ensures R.Next(s, step).view.objects == s.view.objects
  {
  }

  /** One step: an up-to-date copy stays so exactly if the step does not miss anything. */
  lemma StepFollowsIff(s: R.System, step: R.Step, mirror: map<string, Json>, notice: Informers.Notice, copy: map<Key, Item>)
    requires R.Good(s) && R.Enabled(s, step) && Tidy(s.history) && Tidy(R.Next(s, step).history)
    requires Watches(s, mirror) && Hears(s, step, mirror, notice) && Informers.Alike(copy, s.view.objects)
    ensures Informers.Alike(Informers.Hear(copy, notice), R.Next(s, step).view.objects) <==> !Misses(s, step, mirror)
  {
    var t := R.Next(s, step);
    R.StepKeepsGood(s, step);
    ViewIsDescribed(s);
    ViewIsDescribed(t);
    if step.Deliver? {
      DeliverFollowsIff(s, step, mirror, notice, copy);
    } else {
      OtherFollows(s, step, mirror, notice, copy);
    }
  }

  lemma StepAttended(
    states: seq<R.System>, steps: seq<R.Step>, mirrors: seq<map<string, Json>>, notices: seq<Informers.Notice>,
    copies: seq<map<Key, Item>>, i: nat)
    requires Attended(states, steps, mirrors, notices, copies) && i < |steps|
    ensures Informers.Alike(copies[i], states[i].view.objects) ==>
            (Informers.Alike(copies[i + 1], states[i + 1].view.objects) <==> !Misses(states[i], steps[i], mirrors[i]))
  {
    hide R.Good, Mirrors, Hears, Tidy, Watches, Observed.Plain, Misses, Informers.Alike, Informers.Hear, R.Enabled, R.Next;
    RunWatches(states, steps, mirrors, notices, copies, i);
    if Informers.Alike(copies[i], states[i].view.objects) {
      assert Tidy(states[i + 1].history);
      StepFollowsIff(states[i], steps[i], mirrors[i], notices[i], copies[i]);
    }
  }

  lemma {:induction false} CopiesFollow(
    states: seq<R.System>, steps: seq<R.Step>, mirrors: seq<map<string, Json>>, notices: seq<Informers.Notice>,
    copies: seq<map<Key, Item>>, n: nat)
    requires Attended(states, steps, mirrors, notices, copies) && n < |states|
    requires forall i | 0 <= i < |steps| :: !Misses(states[i], steps[i], mirrors[i])
    ensures Informers.Alike(copies[n], states[n].view.objects)
  {
    hide Misses, Informers.Alike, R.Enabled, R.Next, Mirrors, Hears, Tidy, Observed.Plain;
    if n > 0 {
      CopiesFollow(states, steps, mirrors, notices, copies, n - 1);
      StepAttended(states, steps, mirrors, notices, copies, n - 1);
    } else {
      Informers.QuietIsRight(map[]);
    }
  }

  /**
   * Over every run: a subscriber that replays what it is told has the store's objects up to bookkeeping
   * in every state, if and only if no event taken for bookkeeping meets a rival's acknowledged write.
   */
  lemma {:induction false} CopiesFollowIff(
    states: seq<R.System>, steps: seq<R.Step>, mirrors: seq<map<string, Json>>, notices: seq<Informers.Notice>,
    copies: seq<map<Key, Item>>)
    requires Attended(states, steps, mirrors, notices, copies)
    ensures (forall n | 0 <= n < |states| :: Informers.Alike(copies[n], states[n].view.objects)) <==>
            (forall i | 0 <= i < |steps| :: !Misses(states[i], steps[i], mirrors[i]))
  {
    hide Misses, Informers.Alike, R.Enabled, R.Next, Mirrors, Hears, Tidy, Observed.Plain;
    if forall i | 0 <= i < |steps| :: !Misses(states[i], steps[i], mirrors[i]) {
      forall n | 0 <= n < |states| ensures Informers.Alike(copies[n], states[n].view.objects) {
        CopiesFollow(states, steps, mirrors, notices, copies, n);
      }
    } else if forall n | 0 <= n < |states| :: Informers.Alike(copies[n], states[n].view.objects) {
      forall i | 0 <= i < |steps| ensures !Misses(states[i], steps[i], mirrors[i]) {
        StepAttended(states, steps, mirrors, notices, copies, i);
        assert Informers.Alike(copies[i + 1], states[i + 1].view.objects);
      }
    }
  }

  // ---------------------------------------------------------------- a run that misses something

  /** A pod of one name by its uid and revision, and nothing else. */
  function Doc(uid: string, revision: string): Json {
    Object(map["metadata" := Object(map["name" := String("pod"), "uid" := String(uid), "resourceVersion" := String(revision)])])
  }

  function Pod(uid: string, revision: string): Item { Describe(Doc(uid, revision)) }

  lemma PodIs(uid: string, revision: string)
    ensures var o := Pod(uid, revision);
            && IsDescribed(o) && Observed.Plain(o) && o.KeyOf() == Key("", "pod", uid)
            && o.revision == Some(revision) && o.uid == uid && o.document == Doc(uid, revision)
  {
    hide Routes;
  }

  /** Only the revision differs. */
  lemma PodMeans(uid: string, a: string, b: string)
    ensures Semantic(Doc(uid, a)) == Semantic(Doc(uid, b))
  {
    var meta := map["name" := String("pod"), "uid" := String(uid)];
    assert forall r :: map["name" := String("pod"), "uid" := String(uid), "resourceVersion" := String(r)] - TRANSPORT == meta;
    assert Stripped(Doc(uid, a)) == Object(map["metadata" := Object(meta)]) == Stripped(Doc(uid, b));
  }

  /** One object, listed or acknowledged. */
  function Shown(o: Item, over: bool, seen: seq<Stamp>): View {
    var key := o.KeyOf();
    View(true, true, map[key := o], if over then map[key := o] else map[], if over then map[key := 0] else map[], seen, None)
  }

  function StampOf(o: Item): Stamp { Stamp(o.uid, if o.revision.Some? then o.revision.value else "") }

  predicate Proper(o: Item) { o.HasKey() && o.revision.Some? }

  lemma ListShows(a: Item)
    requires Proper(a)
    ensures Load([a]) == map[a.KeyOf() := a]
    ensures Informers.Received(EMPTY, Informers.Snapshot(Items([a]), 0), 0) == Shown(a, false, [StampOf(a)])
  {
    assert [a][..0] == [];
    assert Load([]) == map[] && Stamps([]) == [];
    R.SnapshotOverlays(EMPTY, [a], 0, 0);
    assert forall name :: !NameIn(map[], name);
  }

  lemma ResponseShows(a: Item, x: Item)
    requires Proper(a) && Proper(x) && a.KeyOf().NameKey() == x.KeyOf().NameKey() && StampOf(a) != StampOf(x)
    ensures Informers.Responded(Shown(a, false, [StampOf(a)]), x, 0, 0) == Shown(x, true, [StampOf(a)])
  {
    var v := Shown(a, false, [StampOf(a)]);
    assert PutItem(v.objects, x) == map[x.KeyOf() := x];
    assert WithoutRivals(v.overlays, x.KeyOf()) == map[] && WithoutRivals(v.ackedAt, x.KeyOf()) == map[];
  }

  lemma EventShows(a: Item, x: Item, b: Item)
    requires Proper(b) && b.KeyOf().NameKey() == x.KeyOf().NameKey() && b.KeyOf() != x.KeyOf()
    ensures Apply(Shown(x, true, [StampOf(a)]), Event(Modified, b), 0) == Shown(b, false, [StampOf(a), StampOf(b)])
  {
    var v, key := Shown(x, true, [StampOf(a)]), b.KeyOf();
    assert v.seen + [StampOf(b)] == [StampOf(a), StampOf(b)];
    assert PutItem(v.objects, b) == map[key := b];
    assert v.overlays - {key} == v.overlays && v.ackedAt - {key} == v.ackedAt;
    assert WithoutRivals(v.overlays, key) == map[] && WithoutRivals(v.ackedAt, key) == map[];
  }

  lemma FirstIsServed(h: seq<R.Commit>)
    requires |h| >= 1 && !h[0].deleted
    ensures R.ServerAt(h, 1) == map[h[0].item.KeyOf() := h[0].item]
  {
    assert R.ServerAt(h, 0) == map[];
  }

  /** A list of one object takes an update of its revision for bookkeeping. */
  lemma UpdateIsBookkeeping(a: Item, b: Item)
    requires Proper(a) && Observed.Plain(a)
    requires Observed.Identity(a) == Observed.Identity(b) && Semantic(a.document) == Semantic(b.document)
    ensures Observed.Observes(Observed.Loaded([a]), map[a.KeyOf() := a]) && !Observed.Differs(Observed.Loaded([a]), false, b)
  {
    ListShows(a);
    Observed.LoadedObserves([a]);
    assert [a][..0] == [];
    assert Observed.Loaded([]) == map[];
    hide Semantic;
  }

  lemma RivalsAreNotAlike(x: Item, b: Item)
    requires x.KeyOf() != b.KeyOf()
    ensures !Informers.Alike(Shown(x, true, []).objects, Shown(b, false, []).objects)
  {
    assert !Informers.AlikeAt(Lookup(map[x.KeyOf() := x], x.KeyOf()), Lookup(map[b.KeyOf() := b], x.KeyOf()));
  }

  /** An object, an update of its revision only, its deletion, and another object of its name. */
  datatype Cast = Cast(first: Item, updated: Item, deleted: Item, replaced: Item) {
    ghost predicate Valid() {
      && Proper(first) && Proper(updated) && Proper(deleted) && Proper(replaced)
      && first.KeyOf() == updated.KeyOf() == deleted.KeyOf() && first.KeyOf().NameKey() == replaced.KeyOf().NameKey()
      && first.KeyOf() != replaced.KeyOf()
      && StampOf(first) != StampOf(updated) && StampOf(first) != StampOf(deleted) && StampOf(updated) != StampOf(deleted)
      && Observed.Plain(first) && Semantic(first.document) == Semantic(updated.document)
    }

    function History(): seq<R.Commit> {
      [R.Commit(false, first, 0), R.Commit(false, updated, 0), R.Commit(true, deleted, 0), R.Commit(false, replaced, 0)]
    }
  }

  /** For any two uids there is such a cast. */
  lemma PodsAreCast(u: string, v: string)
    requires u != v && u != "" && v != ""
    ensures Cast(Pod(u, "1"), Pod(u, "2"), Pod(u, "3"), Pod(v, "4")).Valid()
  {
    PodIs(u, "1");
    PodIs(u, "2");
    PodIs(u, "3");
    PodIs(v, "4");
    PodMeans(u, "1", "2");
    hide Pod, Doc, Semantic;
  }

  /** After `n` writes the first of which is listed, with a view. */
  function Watching(c: Cast, n: nat, view: View, position: nat): R.System
    requires n <= 4
  {
    R.System(c.History()[..n], 0, view, Some(position), None, position, 1)
  }

  /** The first pod is listed; it is updated, deleted and replaced, and only the last write is acknowledged. */
  function Stage(c: Cast, i: nat): R.System
    requires i < 9
  {
    match i
    case 0 => R.START
    case 1 => R.START.(history := c.History()[..1])
    case 2 => R.START.(history := c.History()[..1], listing := Some(R.Request(0, 1)))
    case 3 => Watching(c, 1, Shown(c.first, false, [StampOf(c.first)]), 1)
    case 4 => Watching(c, 2, Shown(c.first, false, [StampOf(c.first)]), 1)
    case 5 => Watching(c, 3, Shown(c.first, false, [StampOf(c.first)]), 1)
    case 6 => Watching(c, 4, Shown(c.first, false, [StampOf(c.first)]), 1)
    case 7 => Watching(c, 4, Shown(c.replaced, true, [StampOf(c.first)]), 1)
    case _ => Watching(c, 4, Shown(c.updated, false, [StampOf(c.first), StampOf(c.updated)]), 2)
  }

  function StepOf(c: Cast, i: nat): R.Step {
    match i
    case 0 => R.Write(false, c.first)
    case 1 => R.StartList
    case 2 => R.FinishList(1, [c.first])
    case 3 => R.Write(false, c.updated)
    case 4 => R.Write(true, c.deleted)
    case 5 => R.Write(false, c.replaced)
    case 6 => R.Respond(3, 0)
    case _ => R.Deliver(Modified)
  }

  lemma WritesFollow(c: Cast, i: nat)
    requires c.Valid() && i in {0, 3, 4, 5}
    ensures R.Enabled(Stage(c, i), StepOf(c, i)) && Stage(c, i + 1) == R.Next(Stage(c, i), StepOf(c, i))
  {
    hide Shown, Semantic;
  }

  lemma ListFollows(c: Cast)
    requires c.Valid()
    ensures R.Enabled(Stage(c, 1), StepOf(c, 1)) && Stage(c, 2) == R.Next(Stage(c, 1), StepOf(c, 1))
    ensures R.Enabled(Stage(c, 2), StepOf(c, 2)) && Stage(c, 3) == R.Next(Stage(c, 2), StepOf(c, 2))
  {
    ListShows(c.first);
    hide Shown, Semantic, Load;
    assert R.ServerAt(Stage(c, 2).history, 0) == map[];
    assert R.ServerAt(Stage(c, 2).history, 1) == map[c.first.KeyOf() := c.first];
  }

  lemma ResponseFollows(c: Cast)
    requires c.Valid()
    ensures R.Enabled(Stage(c, 6), StepOf(c, 6)) && Stage(c, 7) == R.Next(Stage(c, 6), StepOf(c, 6))
  {
    ResponseShows(c.first, c.replaced);
    hide Shown, Semantic, Informers.Responded;
  }

  lemma EventFollows(c: Cast)
    requires c.Valid()
    ensures R.Enabled(Stage(c, 7), StepOf(c, 7)) && Stage(c, 8) == R.Next(Stage(c, 7), StepOf(c, 7))
  {
    EventShows(c.first, c.replaced, c.updated);
    hide Shown, Semantic, Apply;
  }

  lemma StageFollows(c: Cast, i: nat)
    requires c.Valid() && i < 8
    ensures R.Enabled(Stage(c, i), StepOf(c, i)) && Stage(c, i + 1) == R.Next(Stage(c, i), StepOf(c, i))
  {
    hide Stage, StepOf, R.Enabled, R.Next;
    if i in {0, 3, 4, 5} {
      WritesFollow(c, i);
    }
    ListFollows(c);
    ResponseFollows(c);
    EventFollows(c);
  }

  lemma StageMisses(c: Cast)
    requires c.Valid()
    ensures var s := Stage(c, 7);
            && s.history == c.History() && s.delivered == 1
            && !Informers.Alike(s.view.objects, Stage(c, 8).view.objects)
    ensures Observed.Observes(Observed.Loaded([c.first]), R.ServerAt(c.History(), 1))
    ensures !Observed.Differs(Observed.Loaded([c.first]), c.History()[1].deleted, c.History()[1].item)
  {
    UpdateIsBookkeeping(c.first, c.updated);
    FirstIsServed(c.History());
    RivalsAreNotAlike(c.replaced, c.updated);
    hide Semantic, Informers.Alike, Observed.Observes, Observed.Differs;
  }

  /**
   * A pod is listed, updated in its revision only, deleted and replaced; the replacement is acknowledged
   * before the update's event: the event puts the old pod back, and the subscribers are not called.
   */
  lemma MissedRun(c: Cast) returns (states: seq<R.System>, steps: seq<R.Step>, mirror: map<string, Json>)
    requires c.Valid()
    ensures R.Behavior(states, steps) && |steps| == 8
    ensures var s := states[7];
            && s.delivered < |s.history| && Observed.Observes(mirror, R.ServerAt(s.history, s.delivered))
            && !Observed.Differs(mirror, s.history[s.delivered].deleted, s.history[s.delivered].item)
            && !Informers.Alike(s.view.objects, states[8].view.objects)
  {
    assert Stage(c, 0) == R.START;
    hide Stage, StepOf, Semantic;
    StageMisses(c);
    mirror := Observed.Loaded([c.first]);
    steps := seq(8, i requires 0 <= i < 8 => StepOf(c, i));
    states := seq(9, i requires 0 <= i < 9 => Stage(c, i));
    forall i | 0 <= i < 8 ensures R.Enabled(states[i], steps[i]) && states[i + 1] == R.Next(states[i], steps[i]) {
      StageFollows(c, i);
    }
  }
}
