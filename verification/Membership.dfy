/** Which selectors pick a Pod, and which Pods a selector picks: an index lookup, then the exact match. */
module Membership {
  import opened Json
  import opened Objects
  import opened Wrappers
  import H = History
  import Informer
  import Selector
  import V = View

  function LabelsOf(pod: Json): Json { At(At(pod, "metadata"), "labels") }

  /** An object whose selector the labels satisfy. */
  predicate Accepts(o: Item, labels: Json) {
    PodSelector(o.document).Some? && Selector.Matches(PodSelector(o.document).value, labels)
  }

  predicate Picks(o: Item, ns: string, labels: Json) { o.namespace == ns && Accepts(o, labels) }

  // ---------------------------------------------------------------- the lookups

  function Under(objects: map<Key, Item>, i: Index): set<Item> { set k | k in objects && i in objects[k].routes :: objects[k] }

  /** The objects filed under some index a Pod's labels read. */
  ghost predicate Candidates(found: set<Item>, objects: map<Key, Item>, ns: string, labels: Json, read: set<string>) {
    forall o :: o in found <==>
      exists k :: k in objects && objects[k] == o && exists i :: i in o.routes && ReadUnder(i, ns, labels, read)
  }

  predicate ReadUnder(i: Index, ns: string, labels: Json, read: set<string>) {
    i == SelectingFallback(ns) || (i.Selecting? && i.ns == ns && i.labelKey in read && Selector.GetText(labels, i.labelKey) == Some(i.value))
  }

  lemma MoreCandidates(found: set<Item>, objects: map<Key, Item>, ns: string, labels: Json, read: set<string>, name: string)
    requires Candidates(found, objects, ns, labels, read)
    ensures var value := Selector.GetText(labels, name);
            Candidates(found + (if value.Some? then Under(objects, Selecting(ns, name, value.value)) else {}),
                       objects, ns, labels, read + {name})
  {
    hide Under;
    var value := Selector.GetText(labels, name);
    var more := if value.Some? then Under(objects, Selecting(ns, name, value.value)) else {};
    forall o ensures o in found + more <==>
                     exists k :: k in objects && objects[k] == o && exists i :: i in o.routes && ReadUnder(i, ns, labels, read + {name}) {
      UnderMeans(objects, Selecting(ns, name, if value.Some? then value.value else ""), o);
      if k, i :| k in objects && objects[k] == o && i in o.routes && ReadUnder(i, ns, labels, read + {name}) {
        assert ReadUnder(i, ns, labels, read) || (value.Some? && i == Selecting(ns, name, value.value));
      }
      if o in more {
        assert ReadUnder(Selecting(ns, name, value.value), ns, labels, read + {name});
      }
      if k, i :| k in objects && objects[k] == o && i in o.routes && ReadUnder(i, ns, labels, read) {
        assert ReadUnder(i, ns, labels, read + {name});
      }
    }
  }

  lemma UnderMeans(objects: map<Key, Item>, i: Index, o: Item)
    ensures o in Under(objects, i) <==> i in o.routes && exists k :: k in objects && objects[k] == o
  {
  }

  /** The candidates hold every object whose selector picks the Pod. */
  lemma PickedIsCandidate(found: set<Item>, objects: map<Key, Item>, ns: string, labels: Json, read: set<string>, k: Key)
    requires Candidates(found, objects, ns, labels, read) && Described(objects) && k in objects && Picks(objects[k], ns, labels)
    requires forall name | Selector.GetText(labels, name).Some? :: name in read
    ensures objects[k] in found
  {
    var o := objects[k];
    SelectorIsRouted(o.document, labels);
    var i :| i in o.routes && SelectsUnder(i, ns, labels);
    assert ReadUnder(i, ns, labels, read);
  }

  method ReadIndex(store: Informer.Store, i: Index) returns (found: set<Item>)
    requires store.Valid() && store.synced
    ensures found == Under(store.objects, i)
  {
    found := store.Select(i).value;
  }

  /** Everything filed under an index the labels read. */
  method Gather(primary: Informer.Store, ns: string, labels: Json) returns (found: set<Item>, ghost read: set<string>)
    requires primary.Valid() && primary.synced
    ensures Candidates(found, primary.objects, ns, labels, read)
    ensures forall name | Selector.GetText(labels, name).Some? :: name in read
  {
    hide Candidates, Under;
    found := ReadIndex(primary, SelectingFallback(ns));
    var left := if labels.Object? then labels.members.Keys else {};
    read := {};
    FirstCandidates(primary.objects, ns, labels);
    while left != {}
      invariant Candidates(found, primary.objects, ns, labels, read)
      invariant forall name | Selector.GetText(labels, name).Some? :: name in left || name in read
      invariant left <= if labels.Object? then labels.members.Keys else {}
      decreases |left|
    {
      var name :| name in left;
      MoreCandidates(found, primary.objects, ns, labels, read, name);
      var value := labels.members[name];
      assert found + {} == found;
      if value.String? {
        var more := ReadIndex(primary, Selecting(ns, name, value.s));
        found := found + more;
      }
      left, read := left - {name}, read + {name};
    }
  }

  /** The selectors that pick a Pod: read through the index, exactly those that testing every object finds. */
  method PickedBy(primary: Informer.Store, pod: Json) returns (keys: set<Key>)
    requires primary.Valid() && Described(primary.objects)
    ensures keys == if primary.synced then Pickers(primary.objects, NamespaceOf(pod), LabelsOf(pod)) else {}
  {
    if !primary.synced {
      return {};
    }
    hide Candidates, Described, Accepts;
    var found, read := Gather(primary, NamespaceOf(pod), LabelsOf(pod));
    keys := Accepting(found, LabelsOf(pod));
    MembersAre(found, primary.objects, NamespaceOf(pod), LabelsOf(pod), read);
  }

  /** Whose dependents a Pod's change concerns: those that pick it as it was or as it is. */
  method PodMembership(primary: Informer.Store, gone: Option<Json>, come: Option<Json>) returns (keys: set<Key>)
    requires primary.Valid() && Described(primary.objects)
    ensures forall k :: k in keys <==>
      primary.synced && exists pod :: (gone == Some(pod) || come == Some(pod)) && k in Pickers(primary.objects, NamespaceOf(pod), LabelsOf(pod))
  {
    hide Pickers, Described;
    keys := {};
    if gone.Some? {
      keys := PickedBy(primary, gone.value);
    }
    if come.Some? {
      var more := PickedBy(primary, come.value);
      keys := keys + more;
    }
  }

  function NamespaceOf(pod: Json): string { TextOr(At(At(pod, "metadata"), "namespace"), "") }

  /** Testing every object. */
  function Pickers(objects: map<Key, Item>, ns: string, labels: Json): set<Key> {
    set k | k in objects && Picks(objects[k], ns, labels)
  }

  function Accepting(found: set<Item>, labels: Json): set<Key> { set o | o in found && Accepts(o, labels) :: o.KeyOf() }

  lemma FirstCandidates(objects: map<Key, Item>, ns: string, labels: Json)
    ensures Candidates(Under(objects, SelectingFallback(ns)), objects, ns, labels, {})
  {
    forall o ensures o in Under(objects, SelectingFallback(ns)) <==>
                     exists k :: k in objects && objects[k] == o && exists i :: i in o.routes && ReadUnder(i, ns, labels, {}) {
      UnderMeans(objects, SelectingFallback(ns), o);
      assert ReadUnder(SelectingFallback(ns), ns, labels, {});
    }
  }

  /** A candidate is of the Pod's namespace. */
  lemma CandidateIsNear(found: set<Item>, objects: map<Key, Item>, ns: string, labels: Json, read: set<string>, o: Item)
    requires Candidates(found, objects, ns, labels, read) && Described(objects) && V.Keyed(objects) && o in found
    ensures o.KeyOf() in objects && objects[o.KeyOf()] == o && o.namespace == ns
  {
    var j, i :| j in objects && objects[j] == o && i in o.routes && ReadUnder(i, ns, labels, read);
    assert o == Describe(o.document);
    SelectingRoutes(o.document, i);
  }

  lemma MembersAre(found: set<Item>, objects: map<Key, Item>, ns: string, labels: Json, read: set<string>)
    requires Candidates(found, objects, ns, labels, read) && Described(objects) && V.Keyed(objects)
    requires forall name | Selector.GetText(labels, name).Some? :: name in read
    ensures Accepting(found, labels) == Pickers(objects, ns, labels)
  {
    var keys := Accepting(found, labels);
    hide Accepts, Candidates, Described;
    forall k | k in objects && Picks(objects[k], ns, labels) ensures k in keys {
      PickedIsCandidate(found, objects, ns, labels, read, k);
    }
    forall k | k in keys ensures k in objects && Picks(objects[k], ns, labels) {
      var o :| o in found && o.KeyOf() == k && Accepts(o, labels);
      CandidateIsNear(found, objects, ns, labels, read, o);
    }
  }

  // ---------------------------------------------------------------- the lookup the other way round

  /** The Pods a selector picks, by testing every Pod. */
  function Chosen(objects: map<Key, Item>, ns: string, selector: Json): set<Item> {
    set k | k in objects && objects[k].namespace == ns && Selector.Matches(selector, LabelsOf(objects[k].document)) :: objects[k]
  }

  /** Filed under some anchor. */
  predicate IsAnchored(o: Item, anchors: seq<(string, string)>) { exists p :: p in anchors && Label(p.0, p.1) in o.routes }

  /** A Pod is filed under its namespace and under each of its labels. */
  lemma PodIsRouted(o: Item, name: string)
    requires IsDescribed(o)
    ensures Namespace(o.namespace) in o.routes
    ensures var value := Selector.GetText(LabelsOf(o.document), name); value.Some? ==> Label(name, value.value) in o.routes
  {
    hide SelectorRoutes, StorageRoutes, ReferentRoutes, NodeRoutes, OwnerRoutes;
  }

  /** Every Pod a selector with anchors picks is filed under one of them. */
  lemma ChosenIsAnchored(o: Item, selector: Json)
    requires IsDescribed(o) && Selector.Matches(selector, LabelsOf(o.document)) && Selector.Anchors(selector) != []
    ensures IsAnchored(o, Selector.Anchors(selector))
  {
    Selector.AnchorsComplete(selector, LabelsOf(o.document));
    hide Selector.Matches, IsDescribed;
    var p :| p in Selector.Anchors(selector) && Selector.GetText(LabelsOf(o.document), p.0) == Some(p.1);
    PodIsRouted(o, p.0);
  }

  /** Everything filed under one of the anchors. */
  method Anchored(pods: Informer.Store, anchors: seq<(string, string)>) returns (found: set<Item>)
    requires pods.Valid() && pods.synced
    ensures forall o :: o in found <==> (exists k :: k in pods.objects && pods.objects[k] == o) && IsAnchored(o, anchors)
  {
    found := {};
    for n := 0 to |anchors|
      invariant forall o :: o in found <==> (exists k :: k in pods.objects && pods.objects[k] == o) && IsAnchored(o, anchors[..n])
    {
      var i := Label(anchors[n].0, anchors[n].1);
      var more := ReadIndex(pods, i);
      forall o ensures o in more <==> i in o.routes && exists k :: k in pods.objects && pods.objects[k] == o {
        UnderMeans(pods.objects, i, o);
      }
      OneMoreAnchor(anchors, n);
      hide IsAnchored, Under;
      found := found + more;
    }
    assert anchors[..|anchors|] == anchors;
  }

  lemma OneMoreAnchor(anchors: seq<(string, string)>, n: nat)
    requires n < |anchors|
    ensures forall o :: IsAnchored(o, anchors[..n + 1]) <==> IsAnchored(o, anchors[..n]) || Label(anchors[n].0, anchors[n].1) in o.routes
  {
    assert anchors[..n + 1] == anchors[..n] + [anchors[n]];
  }

  lemma ChosenIs(objects: map<Key, Item>, ns: string, selector: Json, found: set<Item>)
    requires forall o | o in found :: exists k :: k in objects && objects[k] == o
    requires forall k | k in objects && objects[k].namespace == ns && Selector.Matches(selector, LabelsOf(objects[k].document)) ::
               objects[k] in found
    ensures (set o | o in found && o.namespace == ns && Selector.Matches(selector, LabelsOf(o.document))) == Chosen(objects, ns, selector)
  {
    hide Selector.Matches;
  }

  /** The Pods a Service or budget selects: read through one clause of its selector, then matched in full. */
  method SelectedPods(doc: Json, pods: Informer.Store) returns (r: Result<set<Item>, V.Error>)
    requires pods.Valid() && Described(pods.objects)
    ensures PodSelector(doc).None? ==> r == Ok({})
    ensures PodSelector(doc).Some? ==>
      r == if pods.synced then Ok(Chosen(pods.objects, NamespaceOf(doc), PodSelector(doc).value)) else Err(V.NotSynced)
  {
    var selector := PodSelector(doc);
    if selector.None? {
      return Ok({});
    }
    if !pods.synced {
      return Err(V.NotSynced);
    }
    var ns := NamespaceOf(doc);
    var anchors := Selector.Anchors(selector.value);
    var found: set<Item>;
    if anchors == [] {
      found := ReadIndex(pods, Namespace(ns));
      forall k | k in pods.objects && pods.objects[k].namespace == ns ensures pods.objects[k] in found {
        PodIsRouted(pods.objects[k], "");
      }
    } else {
      found := Anchored(pods, anchors);
      forall k | k in pods.objects && Selector.Matches(selector.value, LabelsOf(pods.objects[k].document)) ensures pods.objects[k] in found {
        ChosenIsAnchored(pods.objects[k], selector.value);
      }
    }
    var chosen := set o | o in found && o.namespace == ns && Selector.Matches(selector.value, LabelsOf(o.document));
    ChosenIs(pods.objects, ns, selector.value, found);
    return Ok(chosen);
  }

  // ---------------------------------------------------------------- the store files what it is given

  /** Every object an operation brings is described by its document. */
  ghost predicate Brings(op: H.Op) {
    match op
    case Respond(item, _) => IsDescribed(item)
    case Deliver(event) => IsDescribed(event.item)
    case GoUnavailable => true
    case Resume => true
    case _ => op.list.Items? ==> forall o | o in op.list.items :: IsDescribed(o)
  }

  lemma {:induction false} LoadIsDescribed(items: seq<Item>)
    requires forall o | o in items :: IsDescribed(o)
    ensures Described(V.Load(items))
  {
    hide IsDescribed;
    if items != [] {
      LoadIsDescribed(items[..|items| - 1]);
      PutIsDescribed(V.Load(items[..|items| - 1]), items[|items| - 1]);
    }
  }

  lemma PutIsDescribed(objects: map<Key, Item>, o: Item)
    requires Described(objects) && IsDescribed(o)
    ensures Described(V.PutItem(objects, o))
  {
    hide IsDescribed;
  }

  lemma RespondKeepsDescribed(v: V.View, o: Item, started: nat, now: nat)
    requires Described(v.objects) && Described(v.overlays) && IsDescribed(o)
    ensures var w := V.Acknowledge(v, o, started, now); Described(w.objects) && Described(w.overlays)
  {
    hide IsDescribed;
    PutIsDescribed(v.objects, o);
  }

  lemma EffectKeepsDescribed(v: V.View, e: V.Event)
    requires Described(v.objects) && Described(v.overlays) && IsDescribed(e.item)
    ensures var w := V.Effect(v, e); Described(w.objects) && Described(w.overlays)
  {
    hide IsDescribed;
    PutIsDescribed(v.objects, e.item);
  }

  lemma DeliverKeepsDescribed(v: V.View, e: V.Event, now: nat)
    requires Described(v.objects) && Described(v.overlays) && IsDescribed(e.item)
    ensures var w := V.Apply(v, e, now); Described(w.objects) && Described(w.overlays)
  {
    hide IsDescribed;
    if !e.kind.Bookmark? && e.item.HasKey() && e.item.revision.Some? && !V.Overlaid(v, e.item) {
      var w := V.Observe(v, V.Stamp(e.item.uid, e.item.revision.value), now);
      EffectKeepsDescribed(w.(overlays := w.overlays - {e.item.KeyOf()}, ackedAt := w.ackedAt - {e.item.KeyOf()}), e);
    }
  }

  lemma ResetKeepsDescribed(v: V.View, list: V.Listing, now: nat)
    requires Described(v.objects) && Described(v.overlays) && (list.Items? ==> forall o | o in list.items :: IsDescribed(o))
    ensures var w := V.Reset(v, list, now); Described(w.objects) && Described(w.overlays)
  {
    hide IsDescribed;
    if list.Items? {
      LoadIsDescribed(list.items);
    }
  }

  lemma StepKeepsDescribed(v: V.View, t: H.Timed)
    requires Described(v.objects) && Described(v.overlays) && Brings(t.op)
    ensures Described(H.Step(v, t).objects) && Described(H.Step(v, t).overlays)
  {
    hide Described, IsDescribed;
    assert Described(map[]) by { NothingIsDescribed(); }
    match t.op
    case GoUnavailable =>
    case Resume =>
    case Respond(item, started) => RespondKeepsDescribed(v, item, started, t.now);
    case Deliver(event) => DeliverKeepsDescribed(v, event, t.now);
    case Replace(list) => ResetKeepsDescribed(v, list, t.now);
    case ReplaceStartedAt(list, started) =>
      DroppedIsDescribed(v, started);
      ResetKeepsDescribed(V.DropBefore(v, started), list, t.now);
    case ReplaceAfterWrites(list) => ResetKeepsDescribed(v.(overlays := map[], ackedAt := map[]), list, t.now);
  }

  lemma NothingIsDescribed()
    ensures Described(map[])
  {
  }

  lemma DroppedIsDescribed(v: V.View, started: nat)
    requires Described(v.overlays)
    ensures Described(V.DropBefore(v, started).overlays)
  {
    hide IsDescribed;
  }

  /** Over any run, the objects of a store that is given described objects stay described. */
  lemma {:induction false} RunKeepsDescribed(ops: seq<H.Timed>)
    requires forall i | 0 <= i < |ops| :: Brings(ops[i].op)
    ensures Described(H.RunFrom(V.EMPTY, ops).objects) && Described(H.RunFrom(V.EMPTY, ops).overlays)
  {
    assert Described(map[]);
    if ops != [] {
      hide Described, Brings;
      RunKeepsDescribed(ops[..|ops| - 1]);
      StepKeepsDescribed(H.RunFrom(V.EMPTY, ops[..|ops| - 1]), ops[|ops| - 1]);
    }
  }
}
