/** Documents without their bookkeeping: what is left when a revision or a time of report is all that changed. */
module Semantics {
  import opened Json
  import opened Objects
  import opened Wrappers
  import Selector

  /** Condition timestamps say when a transition was reported, not that there was one. */
  const TIMES := {"lastTransitionTime", "lastUpdateTime", "lastHeartbeatTime"}

  const TRANSPORT := {"resourceVersion", "managedFields"}

  /** Without transport fields in the metadata, and at every depth without the times of conditions. */
  function Semantic(v: Json): Json { Timeless(Stripped(v)) }

  function Stripped(v: Json): Json {
    if v.Object? && "metadata" in v.members && v.members["metadata"].Object? then
      Object(v.members["metadata" := Object(v.members["metadata"].members - TRANSPORT)])
    else v
  }

  function Timeless(v: Json): Json
    decreases v, 1
  {
    match v
    case Object(members) => Object(TimelessMembers(members, v))
    case Array(items) => Array(seq(|items|, i requires 0 <= i < |items| => Timeless(items[i])))
    case _ => v
  }

  function TimelessMembers(members: map<string, Json>, ghost root: Json): map<string, Json>
    requires forall k | k in members :: members[k] < root
    decreases root, 0
  {
    map k | k in members :: if k == "conditions" then TimelessConditions(members[k]) else Timeless(members[k])
  }

  function TimelessConditions(v: Json): Json
    decreases v, 2
  {
    if v.Array? then Array(seq(|v.items|, i requires 0 <= i < |v.items| => TimelessCondition(v.items[i]))) else Timeless(v)
  }

  function TimelessCondition(v: Json): Json
    decreases v, 2
  {
    if v.Object? then Object(TimelessMembers(v.members - TIMES, v)) else Timeless(v)
  }

  // ---------------------------------------------------------------- places in a document

  datatype Place = Member(key: string) | Element(at: nat)

  type Path = seq<Place>

  function Find(v: Json, path: Path): Option<Json> {
    if path == [] then Some(v)
    else match path[0]
      case Member(k) => if v.Object? && k in v.members then Find(v.members[k], path[1..]) else None
      case Element(i) => if v.Array? && i < |v.items| then Find(v.items[i], path[1..]) else None
  }

  /** What a value is, apart from what it contains. */
  datatype Head = OfObject | OfArray(length: nat) | OfScalar(value: Json)

  function HeadOf(v: Json): Head {
    match v
    case Object(_) => OfObject
    case Array(items) => OfArray(|items|)
    case _ => OfScalar(v)
  }

  function HeadAt(v: Json, path: Path): Option<Head> {
    var found := Find(v, path);
    if found.Some? then Some(HeadOf(found.value)) else None
  }

  predicate IsTime(path: Path) { path != [] && path[0].Member? && path[0].key in TIMES }

  /** At or below a time of an element of some conditions. */
  predicate OfCondition(path: Path) {
    path != [] && ((path[0] == Member("conditions") && |path| >= 3 && path[1].Element? && IsTime(path[2..])) || OfCondition(path[1..]))
  }

  /** A place that changes with every write or report. */
  predicate Bookkeeping(path: Path) {
    || (|path| >= 2 && path[0] == Member("metadata") && path[1].Member? && path[1].key in TRANSPORT)
    || OfCondition(path)
  }

  // ---------------------------------------------------------------- two documents mean the same

  lemma StrippedAt(v: Json, path: Path)
    ensures HeadAt(Stripped(v), path) ==
            if |path| >= 2 && path[0] == Member("metadata") && path[1].Member? && path[1].key in TRANSPORT then None else HeadAt(v, path)
  {
    if path != [] && path[0] == Member("metadata") && v.Object? && "metadata" in v.members {
      var meta, rest := v.members["metadata"], path[1..];
      assert Find(v, path) == Find(meta, rest);
      if meta.Object? {
        assert Find(Stripped(v), path) == Find(Object(meta.members - TRANSPORT), rest);
        assert rest != [] ==> rest[0] == path[1];
      }
    }
  }

  lemma {:induction false} TimelessAt(v: Json, path: Path)
    ensures HeadAt(Timeless(v), path) == if OfCondition(path) then None else HeadAt(v, path)
    decreases v, 1
  {
    if path != [] {
      match v
      case Object(members) => MembersAt(members, path, v);
      case Array(items) =>
        if path[0].Element? && path[0].at < |items| {
          TimelessAt(items[path[0].at], path[1..]);
        }
      case _ =>
    }
  }

  lemma {:induction false} MembersAt(members: map<string, Json>, path: Path, root: Json)
    requires path != [] && forall k | k in members :: members[k] < root
    ensures HeadAt(Object(TimelessMembers(members, root)), path) == if OfCondition(path) then None else HeadAt(Object(members), path)
    decreases root, 0
  {
    if path[0].Member? && path[0].key in members {
      var v, rest := members[path[0].key], path[1..];
      if path[0].key == "conditions" && v.Array? {
        var whole := Object(TimelessMembers(members, root));
        assert Find(whole, path) == Find(TimelessConditions(v), rest) && Find(Object(members), path) == Find(v, rest);
        if rest != [] && rest[0].Element? && rest[0].at < |v.items| {
          ConditionAt(v.items[rest[0].at], rest[1..]);
          assert rest[1..] == path[2..];
        }
      } else {
        TimelessAt(v, rest);
      }
    }
  }

  lemma {:induction false} ConditionAt(v: Json, path: Path)
    ensures HeadAt(TimelessCondition(v), path) == if IsTime(path) || OfCondition(path) then None else HeadAt(v, path)
    decreases v, 2
  {
    if v.Object? && path != [] {
      MembersAt(v.members - TIMES, path, v);
    } else {
      TimelessAt(v, path);
    }
  }

  /** Exactly the bookkeeping is gone. */
  lemma SemanticAt(v: Json, path: Path)
    ensures HeadAt(Semantic(v), path) == if Bookkeeping(path) then None else HeadAt(v, path)
  {
    TimelessAt(Stripped(v), path);
    StrippedAt(v, path);
  }

  /** A document is what is at its places. */
  lemma {:induction false} SameAtAll(a: Json, b: Json)
    requires forall path :: HeadAt(a, path) == HeadAt(b, path)
    ensures a == b
    decreases a
  {
    assert HeadAt(a, []) == HeadAt(b, []);
    match a
    case Object(members) =>
      forall k ensures k in members <==> k in b.members
        ensures k in members ==> members[k] == b.members[k]
      {
        Below(a, Member(k), []);
        Below(b, Member(k), []);
        assert HeadAt(a, [Member(k)] + []) == HeadAt(b, [Member(k)] + []);
        if k in members {
          forall path ensures HeadAt(members[k], path) == HeadAt(b.members[k], path) {
            Below(a, Member(k), path);
            Below(b, Member(k), path);
          }
          SameAtAll(members[k], b.members[k]);
        }
      }
      assert members == b.members;
    case Array(items) =>
      forall i: nat | i < |items| ensures items[i] == b.items[i] {
        forall path ensures HeadAt(items[i], path) == HeadAt(b.items[i], path) {
          Below(a, Element(i), path);
          Below(b, Element(i), path);
        }
        SameAtAll(items[i], b.items[i]);
      }
      assert items == b.items;
    case _ =>
  }

  lemma Below(v: Json, place: Place, path: Path)
    ensures place.Member? && v.Object? ==>
      HeadAt(v, [place] + path) == if place.key in v.members then HeadAt(v.members[place.key], path) else None
    ensures place.Element? && v.Array? && place.at < |v.items| ==> HeadAt(v, [place] + path) == HeadAt(v.items[place.at], path)
  {
    assert ([place] + path)[1..] == path;
  }

  /** Two documents mean the same exactly if they agree at every place that is not bookkeeping. */
  lemma SameIff(a: Json, b: Json)
    ensures Semantic(a) == Semantic(b) <==> forall path | !Bookkeeping(path) :: HeadAt(a, path) == HeadAt(b, path)
  {
    hide Semantic, HeadAt, Bookkeeping;
    forall path ensures HeadAt(Semantic(a), path) == (if Bookkeeping(path) then None else HeadAt(a, path)) {
      SemanticAt(a, path);
    }
    forall path ensures HeadAt(Semantic(b), path) == (if Bookkeeping(path) then None else HeadAt(b, path)) {
      SemanticAt(b, path);
    }
    if forall path | !Bookkeeping(path) :: HeadAt(a, path) == HeadAt(b, path) {
      SameAtAll(Semantic(a), Semantic(b));
    }
  }

  // ---------------------------------------------------------------- nothing an index reads is bookkeeping

  function AllTimeless(items: seq<Json>): seq<Json> { seq(|items|, i requires 0 <= i < |items| => Timeless(items[i])) }

  /** Reading a document's fields, elements and texts does not look at bookkeeping. */
  lemma TimelessReads()
    ensures forall v, k | k != "conditions" :: At(Timeless(v), k) == Timeless(At(v, k))
    ensures forall v :: Elements(Timeless(v)) == AllTimeless(Elements(v))
    ensures forall v, d :: TextOr(Timeless(v), d) == TextOr(v, d)
    ensures forall v :: (Timeless(v).String? <==> v.String?) && (v.String? ==> Timeless(v) == v)
    ensures forall v :: (Timeless(v).Null? <==> v.Null?) && (Timeless(v).Array? <==> v.Array?) && (Timeless(v).Object? <==> v.Object?)
  {
    forall v ensures Elements(Timeless(v)) == AllTimeless(Elements(v)) {
    }
  }

  lemma TimelessTail(items: seq<Json>)
    ensures |AllTimeless(items)| == |items|
    ensures items != [] ==> AllTimeless(items)[0] == Timeless(items[0]) && AllTimeless(items)[1..] == AllTimeless(items[1..])
    ensures forall v | v in items :: Timeless(v) in AllTimeless(items)
    ensures forall w | w in AllTimeless(items) :: exists v :: v in items && w == Timeless(v)
  {
    hide Timeless;
    var all := AllTimeless(items);
    forall v | v in items ensures Timeless(v) in all {
      var i :| 0 <= i < |items| && items[i] == v;
      assert all[i] == Timeless(v);
    }
    forall w | w in all ensures exists v :: v in items && w == Timeless(v) {
      var i :| 0 <= i < |all| && all[i] == w;
      assert items[i] in items;
    }
  }

  lemma OwnersAreSemantic(owners: seq<Json>)
    ensures OwnerRoutes(AllTimeless(owners)) == OwnerRoutes(owners)
  {
    TimelessReads();
    TimelessTail(owners);
    hide Timeless, AllTimeless;
    forall v | v in owners ensures At(Timeless(v), "uid") == Timeless(At(v, "uid")) && Timeless(v) in AllTimeless(owners) {
    }
  }

  lemma ReferencesAreSemantic(refs: seq<Json>, key: Key, kind: string)
    ensures ReferenceRoutes(AllTimeless(refs), key, kind) == ReferenceRoutes(refs, key, kind)
  {
    TimelessTail(refs);
    forall v | v in refs
      ensures At(Timeless(v), "name").String? <==> At(v, "name").String?
      ensures At(v, "name").String? ==> At(Timeless(v), "name") == At(v, "name")
      ensures TextOr(At(Timeless(v), "namespace"), key.namespace) == TextOr(At(v, "namespace"), key.namespace)
      ensures TextOr(At(Timeless(v), "kind"), kind) == TextOr(At(v, "kind"), kind)
    {
      FieldIsSemantic(v, "name");
      FieldIsSemantic(v, "namespace");
      FieldIsSemantic(v, "kind");
    }
    hide Timeless, AllTimeless, TextOr, At;
  }

  lemma {:induction false} BackendsAreSemantic(rules: seq<Json>, key: Key)
    ensures BackendRoutes(AllTimeless(rules), key) == BackendRoutes(rules, key)
  {
    TimelessTail(rules);
    if rules != [] {
      TimelessReads();
      ReferencesAreSemantic(Elements(At(rules[0], "backendRefs")), key, "Service");
      BackendsAreSemantic(rules[1..], key);
      hide Timeless, AllTimeless, ReferenceRoutes;
      assert At(Timeless(rules[0]), "backendRefs") == Timeless(At(rules[0], "backendRefs"));
    }
  }

  lemma TextsRoute()
    ensures forall v, route: string -> Index :: IfText(Timeless(v), route) == IfText(v, route)
  {
    TimelessReads();
    hide Timeless;
  }

  lemma {:induction false} VolumesAreSemantic(volumes: seq<Json>, key: Key)
    ensures VolumeRoutes(AllTimeless(volumes), key) == VolumeRoutes(volumes, key)
  {
    hide Timeless, AllTimeless, IfText, At;
    TimelessTail(volumes);
    if volumes != [] {
      VolumesAreSemantic(volumes[1..], key);
      var v := volumes[0];
      FieldsAreSemantic(v, "persistentVolumeClaim", "claimName");
      FieldIsSemantic(v, "ephemeral");
      FieldIsSemantic(v, "name");
      TextsRoute();
    }
  }

  lemma FieldIsSemantic(v: Json, k: string)
    requires k != "conditions"
    ensures At(Timeless(v), k) == Timeless(At(v, k)) && (Timeless(At(v, k)).Null? <==> At(v, k).Null?)
    ensures Timeless(At(v, k)).String? <==> At(v, k).String?
    ensures At(v, k).String? ==> Timeless(At(v, k)) == At(v, k)
  {
    TimelessReads();
  }

  lemma FieldsAreSemantic(v: Json, j: string, k: string)
    requires j != "conditions" && k != "conditions"
    ensures At(At(Timeless(v), j), k) == Timeless(At(At(v, j), k))
    ensures Timeless(At(At(v, j), k)).String? <==> At(At(v, j), k).String?
    ensures At(At(v, j), k).String? ==> Timeless(At(At(v, j), k)) == At(At(v, j), k)
  {
    FieldIsSemantic(v, j);
    FieldIsSemantic(At(v, j), k);
  }

  lemma ElementsAreSemantic(v: Json)
    ensures Elements(Timeless(v)) == AllTimeless(Elements(v))
  {
    TimelessReads();
  }

  lemma LabelsAreSemantic(labels: Json)
    ensures LabelRoutes(Timeless(labels)) == LabelRoutes(labels)
  {
    if labels.Object? {
      TextMembersAreSemantic(labels.members, labels);
      hide TimelessMembers;
    }
  }

  lemma TextMembersAreSemantic(members: map<string, Json>, root: Json)
    requires forall k | k in members :: members[k] < root
    ensures var kept := TimelessMembers(members, root);
            kept.Keys == members.Keys && forall k | k in kept ::
              (kept[k].String? <==> members[k].String?) && (kept[k].String? ==> kept[k] == members[k])
  {
    var kept := TimelessMembers(members, root);
    assert forall v :: (TimelessConditions(v).String? <==> v.String?) && (v.String? ==> TimelessConditions(v) == v);
    forall k | k in kept ensures (kept[k].String? <==> members[k].String?) && (kept[k].String? ==> kept[k] == members[k]) {
      assert kept[k] == if k == "conditions" then TimelessConditions(members[k]) else Timeless(members[k]);
    }
  }

  lemma NodesAreSemantic(doc: Json)
    ensures NodeRoutes(Timeless(doc)) == NodeRoutes(doc)
  {
    FieldsAreSemantic(doc, "spec", "nodeName");
    FieldsAreSemantic(doc, "status", "nodeName");
    FieldsAreSemantic(doc, "spec", "sourceNode");
    FieldsAreSemantic(doc, "spec", "targetNode");
    TextsRoute();
    hide Timeless, IfText, At;
  }

  lemma ClassesAreSemantic(doc: Json)
    ensures ClassRoutes(Timeless(doc)) == ClassRoutes(doc)
  {
    FieldIsSemantic(doc, "kind");
    FieldIsSemantic(doc, "storageClassName");
    FieldsAreSemantic(doc, "spec", "storageClassName");
    TextsRoute();
    hide Timeless, IfText, At;
  }

  lemma DevicesAreSemantic(spec: Json)
    ensures DeviceRoutes(Timeless(spec)) == DeviceRoutes(spec)
  {
    FieldIsSemantic(spec, "volumeName");
    FieldsAreSemantic(spec, "source", "persistentVolumeName");
    FieldsAreSemantic(spec, "csi", "driver");
    TextsRoute();
    hide Timeless, IfText, At;
  }

  lemma StorageIsSemantic(doc: Json, key: Key)
    ensures StorageRoutes(Timeless(doc), key) == StorageRoutes(doc, key)
  {
    var spec := At(doc, "spec");
    FieldIsSemantic(doc, "spec");
    FieldIsSemantic(spec, "volumes");
    ElementsAreSemantic(At(spec, "volumes"));
    VolumesAreSemantic(Elements(At(spec, "volumes")), key);
    FieldsAreSemantic(spec, "claimRef", "namespace");
    FieldsAreSemantic(spec, "claimRef", "name");
    FieldIsSemantic(spec, "claimRef");
    ClassesAreSemantic(doc);
    DevicesAreSemantic(spec);
    hide Timeless, At, VolumeRoutes, ClassRoutes, DeviceRoutes, AllTimeless;
  }

  lemma ReferentsAreSemantic(doc: Json, key: Key)
    ensures ReferentRoutes(Timeless(doc), key) == ReferentRoutes(doc, key)
  {
    hide Timeless, At, ReferenceRoutes, BackendRoutes, TargetRoutes, NamedRoutes;
    var spec := At(doc, "spec");
    FieldIsSemantic(doc, "spec");
    NamedAreSemantic(spec, key);
    TargetIsSemantic(spec, key);
    ListsAreSemantic(spec, key);
  }

  lemma NamedAreSemantic(spec: Json, key: Key)
    ensures NamedRoutes(Timeless(spec), key) == NamedRoutes(spec, key)
  {
    hide Timeless, At, IfText;
    FieldIsSemantic(spec, "podName");
    FieldIsSemantic(spec, "vmiName");
    FieldIsSemantic(spec, "gatewayClassName");
    TextsRoute();
  }

  lemma TargetIsSemantic(spec: Json, key: Key)
    ensures TargetRoutes(At(Timeless(spec), "scaleTargetRef"), key) == TargetRoutes(At(spec, "scaleTargetRef"), key)
  {
    hide Timeless, At;
    FieldsAreSemantic(spec, "scaleTargetRef", "name");
    FieldsAreSemantic(spec, "scaleTargetRef", "kind");
  }

  lemma ListsAreSemantic(spec: Json, key: Key)
    ensures ReferenceRoutes(Elements(At(Timeless(spec), "parentRefs")), key, "Gateway") ==
            ReferenceRoutes(Elements(At(spec, "parentRefs")), key, "Gateway")
    ensures BackendRoutes(Elements(At(Timeless(spec), "rules")), key) == BackendRoutes(Elements(At(spec, "rules")), key)
  {
    hide Timeless, At, ReferenceRoutes, BackendRoutes, AllTimeless;
    FieldIsSemantic(spec, "parentRefs");
    FieldIsSemantic(spec, "rules");
    ElementsAreSemantic(At(spec, "parentRefs"));
    ElementsAreSemantic(At(spec, "rules"));
    ReferencesAreSemantic(Elements(At(spec, "parentRefs")), key, "Gateway");
    BackendsAreSemantic(Elements(At(spec, "rules")), key);
  }

  lemma {:induction false} TextsAreSemantic(items: seq<Json>)
    ensures Selector.Texts(AllTimeless(items)) == Selector.Texts(items)
  {
    TimelessTail(items);
    if items != [] {
      TimelessReads();
      TextsAreSemantic(items[1..]);
      hide Timeless, AllTimeless;
    }
  }

  lemma {:induction false} ExpressionsAreSemantic(exprs: seq<Json>)
    ensures Selector.ExpressionAnchors(AllTimeless(exprs)) == Selector.ExpressionAnchors(exprs)
  {
    hide Timeless, AllTimeless, At;
    TimelessTail(exprs);
    if exprs != [] {
      ExpressionsAreSemantic(exprs[1..]);
      FieldIsSemantic(exprs[0], "operator");
      FieldIsSemantic(exprs[0], "key");
      FieldIsSemantic(exprs[0], "values");
      ValuesAreSemantic(At(exprs[0], "values"));
    }
  }

  lemma ValuesAreSemantic(v: Json)
    ensures Timeless(v).Array? <==> v.Array?
    ensures v.Array? ==> Selector.Texts(Timeless(v).items) == Selector.Texts(v.items)
  {
    if v.Array? {
      assert Timeless(v).items == AllTimeless(v.items);
      TextsAreSemantic(v.items);
    }
  }

  lemma AnchorsAreSemantic(selector: Json)
    ensures Selector.Anchors(Timeless(selector)) == Selector.Anchors(selector)
  {
    FieldIsSemantic(selector, "matchLabels");
    FieldIsSemantic(selector, "matchExpressions");
    ElementsAreSemantic(At(selector, "matchExpressions"));
    ExpressionsAreSemantic(Elements(At(selector, "matchExpressions")));
    RequiredAreSemantic(At(selector, "matchLabels"));
    hide Timeless, At, AllTimeless, Selector.ExpressionAnchors;
  }

  lemma RequiredAreSemantic(required: Json)
    ensures Timeless(required).Object? <==> required.Object?
    ensures required.Object? ==>
      && Selector.TextKeys(Timeless(required).members) == Selector.TextKeys(required.members)
      && forall k | k in Selector.TextKeys(required.members) :: Timeless(required).members[k] == required.members[k]
  {
    if required.Object? {
      TextMembersAreSemantic(required.members, required);
      hide TimelessMembers;
    }
  }

  lemma PodSelectorIsSemantic(doc: Json)
    ensures PodSelector(Timeless(doc)) == match PodSelector(doc) case None => None case Some(selector) => Some(Timeless(selector))
  {
    hide Timeless, At;
    FieldsAreSemantic(doc, "spec", "selector");
    FieldIsSemantic(doc, "kind");
    WrappedIsSemantic(At(At(doc, "spec"), "selector"));
  }

  lemma WrappedIsSemantic(selector: Json)
    ensures Timeless(Object(map["matchLabels" := selector])) == Object(map["matchLabels" := Timeless(selector)])
    ensures Timeless(selector).Object? <==> selector.Object?
  {
    assert Timeless(Object(map["matchLabels" := selector])).members == map["matchLabels" := Timeless(selector)];
  }

  lemma SelectorsAreSemantic(doc: Json, key: Key)
    ensures SelectorRoutes(Timeless(doc), key) == SelectorRoutes(doc, key)
  {
    hide Timeless, PodSelector, Selector.Anchors;
    PodSelectorIsSemantic(doc);
    if PodSelector(doc).Some? {
      AnchorsAreSemantic(PodSelector(doc).value);
    }
  }

  lemma TimelessRoutes(doc: Json, key: Key)
    ensures Routes(Timeless(doc), key) == Routes(doc, key)
  {
    hide Timeless, At, OwnerRoutes, NodeRoutes, StorageRoutes, ReferentRoutes, LabelRoutes, SelectorRoutes, AllTimeless;
    var meta := At(doc, "metadata");
    FieldIsSemantic(doc, "metadata");
    FieldIsSemantic(meta, "ownerReferences");
    FieldIsSemantic(meta, "labels");
    ElementsAreSemantic(At(meta, "ownerReferences"));
    OwnersAreSemantic(Elements(At(meta, "ownerReferences")));
    LabelsAreSemantic(At(meta, "labels"));
    NodesAreSemantic(doc);
    StorageIsSemantic(doc, key);
    ReferentsAreSemantic(doc, key);
    SelectorsAreSemantic(doc, key);
  }

  lemma StrippedReads(doc: Json, k: string)
    ensures k != "metadata" ==> At(Stripped(doc), k) == At(doc, k)
    ensures k !in TRANSPORT ==> At(At(Stripped(doc), "metadata"), k) == At(At(doc, "metadata"), k)
  {
  }

  lemma StrippedRoutes(doc: Json, key: Key)
    ensures Routes(Stripped(doc), key) == Routes(doc, key)
  {
    hide Stripped, At, OwnerRoutes, LabelRoutes, VolumeRoutes, DeviceRoutes, TargetRoutes, NamedRoutes, BackendRoutes, ReferenceRoutes, IfText, TextOr;
    StrippedReads(doc, "ownerReferences");
    StrippedReads(doc, "labels");
    StrippedReads(doc, "spec");
    StrippedReads(doc, "status");
    StrippedReads(doc, "kind");
    StrippedReads(doc, "storageClassName");
  }

  /** Objects of one meaning have one key and are filed under the same indexes. */
  lemma SameMeaning(a: Json, b: Json)
    requires Semantic(a) == Semantic(b)
    ensures Describe(a).KeyOf() == Describe(b).KeyOf() && Describe(a).routes == Describe(b).routes
  {
    KeyIsSemantic(a);
    KeyIsSemantic(b);
    var key := KeyIn(a);
    TimelessRoutes(Stripped(a), key);
    TimelessRoutes(Stripped(b), key);
    StrippedRoutes(a, key);
    StrippedRoutes(b, key);
    hide Timeless, Stripped, Routes;
  }

  lemma KeyIsSemantic(doc: Json)
    ensures KeyIn(Semantic(doc)) == KeyIn(doc)
  {
    hide Timeless, Stripped, At;
    var bare := Stripped(doc);
    StrippedReads(doc, "namespace");
    StrippedReads(doc, "name");
    StrippedReads(doc, "uid");
    FieldsAreSemantic(bare, "metadata", "namespace");
    FieldsAreSemantic(bare, "metadata", "name");
    FieldsAreSemantic(bare, "metadata", "uid");
  }
}
