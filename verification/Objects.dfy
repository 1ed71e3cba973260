/** What an informer reads off an object: its key, its revision and the indexes that route to it. */
module Objects {
  import opened Json
  import opened Wrappers
  import Selector

  datatype Key = Key(namespace: string, name: string, uid: string) {
    function NameKey(): (string, string) { (namespace, name) }
  }

  datatype Index =
    | Namespace(ns: string)
    | Name(ns: string, name: string)
    | Owner(uid: string)
    | Node(node: string)
    | Claim(ns: string, name: string)
    | StorageClass(class_: string)
    | Volume(volume: string)
    | Driver(driver: string)
    | Pod(ns: string, name: string)
    | Target(ns: string, kind: string, name: string)
    | Reference(ns: string, kind: string, name: string)
    | Label(labelKey: string, value: string)
    | Selecting(ns: string, labelKey: string, value: string)
    | SelectingFallback(ns: string)

  /** An object as the store keeps it. An absent name or uid reads as "". */
  datatype Item = Item(
    namespace: string, name: string, uid: string,
    revision: Option<string>, routes: set<Index>, document: Json)
  {
    /** `Key::of` succeeds. */
    predicate HasKey() { name != "" && uid != "" }

    function KeyOf(): Key { Key(namespace, name, uid) }
  }

  /** The optional index entry of a value that is expected to be a string. */
  function IfText(v: Json, route: string -> Index): set<Index> {
    if v.String? then {route(v.s)} else {}
  }

  function VolumeRoutes(volumes: seq<Json>, key: Key): set<Index> {
    if volumes == [] then {}
    else
      IfText(At(At(volumes[0], "persistentVolumeClaim"), "claimName"), s => Claim(key.namespace, s))
      + (if At(volumes[0], "ephemeral").Null? then {}
         else IfText(At(volumes[0], "name"), s => Claim(key.namespace, key.name + "-" + s)))
      + VolumeRoutes(volumes[1..], key)
  }

  function OwnerRoutes(owners: seq<Json>): set<Index> {
    set owner | owner in owners && At(owner, "uid").String? :: Owner(At(owner, "uid").s)
  }

  /** References by name, with the namespace and kind defaulted as the schema does. */
  function ReferenceRoutes(refs: seq<Json>, key: Key, kind: string): set<Index> {
    set ref | ref in refs && At(ref, "name").String? ::
      Reference(TextOr(At(ref, "namespace"), key.namespace), TextOr(At(ref, "kind"), kind), At(ref, "name").s)
  }

  function BackendRoutes(rules: seq<Json>, key: Key): set<Index> {
    if rules == [] then {}
    else ReferenceRoutes(Elements(At(rules[0], "backendRefs")), key, "Service") + BackendRoutes(rules[1..], key)
  }

  function LabelRoutes(labels: Json): set<Index> {
    if labels.Object? then
      set k | k in labels.members && labels.members[k].String? :: Label(k, labels.members[k].s)
    else {}
  }

  function NodeRoutes(doc: Json): set<Index> {
    var spec := At(doc, "spec");
    (if At(spec, "nodeName").String? then {Node(At(spec, "nodeName").s)}
     else IfText(At(At(doc, "status"), "nodeName"), s => Node(s)))
    + IfText(At(spec, "sourceNode"), s => Node(s))
    + IfText(At(spec, "targetNode"), s => Node(s))
  }

  function ClassRoutes(doc: Json): set<Index> {
    (if At(doc, "kind") in {String("PersistentVolume"), String("PersistentVolumeClaim")}
     then {StorageClass(TextOr(At(At(doc, "spec"), "storageClassName"), ""))} else {})
    + IfText(At(doc, "storageClassName"), s => StorageClass(s))
  }

  function DeviceRoutes(spec: Json): set<Index> {
    IfText(At(spec, "volumeName"), s => Volume(s))
    + IfText(At(At(spec, "source"), "persistentVolumeName"), s => Volume(s))
    + IfText(At(At(spec, "csi"), "driver"), s => Driver(s))
  }

  function StorageRoutes(doc: Json, key: Key): set<Index> {
    var spec := At(doc, "spec");
    var claim := At(spec, "claimRef");
    VolumeRoutes(Elements(At(spec, "volumes")), key)
    + (if At(claim, "namespace").String? && At(claim, "name").String?
       then {Claim(At(claim, "namespace").s, At(claim, "name").s)} else {})
    + ClassRoutes(doc)
    + DeviceRoutes(spec)
  }

  function NamedRoutes(spec: Json, key: Key): set<Index> {
    IfText(At(spec, "podName"), s => Pod(key.namespace, s))
    + IfText(At(spec, "vmiName"), s => Reference(key.namespace, "VirtualMachineInstance", s))
    + IfText(At(spec, "gatewayClassName"), s => Reference("", "GatewayClass", s))
  }

  function TargetRoutes(scale: Json, key: Key): set<Index> {
    IfText(At(scale, "name"), s => Target(key.namespace, TextOr(At(scale, "kind"), "Deployment"), s))
  }

  function ReferentRoutes(doc: Json, key: Key): set<Index> {
    var spec := At(doc, "spec");
    NamedRoutes(spec, key)
    + TargetRoutes(At(spec, "scaleTargetRef"), key)
    + ReferenceRoutes(Elements(At(spec, "parentRefs")), key, "Gateway")
    + BackendRoutes(Elements(At(spec, "rules")), key)
  }

  /** The Pod selector of a Service or a PodDisruptionBudget, in one schema. */
  function PodSelector(doc: Json): Option<Json> {
    var selector := At(At(doc, "spec"), "selector");
    if !selector.Object? then None
    else match TextOr(At(doc, "kind"), "")
      case "Service" => Some(Object(map["matchLabels" := selector]))
      case "PodDisruptionBudget" => Some(selector)
      case _ => None
  }

  function SelectorRoutes(doc: Json, key: Key): set<Index> {
    match PodSelector(doc)
    case None => {}
    case Some(selector) =>
      var anchors := Selector.Anchors(selector);
      if anchors == [] then {SelectingFallback(key.namespace)}
      else set p | p in anchors :: Selecting(key.namespace, p.0, p.1)
  }

  /** Every index an object is filed under. */
  function Routes(doc: Json, key: Key): set<Index> {
    var meta := At(doc, "metadata");
    {Namespace(key.namespace), Name(key.namespace, key.name)}
    + OwnerRoutes(Elements(At(meta, "ownerReferences")))
    + NodeRoutes(doc)
    + StorageRoutes(doc, key)
    + ReferentRoutes(doc, key)
    + LabelRoutes(At(meta, "labels"))
    + SelectorRoutes(doc, key)
  }

  function KeyIn(doc: Json): Key {
    var meta := At(doc, "metadata");
    Key(TextOr(At(meta, "namespace"), ""), TextOr(At(meta, "name"), ""), TextOr(At(meta, "uid"), ""))
  }

  /** The record the store keeps for a document. */
  function Describe(doc: Json): Item {
    var key, version := KeyIn(doc), At(At(doc, "metadata"), "resourceVersion");
    Item(key.namespace, key.name, key.uid,
      if version.String? then Some(version.s) else None, Routes(doc, key), doc)
  }

  /** The store files what its documents say. */
  ghost predicate Described(objects: map<Key, Item>) { forall k | k in objects :: IsDescribed(objects[k]) }

  predicate IsDescribed(o: Item) { o == Describe(o.document) }

  /** The indexes under which the selectors that could pick a Pod with these labels are filed. */
  ghost predicate SelectsUnder(i: Index, ns: string, labels: Json) {
    || i == SelectingFallback(ns)
    || (i.Selecting? && i.ns == ns && Selector.GetText(labels, i.labelKey) == Some(i.value))
  }

  /**
   * Looking a Pod's labels up in the inverse index misses no selector: an object whose
   * selector matches is filed under one of the indexes the lookup reads.
   */
  lemma SelectorIsRouted(doc: Json, labels: Json)
    requires PodSelector(doc).Some? && Selector.Matches(PodSelector(doc).value, labels)
    ensures
      var o := Describe(doc);
      exists i :: i in o.routes && SelectsUnder(i, o.namespace, labels)
  {
    var selector := PodSelector(doc).value;
    var o := Describe(doc);
    var anchors := Selector.Anchors(selector);
    Selector.AnchorsComplete(selector, labels);
    if anchors == [] {
      assert SelectingFallback(o.namespace) in SelectorRoutes(doc, o.KeyOf());
      assert SelectsUnder(SelectingFallback(o.namespace), o.namespace, labels);
    } else {
      var p :| p in anchors && Selector.GetText(labels, p.0) == Some(p.1);
      assert Selecting(o.namespace, p.0, p.1) in SelectorRoutes(doc, o.KeyOf());
      assert SelectsUnder(Selecting(o.namespace, p.0, p.1), o.namespace, labels);
    }
  }

  // ---------------------------------------------------------------- where selecting routes come from

  predicate IsSelecting(i: Index) { i.Selecting? || i.SelectingFallback? }

  lemma {:induction false} VolumesSelectNothing(volumes: seq<Json>, key: Key)
    ensures forall i | i in VolumeRoutes(volumes, key) :: !IsSelecting(i)
  {
    if volumes != [] {
      VolumesSelectNothing(volumes[1..], key);
    }
  }

  lemma {:induction false} BackendsSelectNothing(rules: seq<Json>, key: Key)
    ensures forall i | i in BackendRoutes(rules, key) :: !IsSelecting(i)
  {
    if rules != [] {
      BackendsSelectNothing(rules[1..], key);
    }
  }

  lemma DevicesSelectNothing(spec: Json, i: Index)
    requires IsSelecting(i)
    ensures i !in DeviceRoutes(spec)
  {
  }

  lemma StorageSelectsNothing(doc: Json, key: Key, i: Index)
    requires IsSelecting(i)
    ensures i !in StorageRoutes(doc, key)
  {
    VolumesSelectNothing(Elements(At(At(doc, "spec"), "volumes")), key);
    DevicesSelectNothing(At(doc, "spec"), i);
    assert i !in ClassRoutes(doc);
    hide VolumeRoutes, DeviceRoutes, ClassRoutes;
  }

  lemma ReferentsSelectNothing(doc: Json, key: Key, i: Index)
    requires IsSelecting(i)
    ensures i !in ReferentRoutes(doc, key)
  {
    BackendsSelectNothing(Elements(At(At(doc, "spec"), "rules")), key);
    hide BackendRoutes;
  }

  lemma OthersSelectNothing(doc: Json, i: Index)
    requires IsSelecting(i)
    ensures i !in NodeRoutes(doc) && i !in LabelRoutes(At(At(doc, "metadata"), "labels"))
    ensures i !in OwnerRoutes(Elements(At(At(doc, "metadata"), "ownerReferences")))
  {
  }

  /** The selecting routes of an object are its selector's, in its own namespace. */
  lemma SelectingRoutes(doc: Json, i: Index)
    requires i in Describe(doc).routes && IsSelecting(i)
    ensures i.ns == Describe(doc).namespace
  {
    var key := Describe(doc).KeyOf();
    StorageSelectsNothing(doc, key, i);
    ReferentsSelectNothing(doc, key, i);
    OthersSelectNothing(doc, i);
    SelectorsAreNear(doc, key);
    hide StorageRoutes, ReferentRoutes, NodeRoutes, LabelRoutes, OwnerRoutes, SelectorRoutes;
    assert i in SelectorRoutes(doc, key);
  }

  lemma SelectorsAreNear(doc: Json, key: Key)
    ensures forall i | i in SelectorRoutes(doc, key) :: IsSelecting(i) && i.ns == key.namespace
  {
  }
}
