/** Server-side apply: who owns which field, over any run of applies. */
module Apply {
  import opened Wrappers
  import opened Json
  import opened Paths
  import opened Text

  // ---------------------------------------------------------------- ownership trees

  /** Objects recurse under `f:<key>`; scalars, arrays and empty objects are leaves. */
  function FieldsV1(v: Json): Json {
    if v.Object? && v.members != map[] then
      Prefixed(v.members);
      Object(map k | k in v.members :: "f:" + k := FieldsV1(v.members[k]))
    else Object(map[])
  }

  lemma Prefixed(members: map<string, Json>)
    ensures forall a, b | a in members && b in members && "f:" + a == "f:" + b :: a == b
  {
    forall a, b | a in members && b in members && "f:" + a == "f:" + b ensures a == b {
      assert ("f:" + a)[2..] == a && ("f:" + b)[2..] == b;
    }
  }

  /** `strip_prefix("f:").unwrap_or(key)`. */
  function Strip(key: string): string { if |key| >= 2 && key[0] == 'f' && key[1] == ':' then key[2..] else key }

  /** The pointers of a tree's leaves. */
  function Leaves(tree: Json, prefix: string): seq<string>
    decreases tree, 1
  {
    if tree.Object? && tree.members != map[] then LeavesIn(tree.members, prefix, tree) else [prefix]
  }

  function LeavesIn(members: map<string, Json>, prefix: string, ghost root: Json): seq<string>
    requires forall k | k in members :: members[k] < root
    decreases root, 0, |members|
  {
    if members == map[] then []
    else
      var k := Least(members.Keys);
      Leaves(members[k], prefix + "/" + Strip(k)) + LeavesIn(members - {k}, prefix, root)
  }

  /** A scalar, array or empty object at `path`. */
  predicate IsLeaf(v: Json, path: Path) {
    Find(v, path).Some? && (Find(v, path).value.Object? ==> Find(v, path).value.members == map[])
  }

  lemma {:induction false} LeavesInAre(members: map<string, Json>, prefix: string, root: Json, l: string)
    requires forall k | k in members :: members[k] < root
    ensures l in LeavesIn(members, prefix, root) <==>
            exists k :: k in members && l in Leaves(members[k], prefix + "/" + Strip(k))
    decreases |members|
  {
    if members != map[] {
      var k := Least(members.Keys);
      LeavesInAre(members - {k}, prefix, root, l);
      if j :| j in members && l in Leaves(members[j], prefix + "/" + Strip(j)) {
        assert j == k || j in members - {k};
      }
      if j :| j in members - {k} && l in Leaves((members - {k})[j], prefix + "/" + Strip(j)) {
        assert j in members && (members - {k})[j] == members[j];
      }
    }
  }

  /** The leaves recorded for an intent are pointers of its leaf paths. */
  lemma {:induction false} LeafHasPath(v: Json, prefix: string, l: string) returns (p: Path)
    requires l in Leaves(FieldsV1(v), prefix)
    ensures IsLeaf(v, p) && l == prefix + Render(p)
    decreases v
  {
    if v.Object? && v.members != map[] {
      var tree := FieldsV1(v);
      TreeKeys(v);
      LeavesInAre(tree.members, prefix, tree, l);
      hide FieldsV1;
      var t :| t in tree.members && l in Leaves(tree.members[t], prefix + "/" + Strip(t));
      var k := Strip(t);
      var below := LeafHasPath(v.members[k], prefix + "/" + k, l);
      LeafBelow(v, k, below, prefix);
      p := [k] + below;
    } else {
      p := [];
    }
  }

  /** And all of them. */
  lemma {:induction false} PathHasLeaf(v: Json, prefix: string, p: Path)
    requires IsLeaf(v, p)
    ensures prefix + Render(p) in Leaves(FieldsV1(v), prefix)
    decreases v
  {
    var l := prefix + Render(p);
    if v.Object? && v.members != map[] {
      var tree := FieldsV1(v);
      TreeKeys(v);
      LeavesInAre(tree.members, prefix, tree, l);
      hide FieldsV1;
      assert [p[0]] + p[1..] == p;
      LeafBelow(v, p[0], p[1..], prefix);
      PathHasLeaf(v.members[p[0]], prefix + "/" + p[0], p[1..]);
      assert tree.members["f:" + p[0]] == FieldsV1(v.members[p[0]]);
    } else {
      assert Render(p) == "" && l == prefix;
    }
  }

  lemma LeafBelow(v: Json, k: string, p: Path, prefix: string)
    requires v.Object? && k in v.members
    ensures IsLeaf(v, [k] + p) <==> IsLeaf(v.members[k], p)
    ensures prefix + Render([k] + p) == prefix + "/" + k + Render(p)
  {
    assert ([k] + p)[1..] == p;
  }

  lemma TreeKeys(v: Json)
    requires v.Object? && v.members != map[]
    ensures FieldsV1(v).members != map[]
    ensures forall t | t in FieldsV1(v).members :: Strip(t) in v.members && FieldsV1(v).members[t] == FieldsV1(v.members[Strip(t)])
    ensures forall k | k in v.members :: "f:" + k in FieldsV1(v).members && Strip("f:" + k) == k
  {
    var tree := FieldsV1(v);
    forall k | k in v.members ensures "f:" + k in tree.members && Strip("f:" + k) == k && tree.members["f:" + k] == FieldsV1(v.members[k]) {
      assert ("f:" + k)[2..] == k;
      Prefixed(v.members);
    }
    var k :| k in v.members;
    assert "f:" + k in tree.members;
  }

  // ---------------------------------------------------------------- what an apply does

  datatype Request = Request(applied: Json, manager: string, now: string, force: bool)

  datatype Conflict = Conflict(field: string, manager: string)

  const MANAGED: Path := ["metadata", "managedFields"]

  function Entries(o: Json): seq<Json> { Elements(At(At(o, "metadata"), "managedFields")) }

  function ManagerOf(entry: Json): string { TextOr(At(entry, "manager"), "") }

  function EntryLeaves(entry: Json): seq<string> { Leaves(At(entry, "fieldsV1"), "") }

  /** The first other manager that owns a leaf. */
  function OwnerOf(entries: seq<Json>, manager: string, leaf: string): Option<string> {
    if entries == [] then None
    else if ManagerOf(entries[0]) != manager && leaf in EntryLeaves(entries[0]) then Some(ManagerOf(entries[0]))
    else OwnerOf(entries[1..], manager, leaf)
  }

  /** What the manager owned before: the leaves of its last entry. */
  function Previous(entries: seq<Json>, manager: string): seq<string> {
    if entries == [] then []
    else if ManagerOf(entries[|entries| - 1]) == manager then EntryLeaves(entries[|entries| - 1])
    else Previous(entries[..|entries| - 1], manager)
  }

  predicate Conflicts(o: Json, applied: Json, entries: seq<Json>, manager: string, leaf: string) {
    OwnerOf(entries, manager, leaf).Some? && Pointer(o, leaf) != Pointer(applied, leaf)
  }

  function Dropped(before: seq<string>, after: seq<string>): seq<string> {
    if before == [] then []
    else if before[|before| - 1] in after then Dropped(before[..|before| - 1], after)
    else Dropped(before[..|before| - 1], after) + [before[|before| - 1]]
  }

  function RemoveAll(o: Json, pointers: seq<string>): Json {
    if pointers == [] then o else RemovePointer(RemoveAll(o, pointers[..|pointers| - 1]), pointers[|pointers| - 1])
  }

  function EntryOf(r: Request): Json {
    Object(map[
      "manager" := String(r.manager), "operation" := String("Apply"),
      "apiVersion" := String(TextOr(At(r.applied, "apiVersion"), "v1")),
      "time" := String(r.now), "fieldsType" := String("FieldsV1"), "fieldsV1" := FieldsV1(r.applied)])
  }

  predicate IsBy(entry: Json, manager: string) { At(entry, "manager") == String(manager) }

  function Others(entries: seq<Json>, manager: string): seq<Json> {
    if entries == [] then []
    else if IsBy(entries[|entries| - 1], manager) then Others(entries[..|entries| - 1], manager)
    else Others(entries[..|entries| - 1], manager) + [entries[|entries| - 1]]
  }

  function Recorded(o: Json, entries: seq<Json>): Json
    requires o.Object?
  {
    Object(o.members["metadata" := Object(Members(At(o, "metadata"))["managedFields" := Array(entries)])])
  }

  /** What the manager owned and does not apply any more. */
  function DroppedBy(o: Json, r: Request): seq<string> {
    Dropped(Previous(Entries(o), r.manager), Leaves(FieldsV1(r.applied), ""))
  }

  /** Dropped leaves pruned, the intent merged. */
  function Merged(o: Json, r: Request): Json { Merge(RemoveAll(o, DroppedBy(o, r)), r.applied) }

  /** The object after a successful apply: pruned and merged, its ownership recorded. */
  function Applied(o: Json, r: Request): Json
    requires r.applied.Object?
  {
    Recorded(Merged(o, r), Others(Entries(Merged(o, r)), r.manager) + [EntryOf(r)])
  }

  /** The owners of leaves other than `manager`, and what `manager` owned. */
  method Ownership(entries: seq<Json>, manager: string) returns (owners: map<string, string>, previous: seq<string>)
    ensures Owns(owners, entries, manager) && previous == Previous(entries, manager)
  {
    hide Owns;
    owners, previous := map[], [];
    NobodyOwns(manager);
    for n := 0 to |entries|
      invariant previous == Previous(entries[..n], manager) && Owns(owners, entries[..n], manager)
    {
      assert entries[..n + 1][..n] == entries[..n];
      var other, leaves := ManagerOf(entries[n]), EntryLeaves(entries[n]);
      OwnersGrow(owners, entries, n, manager);
      if other == manager {
        previous := leaves;
      } else {
        owners := OrInsert(owners, leaves, other);
      }
    }
    assert entries[..|entries|] == entries;
  }

  /** `trim_start_matches('/').replace('/', ".")`. */
  function Dotted(leaf: string): string {
    var s := TrimSlashes(leaf);
    seq(|s|, i requires 0 <= i < |s| => if s[i] == '/' then '.' else s[i])
  }

  /** The first leaf of the intent that another manager owns and whose value would change. */
  method FindConflict(o: Json, applied: Json, entries: seq<Json>, manager: string, owners: map<string, string>, leaves: seq<string>)
    returns (conflict: Option<Conflict>)
    requires Owns(owners, entries, manager)
    ensures conflict.None? <==> forall leaf | leaf in leaves :: !Conflicts(o, applied, entries, manager, leaf)
    ensures conflict.Some? ==> exists leaf :: leaf in leaves && Conflicts(o, applied, entries, manager, leaf) &&
                                              conflict == Some(Conflict(Dotted(leaf), OwnerOf(entries, manager, leaf).value))
  {
    for n := 0 to |leaves|
      invariant forall i | 0 <= i < n :: !Conflicts(o, applied, entries, manager, leaves[i])
    {
      var leaf := leaves[n];
      assert OwnerOf(entries, manager, leaf) == if leaf in owners then Some(owners[leaf]) else None;
      if leaf in owners && Pointer(o, leaf) != Pointer(applied, leaf) {
        assert leaf in leaves && Conflicts(o, applied, entries, manager, leaf);
        return Some(Conflict(Dotted(leaf), owners[leaf]));
      }
    }
    return None;
  }

  /** Prunes the leaves the manager no longer applies. */
  method Prune(existing: Json, previous: seq<string>, leaves: seq<string>) returns (o: Json)
    ensures o == RemoveAll(existing, Dropped(previous, leaves))
  {
    hide RemovePointer;
    o := existing;
    for n := 0 to |previous|
      invariant o == RemoveAll(existing, Dropped(previous[..n], leaves))
    {
      assert previous[..n + 1][..n] == previous[..n];
      if previous[n] !in leaves {
        var d := Dropped(previous[..n], leaves);
        assert (d + [previous[n]])[..|d|] == d;
        o := RemovePointer(o, previous[n]);
      }
    }
    assert previous[..|previous|] == previous;
  }

  method KeepOthers(entries: seq<Json>, manager: string) returns (kept: seq<Json>)
    ensures kept == Others(entries, manager)
  {
    kept := [];
    for n := 0 to |entries|
      invariant kept == Others(entries[..n], manager)
    {
      assert entries[..n + 1][..n] == entries[..n];
      if !IsBy(entries[n], manager) {
        kept := kept + [entries[n]];
      }
    }
    assert entries[..|entries|] == entries;
  }

  ghost predicate HasConflict(o: Json, r: Request) {
    exists leaf :: leaf in Leaves(FieldsV1(r.applied), "") && Conflicts(o, r.applied, Entries(o), r.manager, leaf)
  }

  /** Refused exactly if, unforced, some leaf of the intent conflicts. */
  method ServerSideApply(existing: Json, r: Request) returns (result: Result<Json, Conflict>)
    requires r.applied.Object?
    ensures result.Err? <==> !r.force && HasConflict(existing, r)
    ensures result.Ok? ==> result.value == Applied(existing, r)
    ensures result.Err? ==> exists leaf ::
      && leaf in Leaves(FieldsV1(r.applied), "") && Conflicts(existing, r.applied, Entries(existing), r.manager, leaf)
      && result.error == Conflict(Dotted(leaf), OwnerOf(Entries(existing), r.manager, leaf).value)
  {
    var leaves := Leaves(FieldsV1(r.applied), "");
    var owners, previous := Ownership(Entries(existing), r.manager);
    hide Owns, Conflicts, Leaves, FieldsV1;
    if !r.force {
      var conflict := FindConflict(existing, r.applied, Entries(existing), r.manager, owners, leaves);
      if conflict.Some? {
        return Err(conflict.value);
      }
    }
    var o := Prune(existing, previous, leaves);
    o := Merge(o, r.applied);
    var kept := KeepOthers(Entries(o), r.manager);
    return Ok(Recorded(o, kept + [EntryOf(r)]));
  }

  function Unowned(owners: map<string, string>, leaves: seq<string>): set<string> { set l | l in leaves && l !in owners }

  /** `entry(leaf).or_insert(manager)` for every leaf. */
  function OrInsert(owners: map<string, string>, leaves: seq<string>, manager: string): map<string, string> {
    owners + map l | l in Unowned(owners, leaves) :: manager
  }

  lemma NobodyOwns(manager: string)
    ensures Owns(map[], [], manager)
  {
  }

  ghost predicate Owns(owners: map<string, string>, entries: seq<Json>, manager: string) {
    forall leaf :: OwnerOf(entries, manager, leaf) == if leaf in owners then Some(owners[leaf]) else None
  }

  lemma {:induction false} OwnerOfAppend(entries: seq<Json>, e: Json, manager: string, leaf: string)
    ensures OwnerOf(entries + [e], manager, leaf) ==
            if OwnerOf(entries, manager, leaf).Some? then OwnerOf(entries, manager, leaf)
            else if ManagerOf(e) != manager && leaf in EntryLeaves(e) then Some(ManagerOf(e)) else None
  {
    if entries == [] {
      assert entries + [e] == [e];
    } else {
      assert (entries + [e])[1..] == entries[1..] + [e];
      OwnerOfAppend(entries[1..], e, manager, leaf);
    }
  }

  lemma OwnersGrow(owners: map<string, string>, entries: seq<Json>, n: nat, manager: string)
    requires n < |entries| && Owns(owners, entries[..n], manager)
    ensures Owns(if ManagerOf(entries[n]) == manager then owners else OrInsert(owners, EntryLeaves(entries[n]), ManagerOf(entries[n])),
                 entries[..n + 1], manager)
  {
    hide EntryLeaves, ManagerOf;
    assert entries[..n + 1] == entries[..n] + [entries[n]];
    forall leaf ensures OwnerOf(entries[..n + 1], manager, leaf) ==
                        if OwnerOf(entries[..n], manager, leaf).Some? then OwnerOf(entries[..n], manager, leaf)
                        else if ManagerOf(entries[n]) != manager && leaf in EntryLeaves(entries[n]) then Some(ManagerOf(entries[n])) else None {
      OwnerOfAppend(entries[..n], entries[n], manager, leaf);
    }
  }

  // ---------------------------------------------------------------- what an apply leaves, exactly

  lemma FindOne(o: Json, a: string)
    ensures Find(o, [a]) == if o.Object? && a in o.members then Some(o.members[a]) else None
  {
    assert [a][1..] == [];
  }

  lemma FindTwo(o: Json, a: string, b: string)
    ensures Find(o, [a, b]) == if o.Object? && a in o.members then Find(o.members[a], [b]) else None
  {
    assert [a, b][1..] == [b];
  }

  lemma ManagedEntries(o: Json)
    ensures Entries(o) == if Find(o, MANAGED).Some? && Find(o, MANAGED).value.Array? then Find(o, MANAGED).value.items else []
  {
    FindTwo(o, "metadata", "managedFields");
    FindOne(At(o, "metadata"), "managedFields");
  }

  /** The path a pointer removes. */
  function Aim(pointer: string): Path { Split(TrimSlashes(pointer), '/') }

  ghost predicate Spares(pointers: seq<string>, q: Path) { forall i | 0 <= i < |pointers| :: !(Aim(pointers[i]) <= q) }

  lemma {:induction false} RemoveAllRemoves(o: Json, pointers: seq<string>, q: Path, x: Json)
    requires !x.Object?
    ensures HasField(RemoveAll(o, pointers), q, x) <==> HasField(o, q, x) && Spares(pointers, q)
  {
    if pointers != [] {
      var before, last := pointers[..|pointers| - 1], pointers[|pointers| - 1];
      RemoveAllRemoves(o, before, q, x);
      SplitPieces(TrimSlashes(last), '/');
      RemoveRemoves(RemoveAll(o, before), Aim(last), q, x);
      assert Spares(pointers, q) <==> Spares(before, q) && !(Aim(last) <= q);
    }
  }

  /** Metadata, if any, is an object. */
  predicate Shaped(o: Json) { o.Object? && ("metadata" in o.members ==> o.members["metadata"].Object?) }

  lemma {:induction false} RemoveAllShaped(o: Json, pointers: seq<string>)
    requires Shaped(o)
    ensures Shaped(RemoveAll(o, pointers))
  {
    if pointers != [] {
      RemoveAllShaped(o, pointers[..|pointers| - 1]);
      SplitPieces(TrimSlashes(pointers[|pointers| - 1]), '/');
      RemoveShaped(RemoveAll(o, pointers[..|pointers| - 1]), Aim(pointers[|pointers| - 1]));
    }
  }

  lemma RemoveShaped(o: Json, path: Path)
    requires Shaped(o) && path != []
    ensures Shaped(Remove(o, path))
  {
    if |path| > 1 && path[0] in o.members {
      assert o.members[path[0]].Object? ==> Remove(o.members[path[0]], path[1..]).Object?;
    }
  }

  lemma MergeShaped(doc: Json, a: Json)
    requires Shaped(doc) && Untouched(a, MANAGED)
    ensures Shaped(Merge(doc, a))
  {
    var base, merged := Members(doc), Merge(doc, a);
    if "metadata" in a.members {
      assert merged.members["metadata"] == Merge(if "metadata" in base then base["metadata"] else Null, a.members["metadata"]);
    }
  }

  /** Recording the entries changes nothing but the managed fields. */
  lemma RecordedFields(o: Json, entries: seq<Json>, q: Path, x: Json)
    requires o.Object? && !x.Object? && !(MANAGED <= q)
    ensures HasField(Recorded(o, entries), q, x) ==> HasField(o, q, x)
    ensures HasField(o, q, x) && (Shaped(o) || q[0] != "metadata") ==> HasField(Recorded(o, entries), q, x)
  {
    var after := Recorded(o, entries);
    var base := Members(At(o, "metadata"));
    var metadata := base["managedFields" := Array(entries)];
    if q != [] && q[0] == "metadata" {
      var m := q[1..];
      assert Find(after, q) == Find(Object(metadata), m);
      assert At(o, "metadata").Object? ==> Find(o, q) == Find(Object(base), m);
      assert m != [] ==> m[0] == q[1];
    }
  }

  lemma RecordedEntries(o: Json, entries: seq<Json>)
    requires o.Object?
    ensures Entries(Recorded(o, entries)) == entries && Shaped(Recorded(o, entries))
  {
  }

  /** Below the managed fields, an array, there is no field. */
  lemma NothingBelowManaged(o: Json, entries: seq<Json>, q: Path, x: Json)
    requires o.Object? && MANAGED <= q && HasField(Recorded(o, entries), q, x)
    ensures q == MANAGED
  {
    var after := Recorded(o, entries);
    assert q[1..][0] == "managedFields" && q == MANAGED + q[2..] && q[1..][1..] == q[2..];
    assert Find(after, q) == Find(Array(entries), q[2..]);
  }

  /**
   * For every object and intent: a field is there after an apply exactly if the intent sets it, or
   * it was there, the intent does not reach it, and no dropped pointer aims at it or above it.
   */
  lemma AppliedFieldIff(o: Json, r: Request, q: Path, x: Json)
    requires Shaped(o) && Untouched(r.applied, MANAGED) && !x.Object? && !(MANAGED <= q)
    ensures HasField(Applied(o, r), q, x) <==>
            (HasField(r.applied, q, x) && !x.Null?) || (HasField(o, q, x) && Untouched(r.applied, q) && Spares(DroppedBy(o, r), q))
  {
    var dropped := DroppedBy(o, r);
    var pruned := RemoveAll(o, dropped);
    RemoveAllRemoves(o, dropped, q, x);
    RemoveAllShaped(o, dropped);
    MergeShaped(pruned, r.applied);
    var merged := Merged(o, r);
    RecordedFields(merged, Others(Entries(merged), r.manager) + [EntryOf(r)], q, x);
    hide DroppedBy, RemoveAll, Recorded, Spares;
    if HasField(merged, q, x) {
      MergeGives(pruned, r.applied, q, x);
    }
    if HasField(r.applied, q, x) && !x.Null? {
      MergeTakes(pruned, r.applied, q, x);
    }
    if Untouched(r.applied, q) {
      MergeLeavesUntouched(pruned, r.applied, q);
    }
  }

  // ---------------------------------------------------------------- what every apply keeps

  /**
   * An intent the code keeps track of: it leaves the managed fields alone, its fields have keys a
   * pointer survives, and no leaf of it aims at the managed fields or above them.
   */
  ghost predicate GoodIntent(a: Json) {
    && Untouched(a, MANAGED)
    && (forall q, x | HasField(a, q, x) && !x.Null? :: Prunable(q))
    && (forall p | IsLeaf(a, p) :: !(Target(p) <= MANAGED))
  }

  /** The entries record these intents, one per manager. */
  ghost predicate Records(entries: seq<Json>, intents: seq<Json>) {
    && |entries| == |intents|
    && (forall i | 0 <= i < |entries| :: At(entries[i], "fieldsV1") == FieldsV1(intents[i]) && GoodIntent(intents[i]))
    && (forall i | 0 <= i < |entries| :: At(entries[i], "manager").String?)
    && (forall i, j | 0 <= i < j < |entries| :: ManagerOf(entries[i]) != ManagerOf(entries[j]))
  }

  /** Some intent records the pointer of `q`. */
  ghost predicate OwnedBySome(intents: seq<Json>, q: Path) {
    exists i :: 0 <= i < |intents| && Render(q) in Leaves(FieldsV1(intents[i]), "")
  }

  /** Every scalar or array outside the managed fields is recorded for some manager, and could be pruned. */
  ghost predicate Inv(o: Json, intents: seq<Json>) {
    && Shaped(o) && Records(Entries(o), intents)
    && forall q, x | HasField(o, q, x) && q != MANAGED :: !x.Null? && Prunable(q) && OwnedBySome(intents, q)
  }

  lemma OwnLeaf(a: Json, q: Path)
    requires IsLeaf(a, q)
    ensures Render(q) in Leaves(FieldsV1(a), "")
  {
    PathHasLeaf(a, "", q);
    assert "" + Render(q) == Render(q);
  }

  /** No recorded leaf aims at the managed fields. */
  lemma LeafSparesManaged(a: Json, l: string)
    requires GoodIntent(a) && l in Leaves(FieldsV1(a), "")
    ensures !(Aim(l) <= MANAGED)
  {
    var p := LeafHasPath(a, "", l);
    assert "" + Render(p) == Render(p);
    assert Target(p) == Aim(l);
  }

  lemma {:induction false} DroppedAre(before: seq<string>, after: seq<string>, l: string)
    ensures l in Dropped(before, after) <==> l in before && l !in after
  {
    if before != [] {
      DroppedAre(before[..|before| - 1], after, l);
    }
  }

  /** The one entry of a manager, or the end. */
  ghost predicate IsSlot(entries: seq<Json>, manager: string, i: nat) {
    && i <= |entries|
    && (i < |entries| ==> ManagerOf(entries[i]) == manager)
    && (forall j | 0 <= j < |entries| && j != i :: ManagerOf(entries[j]) != manager)
  }

  lemma SlotExists(entries: seq<Json>, intents: seq<Json>, manager: string) returns (i: nat)
    requires Records(entries, intents)
    ensures IsSlot(entries, manager, i)
  {
    if k :| 0 <= k < |entries| && ManagerOf(entries[k]) == manager {
      i := k;
    } else {
      i := |entries|;
    }
  }

  function Without<T>(s: seq<T>, i: nat): seq<T> { if i < |s| then s[..i] + s[i + 1..] else s }

  lemma {:induction false} OthersAppend(a: seq<Json>, b: seq<Json>, manager: string)
    ensures Others(a + b, manager) == Others(a, manager) + Others(b, manager)
  {
    hide IsBy;
    if b == [] {
      assert a + b == a;
    } else {
      var front := b[..|b| - 1];
      assert (a + b)[..|a + b| - 1] == a + front;
      OthersAppend(a, front, manager);
    }
  }

  lemma {:induction false} OthersAreAll(entries: seq<Json>, manager: string)
    requires forall j | 0 <= j < |entries| :: !IsBy(entries[j], manager)
    ensures Others(entries, manager) == entries
  {
    hide IsBy;
    if entries != [] {
      OthersAreAll(entries[..|entries| - 1], manager);
    }
  }

  lemma OthersLeaveOut(entries: seq<Json>, manager: string, i: nat)
    requires i <= |entries| && (i < |entries| ==> IsBy(entries[i], manager))
    requires forall j | 0 <= j < |entries| && j != i :: !IsBy(entries[j], manager)
    ensures Others(entries, manager) == Without(entries, i)
  {
    hide IsBy;
    if i == |entries| {
      OthersAreAll(entries, manager);
    } else {
      var before, at, after := entries[..i], [entries[i]], entries[i + 1..];
      assert entries == before + at + after;
      OthersAppend(before + at, after, manager);
      OthersAppend(before, at, manager);
      OthersAreAll(before, manager);
      OthersAreAll(after, manager);
      assert at[..0] == [];
    }
  }

  lemma {:induction false} PreviousIsSlot(entries: seq<Json>, manager: string, i: nat)
    requires IsSlot(entries, manager, i)
    ensures Previous(entries, manager) == if i < |entries| then EntryLeaves(entries[i]) else []
  {
    if entries != [] {
      var last := |entries| - 1;
      hide EntryLeaves, ManagerOf;
      if i != last {
        PreviousIsSlot(entries[..last], manager, if i == |entries| then last else i);
      }
    }
  }

  lemma SlotIsLeftOut(entries: seq<Json>, manager: string, i: nat)
    requires IsSlot(entries, manager, i) && forall j | 0 <= j < |entries| :: At(entries[j], "manager").String?
    ensures Others(entries, manager) == Without(entries, i)
    ensures Previous(entries, manager) == if i < |entries| then EntryLeaves(entries[i]) else []
  {
    assert forall j | 0 <= j < |entries| :: IsBy(entries[j], manager) <==> ManagerOf(entries[j]) == manager;
    OthersLeaveOut(entries, manager, i);
    PreviousIsSlot(entries, manager, i);
  }

  lemma RecordsOneMore(entries: seq<Json>, intents: seq<Json>, r: Request, i: nat)
    requires Records(entries, intents) && GoodIntent(r.applied) && IsSlot(entries, r.manager, i)
    ensures Records(Without(entries, i) + [EntryOf(r)], Without(intents, i) + [r.applied])
  {
    hide GoodIntent, FieldsV1;
  }

  /** What was dropped was recorded for the manager. */
  lemma DroppedWasRecorded(o: Json, intents: seq<Json>, r: Request, i: nat, l: string)
    requires Records(Entries(o), intents) && IsSlot(Entries(o), r.manager, i)
    ensures l in DroppedBy(o, r) <==>
            i < |intents| && l in Leaves(FieldsV1(intents[i]), "") && l !in Leaves(FieldsV1(r.applied), "")
  {
    SlotIsLeftOut(Entries(o), r.manager, i);
    hide Previous, Leaves, FieldsV1, GoodIntent, Others;
    DroppedAre(Previous(Entries(o), r.manager), Leaves(FieldsV1(r.applied), ""), l);
  }

  /** Pruning and merging leave the managed fields alone. */
  lemma ManagedStay(o: Json, intents: seq<Json>, r: Request, i: nat)
    requires o.Object? && Records(Entries(o), intents) && Untouched(r.applied, MANAGED) && IsSlot(Entries(o), r.manager, i)
    ensures Entries(Merged(o, r)) == Entries(o)
  {
    var dropped := DroppedBy(o, r);
    forall l | l in dropped ensures !(Aim(l) <= MANAGED) {
      DroppedWasRecorded(o, intents, r, i, l);
      LeafSparesManaged(intents[i], l);
    }
    SparedManagedStay(o, r);
  }

  lemma SparedManagedStay(o: Json, r: Request)
    requires o.Object? && Untouched(r.applied, MANAGED) && Spares(DroppedBy(o, r), MANAGED)
    ensures Entries(Merged(o, r)) == Entries(o)
  {
    var pruned := RemoveAll(o, DroppedBy(o, r));
    forall x: Json | !x.Object? ensures HasField(pruned, MANAGED, x) <==> HasField(o, MANAGED, x) {
      RemoveAllRemoves(o, DroppedBy(o, r), MANAGED, x);
    }
    MergeLeavesUntouched(pruned, r.applied, MANAGED);
    ManagedEntries(o);
    ManagedEntries(Merged(o, r));
    hide Entries, RemoveAll, DroppedBy, Spares;
    var found, after := Find(o, MANAGED), Find(pruned, MANAGED);
    if found.Some? && found.value.Array? {
      assert HasField(o, MANAGED, found.value);
    }
    if after.Some? && after.value.Array? {
      assert HasField(pruned, MANAGED, after.value);
    }
  }

  /** Another's record stays, and one's own is dropped only from fields that go with it. */
  lemma StillOwned(o: Json, intents: seq<Json>, r: Request, i: nat, q: Path)
    requires Records(Entries(o), intents) && IsSlot(Entries(o), r.manager, i)
    requires OwnedBySome(intents, q) && Prunable(q) && Spares(DroppedBy(o, r), q)
    ensures OwnedBySome(Without(intents, i) + [r.applied], q)
  {
    var j :| 0 <= j < |intents| && Render(q) in Leaves(FieldsV1(intents[j]), "");
    if j == i {
      NotDropped(o, intents, r, i, q);
      NewIntentOwns(Without(intents, i), r.applied, q);
    } else {
      OthersIntentStays(intents, i, r.applied, j, q);
    }
  }

  lemma NewIntentOwns(intents: seq<Json>, applied: Json, q: Path)
    requires Render(q) in Leaves(FieldsV1(applied), "")
    ensures OwnedBySome(intents + [applied], q)
  {
    hide Leaves, FieldsV1, Render;
    assert (intents + [applied])[|intents|] == applied;
  }

  lemma OthersIntentStays(intents: seq<Json>, i: nat, applied: Json, j: nat, q: Path)
    requires j < |intents| && j != i && Render(q) in Leaves(FieldsV1(intents[j]), "")
    ensures OwnedBySome(Without(intents, i) + [applied], q)
  {
    hide Leaves, FieldsV1, Render;
    var after := Without(intents, i) + [applied];
    assert after[if j < i then j else if i < |intents| then j - 1 else j] == intents[j];
  }

  /** A field that pruning spared though the manager had it recorded is recorded again. */
  lemma NotDropped(o: Json, intents: seq<Json>, r: Request, i: nat, q: Path)
    requires Records(Entries(o), intents) && IsSlot(Entries(o), r.manager, i) && i < |intents|
    requires Render(q) in Leaves(FieldsV1(intents[i]), "") && Prunable(q) && Spares(DroppedBy(o, r), q)
    ensures Render(q) in Leaves(FieldsV1(r.applied), "")
  {
    TargetIffPrunable(q);
    AimedAt(DroppedBy(o, r), q);
    hide Leaves, FieldsV1, Records, DroppedBy, Target, Prunable, IsSlot;
    DroppedWasRecorded(o, intents, r, i, Render(q));
  }

  lemma AimedAt(pointers: seq<string>, q: Path)
    requires Spares(pointers, q) && Target(q) <= q
    ensures Render(q) !in pointers
  {
    assert Target(q) == Aim(Render(q));
  }

  lemma AppliedIsOwned(o: Json, intents: seq<Json>, r: Request, i: nat, q: Path, x: Json)
    requires Inv(o, intents) && GoodIntent(r.applied) && IsSlot(Entries(o), r.manager, i)
    requires HasField(Applied(o, r), q, x) && q != MANAGED
    ensures !x.Null? && Prunable(q) && OwnedBySome(Without(intents, i) + [r.applied], q)
  {
    var after := Without(intents, i) + [r.applied];
    if MANAGED <= q {
      NothingBelowManaged(Merged(o, r), Others(Entries(Merged(o, r)), r.manager) + [EntryOf(r)], q, x);
    }
    AppliedFieldIff(o, r, q, x);
    hide Applied, Leaves, FieldsV1, Prunable;
    if HasField(r.applied, q, x) && !x.Null? {
      OwnLeaf(r.applied, q);
      assert after[|after| - 1] == r.applied;
    } else {
      StillOwned(o, intents, r, i, q);
    }
  }

  lemma ApplyKeepsInv(o: Json, intents: seq<Json>, r: Request) returns (after: seq<Json>)
    requires Inv(o, intents) && GoodIntent(r.applied)
    ensures Inv(Applied(o, r), after)
  {
    var i := SlotExists(Entries(o), intents, r.manager);
    after := Without(intents, i) + [r.applied];
    ManagedStay(o, intents, r, i);
    SlotIsLeftOut(Entries(o), r.manager, i);
    RecordsOneMore(Entries(o), intents, r, i);
    RecordedEntries(Merged(o, r), Others(Entries(Merged(o, r)), r.manager) + [EntryOf(r)]);
    hide FieldsV1, Leaves, Merged, Previous, GoodIntent, Records, OwnedBySome, Recorded, Entries, HasField, Shaped, Prunable;
    forall q, x | HasField(Applied(o, r), q, x) && q != MANAGED ensures !x.Null? && Prunable(q) && OwnedBySome(after, q) {
      AppliedIsOwned(o, intents, r, i, q, x);
    }
  }

  // ---------------------------------------------------------------- every run

  /** A refused apply leaves the object as it was. */
  function Next(o: Json, r: Request, refused: bool): Json
    requires r.applied.Object?
  {
    if refused then o else Applied(o, r)
  }

  ghost predicate Run(states: seq<Json>, requests: seq<Request>) {
    && |states| == |requests| + 1 && states[0] == Object(map[])
    && (forall i | 0 <= i < |requests| :: GoodIntent(requests[i].applied))
    && forall i | 0 <= i < |requests| ::
      states[i + 1] == Next(states[i], requests[i], !requests[i].force && HasConflict(states[i], requests[i]))
  }

  lemma NothingYet()
    ensures Inv(Object(map[]), [])
  {
    forall q, x ensures !HasField(Object(map[]), q, x) {
    }
  }

  lemma {:induction false} RunKeepsInv(states: seq<Json>, requests: seq<Request>, n: nat) returns (intents: seq<Json>)
    requires Run(states, requests) && n < |states|
    ensures Inv(states[n], intents)
  {
    if n == 0 {
      NothingYet();
      intents := [];
    } else {
      intents := RunKeepsInv(states, requests, n - 1);
      hide Inv, HasConflict, Applied, GoodIntent;
      if states[n] != states[n - 1] {
        intents := ApplyKeepsInv(states[n - 1], intents, requests[n - 1]);
      }
    }
  }

  /** Each manager has at most one entry. */
  lemma OneEntryPerManager(states: seq<Json>, requests: seq<Request>, n: nat, i: nat, j: nat)
    requires Run(states, requests) && n < |states| && i < |Entries(states[n])| && j < |Entries(states[n])|
    requires ManagerOf(Entries(states[n])[i]) == ManagerOf(Entries(states[n])[j])
    ensures i == j
  {
    var intents := RunKeepsInv(states, requests, n);
  }

  /** Every scalar or array outside the managed fields is owned by some manager. */
  lemma EveryFieldIsOwned(states: seq<Json>, requests: seq<Request>, n: nat, q: Path, x: Json)
    requires Run(states, requests) && n < |states| && HasField(states[n], q, x) && q != MANAGED
    ensures exists e :: e in Entries(states[n]) && Render(q) in EntryLeaves(e)
  {
    var intents := RunKeepsInv(states, requests, n);
    var i :| 0 <= i < |intents| && Render(q) in Leaves(FieldsV1(intents[i]), "");
    assert Entries(states[n])[i] in Entries(states[n]);
  }

  /**
   * An unforced success leaves unchanged every scalar or array of its intent that another manager
   * owned, where the keys are ones a pointer reads as themselves.
   */
  lemma UnforcedKeepsOthers(o: Json, r: Request, q: Path, x: Json)
    requires Untouched(r.applied, MANAGED) && !HasConflict(o, r)
    requires HasField(r.applied, q, x) && !x.Null? && OwnerOf(Entries(o), r.manager, Render(q)).Some? && Legible(q)
    ensures Get(Applied(o, r), q) == Get(o, q) == Some(x)
  {
    hide Applied, FieldsV1, Leaves, OwnerOf;
    OwnLeaf(r.applied, q);
    assert !Conflicts(o, r.applied, Entries(o), r.manager, Render(q));
    PointerGets(o, q);
    PointerGets(r.applied, q);
    TokensIff(q);
    FoundIsGot(r.applied, q);
    AppliedHas(o, r, q, x);
    FoundIsGot(Applied(o, r), q);
  }

  /** Every field of the intent that is not null is there afterwards. */
  lemma AppliedHas(o: Json, r: Request, q: Path, x: Json)
    requires Untouched(r.applied, MANAGED) && HasField(r.applied, q, x) && !x.Null?
    ensures HasField(Applied(o, r), q, x)
  {
    var pruned := RemoveAll(o, DroppedBy(o, r));
    var merged := Merged(o, r);
    MergeTakes(pruned, r.applied, q, x);
    UntouchedIsAbsent(r.applied, MANAGED, q);
    if q[0] == "metadata" {
      MergedMetadata(pruned, r.applied);
    }
    RecordedFields(merged, Others(Entries(merged), r.manager) + [EntryOf(r)], q, x);
  }

  lemma MergedMetadata(doc: Json, a: Json)
    requires Untouched(a, MANAGED) && "metadata" in a.members
    ensures Shaped(Merge(doc, a))
  {
    var base := Members(doc);
    assert Merge(doc, a).members["metadata"] == Merge(if "metadata" in base then base["metadata"] else Null, a.members["metadata"]);
  }

  /**
   * A field the intent does not set stays after a success exactly if the intent does not reach it
   * and no dropped pointer aims at it or above it, whoever owns it.
   */
  lemma UnsetFieldStaysIff(o: Json, r: Request, q: Path, x: Json)
    requires Shaped(o) && Untouched(r.applied, MANAGED) && !(MANAGED <= q)
    requires HasField(o, q, x) && forall y :: !HasField(r.applied, q, y)
    ensures HasField(Applied(o, r), q, x) <==> Untouched(r.applied, q) && Spares(DroppedBy(o, r), q)
  {
    AppliedFieldIff(o, r, q, x);
  }

  // ---------------------------------------------------------------- the second of two applies

  const EMPTY := Object(map[])

  lemma FirstApply(r: Request)
    requires Untouched(r.applied, MANAGED)
    ensures Entries(EMPTY) == [] && Shaped(EMPTY) && !HasConflict(EMPTY, r)
    ensures Entries(Applied(EMPTY, r)) == [EntryOf(r)] && Shaped(Applied(EMPTY, r))
  {
    assert DroppedBy(EMPTY, r) == [];
    assert Merged(EMPTY, r) == Merge(EMPTY, r.applied);
    ManagedEntries(EMPTY);
    assert MANAGED[1..] == ["managedFields"];
    MergeLeavesUntouched(EMPTY, r.applied, MANAGED);
    ManagedEntries(Merge(EMPTY, r.applied));
    RecordedEntries(Merged(EMPTY, r), [EntryOf(r)]);
  }

  /** After one apply, a second by the same manager drops exactly the leaves it does not have. */
  lemma SecondDrops(r: Request, t: Request, l: string)
    requires Untouched(r.applied, MANAGED) && r.manager == t.manager
    ensures l in DroppedBy(Applied(EMPTY, r), t) <==>
            l in Leaves(FieldsV1(r.applied), "") && l !in Leaves(FieldsV1(t.applied), "")
  {
    FirstApply(r);
    var entries := [EntryOf(r)];
    assert ManagerOf(entries[0]) == r.manager && EntryLeaves(entries[0]) == Leaves(FieldsV1(r.applied), "");
    assert entries[..0] == [] && entries[1..] == [];
    hide Leaves, FieldsV1, Applied, Merged;
    DroppedAre(Previous(entries, t.manager), Leaves(FieldsV1(t.applied), ""), l);
  }

  lemma SecondIsAccepted(r: Request, t: Request)
    requires Untouched(r.applied, MANAGED) && r.manager == t.manager
    ensures !HasConflict(Applied(EMPTY, r), t)
  {
    FirstApply(r);
    var entries := [EntryOf(r)];
    assert ManagerOf(entries[0]) == t.manager && entries[1..] == [];
    hide Leaves, FieldsV1, Applied;
    assert forall leaf :: OwnerOf(entries, t.manager, leaf) == None;
  }

  lemma SecondEntries(r: Request, t: Request)
    requires Untouched(r.applied, MANAGED) && Untouched(t.applied, MANAGED) && r.manager == t.manager
    requires Spares(DroppedBy(Applied(EMPTY, r), t), MANAGED)
    ensures Entries(Applied(Applied(EMPTY, r), t)) == [EntryOf(t)]
  {
    var s := Applied(EMPTY, r);
    FirstApply(r);
    SparedManagedStay(s, t);
    OneEntry(r, t);
    RecordedEntries(Merged(s, t), Others(Entries(Merged(s, t)), t.manager) + [EntryOf(t)]);
  }

  ghost predicate Orphaned(o: Json, q: Path) { forall e | e in Entries(o) :: Render(q) !in EntryLeaves(e) }

  /**
   * A manager applies a field and then an intent that lacks it, and drops nothing else: the field
   * stays, owned by nobody, exactly if its keys are not ones a pointer survives.
   */
  lemma OrphanedIff(r: Request, t: Request, q: Path, x: Json)
    requires Untouched(r.applied, MANAGED) && Untouched(t.applied, MANAGED) && r.manager == t.manager
    requires HasField(r.applied, q, x) && !x.Null? && Untouched(t.applied, q) && !(Target(q) <= MANAGED)
    requires Render(q) !in Leaves(FieldsV1(t.applied), "")
    requires forall p | IsLeaf(r.applied, p) :: p == q || Render(p) in Leaves(FieldsV1(t.applied), "")
    ensures var s := Applied(Applied(EMPTY, r), t); HasField(s, q, x) && Orphaned(s, q) <==> !Prunable(q)
  {
    var s := Applied(EMPTY, r);
    FirstApply(r);
    AppliedHas(EMPTY, r, q, x);
    OwnLeaf(r.applied, q);
    DropsJust(r, t, q);
    OnlyDropped(s, t, q);
    UntouchedIsAbsent(r.applied, MANAGED, q);
    KeptIff(s, t, q, x);
    TargetIffPrunable(q);
    SecondEntries(r, t);
    OneEntry(r, t);
    hide Applied, Leaves, FieldsV1, DroppedBy, EntryOf, Entries, Spares, Prunable, Target, HasField, EntryLeaves;
    assert Orphaned(Applied(s, t), q);
  }

  /** A field of the object that the intent does not reach. */
  lemma KeptIff(o: Json, r: Request, q: Path, x: Json)
    requires Shaped(o) && Untouched(r.applied, MANAGED) && !(MANAGED <= q) && HasField(o, q, x) && Untouched(r.applied, q)
    ensures HasField(Applied(o, r), q, x) <==> Spares(DroppedBy(o, r), q)
  {
    AppliedFieldIff(o, r, q, x);
    hide Applied, DroppedBy;
    if Find(r.applied, q).Some? {
      UntouchedIsAbsent(r.applied, q, q);
    }
  }

  lemma DropsJust(r: Request, t: Request, q: Path)
    requires Untouched(r.applied, MANAGED) && r.manager == t.manager && IsLeaf(r.applied, q)
    requires Render(q) !in Leaves(FieldsV1(t.applied), "")
    requires forall p | IsLeaf(r.applied, p) :: p == q || Render(p) in Leaves(FieldsV1(t.applied), "")
    ensures forall l :: l in DroppedBy(Applied(EMPTY, r), t) <==> l == Render(q)
  {
    OwnLeaf(r.applied, q);
    hide Applied, DroppedBy, Leaves, FieldsV1;
    forall l ensures l in DroppedBy(Applied(EMPTY, r), t) <==> l == Render(q) {
      SecondDrops(r, t, l);
      if l in Leaves(FieldsV1(r.applied), "") {
        var p := LeafHasPath(r.applied, "", l);
        assert "" + Render(p) == Render(p);
      }
    }
  }

  lemma OnlyDropped(s: Json, t: Request, q: Path)
    requires forall l :: l in DroppedBy(s, t) <==> l == Render(q)
    ensures forall p :: Spares(DroppedBy(s, t), p) <==> !(Target(q) <= p)
  {
    var dropped := DroppedBy(s, t);
    assert Render(q) in dropped && Aim(Render(q)) == Target(q);
    var k :| 0 <= k < |dropped| && dropped[k] == Render(q);
    forall p ensures Spares(dropped, p) <==> !(Target(q) <= p) {
      assert forall i | 0 <= i < |dropped| :: dropped[i] in dropped;
    }
  }

  lemma OneEntry(r: Request, t: Request)
    requires r.manager == t.manager
    ensures Others([EntryOf(r)], t.manager) == [] && EntryLeaves(EntryOf(t)) == Leaves(FieldsV1(t.applied), "")
  {
    assert [EntryOf(r)][..0] == [];
  }

  // ---------------------------------------------------------------- runs that break the promise

  const NAMED := Object(map["name" := String("n")])

  const NAME: Path := ["metadata", "name"]

  /** A named object with one more member. */
  function With(k: string, v: Json): Json { Object(map["metadata" := NAMED, k := v]) }

  const BARE := Object(map["metadata" := NAMED])

  function Nested(k: string, x: Json): Json { Object(map[k := x]) }

  lemma NestedLeaves(k: string, x: Json, p: Path)
    requires !x.Object?
    ensures IsLeaf(Nested(k, x), p) <==> p == [k]
    ensures p == [k] ==> Find(Nested(k, x), p) == Some(x)
  {
    FindOne(Nested(k, x), k);
    if p != [] && p[0] == k && IsLeaf(Nested(k, x), p) {
      assert Find(x, p[1..]).Some?;
      assert p == [k] + p[1..];
    }
  }

  lemma MemberLeaf(v: Json, p: Path)
    requires v.Object? && v.members != map[]
    ensures IsLeaf(v, p) <==> p != [] && p[0] in v.members && IsLeaf(v.members[p[0]], p[1..])
  {
  }

  lemma NameLeaf(p: Path)
    requires p != [] && p[0] == "metadata"
    ensures IsLeaf(NAMED, p[1..]) <==> p == NAME
  {
    assert NAMED == Nested("name", String("n")) && NAME == ["metadata"] + ["name"] && p == ["metadata"] + p[1..];
    NestedLeaves("name", String("n"), p[1..]);
  }

  lemma BareLeaves(p: Path)
    ensures IsLeaf(BARE, p) <==> p == NAME
  {
    assert "metadata" in BARE.members;
    MemberLeaf(BARE, p);
    hide IsLeaf;
    if p != [] && p[0] == "metadata" {
      NameLeaf(p);
    }
  }

  lemma WithLeaves(k: string, v: Json, p: Path)
    requires k != "metadata"
    ensures IsLeaf(With(k, v), p) <==> p == NAME || (p != [] && p[0] == k && IsLeaf(v, p[1..]))
  {
    assert "metadata" in With(k, v).members;
    MemberLeaf(With(k, v), p);
    hide IsLeaf;
    if p != [] && p[0] == "metadata" {
      NameLeaf(p);
    }
  }

  lemma NamedSparesManaged(k: string, v: Json)
    requires k != "metadata"
    ensures Untouched(With(k, v), MANAGED) && Untouched(BARE, MANAGED)
  {
    assert MANAGED[1..] == ["managedFields"];
    assert Untouched(NAMED, ["managedFields"]);
  }

  /**
   * One manager applies a member under `k` and then drops it: the field stays, owned by nobody,
   * exactly if its two keys are not ones a pointer survives.
   */
  lemma DroppedMemberIsOrphanedIff(k: string, j: string, x: Json, manager: string)
    requires k != "metadata" && !x.Object? && !x.Null? && Render([k, j]) != Render(NAME) && !(Target([k, j]) <= MANAGED)
    ensures var r, t := Request(With(k, Nested(j, x)), manager, "1", false), Request(BARE, manager, "2", false);
            var s := Applied(EMPTY, r);
            && !HasConflict(EMPTY, r) && !HasConflict(s, t)
            && (HasField(Applied(s, t), [k, j], x) && Orphaned(Applied(s, t), [k, j]) <==> !Prunable([k, j]))
  {
    var r, t := Request(With(k, Nested(j, x)), manager, "1", false), Request(BARE, manager, "2", false);
    var q := [k, j];
    NamedSparesManaged(k, Nested(j, x));
    FirstApply(r);
    SecondIsAccepted(r, t);
    MemberIsField(k, j, x);
    BareHasOnlyName(q);
    forall p | IsLeaf(r.applied, p) ensures p == q || Render(p) in Leaves(FieldsV1(BARE), "") {
      WithLeaves(k, Nested(j, x), p);
      if p != NAME {
        NestedLeaves(j, x, p[1..]);
        assert p == [k] + p[1..];
      }
    }
    hide Applied, HasConflict, FieldsV1, Leaves, Orphaned, Prunable, Target;
    OrphanedIff(r, t, q, x);
  }

  lemma MemberIsField(k: string, j: string, x: Json)
    requires k != "metadata" && !x.Object?
    ensures HasField(With(k, Nested(j, x)), [k, j], x) && Untouched(BARE, [k, j])
  {
    FindTwo(With(k, Nested(j, x)), k, j);
    FindOne(Nested(j, x), j);
  }

  lemma BareHasOnlyName(q: Path)
    ensures Render(q) in Leaves(FieldsV1(BARE), "") <==> Render(q) == Render(NAME)
    ensures Render(NAME) in Leaves(FieldsV1(BARE), "")
  {
    BareLeaves(NAME);
    OwnLeaf(BARE, NAME);
    hide FieldsV1, Leaves;
    if Render(q) in Leaves(FieldsV1(BARE), "") {
      var p := LeafHasPath(BARE, "", Render(q));
      assert "" + Render(p) == Render(p);
      BareLeaves(p);
    }
  }

  /** The field under an empty key: dropped, still there, and nobody's. */
  lemma EmptyKeyIsOrphaned(x: Json, manager: string)
    requires !x.Object? && !x.Null?
    ensures var r, t := Request(With("", Nested("a", x)), manager, "1", false), Request(BARE, manager, "2", false);
            var s := Applied(EMPTY, r);
            && !HasConflict(EMPTY, r) && !HasConflict(s, t)
            && HasField(Applied(s, t), ["", "a"], x) && Orphaned(Applied(s, t), ["", "a"])
  {
    var q := ["", "a"];
    assert q[1..] == ["a"] && ["a"][1..] == [] && NAME[1..] == ["name"] && ["name"][1..] == [];
    assert Render(["a"]) == "/a" && Render(q) == "//a" && Render(["name"]) == "/name" && Render(NAME) == "/metadata/name";
    assert "//a"[1..] == "/a" && "/a"[1..] == "a";
    assert TrimSlashes("//a") == "a";
    SplitLast("a", '/');
    assert Target(q) == ["a"];
    assert !(["a"] <= MANAGED) by { assert MANAGED[0] == "metadata"; }
    assert !OnlySlashes("a") by { assert "a"[0] != '/'; }
    assert !Prunable(q) by { assert q[1] == "a"; }
    assert "//a"[1] != "/metadata/name"[1];
    DroppedMemberIsOrphanedIff("", "a", x, manager);
  }

  // ---------------------------------------------------------------- fields of another manager

  ghost predicate Claims(o: Json, manager: string, q: Path) {
    exists i :: 0 <= i < |Entries(o)| && ManagerOf(Entries(o)[i]) == manager && Render(q) in EntryLeaves(Entries(o)[i])
  }

  /** After one apply, one by another manager drops nothing and leaves the first entry. */
  lemma OtherManager(r: Request, t: Request)
    requires Untouched(r.applied, MANAGED) && Untouched(t.applied, MANAGED) && r.manager != t.manager
    ensures DroppedBy(Applied(EMPTY, r), t) == [] && Entries(Applied(Applied(EMPTY, r), t)) == [EntryOf(r), EntryOf(t)]
    ensures Shaped(Applied(Applied(EMPTY, r), t))
  {
    var s, entries := Applied(EMPTY, r), [EntryOf(r)];
    FirstApply(r);
    assert ManagerOf(entries[0]) == r.manager && !IsBy(entries[0], t.manager) && entries[..0] == [];
    hide Leaves, FieldsV1, Applied, Merged, EntryOf;
    OthersAreAll(entries, t.manager);
    assert Previous(entries, t.manager) == [];
    OtherEntries(r, t);
  }

  lemma AppliedEntries(o: Json, r: Request)
    requires r.applied.Object?
    ensures Entries(Applied(o, r)) == Others(Entries(Merged(o, r)), r.manager) + [EntryOf(r)] && Shaped(Applied(o, r))
  {
    RecordedEntries(Merged(o, r), Others(Entries(Merged(o, r)), r.manager) + [EntryOf(r)]);
  }

  lemma OtherEntries(r: Request, t: Request)
    requires Untouched(r.applied, MANAGED) && Untouched(t.applied, MANAGED)
    requires DroppedBy(Applied(EMPTY, r), t) == [] && Others([EntryOf(r)], t.manager) == [EntryOf(r)]
    ensures Entries(Applied(Applied(EMPTY, r), t)) == [EntryOf(r), EntryOf(t)] && Shaped(Applied(Applied(EMPTY, r), t))
  {
    hide Applied, Merged, DroppedBy, EntryOf, Entries, Others, HasConflict;
    var s := Applied(EMPTY, r);
    FirstApply(r);
    assert Spares([], MANAGED);
    SparedManagedStay(s, t);
    AppliedEntries(s, t);
    assert [EntryOf(r)] + [EntryOf(t)] == [EntryOf(r), EntryOf(t)];
  }

  /** A second manager's intent is accepted if the pointers it shares with the first's read the same in both. */
  lemma AgreeingIsAccepted(r: Request, t: Request)
    requires Untouched(r.applied, MANAGED)
    requires forall l | l in Leaves(FieldsV1(t.applied), "") && l in Leaves(FieldsV1(r.applied), "") ::
      Pointer(Applied(EMPTY, r), l) == Pointer(t.applied, l)
    ensures !HasConflict(Applied(EMPTY, r), t)
  {
    FirstApply(r);
    var entries := [EntryOf(r)];
    assert EntryLeaves(entries[0]) == Leaves(FieldsV1(r.applied), "") && entries[1..] == [];
    hide Leaves, FieldsV1, Applied;
    assert forall l | OwnerOf(entries, t.manager, l).Some? :: l in Leaves(FieldsV1(r.applied), "");
  }

  lemma NameAgrees(r: Request, t: Request)
    requires Untouched(r.applied, MANAGED) && HasField(r.applied, NAME, String("n")) && HasField(t.applied, NAME, String("n"))
    ensures Pointer(Applied(EMPTY, r), Render(NAME)) == Pointer(t.applied, Render(NAME))
  {
    AppliedHas(EMPTY, r, NAME, String("n"));
    NameIsLegible();
    hide Applied, Legible, HasField, Pointer, Untouched, Render;
    ReadsField(Applied(EMPTY, r), NAME, String("n"));
    ReadsField(t.applied, NAME, String("n"));
  }

  /** Whatever a pointer reads, it reads the same in objects that hold the same there. */
  lemma ReadsField(o: Json, q: Path, x: Json)
    requires q != [] && HasField(o, q, x) && Legible(q)
    ensures Pointer(o, Render(q)) == Some(x)
  {
    PointerGets(o, q);
    TokensIff(q);
    FoundIsGot(o, q);
  }

  lemma NameIsLegible()
    ensures Legible(NAME)
  {
    assert NAME[0] == "metadata" && NAME[1] == "name";
  }

  lemma WithHasName(k: string, v: Json)
    requires k != "metadata"
    ensures HasField(With(k, v), NAME, String("n")) && HasField(BARE, NAME, String("n"))
  {
    FindTwo(With(k, v), "metadata", "name");
    FindTwo(BARE, "metadata", "name");
    FindOne(NAMED, "name");
  }

  /** The pointers recorded for a scalar under `k`. */
  lemma ScalarPointers(k: string, y: Json, l: string)
    requires k != "metadata" && !y.Object? && l in Leaves(FieldsV1(With(k, y)), "")
    ensures l == Render(NAME) || l == Render([k])
  {
    var p := LeafHasPath(With(k, y), "", l);
    assert "" + Render(p) == Render(p);
    WithLeaves(k, y, p);
    assert p != NAME ==> p[1..] == [] && p == [k] + p[1..];
  }

  /** The pointers recorded for a member under `k`. */
  lemma MemberPointers(k: string, j: string, x: Json, l: string)
    requires k != "metadata" && !x.Object?
    ensures l in Leaves(FieldsV1(With(k, Nested(j, x))), "") <==> l == Render(NAME) || l == Render([k, j])
  {
    var v := With(k, Nested(j, x));
    WithHasName(k, Nested(j, x));
    MemberIsField(k, j, x);
    OwnLeaf(v, NAME);
    OwnLeaf(v, [k, j]);
    hide FieldsV1, Leaves;
    if l in Leaves(FieldsV1(v), "") {
      var p := LeafHasPath(v, "", l);
      assert "" + Render(p) == Render(p);
      WithLeaves(k, Nested(j, x), p);
      if p != NAME {
        NestedLeaves(j, x, p[1..]);
        assert p == [k] + p[1..];
      }
    }
  }

  /**
   * A scalar in place of another manager's object meets no conflict: the owner has no leaf of that
   * name, and its field goes while it still claims it.
   */
  lemma ScalarReplacesMembers(k: string, j: string, x: Json, y: Json, owner: string, other: string)
    requires k != "metadata" && !x.Object? && !x.Null? && !y.Object? && !y.Null? && owner != other && Render([k]) != Render(NAME)
    ensures var r, t := Request(With(k, Nested(j, x)), owner, "1", false), Request(With(k, y), other, "2", false);
            var s := Applied(EMPTY, r);
            && !HasConflict(EMPTY, r) && HasField(s, [k, j], x) && !HasConflict(s, t)
            && !HasField(Applied(s, t), [k, j], x) && Claims(Applied(s, t), owner, [k, j])
  {
    var r, t := Request(With(k, Nested(j, x)), owner, "1", false), Request(With(k, y), other, "2", false);
    var s, q := Applied(EMPTY, r), [k, j];
    NamedSparesManaged(k, Nested(j, x));
    NamedSparesManaged(k, y);
    FirstApply(r);
    MemberIsField(k, j, x);
    AppliedHas(EMPTY, r, q, x);
    ScalarIsAccepted(r, t, k, j, x, y);
    ScalarReaches(s, t, k, j, x, y);
    OtherManager(r, t);
    FirstStillClaims(r, t, q);
  }

  lemma ScalarIsAccepted(r: Request, t: Request, k: string, j: string, x: Json, y: Json)
    requires k != "metadata" && !x.Object? && !y.Object? && Render([k]) != Render(NAME)
    requires r.applied == With(k, Nested(j, x)) && t.applied == With(k, y)
    ensures !HasConflict(Applied(EMPTY, r), t)
  {
    NamedSparesManaged(k, Nested(j, x));
    WithHasName(k, Nested(j, x));
    WithHasName(k, y);
    NameAgrees(r, t);
    assert [k, j][1..] == [j] && [k][1..] == [];
    assert |Render([k])| < |Render([k, j])|;
    hide FieldsV1, Leaves, Applied, Pointer, Render;
    forall l | l in Leaves(FieldsV1(t.applied), "") && l in Leaves(FieldsV1(r.applied), "")
      ensures Pointer(Applied(EMPTY, r), l) == Pointer(t.applied, l)
    {
      ScalarPointers(k, y, l);
      MemberPointers(k, j, x, l);
    }
    AgreeingIsAccepted(r, t);
  }

  lemma ScalarReaches(s: Json, t: Request, k: string, j: string, x: Json, y: Json)
    requires k != "metadata" && !x.Object? && !y.Object? && t.applied == With(k, y) && Shaped(s)
    ensures !HasField(Applied(s, t), [k, j], x)
  {
    NamedSparesManaged(k, y);
    FindTwo(t.applied, k, j);
    assert [k, j][1..] == [j];
    assert !Untouched(t.applied, [k, j]);
    AppliedFieldIff(s, t, [k, j], x);
  }

  lemma FirstStillClaims(r: Request, t: Request, q: Path)
    requires r.applied.Object? && t.applied.Object?
    requires Entries(Applied(Applied(EMPTY, r), t)) == [EntryOf(r), EntryOf(t)] && IsLeaf(r.applied, q)
    ensures Claims(Applied(Applied(EMPTY, r), t), r.manager, q)
  {
    OwnLeaf(r.applied, q);
    EntryClaims(r);
    hide Applied, Leaves, FieldsV1, EntryOf, IsLeaf, EntryLeaves, ManagerOf;
    ClaimsAt(Applied(Applied(EMPTY, r), t), 0, r.manager, q);
  }

  lemma EntryClaims(r: Request)
    ensures ManagerOf(EntryOf(r)) == r.manager && EntryLeaves(EntryOf(r)) == Leaves(FieldsV1(r.applied), "")
    ensures At(EntryOf(r), "fieldsV1") == FieldsV1(r.applied)
  {
  }

  lemma ClaimsAt(o: Json, n: nat, manager: string, q: Path)
    requires n < |Entries(o)| && ManagerOf(Entries(o)[n]) == manager && Render(q) in EntryLeaves(Entries(o)[n])
    ensures Claims(o, manager, q)
  {
  }

  /**
   * A leaf two managers own is pruned when either drops it, with no conflict possible for a leaf
   * that is not applied, and the other goes on claiming it.
   */
  lemma CoOwnedLeafIsPruned(o: Json, intents: seq<Json>, r: Request, i: nat, j: nat, q: Path, x: Json)
    requires Inv(o, intents) && Untouched(r.applied, MANAGED) && IsSlot(Entries(o), r.manager, i) && i < |intents|
    requires j < |intents| && j != i && Render(q) in Leaves(FieldsV1(intents[i]), "") && Render(q) in Leaves(FieldsV1(intents[j]), "")
    requires HasField(o, q, x) && q != MANAGED && Render(q) !in Leaves(FieldsV1(r.applied), "")
    ensures !HasField(Applied(o, r), q, x) && Claims(Applied(o, r), ManagerOf(Entries(o)[j]), q)
  {
    NotThere(o, intents, r, i, q, x);
    OtherStillClaims(o, intents, r, i, j, q);
  }

  lemma NotThere(o: Json, intents: seq<Json>, r: Request, i: nat, q: Path, x: Json)
    requires Inv(o, intents) && Untouched(r.applied, MANAGED) && IsSlot(Entries(o), r.manager, i) && i < |intents|
    requires Render(q) in Leaves(FieldsV1(intents[i]), "") && Render(q) !in Leaves(FieldsV1(r.applied), "")
    requires HasField(o, q, x) && q != MANAGED
    ensures !HasField(Applied(o, r), q, x)
  {
    if HasField(Applied(o, r), q, x) {
      if MANAGED <= q {
        NothingBelowManaged(Merged(o, r), Others(Entries(Merged(o, r)), r.manager) + [EntryOf(r)], q, x);
      }
      AppliedFieldIff(o, r, q, x);
      if HasField(r.applied, q, x) {
        OwnLeaf(r.applied, q);
      } else {
        NotDropped(o, intents, r, i, q);
      }
    }
  }

  lemma OtherStillClaims(o: Json, intents: seq<Json>, r: Request, i: nat, j: nat, q: Path)
    requires Inv(o, intents) && Untouched(r.applied, MANAGED) && IsSlot(Entries(o), r.manager, i)
    requires j < |intents| && j != i && Render(q) in Leaves(FieldsV1(intents[j]), "")
    ensures Claims(Applied(o, r), ManagerOf(Entries(o)[j]), q)
  {
    var entries := Entries(o);
    ManagedStay(o, intents, r, i);
    SlotIsLeftOut(entries, r.manager, i);
    var after := Without(entries, i) + [EntryOf(r)];
    RecordedEntries(Merged(o, r), after);
    assert Entries(Applied(o, r)) == after;
    var n := if j < i then j else if i < |entries| then j - 1 else j;
    assert after[n] == entries[j];
    assert EntryLeaves(entries[j]) == Leaves(FieldsV1(intents[j]), "");
    hide Applied, Merged, Leaves, FieldsV1, Others, Previous, EntryOf, GoodIntent, Inv, Records, IsSlot, EntryLeaves, Entries, ManagerOf;
    ClaimsAt(Applied(o, r), n, ManagerOf(entries[j]), q);
  }

  lemma MemberIsGood(k: string, j: string, x: Json)
    requires k != "metadata" && k != "" && !x.Object? && Legible([k, j])
    ensures GoodIntent(With(k, Nested(j, x))) && Prunable([k, j]) && !([k, j] <= MANAGED)
  {
    var q := [k, j];
    NamedSparesManaged(k, Nested(j, x));
    NameIsLegible();
    PlainIsPrunable(q);
    PlainIsPrunable(NAME);
    assert !(NAME <= MANAGED) by { assert NAME[1] != MANAGED[1]; }
    assert q[0] != MANAGED[0];
    hide Target, Prunable, Legible, Untouched;
    forall p | IsLeaf(With(k, Nested(j, x)), p) ensures p == q || p == NAME {
      MemberLeaves(k, j, x, p);
    }
    GoodLeaves(With(k, Nested(j, x)), q);
  }

  lemma GoodLeaves(v: Json, q: Path)
    requires Untouched(v, MANAGED) && (forall p | IsLeaf(v, p) :: p == q || p == NAME)
    requires Prunable(q) && Prunable(NAME) && !(Target(q) <= MANAGED) && !(Target(NAME) <= MANAGED)
    ensures GoodIntent(v)
  {
    hide Target, Prunable, Untouched;
    forall p, y | HasField(v, p, y) ensures IsLeaf(v, p) {
    }
  }

  lemma MemberLeaves(k: string, j: string, x: Json, p: Path)
    requires k != "metadata" && !x.Object? && IsLeaf(With(k, Nested(j, x)), p)
    ensures p == [k, j] || p == NAME
  {
    WithLeaves(k, Nested(j, x), p);
    if p != NAME {
      NestedLeaves(j, x, p[1..]);
      assert p == [k] + p[1..];
    }
  }

  lemma PlainIsPrunable(q: Path)
    requires q != [] && q[0] != "" && Legible(q)
    ensures Prunable(q) && Target(q) == q
  {
    assert Slashless(q);
    TargetIffPrunable(q);
  }

  /** Two managers apply one member, the first drops it: the field is gone and the second claims it. */
  lemma CoOwnedRun(k: string, j: string, x: Json, first: string, second: string)
    requires k != "metadata" && k != "" && !x.Object? && !x.Null? && Legible([k, j]) && first != second
    ensures var a := With(k, Nested(j, x));
            var r, t, u := Request(a, first, "1", false), Request(a, second, "2", false), Request(BARE, first, "3", false);
            var s1 := Applied(EMPTY, r);
            var s2 := Applied(s1, t);
            && !HasConflict(EMPTY, r) && !HasConflict(s1, t) && !HasConflict(s2, u)
            && HasField(s2, [k, j], x) && !HasField(Applied(s2, u), [k, j], x) && Claims(Applied(s2, u), second, [k, j])
  {
    var a, q := With(k, Nested(j, x)), [k, j];
    var r, t, u := Request(a, first, "1", false), Request(a, second, "2", false), Request(BARE, first, "3", false);
    var s1 := Applied(EMPTY, r);
    var s2 := Applied(s1, t);
    MemberIsGood(k, j, x);
    FirstApply(r);
    OtherManager(r, t);
    MemberIsField(k, j, x);
    AppliedHas(s1, t, q, x);
    SameIsAccepted(r, t, k, j, x);
    BareIsAccepted(r, t, u, k, j, x);
    NothingYet();
    var before := ApplyKeepsInv(EMPTY, [], r);
    var intents := ApplyKeepsInv(s1, before, t);
    OwnLeaf(a, q);
    EntryClaims(r);
    EntryClaims(t);
    NamedSparesManaged(k, Nested(j, x));
    TwoEntries(s2, intents, r, t);
    BareHasOnlyName(q);
    NotName(k, j);
    hide Applied, FieldsV1, Leaves, Inv, HasField, Entries, GoodIntent, HasConflict, Render, EntryOf;
    CoOwnedLeafIsPruned(s2, intents, u, 0, 1, q, x);
  }

  lemma NotName(k: string, j: string)
    requires k != "metadata" && Legible([k, j])
    ensures Render([k, j]) != Render(NAME) && [k, j] != MANAGED
  {
    NameIsLegible();
    if Render([k, j]) == Render(NAME) {
      RenderIsInjective([k, j], NAME);
    }
  }

  lemma TwoEntries(o: Json, intents: seq<Json>, r: Request, t: Request)
    requires Inv(o, intents) && Entries(o) == [EntryOf(r), EntryOf(t)] && r.manager != t.manager
    ensures |intents| == 2 && FieldsV1(intents[0]) == FieldsV1(r.applied) && FieldsV1(intents[1]) == FieldsV1(t.applied)
    ensures IsSlot(Entries(o), r.manager, 0) && ManagerOf(Entries(o)[1]) == t.manager
  {
    EntryClaims(r);
    EntryClaims(t);
    hide EntryOf, FieldsV1, GoodIntent, HasField;
    assert At(Entries(o)[0], "fieldsV1") == FieldsV1(intents[0]) && At(Entries(o)[1], "fieldsV1") == FieldsV1(intents[1]);
  }

  lemma SameIsAccepted(r: Request, t: Request, k: string, j: string, x: Json)
    requires k != "metadata" && !x.Object? && !x.Null? && Legible([k, j]) && r.applied == t.applied == With(k, Nested(j, x))
    ensures !HasConflict(Applied(EMPTY, r), t)
  {
    var q := [k, j];
    NamedSparesManaged(k, Nested(j, x));
    WithHasName(k, Nested(j, x));
    NameAgrees(r, t);
    MemberIsField(k, j, x);
    AppliedHas(EMPTY, r, q, x);
    ReadsField(Applied(EMPTY, r), q, x);
    ReadsField(t.applied, q, x);
    hide FieldsV1, Leaves, Applied, Pointer, Render, HasField, Legible;
    forall l | l in Leaves(FieldsV1(t.applied), "") && l in Leaves(FieldsV1(r.applied), "")
      ensures Pointer(Applied(EMPTY, r), l) == Pointer(t.applied, l)
    {
      MemberPointers(k, j, x, l);
    }
    AgreeingIsAccepted(r, t);
  }

  lemma BareIsAccepted(r: Request, t: Request, u: Request, k: string, j: string, x: Json)
    requires k != "metadata" && !x.Object? && r.applied == t.applied == With(k, Nested(j, x)) && u.applied == BARE
    ensures !HasConflict(Applied(Applied(EMPTY, r), t), u)
  {
    var s := Applied(Applied(EMPTY, r), t);
    NamedSparesManaged(k, Nested(j, x));
    WithHasName(k, Nested(j, x));
    AppliedHas(Applied(EMPTY, r), t, NAME, String("n"));
    NameIsLegible();
    ReadsField(s, NAME, String("n"));
    ReadsField(BARE, NAME, String("n"));
    hide FieldsV1, Leaves, Applied, Pointer, Render, HasField, Legible, OwnerOf;
    forall l | l in Leaves(FieldsV1(BARE), "") ensures Pointer(s, l) == Pointer(BARE, l) {
      BarePointers(l);
    }
  }

  lemma BarePointers(l: string)
    requires l in Leaves(FieldsV1(BARE), "")
    ensures l == Render(NAME)
  {
    var p := LeafHasPath(BARE, "", l);
    assert "" + Render(p) == Render(p);
    BareLeaves(p);
  }

  // ---------------------------------------------------------------- keys a pointer does not read

  /** An object with one field. */
  function Nest(q: Path, x: Json): Json { if q == [] then x else Object(map[q[0] := Nest(q[1..], x)]) }

  /** Neither path is at or below the other. */
  predicate Apart(p: Path, q: Path) { !(p <= q) && !(q <= p) }

  lemma {:induction false} NestLeaf(q: Path, x: Json, p: Path)
    requires !x.Object?
    ensures IsLeaf(Nest(q, x), p) <==> p == q
    ensures Find(Nest(q, x), q) == Some(x)
  {
    if q != [] {
      NestLeaf(q[1..], x, if p == [] then [] else p[1..]);
      assert q[0] in Nest(q, x).members;
      MemberLeaf(Nest(q, x), p);
      assert q == [q[0]] + q[1..] && (p != [] ==> p == [p[0]] + p[1..]);
    }
  }

  lemma {:induction false} NestUntouched(q: Path, x: Json, p: Path)
    requires Apart(p, q)
    ensures Untouched(Nest(q, x), p)
  {
    if p[0] == q[0] {
      assert p == [p[0]] + p[1..] && q == [q[0]] + q[1..];
      NestUntouched(q[1..], x, p[1..]);
    }
  }

  lemma {:induction false} NestGet(q: Path, x: Json, t: seq<string>)
    requires !x.Object? && !x.Array? && |q| <= |t| && t != q
    ensures Get(Nest(q, x), t) == None
  {
    if q != [] && t[0] == q[0] {
      assert t == [t[0]] + t[1..] && q == [q[0]] + q[1..];
      NestGet(q[1..], x, t[1..]);
    }
  }

  lemma {:induction false} MergeNest(doc: Json, q: Path, x: Json)
    requires !x.Object? && !x.Null? && Members(doc) == map[]
    ensures Merge(doc, Nest(q, x)) == Nest(q, x)
    decreases q
  {
    if q != [] {
      var patch := Nest(q, x);
      MergeNest(Null, q[1..], x);
      assert !Nest(q[1..], x).Null?;
      assert Merge(doc, patch).members == patch.members;
    }
  }

  lemma RecordedGet(o: Json, entries: seq<Json>, t: seq<string>)
    requires Shaped(o) && Apart(t, MANAGED)
    ensures Get(Recorded(o, entries), t) == Get(o, t)
  {
    assert t != [];
    if t[0] == "metadata" {
      BesideManaged(t);
      assert t[1..][0] == t[1];
    }
  }

  lemma BesideManaged(t: Path)
    requires Apart(t, MANAGED) && t != [] && t[0] == "metadata"
    ensures |t| >= 2 && t[1] != "managedFields"
  {
    assert [t[0]] <= MANAGED;
    assert |t| >= 2 ==> t == [t[0], t[1]] + t[2..];
  }

  /**
   * Another manager's value is overwritten without force exactly if the pointer of its path does
   * not read the path itself: a label such as `app.kubernetes.io/name` is not protected.
   */
  lemma OverwrittenIffIllegible(q: Path, x: Json, y: Json, owner: string, other: string)
    requires q != [] && Apart(MANAGED, q) && Apart(Tokens(q), MANAGED) && owner != other
    requires !x.Object? && !x.Array? && !x.Null? && !y.Object? && !y.Array? && !y.Null? && x != y
    ensures var r, t := Request(Nest(q, y), owner, "1", false), Request(Nest(q, x), other, "2", false);
            var s := Applied(EMPTY, r);
            && OwnerOf(Entries(s), other, Render(q)) == Some(owner) && HasField(s, q, y) && HasField(Applied(s, t), q, x)
            && (!HasConflict(s, t) <==> !Legible(q))
  {
    var r, t := Request(Nest(q, y), owner, "1", false), Request(Nest(q, x), other, "2", false);
    var s := Applied(EMPTY, r);
    NestUntouched(q, x, MANAGED);
    NestUntouched(q, y, MANAGED);
    NestLeaf(q, x, q);
    NestLeaf(q, y, q);
    FirstApply(r);
    AppliedHas(EMPTY, r, q, y);
    AppliedHas(s, t, q, x);
    OwnLeaf(r.applied, q);
    OwnLeaf(t.applied, q);
    FirstOwns(r, t, q);
    TokensIff(q);
    if Legible(q) {
      ReadsField(s, q, y);
      ReadsField(t.applied, q, x);
      assert Conflicts(s, t.applied, Entries(s), other, Render(q));
    } else {
      NestReadsNone(r, t, q, x, y);
    }
  }

  lemma FirstOwns(r: Request, t: Request, q: Path)
    requires r.manager != t.manager && Render(q) in Leaves(FieldsV1(r.applied), "")
    ensures OwnerOf([EntryOf(r)], t.manager, Render(q)) == Some(r.manager)
  {
    EntryClaims(r);
  }

  lemma NestReadsNone(r: Request, t: Request, q: Path, x: Json, y: Json)
    requires q != [] && Apart(MANAGED, q) && Apart(Tokens(q), MANAGED) && !Legible(q)
    requires !x.Object? && !x.Array? && !y.Object? && !y.Array? && !y.Null?
    requires r.applied == Nest(q, y) && t.applied == Nest(q, x)
    ensures !HasConflict(Applied(EMPTY, r), t)
  {
    var s := Applied(EMPTY, r);
    NestUntouched(q, y, MANAGED);
    TokensIff(q);
    PointerGets(s, q);
    PointerGets(t.applied, q);
    NestGet(q, x, Tokens(q));
    NestGet(q, y, Tokens(q));
    FirstIsNest(r, q, y);
    forall l | l in Leaves(FieldsV1(t.applied), "") && l in Leaves(FieldsV1(r.applied), "") ensures Pointer(s, l) == Pointer(t.applied, l) {
      var p := LeafHasPath(t.applied, "", l);
      assert "" + Render(p) == Render(p);
      NestLeaf(q, x, p);
    }
    AgreeingIsAccepted(r, t);
  }

  lemma FirstIsNest(r: Request, q: Path, y: Json)
    requires q != [] && Apart(MANAGED, q) && Apart(Tokens(q), MANAGED) && !y.Object? && !y.Null? && r.applied == Nest(q, y)
    ensures Get(Applied(EMPTY, r), Tokens(q)) == Get(Nest(q, y), Tokens(q))
  {
    NestUntouched(q, y, MANAGED);
    assert DroppedBy(EMPTY, r) == [];
    MergeNest(EMPTY, q, y);
    assert Merged(EMPTY, r) == Nest(q, y);
    MergeShaped(EMPTY, r.applied);
    RecordedGet(Nest(q, y), Others(Entries(Merged(EMPTY, r)), r.manager) + [EntryOf(r)], Tokens(q));
  }
}
