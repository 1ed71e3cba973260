/** What the LIST/WATCH loop remembers of its collection, by name and without bookkeeping. */
module Observed {
  import opened Json
  import opened Objects
  import opened Semantics
  import opened Text
  import opened Wrappers
  import V = View

  function Identity(o: Item): string { o.namespace + "/" + o.name }

  /** Does the event differ from what was last observed under its name? A deletion always does. */
  predicate Differs(objects: map<string, Json>, deleted: bool, o: Item) {
    deleted || Identity(o) !in objects || objects[Identity(o)] != Semantic(o.document)
  }

  function After(objects: map<string, Json>, deleted: bool, o: Item): map<string, Json> {
    if deleted then objects - {Identity(o)} else objects[Identity(o) := Semantic(o.document)]
  }

  function Loaded(items: seq<Item>): map<string, Json> {
    if items == [] then map[] else After(Loaded(items[..|items| - 1]), false, items[|items| - 1])
  }

  predicate HasRevision(o: Item) { o.revision.Some? && o.revision.value != "" }

  class Mirror {
    var revision: string
    var objects: map<string, Json>

    constructor ()
      ensures revision == "" && objects == map[]
    {
      revision, objects := "", map[];
    }

    /** A list with a nameless item, or none at all, changes nothing. */
    method Replace(list: V.Listing, at: string) returns (ok: bool)
      modifies this
      ensures ok <==> list.Items? && forall o | o in list.items :: o.name != ""
      ensures if ok then objects == Loaded(list.items) && revision == at else objects == old(objects) && revision == old(revision)
    {
      if list.Malformed? {
        return false;
      }
      var items := list.items;
      var replacement: map<string, Json> := map[];
      for n := 0 to |items|
        invariant replacement == Loaded(items[..n]) && forall o | o in items[..n] :: o.name != ""
        invariant objects == old(objects) && revision == old(revision)
      {
        assert items[..n + 1][..n] == items[..n] && items[..n + 1] == items[..n] + [items[n]];
        if items[n].name == "" {
          assert items[n] in items;
          return false;
        }
        replacement := replacement[Identity(items[n]) := Semantic(items[n].document)];
      }
      assert items[..|items|] == items;
      objects, revision := replacement, at;
      return true;
    }

    /** An event the loop cannot take changes nothing; any other moves its position. */
    method Apply(e: V.Event) returns (changed: Option<bool>)
      modifies this
      ensures changed.None? <==> e.kind.Unknown? || !HasRevision(e.item) || (!e.kind.Bookmark? && e.item.name == "")
      ensures changed.None? ==> objects == old(objects) && revision == old(revision)
      ensures changed.Some? ==> revision == e.item.revision.value
      ensures changed.Some? && e.kind.Bookmark? ==> changed == Some(false) && objects == old(objects)
      ensures changed.Some? && !e.kind.Bookmark? ==>
        && changed == Some(Differs(old(objects), e.kind.Deleted?, e.item))
        && objects == After(old(objects), e.kind.Deleted?, e.item)
    {
      if e.kind.Unknown? || !HasRevision(e.item) {
        return None;
      }
      if e.kind.Bookmark? {
        revision := e.item.revision.value;
        return Some(false);
      }
      if e.item.name == "" {
        return None;
      }
      var id := Identity(e.item);
      if e.kind.Deleted? {
        objects := objects - {id};
        changed := Some(true);
      } else {
        var normal := Semantic(e.item.document);
        changed := Some(id !in objects || objects[id] != normal);
        objects := objects[id := normal];
      }
      revision := e.item.revision.value;
    }
  }

  // ---------------------------------------------------------------- what it is of

  /** The mirror is of these objects: one entry for each name, and its meaning. */
  ghost predicate Observes(objects: map<string, Json>, server: map<Key, Item>) {
    && (forall id | id in objects :: exists k :: k in server && Identity(server[k]) == id)
    && (forall k | k in server :: Identity(server[k]) in objects && objects[Identity(server[k])] == Semantic(server[k].document))
  }

  /** Namespaces without slashes, so that an identity is one name's. */
  predicate Plain(o: Item) { '/' !in o.namespace }

  ghost predicate AllPlain(m: map<Key, Item>) { forall k | k in m :: Plain(m[k]) && m[k].KeyOf() == k }

  lemma IdentityIsName(a: Item, b: Item)
    requires Plain(a) && Plain(b)
    ensures Identity(a) == Identity(b) <==> a.KeyOf().NameKey() == b.KeyOf().NameKey()
  {
    SplitBase(a.namespace, a.name);
    SplitBase(b.namespace, b.name);
    hide SplitOnce;
  }

  lemma PutIsPlain(server: map<Key, Item>, o: Item)
    requires AllPlain(server) && Plain(o)
    ensures AllPlain(V.PutItem(server, o))
  {
    hide Plain;
  }

  /** A put is observed. */
  lemma PutIsObserved(objects: map<string, Json>, server: map<Key, Item>, o: Item)
    requires Observes(objects, server) && AllPlain(server) && Plain(o)
    ensures Observes(After(objects, false, o), V.PutItem(server, o))
  {
    forall k | k in server ensures Identity(server[k]) == Identity(o) <==> k.NameKey() == o.KeyOf().NameKey() {
      IdentityIsName(server[k], o);
    }
    hide Identity, Semantic, Plain;
    var after, next := After(objects, false, o), V.PutItem(server, o);
    assert o.KeyOf() in next && next[o.KeyOf()] == o;
    forall id | id in after ensures exists k :: k in next && Identity(next[k]) == id {
      if id != Identity(o) {
        var k :| k in server && Identity(server[k]) == id;
        assert k in next;
      }
    }
  }

  /** So is a removal of the one object of a name. */
  lemma RemovalIsObserved(objects: map<string, Json>, server: map<Key, Item>, o: Item)
    requires Observes(objects, server) && AllPlain(server) && Plain(o)
    requires forall k | k in server && k.NameKey() == o.KeyOf().NameKey() :: k == o.KeyOf()
    ensures Observes(After(objects, true, o), server - {o.KeyOf()})
  {
    forall k | k in server ensures Identity(server[k]) == Identity(o) <==> k.NameKey() == o.KeyOf().NameKey() {
      IdentityIsName(server[k], o);
    }
    hide Identity, Semantic, Plain;
    var after, next := After(objects, true, o), server - {o.KeyOf()};
    forall id | id in after ensures exists k :: k in next && Identity(next[k]) == id {
      var k :| k in server && Identity(server[k]) == id;
      assert k in next;
    }
  }

  /** A complete list is observed as the objects it holds. */
  lemma {:induction false} LoadedObserves(items: seq<Item>)
    requires forall o | o in items :: Plain(o)
    ensures Observes(Loaded(items), V.Load(items)) && AllPlain(V.Load(items))
  {
    if items != [] {
      var front := items[..|items| - 1];
      LoadedObserves(front);
      PutIsObserved(Loaded(front), V.Load(front), items[|items| - 1]);
      PutIsPlain(V.Load(front), items[|items| - 1]);
    }
  }

  /** What is said not to differ is an object of the same name and meaning, so of the same key. */
  lemma SaidSame(objects: map<string, Json>, server: map<Key, Item>, o: Item)
    requires Observes(objects, server) && AllPlain(server) && Plain(o) && Described(server) && IsDescribed(o)
    ensures Differs(objects, false, o) <==>
            !(o.KeyOf() in server && Semantic(server[o.KeyOf()].document) == Semantic(o.document))
  {
    hide Semantic, Identity;
    if !Differs(objects, false, o) {
      var k :| k in server && Identity(server[k]) == Identity(o);
      assert Semantic(server[k].document) == Semantic(o.document);
      SameMeaning(server[k].document, o.document);
      assert server[k] == Describe(server[k].document) && o == Describe(o.document);
      hide Describe;
      assert k == o.KeyOf();
    } else if o.KeyOf() in server {
      IdentityIsName(server[o.KeyOf()], o);
    }
  }
}
