/** Fields of JSON objects by path: looking up, removing, merging, and JSON pointers. */
module Paths {
  import opened Wrappers
  import opened Json
  import opened Text

  type Path = seq<string>

  /** The value at a path through objects. */
  function Find(v: Json, path: Path): Option<Json> {
    if path == [] then Some(v)
    else if v.Object? && path[0] in v.members then Find(v.members[path[0]], path[1..])
    else None
  }

  /** A scalar or an array at a path. */
  predicate HasField(v: Json, path: Path, x: Json) { Find(v, path) == Some(x) && !x.Object? }

  // ---------------------------------------------------------------- removing

  function Remove(v: Json, path: Path): Json
    requires path != []
  {
    if !v.Object? || path[0] !in v.members then v
    else if |path| == 1 then Object(v.members - {path[0]})
    else Object(v.members[path[0] := Remove(v.members[path[0]], path[1..])])
  }

  /** Removing a path removes what is there and below it, and no other field. */
  lemma {:induction false} RemoveRemoves(v: Json, path: Path, q: Path, x: Json)
    requires path != [] && !x.Object?
    ensures HasField(Remove(v, path), q, x) <==> HasField(v, q, x) && !(path <= q)
  {
    if q != [] && v.Object? && path[0] in v.members && path[0] == q[0] {
      assert path <= q <==> path[1..] <= q[1..];
      if |path| > 1 {
        RemoveRemoves(v.members[path[0]], path[1..], q[1..], x);
      }
    }
  }

  // ---------------------------------------------------------------- merging (section 2 of RFC 7396)

  function Members(v: Json): map<string, Json> { if v.Object? then v.members else map[] }

  function Nulls(members: map<string, Json>): set<string> { set k | k in members && members[k].Null? }

  function Merge(doc: Json, patch: Json): Json
    decreases patch
  {
    if !patch.Object? then patch
    else
      var base := Members(doc);
      Object(map k | k in base.Keys + patch.members.Keys - Nulls(patch.members) ::
        if k in patch.members then Merge(if k in base then base[k] else Null, patch.members[k]) else base[k])
  }

  /** A path the patch does not reach: some object on the way does not name the next key. */
  predicate Untouched(patch: Json, path: Path) {
    path != [] && patch.Object? && (path[0] !in patch.members || Untouched(patch.members[path[0]], path[1..]))
  }

  /** At and below an untouched path the patch has nothing. */
  lemma {:induction false} UntouchedIsAbsent(patch: Json, p: Path, q: Path)
    requires Untouched(patch, p) && Find(patch, q).Some?
    ensures !(p <= q)
  {
    if q != [] && q[0] == p[0] {
      assert p == [p[0]] + p[1..] && q == [q[0]] + q[1..];
      UntouchedIsAbsent(patch.members[p[0]], p[1..], q[1..]);
    }
  }

  lemma {:induction false} MergeLeavesUntouched(doc: Json, patch: Json, q: Path)
    requires Untouched(patch, q)
    ensures Find(Merge(doc, patch), q) == Find(doc, q)
    decreases q
  {
    var base := Members(doc);
    if q[0] in patch.members {
      MergeLeavesUntouched(if q[0] in base then base[q[0]] else Null, patch.members[q[0]], q[1..]);
    }
  }

  /** A field after a merge is the patch's, or one the patch does not reach. */
  lemma {:induction false} MergeGives(doc: Json, patch: Json, q: Path, x: Json)
    requires patch.Object? || !patch.Null?
    requires HasField(Merge(doc, patch), q, x)
    ensures (HasField(patch, q, x) && !x.Null?) || (HasField(doc, q, x) && Untouched(patch, q))
    decreases q
  {
    if q != [] && patch.Object? && q[0] in patch.members {
      var base := Members(doc);
      MergeGives(if q[0] in base then base[q[0]] else Null, patch.members[q[0]], q[1..], x);
    }
  }

  /** And every field of the patch that is not null is there. */
  lemma {:induction false} MergeTakes(doc: Json, patch: Json, q: Path, x: Json)
    requires HasField(patch, q, x) && !x.Null?
    ensures HasField(Merge(doc, patch), q, x)
    decreases q
  {
    if q != [] {
      var base := Members(doc);
      MergeTakes(if q[0] in base then base[q[0]] else Null, patch.members[q[0]], q[1..], x);
    }
  }

  // ---------------------------------------------------------------- pointers (RFC 6901)

  function Render(path: Path): string {
    if path == [] then "" else "/" + path[0] + Render(path[1..])
  }

  ghost predicate Slashless(path: Path) { forall i | 0 <= i < |path| :: '/' !in path[i] }

  /** Keys joined by slashes, without a leading one. */
  function Joined(path: Path): string
    requires path != []
  {
    if |path| == 1 then path[0] else path[0] + ['/'] + Joined(path[1..])
  }

  lemma {:induction false} RenderIsJoined(path: Path)
    requires path != []
    ensures Render(path) == "/" + Joined(path) && Render(path)[1..] == Joined(path)
  {
    if |path| > 1 {
      RenderIsJoined(path[1..]);
      hide Render, Joined;
      assert "/" + path[0] + ("/" + Joined(path[1..])) == "/" + (path[0] + ['/'] + Joined(path[1..]));
    } else {
      assert path[1..] == [] && path[0] + "" == path[0];
    }
  }

  /** Splitting joined keys gives at least as many, and the same ones exactly if no key has a slash. */
  lemma {:induction false} SplitJoined(path: Path)
    requires path != []
    ensures |Split(Joined(path), '/')| >= |path|
    ensures |Split(Joined(path), '/')| == |path| <==> Slashless(path)
    ensures Slashless(path) ==> Split(Joined(path), '/') == path
  {
    SplitPieces(path[0], '/');
    if |path| > 1 {
      SplitAppend(path[0], Joined(path[1..]), '/');
      SplitJoined(path[1..]);
      SlashlessFirst(path);
      hide Slashless;
      assert path == [path[0]] + path[1..];
    } else {
      assert path == [path[0]];
    }
  }

  lemma SlashlessFirst(path: Path)
    requires path != []
    ensures Slashless(path) <==> '/' !in path[0] && Slashless(path[1..])
  {
    assert forall i | 1 <= i < |path| :: path[i] == path[1..][i - 1];
  }

  /** Different slash-free paths have different pointers. */
  lemma RenderIsInjective(p: Path, q: Path)
    requires Slashless(p) && Slashless(q) && Render(p) == Render(q)
    ensures p == q
  {
    if p != [] && q != [] {
      RenderIsJoined(p);
      RenderIsJoined(q);
      SplitJoined(p);
      SplitJoined(q);
    }
  }

  // ---------------------------------------------------------------- removing by pointer

  function TrimSlashes(s: string): string { if s != "" && s[0] == '/' then TrimSlashes(s[1..]) else s }

  /** `remove_pointer`. */
  function RemovePointer(v: Json, pointer: string): Json { Remove(v, Split(TrimSlashes(pointer), '/')) }

  /** The path that the pointer of `path` in fact removes. */
  function Target(path: Path): (t: Path)
    ensures t != []
  {
    SplitPieces(TrimSlashes(Render(path)), '/');
    Split(TrimSlashes(Render(path)), '/')
  }

  predicate OnlySlashes(s: string) { forall i | 0 <= i < |s| :: s[i] == '/' }

  /** Keys a pointer survives: no slashes after a first key, or, under an empty first key, nothing but slashes. */
  ghost predicate Prunable(path: Path) {
    path != [] && if path[0] == "" then forall i | 0 <= i < |path| :: OnlySlashes(path[i]) else Slashless(path)
  }

  lemma {:induction false} TrimmedAll(s: string)
    ensures TrimSlashes(s) == "" <==> OnlySlashes(s)
    ensures TrimSlashes(s) != "" ==> TrimSlashes(s)[0] != '/'
  {
    if s != "" && s[0] == '/' {
      TrimmedAll(s[1..]);
      assert OnlySlashes(s) <==> OnlySlashes(s[1..]);
    }
  }

  lemma {:induction false} RenderOnlySlashes(path: Path)
    ensures OnlySlashes(Render(path)) <==> forall i | 0 <= i < |path| :: OnlySlashes(path[i])
  {
    if path != [] {
      RenderOnlySlashes(path[1..]);
      var rest := Render(path[1..]);
      assert Render(path) == "/" + (path[0] + rest);
      assert OnlySlashes(Render(path)) <==> OnlySlashes(path[0]) && OnlySlashes(rest) by {
        SlashesAppend("/", path[0] + rest);
        SlashesAppend(path[0], rest);
      }
      assert forall i | 1 <= i < |path| :: path[i] == path[1..][i - 1];
    }
  }

  lemma SlashesAppend(a: string, b: string)
    ensures OnlySlashes(a + b) <==> OnlySlashes(a) && OnlySlashes(b)
  {
    if OnlySlashes(a + b) {
      assert forall i | 0 <= i < |a| :: a[i] == (a + b)[i];
      assert forall i | 0 <= i < |b| :: b[i] == (a + b)[|a| + i];
    }
  }

  /** Keys without slashes under a first key that is not empty: the pointer is the path. */
  lemma TargetIsPath(path: Path)
    requires path != [] && path[0] != "" && path[0][0] != '/'
    ensures Target(path) == Split(Joined(path), '/')
  {
    RenderIsJoined(path);
    assert Joined(path)[0] == path[0][0];
    assert TrimSlashes(Joined(path)) == Joined(path);
    assert TrimSlashes(Render(path)) == TrimSlashes(Render(path)[1..]);
  }

  /** What a pointer removes is at or above its path exactly if the path is prunable. */
  lemma TargetIffPrunable(path: Path)
    requires path != []
    ensures Target(path) <= path <==> Prunable(path)
    ensures Prunable(path) ==> Target(path) == if path[0] == "" then [""] else path
  {
    var s, t := TrimSlashes(Render(path)), Target(path);
    TrimmedAll(Render(path));
    RenderOnlySlashes(path);
    SplitPieces(s, '/');
    if s == "" {
      assert t == [""];
      assert t <= path <==> path[0] == "";
      assert path[0] != "" ==> path[0][0] == '/' && path[0][0] in path[0];
    } else {
      FirstPiece(s);
      assert t[0] != "" && '/' !in t[0];
      if path[0] != "" && path[0][0] != '/' {
        TargetIsPath(path);
        SplitJoined(path);
        assert t <= path ==> |t| == |path|;
        assert Slashless(path) ==> t == path;
      } else {
        assert path[0] != "" ==> path[0][0] in path[0];
        assert t[0] != path[0];
      }
    }
  }

  lemma FirstPiece(s: string)
    requires s != "" && s[0] != '/'
    ensures Split(s, '/')[0] != ""
  {
    assert IndexOf(s, '/') > 0;
  }

  /**
   * For every path: a field is gone after removing its pointer exactly if its keys are ones a
   * pointer survives.
   */
  lemma PrunedIffKeyed(v: Json, path: Path, x: Json)
    requires path != [] && HasField(v, path, x)
    ensures !HasField(RemovePointer(v, Render(path)), path, x) <==> Prunable(path)
  {
    TargetIffPrunable(path);
    RemoveRemoves(v, Target(path), path, x);
  }

  // ---------------------------------------------------------------- reading by pointer

  function ReplaceAll(s: string, a: char, b: char, c: char): string {
    if |s| < 2 then s
    else if s[0] == a && s[1] == b then [c] + ReplaceAll(s[2..], a, b, c)
    else [s[0]] + ReplaceAll(s[1..], a, b, c)
  }

  function Unescape(token: string): string { ReplaceAll(ReplaceAll(token, '~', '1', '/'), '~', '0', '~') }

  predicate Holds(s: string, a: char, b: char) { exists i :: 0 <= i < |s| - 1 && s[i] == a && s[i + 1] == b }

  /** Replacing shortens exactly what it finds something in. */
  lemma {:induction false} ReplaceShortens(s: string, a: char, b: char, c: char)
    ensures |ReplaceAll(s, a, b, c)| <= |s|
    ensures if Holds(s, a, b) then |ReplaceAll(s, a, b, c)| < |s| else ReplaceAll(s, a, b, c) == s
  {
    if |s| >= 2 {
      ReplaceShortens(s[2..], a, b, c);
      ReplaceShortens(s[1..], a, b, c);
      if s[0] == a && s[1] == b {
        assert Holds(s, a, b);
      } else {
        assert Holds(s, a, b) <==> Holds(s[1..], a, b) by {
          if i :| 0 <= i < |s| - 1 && s[i] == a && s[i + 1] == b {
            assert s[1..][i - 1] == a && s[1..][i] == b;
          }
          if i :| 0 <= i < |s[1..]| - 1 && s[1..][i] == a && s[1..][i + 1] == b {
            assert s[i + 1] == a && s[i + 2] == b;
          }
        }
      }
    }
  }

  /** A key that a pointer spells as itself: no slash and no escape. */
  predicate IsPlain(key: string) { '/' !in key && !Holds(key, '~', '0') && !Holds(key, '~', '1') }

  lemma UnescapeIff(key: string)
    ensures Unescape(key) == key <==> !Holds(key, '~', '0') && !Holds(key, '~', '1')
  {
    ReplaceShortens(key, '~', '1', '/');
    ReplaceShortens(ReplaceAll(key, '~', '1', '/'), '~', '0', '~');
  }

  /** An array index: decimal, without sign or leading zeros. */
  function Index(token: string): Option<nat> {
    if token == "" || !(forall c | c in token :: IsDigit(c)) || (token[0] == '0' && |token| > 1) then None
    else Some(Digits(token))
  }

  /** The value at a pointer's tokens, through objects and arrays. */
  function Get(v: Json, tokens: seq<string>): Option<Json> {
    if tokens == [] then Some(v)
    else match v
      case Object(members) => if tokens[0] in members then Get(members[tokens[0]], tokens[1..]) else None
      case Array(items) =>
        var i := Index(tokens[0]);
        if i.Some? && i.value < |items| then Get(items[i.value], tokens[1..]) else None
      case _ => None
  }

  function Unescaped(tokens: seq<string>): seq<string> {
    if tokens == [] then [] else [Unescape(tokens[0])] + Unescaped(tokens[1..])
  }

  /** `pointer`. */
  function Pointer(v: Json, pointer: string): Option<Json> {
    if pointer == "" then Some(v)
    else if pointer[0] != '/' then None
    else Get(v, Unescaped(Split(pointer[1..], '/')))
  }

  /** The tokens by which the pointer of `path` is read. */
  function Tokens(path: Path): seq<string>
    requires path != []
  {
    Unescaped(Split(Joined(path), '/'))
  }

  ghost predicate Legible(path: Path) { forall i | 0 <= i < |path| :: IsPlain(path[i]) }

  lemma {:induction false} UnescapedAt(tokens: seq<string>)
    ensures |Unescaped(tokens)| == |tokens|
    ensures forall i | 0 <= i < |tokens| :: Unescaped(tokens)[i] == Unescape(tokens[i])
  {
    if tokens != [] {
      UnescapedAt(tokens[1..]);
    }
  }

  /** A pointer reads its own path exactly if every key is plain. */
  lemma TokensIff(path: Path)
    requires path != []
    ensures |Tokens(path)| >= |path| && (Tokens(path) == path <==> Legible(path))
  {
    hide IsPlain, Unescape, Unescaped;
    SplitJoined(path);
    UnescapedAt(Split(Joined(path), '/'));
    forall i | 0 <= i < |path| ensures IsPlain(path[i]) <==> '/' !in path[i] && Unescape(path[i]) == path[i] {
      PlainIff(path[i]);
    }
  }

  lemma PlainIff(key: string)
    ensures IsPlain(key) <==> '/' !in key && Unescape(key) == key
  {
    UnescapeIff(key);
  }

  lemma PointerGets(v: Json, path: Path)
    requires path != []
    ensures Pointer(v, Render(path)) == Get(v, Tokens(path))
  {
    RenderIsJoined(path);
  }

  lemma {:induction false} FoundIsGot(v: Json, path: Path)
    requires Find(v, path).Some?
    ensures Get(v, path) == Find(v, path)
  {
    if path != [] {
      FoundIsGot(v.members[path[0]], path[1..]);
    }
  }
}
