/** JSON objects and the messages they are encoded to, by descriptors with inline embeds. */
module Codec {
  import opened Wrappers
  import opened Json

  // ---------------------------------------------------------------- descriptors

  datatype Shape = One | Many | Keyed

  /** `Special` are the leaves with a codec of their own: times, quantities, raw JSON, bytes, enums, floats. */
  datatype Kind = Flag | I32 | I64 | U32 | U64 | Text | Special(codec: string) | Nested(message: string)

  datatype Field = Field(name: string, jsonName: string, shape: Shape, kind: Kind)

  /** A JSON key that is not the field's own `jsonName`. */
  datatype Spelling = Spelling(field: string, key: string)

  /** A message's fields; `embed` names the one whose own fields sit beside the others in JSON. */
  datatype Layout = Layout(fields: seq<Field>, spellings: seq<Spelling>, embed: Option<Embed>)

  datatype Embed = Embed(field: string, layout: Layout)

  /** `accepts` is the domain on which a special codec is the identity. */
  datatype Pool = Pool(messages: map<string, Layout>, accepts: (string, Json) -> bool)

  function LayoutOf(p: Pool, message: string): Layout {
    if message in p.messages then p.messages[message] else Layout([], [], None)
  }

  function ByName(fields: seq<Field>, name: string): (f: Option<Field>)
    ensures f.Some? ==> f.value in fields && f.value.name == name
    ensures f.None? ==> forall g | g in fields :: g.name != name
  {
    if fields == [] then None else if fields[0].name == name then Some(fields[0]) else ByName(fields[1..], name)
  }

  function ByJsonName(fields: seq<Field>, key: string): (f: Option<Field>)
    ensures f.Some? ==> f.value in fields
  {
    if fields == [] then None else if fields[0].jsonName == key then Some(fields[0]) else ByJsonName(fields[1..], key)
  }

  function KeySpelled(spellings: seq<Spelling>, field: string): Option<string> {
    if spellings == [] then None
    else if spellings[0].field == field then Some(spellings[0].key)
    else KeySpelled(spellings[1..], field)
  }

  function FieldSpelled(spellings: seq<Spelling>, key: string): Option<string> {
    if spellings == [] then None
    else if spellings[0].key == key then Some(spellings[0].field)
    else FieldSpelled(spellings[1..], key)
  }

  /** The JSON key of a field, as Kubernetes spells it. */
  function KeyOf(l: Layout, f: Field): string {
    var spelled := KeySpelled(l.spellings, f.name);
    if spelled.Some? then spelled.value else f.jsonName
  }

  /** The field a JSON key stands for: by JSON name, by name, or by its Kubernetes spelling. */
  function FieldFor(l: Layout, key: string): (f: Option<Field>)
    ensures f.Some? ==> f.value in l.fields
  {
    var byJson := ByJsonName(l.fields, key);
    if byJson.Some? then byJson
    else
      var byName := ByName(l.fields, key);
      if byName.Some? then byName
      else match FieldSpelled(l.spellings, key)
        case Some(name) => ByName(l.fields, name)
        case None => None
  }

  predicate IsEmbed(l: Layout, f: Field) { l.embed.Some? && l.embed.value.field == f.name }

  /** The members some field of this message stands for, and the others. */
  function Own(l: Layout, members: map<string, Json>): (own: map<string, Json>)
    ensures forall k :: k in own <==> k in members && FieldFor(l, k).Some?
    ensures forall k | k in own :: own[k] == members[k]
  {
    members - (set k | k in members && FieldFor(l, k).None?)
  }

  function Rest(l: Layout, members: map<string, Json>): (rest: map<string, Json>)
    ensures forall k :: k in rest <==> k in members && FieldFor(l, k).None?
    ensures forall k | k in rest :: rest[k] == members[k]
  {
    members - (set k | k in members && FieldFor(l, k).Some?)
  }

  function NonNull(members: map<string, Json>): map<string, Json> {
    members - (set k | k in members && members[k].Null?)
  }

  // ---------------------------------------------------------------- messages

  datatype Pb = Leaf(value: Json) | Message(fields: map<string, Pb>) | List(items: seq<Pb>) | Map(entries: map<string, Pb>)

  datatype Error = BadLeaf

  function Wrap(n: int, bits: int, signed: bool): int
    requires 0 < bits
  {
    if signed then (n + bits / 2) % bits - bits / 2 else n % bits
  }

  /** `as_i64().unwrap_or(0)` and `as_u64().unwrap_or(0)`. */
  function Integer(v: Json, lo: int, hi: int): int { if v.Number? && lo <= v.n < hi then v.n else 0 }

  const TWO_31 := 0x8000_0000
  const TWO_32 := 0x1_0000_0000
  const TWO_63 := 0x8000_0000_0000_0000
  const TWO_64 := 0x1_0000_0000_0000_0000

  /** A scalar as the message stores it: what does not fit reads as the default, narrow integers wrap. */
  function Scalar(kind: Kind, v: Json): Json
    requires !kind.Special? && !kind.Nested?
  {
    match kind
    case Flag => Bool(v.Bool? && v.b)
    case I32 => Number(Wrap(Integer(v, -TWO_63, TWO_63), TWO_32, true))
    case I64 => Number(Integer(v, -TWO_63, TWO_63))
    case U32 => Number(Wrap(Integer(v, 0, TWO_64), TWO_32, false))
    case U64 => Number(Integer(v, 0, TWO_64))
    case Text => String(if v.String? then v.s else "")
  }

  // ---------------------------------------------------------------- JSON to message

  function EncodeValue(p: Pool, kind: Kind, v: Json): Result<Pb, Error>
    decreases v, 2
  {
    match kind
    case Nested(message) => EncodeMessage(p, LayoutOf(p, message), v)
    case Special(codec) => if p.accepts(codec, v) then Ok(Leaf(v)) else Err(BadLeaf)
    case _ => Ok(Leaf(Scalar(kind, v)))
  }

  function EncodeMessage(p: Pool, l: Layout, v: Json): Result<Pb, Error>
    decreases v, 1
  {
    if v.Object? then EncodeMembers(p, l, v.members, v) else Ok(Message(map[]))
  }

  /** Own members field by field; what no field here stands for is handed to the embed whole. */
  function EncodeMembers(p: Pool, l: Layout, members: map<string, Json>, ghost root: Json): Result<Pb, Error>
    requires forall k | k in members :: members[k] < root
    decreases root, 0, l, 1
  {
    var present := NonNull(members);
    match EncodeOwn(p, l, Own(l, present), map[], root)
    case Err(e) => Err(e)
    case Ok(fields) =>
      match l.embed
      case None => Ok(Message(fields))
      case Some(embed) =>
        match EncodeMembers(p, embed.layout, Rest(l, present), root)
        case Err(e) => Err(e)
        case Ok(inner) => Ok(Message(fields[embed.field := inner]))
  }

  function EncodeOwn(p: Pool, l: Layout, own: map<string, Json>, done: map<string, Pb>, ghost root: Json): Result<map<string, Pb>, Error>
    requires forall k | k in own :: own[k] < root && FieldFor(l, k).Some?
    decreases root, 0, l, 0, |own|
  {
    if own == map[] then Ok(done)
    else
      var k := Least(own.Keys);
      var f := FieldFor(l, k).value;
      match EncodeField(p, f, own[k])
      case Err(e) => Err(e)
      case Ok(None) => EncodeOwn(p, l, own - {k}, done, root)
      case Ok(Some(pb)) => EncodeOwn(p, l, own - {k}, done[f.name := pb], root)
  }

  /** A value of the wrong shape for its field is passed over. */
  function EncodeField(p: Pool, f: Field, v: Json): Result<Option<Pb>, Error>
    decreases v, 3
  {
    match f.shape
    case Many =>
      if !v.Array? then Ok(None)
      else (match EncodeItems(p, f.kind, v.items, v)
        case Err(e) => Err(e)
        case Ok(items) => Ok(Some(List(items))))
    case Keyed =>
      if !v.Object? then Ok(None)
      else (match EncodeEntries(p, f.kind, v.members, v)
        case Err(e) => Err(e)
        case Ok(entries) => Ok(Some(Map(entries))))
    case One =>
      match EncodeValue(p, f.kind, v)
      case Err(e) => Err(e)
      case Ok(pb) => Ok(Some(pb))
  }

  function EncodeItems(p: Pool, kind: Kind, items: seq<Json>, ghost root: Json): (r: Result<seq<Pb>, Error>)
    requires forall i | 0 <= i < |items| :: items[i] < root
    ensures r.Ok? ==> |r.value| == |items|
    decreases root, 2, |items|
  {
    if items == [] then Ok([])
    else match EncodeValue(p, kind, items[0])
      case Err(e) => Err(e)
      case Ok(pb) =>
        match EncodeItems(p, kind, items[1..], root)
        case Err(e) => Err(e)
        case Ok(rest) => Ok([pb] + rest)
  }

  function EncodeEntries(p: Pool, kind: Kind, entries: map<string, Json>, ghost root: Json): Result<map<string, Pb>, Error>
    requires forall k | k in entries :: entries[k] < root
    decreases root, 2, |entries|
  {
    if entries == map[] then Ok(map[])
    else
      var k := Least(entries.Keys);
      match EncodeValue(p, kind, entries[k])
      case Err(e) => Err(e)
      case Ok(pb) =>
        match EncodeEntries(p, kind, entries - {k}, root)
        case Err(e) => Err(e)
        case Ok(rest) => Ok(rest[k := pb])
  }

  // ---------------------------------------------------------------- message to JSON

  function DecodeValue(p: Pool, kind: Kind, pb: Pb): Json
    decreases pb, 2
  {
    match pb
    case Leaf(v) => v
    case Message(_) => DecodeMessage(p, if kind.Nested? then LayoutOf(p, kind.message) else Layout([], [], None), pb)
    case _ => Null
  }

  function DecodeMessage(p: Pool, l: Layout, pb: Pb): Json
    requires pb.Message?
    decreases pb, 1
  {
    Object(DecodeFields(p, l, l.fields, pb, map[]))
  }

  /** Field by field in declaration order; an embed's members never replace one already there. */
  function DecodeFields(p: Pool, l: Layout, fields: seq<Field>, pb: Pb, done: map<string, Json>): map<string, Json>
    requires pb.Message?
    decreases pb, 0, |fields|
  {
    if fields == [] then done
    else
      var f := fields[0];
      DecodeFields(p, l, fields[1..], pb,
        if f.name !in pb.fields then done
        else if f.shape.One? && IsEmbed(l, f) then
          (if pb.fields[f.name].Message? then Under(done, DecodeMessage(p, l.embed.value.layout, pb.fields[f.name]).members) else done)
        else
          var v := DecodeField(p, f, pb.fields[f.name]);
          if v.Some? then done[KeyOf(l, f) := v.value] else done)
  }

  function Under(done: map<string, Json>, more: map<string, Json>): map<string, Json> { more + done }

  /** Empty lists and maps are left out. */
  function DecodeField(p: Pool, f: Field, pb: Pb): Option<Json>
    decreases pb, 3
  {
    match pb
    case List(items) =>
      if items == [] then None else Some(Array(seq(|items|, i requires 0 <= i < |items| => DecodeValue(p, f.kind, items[i]))))
    case Map(entries) =>
      if entries == map[] then None else Some(Object(map k | k in entries :: DecodeValue(p, f.kind, entries[k])))
    case _ => Some(DecodeValue(p, f.kind, pb))
  }

  // ---------------------------------------------------------------- unknown fields

  datatype Place = Key(key: string) | Index(at: nat) | Entry(of: string)

  type Path = seq<Place>

  function UnknownValue(p: Pool, kind: Kind, v: Json, path: Path): seq<Path>
    decreases v, 2
  {
    if kind.Nested? && v.Object? then UnknownMembers(p, LayoutOf(p, kind.message), v.members, path, v) else []
  }

  function UnknownField(p: Pool, f: Field, v: Json, path: Path): seq<Path>
    decreases v, 3
  {
    match f.shape
    case Keyed => if v.Object? then UnknownEntries(p, f.kind, v.members, path, v) else []
    case Many => if v.Array? then UnknownItems(p, f.kind, v.items, 0, path, v) else []
    case One => UnknownValue(p, f.kind, v, path)
  }

  function UnknownItems(p: Pool, kind: Kind, items: seq<Json>, at: nat, path: Path, ghost root: Json): seq<Path>
    requires forall i | 0 <= i < |items| :: items[i] < root
    decreases root, 2, |items|
  {
    if items == [] then []
    else UnknownValue(p, kind, items[0], path + [Index(at)]) + UnknownItems(p, kind, items[1..], at + 1, path, root)
  }

  function UnknownEntries(p: Pool, kind: Kind, entries: map<string, Json>, path: Path, ghost root: Json): seq<Path>
    requires forall k | k in entries :: entries[k] < root
    decreases root, 2, |entries|
  {
    if entries == map[] then []
    else
      var k := Least(entries.Keys);
      UnknownValue(p, kind, entries[k], path + [Entry(k)]) + UnknownEntries(p, kind, entries - {k}, path, root)
  }

  /** What no field here has may be the embed's; what that does not have either is unknown. */
  function UnknownMembers(p: Pool, l: Layout, members: map<string, Json>, path: Path, ghost root: Json): seq<Path>
    requires forall k | k in members :: members[k] < root
    decreases root, 0, l, 1
  {
    UnknownOwn(p, l, Own(l, members), path, root) +
    match l.embed
    case None => KeyPaths(Rest(l, members).Keys, path)
    case Some(embed) => UnknownMembers(p, embed.layout, Rest(l, members), path, root)
  }

  function UnknownOwn(p: Pool, l: Layout, own: map<string, Json>, path: Path, ghost root: Json): seq<Path>
    requires forall k | k in own :: own[k] < root && FieldFor(l, k).Some?
    decreases root, 0, l, 0, |own|
  {
    if own == map[] then []
    else
      var k := Least(own.Keys);
      UnknownField(p, FieldFor(l, k).value, own[k], path + [Key(k)]) + UnknownOwn(p, l, own - {k}, path, root)
  }

  function KeyPaths(keys: set<string>, path: Path): seq<Path> {
    if keys == {} then [] else [path + [Key(Least(keys))]] + KeyPaths(keys - {Least(keys)}, path)
  }

  // ---------------------------------------------------------------- what encoding keeps of an object

  /** The members a field of this message other than the embed stands for. */
  function Plain(l: Layout, members: map<string, Json>): (plain: map<string, Json>)
    ensures forall k :: k in plain <==> k in members && FieldFor(l, k).Some? && !IsEmbed(l, FieldFor(l, k).value)
    ensures forall k | k in plain :: plain[k] == members[k]
  {
    members - (set k | k in members && (FieldFor(l, k).None? || IsEmbed(l, FieldFor(l, k).value)))
  }

  /** At every depth without the members named as an embed, and without the unknown ones unless `lax`. */
  function KeptValue(p: Pool, lax: bool, kind: Kind, v: Json): (kept: Json)
    ensures kept.Null? <==> v.Null?
    decreases v, 2
  {
    if kind.Nested? && v.Object? then Object(KeptMembers(p, lax, LayoutOf(p, kind.message), v.members, v)) else v
  }

  function KeptField(p: Pool, lax: bool, f: Field, v: Json): (kept: Json)
    ensures kept.Null? <==> v.Null?
    decreases v, 3
  {
    match f.shape
    case Many =>
      if v.Array? then Array(seq(|v.items|, i requires 0 <= i < |v.items| => KeptValue(p, lax, f.kind, v.items[i]))) else v
    case Keyed =>
      if v.Object? then Object(map k | k in v.members :: KeptValue(p, lax, f.kind, v.members[k])) else v
    case One => KeptValue(p, lax, f.kind, v)
  }

  function KeptOwn(p: Pool, lax: bool, l: Layout, own: map<string, Json>, ghost root: Json): map<string, Json>
    requires forall k | k in own :: own[k] < root && FieldFor(l, k).Some?
    decreases root, 0, l, 0
  {
    map k | k in own :: KeptField(p, lax, FieldFor(l, k).value, own[k])
  }

  function KeptRest(p: Pool, lax: bool, l: Layout, rest: map<string, Json>, ghost root: Json): (kept: map<string, Json>)
    requires forall k | k in rest :: rest[k] < root
    ensures forall k | k in kept :: k in rest && (kept[k].Null? <==> rest[k].Null?)
    decreases root, 0, l, 0
  {
    match l.embed
    case None => if lax then rest else map[]
    case Some(embed) => KeptMembers(p, lax, embed.layout, rest, root)
  }

  function KeptMembers(p: Pool, lax: bool, l: Layout, members: map<string, Json>, ghost root: Json): (kept: map<string, Json>)
    requires forall k | k in members :: members[k] < root
    ensures forall k | k in kept :: k in members && (kept[k].Null? <==> members[k].Null?)
    decreases root, 0, l, 1
  {
    KeptOwn(p, lax, l, Plain(l, members), root) + KeptRest(p, lax, l, Rest(l, members), root)
  }

  // ---------------------------------------------------------------- members named as an embed

  /** Some member at some depth is looked up as its message's embed field. */
  predicate NamesEmbed(p: Pool, kind: Kind, v: Json)
    decreases v, 2
  {
    kind.Nested? && v.Object? && MembersNameEmbed(p, LayoutOf(p, kind.message), v.members, v)
  }

  predicate FieldNamesEmbed(p: Pool, f: Field, v: Json)
    decreases v, 3
  {
    match f.shape
    case Many => v.Array? && exists i | 0 <= i < |v.items| :: NamesEmbed(p, f.kind, v.items[i])
    case Keyed => v.Object? && exists k | k in v.members :: NamesEmbed(p, f.kind, v.members[k])
    case One => NamesEmbed(p, f.kind, v)
  }

  predicate OwnNamesEmbed(p: Pool, l: Layout, own: map<string, Json>, ghost root: Json)
    requires forall k | k in own :: own[k] < root && FieldFor(l, k).Some?
    decreases root, 0, l, 0
  {
    exists k | k in own :: IsEmbed(l, FieldFor(l, k).value) || FieldNamesEmbed(p, FieldFor(l, k).value, own[k])
  }

  predicate MembersNameEmbed(p: Pool, l: Layout, members: map<string, Json>, ghost root: Json)
    requires forall k | k in members :: members[k] < root
    decreases root, 0, l, 1
  {
    || OwnNamesEmbed(p, l, Own(l, members), root)
    || (l.embed.Some? && MembersNameEmbed(p, l.embed.value.layout, Rest(l, members), root))
  }

  // ---------------------------------------------------------------- objects that fit their type

  predicate FitsScalar(kind: Kind, v: Json)
    requires !kind.Special? && !kind.Nested?
  {
    match kind
    case Flag => v.Bool?
    case I32 => v.Number? && -TWO_31 <= v.n < TWO_31
    case I64 => v.Number? && -TWO_63 <= v.n < TWO_63
    case U32 => v.Number? && 0 <= v.n < TWO_32
    case U64 => v.Number? && 0 <= v.n < TWO_64
    case Text => v.String?
  }

  predicate FitsValue(p: Pool, kind: Kind, v: Json)
    decreases v, 2
  {
    match kind
    case Nested(message) => v.Object? && FitsMembers(p, LayoutOf(p, message), v.members, v)
    case Special(codec) => p.accepts(codec, v)
    case _ => FitsScalar(kind, v)
  }

  predicate FitsField(p: Pool, f: Field, v: Json)
    decreases v, 3
  {
    match f.shape
    case Many => v.Array? && v.items != [] && forall i | 0 <= i < |v.items| :: FitsValue(p, f.kind, v.items[i])
    case Keyed => v.Object? && v.members != map[] && forall k | k in v.members :: FitsValue(p, f.kind, v.members[k])
    case One => FitsValue(p, f.kind, v)
  }

  /** A member some field stands for has that field's own spelling and a value that fits it. */
  predicate FitsMember(p: Pool, l: Layout, k: string, v: Json)
    decreases v, 4
  {
    match FieldFor(l, k)
    case None => true
    case Some(f) => KeyOf(l, f) == k && FitsField(p, f, v)
  }

  /** Null-free, of the right types, canonically spelled, without empty lists and maps; unknown members are free. */
  predicate FitsMembers(p: Pool, l: Layout, members: map<string, Json>, ghost root: Json)
    requires forall k | k in members :: members[k] < root
    decreases root, 0, l, 1
  {
    && (forall k | k in members :: !members[k].Null? && FitsMember(p, l, k, members[k]))
    && (l.embed.Some? ==> FitsMembers(p, l.embed.value.layout, Rest(l, members), root))
  }

  // ---------------------------------------------------------------- sound descriptors

  /** Names are distinct, and so are the JSON keys outside the embed, which is one message field. */
  ghost predicate Sound(l: Layout) {
    && (forall i, j | 0 <= i < j < |l.fields| :: l.fields[i].name != l.fields[j].name)
    && (forall i, j | 0 <= i < j < |l.fields| && !IsEmbed(l, l.fields[i]) && !IsEmbed(l, l.fields[j]) ::
          KeyOf(l, l.fields[i]) != KeyOf(l, l.fields[j]))
    && (l.embed.Some? ==>
          && ByName(l.fields, l.embed.value.field).Some? && ByName(l.fields, l.embed.value.field).value.shape.One?
          && Sound(l.embed.value.layout))
  }

  ghost predicate SoundPool(p: Pool) { forall m | m in p.messages :: Sound(p.messages[m]) }

  // ---------------------------------------------------------------- when everything is kept

  lemma {:induction false} AllKeptValue(p: Pool, lax: bool, kind: Kind, v: Json, path: Path)
    ensures KeptValue(p, lax, kind, v) == v <==> (lax || UnknownValue(p, kind, v, path) == []) && !NamesEmbed(p, kind, v)
    decreases v, 2
  {
    if kind.Nested? && v.Object? {
      AllKept(p, lax, LayoutOf(p, kind.message), v.members, path, v);
    }
  }

  lemma {:induction false} AllKeptField(p: Pool, lax: bool, f: Field, v: Json, path: Path)
    ensures KeptField(p, lax, f, v) == v <==> (lax || UnknownField(p, f, v, path) == []) && !FieldNamesEmbed(p, f, v)
    decreases v, 3
  {
    match f.shape
    case One => AllKeptValue(p, lax, f.kind, v, path);
    case Many =>
      if v.Array? {
        AllKeptItems(p, lax, f.kind, v.items, 0, path, v);
        hide KeptValue, NamesEmbed, UnknownItems;
        var kept := KeptField(p, lax, f, v).items;
        assert kept == v.items <==> forall i | 0 <= i < |v.items| :: kept[i] == v.items[i];
      }
    case Keyed =>
      if v.Object? {
        AllKeptEntries(p, lax, f.kind, v.members, path, v);
        hide KeptValue, NamesEmbed, UnknownEntries;
        var kept := KeptField(p, lax, f, v).members;
        assert kept == v.members <==> forall k | k in v.members :: kept[k] == v.members[k];
      }
  }

  lemma {:induction false} AllKeptItems(p: Pool, lax: bool, kind: Kind, items: seq<Json>, at: nat, path: Path, root: Json)
    requires forall i | 0 <= i < |items| :: items[i] < root
    ensures (forall i | 0 <= i < |items| :: KeptValue(p, lax, kind, items[i]) == items[i]) <==>
            (lax || UnknownItems(p, kind, items, at, path, root) == []) && forall i | 0 <= i < |items| :: !NamesEmbed(p, kind, items[i])
    decreases root, 2, |items|
  {
    if items != [] {
      AllKeptValue(p, lax, kind, items[0], path + [Index(at)]);
      AllKeptItems(p, lax, kind, items[1..], at + 1, path, root);
      assert forall i | 1 <= i < |items| :: items[i] == items[1..][i - 1];
      hide UnknownValue, KeptValue, NamesEmbed;
    }
  }

  lemma {:induction false} AllKeptEntries(p: Pool, lax: bool, kind: Kind, entries: map<string, Json>, path: Path, root: Json)
    requires forall k | k in entries :: entries[k] < root
    ensures (forall k | k in entries :: KeptValue(p, lax, kind, entries[k]) == entries[k]) <==>
            (lax || UnknownEntries(p, kind, entries, path, root) == []) && forall k | k in entries :: !NamesEmbed(p, kind, entries[k])
    decreases root, 2, |entries|
  {
    if entries != map[] {
      var k := Least(entries.Keys);
      AllKeptValue(p, lax, kind, entries[k], path + [Entry(k)]);
      AllKeptEntries(p, lax, kind, entries - {k}, path, root);
      assert forall j | j in entries :: j == k || j in entries - {k};
      hide UnknownValue, KeptValue, NamesEmbed;
    }
  }

  lemma OwnReport(p: Pool, l: Layout, own: map<string, Json>, path: Path, root: Json)
    requires (forall k | k in own :: own[k] < root && FieldFor(l, k).Some?) && own != map[]
    ensures var k := Least(own.Keys);
            UnknownOwn(p, l, own, path, root) == [] <==>
            UnknownField(p, FieldFor(l, k).value, own[k], path + [Key(k)]) == [] && UnknownOwn(p, l, own - {k}, path, root) == []
  {
    hide UnknownField, FieldFor;
  }

  lemma {:induction false} AllKeptOwn(p: Pool, lax: bool, l: Layout, own: map<string, Json>, path: Path, root: Json)
    requires forall k | k in own :: own[k] < root && FieldFor(l, k).Some?
    ensures (forall k | k in own :: KeptField(p, lax, FieldFor(l, k).value, own[k]) == own[k]) <==>
            (lax || UnknownOwn(p, l, own, path, root) == []) && forall k | k in own :: !FieldNamesEmbed(p, FieldFor(l, k).value, own[k])
    decreases root, 0, l, 0, |own|
  {
    if own != map[] {
      var k := Least(own.Keys);
      AllKeptField(p, lax, FieldFor(l, k).value, own[k], path + [Key(k)]);
      hide UnknownField, KeptField, FieldNamesEmbed, FieldFor;
      AllKeptOwn(p, lax, l, own - {k}, path, root);
      var left := own - {k};
      assert forall j | j in left :: j in own;
      assert forall j | j in own :: j == k || j in left;
      OwnReport(p, l, own, path, root);
    }
  }

  /** The own part is whole exactly if no member of it names the embed and each is kept whole. */
  lemma KeptOwnIff(p: Pool, lax: bool, l: Layout, members: map<string, Json>, root: Json)
    requires forall k | k in members :: members[k] < root
    ensures var kept, own := KeptOwn(p, lax, l, Plain(l, members), root), Own(l, members);
            && kept.Keys <= own.Keys
            && (kept == own <==> forall k | k in own ::
                  !IsEmbed(l, FieldFor(l, k).value) && KeptField(p, lax, FieldFor(l, k).value, own[k]) == own[k])
  {
    hide KeptField, FieldFor, IsEmbed;
    var kept, own := KeptOwn(p, lax, l, Plain(l, members), root), Own(l, members);
    if kept == own {
      forall k | k in own ensures !IsEmbed(l, FieldFor(l, k).value) && KeptField(p, lax, FieldFor(l, k).value, own[k]) == own[k] {
        assert k in kept && kept[k] == own[k];
      }
    }
  }

  lemma AllKeptWhole(p: Pool, lax: bool, l: Layout, members: map<string, Json>, path: Path, root: Json)
    requires forall k | k in members :: members[k] < root
    ensures KeptOwn(p, lax, l, Plain(l, members), root) == Own(l, members) <==>
            (lax || UnknownOwn(p, l, Own(l, members), path, root) == []) && !OwnNamesEmbed(p, l, Own(l, members), root)
    decreases root, 0, l, 1
  {
    AllKeptOwn(p, lax, l, Own(l, members), path, root);
    KeptOwnIff(p, lax, l, members, root);
    hide UnknownOwn, KeptOwn, KeptField, FieldFor, Own, Plain, FieldNamesEmbed, IsEmbed;
  }

  /** Two maps within disjoint ones make up both exactly if each is its part. */
  lemma PartsAgree(a: map<string, Json>, b: map<string, Json>, own: map<string, Json>, rest: map<string, Json>)
    requires a.Keys <= own.Keys && b.Keys <= rest.Keys && own.Keys !! rest.Keys
    ensures a + b == own + rest <==> a == own && b == rest
  {
    if a + b == own + rest {
      forall k | k in own ensures k in a && a[k] == own[k] {
        assert k in a + b && (a + b)[k] == (own + rest)[k];
      }
      forall k | k in rest ensures k in b && b[k] == rest[k] {
        assert k in a + b && (a + b)[k] == (own + rest)[k];
      }
    }
  }

  lemma OwnAndRest(l: Layout, members: map<string, Json>)
    ensures Own(l, members) + Rest(l, members) == members && Own(l, members).Keys !! Rest(l, members).Keys
  {
    hide FieldFor;
  }

  lemma {:induction false} AllKeptRest(p: Pool, lax: bool, l: Layout, rest: map<string, Json>, path: Path, root: Json)
    requires forall k | k in rest :: rest[k] < root
    ensures KeptRest(p, lax, l, rest, root) == rest <==>
            && (lax || (if l.embed.Some? then UnknownMembers(p, l.embed.value.layout, rest, path, root) else KeyPaths(rest.Keys, path)) == [])
            && !(l.embed.Some? && MembersNameEmbed(p, l.embed.value.layout, rest, root))
    decreases root, 0, l, 0
  {
    match l.embed
    case None => assert rest.Keys == {} <==> rest == map[];
    case Some(embed) => AllKept(p, lax, embed.layout, rest, path, root);
  }

  /** Everything is kept exactly if nothing is reported unknown, or that is let through, and nothing names an embed. */
  lemma {:induction false} AllKept(p: Pool, lax: bool, l: Layout, members: map<string, Json>, path: Path, root: Json)
    requires forall k | k in members :: members[k] < root
    ensures KeptMembers(p, lax, l, members, root) == members <==>
            (lax || UnknownMembers(p, l, members, path, root) == []) && !MembersNameEmbed(p, l, members, root)
    decreases root, 0, l, 2
  {
    var own, rest := Own(l, members), Rest(l, members);
    AllKeptWhole(p, lax, l, members, path, root);
    AllKeptRest(p, lax, l, rest, path, root);
    KeptOwnIff(p, lax, l, members, root);
    OwnAndRest(l, members);
    hide UnknownOwn, KeptOwn, KeptField, FieldFor, Own, Rest, Plain, KeptRest, OwnNamesEmbed, IsEmbed, KeyPaths;
    PartsAgree(KeptOwn(p, lax, l, Plain(l, members), root), KeptRest(p, lax, l, rest, root), own, rest);
  }

  // ---------------------------------------------------------------- encoding, field by field

  lemma SameName(l: Layout, f: Field, g: Field)
    requires Sound(l) && f in l.fields && g in l.fields && f.name == g.name
    ensures f == g
  {
    var i :| 0 <= i < |l.fields| && l.fields[i] == f;
    var j :| 0 <= j < |l.fields| && l.fields[j] == g;
  }

  /** Canonically spelled members of one message are of different fields. */
  lemma OneKeyPerField(p: Pool, l: Layout, j: string, k: string)
    requires Sound(l) && FieldFor(l, j).Some? && FieldFor(l, k).Some?
    requires KeyOf(l, FieldFor(l, j).value) == j && KeyOf(l, FieldFor(l, k).value) == k
    ensures FieldFor(l, j).value.name == FieldFor(l, k).value.name ==> j == k
  {
    if FieldFor(l, j).value.name == FieldFor(l, k).value.name {
      SameName(l, FieldFor(l, j).value, FieldFor(l, k).value);
    }
  }

  ghost predicate Spelled(l: Layout, own: map<string, Json>) {
    forall k | k in own :: FieldFor(l, k).Some? && KeyOf(l, FieldFor(l, k).value) == k
  }

  ghost predicate Encodes(p: Pool, l: Layout, own: map<string, Json>) {
    forall k | k in own :: FieldFor(l, k).Some? && Encoded(p, FieldFor(l, k).value, own[k])
  }

  predicate Encoded(p: Pool, f: Field, v: Json) { EncodeField(p, f, v).Ok? && EncodeField(p, f, v).value.Some? }

  function NameOf(l: Layout, k: string): string { if FieldFor(l, k).Some? then FieldFor(l, k).value.name else "" }

  function PbOf(p: Pool, l: Layout, k: string, v: Json): Pb {
    if FieldFor(l, k).Some? && Encoded(p, FieldFor(l, k).value, v) then EncodeField(p, FieldFor(l, k).value, v).value.value
    else Leaf(Null)
  }

  /** Each own member sets its field, and the others are as before. */
  ghost predicate Sets(p: Pool, l: Layout, own: map<string, Json>, done: map<string, Pb>, r: map<string, Pb>) {
    && (forall k | k in own :: NameOf(l, k) in r && r[NameOf(l, k)] == PbOf(p, l, k, own[k]))
    && (forall n | n in r :: (n in done && r[n] == done[n]) || exists k :: k in own && NameOf(l, k) == n)
    && (forall n | n in done :: n in r)
  }

  lemma SetsOneMore(p: Pool, l: Layout, own: map<string, Json>, k: string, done: map<string, Pb>, r: map<string, Pb>)
    requires k in own && (forall j | j in own && j != k :: NameOf(l, j) != NameOf(l, k))
    requires Sets(p, l, own - {k}, done[NameOf(l, k) := PbOf(p, l, k, own[k])], r)
    ensures Sets(p, l, own, done, r)
  {
    hide NameOf, PbOf;
    var left := own - {k};
    forall n | n in r ensures (n in done && r[n] == done[n]) || exists j :: j in own && NameOf(l, j) == n {
      if j :| j in left && NameOf(l, j) == n {
        assert j in own;
      }
    }
  }

  lemma {:induction false} OwnIsEncoded(p: Pool, l: Layout, own: map<string, Json>, done: map<string, Pb>, root: Json)
    requires (forall k | k in own :: own[k] < root) && Sound(l) && Spelled(l, own) && Encodes(p, l, own)
    ensures EncodeOwn(p, l, own, done, root).Ok? && Sets(p, l, own, done, EncodeOwn(p, l, own, done, root).value)
    decreases |own|
  {
    if own != map[] {
      var k := Least(own.Keys);
      forall j | j in own && j != k ensures NameOf(l, j) != NameOf(l, k) {
        OneKeyPerField(p, l, j, k);
      }
      hide EncodeField, FieldFor, Sound, Sets, KeyOf;
      OwnIsEncoded(p, l, own - {k}, done[NameOf(l, k) := PbOf(p, l, k, own[k])], root);
      SetsOneMore(p, l, own, k, done, EncodeOwn(p, l, own, done, root).value);
    } else {
      assert Sets(p, l, own, done, done);
    }
  }

  /** A message from its own fields and its embed. */
  function Joined(l: Layout, fields: map<string, Pb>, inner: Result<Pb, Error>): Result<Pb, Error> {
    match l.embed
    case None => Ok(Message(fields))
    case Some(embed) => if inner.Err? then Err(inner.error) else Ok(Message(fields[embed.field := inner.value]))
  }

  lemma EncodedIsJoined(p: Pool, l: Layout, members: map<string, Json>, root: Json, inner: Result<Pb, Error>)
    requires (forall k | k in members :: members[k] < root) && NonNull(members) == members
    requires EncodeOwn(p, l, Own(l, members), map[], root).Ok?
    requires l.embed.Some? ==> inner == EncodeMembers(p, l.embed.value.layout, Rest(l, members), root)
    ensures EncodeMembers(p, l, members, root) == Joined(l, EncodeOwn(p, l, Own(l, members), map[], root).value, inner)
  {
    hide EncodeOwn, Own, Rest, NonNull;
  }

  // ---------------------------------------------------------------- decoding, field by field

  /** What the embed contributes. */
  function Inner(p: Pool, l: Layout, pb: Pb): map<string, Json>
    requires pb.Message?
  {
    if l.embed.Some? && l.embed.value.field in pb.fields && pb.fields[l.embed.value.field].Message? then
      DecodeMessage(p, l.embed.value.layout, pb.fields[l.embed.value.field]).members
    else map[]
  }

  predicate IsInner(l: Layout, f: Field) { f.shape.One? && IsEmbed(l, f) }

  /** A field that contributes a member of its own. */
  predicate Gives(p: Pool, l: Layout, f: Field, pb: Pb)
    requires pb.Message?
  {
    !IsInner(l, f) && f.name in pb.fields && DecodeField(p, f, pb.fields[f.name]).Some?
  }

  function DecodeOne(p: Pool, l: Layout, f: Field, pb: Pb, done: map<string, Json>): map<string, Json>
    requires pb.Message?
  {
    if Gives(p, l, f, pb) then done[KeyOf(l, f) := DecodeField(p, f, pb.fields[f.name]).value]
    else if IsInner(l, f) then Under(done, Inner(p, l, pb))
    else done
  }

  lemma DecodeStep(p: Pool, l: Layout, fields: seq<Field>, pb: Pb, done: map<string, Json>)
    requires pb.Message? && fields != []
    ensures DecodeFields(p, l, fields, pb, done) == DecodeFields(p, l, fields[1..], pb, DecodeOne(p, l, fields[0], pb, done))
  {
    assert Under(done, map[]) == done;
  }

  /** A key no later field gives stays, or comes from the embed. */
  lemma {:induction false} DecodeOther(p: Pool, l: Layout, fields: seq<Field>, pb: Pb, done: map<string, Json>, k: string)
    requires pb.Message? && forall f | f in fields && Gives(p, l, f, pb) :: KeyOf(l, f) != k
    ensures var r := DecodeFields(p, l, fields, pb, done);
            if k in done then k in r && r[k] == done[k]
            else if k in Inner(p, l, pb) && exists f :: f in fields && IsInner(l, f) then k in r && r[k] == Inner(p, l, pb)[k]
            else k !in r
  {
    if fields != [] {
      DecodeStep(p, l, fields, pb, done);
      assert forall f | f in fields[1..] :: f in fields;
      assert fields == [fields[0]] + fields[1..];
      assert fields[0] in fields;
      hide Gives, Inner, IsInner, DecodeFields, KeyOf;
      DecodeOther(p, l, fields[1..], pb, DecodeOne(p, l, fields[0], pb, done), k);
    }
  }

  /** A field's member is what it decodes to, when no later field has the same key. */
  lemma {:induction false} DecodeGives(p: Pool, l: Layout, fields: seq<Field>, pb: Pb, done: map<string, Json>, i: nat)
    requires pb.Message? && i < |fields| && Gives(p, l, fields[i], pb)
    requires forall j | i < j < |fields| && Gives(p, l, fields[j], pb) :: KeyOf(l, fields[j]) != KeyOf(l, fields[i])
    ensures var k, r := KeyOf(l, fields[i]), DecodeFields(p, l, fields, pb, done);
            k in r && r[k] == DecodeField(p, fields[i], pb.fields[fields[i].name]).value
  {
    DecodeStep(p, l, fields, pb, done);
    var next := DecodeOne(p, l, fields[0], pb, done);
    if i == 0 {
      forall f | f in fields[1..] && Gives(p, l, f, pb) ensures KeyOf(l, f) != KeyOf(l, fields[0]) {
        var j :| 0 <= j < |fields[1..]| && fields[1..][j] == f;
        assert fields[j + 1] == f;
      }
      DecodeOther(p, l, fields[1..], pb, next, KeyOf(l, fields[0]));
    } else {
      DecodeGives(p, l, fields[1..], pb, next, i - 1);
    }
  }

  // ---------------------------------------------------------------- the round trip

  lemma EmbedIsInner(l: Layout, f: Field)
    requires Sound(l) && f in l.fields && IsEmbed(l, f)
    ensures IsInner(l, f)
  {
    SameName(l, f, ByName(l.fields, l.embed.value.field).value);
  }

  /** A message's field for `k` decodes to `v`. */
  ghost predicate HoldsAt(p: Pool, l: Layout, k: string, v: Json, pb: Pb)
    requires pb.Message?
  {
    && FieldFor(l, k).Some? && KeyOf(l, FieldFor(l, k).value) == k && !IsEmbed(l, FieldFor(l, k).value)
    && NameOf(l, k) in pb.fields && DecodeField(p, FieldFor(l, k).value, pb.fields[NameOf(l, k)]) == Some(v)
  }

  /** No other field is set, but the embed. */
  ghost predicate NoOthers(l: Layout, keys: set<string>, pb: Pb)
    requires pb.Message?
  {
    forall n | n in pb.fields :: IsEmbedName(l, n) || exists k :: k in keys && NameOf(l, k) == n
  }

  predicate IsEmbedName(l: Layout, name: string) { l.embed.Some? && l.embed.value.field == name }

  /** What the fields of a message must hold for it to decode to `known` beside the embed's members. */
  ghost predicate Holds(p: Pool, l: Layout, known: map<string, Json>, pb: Pb) {
    pb.Message? && (forall k | k in known :: HoldsAt(p, l, k, known[k], pb)) && NoOthers(l, known.Keys, pb)
  }

  lemma GivesIsKnown(p: Pool, l: Layout, known: map<string, Json>, pb: Pb, g: Field)
    requires Sound(l) && Holds(p, l, known, pb) && g in l.fields && Gives(p, l, g, pb)
    ensures !IsEmbed(l, g) && KeyOf(l, g) in known
  {
    if IsEmbed(l, g) {
      EmbedIsInner(l, g);
    }
    var k :| k in known.Keys && NameOf(l, k) == g.name;
    assert HoldsAt(p, l, k, known[k], pb);
    SameName(l, FieldFor(l, k).value, g);
  }

  lemma KnownIsGiven(p: Pool, l: Layout, known: map<string, Json>, pb: Pb, k: string)
    requires Sound(l) && Holds(p, l, known, pb) && k in known
    ensures var r := DecodeFields(p, l, l.fields, pb, map[]); k in r && r[k] == known[k]
  {
    assert HoldsAt(p, l, k, known[k], pb);
    var f := FieldFor(l, k).value;
    var i :| 0 <= i < |l.fields| && l.fields[i] == f;
    forall j | i < j < |l.fields| && Gives(p, l, l.fields[j], pb) ensures KeyOf(l, l.fields[j]) != k {
      GivesIsKnown(p, l, known, pb, l.fields[j]);
    }
    DecodeGives(p, l, l.fields, pb, map[], i);
  }

  lemma Assembled(p: Pool, l: Layout, known: map<string, Json>, pb: Pb)
    requires Sound(l) && Holds(p, l, known, pb) && known.Keys !! Inner(p, l, pb).Keys
    ensures DecodeFields(p, l, l.fields, pb, map[]) == known + Inner(p, l, pb)
  {
    var r, inner := DecodeFields(p, l, l.fields, pb, map[]), Inner(p, l, pb);
    if l.embed.Some? {
      EmbedIsInner(l, ByName(l.fields, l.embed.value.field).value);
    }
    forall k ensures k in r <==> k in known + inner
      ensures k in r ==> r[k] == (known + inner)[k]
    {
      if k in known {
        KnownIsGiven(p, l, known, pb, k);
      } else {
        forall f | f in l.fields && Gives(p, l, f, pb) ensures KeyOf(l, f) != k {
          GivesIsKnown(p, l, known, pb, f);
        }
        DecodeOther(p, l, l.fields, pb, map[], k);
      }
    }
  }

  lemma ScalarFits(kind: Kind, v: Json)
    requires !kind.Special? && !kind.Nested? && FitsScalar(kind, v)
    ensures Scalar(kind, v) == v
  {
  }

  lemma {:induction false} RoundTripValue(p: Pool, kind: Kind, v: Json)
    requires SoundPool(p) && FitsValue(p, kind, v)
    ensures EncodeValue(p, kind, v).Ok? && (EncodeValue(p, kind, v).value.Leaf? || EncodeValue(p, kind, v).value.Message?)
    ensures DecodeValue(p, kind, EncodeValue(p, kind, v).value) == KeptValue(p, false, kind, v)
    decreases v, 2
  {
    match kind
    case Nested(message) =>
      assert Sound(LayoutOf(p, message));
      RoundTripMembers(p, LayoutOf(p, message), v.members, v);
    case Special(codec) =>
    case _ => ScalarFits(kind, v);
  }

  lemma {:induction false} RoundTripItems(p: Pool, kind: Kind, items: seq<Json>, root: Json)
    requires SoundPool(p) && forall i | 0 <= i < |items| :: items[i] < root && FitsValue(p, kind, items[i])
    ensures var r := EncodeItems(p, kind, items, root);
            r.Ok? && forall i | 0 <= i < |items| :: DecodeValue(p, kind, r.value[i]) == KeptValue(p, false, kind, items[i])
    decreases root, 2, |items|
  {
    if items != [] {
      RoundTripValue(p, kind, items[0]);
      RoundTripItems(p, kind, items[1..], root);
      hide DecodeValue, KeptValue, EncodeValue, FitsValue, SoundPool;
      var r := EncodeItems(p, kind, items, root).value;
      assert r[1..] == EncodeItems(p, kind, items[1..], root).value;
      forall i | 0 <= i < |items| ensures DecodeValue(p, kind, r[i]) == KeptValue(p, false, kind, items[i]) {
        if i > 0 {
          assert r[i] == r[1..][i - 1] && items[i] == items[1..][i - 1];
        }
      }
    }
  }

  lemma EntriesStep(p: Pool, kind: Kind, entries: map<string, Json>, root: Json)
    requires entries != map[] && (forall k | k in entries :: entries[k] < root)
    requires var k := Least(entries.Keys); EncodeValue(p, kind, entries[k]).Ok? && EncodeEntries(p, kind, entries - {k}, root).Ok?
    ensures var k := Least(entries.Keys);
            EncodeEntries(p, kind, entries, root) ==
            Ok(EncodeEntries(p, kind, entries - {k}, root).value[k := EncodeValue(p, kind, entries[k]).value])
  {
  }

  lemma {:induction false} RoundTripEntries(p: Pool, kind: Kind, entries: map<string, Json>, root: Json)
    requires SoundPool(p) && forall k | k in entries :: entries[k] < root && FitsValue(p, kind, entries[k])
    ensures var r := EncodeEntries(p, kind, entries, root);
            && r.Ok? && r.value.Keys == entries.Keys
            && forall k | k in entries :: DecodeValue(p, kind, r.value[k]) == KeptValue(p, false, kind, entries[k])
    decreases root, 2, |entries|
  {
    if entries != map[] {
      var k := Least(entries.Keys);
      RoundTripValue(p, kind, entries[k]);
      RoundTripEntries(p, kind, entries - {k}, root);
      EntriesStep(p, kind, entries, root);
      hide DecodeValue, KeptValue, EncodeValue, FitsValue, SoundPool, EncodeEntries;
      var left, pb := entries - {k}, EncodeValue(p, kind, entries[k]).value;
      var r := EncodeEntries(p, kind, left, root).value;
      forall j | j in entries ensures DecodeValue(p, kind, r[k := pb][j]) == KeptValue(p, false, kind, entries[j]) {
        assert j == k || j in left;
      }
    }
  }

  lemma {:induction false} RoundTripField(p: Pool, f: Field, v: Json)
    requires SoundPool(p) && FitsField(p, f, v)
    ensures Encoded(p, f, v) && DecodeField(p, f, EncodeField(p, f, v).value.value) == Some(KeptField(p, false, f, v))
    decreases v, 3
  {
    match f.shape
    case One => RoundTripValue(p, f.kind, v);
    case Many =>
      RoundTripItems(p, f.kind, v.items, v);
      hide DecodeValue, KeptValue;
      var r := EncodeItems(p, f.kind, v.items, v).value;
      assert DecodeField(p, f, List(r)).value.items == KeptField(p, false, f, v).items;
    case Keyed =>
      RoundTripEntries(p, f.kind, v.members, v);
      hide DecodeValue, KeptValue;
      var r := EncodeEntries(p, f.kind, v.members, v).value;
      assert r != map[];
      assert DecodeField(p, f, Map(r)).value.members == KeptField(p, false, f, v).members;
  }

  /** A member whose field encodes it and decodes it to what is kept of it. */
  ghost predicate Ready(p: Pool, l: Layout, k: string, v: Json) {
    && FieldFor(l, k).Some? && KeyOf(l, FieldFor(l, k).value) == k && Encoded(p, FieldFor(l, k).value, v)
    && DecodeField(p, FieldFor(l, k).value, PbOf(p, l, k, v)) == Some(KeptField(p, false, FieldFor(l, k).value, v))
  }

  lemma MemberIsReady(p: Pool, l: Layout, k: string, v: Json)
    requires SoundPool(p) && FitsMember(p, l, k, v) && FieldFor(l, k).Some?
    ensures Ready(p, l, k, v)
    decreases v, 4
  {
    RoundTripField(p, FieldFor(l, k).value, v);
  }

  /** The fields of own members, and the embed's beside them. */
  ghost predicate Beside(l: Layout, fields: map<string, Pb>, pb: Pb) {
    pb.Message? && if l.embed.None? then pb.fields == fields
                   else l.embed.value.field in pb.fields && pb.fields == fields[l.embed.value.field := pb.fields[l.embed.value.field]]
  }

  lemma KeptOwnAt(p: Pool, lax: bool, l: Layout, own: map<string, Json>, k: string, root: Json)
    requires (forall j | j in own :: own[j] < root && FieldFor(l, j).Some?) && k in own
    ensures k in KeptOwn(p, lax, l, own, root)
    ensures KeptOwn(p, lax, l, own, root)[k] == KeptField(p, lax, FieldFor(l, k).value, own[k])
  {
  }

  lemma MemberHolds(p: Pool, l: Layout, own: map<string, Json>, fields: map<string, Pb>, pb: Pb, k: string, root: Json)
    requires forall j | j in own :: own[j] < root && FieldFor(l, j).Some?
    requires k in Plain(l, own) && Ready(p, l, k, own[k]) && Sets(p, l, own, map[], fields) && Beside(l, fields, pb)
    ensures HoldsAt(p, l, k, KeptOwn(p, false, l, Plain(l, own), root)[k], pb)
  {
    KeptOwnAt(p, false, l, Plain(l, own), k, root);
    hide KeyOf, Encoded, DecodeField, KeptField, PbOf, KeptOwn;
    assert !IsEmbedName(l, NameOf(l, k));
    assert fields[NameOf(l, k)] == PbOf(p, l, k, own[k]);
  }

  lemma NoOthersSet(p: Pool, l: Layout, own: map<string, Json>, fields: map<string, Pb>, pb: Pb)
    requires (forall k | k in own :: FieldFor(l, k).Some?) && Sets(p, l, own, map[], fields) && Beside(l, fields, pb)
    ensures NoOthers(l, Plain(l, own).Keys, pb)
  {
    hide FieldFor, PbOf;
    var plain := Plain(l, own);
    forall n | n in pb.fields && !IsEmbedName(l, n) ensures exists k :: k in plain.Keys && NameOf(l, k) == n {
      var k :| k in own && NameOf(l, k) == n;
      assert k in plain.Keys;
    }
  }

  /** The own members, encoded, hold what is kept of those that do not name the embed. */
  lemma OwnHolds(p: Pool, l: Layout, own: map<string, Json>, fields: map<string, Pb>, pb: Pb, root: Json)
    requires forall k | k in own :: own[k] < root && FieldFor(l, k).Some?
    requires (forall k | k in own :: Ready(p, l, k, own[k])) && Sets(p, l, own, map[], fields) && Beside(l, fields, pb)
    ensures Holds(p, l, KeptOwn(p, false, l, Plain(l, own), root), pb)
  {
    var kept := KeptOwn(p, false, l, Plain(l, own), root);
    assert kept.Keys == Plain(l, own).Keys;
    hide FieldFor, KeptOwn, Ready, Sets, HoldsAt, NoOthers, Plain;
    forall k | k in kept ensures HoldsAt(p, l, k, kept[k], pb) {
      MemberHolds(p, l, own, fields, pb, k, root);
    }
    NoOthersSet(p, l, own, fields, pb);
  }

  lemma ReadyIsEncoded(p: Pool, l: Layout, own: map<string, Json>)
    requires forall k | k in own :: Ready(p, l, k, own[k])
    ensures Spelled(l, own) && Encodes(p, l, own)
  {
    hide FieldFor, Encoded, KeyOf, DecodeField, KeptField, PbOf;
  }

  lemma OwnIsOk(p: Pool, l: Layout, own: map<string, Json>, root: Json)
    requires Sound(l) && (forall k | k in own :: own[k] < root && FieldFor(l, k).Some?)
    requires forall k | k in own :: Ready(p, l, k, own[k])
    ensures EncodeOwn(p, l, own, map[], root).Ok?
    ensures Sets(p, l, own, map[], EncodeOwn(p, l, own, map[], root).value)
  {
    ReadyIsEncoded(p, l, own);
    hide Ready, FieldFor, Spelled, Encodes, Sound, EncodeOwn, Sets;
    OwnIsEncoded(p, l, own, map[], root);
  }

  lemma OwnRoundTrips(p: Pool, l: Layout, own: map<string, Json>, fields: map<string, Pb>, pb: Pb, root: Json)
    requires Sound(l) && (forall k | k in own :: own[k] < root && FieldFor(l, k).Some?)
    requires (forall k | k in own :: Ready(p, l, k, own[k])) && Sets(p, l, own, map[], fields)
    requires Beside(l, fields, pb) && own.Keys !! Inner(p, l, pb).Keys
    ensures DecodeMessage(p, l, pb) == Object(KeptOwn(p, false, l, Plain(l, own), root) + Inner(p, l, pb))
  {
    OwnHolds(p, l, own, fields, pb, root);
    assert KeptOwn(p, false, l, Plain(l, own), root).Keys == Plain(l, own).Keys <= own.Keys;
    hide FieldFor, Sound, Ready, Sets, Beside, Holds, Inner, KeptOwn, Plain;
    Assembled(p, l, KeptOwn(p, false, l, Plain(l, own), root), pb);
  }

  /** One message: its own members, and what its embed decodes to, beside each other. */
  lemma JoinedUp(p: Pool, l: Layout, members: map<string, Json>, fields: map<string, Pb>, pb: Pb, root: Json)
    requires Sound(l) && (forall k | k in members :: members[k] < root)
    requires forall k | k in Own(l, members) :: Ready(p, l, k, Own(l, members)[k])
    requires Sets(p, l, Own(l, members), map[], fields) && Beside(l, fields, pb)
    requires Inner(p, l, pb) == KeptRest(p, false, l, Rest(l, members), root)
    ensures DecodeMessage(p, l, pb) == Object(KeptMembers(p, false, l, members, root))
  {
    var own := Own(l, members);
    assert Plain(l, own) == Plain(l, members) && own.Keys !! Rest(l, members).Keys;
    hide FieldFor, Sound, Ready, Sets, DecodeMessage, KeptOwn, Own, Plain, Rest, KeptRest, Inner, Beside;
    OwnRoundTrips(p, l, own, fields, pb, root);
  }

  lemma OwnIsReady(p: Pool, l: Layout, members: map<string, Json>, root: Json)
    requires SoundPool(p) && (forall k | k in members :: members[k] < root) && FitsMembers(p, l, members, root)
    ensures forall k | k in Own(l, members) :: Ready(p, l, k, Own(l, members)[k])
    decreases root, 0, l, 0
  {
    var own := Own(l, members);
    forall k | k in own ensures Ready(p, l, k, own[k]) {
      assert FitsMember(p, l, k, members[k]);
      MemberIsReady(p, l, k, own[k]);
    }
  }

  ghost predicate RoundTrips(p: Pool, l: Layout, members: map<string, Json>, root: Json)
    requires forall k | k in members :: members[k] < root
  {
    var r := EncodeMembers(p, l, members, root);
    r.Ok? && r.value.Message? && DecodeMessage(p, l, r.value) == Object(KeptMembers(p, false, l, members, root))
  }

  lemma InnerIsKept(p: Pool, l: Layout, rest: map<string, Json>, root: Json, fields: map<string, Pb>, inner: Result<Pb, Error>)
    requires forall k | k in rest :: rest[k] < root
    requires l.embed.Some? ==> RoundTrips(p, l.embed.value.layout, rest, root) && inner == EncodeMembers(p, l.embed.value.layout, rest, root)
    ensures var r := Joined(l, fields, inner);
            && r.Ok? && r.value.Message? && Beside(l, fields, r.value)
            && Inner(p, l, r.value) == KeptRest(p, false, l, rest, root)
  {
    hide EncodeMembers, DecodeMessage, KeptMembers;
  }

  lemma JoinedRoundTrips(p: Pool, l: Layout, members: map<string, Json>, root: Json)
    requires Sound(l) && (forall k | k in members :: members[k] < root && !members[k].Null?)
    requires forall k | k in Own(l, members) :: Ready(p, l, k, Own(l, members)[k])
    requires l.embed.Some? ==> RoundTrips(p, l.embed.value.layout, Rest(l, members), root)
    ensures RoundTrips(p, l, members, root)
  {
    assert NonNull(members) == members;
    hide EncodeOwn, EncodeMembers, Ready, FieldFor, Own, Rest, NonNull, Sound, DecodeMessage, Sets, KeptMembers, KeptRest, Inner, Beside, Joined;
    OwnIsOk(p, l, Own(l, members), root);
    var fields := EncodeOwn(p, l, Own(l, members), map[], root).value;
    var inner := if l.embed.Some? then EncodeMembers(p, l.embed.value.layout, Rest(l, members), root) else Err(BadLeaf);
    EncodedIsJoined(p, l, members, root, inner);
    InnerIsKept(p, l, Rest(l, members), root, fields, inner);
    JoinedUp(p, l, members, fields, EncodeMembers(p, l, members, root).value, root);
  }

  /** One message: encoding and decoding leaves out exactly what is unknown or names an embed. */
  lemma {:induction false} RoundTripMembers(p: Pool, l: Layout, members: map<string, Json>, root: Json)
    requires SoundPool(p) && Sound(l) && (forall k | k in members :: members[k] < root) && FitsMembers(p, l, members, root)
    ensures RoundTrips(p, l, members, root)
    decreases root, 0, l, 1
  {
    hide RoundTrips, FitsMember, FieldFor, SoundPool;
    OwnIsReady(p, l, members, root);
    if l.embed.Some? {
      RoundTripMembers(p, l.embed.value.layout, Rest(l, members), root);
    }
    JoinedRoundTrips(p, l, members, root);
  }

  // ---------------------------------------------------------------- what is not kept changes nothing

  lemma {:induction false} SameItems(p: Pool, kind: Kind, items: seq<Json>, root: Json, kept: seq<Json>, other: Json)
    requires |kept| == |items| && forall i | 0 <= i < |items| :: items[i] < root && kept[i] < other
    requires forall i | 0 <= i < |items| :: EncodeValue(p, kind, kept[i]) == EncodeValue(p, kind, items[i])
    ensures EncodeItems(p, kind, kept, other) == EncodeItems(p, kind, items, root)
    decreases |items|
  {
    if items != [] {
      hide EncodeValue;
      SameItems(p, kind, items[1..], root, kept[1..], other);
    }
  }

  lemma {:induction false} SameEntries(p: Pool, kind: Kind, entries: map<string, Json>, root: Json, kept: map<string, Json>, other: Json)
    requires kept.Keys == entries.Keys && forall k | k in entries :: entries[k] < root && kept[k] < other
    requires forall k | k in entries :: EncodeValue(p, kind, kept[k]) == EncodeValue(p, kind, entries[k])
    ensures EncodeEntries(p, kind, kept, other) == EncodeEntries(p, kind, entries, root)
    decreases |entries|
  {
    hide EncodeValue;
    if entries != map[] {
      var k := Least(entries.Keys);
      var left, less := entries - {k}, kept - {k};
      assert less.Keys == left.Keys;
      SameEntries(p, kind, left, root, less, other);
    } else {
      assert kept == map[];
    }
  }

  lemma {:induction false} KeptEncodesValue(p: Pool, lax: bool, kind: Kind, v: Json)
    requires SoundPool(p) && FitsValue(p, kind, v)
    ensures EncodeValue(p, kind, KeptValue(p, lax, kind, v)) == EncodeValue(p, kind, v)
    decreases v, 2
  {
    if kind.Nested? {
      var l := LayoutOf(p, kind.message);
      assert Sound(l);
      KeptEncodes(p, lax, l, v.members, v, KeptValue(p, lax, kind, v));
    }
  }

  lemma {:induction false} KeptEncodesField(p: Pool, lax: bool, f: Field, v: Json)
    requires SoundPool(p) && FitsField(p, f, v)
    ensures EncodeField(p, f, KeptField(p, lax, f, v)) == EncodeField(p, f, v)
    decreases v, 3
  {
    var kept := KeptField(p, lax, f, v);
    match f.shape
    case One => KeptEncodesValue(p, lax, f.kind, v);
    case Many =>
      forall i | 0 <= i < |v.items| ensures EncodeValue(p, f.kind, kept.items[i]) == EncodeValue(p, f.kind, v.items[i]) {
        KeptEncodesValue(p, lax, f.kind, v.items[i]);
      }
      SameItems(p, f.kind, v.items, v, kept.items, kept);
    case Keyed =>
      forall k | k in v.members ensures EncodeValue(p, f.kind, kept.members[k]) == EncodeValue(p, f.kind, v.members[k]) {
        KeptEncodesValue(p, lax, f.kind, v.members[k]);
      }
      SameEntries(p, f.kind, v.members, v, kept.members, kept);
  }

  /** Both maps set the same fields to the same values, but for the embed. */
  ghost predicate SameBut(p: Pool, l: Layout, own: map<string, Json>, kept: map<string, Json>) {
    && (forall k | k in own :: FieldFor(l, k).Some?)
    && kept.Keys == Plain(l, own).Keys
    && (forall k | k in kept :: EncodeField(p, FieldFor(l, k).value, kept[k]) == EncodeField(p, FieldFor(l, k).value, own[k]))
  }

  lemma SameFields(p: Pool, l: Layout, own: map<string, Json>, kept: map<string, Json>, a: map<string, Pb>, b: map<string, Pb>, n: string)
    requires SameBut(p, l, own, kept) && Sets(p, l, own, map[], a) && Sets(p, l, kept, map[], b) && !IsEmbedName(l, n)
    ensures (n in a <==> n in b) && (n in a ==> a[n] == b[n])
  {
    hide FieldFor, EncodeField;
    if n in a {
      var k :| k in own && NameOf(l, k) == n;
      assert k in kept;
    }
    if n in b {
      var k :| k in kept && NameOf(l, k) == n;
      assert k in own;
    }
  }

  lemma KeptOwnIsSame(p: Pool, lax: bool, l: Layout, members: map<string, Json>, root: Json)
    requires SoundPool(p) && (forall k | k in members :: members[k] < root) && FitsMembers(p, l, members, root)
    ensures SameBut(p, l, Own(l, members), KeptOwn(p, lax, l, Plain(l, members), root))
    decreases root, 0, l, 0
  {
    var own, plain := Own(l, members), Plain(l, members);
    var kept := KeptOwn(p, lax, l, plain, root);
    assert Plain(l, own) == plain;
    forall k | k in kept ensures EncodeField(p, FieldFor(l, k).value, kept[k]) == EncodeField(p, FieldFor(l, k).value, own[k]) {
      assert FitsMember(p, l, k, members[k]);
      KeptOwnAt(p, lax, l, plain, k, root);
      hide FitsMembers, FieldFor, KeptOwn, KeyOf;
      KeptEncodesField(p, lax, FieldFor(l, k).value, members[k]);
    }
  }

  lemma SameIsEncoded(p: Pool, l: Layout, own: map<string, Json>, kept: map<string, Json>, other: Json)
    requires Sound(l) && (forall k | k in kept :: kept[k] < other) && (forall k | k in own :: Ready(p, l, k, own[k]))
    requires SameBut(p, l, own, kept)
    ensures EncodeOwn(p, l, kept, map[], other).Ok?
    ensures Sets(p, l, kept, map[], EncodeOwn(p, l, kept, map[], other).value)
  {
    assert Spelled(l, kept) && Encodes(p, l, kept) by {
      hide FieldFor, EncodeField, KeyOf, DecodeField, KeptField, PbOf;
      forall k | k in kept ensures k in own && Ready(p, l, k, own[k]) {
      }
    }
    hide SameBut, Ready, FieldFor, Spelled, Encodes, Sound, EncodeOwn, Sets;
    OwnIsEncoded(p, l, kept, map[], other);
  }

  lemma KeptIsPresent(p: Pool, lax: bool, l: Layout, members: map<string, Json>, root: Json)
    requires forall k | k in members :: members[k] < root && !members[k].Null?
    ensures NonNull(members) == members
    ensures var kept := KeptMembers(p, lax, l, members, root); NonNull(kept) == kept
  {
    hide KeptMembers;
  }

  lemma KeptParts(p: Pool, lax: bool, l: Layout, members: map<string, Json>, root: Json)
    requires forall k | k in members :: members[k] < root
    ensures var kept := KeptMembers(p, lax, l, members, root);
            && Own(l, kept) == KeptOwn(p, lax, l, Plain(l, members), root)
            && Rest(l, kept) == KeptRest(p, lax, l, Rest(l, members), root)
  {
    var own, rest := KeptOwn(p, lax, l, Plain(l, members), root), KeptRest(p, lax, l, Rest(l, members), root);
    assert forall k | k in own :: FieldFor(l, k).Some?;
    hide FieldFor, KeptField, KeptOwn, KeptRest, Plain, IsEmbed;
    assert forall k | k in rest :: k in Rest(l, members) && FieldFor(l, k).None?;
    SplitsUp(l, own, rest);
  }

  lemma SplitsUp(l: Layout, own: map<string, Json>, rest: map<string, Json>)
    requires (forall k | k in own :: FieldFor(l, k).Some?) && (forall k | k in rest :: FieldFor(l, k).None?)
    ensures Own(l, own + rest) == own && Rest(l, own + rest) == rest
  {
    hide FieldFor;
  }

  lemma SameJoined(l: Layout, a: map<string, Pb>, b: map<string, Pb>, inner: Result<Pb, Error>)
    requires forall n | !IsEmbedName(l, n) :: (n in a <==> n in b) && (n in a ==> a[n] == b[n])
    ensures Joined(l, a, inner) == Joined(l, b, inner)
  {
    match l.embed
    case None =>
      assert forall n :: !IsEmbedName(l, n);
      assert a == b;
    case Some(embed) =>
      if inner.Ok? {
        assert forall n | n != embed.field :: !IsEmbedName(l, n);
        assert a[embed.field := inner.value] == b[embed.field := inner.value];
      }
  }

  /** The own parts join the same embed to the same message. */
  lemma OwnJoinsSame(p: Pool, l: Layout, own: map<string, Json>, root: Json, kept: map<string, Json>, other: Json, inner: Result<Pb, Error>)
    requires Sound(l) && (forall k | k in own :: own[k] < root && FieldFor(l, k).Some?) && (forall k | k in kept :: kept[k] < other)
    requires (forall k | k in own :: Ready(p, l, k, own[k])) && SameBut(p, l, own, kept)
    ensures EncodeOwn(p, l, own, map[], root).Ok?
    ensures (forall k | k in kept :: FieldFor(l, k).Some?) && EncodeOwn(p, l, kept, map[], other).Ok?
    ensures Joined(l, EncodeOwn(p, l, own, map[], root).value, inner) == Joined(l, EncodeOwn(p, l, kept, map[], other).value, inner)
  {
    hide FieldFor, EncodeOwn, Ready, Sound, Sets, Joined, EncodeField;
    OwnIsOk(p, l, own, root);
    SameIsEncoded(p, l, own, kept, other);
    hide SameBut;
    var a, b := EncodeOwn(p, l, own, map[], root).value, EncodeOwn(p, l, kept, map[], other).value;
    forall n | !IsEmbedName(l, n) ensures (n in a <==> n in b) && (n in a ==> a[n] == b[n]) {
      SameFields(p, l, own, kept, a, b, n);
    }
    SameJoined(l, a, b, inner);
  }

  /** What a message does not keep of an object that fits it adds nothing to the encoding. */
  lemma {:induction false} KeptEncodes(p: Pool, lax: bool, l: Layout, members: map<string, Json>, root: Json, other: Json)
    requires SoundPool(p) && Sound(l) && (forall k | k in members :: members[k] < root) && FitsMembers(p, l, members, root)
    requires forall k | k in KeptMembers(p, lax, l, members, root) :: KeptMembers(p, lax, l, members, root)[k] < other
    ensures EncodeMembers(p, l, KeptMembers(p, lax, l, members, root), other) == EncodeMembers(p, l, members, root)
    decreases root, 0, l, 1
  {
    var own, kept := Own(l, members), KeptMembers(p, lax, l, members, root);
    var inner: Result<Pb, Error> := Err(BadLeaf);
    KeptParts(p, lax, l, members, root);
    if l.embed.Some? {
      inner := EncodeMembers(p, l.embed.value.layout, Rest(l, members), root);
      KeptEncodes(p, lax, l.embed.value.layout, Rest(l, members), root, other);
    }
    KeptIsPresent(p, lax, l, members, root);
    OwnIsReady(p, l, members, root);
    KeptOwnIsSame(p, lax, l, members, root);
    hide EncodeOwn, EncodeMembers, Ready, KeptOwn, FieldFor, FitsMembers, Own, Rest, NonNull, Sound, KeptMembers, SameBut, Plain, Joined;
    OwnJoinsSame(p, l, own, root, Own(l, kept), other, inner);
    EncodedIsJoined(p, l, members, root, inner);
    EncodedIsJoined(p, l, kept, other, inner);
  }

  /**
   * Through chains of embeds: an object that fits its type comes back without what is unknown and what
   * names an embed, so whole exactly if there is neither; and neither changes what is encoded.
   */
  lemma RoundTrip(p: Pool, message: string, v: Json)
    requires SoundPool(p) && FitsValue(p, Nested(message), v)
    ensures var l := LayoutOf(p, message);
            var r := EncodeMessage(p, l, v);
            && r.Ok? && r.value.Message?
            && DecodeMessage(p, l, r.value) == KeptValue(p, false, Nested(message), v)
            && (DecodeMessage(p, l, r.value) == v <==> UnknownValue(p, Nested(message), v, []) == [] && !NamesEmbed(p, Nested(message), v))
            && forall lax :: EncodeMessage(p, l, KeptValue(p, lax, Nested(message), v)) == r
  {
    var l := LayoutOf(p, message);
    assert Sound(l);
    RoundTripMembers(p, l, v.members, v);
    AllKeptValue(p, false, Nested(message), v, []);
    forall lax ensures EncodeMessage(p, l, KeptValue(p, lax, Nested(message), v)) == EncodeMessage(p, l, v) {
      KeptEncodesValue(p, lax, Nested(message), v);
    }
  }

  /** A fitting object with nothing unknown whose only fault is a member named as an embed: no report, and lost. */
  lemma LostUnreported(p: Pool, message: string, v: Json)
    requires SoundPool(p) && FitsValue(p, Nested(message), v) && UnknownValue(p, Nested(message), v, []) == []
    ensures var l := LayoutOf(p, message);
            var less := KeptValue(p, true, Nested(message), v);
            && (NamesEmbed(p, Nested(message), v) <==> less != v)
            && EncodeMessage(p, l, v) == EncodeMessage(p, l, less)
  {
    RoundTrip(p, message, v);
    AllKeptValue(p, true, Nested(message), v, []);
  }

  // A member under the embed's own name is found by no report, and lost.

  const INSIDE := Layout([Field("a", "a", One, Text)], [], None)
  const SOURCE := Field("source", "source", One, Nested("S"))
  const OUTSIDE := Layout([SOURCE], [], Some(Embed("source", INSIDE)))
  const NESTED := Object(map["source" := Object(map["a" := String("x")])])

  lemma OutsideParts()
    ensures FieldFor(OUTSIDE, "source") == Some(SOURCE) && FieldFor(INSIDE, "a") == Some(Field("a", "a", One, Text))
    ensures NonNull(NESTED.members) == NESTED.members == Own(OUTSIDE, NESTED.members)
    ensures Rest(OUTSIDE, NESTED.members) == map[] && NESTED.members - {"source"} == map[]
    ensures var inner := NESTED.members["source"].members;
            inner - {"a"} == map[] && Own(INSIDE, inner) == inner && Rest(INSIDE, inner) == map[]
    ensures NonNull(map[]) == map[] && Own(INSIDE, map[]) == map[] && Rest(INSIDE, map[]) == map[]
  {
  }

  /** Nothing is reported, and the message is the same as if the member were not there. */
  lemma EmbedNamedDirectlyIsLost(p: Pool)
    requires LayoutOf(p, "S") == INSIDE
    ensures UnknownMembers(p, OUTSIDE, NESTED.members, [], NESTED) == []
    ensures EncodeMessage(p, OUTSIDE, NESTED) == Ok(Message(map["source" := Message(map[])]))
  {
    OutsideParts();
    hide FieldFor, NonNull, Own, Rest;
    var inner := NESTED.members["source"];
    assert UnknownOwn(p, INSIDE, inner.members, [Key("source")], inner) == [];
    assert UnknownField(p, SOURCE, inner, [] + [Key("source")]) == [];
    assert UnknownOwn(p, OUTSIDE, NESTED.members, [], NESTED) == [];
    assert UnknownMembers(p, INSIDE, map[], [], NESTED) == [];
    assert EncodeMembers(p, INSIDE, map[], NESTED) == Ok(Message(map[]));
    EncodeInside(p, inner);
    var pb := EncodeField(p, SOURCE, inner).value.value;
    assert EncodeOwn(p, OUTSIDE, NESTED.members, map[], NESTED) == Ok(map["source" := pb]);
    assert map["source" := pb]["source" := Message(map[])] == map["source" := Message(map[])];
  }

  lemma EncodeInside(p: Pool, inner: Json)
    requires LayoutOf(p, "S") == INSIDE && inner == NESTED.members["source"]
    ensures EncodeField(p, SOURCE, inner).Ok? && EncodeField(p, SOURCE, inner).value.Some?
  {
    OutsideParts();
    hide FieldFor, Own, Rest;
    assert NonNull(inner.members) == inner.members;
    assert EncodeOwn(p, INSIDE, inner.members, map[], inner).Ok?;
  }
}
