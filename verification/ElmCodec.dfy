/**
 The Elm codec generator. Definitions are translated to the decoders and
 encoders the generator writes, as syntax, and those run with the meaning of
 Elm's Json.Decode and Json.Encode. `depth` bounds how many named definitions an
 evaluation enters, one inside another.
 */
module ElmCodec {
  import opened Prelude

  // ---- what is generated from ----

  datatype TypeRef = StringRef | IntRef | NamedRef(name: string) | ListRef(element: TypeRef)

  datatype Field = Field(name: string, json: string, typ: TypeRef)

  datatype Variant = Variant(name: string, tag: string)

  datatype Definition =
    | Alias(name: string, typ: TypeRef)
    | Enum(name: string, variants: seq<Variant>)
    | Product(name: string, fields: seq<Field>)

  // ---- what is generated ----

  datatype Decoder =
    | String
    | Int
    | List(element: Decoder)
    | Call(function_: string)
    | FieldOf(json: string, value: Decoder)
    | Case(cases: seq<Variant>)
    | MapN(constructor_: string, args: seq<Decoder>)
    | Then(first: Decoder, more: seq<Decoder>)

  datatype EncodeFn = EncodeString | EncodeInt | EncodeList(element: EncodeFn) | EncodeCall(function_: string)

  /** `fn value` or `fn value.field`. */
  datatype EncodeExpr = OfValue(fn: EncodeFn) | OfField(fn: EncodeFn, field: string)

  datatype Member = Member(json: string, expr: EncodeExpr)

  datatype Encoder = Expression(expr: EncodeExpr) | EncodeObject(members: seq<Member>) | EncodeCase(cases: seq<Variant>)

  /** The top-level functions of a module, and its record constructors with their field names. */
  datatype Program = Program(decoders: map<string, Decoder>, encoders: map<string, Encoder>, records: map<string, seq<string>>)

  // ---- the generator ----

  function LowerFirst(s: string): string {
    if s == "" then s
    else [if 'A' <= s[0] <= 'Z' then (s[0] as int + 32) as char else s[0]] + s[1..]
  }

  function DecoderName(name: string): string {
    LowerFirst(name) + "Decoder"
  }

  function EncoderName(name: string): string {
    LowerFirst(name) + "Encoder"
  }

  function DecoderRef(ref: TypeRef): Decoder {
    match ref
    case StringRef => String
    case IntRef => Int
    case NamedRef(name) => Call(DecoderName(name))
    case ListRef(element) => List(DecoderRef(element))
  }

  function EncoderFunction(ref: TypeRef): EncodeFn {
    match ref
    case StringRef => EncodeString
    case IntRef => EncodeInt
    case NamedRef(name) => EncodeCall(EncoderName(name))
    case ListRef(element) => EncodeList(EncoderFunction(element))
  }

  function FieldDecoder(f: Field): Decoder {
    FieldOf(f.json, DecoderRef(f.typ))
  }

  function FieldDecoders(fields: seq<Field>): (ds: seq<Decoder>)
    ensures |ds| == |fields|
  {
    seq(|fields|, i requires 0 <= i < |fields| => FieldDecoder(fields[i]))
  }

  const CHUNK: nat := 8

  /** Feeds the remaining fields to what is decoded so far, eight at a time. */
  function Chunked(sofar: Decoder, rest: seq<Field>): Decoder
    decreases |rest|
  {
    if rest == [] then sofar
    else
      var k := if |rest| < CHUNK then |rest| else CHUNK;
      Chunked(Then(sofar, FieldDecoders(rest[..k])), rest[k..])
  }

  function ProductDecoder(name: string, fields: seq<Field>): Decoder {
    if |fields| <= CHUNK then MapN(name, FieldDecoders(fields))
    else Chunked(MapN(name, FieldDecoders(fields[..CHUNK])), fields[CHUNK..])
  }

  method WriteChunkedProductDecoder(name: string, fields: seq<Field>) returns (d: Decoder)
    requires |fields| > 8
    ensures d == ProductDecoder(name, fields)
  {
    d := MapN(name, FieldDecoders(fields[..CHUNK]));
    var start := CHUNK;
    while start < |fields|
      invariant CHUNK <= start
      invariant ProductDecoder(name, fields) == if start < |fields| then Chunked(d, fields[start..]) else d
    {
      var end := start + CHUNK;
      if end > |fields| {
        end := |fields|;
      }
      assert fields[start..][..end - start] == fields[start..end] && fields[start..][end - start..] == fields[end..];
      d := Then(d, FieldDecoders(fields[start..end]));
      start := start + CHUNK;
    }
  }

  function DecoderOf(d: Definition): Decoder {
    match d
    case Alias(_, typ) => DecoderRef(typ)
    case Enum(_, variants) => Case(variants)
    case Product(name, fields) => ProductDecoder(name, fields)
  }

  function FieldEncoders(fields: seq<Field>): (members: seq<Member>)
    ensures |members| == |fields|
  {
    seq(|fields|, i requires 0 <= i < |fields| => Member(fields[i].json, OfField(EncoderFunction(fields[i].typ), fields[i].name)))
  }

  function EncoderOf(d: Definition): Encoder {
    match d
    case Alias(_, typ) => Expression(OfValue(EncoderFunction(typ)))
    case Enum(_, variants) => EncodeCase(variants)
    case Product(_, fields) =>
      EncodeObject(FieldEncoders(fields))
  }

  function Names(fields: seq<Field>): (names: seq<string>)
    ensures |names| == |fields|
  {
    seq(|fields|, i requires 0 <= i < |fields| => fields[i].name)
  }

  function WithDefinition(p: Program, d: Definition): Program {
    Program(p.decoders[DecoderName(d.name) := DecoderOf(d)], p.encoders[EncoderName(d.name) := EncoderOf(d)],
            if d.Product? then p.records[d.name := Names(d.fields)] else p.records)
  }

  function Generated(defs: seq<Definition>): Program {
    if defs == [] then Program(map[], map[], map[]) else WithDefinition(Generated(defs[..|defs| - 1]), defs[|defs| - 1])
  }

  method GenerateElmFile(defs: seq<Definition>) returns (p: Program)
    ensures p == Generated(defs)
  {
    p := Program(map[], map[], map[]);
    for i := 0 to |defs|
      invariant p == Generated(defs[..i])
    {
      assert defs[..i + 1][..i] == defs[..i];
      var d := defs[i];
      var decoder := DecoderOf(d);
      if d.Product? && |d.fields| > CHUNK {
        decoder := WriteChunkedProductDecoder(d.name, d.fields);
      }
      p := Program(p.decoders[DecoderName(d.name) := decoder], p.encoders[EncoderName(d.name) := EncoderOf(d)],
                   if d.Product? then p.records[d.name := Names(d.fields)] else p.records);
    }
    assert defs[..|defs|] == defs;
  }

  // ---- running it ----

  datatype Value =
    | Text(text: string)
    | Number(number: int)
    | Items(items: seq<Value>)
    | OneOf(variant: string)
    | Record(fields: seq<(string, Value)>)
    | Partial(names: seq<string>, args: seq<Value>)

  datatype Json = JsonString(text: string) | JsonNumber(number: int) | JsonArray(items: seq<Json>) | JsonObject(members: map<string, Json>)

  function Zip(names: seq<string>, values: seq<Value>): (r: seq<(string, Value)>)
    requires |names| == |values|
    ensures |r| == |names|
  {
    seq(|names|, i requires 0 <= i < |names| => (names[i], values[i]))
  }

  /** Applies a record constructor, which may stay partially applied. */
  function Apply(f: Value, more: seq<Value>): Option<Value> {
    if !f.Partial? || |f.args| + |more| > |f.names| then None
    else if |f.args| + |more| < |f.names| then Some(Partial(f.names, f.args + more))
    else Some(Record(Zip(f.names, f.args + more)))
  }

  function VariantTagged(cases: seq<Variant>, tag: string): Option<Variant> {
    if cases == [] then None else if cases[0].tag == tag then Some(cases[0]) else VariantTagged(cases[1..], tag)
  }

  function VariantNamed(cases: seq<Variant>, name: string): Option<Variant> {
    if cases == [] then None else if cases[0].name == name then Some(cases[0]) else VariantNamed(cases[1..], name)
  }

  /** Elm has map and map2 to map8, so a decoder with no fields, or more than eight at once, does not exist. */
  predicate MapExists(n: nat) {
    1 <= n <= 8
  }

  function Decode(p: Program, depth: nat, d: Decoder, j: Json): Option<Value>
    decreases depth, d, 0
  {
    match d
    case String => if j.JsonString? then Some(Text(j.text)) else None
    case Int => if j.JsonNumber? then Some(Number(j.number)) else None
    case List(element) =>
      if !j.JsonArray? then None
      else
        var values := DecodeEach(p, depth, element, j.items);
        if values.Some? then Some(Items(values.value)) else None
    case Call(f) => if depth == 0 || f !in p.decoders then None else Decode(p, depth - 1, p.decoders[f], j)
    case FieldOf(json, value) => if j.JsonObject? && json in j.members then Decode(p, depth, value, j.members[json]) else None
    case Case(cases) =>
      if !j.JsonString? then None
      else
        var found := VariantTagged(cases, j.text);
        if found.Some? then Some(OneOf(found.value.name)) else None
    case MapN(name, args) =>
      if name !in p.records || !MapExists(|args|) then None
      else
        var values := DecodeArgs(p, depth, args, j);
        if values.Some? then Apply(Partial(p.records[name], []), values.value) else None
    case Then(first, more) =>
      var finish := Decode(p, depth, first, j);
      if finish.None? || !MapExists(|more|) then None
      else
        var values := DecodeArgs(p, depth, more, j);
        if values.Some? then Apply(finish.value, values.value) else None
  }

  function DecodeEach(p: Program, depth: nat, d: Decoder, items: seq<Json>): Option<seq<Value>>
    decreases depth, d, 1 + |items|
  {
    if items == [] then Some([])
    else
      var before := DecodeEach(p, depth, d, items[..|items| - 1]);
      var last := Decode(p, depth, d, items[|items| - 1]);
      if before.Some? && last.Some? then Some(before.value + [last.value]) else None
  }

  function DecodeArgs(p: Program, depth: nat, args: seq<Decoder>, j: Json): (r: Option<seq<Value>>)
    ensures r.Some? ==> |r.value| == |args|
    decreases depth, args, 0
  {
    if args == [] then Some([])
    else
      var before := DecodeArgs(p, depth, args[..|args| - 1], j);
      var last := Decode(p, depth, args[|args| - 1], j);
      if before.Some? && last.Some? then Some(before.value + [last.value]) else None
  }

  function Access(fields: seq<(string, Value)>, name: string): Option<Value> {
    if fields == [] then None else if fields[0].0 == name then Some(fields[0].1) else Access(fields[1..], name)
  }

  function Encode(p: Program, depth: nat, fn: EncodeFn, v: Value): Option<Json>
    decreases depth, fn, 0
  {
    match fn
    case EncodeString => if v.Text? then Some(JsonString(v.text)) else None
    case EncodeInt => if v.Number? then Some(JsonNumber(v.number)) else None
    case EncodeList(element) =>
      if !v.Items? then None
      else
        var items := EncodeEach(p, depth, element, v.items);
        if items.Some? then Some(JsonArray(items.value)) else None
    case EncodeCall(f) => if depth == 0 || f !in p.encoders then None else EncodeWith(p, depth - 1, p.encoders[f], v)
  }

  function EncodeEach(p: Program, depth: nat, fn: EncodeFn, items: seq<Value>): Option<seq<Json>>
    decreases depth, fn, 1 + |items|
  {
    if items == [] then Some([])
    else
      var before := EncodeEach(p, depth, fn, items[..|items| - 1]);
      var last := Encode(p, depth, fn, items[|items| - 1]);
      if before.Some? && last.Some? then Some(before.value + [last.value]) else None
  }

  function EncodeExpression(p: Program, depth: nat, e: EncodeExpr, v: Value): Option<Json>
    decreases depth, e, 0
  {
    match e
    case OfValue(fn) => Encode(p, depth, fn, v)
    case OfField(fn, field) =>
      if !v.Record? then None
      else
        var inner := Access(v.fields, field);
        if inner.Some? then Encode(p, depth, fn, inner.value) else None
  }

  /** Encode.object: a later member replaces an earlier one of the same name. */
  function EncodeMembers(p: Program, depth: nat, members: seq<Member>, v: Value): Option<map<string, Json>>
    decreases depth, members, 0
  {
    if members == [] then Some(map[])
    else
      var n := |members| - 1;
      var before := EncodeMembers(p, depth, members[..n], v);
      var last := EncodeExpression(p, depth, members[n].expr, v);
      if before.Some? && last.Some? then Some(before.value[members[n].json := last.value]) else None
  }

  function EncodeWith(p: Program, depth: nat, e: Encoder, v: Value): Option<Json>
    decreases depth, e, 0
  {
    match e
    case Expression(expr) => EncodeExpression(p, depth, expr, v)
    case EncodeObject(members) =>
      var object_ := EncodeMembers(p, depth, members, v);
      if object_.Some? then Some(JsonObject(object_.value)) else None
    case EncodeCase(cases) =>
      if !v.OneOf? then None
      else
        var found := VariantNamed(cases, v.variant);
        if found.Some? then Some(JsonString(found.value.tag)) else None
  }

  // ---- the chunked decoder is the flat one ----

  lemma DecodeArgsAppend(p: Program, depth: nat, a: seq<Decoder>, b: seq<Decoder>, j: Json)
    ensures var (x, y) := (DecodeArgs(p, depth, a, j), DecodeArgs(p, depth, b, j));
      DecodeArgs(p, depth, a + b, j) == if x.Some? && y.Some? then Some(x.value + y.value) else None
  {
    if b == [] {
      assert a + b == a;
      assert DecodeArgs(p, depth, b, j) == Some([]);
      if DecodeArgs(p, depth, a, j).Some? { assert DecodeArgs(p, depth, a, j).value + [] == DecodeArgs(p, depth, a, j).value; }
    } else {
      var n := |b| - 1;
      assert (a + b)[..|a + b| - 1] == a + b[..n];
      DecodeArgsAppend(p, depth, a, b[..n], j);
      var (x, y) := (DecodeArgs(p, depth, a, j), DecodeArgs(p, depth, b[..n], j));
      var last := Decode(p, depth, b[n], j);
      if x.Some? && y.Some? && last.Some? { assert (x.value + y.value) + [last.value] == x.value + (y.value + [last.value]); }
    }
  }

  lemma ApplyTwice(names: seq<string>, a: seq<Value>, b: seq<Value>)
    requires |a| + |b| <= |names| && b != []
    ensures Apply(Partial(names, []), a).Some?
    ensures Apply(Apply(Partial(names, []), a).value, b) == Apply(Partial(names, []), a + b)
  {
    assert [] + a == a && [] + (a + b) == a + b;
  }

  /** One flat application of the record constructor to some of its fields. */
  function Flat(p: Program, depth: nat, names: seq<string>, fields: seq<Field>, j: Json): Option<Value> {
    var values := DecodeArgs(p, depth, FieldDecoders(fields), j);
    if values.Some? then Apply(Partial(names, []), values.value) else None
  }

  lemma ThenExtendsFlat(p: Program, depth: nat, names: seq<string>, done: seq<Field>, next: seq<Field>, sofar: Decoder, j: Json)
    requires 1 <= |next| <= 8 && |done| + |next| <= |names|
    requires Decode(p, depth, sofar, j) == Flat(p, depth, names, done, j)
    ensures Decode(p, depth, Then(sofar, FieldDecoders(next)), j) == Flat(p, depth, names, done + next, j)
  {
    hide Decode, DecodeArgs, Apply;
    assert FieldDecoders(done + next) == FieldDecoders(done) + FieldDecoders(next);
    ThenDecodes(p, depth, sofar, FieldDecoders(next), j);
    DecodeArgsAppend(p, depth, FieldDecoders(done), FieldDecoders(next), j);
    var (x, y) := (DecodeArgs(p, depth, FieldDecoders(done), j), DecodeArgs(p, depth, FieldDecoders(next), j));
    var (finish, both) := (Decode(p, depth, sofar, j), DecodeArgs(p, depth, FieldDecoders(done + next), j));
    if x.Some? {
      LengthOf(p, depth, FieldDecoders(done), j);
      AppliesPartially(names, x.value);
      if y.Some? {
        LengthOf(p, depth, FieldDecoders(next), j);
        ApplyTwice(names, x.value, y.value);
      }
    }
  }

  lemma LengthOf(p: Program, depth: nat, args: seq<Decoder>, j: Json)
    requires DecodeArgs(p, depth, args, j).Some?
    ensures |DecodeArgs(p, depth, args, j).value| == |args|
  {
  }

  lemma AppliesPartially(names: seq<string>, a: seq<Value>)
    requires |a| <= |names|
    ensures Apply(Partial(names, []), a).Some?
  {
  }

  lemma ThenDecodes(p: Program, depth: nat, first: Decoder, more: seq<Decoder>, j: Json)
    requires MapExists(|more|)
    ensures var (finish, values) := (Decode(p, depth, first, j), DecodeArgs(p, depth, more, j));
      Decode(p, depth, Then(first, more), j) == if finish.Some? && values.Some? then Apply(finish.value, values.value) else None
  {
  }

  lemma {:induction false} ChunkedIsFlat(p: Program, depth: nat, names: seq<string>, done: seq<Field>, rest: seq<Field>, sofar: Decoder, j: Json)
    requires |done| + |rest| <= |names|
    requires Decode(p, depth, sofar, j) == Flat(p, depth, names, done, j)
    ensures Decode(p, depth, Chunked(sofar, rest), j) == Flat(p, depth, names, done + rest, j)
    decreases |rest|
  {
    if rest == [] {
      assert done + rest == done;
    } else {
      var k := if |rest| < CHUNK then |rest| else CHUNK;
      ThenExtendsFlat(p, depth, names, done, rest[..k], sofar, j);
      ChunkedIsFlat(p, depth, names, done + rest[..k], rest[k..], Then(sofar, FieldDecoders(rest[..k])), j);
      assert done + rest[..k] + rest[k..] == done + rest;
    }
  }

  /**
   However many fields a product has, its decoder decodes what one application of
   the constructor to all of them in order would, and fails when that would;
   with no fields at all there is no such decoder and it decodes nothing.
   */
  lemma ProductDecoderIsFlat(p: Program, depth: nat, name: string, fields: seq<Field>, j: Json)
    requires name in p.records && p.records[name] == Names(fields)
    ensures var values := DecodeArgs(p, depth, FieldDecoders(fields), j);
      Decode(p, depth, ProductDecoder(name, fields), j)
      == if values.Some? && fields != [] then Some(Record(Zip(Names(fields), values.value))) else None
  {
    var names := Names(fields);
    var values := DecodeArgs(p, depth, FieldDecoders(fields), j);
    if values.Some? { assert [] + values.value == values.value; }
    if |fields| > CHUNK {
      var first := fields[..CHUNK];
      assert Decode(p, depth, MapN(name, FieldDecoders(first)), j) == Flat(p, depth, names, first, j);
      ChunkedIsFlat(p, depth, names, first, fields[CHUNK..], MapN(name, FieldDecoders(first)), j);
      assert first + fields[CHUNK..] == fields;
    }
  }

  /** Every map in a decoder has a map function of its number of arguments. */
  predicate MapsExist(d: Decoder) {
    match d
    case List(element) => MapsExist(element)
    case FieldOf(_, value) => MapsExist(value)
    case MapN(_, args) => 1 <= |args| <= 8 && forall i :: 0 <= i < |args| ==> MapsExist(args[i])
    case Then(first, more) => MapsExist(first) && 1 <= |more| <= 8 && forall i :: 0 <= i < |more| ==> MapsExist(more[i])
    case _ => true
  }

  /** The arguments of each map of a decoder, first map first. */
  function MapArgs(d: Decoder): seq<nat> {
    match d
    case MapN(_, args) => [|args|]
    case Then(first, more) => MapArgs(first) + [|more|]
    case _ => []
  }

  lemma {:induction false} RefMapsExist(ref: TypeRef)
    ensures MapsExist(DecoderRef(ref))
  {
    if ref.ListRef? { RefMapsExist(ref.element); }
  }

  lemma FieldMapsExist(fields: seq<Field>)
    ensures forall i :: 0 <= i < |fields| ==> MapsExist(FieldDecoders(fields)[i])
  {
    forall i | 0 <= i < |fields| ensures MapsExist(FieldDecoders(fields)[i]) {
      RefMapsExist(fields[i].typ);
    }
  }

  /** All maps but the last take eight fields, and the last no more. */
  predicate FullButLast(sizes: seq<nat>, total: nat) {
    && |sizes| > 0 && 1 <= sizes[|sizes| - 1] <= 8
    && (forall i :: 0 <= i < |sizes| - 1 ==> sizes[i] == 8)
    && 8 * (|sizes| - 1) + sizes[|sizes| - 1] == total
  }

  lemma {:induction false} ChunksFill(sofar: Decoder, rest: seq<Field>, done: nat)
    requires MapsExist(sofar) && FullButLast(MapArgs(sofar), done) && (rest != [] ==> done % 8 == 0)
    ensures MapsExist(Chunked(sofar, rest)) && FullButLast(MapArgs(Chunked(sofar, rest)), done + |rest|)
    decreases |rest|
  {
    if rest != [] {
      var k := if |rest| < CHUNK then |rest| else CHUNK;
      FieldMapsExist(rest[..k]);
      var (sizes, next) := (MapArgs(sofar), Then(sofar, FieldDecoders(rest[..k])));
      assert MapArgs(next) == sizes + [k];
      ChunksFill(next, rest[k..], done + k);
    }
  }

  /** The decoder of any product with fields uses map to map8 only: eight fields in each map but the last. */
  lemma ProductMapsExist(name: string, fields: seq<Field>)
    requires fields != []
    ensures MapsExist(ProductDecoder(name, fields)) && FullButLast(MapArgs(ProductDecoder(name, fields)), |fields|)
  {
    FieldMapsExist(fields);
    if |fields| > CHUNK {
      FieldMapsExist(fields[..CHUNK]);
      ChunksFill(MapN(name, FieldDecoders(fields[..CHUNK])), fields[CHUNK..], CHUNK);
    }
  }

  // ---- modules and their values ----

  function Find(defs: seq<Definition>, name: string): (d: Option<Definition>)
    ensures d.Some? ==> d.value in defs && d.value.name == name
  {
    if defs == [] then None
    else if defs[|defs| - 1].name == name then Some(defs[|defs| - 1])
    else Find(defs[..|defs| - 1], name)
  }

  ghost predicate DefinitionOk(d: Definition) {
    match d
    case Alias(_, _) => true
    case Enum(_, variants) =>
      && (forall i, j :: 0 <= i < j < |variants| ==> variants[i].tag != variants[j].tag)
      && (forall i, j :: 0 <= i < j < |variants| ==> variants[i].name != variants[j].name)
    case Product(_, fields) =>
      && fields != []
      && (forall i, j :: 0 <= i < j < |fields| ==> fields[i].json != fields[j].json)
      && (forall i, j :: 0 <= i < j < |fields| ==> fields[i].name != fields[j].name)
  }

  /** What Elm demands of the names, plus distinct tags and JSON names and a field in every product. */
  ghost predicate ModuleOk(defs: seq<Definition>) {
    && (forall d <- defs :: DefinitionOk(d))
    && (forall i, j :: 0 <= i < j < |defs| ==> LowerFirst(defs[i].name) != LowerFirst(defs[j].name))
  }

  ghost predicate HasType(defs: seq<Definition>, depth: nat, ref: TypeRef, v: Value)
    decreases depth, ref
  {
    match ref
    case StringRef => v.Text?
    case IntRef => v.Number?
    case ListRef(element) => v.Items? && forall i :: 0 <= i < |v.items| ==> HasType(defs, depth, element, v.items[i])
    case NamedRef(name) => depth > 0 && Find(defs, name).Some? && Fits(defs, depth - 1, Find(defs, name).value, v)
  }

  ghost predicate Fits(defs: seq<Definition>, depth: nat, d: Definition, v: Value)
    decreases depth, d
  {
    match d
    case Alias(_, typ) => HasType(defs, depth, typ, v)
    case Enum(_, variants) => v.OneOf? && VariantNamed(variants, v.variant).Some?
    case Product(_, fields) =>
      && v.Record? && |v.fields| == |fields|
      && forall i :: 0 <= i < |fields| ==> v.fields[i].0 == fields[i].name && HasType(defs, depth, fields[i].typ, v.fields[i].1)
  }

  lemma NamesApart(a: string, b: string)
    requires LowerFirst(a) != LowerFirst(b)
    ensures a != b && DecoderName(a) != DecoderName(b) && EncoderName(a) != EncoderName(b)
  {
    var (x, y) := (LowerFirst(a), LowerFirst(b));
    assert DecoderName(a)[..|DecoderName(a)| - 7] == x && DecoderName(b)[..|DecoderName(b)| - 7] == y;
    assert EncoderName(a)[..|EncoderName(a)| - 7] == x && EncoderName(b)[..|EncoderName(b)| - 7] == y;
  }

  ghost predicate Emits(p: Program, d: Definition) {
    && DecoderName(d.name) in p.decoders && p.decoders[DecoderName(d.name)] == DecoderOf(d)
    && EncoderName(d.name) in p.encoders && p.encoders[EncoderName(d.name)] == EncoderOf(d)
    && (d.Product? ==> d.name in p.records && p.records[d.name] == Names(d.fields))
  }

  /** The generated program has, under each definition's names, that definition's codecs. */
  lemma {:induction false} GeneratedEmits(defs: seq<Definition>, k: nat)
    requires ModuleOk(defs) && k < |defs|
    ensures Emits(Generated(defs), defs[k])
  {
    var n := |defs| - 1;
    if k < n {
      GeneratedEmits(defs[..n], k);
      assert LowerFirst(defs[k].name) != LowerFirst(defs[n].name);
      NamesApart(defs[k].name, defs[n].name);
    }
  }

  lemma FoundIsEmitted(defs: seq<Definition>, name: string)
    requires ModuleOk(defs) && Find(defs, name).Some?
    ensures Emits(Generated(defs), Find(defs, name).value) && DefinitionOk(Find(defs, name).value)
  {
    var k :| 0 <= k < |defs| && defs[k] == Find(defs, name).value;
    GeneratedEmits(defs, k);
  }

  /** Every decoder a module with fields in its products generates can be written in Elm. */
  lemma {:induction false} GeneratedMapsExist(defs: seq<Definition>, f: string)
    requires (forall d <- defs :: d.Product? ==> d.fields != []) && f in Generated(defs).decoders
    ensures MapsExist(Generated(defs).decoders[f])
  {
    var d := defs[|defs| - 1];
    if f == DecoderName(d.name) {
      match d
      case Alias(_, typ) => RefMapsExist(typ);
      case Enum(_, _) =>
      case Product(name, fields) => ProductMapsExist(name, fields);
    } else {
      GeneratedMapsExist(defs[..|defs| - 1], f);
    }
  }

  /** Codec names start with a lower-case letter, as Elm's values must, and differ from their type's only there and in the suffix. */
  lemma CodecNames(name: string)
    requires name != "" && 'A' <= name[0] <= 'Z'
    ensures var (d, e) := (DecoderName(name), EncoderName(name));
      && 'a' <= d[0] <= 'z' && d[0] as int == name[0] as int + 32 && d[1..] == name[1..] + "Decoder"
      && e[0] == d[0] && e[1..] == name[1..] + "Encoder"
  {
  }

  // ---- decoding undoes encoding ----

  lemma {:induction false} EnumRoundTrip(variants: seq<Variant>, name: string)
    requires VariantNamed(variants, name).Some?
    requires forall i, j :: 0 <= i < j < |variants| ==> variants[i].tag != variants[j].tag
    ensures var found := VariantNamed(variants, name).value; found in variants && found.name == name && VariantTagged(variants, found.tag) == Some(found)
  {
    if variants[0].name != name {
      EnumRoundTrip(variants[1..], name);
      var found := VariantNamed(variants[1..], name).value;
      var k :| 0 <= k < |variants[1..]| && variants[1..][k] == found;
      assert variants[k + 1] == found && variants[0].tag != variants[k + 1].tag;
    }
  }

  lemma {:induction false} AccessAt(fields: seq<(string, Value)>, i: nat)
    requires i < |fields| && forall k, m :: 0 <= k < m < |fields| ==> fields[k].0 != fields[m].0
    ensures Access(fields, fields[i].0) == Some(fields[i].1)
  {
    if i > 0 {
      assert fields[0].0 != fields[i].0;
      AccessAt(fields[1..], i - 1);
    }
  }

  /** Among the first k fields, j is the last under the JSON name of i. */
  ghost predicate LastUnder(fields: seq<Field>, k: nat, i: int, j: int)
    requires k <= |fields|
  {
    0 <= i <= j < k && fields[j].json == fields[i].json && forall m :: j < m < k ==> fields[m].json != fields[i].json
  }

  /** A record that has the fields of a product, by name and in order. */
  ghost predicate Named(fields: seq<Field>, v: Value) {
    && v.Record? && |v.fields| == |fields|
    && (forall i :: 0 <= i < |fields| ==> v.fields[i].0 == fields[i].name)
    && (forall i, j :: 0 <= i < j < |fields| ==> fields[i].name != fields[j].name)
  }

  /** The object an encoder builds has, under each JSON name, the encoding of the last field of that name. */
  lemma {:induction false} MembersEncoded(p: Program, depth: nat, fields: seq<Field>, v: Value, k: nat)
    requires k <= |fields| && Named(fields, v)
    requires forall i :: 0 <= i < |fields| ==> Encode(p, depth, EncoderFunction(fields[i].typ), v.fields[i].1).Some?
    ensures var object_ := EncodeMembers(p, depth, FieldEncoders(fields)[..k], v);
      object_.Some? && forall i, j :: LastUnder(fields, k, i, j) ==>
        fields[i].json in object_.value && Encode(p, depth, EncoderFunction(fields[j].typ), v.fields[j].1) == Some(object_.value[fields[i].json])
  {
    hide Encode;
    if k > 0 {
      MembersEncoded(p, depth, fields, v, k - 1);
      assert FieldEncoders(fields)[..k][..k - 1] == FieldEncoders(fields)[..k - 1];
      AccessAt(v.fields, k - 1);
      ExpressionEncodes(p, depth, fields[k - 1], v, v.fields[k - 1].1);
      forall i, j | LastUnder(fields, k, i, j) ensures j == k - 1 || (i < k - 1 && LastUnder(fields, k - 1, i, j) && fields[k - 1].json != fields[i].json) {
      }
    }
  }

  lemma ExpressionEncodes(p: Program, depth: nat, f: Field, v: Value, inner: Value)
    requires v.Record? && Access(v.fields, f.name) == Some(inner)
    ensures EncodeExpression(p, depth, OfField(EncoderFunction(f.typ), f.name), v) == Encode(p, depth, EncoderFunction(f.typ), inner)
  {
  }

  lemma {:induction false} LastExists(fields: seq<Field>, k: nat, i: nat) returns (j: nat)
    requires i < k <= |fields|
    ensures LastUnder(fields, k, i, j)
    decreases k
  {
    if fields[k - 1].json == fields[i].json {
      j := k - 1;
    } else {
      j := LastExists(fields, k - 1, i);
    }
  }

  lemma {:induction false} ArgsDecoded(p: Program, depth: nat, fields: seq<Field>, members: map<string, Json>, values: seq<Value>, k: nat)
    requires k <= |fields| == |values|
    requires forall i :: 0 <= i < |fields| ==>
      fields[i].json in members && Decode(p, depth, DecoderRef(fields[i].typ), members[fields[i].json]) == Some(values[i])
    ensures DecodeArgs(p, depth, FieldDecoders(fields)[..k], JsonObject(members)) == Some(values[..k])
  {
    if k > 0 {
      ArgsDecoded(p, depth, fields, members, values, k - 1);
      assert FieldDecoders(fields)[..k][..k - 1] == FieldDecoders(fields)[..k - 1];
      assert values[..k] == values[..k - 1] + [values[k - 1]];
    }
  }

  /** What round trips: the value encodes, and decoding what it encodes to gives it back. */
  ghost predicate RoundTrips(p: Program, depth: nat, fn: EncodeFn, d: Decoder, v: Value) {
    var j := Encode(p, depth, fn, v);
    j.Some? && Decode(p, depth, d, j.value) == Some(v)
  }

  ghost predicate AllRoundTrip(p: Program, depth: nat, fn: EncodeFn, d: Decoder, items: seq<Value>) {
    var js := EncodeEach(p, depth, fn, items);
    js.Some? && DecodeEach(p, depth, d, js.value) == Some(items)
  }

  lemma AllRoundTripExtends(p: Program, depth: nat, fn: EncodeFn, d: Decoder, items: seq<Value>)
    requires items != [] && AllRoundTrip(p, depth, fn, d, items[..|items| - 1]) && RoundTrips(p, depth, fn, d, items[|items| - 1])
    ensures AllRoundTrip(p, depth, fn, d, items)
  {
    hide Encode, Decode;
    var n := |items| - 1;
    var (before, last) := (EncodeEach(p, depth, fn, items[..n]).value, Encode(p, depth, fn, items[n]).value);
    assert EncodeEach(p, depth, fn, items) == Some(before + [last]);
    assert (before + [last])[..|before|] == before;
    assert items == items[..n] + [items[n]];
  }

  lemma {:induction false} EachRoundTrips(defs: seq<Definition>, depth: nat, ref: TypeRef, items: seq<Value>)
    requires ModuleOk(defs) && forall i :: 0 <= i < |items| ==> HasType(defs, depth, ref, items[i])
    ensures AllRoundTrip(Generated(defs), depth, EncoderFunction(ref), DecoderRef(ref), items)
    decreases depth, ref, 1 + |items|
  {
    hide Encode, Decode, HasType, ModuleOk, RoundTrips, EncoderFunction, DecoderRef, Generated;
    if items != [] {
      var n := |items| - 1;
      EachRoundTrips(defs, depth, ref, items[..n]);
      GeneratedCodecsRoundTrip(defs, depth, ref, items[n]);
      AllRoundTripExtends(Generated(defs), depth, EncoderFunction(ref), DecoderRef(ref), items);
    }
  }

  /** The codecs of a definition, before they are named. */
  ghost predicate DefinitionRoundTrips(p: Program, depth: nat, d: Definition, v: Value) {
    var j := EncodeWith(p, depth, EncoderOf(d), v);
    j.Some? && Decode(p, depth, DecoderOf(d), j.value) == Some(v)
  }

  lemma CallRoundTrips(p: Program, depth: nat, d: Definition, v: Value)
    requires depth > 0 && Emits(p, d) && DefinitionRoundTrips(p, depth - 1, d, v)
    ensures RoundTrips(p, depth, EncodeCall(EncoderName(d.name)), Call(DecoderName(d.name)), v)
  {
    hide EncoderOf, DecoderOf, EncodeWith;
  }

  lemma {:induction false} ProductRoundTrips(defs: seq<Definition>, depth: nat, d: Definition, v: Value)
    requires ModuleOk(defs) && d.Product? && DefinitionOk(d) && Fits(defs, depth, d, v) && Emits(Generated(defs), d)
    ensures DefinitionRoundTrips(Generated(defs), depth, d, v)
    decreases depth, d, 0
  {
    hide Decode, Encode, EncodeMembers, ProductDecoder, Generated, RoundTrips, DefinitionRoundTrips;
    var (p, fields) := (Generated(defs), d.fields);
    forall i | 0 <= i < |fields| ensures RoundTrips(p, depth, EncoderFunction(fields[i].typ), DecoderRef(fields[i].typ), v.fields[i].1) {
      GeneratedCodecsRoundTrip(defs, depth, fields[i].typ, v.fields[i].1);
    }
    ProductRoundTripsIffSharedNamesAgree(p, depth, d.name, fields, v);
  }

  /** The value a product's decoder finds for each field: that of the last field under its JSON name. */
  lemma SurvivingValues(p: Program, depth: nat, name: string, fields: seq<Field>, v: Value) returns (values: seq<Value>)
    requires fields != [] && Named(fields, v) && name in p.records && p.records[name] == Names(fields)
    requires forall i :: 0 <= i < |fields| ==> RoundTrips(p, depth, EncoderFunction(fields[i].typ), DecoderRef(fields[i].typ), v.fields[i].1)
    requires forall i, j :: 0 <= i < j < |fields| && fields[i].json == fields[j].json ==> fields[i].typ == fields[j].typ
    ensures |values| == |fields|
    ensures forall i, j :: LastUnder(fields, |fields|, i, j) ==> values[i] == v.fields[j].1
    ensures var object_ := EncodeMembers(p, depth, FieldEncoders(fields), v);
      object_.Some? && Decode(p, depth, ProductDecoder(name, fields), JsonObject(object_.value)) == Some(Record(Zip(Names(fields), values)))
  {
    hide Decode, Encode, EncodeMembers, ProductDecoder;
    var n := |fields|;
    MembersEncoded(p, depth, fields, v, n);
    assert FieldEncoders(fields)[..n] == FieldEncoders(fields);
    var members := EncodeMembers(p, depth, FieldEncoders(fields), v).value;
    values := [];
    while |values| < n
      invariant |values| <= n
      invariant forall i, j :: LastUnder(fields, n, i, j) && i < |values| ==> values[i] == v.fields[j].1
      invariant forall i :: 0 <= i < |values| ==>
        fields[i].json in members && Decode(p, depth, DecoderRef(fields[i].typ), members[fields[i].json]) == Some(values[i])
    {
      var i := |values|;
      var j := LastExists(fields, n, i);
      assert RoundTrips(p, depth, EncoderFunction(fields[j].typ), DecoderRef(fields[j].typ), v.fields[j].1);
      assert fields[i].typ == fields[j].typ;
      values := values + [v.fields[j].1];
    }
    ArgsDecoded(p, depth, fields, members, values, n);
    assert FieldDecoders(fields)[..n] == FieldDecoders(fields) && values[..n] == values;
    ProductDecoderIsFlat(p, depth, name, fields, JsonObject(members));
  }

  /**
   A record whose fields each round trip, with one type for each JSON name,
   survives its product's codecs if and only if fields that share a JSON name
   have the same value: the object keeps the last of them and all decode to it.
   */
  lemma ProductRoundTripsIffSharedNamesAgree(p: Program, depth: nat, name: string, fields: seq<Field>, v: Value)
    requires fields != [] && Named(fields, v) && name in p.records && p.records[name] == Names(fields)
    requires forall i :: 0 <= i < |fields| ==> RoundTrips(p, depth, EncoderFunction(fields[i].typ), DecoderRef(fields[i].typ), v.fields[i].1)
    requires forall i, j :: 0 <= i < j < |fields| && fields[i].json == fields[j].json ==> fields[i].typ == fields[j].typ
    ensures DefinitionRoundTrips(p, depth, Product(name, fields), v)
       <==> forall i, j :: 0 <= i < j < |fields| && fields[i].json == fields[j].json ==> v.fields[i].1 == v.fields[j].1
  {
    hide Decode, ProductDecoder, RoundTrips, EncodeMembers;
    var values := SurvivingValues(p, depth, name, fields, v);
    ProductCodecs(p, depth, name, fields, v);
    RecordIs(fields, v, values);
    var n := |fields|;
    if forall i, j :: 0 <= i < j < n && fields[i].json == fields[j].json ==> v.fields[i].1 == v.fields[j].1 {
      forall i | 0 <= i < n ensures values[i] == v.fields[i].1 {
        var j := LastExists(fields, n, i);
      }
    } else {
      var i, j :| 0 <= i < j < n && fields[i].json == fields[j].json && v.fields[i].1 != v.fields[j].1;
      var last := LastExists(fields, n, j);
      assert LastUnder(fields, n, i, last);
      assert values[i] == values[j];
    }
  }

  lemma ProductCodecs(p: Program, depth: nat, name: string, fields: seq<Field>, v: Value)
    ensures var object_ := EncodeMembers(p, depth, FieldEncoders(fields), v);
      DefinitionRoundTrips(p, depth, Product(name, fields), v)
      <==> object_.Some? && Decode(p, depth, ProductDecoder(name, fields), JsonObject(object_.value)) == Some(v)
  {
    hide Decode, EncodeMembers;
  }

  lemma RecordIs(fields: seq<Field>, v: Value, values: seq<Value>)
    requires Named(fields, v) && |values| == |fields|
    ensures |v.fields| == |fields|
    ensures Record(Zip(Names(fields), values)) == v <==> forall i :: 0 <= i < |fields| ==> values[i] == v.fields[i].1
  {
    var zipped := Zip(Names(fields), values);
    forall i | 0 <= i < |fields| ensures zipped[i] == v.fields[i] <==> values[i] == v.fields[i].1 {
      assert zipped[i] == (fields[i].name, values[i]);
    }
    if forall i :: 0 <= i < |fields| ==> values[i] == v.fields[i].1 {
      assert zipped == v.fields;
    } else {
      var i :| 0 <= i < |fields| && values[i] != v.fields[i].1;
      assert zipped[i] != v.fields[i];
    }
  }

  lemma AliasRoundTrips(p: Program, depth: nat, d: Definition, v: Value)
    requires d.Alias? && RoundTrips(p, depth, EncoderFunction(d.typ), DecoderRef(d.typ), v)
    ensures DefinitionRoundTrips(p, depth, d, v)
  {
    hide Encode, Decode;
    assert EncodeExpression(p, depth, OfValue(EncoderFunction(d.typ)), v) == Encode(p, depth, EncoderFunction(d.typ), v);
  }

  lemma EnumRoundTrips(p: Program, depth: nat, d: Definition, v: Value)
    requires d.Enum? && DefinitionOk(d) && v.OneOf? && VariantNamed(d.variants, v.variant).Some?
    ensures DefinitionRoundTrips(p, depth, d, v)
  {
    EnumRoundTrip(d.variants, v.variant);
  }

  lemma ListRoundTrips(p: Program, depth: nat, fn: EncodeFn, d: Decoder, items: seq<Value>)
    requires AllRoundTrip(p, depth, fn, d, items)
    ensures RoundTrips(p, depth, EncodeList(fn), List(d), Items(items))
  {
  }

  /**
   Generated codecs undo each other: in a module with distinct names, distinct
   tags and a field in every product, every value of every type survives being
   encoded and decoded.
   */
  lemma {:induction false} GeneratedCodecsRoundTrip(defs: seq<Definition>, depth: nat, ref: TypeRef, v: Value)
    requires ModuleOk(defs) && HasType(defs, depth, ref, v)
    ensures RoundTrips(Generated(defs), depth, EncoderFunction(ref), DecoderRef(ref), v)
    decreases depth, ref, 0
  {
    hide Generated, ModuleOk, DefinitionOk, Emits, DefinitionRoundTrips, EncoderOf, DecoderOf, EncodeEach, DecodeEach;
    match ref
    case StringRef =>
    case IntRef =>
    case ListRef(element) =>
      EachRoundTrips(defs, depth, element, v.items);
      ListRoundTrips(Generated(defs), depth, EncoderFunction(element), DecoderRef(element), v.items);
    case NamedRef(name) =>
      FoundIsEmitted(defs, name);
      var d := Find(defs, name).value;
      match d {
        case Alias(_, typ) =>
          GeneratedCodecsRoundTrip(defs, depth - 1, typ, v);
          AliasRoundTrips(Generated(defs), depth - 1, d, v);
        case Enum(_, _) => EnumRoundTrips(Generated(defs), depth - 1, d, v);
        case Product(_, _) => ProductRoundTrips(defs, depth - 1, d, v);
      }
      CallRoundTrips(Generated(defs), depth, d, v);
  }

  // ---- the wire format ----

  ghost predicate Resolves(defs: seq<Definition>, ref: TypeRef) {
    match ref
    case ListRef(element) => Resolves(defs, element)
    case NamedRef(name) => Find(defs, name).Some?
    case _ => true
  }

  /** Every type a definition refers to is defined. */
  ghost predicate Closed(defs: seq<Definition>) {
    forall d <- defs ::
      match d
      case Alias(_, typ) => Resolves(defs, typ)
      case Enum(_, _) => true
      case Product(_, fields) => forall i :: 0 <= i < |fields| ==> Resolves(defs, fields[i].typ)
  }

  /** The JSON of a value of a type: strings and numbers as they are, an enum as its tag, a record as an object by JSON names. */
  ghost predicate Carries(defs: seq<Definition>, depth: nat, ref: TypeRef, v: Value, j: Json)
    decreases depth, ref
  {
    match ref
    case StringRef => v.Text? && j == JsonString(v.text)
    case IntRef => v.Number? && j == JsonNumber(v.number)
    case ListRef(element) =>
      && v.Items? && j.JsonArray? && |v.items| == |j.items|
      && forall i :: 0 <= i < |v.items| ==> Carries(defs, depth, element, v.items[i], j.items[i])
    case NamedRef(name) => depth > 0 && Find(defs, name).Some? && CarriesAs(defs, depth - 1, Find(defs, name).value, v, j)
  }

  ghost predicate CarriesAs(defs: seq<Definition>, depth: nat, d: Definition, v: Value, j: Json)
    decreases depth, d
  {
    match d
    case Alias(_, typ) => Carries(defs, depth, typ, v, j)
    case Enum(_, variants) => v.OneOf? && j.JsonString? && Variant(v.variant, j.text) in variants
    case Product(_, fields) =>
      && v.Record? && |v.fields| == |fields| && j.JsonObject?
      && forall i :: 0 <= i < |fields| ==>
        v.fields[i].0 == fields[i].name && fields[i].json in j.members && Carries(defs, depth, fields[i].typ, v.fields[i].1, j.members[fields[i].json])
  }

  lemma {:induction false} DecodeEachIs(p: Program, depth: nat, d: Decoder, items: seq<Json>, vs: seq<Value>)
    ensures DecodeEach(p, depth, d, items) == Some(vs) <==> |vs| == |items| && forall i :: 0 <= i < |items| ==> Decode(p, depth, d, items[i]) == Some(vs[i])
  {
    hide Decode;
    if items != [] {
      var n := |items| - 1;
      if vs != [] {
        DecodeEachIs(p, depth, d, items[..n], vs[..|vs| - 1]);
        assert vs == vs[..|vs| - 1] + [vs[|vs| - 1]];
      }
    }
  }

  lemma {:induction false} DecodeArgsIs(p: Program, depth: nat, args: seq<Decoder>, j: Json, vs: seq<Value>)
    ensures DecodeArgs(p, depth, args, j) == Some(vs) <==> |vs| == |args| && forall i :: 0 <= i < |args| ==> Decode(p, depth, args[i], j) == Some(vs[i])
  {
    hide Decode;
    if args != [] {
      var n := |args| - 1;
      if vs != [] {
        DecodeArgsIs(p, depth, args[..n], j, vs[..|vs| - 1]);
        assert vs == vs[..|vs| - 1] + [vs[|vs| - 1]];
      }
    }
  }

  lemma {:induction false} TaggedIs(variants: seq<Variant>, tag: string, name: string)
    requires forall i, j :: 0 <= i < j < |variants| ==> variants[i].tag != variants[j].tag
    ensures VariantTagged(variants, tag) == Some(Variant(name, tag)) <==> Variant(name, tag) in variants
    ensures VariantTagged(variants, tag).Some? ==> VariantTagged(variants, tag).value.tag == tag
  {
    if variants != [] {
      TaggedIs(variants[1..], tag, name);
      if variants[0].tag == tag && Variant(name, tag) in variants {
        var k :| 0 <= k < |variants| && variants[k] == Variant(name, tag);
        assert k == 0;
      }
    }
  }

  lemma EnumCarries(p: Program, depth: nat, variants: seq<Variant>, v: Value, j: Json)
    requires forall i, j :: 0 <= i < j < |variants| ==> variants[i].tag != variants[j].tag
    ensures Decode(p, depth, Case(variants), j) == Some(v) <==> v.OneOf? && j.JsonString? && Variant(v.variant, j.text) in variants
  {
    if j.JsonString? && v.OneOf? { TaggedIs(variants, j.text, v.variant); }
    if j.JsonString? { TaggedIs(variants, j.text, ""); }
  }

  /** Each field of a record decodes from the member of its JSON name. */
  ghost predicate FieldsDecode(p: Program, depth: nat, fields: seq<Field>, v: Value, j: Json) {
    && v.Record? && |v.fields| == |fields| && j.JsonObject?
    && forall i :: 0 <= i < |fields| ==>
      v.fields[i].0 == fields[i].name && fields[i].json in j.members && Decode(p, depth, DecoderRef(fields[i].typ), j.members[fields[i].json]) == Some(v.fields[i].1)
  }

  lemma FieldsGiveRecord(p: Program, depth: nat, fields: seq<Field>, v: Value, j: Json)
    requires FieldsDecode(p, depth, fields, v, j)
    ensures var found := DecodeArgs(p, depth, FieldDecoders(fields), j);
      found.Some? && Record(Zip(Names(fields), found.value)) == v
  {
    hide Decode, DecodeArgs;
    var vs := seq(|fields|, i requires 0 <= i < |fields| => v.fields[i].1);
    forall i | 0 <= i < |fields| ensures Decode(p, depth, FieldDecoders(fields)[i], j) == Some(vs[i]) {
      FieldDecodes(p, depth, fields[i], j);
    }
    DecodeArgsIs(p, depth, FieldDecoders(fields), j, vs);
    assert Zip(Names(fields), vs) == v.fields;
  }

  lemma RecordHasFields(p: Program, depth: nat, fields: seq<Field>, j: Json)
    requires fields != [] && DecodeArgs(p, depth, FieldDecoders(fields), j).Some?
    ensures FieldsDecode(p, depth, fields, Record(Zip(Names(fields), DecodeArgs(p, depth, FieldDecoders(fields), j).value)), j)
  {
    hide Decode, DecodeArgs;
    var vs := DecodeArgs(p, depth, FieldDecoders(fields), j).value;
    DecodeArgsIs(p, depth, FieldDecoders(fields), j, vs);
    forall i | 0 <= i < |fields| ensures j.JsonObject? && fields[i].json in j.members && Decode(p, depth, DecoderRef(fields[i].typ), j.members[fields[i].json]) == Some(vs[i]) {
      assert Decode(p, depth, FieldDecoders(fields)[i], j) == Some(vs[i]);
      FieldDecodes(p, depth, fields[i], j);
    }
    assert forall i :: 0 <= i < |fields| ==> Zip(Names(fields), vs)[i] == (fields[i].name, vs[i]);
    assert Decode(p, depth, FieldDecoders(fields)[0], j) == Some(vs[0]);
    FieldDecodes(p, depth, fields[0], j);
  }

  lemma RecordDecodesIff(p: Program, depth: nat, name: string, fields: seq<Field>, v: Value, j: Json)
    requires fields != [] && name in p.records && p.records[name] == Names(fields)
    ensures Decode(p, depth, ProductDecoder(name, fields), j) == Some(v) <==> FieldsDecode(p, depth, fields, v, j)
  {
    hide Decode, ProductDecoder, DecodeArgs, FieldsDecode;
    ProductDecoderIsFlat(p, depth, name, fields, j);
    if FieldsDecode(p, depth, fields, v, j) { FieldsGiveRecord(p, depth, fields, v, j); }
    if DecodeArgs(p, depth, FieldDecoders(fields), j).Some? { RecordHasFields(p, depth, fields, j); }
  }

  lemma FieldDecodes(p: Program, depth: nat, f: Field, j: Json)
    ensures Decode(p, depth, FieldDecoder(f), j) ==
            if j.JsonObject? && f.json in j.members then Decode(p, depth, DecoderRef(f.typ), j.members[f.json]) else None
  {
  }

  /** Whatever the JSON, a generated decoder gives a value exactly when the JSON carries it as the type's wire format says. */
  lemma {:induction false} DecodesIffCarries(defs: seq<Definition>, depth: nat, ref: TypeRef, v: Value, j: Json)
    requires ModuleOk(defs) && Closed(defs) && Resolves(defs, ref)
    ensures Decode(Generated(defs), depth, DecoderRef(ref), j) == Some(v) <==> Carries(defs, depth, ref, v, j)
    decreases depth, 0, ref
  {
    hide Generated, ModuleOk, DefinitionOk, Closed, Emits, ProductDecoder, DecodeEach;
    var p := Generated(defs);
    match ref
    case StringRef =>
    case IntRef =>
    case ListRef(element) =>
      if j.JsonArray? {
        var found := DecodeEach(p, depth, DecoderRef(element), j.items);
        if found.Some? { DecodeEachIs(p, depth, DecoderRef(element), j.items, found.value); }
        if v.Items? {
          DecodeEachIs(p, depth, DecoderRef(element), j.items, v.items);
          forall i | 0 <= i < |v.items| && |v.items| == |j.items| { DecodesIffCarries(defs, depth, element, v.items[i], j.items[i]); }
        }
      }
    case NamedRef(name) =>
      if depth > 0 { DefinitionDecodesIff(defs, depth - 1, name, v, j); CallDecodes(defs, depth, name, j); }
  }

  lemma CallDecodes(defs: seq<Definition>, depth: nat, name: string, j: Json)
    requires ModuleOk(defs) && depth > 0 && Find(defs, name).Some?
    ensures Decode(Generated(defs), depth, Call(DecoderName(name)), j) == Decode(Generated(defs), depth - 1, DecoderOf(Find(defs, name).value), j)
  {
    FoundIsEmitted(defs, name);
  }

  lemma {:induction false} DefinitionDecodesIff(defs: seq<Definition>, depth: nat, name: string, v: Value, j: Json)
    requires ModuleOk(defs) && Closed(defs) && Find(defs, name).Some?
    ensures Decode(Generated(defs), depth, DecoderOf(Find(defs, name).value), j) == Some(v) <==> CarriesAs(defs, depth, Find(defs, name).value, v, j)
    decreases depth, 1
  {
    hide Generated, Decode, ModuleOk, Emits, ProductDecoder;
    FoundIsEmitted(defs, name);
    var (p, d) := (Generated(defs), Find(defs, name).value);
    match d
    case Alias(_, typ) => DecodesIffCarries(defs, depth, typ, v, j);
    case Enum(_, variants) => EnumCarries(p, depth, variants, v, j);
    case Product(_, fields) =>
      EmitsRecord(p, d);
      RecordDecodesIff(p, depth, d.name, fields, v, j);
      if v.Record? && |v.fields| == |fields| && j.JsonObject? {
        forall i | 0 <= i < |fields| && fields[i].json in j.members {
          DecodesIffCarries(defs, depth, fields[i].typ, v.fields[i].1, j.members[fields[i].json]);
        }
      }
  }

  lemma EmitsRecord(p: Program, d: Definition)
    requires Emits(p, d) && d.Product?
    ensures d.name in p.records && p.records[d.name] == Names(d.fields)
  {
  }

  /** What a value of a type is encoded to carries it, so any reader of the wire format finds it there. */
  lemma EncodedCarries(defs: seq<Definition>, depth: nat, ref: TypeRef, v: Value)
    requires ModuleOk(defs) && Closed(defs) && Resolves(defs, ref) && HasType(defs, depth, ref, v)
    ensures var j := Encode(Generated(defs), depth, EncoderFunction(ref), v);
      j.Some? && Carries(defs, depth, ref, v, j.value)
  {
    hide Encode, Decode, Generated, ModuleOk, Closed, HasType;
    GeneratedCodecsRoundTrip(defs, depth, ref, v);
    var j := Encode(Generated(defs), depth, EncoderFunction(ref), v).value;
    DecodesIffCarries(defs, depth, ref, v, j);
  }

  /** An encoded record has its fields' JSON names for members and no others. */
  lemma {:induction false} MembersAreFields(p: Program, depth: nat, fields: seq<Field>, v: Value, k: nat)
    requires k <= |fields| && EncodeMembers(p, depth, FieldEncoders(fields)[..k], v).Some?
    ensures EncodeMembers(p, depth, FieldEncoders(fields)[..k], v).value.Keys == set i | 0 <= i < k :: fields[i].json
  {
    hide EncodeExpression;
    if k > 0 {
      assert FieldEncoders(fields)[..k][..k - 1] == FieldEncoders(fields)[..k - 1];
      MembersAreFields(p, depth, fields, v, k - 1);
    }
  }

  // ---- depth, and what the conditions are for ----

  /** References only go to definitions of lower rank, so nothing refers back to itself. */
  ghost predicate RanksBelow(defs: seq<Definition>, rank: map<string, nat>, ref: TypeRef, bound: nat) {
    match ref
    case StringRef => true
    case IntRef => true
    case ListRef(element) => RanksBelow(defs, rank, element, bound)
    case NamedRef(name) => Find(defs, name).Some? && name in rank && rank[name] < bound
  }

  ghost predicate Acyclic(defs: seq<Definition>, rank: map<string, nat>) {
    forall d <- defs :: d.name in rank &&
      match d
      case Alias(_, typ) => RanksBelow(defs, rank, typ, rank[d.name])
      case Enum(_, _) => true
      case Product(_, fields) => forall i :: 0 <= i < |fields| ==> RanksBelow(defs, rank, fields[i].typ, rank[d.name])
  }

  /** In an acyclic module a depth of the reference's rank is as good as any greater one. */
  lemma {:induction false} DepthIsImmaterial(defs: seq<Definition>, rank: map<string, nat>, ref: TypeRef, bound: nat, m: nat, n: nat, v: Value)
    requires Acyclic(defs, rank) && RanksBelow(defs, rank, ref, bound) && bound <= m && bound <= n
    ensures HasType(defs, m, ref, v) <==> HasType(defs, n, ref, v)
    decreases bound, ref
  {
    match ref
    case StringRef =>
    case IntRef =>
    case ListRef(element) =>
      if v.Items? {
        forall i | 0 <= i < |v.items| ensures HasType(defs, m, element, v.items[i]) <==> HasType(defs, n, element, v.items[i]) {
          DepthIsImmaterial(defs, rank, element, bound, m, n, v.items[i]);
        }
      }
    case NamedRef(name) =>
      var d := Find(defs, name).value;
      match d {
        case Alias(_, typ) => DepthIsImmaterial(defs, rank, typ, rank[name], m - 1, n - 1, v);
        case Enum(_, _) =>
        case Product(_, fields) =>
          if v.Record? && |v.fields| == |fields| {
            forall i | 0 <= i < |fields|
              ensures HasType(defs, m - 1, fields[i].typ, v.fields[i].1) <==> HasType(defs, n - 1, fields[i].typ, v.fields[i].1)
            {
              DepthIsImmaterial(defs, rank, fields[i].typ, rank[name], m - 1, n - 1, v.fields[i].1);
            }
          }
      }
  }

  /** So in an acyclic module the round trip holds at every depth from the reference's rank up, for the values of the type at that rank. */
  lemma RoundTripAtEveryDepth(defs: seq<Definition>, rank: map<string, nat>, ref: TypeRef, bound: nat, depth: nat, v: Value)
    requires ModuleOk(defs) && Acyclic(defs, rank) && RanksBelow(defs, rank, ref, bound) && bound <= depth && HasType(defs, bound, ref, v)
    ensures RoundTrips(Generated(defs), depth, EncoderFunction(ref), DecoderRef(ref), v)
  {
    DepthIsImmaterial(defs, rank, ref, bound, bound, depth, v);
    GeneratedCodecsRoundTrip(defs, depth, ref, v);
  }

  /**
   An enum's codecs undo each other on every variant exactly when no two variants
   share a tag. With a repeated tag the emitted `case` repeats a string pattern,
   which Elm's compiler does not accept: there the first match stands for a
   program that would not be built.
   */
  lemma EnumRoundTripsIffTagsDistinct(p: Program, depth: nat, name: string, variants: seq<Variant>)
    requires forall i, j :: 0 <= i < j < |variants| ==> variants[i].name != variants[j].name
    ensures (forall v <- variants :: DefinitionRoundTrips(p, depth, Enum(name, variants), OneOf(v.name)))
       <==> (forall i, j :: 0 <= i < j < |variants| ==> variants[i].tag != variants[j].tag)
  {
    forall k | 0 <= k < |variants| ensures VariantNamed(variants, variants[k].name) == Some(variants[k]) {
      NamedAt(variants, k);
    }
    if forall i, j :: 0 <= i < j < |variants| ==> variants[i].tag != variants[j].tag {
      forall v | v in variants ensures DefinitionRoundTrips(p, depth, Enum(name, variants), OneOf(v.name)) {
        EnumRoundTrips(p, depth, Enum(name, variants), OneOf(v.name));
      }
    } else {
      var i, j :| 0 <= i < j < |variants| && variants[i].tag == variants[j].tag;
      TaggedBefore(variants, i);
      var first := VariantTagged(variants, variants[i].tag).value;
      var loser := if first.name == variants[j].name then variants[i] else variants[j];
      assert loser in variants && first.name != loser.name;
      assert VariantNamed(variants, loser.name) == Some(loser);
      assert !DefinitionRoundTrips(p, depth, Enum(name, variants), OneOf(loser.name));
    }
  }

  lemma {:induction false} NamedAt(variants: seq<Variant>, k: nat)
    requires k < |variants| && forall i, j :: 0 <= i < j < |variants| ==> variants[i].name != variants[j].name
    ensures VariantNamed(variants, variants[k].name) == Some(variants[k])
  {
    if k > 0 { NamedAt(variants[1..], k - 1); }
  }

  lemma {:induction false} TaggedBefore(variants: seq<Variant>, i: nat)
    requires i < |variants|
    ensures VariantTagged(variants, variants[i].tag).Some?
  {
    if i > 0 { TaggedBefore(variants[1..], i - 1); }
  }
}
