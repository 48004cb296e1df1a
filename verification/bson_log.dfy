/** Log documents: the schema registry and the decoding of one document into an API call. */
module BsonLog {
  import opened Types
  import Hex

  /** A decoded value. `ObjectId` and `Other` carry the text the bson library displays for them. */
  datatype Bson =
    | Str(s: string)
    | Int32(i: I32)
    | Int64(l: I64)
    | Doc(fields: map<string, Bson>)
    | Binary(bytes: seq<Byte>)
    | Arr(items: seq<Bson>)
    | ObjectId(text: string)
    | Boolean(b: bool)
    | Other(text: string)

  type Document = map<string, Bson>

  datatype ApiSchema = ApiSchema(name: string, category: string, argNames: seq<string>)

  datatype ApiCall = ApiCall(
    api: string,
    category: string,
    status: string,
    returnValue: I64,
    threadId: U32,
    time: I32,
    arguments: seq<(string, string)>)

  /** What decoding one document does; `Panics` is a failed `unwrap` or slice, which kills the reader thread. */
  datatype Outcome = Panics | NoCall | Emits(call: ApiCall)

  // ----- rendering of argument values -----

  const TWO32: nat := 0x1_0000_0000
  const TWO64: nat := 0x1_0000_0000_0000_0000

  function Decimal(n: nat): (s: string)
    ensures |s| > 0 && forall c | c in s :: '0' <= c <= '9'
  {
    var d := '0' + (n % 10) as char;
    if n < 10 then [d] else Decimal(n / 10) + [d]
  }

  function BsonToString(val: Bson): (s: string) {
    match val
    case Str(s) => s
    case Int32(i) => "0x" + Hex.Render(Unsigned(i, TWO32), false)
    case Int64(l) => "0x" + Hex.Render(Unsigned(l, TWO64), false)
    case Doc(fields) => "{..." + Decimal(|fields|) + " fields}"
    case Binary(bytes) => "0x" + Hex.RenderBytes(bytes)
    case Arr(items) => "[" + Join(items) + "]"
    case ObjectId(text) => text
    case Boolean(b) => if b then "1" else "0"
    case Other(text) => text
  }

  function Join(items: seq<Bson>): (s: string) {
    if items == [] then ""
    else if |items| == 1 then BsonToString(items[0])
    else BsonToString(items[0]) + ", " + Join(items[1..])
  }

  /** A number is recovered from its text by reading the hexadecimal digits as two's complement. */
  lemma IntTextsInvertible(i: I32, l: I64)
    ensures var t := BsonToString(Int32(i));
            t[..2] == "0x" && Hex.Parse(t[2..]).Some? && Hex.Parse(t[2..]).value < TWO32
            && Signed(Hex.Parse(t[2..]).value, TWO32) == i
    ensures var t := BsonToString(Int64(l));
            t[..2] == "0x" && Hex.Parse(t[2..]).Some? && Hex.Parse(t[2..]).value < TWO64
            && Signed(Hex.Parse(t[2..]).value, TWO64) == l
  {
    Hex.RenderRoundTrip(Unsigned(i, TWO32), false);
    Hex.RenderRoundTrip(Unsigned(l, TWO64), false);
    assert BsonToString(Int32(i))[2..] == Hex.Render(Unsigned(i, TWO32), false);
    assert BsonToString(Int64(l))[2..] == Hex.Render(Unsigned(l, TWO64), false);
  }

  /** A byte string is recovered from its text, which is two characters a byte after the prefix. */
  lemma BinaryTextInvertible(bs: seq<Byte>)
    ensures var t := BsonToString(Binary(bs));
            |t| == 2 + 2 * |bs| && t[..2] == "0x" && Hex.ParseBytes(t[2..]) == Some(bs)
  {
    Hex.BytesRoundTrip(bs);
    assert BsonToString(Binary(bs))[2..] == Hex.RenderBytes(bs);
  }

  // ----- documents -----

  function GetStr(doc: Document, key: string): Option<string> {
    if key in doc && doc[key].Str? then Some(doc[key].s) else None
  }

  function GetI32(doc: Document, key: string): Option<I32> {
    if key in doc && doc[key].Int32? then Some(doc[key].i) else None
  }

  predicate IsInfo(doc: Document) {
    GetStr(doc, "type") == Some("info")
  }

  function ArgName(v: Bson): string {
    match v
    case Arr(items) => if items != [] && items[0].Str? then items[0].s else "unknown"
    case Str(s) => s
    case _ => "unknown"
  }

  /** The index and schema an info document announces, when it is complete. */
  function Announced(doc: Document): Option<(I32, ApiSchema)> {
    if GetI32(doc, "I").None? || GetStr(doc, "name").None? || GetStr(doc, "category").None?
       || "args" !in doc || !doc["args"].Arr? then None
    else
      var items := doc["args"].items;
      Some((GetI32(doc, "I").value,
            ApiSchema(GetStr(doc, "name").value, GetStr(doc, "category").value,
                      seq(|items|, k requires 0 <= k < |items| => ArgName(items[k])))))
  }

  /** The document shape the decoder indexes without checking. */
  predicate CallShape(doc: Document) {
    && "args" in doc && doc["args"].Arr?
    && |doc["args"].items| >= 2
    && doc["args"].items[0].Int32?
    && (doc["args"].items[1].Int32? || doc["args"].items[1].Int64?)
  }

  /** `call` is what `doc` means under `schema`: each clause names one field of the result. */
  ghost predicate Decodes(call: ApiCall, schema: ApiSchema, doc: Document)
    requires CallShape(doc) && |schema.argNames| >= 2
  {
    var items := doc["args"].items;
    && call.api == schema.name && call.category == schema.category
    && (call.status == "success" <==> items[0].i == 1)
    && (call.status == "failed" <==> items[0].i != 1)
    && call.returnValue == (if items[1].Int32? then items[1].i else items[1].l)
    && (match GetI32(doc, "T") case None => call.threadId == 0 case Some(t) => (call.threadId - t) % TWO32 == 0)
    && (match GetI32(doc, "t") case None => call.time == 0 case Some(t) => call.time == t)
    && |call.arguments| == (if |items| <= |schema.argNames| then |items| else |schema.argNames|) - 2
    && forall k | 0 <= k < |call.arguments| ::
         call.arguments[k] == (schema.argNames[k + 2], BsonToString(items[k + 2]))
  }

  /** A document has at most one meaning under a schema. */
  lemma DecodesUnique(c: ApiCall, d: ApiCall, schema: ApiSchema, doc: Document)
    requires CallShape(doc) && |schema.argNames| >= 2
    requires Decodes(c, schema, doc) && Decodes(d, schema, doc)
    ensures c == d
  {
    assert c.arguments == d.arguments;
    if GetI32(doc, "T").Some? {
      var t := GetI32(doc, "T").value;
      assert (c.threadId - t) % TWO32 == (d.threadId - t) % TWO32;
    }
  }

  function Zip(names: seq<string>, values: seq<Bson>): (r: seq<(string, string)>)
    ensures |r| == if |names| <= |values| then |names| else |values|
    ensures forall k | 0 <= k < |r| :: r[k] == (names[k], BsonToString(values[k]))
  {
    if names == [] || values == [] then []
    else [(names[0], BsonToString(values[0]))] + Zip(names[1..], values[1..])
  }

  /** The call `doc` denotes under `schema`. */
  function Decode(schema: ApiSchema, doc: Document): (call: ApiCall)
    requires CallShape(doc) && |schema.argNames| >= 2
    ensures Decodes(call, schema, doc)
  {
    var items := doc["args"].items;
    ApiCall(
      schema.name, schema.category,
      if items[0].i == 1 then "success" else "failed",
      if items[1].Int32? then items[1].i else items[1].l,
      match GetI32(doc, "T") case None => 0 case Some(t) => Unsigned(t, TWO32),
      match GetI32(doc, "t") case None => 0 case Some(t) => t,
      Zip(schema.argNames[2..], items[2..]))
  }

  type Schemas = map<I32, ApiSchema>

  function SchemasAfter(m: Schemas, doc: Document): Schemas {
    if IsInfo(doc) && Announced(doc).Some?
    then m[Announced(doc).value.0 := Announced(doc).value.1]
    else m
  }

  function OutcomeOf(m: Schemas, doc: Document): Outcome {
    if IsInfo(doc) || GetI32(doc, "I").None? || GetI32(doc, "I").value !in m then NoCall
    else
      var schema := m[GetI32(doc, "I").value];
      if CallShape(doc) && |schema.argNames| >= 2 then Emits(Decode(schema, doc)) else Panics
  }

  /** The registry a reader thread keeps for its own stream. */
  class SchemaRegistry {
    var schemas: Schemas

    constructor ()
      ensures schemas == map[]
    {
      schemas := map[];
    }

    /** Records the schema of a complete info document; any missing field leaves the registry as it was. */
    method IngestInfo(doc: Document) returns (ok: bool)
      modifies this
      ensures ok == Announced(doc).Some?
      ensures schemas == if ok then old(schemas)[Announced(doc).value.0 := Announced(doc).value.1] else old(schemas)
    {
      var index := GetI32(doc, "I");
      if index.None? { return false; }
      var name := GetStr(doc, "name");
      if name.None? { return false; }
      var category := GetStr(doc, "category");
      if category.None? { return false; }
      if "args" !in doc || !doc["args"].Arr? { return false; }
      var items, argNames := doc["args"].items, [];
      for k := 0 to |items|
        invariant |argNames| == k
        invariant forall j | 0 <= j < k :: argNames[j] == ArgName(items[j])
      {
        argNames := argNames + [ArgName(items[k])];
      }
      assert argNames == Announced(doc).value.1.argNames;
      schemas := schemas[index.value := ApiSchema(name.value, category.value, argNames)];
      return true;
    }

    method Get(index: I32) returns (r: Option<ApiSchema>)
      ensures r == if index in schemas then Some(schemas[index]) else None
    {
      r := if index in schemas then Some(schemas[index]) else None;
    }
  }

  /** Decodes one document, in the order the fields are looked at, stopping where the decoder would panic. */
  method ProcessDoc(reg: SchemaRegistry, doc: Document) returns (r: Outcome)
    modifies reg
    ensures reg.schemas == SchemasAfter(old(reg.schemas), doc)
    ensures r == OutcomeOf(old(reg.schemas), doc)
  {
    var docType := match GetStr(doc, "type") case Some(t) => t case None => "";
    if docType == "info" {
      var _ := reg.IngestInfo(doc);
      return NoCall;
    }
    var index := GetI32(doc, "I");
    if index.None? { return NoCall; }
    var schema := reg.Get(index.value);
    if schema.None? { return NoCall; }
    var threadId: U32 := match GetI32(doc, "T") case None => 0 case Some(t) => Unsigned(t, TWO32);
    var time: I32 := match GetI32(doc, "t") case None => 0 case Some(t) => t;
    var returnValue: I64 := 0;
    if "args" in doc {
      if !doc["args"].Arr? || |doc["args"].items| < 2 { return Panics; }
      match doc["args"].items[1] {
        case Int32(i) => returnValue := i;
        case Int64(l) => returnValue := l;
        case _ => return Panics;
      }
    }
    var isSuccess := true;
    if "args" in doc {
      if !doc["args"].items[0].Int32? { return Panics; }
      isSuccess := doc["args"].items[0].i == 1;
    }
    var status := if isSuccess then "success" else "failed";
    if "args" !in doc { return Panics; }
    var values := doc["args"].items[2..];
    if |schema.value.argNames| < 2 { return Panics; }
    var arguments := Zip(schema.value.argNames[2..], values);
    r := Emits(ApiCall(schema.value.name, schema.value.category, status, returnValue, threadId, time, arguments));
  }
}
