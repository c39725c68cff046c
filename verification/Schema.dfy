/** internal/shortform/schema: a compiler from JSON Schema documents (a subset of
    Draft 2020-12) to schema nodes, and a validator that walks an instance along them. */
module Schema {
  import opened Text
  import opened Json

  /** What the package takes from the Go library: the number a token denotes, regular
      expressions, JSON decoding, and the wording of an error. */
  datatype Library = Library(
    value: NumToken -> real,
    compiles: string -> bool,
    matches: (string, string) -> bool,
    decode: string -> Option<Json>,
    render: Issue -> string)

  /** A compiled schema node. */
  datatype Node = Node(
    types: seq<string>,
    required: seq<string>,
    props: map<string, Node>,
    addlProps: Option<bool>,
    enums: seq<Json>,
    constant: Option<Json>,
    items: Option<Node>,
    minItems: Option<int>,
    maxItems: Option<int>,
    minimum: Option<real>,
    maximum: Option<real>,
    minLength: Option<int>,
    pattern: Option<string>)

  const EMPTY := Node([], [], map[], None, [], None, None, None, None, None, None, None, None)

  datatype Violation =
    | WrongType(expected: seq<string>, got: string)
    | NotConst(constant: Json)
    | NotInEnum(enums: seq<Json>)
    | Missing
    | NotAllowed
    | TooFewItems(minItems: int)
    | TooManyItems(maxItems: int)
    | TooShort(minLength: int)
    | NoMatch(pattern: string)
    | BelowMinimum(minimum: real)
    | AboveMaximum(maximum: real)

  datatype Issue = Issue(path: string, violation: Violation)

  // ----- values -----

  predicate IsIntegral(r: real) {
    r == r.Floor as real
  }

  function JsonType(v: Json): string {
    match v
    case Null => "null"
    case Bool(_) => "boolean"
    case Num(_) => "number"
    case Str(_) => "string"
    case Arr(_) => "array"
    case Obj(_) => "object"
  }

  /** One entry of a type list matches a value. */
  predicate HasType(lib: Library, t: string, v: Json) {
    t == JsonType(v) || (t == "integer" && v.Num? && IsIntegral(lib.value(v.token)))
  }

  predicate MatchesType(lib: Library, allowed: seq<string>, v: Json) {
    exists i | 0 <= i < |allowed| :: HasType(lib, allowed[i], v)
  }

  /** reflect.DeepEqual on decoded JSON: numbers are compared as numbers. */
  predicate JsonEqual(lib: Library, a: Json, b: Json) {
    match (a, b)
    case (Num(x), Num(y)) => lib.value(x) == lib.value(y)
    case (Arr(xs), Arr(ys)) => |xs| == |ys| && forall i | 0 <= i < |xs| :: JsonEqual(lib, xs[i], ys[i])
    case (Obj(f), Obj(g)) => f.Keys == g.Keys && forall k | k in f.Keys :: JsonEqual(lib, f[k], g[k])
    case _ => a == b
  }

  predicate ContainsValue(lib: Library, values: seq<Json>, v: Json) {
    exists i | 0 <= i < |values| :: JsonEqual(lib, values[i], v)
  }

  // ----- which documents compile -----

  /** The supported keywords; the annotations are accepted and ignored. */
  datatype Keyword =
    | Type | Required | Properties | AdditionalProperties | Enum | Const | Items | MinItems | MaxItems
    | Minimum | Maximum | MinLength | Pattern | Annotation(name: string)

  function ParseKey(s: string): (r: Option<Keyword>) {
    match s
    case "type" => Some(Type)
    case "required" => Some(Required)
    case "properties" => Some(Properties)
    case "additionalProperties" => Some(AdditionalProperties)
    case "enum" => Some(Enum)
    case "const" => Some(Const)
    case "items" => Some(Items)
    case "minItems" => Some(MinItems)
    case "maxItems" => Some(MaxItems)
    case "minimum" => Some(Minimum)
    case "maximum" => Some(Maximum)
    case "minLength" => Some(MinLength)
    case "pattern" => Some(Pattern)
    case _ => if s in {"$id", "$schema", "title", "description", "examples"} then Some(Annotation(s)) else None
  }

  function Key(kw: Keyword): (s: string)
    requires !kw.Annotation?
  {
    match kw
    case Type => "type"
    case Required => "required"
    case Properties => "properties"
    case AdditionalProperties => "additionalProperties"
    case Enum => "enum"
    case Const => "const"
    case Items => "items"
    case MinItems => "minItems"
    case MaxItems => "maxItems"
    case Minimum => "minimum"
    case Maximum => "maximum"
    case MinLength => "minLength"
    case Pattern => "pattern"
  }

  lemma ParseKeyOf(kw: Keyword)
    requires !kw.Annotation?
    ensures ParseKey(Key(kw)) == Some(kw)
  {}

  lemma KeyOfParse(s: string)
    ensures ParseKey(s).Some? && !ParseKey(s).value.Annotation? ==> Key(ParseKey(s).value) == s
  {}

  predicate IsStringList(v: Json) {
    v.Str? || (v.Arr? && forall i | 0 <= i < |v.items| :: v.items[i].Str?)
  }

  function StringList(v: Json): seq<string>
    requires IsStringList(v)
  {
    if v.Str? then [v.s] else seq(|v.items|, i requires 0 <= i < |v.items| => v.items[i].s)
  }

  predicate IsCount(lib: Library, v: Json) {
    v.Num? && IsIntegral(lib.value(v.token)) && lib.value(v.token) >= 0.0
  }

  /** The documents Compile accepts. */
  predicate Compiles(lib: Library, node: Json)
    decreases node, 1
  {
    node.Obj? && forall k | k in node.fields ::
      ParseKey(k).Some? && KeywordCompiles(lib, ParseKey(k).value, node.fields[k])
  }

  predicate KeywordCompiles(lib: Library, kw: Keyword, v: Json)
    decreases v, 2
  {
    match kw
    case Type => IsStringList(v)
    case Required => IsStringList(v)
    case Properties => v.Obj? && forall n | n in v.fields :: Compiles(lib, v.fields[n])
    case AdditionalProperties => v.Bool?
    case Enum => v.Arr? && v.items != []
    case Const => true
    case Items => Compiles(lib, v)
    case MinItems => IsCount(lib, v)
    case MaxItems => IsCount(lib, v)
    case MinLength => IsCount(lib, v)
    case Minimum => v.Num?
    case Maximum => v.Num?
    case Pattern => v.Str? && lib.compiles(v.s)
    case Annotation(_) => true
  }

  predicate Has(node: Json, kw: Keyword) {
    node.Obj? && !kw.Annotation? && Key(kw) in node.fields
  }

  function Get(node: Json, kw: Keyword): (v: Json)
    requires Has(node, kw)
    ensures v < node
  {
    node.fields[Key(kw)]
  }

  lemma HasCompiles(lib: Library, node: Json, kw: Keyword)
    requires Compiles(lib, node) && Has(node, kw)
    ensures KeywordCompiles(lib, kw, Get(node, kw))
  {
    ParseKeyOf(kw);
  }

  /** What one keyword puts into a schema node. */
  datatype Field =
    | Strings(strings: seq<string>)
    | Props(props: map<string, Node>)
    | Flag(flag: Option<bool>)
    | Values(values: seq<Json>)
    | Constant(constant: Option<Json>)
    | SubNode(node: Option<Node>)
    | Bound(bound: Option<int>)
    | Number(number: Option<real>)
    | Text(text: Option<string>)

  /** The kind of field a keyword fills. */
  predicate Fits(f: Field, kw: Keyword) {
    match kw
    case Type => f.Strings?
    case Required => f.Strings?
    case Properties => f.Props?
    case AdditionalProperties => f.Flag?
    case Enum => f.Values?
    case Const => f.Constant?
    case Items => f.SubNode?
    case MinItems => f.Bound?
    case MaxItems => f.Bound?
    case Minimum => f.Number?
    case Maximum => f.Number?
    case MinLength => f.Bound?
    case Pattern => f.Text?
    case Annotation(_) => true
  }

  /** The field of a node that a keyword fills. */
  function FieldOf(s: Node, kw: Keyword): (f: Field)
    requires !kw.Annotation?
    ensures Fits(f, kw)
  {
    match kw
    case Type => Strings(s.types)
    case Required => Strings(s.required)
    case Properties => Props(s.props)
    case AdditionalProperties => Flag(s.addlProps)
    case Enum => Values(s.enums)
    case Const => Constant(s.constant)
    case Items => SubNode(s.items)
    case MinItems => Bound(s.minItems)
    case MaxItems => Bound(s.maxItems)
    case Minimum => Number(s.minimum)
    case Maximum => Number(s.maximum)
    case MinLength => Bound(s.minLength)
    case Pattern => Text(s.pattern)
  }

  /** The node with the given fields. */
  function Assemble(field: Keyword --> Field): Node
    requires forall kw: Keyword | !kw.Annotation? :: field.requires(kw) && Fits(field(kw), kw)
  {
    assert forall kw: Keyword | !kw.Annotation? :: Fits(field(kw), kw);
    Node(field(Type).strings, field(Required).strings, field(Properties).props, field(AdditionalProperties).flag,
         field(Enum).values, field(Const).constant, field(Items).node, field(MinItems).bound, field(MaxItems).bound,
         field(Minimum).number, field(Maximum).number, field(MinLength).bound, field(Pattern).text)
  }

  lemma FieldsAgree(s: Node, t: Node)
    requires forall kw: Keyword | !kw.Annotation? :: FieldOf(s, kw) == FieldOf(t, kw)
    ensures s.types == t.types && s.required == t.required && s.props == t.props && s.addlProps == t.addlProps
    ensures s.enums == t.enums && s.constant == t.constant && s.items == t.items && s.minItems == t.minItems
  {
    assert FieldOf(s, Type) == FieldOf(t, Type) && FieldOf(s, Required) == FieldOf(t, Required);
    assert FieldOf(s, Properties) == FieldOf(t, Properties);
    assert FieldOf(s, AdditionalProperties) == FieldOf(t, AdditionalProperties);
    assert FieldOf(s, Enum) == FieldOf(t, Enum) && FieldOf(s, Const) == FieldOf(t, Const);
    assert FieldOf(s, Items) == FieldOf(t, Items) && FieldOf(s, MinItems) == FieldOf(t, MinItems);
  }

  lemma NodeExtensional(s: Node, t: Node)
    requires forall kw: Keyword | !kw.Annotation? :: FieldOf(s, kw) == FieldOf(t, kw)
    ensures s == t
  {
    FieldsAgree(s, t);
    assert FieldOf(s, MaxItems) == FieldOf(t, MaxItems) && FieldOf(s, Minimum) == FieldOf(t, Minimum);
    assert FieldOf(s, Maximum) == FieldOf(t, Maximum) && FieldOf(s, MinLength) == FieldOf(t, MinLength);
    assert FieldOf(s, Pattern) == FieldOf(t, Pattern);
  }

  function Count(lib: Library, v: Json): int
    requires IsCount(lib, v)
  {
    lib.value(v.token).Floor
  }

  /** The field a keyword's value compiles to. */
  function KeywordField(lib: Library, kw: Keyword, v: Json): (f: Field)
    requires !kw.Annotation? && KeywordCompiles(lib, kw, v)
    ensures Fits(f, kw)
    decreases v, 2
  {
    match kw
    case Type => Strings(StringList(v))
    case Required => Strings(StringList(v))
    case Properties => Props(CompiledProps(lib, v))
    case AdditionalProperties => Flag(Some(v.b))
    case Enum => Values(v.items)
    case Const => Constant(Some(v))
    case Items => SubNode(Some(Compiled(lib, v)))
    case MinItems => Bound(Some(Count(lib, v)))
    case MaxItems => Bound(Some(Count(lib, v)))
    case MinLength => Bound(Some(Count(lib, v)))
    case Minimum => Number(Some(lib.value(v.token)))
    case Maximum => Number(Some(lib.value(v.token)))
    case Pattern => Text(Some(v.s))
  }

  function CompiledProps(lib: Library, v: Json): map<string, Node>
    requires v.Obj? && forall n | n in v.fields :: Compiles(lib, v.fields[n])
    decreases v, 1
  {
    map n | n in v.fields :: Compiled(lib, v.fields[n])
  }

  function FieldAt(lib: Library, node: Json, kw: Keyword): (f: Field)
    requires Compiles(lib, node) && !kw.Annotation?
    ensures Fits(f, kw)
    decreases node, 0
  {
    if Has(node, kw) then HasCompiles(lib, node, kw); KeywordField(lib, kw, Get(node, kw)) else FieldOf(EMPTY, kw)
  }

  /** The node a document compiles to: each keyword fills its own field. */
  function Compiled(lib: Library, node: Json): Node
    requires Compiles(lib, node)
    decreases node, 1
  {
    Assemble((kw: Keyword) requires !kw.Annotation? => FieldAt(lib, node, kw))
  }

  lemma CompiledField(lib: Library, node: Json, kw: Keyword)
    requires Compiles(lib, node) && !kw.Annotation?
    ensures FieldOf(Compiled(lib, node), kw) == FieldAt(lib, node, kw)
  {}

  // ----- compiling -----

  lemma HasUpdate(fields: map<string, Json>, k: string, v: Json, kw: Keyword)
    requires ParseKey(k).Some? && !kw.Annotation?
    ensures Has(Obj(fields[k := v]), kw) <==> Has(Obj(fields), kw) || kw == ParseKey(k).value
    ensures Has(Obj(fields[k := v]), kw) ==>
      Get(Obj(fields[k := v]), kw) == if kw == ParseKey(k).value then v else Get(Obj(fields), kw)
  {
    KeyOfParse(k);
    ParseKeyOf(kw);
  }

  lemma CompilesStep(lib: Library, fields: map<string, Json>, k: string, v: Json)
    requires Compiles(lib, Obj(fields))
    requires ParseKey(k).Some? && KeywordCompiles(lib, ParseKey(k).value, v)
    ensures Compiles(lib, Obj(fields[k := v]))
  {}

  lemma FieldStep(lib: Library, fields: map<string, Json>, k: string, v: Json, kw: Keyword)
    requires Compiles(lib, Obj(fields)) && Compiles(lib, Obj(fields[k := v])) && !kw.Annotation?
    requires ParseKey(k).Some? && KeywordCompiles(lib, ParseKey(k).value, v)
    ensures FieldOf(Compiled(lib, Obj(fields[k := v])), kw)
         == if kw == ParseKey(k).value then KeywordField(lib, kw, v) else FieldOf(Compiled(lib, Obj(fields)), kw)
  {
    CompiledField(lib, Obj(fields), kw);
    CompiledField(lib, Obj(fields[k := v]), kw);
    HasUpdate(fields, k, v, kw);
  }

  function WithField(s: Node, kw: Keyword, f: Field): Node
    requires !kw.Annotation? && Fits(f, kw)
  {
    match kw
    case Type => s.(types := f.strings)
    case Required => s.(required := f.strings)
    case Properties => s.(props := f.props)
    case AdditionalProperties => s.(addlProps := f.flag)
    case Enum => s.(enums := f.values)
    case Const => s.(constant := f.constant)
    case Items => s.(items := f.node)
    case MinItems => s.(minItems := f.bound)
    case MaxItems => s.(maxItems := f.bound)
    case Minimum => s.(minimum := f.number)
    case Maximum => s.(maximum := f.number)
    case MinLength => s.(minLength := f.bound)
    case Pattern => s.(pattern := f.text)
  }

  lemma WithFieldAt(s: Node, kw: Keyword, f: Field, other: Keyword)
    requires !kw.Annotation? && !other.Annotation? && Fits(f, kw)
    ensures FieldOf(WithField(s, kw, f), other) == if other == kw then f else FieldOf(s, other)
  {}

  /** Reading one more keyword changes its own field and no other. */
  lemma CompiledStep(lib: Library, fields: map<string, Json>, k: string, v: Json)
    requires Compiles(lib, Obj(fields))
    requires ParseKey(k).Some? && KeywordCompiles(lib, ParseKey(k).value, v)
    ensures Compiles(lib, Obj(fields[k := v]))
    ensures var kw, s := ParseKey(k).value, Compiled(lib, Obj(fields));
      Compiled(lib, Obj(fields[k := v])) == if kw.Annotation? then s else WithField(s, kw, KeywordField(lib, kw, v))
  {
    var kw, s := ParseKey(k).value, Compiled(lib, Obj(fields));
    CompilesStep(lib, fields, k, v);
    var after := Compiled(lib, Obj(fields[k := v]));
    var expected := if kw.Annotation? then s else WithField(s, kw, KeywordField(lib, kw, v));
    forall other: Keyword | !other.Annotation?
      ensures FieldOf(after, other) == FieldOf(expected, other)
    {
      FieldStep(lib, fields, k, v, other);
      if !kw.Annotation? {
        WithFieldAt(s, kw, KeywordField(lib, kw, v), other);
      }
    }
    NodeExtensional(after, expected);
  }

  lemma CompiledEmpty(lib: Library)
    ensures Compiles(lib, Obj(map[])) && Compiled(lib, Obj(map[])) == EMPTY
  {
    forall kw: Keyword | !kw.Annotation?
      ensures FieldOf(Compiled(lib, Obj(map[])), kw) == FieldOf(EMPTY, kw)
    {
      CompiledField(lib, Obj(map[]), kw);
    }
    NodeExtensional(Compiled(lib, Obj(map[])), EMPTY);
  }

  /** Compiles a document node. The keywords are read in whatever order the runtime
      enumerates them; the first that does not compile fails the node. */
  method CompileNode(lib: Library, node: Json, path: string) returns (r: Result<Node>)
    ensures r.Ok? <==> Compiles(lib, node)
    ensures r.Ok? ==> r.value == Compiled(lib, node)
    decreases node, 1
  {
    hide ParseKey, KeywordCompiles, KeywordField, WithField, Compiled;
    if !node.Obj? {
      return Err(path + ": schema node must be an object");
    }
    var s := EMPTY;
    var pending := node.fields.Keys;
    ghost var done: map<string, Json> := map[];
    CompiledEmpty(lib);
    while pending != {}
      invariant done == map k | k in node.fields && k !in pending :: node.fields[k]
      invariant pending <= node.fields.Keys
      invariant Compiles(lib, Obj(done)) && s == Compiled(lib, Obj(done))
      decreases pending
    {
      var key :| key in pending;
      var kw := ParseKey(key);
      if kw.None? {
        return Err(path + ": unsupported schema keyword " + key);
      }
      var next := CompileKeyword(lib, s, kw.value, node.fields[key], path);
      if next.Err? {
        return next;
      }
      CompiledStep(lib, done, key, node.fields[key]);
      s := next.value;
      done := done[key := node.fields[key]];
      pending := pending - {key};
    }
    assert done == node.fields;
    r := Ok(s);
  }

  method CompileKeyword(lib: Library, s: Node, kw: Keyword, v: Json, path: string) returns (r: Result<Node>)
    ensures r.Ok? <==> KeywordCompiles(lib, kw, v)
    ensures r.Ok? ==> r.value == if kw.Annotation? then s else WithField(s, kw, KeywordField(lib, kw, v))
    decreases v, 3
  {
    match kw {
      case Type =>
        if !IsStringList(v) { return Err(path + ".type: must be a string or array of strings"); }
        r := Ok(s.(types := StringList(v)));
      case Required =>
        if !IsStringList(v) { return Err(path + ".required: must be a string or array of strings"); }
        r := Ok(s.(required := StringList(v)));
      case Properties =>
        var props := CompileProps(lib, v, path + ".properties");
        if props.Err? { return Err(props.message); }
        r := Ok(s.(props := props.value));
      case AdditionalProperties =>
        if !v.Bool? { return Err(path + ".additionalProperties: only boolean is supported"); }
        r := Ok(s.(addlProps := Some(v.b)));
      case Enum =>
        if !v.Arr? || v.items == [] { return Err(path + ".enum: must be a non-empty array"); }
        r := Ok(s.(enums := v.items));
      case Const =>
        r := Ok(s.(constant := Some(v)));
      case Items =>
        var items := CompileNode(lib, v, path + ".items");
        if items.Err? { return items; }
        r := Ok(s.(items := Some(items.value)));
      case Annotation(_) =>
        r := Ok(s);
      case _ =>
        r := CompileBound(lib, s, kw, v, path);
    }
  }

  /** The keywords whose value is a number or a regular expression. */
  method CompileBound(lib: Library, s: Node, kw: Keyword, v: Json, path: string) returns (r: Result<Node>)
    requires kw in {MinItems, MaxItems, MinLength, Minimum, Maximum, Pattern}
    ensures r.Ok? <==> KeywordCompiles(lib, kw, v)
    ensures r.Ok? ==> r.value == WithField(s, kw, KeywordField(lib, kw, v))
  {
    if kw.Pattern? {
      if !v.Str? { return Err(path + ".pattern: must be a string"); }
      if !lib.compiles(v.s) { return Err(path + ".pattern: invalid regular expression"); }
      return Ok(s.(pattern := Some(v.s)));
    }
    if kw.Minimum? || kw.Maximum? {
      if !v.Num? { return Err(path + ": must be a number"); }
      var bound := Some(lib.value(v.token));
      return Ok(if kw.Minimum? then s.(minimum := bound) else s.(maximum := bound));
    }
    if !IsCount(lib, v) { return Err(path + ": must be a non-negative integer"); }
    var count := Some(Count(lib, v));
    if kw.MinItems? { return Ok(s.(minItems := count)); }
    if kw.MaxItems? { return Ok(s.(maxItems := count)); }
    r := Ok(s.(minLength := count));
  }

  ghost predicate CompiledFrom(lib: Library, v: Json, names: set<string>, out: map<string, Node>)
    requires v.Obj?
  {
    && out.Keys == names <= v.fields.Keys
    && forall n | n in names :: Compiles(lib, v.fields[n]) && out[n] == Compiled(lib, v.fields[n])
  }

  lemma PropsField(lib: Library, v: Json, out: map<string, Node>)
    requires v.Obj? && CompiledFrom(lib, v, v.fields.Keys, out)
    ensures KeywordCompiles(lib, Properties, v)
    ensures out == CompiledProps(lib, v)
  {}

  method CompileProps(lib: Library, v: Json, path: string) returns (r: Result<map<string, Node>>)
    ensures r.Ok? <==> KeywordCompiles(lib, Properties, v)
    ensures r.Ok? ==> Props(r.value) == KeywordField(lib, Properties, v)
    decreases v, 2
  {
    if !v.Obj? {
      return Err(path + ": must be an object");
    }
    var out: map<string, Node> := map[];
    var pending := v.fields.Keys;
    while pending != {}
      invariant pending <= v.fields.Keys
      invariant CompiledFrom(lib, v, v.fields.Keys - pending, out)
      decreases pending
    {
      var name :| name in pending;
      var compiled := CompileNode(lib, v.fields[name], path + "." + name);
      if compiled.Err? {
        return Err(compiled.message);
      }
      out := out[name := compiled.value];
      pending := pending - {name};
    }
    assert v.fields.Keys - {} == v.fields.Keys;
    PropsField(lib, v, out);
    r := Ok(out);
  }

  // ----- failing closed -----

  /** The schema node a document holds below its root: "items" leads to the item schema,
      any other step to the schema of the property with that name. */
  datatype Step = IntoItems | IntoProperty(name: string)

  ghost predicate IsNodeAt(doc: Json, steps: seq<Step>, node: Json) {
    if steps == [] then doc == node
    else match steps[0]
      case IntoItems => Has(doc, Items) && IsNodeAt(Get(doc, Items), steps[1..], node)
      case IntoProperty(name) =>
        && Has(doc, Properties) && Get(doc, Properties).Obj? && name in Get(doc, Properties).fields
        && IsNodeAt(Get(doc, Properties).fields[name], steps[1..], node)
  }

  /** A document compiles only if every schema node in it, at any depth, compiles; one
      unsupported keyword anywhere is enough to refuse it. */
  lemma {:induction false} FailsClosed(lib: Library, doc: Json, steps: seq<Step>, node: Json)
    requires Compiles(lib, doc) && IsNodeAt(doc, steps, node)
    ensures Compiles(lib, node)
    ensures forall k | k in node.fields :: ParseKey(k).Some?
  {
    if steps != [] {
      match steps[0] {
        case IntoItems =>
          HasCompiles(lib, doc, Items);
          FailsClosed(lib, Get(doc, Items), steps[1..], node);
        case IntoProperty(name) =>
          HasCompiles(lib, doc, Properties);
          FailsClosed(lib, Get(doc, Properties).fields[name], steps[1..], node);
      }
    }
  }
}
