/** The validator half of internal/shortform/schema. */
module Validate {
  import opened Text
  import opened Json
  import opened Schema

  // ----- sums of issues over the entries of a map -----

  ghost function Gather(m: map<string, multiset<Issue>>): multiset<Issue> {
    if m == map[] then multiset{}
    else
      var k :| k in m;
      m[k] + Gather(m - {k})
  }

  /** The sum does not depend on which entry is taken first. */
  lemma {:induction false} GatherStep(m: map<string, multiset<Issue>>, k: string)
    requires k in m
    ensures Gather(m) == m[k] + Gather(m - {k})
    decreases m.Keys
  {
    var j :| j in m && Gather(m) == m[j] + Gather(m - {j});
    if j != k {
      GatherStep(m - {j}, k);
      GatherStep(m - {k}, j);
      assert m - {j} - {k} == m - {k} - {j};
    }
  }

  lemma {:induction false} GatherEmpty(m: map<string, multiset<Issue>>)
    ensures Gather(m) == multiset{} <==> forall k | k in m :: m[k] == multiset{}
    decreases m.Keys
  {
    if m != map[] {
      var k :| k in m;
      GatherStep(m, k);
      GatherEmpty(m - {k});
      EmptySum(m[k], Gather(m - {k}));
      assert forall j | j in m && j != k :: m[j] == (m - {k})[j];
    }
  }

  lemma EmptySum(a: multiset<Issue>, b: multiset<Issue>)
    ensures a + b == multiset{} <==> a == multiset{} && b == multiset{}
  {
    if a + b == multiset{} {
      assert |a| + |b| == |a + b| == 0;
    }
  }

  ghost function Sum(list: seq<multiset<Issue>>): multiset<Issue> {
    if list == [] then multiset{} else list[0] + Sum(list[1..])
  }

  lemma {:induction false} SumEmpty(list: seq<multiset<Issue>>)
    ensures Sum(list) == multiset{} <==> forall i | 0 <= i < |list| :: list[i] == multiset{}
  {
    if list != [] {
      SumEmpty(list[1..]);
      EmptySum(list[0], Sum(list[1..]));
      assert forall i | 0 < i < |list| :: list[i] == list[1..][i - 1];
    }
  }

  // ----- the issues of an instance -----

  function When(c: bool, path: string, violation: Violation): multiset<Issue> {
    if c then multiset{Issue(path, violation)} else multiset{}
  }

  /** Everything the validator reports about an instance, at every depth. */
  ghost function Issues(lib: Library, s: Node, v: Json, path: string): multiset<Issue>
    decreases s, 2
  {
    if s.types != [] && !MatchesType(lib, s.types, v) then multiset{Issue(path, WrongType(s.types, JsonType(v)))}
    else ValueIssues(lib, s, v, path) + InnerIssues(lib, s, v, path)
  }

  /** Issues with the instance as a whole. */
  ghost function ValueIssues(lib: Library, s: Node, v: Json, path: string): multiset<Issue> {
    When(s.constant.Some? && !JsonEqual(lib, v, s.constant.value), path, NotConst(s.constant.GetOr(Null)))
    + When(s.enums != [] && !ContainsValue(lib, s.enums, v), path, NotInEnum(s.enums))
  }

  /** Issues that depend on the kind of instance. */
  ghost function InnerIssues(lib: Library, s: Node, v: Json, path: string): multiset<Issue>
    decreases s, 1
  {
    match v
    case Obj(fields) => ObjectIssues(lib, s, fields, path)
    case Arr(items) => SizeIssues(s, |items|, path) + Sum(ItemIssues(lib, s, items, path))
    case Str(text) => TextIssues(lib, s, text, path)
    case Num(token) => NumberIssues(lib, s, token, path)
    case _ => multiset{}
  }

  ghost function ObjectIssues(lib: Library, s: Node, fields: map<string, Json>, path: string): multiset<Issue>
    decreases s, 0, 1
  {
    Sum(MissingIssues(s.required, fields, path))
    + Gather(ExtraIssues(s, fields, path))
    + Gather(PropIssues(lib, s, fields, path))
  }

  function MissingIssues(required: seq<string>, fields: map<string, Json>, path: string): seq<multiset<Issue>> {
    seq(|required|, i requires 0 <= i < |required| => When(required[i] !in fields, path + "." + required[i], Missing))
  }

  ghost function ExtraIssues(s: Node, fields: map<string, Json>, path: string): map<string, multiset<Issue>> {
    map k | k in fields :: ExtraIssue(s, k, path)
  }

  function ExtraIssue(s: Node, k: string, path: string): multiset<Issue> {
    When(s.addlProps == Some(false) && k !in s.props, path + "." + k, NotAllowed)
  }

  ghost function PropIssues(
    lib: Library, s: Node, fields: map<string, Json>, path: string): map<string, multiset<Issue>>
    decreases s, 0, 0
  {
    map n | n in s.props && n in fields :: Issues(lib, s.props[n], fields[n], path + "." + n)
  }

  function SizeIssues(s: Node, size: nat, path: string): multiset<Issue> {
    When(s.minItems.Some? && size < s.minItems.value, path, TooFewItems(s.minItems.GetOr(0)))
    + When(s.maxItems.Some? && size > s.maxItems.value, path, TooManyItems(s.maxItems.GetOr(0)))
  }

  ghost function ItemIssues(lib: Library, s: Node, items: seq<Json>, path: string): seq<multiset<Issue>>
    decreases s, 0
  {
    if s.items.None? then []
    else seq(|items|, i requires 0 <= i < |items| => Issues(lib, s.items.value, items[i], ItemPath(path, i)))
  }

  function ItemPath(path: string, i: nat): string {
    path + "[" + Decimal(i) + "]"
  }

  function TextIssues(lib: Library, s: Node, text: string, path: string): multiset<Issue> {
    When(s.minLength.Some? && |text| < s.minLength.value, path, TooShort(s.minLength.GetOr(0)))
    + When(s.pattern.Some? && !lib.matches(s.pattern.value, text), path, NoMatch(s.pattern.GetOr("")))
  }

  function NumberIssues(lib: Library, s: Node, token: NumToken, path: string): multiset<Issue> {
    When(s.minimum.Some? && lib.value(token) < s.minimum.value, path, BelowMinimum(s.minimum.GetOr(0.0)))
    + When(s.maximum.Some? && lib.value(token) > s.maximum.value, path, AboveMaximum(s.maximum.GetOr(0.0)))
  }

  // ----- the meaning of a schema document -----

  function PropertyNames(doc: Json): set<string> {
    if Has(doc, Properties) && Get(doc, Properties).Obj? then Get(doc, Properties).fields.Keys else {}
  }

  /** An instance satisfies one keyword of a schema document (Core and Validation
      vocabularies of JSON Schema Draft 2020-12, for the supported keywords). */
  ghost predicate KeywordMet(lib: Library, doc: Json, kw: Keyword, v: Json)
    requires Compiles(lib, doc) && Has(doc, kw)
    decreases doc, 0
  {
    HasCompiles(lib, doc, kw);
    var arg := Get(doc, kw);
    match kw
    case Type => MatchesType(lib, StringList(arg), v)
    case Enum => ContainsValue(lib, arg.items, v)
    case Const => JsonEqual(lib, v, arg)
    case Required => v.Obj? ==> forall r | r in StringList(arg) :: r in v.fields
    case Properties => v.Obj? ==> forall n | n in arg.fields && n in v.fields :: Meets(lib, arg.fields[n], v.fields[n])
    case AdditionalProperties =>
      v.Obj? && !arg.b ==> v.fields.Keys <= PropertyNames(doc)
    case Items => v.Arr? ==> forall i | 0 <= i < |v.items| :: Meets(lib, arg, v.items[i])
    case MinItems => v.Arr? ==> |v.items| as real >= lib.value(arg.token)
    case MaxItems => v.Arr? ==> |v.items| as real <= lib.value(arg.token)
    case MinLength => v.Str? ==> |v.s| as real >= lib.value(arg.token)
    case Pattern => v.Str? ==> lib.matches(arg.s, v.s)
    case Minimum => v.Num? ==> lib.value(v.token) >= lib.value(arg.token)
    case Maximum => v.Num? ==> lib.value(v.token) <= lib.value(arg.token)
  }

  /** An instance satisfies a schema document: it satisfies every keyword in it. */
  ghost predicate Meets(lib: Library, doc: Json, v: Json)
    requires Compiles(lib, doc)
    decreases doc, 1
  {
    forall kw: Keyword | Has(doc, kw) :: KeywordMet(lib, doc, kw, v)
  }

  // ----- the validator agrees with the meaning -----

  predicate TypeOk(lib: Library, s: Node, v: Json) {
    s.types == [] || MatchesType(lib, s.types, v)
  }

  predicate ConstOk(lib: Library, s: Node, v: Json) {
    s.constant.Some? ==> JsonEqual(lib, v, s.constant.value)
  }

  predicate EnumOk(lib: Library, s: Node, v: Json) {
    s.enums == [] || ContainsValue(lib, s.enums, v)
  }

  predicate RequiredOk(s: Node, v: Json) {
    v.Obj? ==> forall i | 0 <= i < |s.required| :: s.required[i] in v.fields
  }

  predicate ExtraOk(s: Node, v: Json) {
    v.Obj? && s.addlProps == Some(false) ==> v.fields.Keys <= s.props.Keys
  }

  ghost predicate PropsOk(lib: Library, s: Node, v: Json, path: string) {
    v.Obj? ==> forall n | n in s.props && n in v.fields :: Clean(lib, s.props[n], v.fields[n], path + "." + n)
  }

  ghost predicate ItemsOk(lib: Library, s: Node, v: Json, path: string) {
    v.Arr? && s.items.Some? ==>
      forall i | 0 <= i < |v.items| :: Clean(lib, s.items.value, v.items[i], ItemPath(path, i))
  }

  predicate SizeOk(s: Node, v: Json) {
    v.Arr? ==>
      && (s.minItems.Some? ==> |v.items| >= s.minItems.value)
      && (s.maxItems.Some? ==> |v.items| <= s.maxItems.value)
  }

  predicate TextOk(lib: Library, s: Node, v: Json) {
    v.Str? ==>
      && (s.minLength.Some? ==> |v.s| >= s.minLength.value)
      && (s.pattern.Some? ==> lib.matches(s.pattern.value, v.s))
  }

  predicate RangeOk(lib: Library, s: Node, v: Json) {
    v.Num? ==>
      && (s.minimum.Some? ==> lib.value(v.token) >= s.minimum.value)
      && (s.maximum.Some? ==> lib.value(v.token) <= s.maximum.value)
  }

  /** The validator reports nothing. */
  ghost predicate Clean(lib: Library, s: Node, v: Json, path: string) {
    Issues(lib, s, v, path) == multiset{}
  }

  lemma WhenEmpty(c: bool, path: string, violation: Violation)
    ensures When(c, path, violation) == multiset{} <==> !c
  {
    if c {
      assert Issue(path, violation) in When(c, path, violation);
    }
  }

  lemma MissingQuiet(s: Node, v: Json, path: string)
    requires v.Obj?
    ensures Sum(MissingIssues(s.required, v.fields, path)) == multiset{} <==> RequiredOk(s, v)
  {
    var missing := MissingIssues(s.required, v.fields, path);
    SumEmpty(missing);
    forall i | 0 <= i < |missing|
      ensures missing[i] == multiset{} <==> s.required[i] in v.fields
    {
      WhenEmpty(s.required[i] !in v.fields, path + "." + s.required[i], Missing);
    }
  }

  lemma ExtraQuiet(s: Node, v: Json, path: string)
    requires v.Obj?
    ensures Gather(ExtraIssues(s, v.fields, path)) == multiset{} <==> ExtraOk(s, v)
  {
    var extra := ExtraIssues(s, v.fields, path);
    GatherEmpty(extra);
    forall k | k in extra
      ensures extra[k] == multiset{} <==> !(s.addlProps == Some(false) && k !in s.props)
    {
      WhenEmpty(s.addlProps == Some(false) && k !in s.props, path + "." + k, NotAllowed);
    }
  }

  lemma PropsQuiet(lib: Library, s: Node, v: Json, path: string)
    requires v.Obj?
    ensures Gather(PropIssues(lib, s, v.fields, path)) == multiset{} <==> PropsOk(lib, s, v, path)
  {
    var props := PropIssues(lib, s, v.fields, path);
    GatherEmpty(props);
    assert forall n | n in props :: props[n] == multiset{} <==> Clean(lib, s.props[n], v.fields[n], path + "." + n);
  }

  lemma ItemsQuiet(lib: Library, s: Node, v: Json, path: string)
    requires v.Arr?
    ensures Sum(ItemIssues(lib, s, v.items, path)) == multiset{} <==> ItemsOk(lib, s, v, path)
  {
    var inside := ItemIssues(lib, s, v.items, path);
    SumEmpty(inside);
    if s.items.Some? {
      assert forall i | 0 <= i < |v.items| ::
        inside[i] == multiset{} <==> Clean(lib, s.items.value, v.items[i], ItemPath(path, i));
    }
  }

  lemma BoundsQuiet(lib: Library, s: Node, v: Json, path: string)
    ensures v.Arr? ==> (SizeIssues(s, |v.items|, path) == multiset{} <==> SizeOk(s, v))
    ensures v.Str? ==> (TextIssues(lib, s, v.s, path) == multiset{} <==> TextOk(lib, s, v))
    ensures v.Num? ==> (NumberIssues(lib, s, v.token, path) == multiset{} <==> RangeOk(lib, s, v))
  {
    match v {
      case Arr(items) =>
        var few, many := s.minItems.Some? && |items| < s.minItems.value, s.maxItems.Some? && |items| > s.maxItems.value;
        WhenEmpty(few, path, TooFewItems(s.minItems.GetOr(0)));
        WhenEmpty(many, path, TooManyItems(s.maxItems.GetOr(0)));
        EmptySum(When(few, path, TooFewItems(s.minItems.GetOr(0))),
          When(many, path, TooManyItems(s.maxItems.GetOr(0))));
      case Str(text) =>
        var short := s.minLength.Some? && |text| < s.minLength.value;
        var mismatch := s.pattern.Some? && !lib.matches(s.pattern.value, text);
        WhenEmpty(short, path, TooShort(s.minLength.GetOr(0)));
        WhenEmpty(mismatch, path, NoMatch(s.pattern.GetOr("")));
        EmptySum(When(short, path, TooShort(s.minLength.GetOr(0))), When(mismatch, path, NoMatch(s.pattern.GetOr(""))));
      case Num(token) =>
        var below := s.minimum.Some? && lib.value(token) < s.minimum.value;
        var above := s.maximum.Some? && lib.value(token) > s.maximum.value;
        WhenEmpty(below, path, BelowMinimum(s.minimum.GetOr(0.0)));
        WhenEmpty(above, path, AboveMaximum(s.maximum.GetOr(0.0)));
        EmptySum(When(below, path, BelowMinimum(s.minimum.GetOr(0.0))),
          When(above, path, AboveMaximum(s.maximum.GetOr(0.0))));
      case _ =>
    }
  }

  lemma ValueQuiet(lib: Library, s: Node, v: Json, path: string)
    ensures ValueIssues(lib, s, v, path) == multiset{} <==> ConstOk(lib, s, v) && EnumOk(lib, s, v)
  {
    var differs := s.constant.Some? && !JsonEqual(lib, v, s.constant.value);
    var outside := s.enums != [] && !ContainsValue(lib, s.enums, v);
    WhenEmpty(differs, path, NotConst(s.constant.GetOr(Null)));
    WhenEmpty(outside, path, NotInEnum(s.enums));
    EmptySum(When(differs, path, NotConst(s.constant.GetOr(Null))), When(outside, path, NotInEnum(s.enums)));
  }

  ghost predicate InnerOk(lib: Library, s: Node, v: Json, path: string) {
    && RequiredOk(s, v) && ExtraOk(s, v) && PropsOk(lib, s, v, path)
    && SizeOk(s, v) && ItemsOk(lib, s, v, path) && TextOk(lib, s, v) && RangeOk(lib, s, v)
  }

  lemma ObjectQuiet(lib: Library, s: Node, v: Json, path: string)
    requires v.Obj?
    ensures InnerIssues(lib, s, v, path) == multiset{} <==>
      RequiredOk(s, v) && ExtraOk(s, v) && PropsOk(lib, s, v, path)
  {
    var missing, extra := Sum(MissingIssues(s.required, v.fields, path)), Gather(ExtraIssues(s, v.fields, path));
    EmptySum(missing, extra);
    EmptySum(missing + extra, Gather(PropIssues(lib, s, v.fields, path)));
    MissingQuiet(s, v, path);
    ExtraQuiet(s, v, path);
    PropsQuiet(lib, s, v, path);
  }

  lemma ArrayQuiet(lib: Library, s: Node, v: Json, path: string)
    requires v.Arr?
    ensures InnerIssues(lib, s, v, path) == multiset{} <==> SizeOk(s, v) && ItemsOk(lib, s, v, path)
  {
    EmptySum(SizeIssues(s, |v.items|, path), Sum(ItemIssues(lib, s, v.items, path)));
    BoundsQuiet(lib, s, v, path);
    ItemsQuiet(lib, s, v, path);
  }

  lemma ScalarQuiet(lib: Library, s: Node, v: Json, path: string)
    requires !v.Obj? && !v.Arr?
    ensures InnerIssues(lib, s, v, path) == multiset{} <==> TextOk(lib, s, v) && RangeOk(lib, s, v)
  {
    BoundsQuiet(lib, s, v, path);
  }

  lemma InnerQuiet(lib: Library, s: Node, v: Json, path: string)
    ensures InnerIssues(lib, s, v, path) == multiset{} <==> InnerOk(lib, s, v, path)
  {
    hide InnerIssues, Issues;
    match v {
      case Obj(_) => ObjectQuiet(lib, s, v, path);
      case Arr(_) => ArrayQuiet(lib, s, v, path);
      case _ => ScalarQuiet(lib, s, v, path);
    }
  }

  /** No issue at all means no keyword is the cause of one. */
  lemma CleanIff(lib: Library, s: Node, v: Json, path: string)
    ensures Clean(lib, s, v, path) <==>
      TypeOk(lib, s, v) && ConstOk(lib, s, v) && EnumOk(lib, s, v) && InnerOk(lib, s, v, path)
  {
    ValueQuiet(lib, s, v, path);
    InnerQuiet(lib, s, v, path);
    EmptySum(ValueIssues(lib, s, v, path), InnerIssues(lib, s, v, path));
    if !TypeOk(lib, s, v) {
      assert Issue(path, WrongType(s.types, JsonType(v))) in Issues(lib, s, v, path);
    }
  }

  // ----- keyword by keyword -----

  ghost predicate Met(lib: Library, doc: Json, kw: Keyword, v: Json)
    requires Compiles(lib, doc)
  {
    Has(doc, kw) ==> KeywordMet(lib, doc, kw, v)
  }

  /** An empty type list admits no instance, but the validator takes it for no constraint. */
  predicate EmptyTypeHere(doc: Json) {
    Has(doc, Type) && Get(doc, Type) == Arr([])
  }

  lemma TypeMet(lib: Library, doc: Json, v: Json)
    requires Compiles(lib, doc)
    ensures Met(lib, doc, Type, v) <==> TypeOk(lib, Compiled(lib, doc), v) && !EmptyTypeHere(doc)
  {
    CompiledField(lib, doc, Type);
    if Has(doc, Type) {
      HasCompiles(lib, doc, Type);
      var arg := Get(doc, Type);
      assert FieldAt(lib, doc, Type) == Strings(StringList(arg));
      assert StringList(arg) == [] <==> arg == Arr([]);
    }
  }

  lemma ValueMet(lib: Library, doc: Json, v: Json)
    requires Compiles(lib, doc)
    ensures Met(lib, doc, Const, v) <==> ConstOk(lib, Compiled(lib, doc), v)
    ensures Met(lib, doc, Enum, v) <==> EnumOk(lib, Compiled(lib, doc), v)
  {
    hide JsonEqual, Compiled, ParseKey, StringList;
    CompiledField(lib, doc, Const);
    CompiledField(lib, doc, Enum);
    if Has(doc, Enum) { HasCompiles(lib, doc, Enum); }
    if Has(doc, Const) { HasCompiles(lib, doc, Const); }
  }

  lemma RequiredMet(lib: Library, doc: Json, v: Json)
    requires Compiles(lib, doc)
    ensures Met(lib, doc, Required, v) <==> RequiredOk(Compiled(lib, doc), v)
  {
    CompiledField(lib, doc, Required);
    if Has(doc, Required) {
      HasCompiles(lib, doc, Required);
      var list := StringList(Get(doc, Required));
      assert Compiled(lib, doc).required == list;
      assert (forall r | r in list && v.Obj? :: r in v.fields)
        <==> (forall i | 0 <= i < |list| && v.Obj? :: list[i] in v.fields);
    }
  }

  lemma PropNames(lib: Library, doc: Json)
    requires Compiles(lib, doc)
    ensures Compiled(lib, doc).props.Keys == PropertyNames(doc)
    ensures forall n | n in PropertyNames(doc) ::
      Compiles(lib, Get(doc, Properties).fields[n])
      && Compiled(lib, doc).props[n] == Compiled(lib, Get(doc, Properties).fields[n])
  {
    CompiledField(lib, doc, Properties);
    if Has(doc, Properties) {
      HasCompiles(lib, doc, Properties);
      assert FieldAt(lib, doc, Properties) == Props(CompiledProps(lib, Get(doc, Properties)));
    }
  }

  lemma ExtraMet(lib: Library, doc: Json, v: Json)
    requires Compiles(lib, doc)
    ensures Met(lib, doc, AdditionalProperties, v) <==> ExtraOk(Compiled(lib, doc), v)
  {
    CompiledField(lib, doc, AdditionalProperties);
    PropNames(lib, doc);
    if Has(doc, AdditionalProperties) { HasCompiles(lib, doc, AdditionalProperties); }
  }

  lemma CountMet(lib: Library, arg: Json, n: nat)
    requires IsCount(lib, arg)
    ensures n as real >= lib.value(arg.token) <==> n >= Count(lib, arg)
    ensures n as real <= lib.value(arg.token) <==> n <= Count(lib, arg)
  {}

  lemma SizeMet(lib: Library, doc: Json, v: Json)
    requires Compiles(lib, doc)
    ensures Met(lib, doc, MinItems, v) && Met(lib, doc, MaxItems, v) <==> SizeOk(Compiled(lib, doc), v)
  {
    CompiledField(lib, doc, MinItems);
    CompiledField(lib, doc, MaxItems);
    if Has(doc, MinItems) {
      HasCompiles(lib, doc, MinItems);
      if v.Arr? { CountMet(lib, Get(doc, MinItems), |v.items|); }
    }
    if Has(doc, MaxItems) {
      HasCompiles(lib, doc, MaxItems);
      if v.Arr? { CountMet(lib, Get(doc, MaxItems), |v.items|); }
    }
  }

  lemma TextMet(lib: Library, doc: Json, v: Json)
    requires Compiles(lib, doc)
    ensures Met(lib, doc, MinLength, v) && Met(lib, doc, Pattern, v) <==> TextOk(lib, Compiled(lib, doc), v)
  {
    CompiledField(lib, doc, MinLength);
    CompiledField(lib, doc, Pattern);
    if Has(doc, MinLength) {
      HasCompiles(lib, doc, MinLength);
      if v.Str? { CountMet(lib, Get(doc, MinLength), |v.s|); }
    }
    if Has(doc, Pattern) { HasCompiles(lib, doc, Pattern); }
  }

  lemma RangeMet(lib: Library, doc: Json, v: Json)
    requires Compiles(lib, doc)
    ensures Met(lib, doc, Minimum, v) && Met(lib, doc, Maximum, v) <==> RangeOk(lib, Compiled(lib, doc), v)
  {
    CompiledField(lib, doc, Minimum);
    CompiledField(lib, doc, Maximum);
    if Has(doc, Minimum) { HasCompiles(lib, doc, Minimum); }
    if Has(doc, Maximum) { HasCompiles(lib, doc, Maximum); }
  }

  // ----- the verdict -----

  /** Walking the document along the instance meets an empty type list. A caller can
      decide this before validating. */
  ghost predicate VisitsEmptyType(doc: Json, v: Json)
    decreases doc
  {
    EmptyTypeHere(doc) || VisitsInProperties(doc, v) || VisitsInItems(doc, v)
  }

  ghost predicate VisitsInProperties(doc: Json, v: Json)
    decreases doc, 0
  {
    v.Obj? && Has(doc, Properties) && Get(doc, Properties).Obj? &&
    exists n | n in Get(doc, Properties).fields && n in v.fields ::
      VisitsEmptyType(Get(doc, Properties).fields[n], v.fields[n])
  }

  ghost predicate VisitsInItems(doc: Json, v: Json)
    decreases doc, 0
  {
    v.Arr? && Has(doc, Items) && exists i | 0 <= i < |v.items| :: VisitsEmptyType(Get(doc, Items), v.items[i])
  }

  lemma {:induction false} PropsMet(lib: Library, doc: Json, v: Json, path: string)
    requires Compiles(lib, doc)
    ensures Met(lib, doc, Properties, v) <==> PropsOk(lib, Compiled(lib, doc), v, path) && !VisitsInProperties(doc, v)
    decreases doc, 0
  {
    PropNames(lib, doc);
    if Has(doc, Properties) && v.Obj? {
      HasCompiles(lib, doc, Properties);
      var props := Get(doc, Properties).fields;
      forall n | n in props && n in v.fields
        ensures Meets(lib, props[n], v.fields[n]) <==>
          Clean(lib, Compiled(lib, props[n]), v.fields[n], path + "." + n) && !VisitsEmptyType(props[n], v.fields[n])
      {
        MeetsIff(lib, props[n], v.fields[n], path + "." + n);
      }
    }
  }

  lemma {:induction false} ItemsMet(lib: Library, doc: Json, v: Json, path: string)
    requires Compiles(lib, doc)
    ensures Met(lib, doc, Items, v) <==> ItemsOk(lib, Compiled(lib, doc), v, path) && !VisitsInItems(doc, v)
    decreases doc, 0
  {
    CompiledField(lib, doc, Items);
    if Has(doc, Items) && v.Arr? {
      HasCompiles(lib, doc, Items);
      var arg := Get(doc, Items);
      forall i | 0 <= i < |v.items|
        ensures Meets(lib, arg, v.items[i]) <==>
          Clean(lib, Compiled(lib, arg), v.items[i], ItemPath(path, i)) && !VisitsEmptyType(arg, v.items[i])
      {
        MeetsIff(lib, arg, v.items[i], ItemPath(path, i));
      }
    }
  }

  /** For every document that compiles and every instance, at every depth: the instance
      satisfies the document exactly when the compiled validator reports nothing and the
      walk meets no empty type list. */
  lemma {:induction false} MeetsIff(lib: Library, doc: Json, v: Json, path: string)
    requires Compiles(lib, doc)
    ensures Meets(lib, doc, v) <==> Clean(lib, Compiled(lib, doc), v, path) && !VisitsEmptyType(doc, v)
    decreases doc, 1
  {
    CleanIff(lib, Compiled(lib, doc), v, path);
    KeywordsMet(lib, doc, v);
    PropsMet(lib, doc, v, path);
    ItemsMet(lib, doc, v, path);
    MeetsAll(lib, doc, v);
  }

  /** The keywords that do not lead into subschemas. */
  lemma KeywordsMet(lib: Library, doc: Json, v: Json)
    requires Compiles(lib, doc)
    ensures var s := Compiled(lib, doc);
      && (Met(lib, doc, Type, v) <==> TypeOk(lib, s, v) && !EmptyTypeHere(doc))
      && (Met(lib, doc, Const, v) <==> ConstOk(lib, s, v))
      && (Met(lib, doc, Enum, v) <==> EnumOk(lib, s, v))
      && (Met(lib, doc, Required, v) <==> RequiredOk(s, v))
      && (Met(lib, doc, AdditionalProperties, v) <==> ExtraOk(s, v))
      && (Met(lib, doc, MinItems, v) && Met(lib, doc, MaxItems, v) <==> SizeOk(s, v))
      && (Met(lib, doc, MinLength, v) && Met(lib, doc, Pattern, v) <==> TextOk(lib, s, v))
      && (Met(lib, doc, Minimum, v) && Met(lib, doc, Maximum, v) <==> RangeOk(lib, s, v))
  {
    TypeMet(lib, doc, v);
    ValueMet(lib, doc, v);
    RequiredMet(lib, doc, v);
    ExtraMet(lib, doc, v);
    SizeMet(lib, doc, v);
    TextMet(lib, doc, v);
    RangeMet(lib, doc, v);
  }

  lemma MeetsAll(lib: Library, doc: Json, v: Json)
    requires Compiles(lib, doc)
    ensures Meets(lib, doc, v) <==>
      && Met(lib, doc, Type, v) && Met(lib, doc, Const, v) && Met(lib, doc, Enum, v) && Met(lib, doc, Required, v)
      && Met(lib, doc, AdditionalProperties, v) && Met(lib, doc, Properties, v) && Met(lib, doc, Items, v)
      && Met(lib, doc, MinItems, v) && Met(lib, doc, MaxItems, v) && Met(lib, doc, MinLength, v)
      && Met(lib, doc, Pattern, v) && Met(lib, doc, Minimum, v) && Met(lib, doc, Maximum, v)
  {}

  lemma {:induction false} VisitedNode(doc: Json, v: Json) returns (steps: seq<Step>, node: Json)
    requires VisitsEmptyType(doc, v)
    ensures IsNodeAt(doc, steps, node) && EmptyTypeHere(node)
    decreases doc
  {
    if EmptyTypeHere(doc) {
      steps, node := [], doc;
    } else if VisitsInProperties(doc, v) {
      var props := Get(doc, Properties).fields;
      var n :| n in props && n in v.fields && VisitsEmptyType(props[n], v.fields[n]);
      var rest, found := VisitedNode(props[n], v.fields[n]);
      steps, node := [IntoProperty(n)] + rest, found;
      assert steps[1..] == rest;
    } else {
      var i :| 0 <= i < |v.items| && VisitsEmptyType(Get(doc, Items), v.items[i]);
      var rest, found := VisitedNode(Get(doc, Items), v.items[i]);
      steps, node := [IntoItems] + rest, found;
      assert steps[1..] == rest;
    }
  }

  /** A compiled document with no empty type list in it means to the validator exactly
      what it says. */
  lemma ValidatesAsWritten(lib: Library, doc: Json, v: Json, path: string)
    requires Compiles(lib, doc)
    requires forall steps, node | IsNodeAt(doc, steps, node) :: !EmptyTypeHere(node)
    ensures Clean(lib, Compiled(lib, doc), v, path) <==> Meets(lib, doc, v)
  {
    MeetsIff(lib, doc, v, path);
    if VisitsEmptyType(doc, v) {
      var steps, node := VisitedNode(doc, v);
    }
  }

  /** A document whose type list is empty compiles, no instance satisfies it, and a
      document that holds nothing else refuses no instance. */
  lemma EmptyTypeListIsIgnored(lib: Library, v: Json, path: string)
    ensures var doc := Obj(map["type" := Arr([])]);
      Compiles(lib, doc) && !Meets(lib, doc, v) && Clean(lib, Compiled(lib, doc), v, path)
  {
    var doc := Obj(map["type" := Arr([])]);
    EmptyTypeListCompiled(lib);
    CleanIff(lib, EMPTY, v, path);
    MeetsIff(lib, doc, v, path);
  }

  lemma EmptyTypeListCompiled(lib: Library)
    ensures var doc := Obj(map["type" := Arr([])]);
      Compiles(lib, doc) && EmptyTypeHere(doc) && Compiled(lib, doc) == EMPTY
  {
    var fields := map["type" := Arr([])];
    assert map[]["type" := Arr([])] == fields;
    assert ParseKey("type") == Some(Type);
    CompiledEmpty(lib);
    CompiledStep(lib, map[], "type", Arr([]));
    assert WithField(EMPTY, Type, Strings([])) == EMPTY;
  }

  // ----- validating -----

  /** The slice of errors every validator call appends to. */
  class IssueList {
    var items: seq<Issue>

    constructor ()
      ensures items == []
    {
      items := [];
    }

    method AddWhen(c: bool, path: string, violation: Violation)
      modifies this
      ensures multiset(items) == old(multiset(items)) + When(c, path, violation)
    {
      if c {
        items := items + [Issue(path, violation)];
      }
    }
  }

  method ValidateNode(lib: Library, s: Node, v: Json, path: string, errs: IssueList)
    modifies errs
    ensures multiset(errs.items) == old(multiset(errs.items)) + Issues(lib, s, v, path)
    decreases s, 4
  {
    if s.types != [] && !MatchesType(lib, s.types, v) {
      errs.AddWhen(true, path, WrongType(s.types, JsonType(v)));
    } else {
      ValidateValue(lib, s, v, path, errs);
      ValidateInside(lib, s, v, path, errs);
    }
  }

  method ValidateValue(lib: Library, s: Node, v: Json, path: string, errs: IssueList)
    modifies errs
    ensures multiset(errs.items) == old(multiset(errs.items)) + ValueIssues(lib, s, v, path)
  {
    errs.AddWhen(s.constant.Some? && !JsonEqual(lib, v, s.constant.value), path, NotConst(s.constant.GetOr(Null)));
    errs.AddWhen(s.enums != [] && !ContainsValue(lib, s.enums, v), path, NotInEnum(s.enums));
  }

  method ValidateInside(lib: Library, s: Node, v: Json, path: string, errs: IssueList)
    modifies errs
    ensures multiset(errs.items) == old(multiset(errs.items)) + InnerIssues(lib, s, v, path)
    decreases s, 3
  {
    match v {
      case Obj(fields) => ValidateObject(lib, s, fields, path, errs);
      case Arr(items) =>
        ValidateSize(s, |items|, path, errs);
        ValidateItems(lib, s, items, path, errs);
      case Str(text) => ValidateString(lib, s, text, path, errs);
      case Num(token) => ValidateNumber(lib, s, token, path, errs);
      case _ =>
    }
  }

  method ValidateObject(lib: Library, s: Node, fields: map<string, Json>, path: string, errs: IssueList)
    modifies errs
    ensures multiset(errs.items) == old(multiset(errs.items)) + ObjectIssues(lib, s, fields, path)
    decreases s, 2
  {
    ValidateRequired(s, fields, path, errs);
    ValidateExtra(s, fields, path, errs);
    ValidateProps(lib, s, fields, path, errs);
  }

  method ValidateSize(s: Node, size: nat, path: string, errs: IssueList)
    modifies errs
    ensures multiset(errs.items) == old(multiset(errs.items)) + SizeIssues(s, size, path)
  {
    errs.AddWhen(s.minItems.Some? && size < s.minItems.value, path, TooFewItems(s.minItems.GetOr(0)));
    errs.AddWhen(s.maxItems.Some? && size > s.maxItems.value, path, TooManyItems(s.maxItems.GetOr(0)));
  }

  method ValidateString(lib: Library, s: Node, text: string, path: string, errs: IssueList)
    modifies errs
    ensures multiset(errs.items) == old(multiset(errs.items)) + TextIssues(lib, s, text, path)
  {
    errs.AddWhen(s.minLength.Some? && |text| < s.minLength.value, path, TooShort(s.minLength.GetOr(0)));
    errs.AddWhen(s.pattern.Some? && !lib.matches(s.pattern.value, text), path, NoMatch(s.pattern.GetOr("")));
  }

  method ValidateNumber(lib: Library, s: Node, token: NumToken, path: string, errs: IssueList)
    modifies errs
    ensures multiset(errs.items) == old(multiset(errs.items)) + NumberIssues(lib, s, token, path)
  {
    errs.AddWhen(s.minimum.Some? && lib.value(token) < s.minimum.value, path, BelowMinimum(s.minimum.GetOr(0.0)));
    errs.AddWhen(s.maximum.Some? && lib.value(token) > s.maximum.value, path, AboveMaximum(s.maximum.GetOr(0.0)));
  }

  method ValidateRequired(s: Node, fields: map<string, Json>, path: string, errs: IssueList)
    modifies errs
    ensures multiset(errs.items) == old(multiset(errs.items)) + Sum(MissingIssues(s.required, fields, path))
  {
    ghost var missing := MissingIssues(s.required, fields, path);
    for i := 0 to |s.required|
      invariant multiset(errs.items) + Sum(missing[i..]) == old(multiset(errs.items)) + Sum(missing)
    {
      assert missing[i..][1..] == missing[i + 1..];
      errs.AddWhen(s.required[i] !in fields, path + "." + s.required[i], Missing);
    }
  }

  /** One loop turn: an entry moves from the entries still to come into the slice. */
  lemma GatherMove(total: multiset<Issue>, was: multiset<Issue>, rest: map<string, multiset<Issue>>, k: string)
    requires was + Gather(rest) == total
    ensures k in rest ==> was + rest[k] + Gather(rest - {k}) == total
    ensures k !in rest ==> was + Gather(rest - {k}) == total
  {
    if k in rest {
      GatherStep(rest, k);
    } else {
      assert rest - {k} == rest;
    }
  }

  method ReportExtra(s: Node, k: string, path: string, errs: IssueList)
    modifies errs
    ensures multiset(errs.items) == old(multiset(errs.items)) + ExtraIssue(s, k, path)
  {
    errs.AddWhen(s.addlProps == Some(false) && k !in s.props, path + "." + k, NotAllowed);
  }

  method ValidateExtra(s: Node, fields: map<string, Json>, path: string, errs: IssueList)
    modifies errs
    ensures multiset(errs.items) == old(multiset(errs.items)) + Gather(ExtraIssues(s, fields, path))
  {
    ghost var rest := ExtraIssues(s, fields, path);
    ghost var total := multiset(errs.items) + Gather(rest);
    var pending := fields.Keys;
    while pending != {}
      invariant rest.Keys == pending
      invariant forall k | k in rest :: rest[k] == ExtraIssue(s, k, path)
      invariant multiset(errs.items) + Gather(rest) == total
      decreases pending
    {
      var key :| key in pending;
      GatherMove(total, multiset(errs.items), rest, key);
      ReportExtra(s, key, path, errs);
      rest := rest - {key};
      pending := pending - {key};
    }
    assert rest == map[];
  }

  method ValidateProps(lib: Library, s: Node, fields: map<string, Json>, path: string, errs: IssueList)
    modifies errs
    ensures multiset(errs.items) == old(multiset(errs.items)) + Gather(PropIssues(lib, s, fields, path))
    decreases s, 1
  {
    ghost var rest := PropIssues(lib, s, fields, path);
    ghost var total := multiset(errs.items) + Gather(rest);
    var pending := s.props.Keys;
    while pending != {}
      invariant pending <= s.props.Keys
      invariant rest.Keys == pending * fields.Keys
      invariant forall n | n in rest :: rest[n] == Issues(lib, s.props[n], fields[n], path + "." + n)
      invariant multiset(errs.items) + Gather(rest) == total
      decreases pending
    {
      var name :| name in pending;
      GatherMove(total, multiset(errs.items), rest, name);
      if name in fields {
        ValidateNode(lib, s.props[name], fields[name], path + "." + name, errs);
      }
      rest := rest - {name};
      pending := pending - {name};
    }
    assert rest == map[];
  }

  method ValidateItems(lib: Library, s: Node, items: seq<Json>, path: string, errs: IssueList)
    modifies errs
    ensures multiset(errs.items) == old(multiset(errs.items)) + Sum(ItemIssues(lib, s, items, path))
    decreases s, 1
  {
    hide Issues, ItemPath;
    if s.items.Some? {
      ghost var inside := ItemIssues(lib, s, items, path);
      for i := 0 to |items|
        invariant multiset(errs.items) + Sum(inside[i..]) == old(multiset(errs.items)) + Sum(inside)
      {
        assert inside[i..][1..] == inside[i + 1..];
        ValidateNode(lib, s.items.value, items[i], ItemPath(path, i), errs);
      }
    }
  }

  // ----- the report -----

  function Rendered(lib: Library, issues: seq<Issue>): seq<string> {
    seq(|issues|, i requires 0 <= i < |issues| => lib.render(issues[i]))
  }

  ghost function Listing(issues: multiset<Issue>): (list: seq<Issue>)
    ensures multiset(list) == issues
  {
    if issues == multiset{} then []
    else
      var x :| x in issues;
      [x] + Listing(issues - multiset{x})
  }

  /** The sorted error list of an instance. */
  ghost function Report(lib: Library, s: Node, v: Json): seq<string> {
    Sort(Rendered(lib, Listing(Issues(lib, s, v, "$"))))
  }

  lemma RenderedConcat(lib: Library, a: seq<Issue>, b: seq<Issue>)
    ensures Rendered(lib, a + b) == Rendered(lib, a) + Rendered(lib, b)
  {}

  lemma RenderedSplit(lib: Library, list: seq<Issue>, i: nat)
    requires i < |list|
    ensures multiset(list[..i] + list[i + 1..]) == multiset(list) - multiset{list[i]}
    ensures multiset(Rendered(lib, list))
      == multiset(Rendered(lib, list[..i] + list[i + 1..])) + multiset{lib.render(list[i])}
  {
    var x := [list[i]];
    assert list == list[..i] + x + list[i + 1..];
    RenderedConcat(lib, list[..i], list[i + 1..]);
    RenderedConcat(lib, list[..i] + x, list[i + 1..]);
    RenderedConcat(lib, list[..i], x);
  }

  lemma {:induction false} RenderedBag(lib: Library, a: seq<Issue>, b: seq<Issue>)
    requires multiset(a) == multiset(b)
    ensures multiset(Rendered(lib, a)) == multiset(Rendered(lib, b))
    decreases |a|
  {
    hide *;
    assert |multiset(a)| == |a| && |multiset(b)| == |b|;
    if a != [] {
      assert a[0] in multiset(b);
      var i :| 0 <= i < |b| && b[i] == a[0];
      RenderedSplit(lib, a, 0);
      RenderedSplit(lib, b, i);
      RenderedBag(lib, a[..0] + a[1..], b[..i] + b[i + 1..]);
    }
  }

  /** The report does not depend on the order in which any map, at any depth, is
      enumerated: it is a function of the schema and the instance. */
  method ValidateBytes(lib: Library, s: Node, data: string) returns (errs: seq<string>)
    ensures lib.decode(data).None? ==> errs == ["$: instance is not valid JSON"]
    ensures lib.decode(data).Some? ==> errs == Report(lib, s, lib.decode(data).value)
    ensures lib.decode(data).Some? ==> (errs == [] <==> Clean(lib, s, lib.decode(data).value, "$"))
  {
    var instance := lib.decode(data);
    if instance.None? {
      return ["$: instance is not valid JSON"];
    }
    var issues := new IssueList();
    ValidateNode(lib, s, instance.value, "$", issues);
    errs := Sort(Rendered(lib, issues.items));
    ghost var all := Issues(lib, s, instance.value, "$");
    assert multiset(issues.items) == all;
    RenderedBag(lib, issues.items, Listing(all));
    SortCanonical(Rendered(lib, issues.items), Rendered(lib, Listing(all)));
    assert |errs| == |issues.items| by {
      assert |multiset(errs)| == |multiset(Rendered(lib, issues.items))|;
    }
    assert |multiset(issues.items)| == |issues.items|;
  }
}
