/** internal/shortform/contenthash: a printer of canonical JSON, and the content
    hash taken over what it prints. */
module ContentHash {
  import opened Text
  import opened Json

  const HASH_FIELD := "content_hash"
  const PREFIX := "sha256:"

  // ----- the canonical text -----

  function HexDigit(d: int): (c: char)
    requires 0 <= d < 16
    ensures c != '"' && c != '\\'
  {
    "0123456789abcdef"[d]
  }

  function Hex4(n: int): (s: string)
    requires 0 <= n < 0x1_0000
    ensures |s| == 4
  {
    [HexDigit(n / 4096), HexDigit(n / 256 % 16), HexDigit(n / 16 % 16), HexDigit(n % 16)]
  }

  /** How json.Marshal writes one character of a string: control characters, the quote
      and the backslash are escaped (RFC 8259, section 7), and so are the characters
      that are unsafe inside HTML and the two line separators. */
  function Escape(c: char): string {
    if c == '"' then "\\\""
    else if c == '\\' then "\\\\"
    else if c == '\U{8}' then "\\b"
    else if c == '\U{C}' then "\\f"
    else if c == '\n' then "\\n"
    else if c == '\r' then "\\r"
    else if c == '\t' then "\\t"
    else if c < ' ' || c == '<' || c == '>' || c == '&' || c == '\U{2028}' || c == '\U{2029}' then
      "\\u" + Hex4(c as int)
    else [c]
  }

  function EscapeAll(s: string): string {
    if s == "" then "" else Escape(s[0]) + EscapeAll(s[1..])
  }

  function Quote(s: string): string {
    "\"" + EscapeAll(s) + "\""
  }

  /** The keys of an object in the order of sort.Strings. */
  ghost function SortedKeys(keys: set<string>): (r: seq<string>)
    ensures Sorted(r) && multiset(r) == multiset(keys)
  {
    if keys == {} then []
    else
      var k :| k in keys;
      Insert(k, SortedKeys(keys - {k}))
  }

  lemma SortedKeysMembers(keys: set<string>, r: seq<string>)
    requires multiset(r) == multiset(keys)
    ensures forall k :: k in r <==> k in keys
    ensures forall i, j :: 0 <= i < j < |r| ==> r[i] != r[j]
  {
    forall k
      ensures k in r <==> k in keys
    {
      assert k in r <==> k in multiset(r);
    }
    forall i, j | 0 <= i < j < |r|
      ensures r[i] != r[j]
    {
      assert r == r[..j] + [r[j]] + r[j + 1..];
      assert r[i] in r[..j];
      assert multiset(r)[r[j]] == 1 by {
        assert r[j] in multiset(r);
      }
    }
  }

  /** The canonical text of a value: no white space, keys in sorted order. */
  ghost function Print(v: Json): string
    decreases v
  {
    match v
    case Null => "null"
    case Bool(b) => if b then "true" else "false"
    case Num(token) => token
    case Str(s) => Quote(s)
    case Arr(items) => "[" + PrintItems(v, 0) + "]"
    case Obj(fields) => "{" + PrintMembers(v, SortedKeys(fields.Keys), 0) + "}"
  }

  ghost function PrintItems(v: Json, i: nat): string
    requires v.Arr? && i <= |v.items|
    decreases v, |v.items| - i
  {
    if i == |v.items| then ""
    else (if i > 0 then "," else "") + Print(v.items[i]) + PrintItems(v, i + 1)
  }

  ghost function PrintMembers(v: Json, keys: seq<string>, i: nat): string
    requires v.Obj? && i <= |keys| && multiset(keys) == multiset(v.fields.Keys)
    decreases v, |keys| - i
  {
    if i == |keys| then ""
    else
      SortedKeysMembers(v.fields.Keys, keys);
      (if i > 0 then "," else "") + (Quote(keys[i]) + ":" + Print(v.fields[keys[i]])) + PrintMembers(v, keys, i + 1)
  }

  // ----- reading the text back -----

  function HexValue(c: char): int {
    if '0' <= c <= '9' then c as int - '0' as int
    else if 'a' <= c <= 'f' then c as int - 'a' as int + 10
    else -1
  }

  function UnHex4(s: string): Option<char>
    requires |s| == 4
  {
    var a, b, c, d := HexValue(s[0]), HexValue(s[1]), HexValue(s[2]), HexValue(s[3]);
    if a < 0 || b < 0 || c < 0 || d < 0 then None
    else
      var n := ((a * 16 + b) * 16 + c) * 16 + d;
      if n < 0xD800 || 0xDFFF < n < 0x1_0000 then Some(n as char) else None
  }

  /** One possibly escaped character of a string literal and the text after it. */
  function ParseChar(s: string): (r: Option<(char, string)>)
    ensures r.Some? ==> |r.value.1| < |s|
  {
    if s == "" || s[0] == '"' then None
    else if s[0] != '\\' then Some((s[0], s[1..]))
    else if |s| < 2 then None
    else match s[1]
      case '"' => Some(('"', s[2..]))
      case '\\' => Some(('\\', s[2..]))
      case 'b' => Some(('\U{8}', s[2..]))
      case 'f' => Some(('\U{C}', s[2..]))
      case 'n' => Some(('\n', s[2..]))
      case 'r' => Some(('\r', s[2..]))
      case 't' => Some(('\t', s[2..]))
      case 'u' =>
        if |s| < 6 then None
        else (match UnHex4(s[2..6]) case Some(c) => Some((c, s[6..])) case None => None)
      case _ => None
  }

  /** The rest of a string literal, after its opening quote. */
  function ParseChars(s: string): (r: Option<(string, string)>)
    ensures r.Some? ==> |r.value.1| < |s|
    decreases |s|
  {
    if s != "" && s[0] == '"' then Some(("", s[1..]))
    else match ParseChar(s)
      case None => None
      case Some((c, rest)) =>
        match ParseChars(rest)
        case None => None
        case Some((t, rest')) => Some(([c] + t, rest'))
  }

  function NumLength(s: string): (n: nat)
    ensures n <= |s| && forall i :: 0 <= i < n ==> IsNumChar(s[i])
  {
    if s == "" || !IsNumChar(s[0]) then 0 else 1 + NumLength(s[1..])
  }

  /** A literal, a number or a string, and the text that follows it. */
  function ParseScalar(s: string): (r: Option<(Json, string)>)
    requires s != ""
    ensures r.Some? ==> |r.value.1| < |s|
  {
    if "null" <= s then Some((Null, s[4..]))
    else if "true" <= s then Some((Bool(true), s[4..]))
    else if "false" <= s then Some((Bool(false), s[5..]))
    else if s[0] == '"' then
      (match ParseChars(s[1..]) case None => None case Some((t, rest)) => Some((Str(t), rest)))
    else
      var n := NumLength(s);
      if n == 0 then None else Some((Num(s[..n]), s[n..]))
  }

  /** A value and the text that follows it. */
  function ParseValue(s: string): (r: Option<(Json, string)>)
    ensures r.Some? ==> |r.value.1| < |s|
    decreases |s|, 2
  {
    if s == "" then None
    else if s[0] == '[' then ParseArray(s[1..])
    else if s[0] == '{' then ParseObject(s[1..])
    else ParseScalar(s)
  }

  function ParseArray(s: string): (r: Option<(Json, string)>)
    ensures r.Some? ==> |r.value.1| < |s|
    decreases |s|, 4
  {
    if s != "" && s[0] == ']' then Some((Arr([]), s[1..]))
    else match ParseItems(s)
      case None => None
      case Some((items, rest)) => Some((Arr(items), rest))
  }

  function ParseObject(s: string): (r: Option<(Json, string)>)
    ensures r.Some? ==> |r.value.1| < |s|
    decreases |s|, 4
  {
    if s != "" && s[0] == '}' then Some((Obj(map[]), s[1..]))
    else match ParseMembers(s)
      case None => None
      case Some((fields, rest)) => Some((Obj(fields), rest))
  }

  /** One or more items and the bracket that closes them. */
  function ParseItems(s: string): (r: Option<(seq<Json>, string)>)
    ensures r.Some? ==> |r.value.1| < |s|
    decreases |s|, 3
  {
    match ParseValue(s)
    case None => None
    case Some((v, rest)) =>
      if rest != "" && rest[0] == ']' then Some(([v], rest[1..]))
      else if rest != "" && rest[0] == ',' then
        (match ParseItems(rest[1..]) case None => None case Some((items, rest')) => Some(([v] + items, rest')))
      else None
  }

  /** One or more members and the brace that closes them; the last of two equal keys wins. */
  function ParseMembers(s: string): (r: Option<(map<string, Json>, string)>)
    ensures r.Some? ==> |r.value.1| < |s|
    decreases |s|, 3
  {
    if s == "" || s[0] != '"' then None
    else match ParseChars(s[1..])
      case None => None
      case Some((k, rest)) =>
        if rest == "" || rest[0] != ':' then None
        else match ParseValue(rest[1..])
          case None => None
          case Some((v, rest')) =>
            if rest' != "" && rest'[0] == '}' then Some((map[k := v], rest'[1..]))
            else if rest' != "" && rest'[0] == ',' then
              (match ParseMembers(rest'[1..])
               case None => None
               case Some((fields, rest'')) => Some((map[k := v] + fields, rest'')))
            else None
  }

  // ----- the parser undoes the printer -----

  lemma Nibbles(n: int)
    requires 0 <= n < 0x1_0000
    ensures ((n / 4096 * 16 + n / 256 % 16) * 16 + n / 16 % 16) * 16 + n % 16 == n
  {
    var a := n / 16;
    var b := a / 16;
    assert b == n / 256 && b / 16 == n / 4096;
  }

  lemma HexBack(d: int)
    requires 0 <= d < 16
    ensures HexValue(HexDigit(d)) == d
  {}

  lemma Hex4Back(c: char)
    requires c as int < 0x1_0000
    ensures UnHex4(Hex4(c as int)) == Some(c)
  {
    var n := c as int;
    HexBack(n / 4096);
    HexBack(n / 256 % 16);
    HexBack(n / 16 % 16);
    HexBack(n % 16);
    Nibbles(n);
  }

  lemma EscapeBack(c: char, rest: string)
    ensures ParseChar(Escape(c) + rest) == Some((c, rest))
    ensures Escape(c) != "" && Escape(c)[0] != '"'
  {
    var e := Escape(c);
    var s := e + rest;
    assert s[|e|..] == rest;
    if |e| == 6 {
      Hex4Back(c);
      assert s[2..6] == Hex4(c as int);
    }
  }

  lemma {:induction false} QuoteBack(t: string, rest: string)
    ensures ParseChars(EscapeAll(t) + "\"" + rest) == Some((t, rest))
  {
    var s := EscapeAll(t) + "\"" + rest;
    if t == "" {
      assert s[1..] == rest;
    } else {
      var tail := EscapeAll(t[1..]) + "\"" + rest;
      assert s == Escape(t[0]) + tail;
      EscapeBack(t[0], tail);
      QuoteBack(t[1..], rest);
      assert [t[0]] + t[1..] == t;
    }
  }

  lemma {:induction false} NumBack(token: string, rest: string)
    requires forall i :: 0 <= i < |token| ==> IsNumChar(token[i])
    requires Delimited(rest)
    ensures NumLength(token + rest) == |token|
  {
    if token != "" {
      assert (token + rest)[1..] == token[1..] + rest;
      NumBack(token[1..], rest);
    } else {
      assert token + rest == rest;
    }
  }

  /** A suffix that cannot prolong a number. */
  predicate Delimited(s: string) {
    s == "" || !IsNumChar(s[0])
  }

  /** Concatenation is associative: the groupings the proofs below need. */
  lemma Regroup(a: string, b: string, c: string, close: string, rest: string)
    ensures a + b + close + rest == a + (b + close + rest)
    ensures a + ("," + b + c) + close + rest == a + ("," + (b + c + close + rest))
  {}

  lemma RegroupMember(e: string, text: string, tail: string)
    ensures "\"" + e + "\"" + ":" + text + tail == "\"" + (e + "\"" + (":" + (text + tail)))
  {}

  lemma OpenBack(body: string)
    ensures ParseValue("[" + body) == ParseArray(body)
    ensures ParseValue("{" + body) == ParseObject(body)
  {
    assert ("[" + body)[1..] == body && ("{" + body)[1..] == body;
  }

  lemma ItemsStep(s: string, v: Json, c: char, tail: string)
    requires ParseValue(s) == Some((v, [c] + tail))
    ensures c == ']' ==> ParseItems(s) == Some(([v], tail))
    ensures c == ',' && ParseItems(tail).Some? ==>
      ParseItems(s) == Some(([v] + ParseItems(tail).value.0, ParseItems(tail).value.1))
  {
    assert ([c] + tail)[1..] == tail;
  }

  lemma MembersStep(s: string, k: string, rest: string, v: Json, c: char, tail: string)
    requires s != "" && s[0] == '"' && ParseChars(s[1..]) == Some((k, ":" + rest))
    requires ParseValue(rest) == Some((v, [c] + tail))
    ensures c == '}' ==> ParseMembers(s) == Some((map[k := v], tail))
    ensures c == ',' && ParseMembers(tail).Some? ==>
      ParseMembers(s) == Some((map[k := v] + ParseMembers(tail).value.0, ParseMembers(tail).value.1))
  {
    assert (":" + rest)[1..] == rest;
    assert ([c] + tail)[1..] == tail;
  }

  /** The parser recovers every value from its canonical text, at every depth, and
      stops exactly where the text ends. */
  lemma {:induction false} PrintBack(v: Json, rest: string)
    requires v.Num? ==> Delimited(rest)
    ensures ParseValue(Print(v) + rest) == Some((v, rest))
    decreases v
  {
    match v {
      case Arr(items) => ArrayBack(v, rest);
      case Obj(fields) => ObjectBack(v, SortedKeys(fields.Keys), rest);
      case _ => ScalarBack(v, rest);
    }
  }

  lemma ScalarBack(v: Json, rest: string)
    requires !v.Arr? && !v.Obj?
    requires v.Num? ==> Delimited(rest)
    ensures ParseValue(Print(v) + rest) == Some((v, rest))
  {
    var s := Print(v) + rest;
    assert s[0] == Print(v)[0];
    assert ParseScalar(s) == Some((v, rest)) by {
      match v {
        case Num(token) => NumTokenBack(token, rest);
        case Str(t) => StringBack(t, rest);
        case _ => assert s[..|Print(v)|] == Print(v) && s[|Print(v)|..] == rest;
      }
    }
  }

  lemma NumTokenBack(token: NumToken, rest: string)
    requires Delimited(rest)
    ensures ParseScalar(token + rest) == Some((Num(token), rest))
  {
    var s := token + rest;
    assert s[0] == token[0];
    NumBack(token, rest);
    assert s[..|token|] == token && s[|token|..] == rest;
  }

  lemma StringBack(t: string, rest: string)
    ensures ParseScalar(Quote(t) + rest) == Some((Str(t), rest))
  {
    var s := Quote(t) + rest;
    assert s[0] == '"' && s[1..] == EscapeAll(t) + "\"" + rest;
    QuoteBack(t, rest);
  }

  lemma FirstItem(v: Json)
    requires v.Arr? && v.items != []
    ensures PrintItems(v, 0) == Print(v.items[0]) + PrintItems(v, 1)
    ensures Print(v.items[0]) != "" && Print(v.items[0])[0] != ']'
  {}

  lemma {:induction false} ArrayBack(v: Json, rest: string)
    requires v.Arr?
    ensures ParseValue(Print(v) + rest) == Some((v, rest))
    decreases v, |v.items| + 1
  {
    hide Escape, EscapeAll, ParseScalar;
    OpenBack(PrintItems(v, 0) + "]" + rest);
    Regroup("[", PrintItems(v, 0), "", "]", rest);
    if v.items == [] {
      assert PrintItems(v, 0) + "]" + rest == "]" + rest;
      assert ("]" + rest)[1..] == rest;
    } else {
      FirstItem(v);
      ItemsBack(v, 0, rest);
      assert v.items[0..] == v.items;
    }
  }

  lemma {:induction false} ItemsBack(v: Json, i: nat, rest: string)
    requires v.Arr? && i < |v.items|
    ensures ParseItems(Print(v.items[i]) + PrintItems(v, i + 1) + "]" + rest) == Some((v.items[i..], rest))
    decreases v, |v.items| - i
  {
    var text := Print(v.items[i]);
    var s := text + PrintItems(v, i + 1) + "]" + rest;
    if i + 1 == |v.items| {
      assert PrintItems(v, i + 1) == "";
      assert s == text + ("]" + rest) by { Regroup(text, "", "", "]", rest); }
      PrintBack(v.items[i], "]" + rest);
      ItemsStep(s, v.items[i], ']', rest);
      assert v.items[i..] == [v.items[i]];
    } else {
      var tail := Print(v.items[i + 1]) + PrintItems(v, i + 2) + "]" + rest;
      assert PrintItems(v, i + 1) == "," + Print(v.items[i + 1]) + PrintItems(v, i + 2);
      assert s == text + ("," + tail) by {
        Regroup(text, Print(v.items[i + 1]), PrintItems(v, i + 2), "]", rest);
      }
      PrintBack(v.items[i], "," + tail);
      ItemsBack(v, i + 1, rest);
      ItemsStep(s, v.items[i], ',', tail);
      assert v.items[i..] == [v.items[i]] + v.items[i + 1..];
    }
  }

  ghost function Member(k: string, v: Json): string {
    Quote(k) + ":" + Print(v)
  }

  lemma FirstMember(v: Json, keys: seq<string>)
    requires v.Obj? && keys != [] && multiset(keys) == multiset(v.fields.Keys)
    ensures keys[0] in v.fields
    ensures PrintMembers(v, keys, 0) == Member(keys[0], v.fields[keys[0]]) + PrintMembers(v, keys, 1)
  {
    SortedKeysMembers(v.fields.Keys, keys);
  }

  lemma {:induction false} ObjectBack(v: Json, keys: seq<string>, rest: string)
    requires v.Obj? && multiset(keys) == multiset(v.fields.Keys)
    ensures ParseValue("{" + PrintMembers(v, keys, 0) + "}" + rest) == Some((v, rest))
    decreases v, |keys| + 1
  {
    hide Print, Escape, EscapeAll, ParseScalar;
    OpenBack(PrintMembers(v, keys, 0) + "}" + rest);
    Regroup("{", PrintMembers(v, keys, 0), "", "}", rest);
    FieldsAll(v, keys);
    if keys == [] {
      assert PrintMembers(v, keys, 0) + "}" + rest == "}" + rest;
      assert ("}" + rest)[1..] == rest;
    } else {
      FirstMember(v, keys);
      MembersBack(v, keys, 0, rest);
    }
  }

  /** The members printed from position i on. */
  ghost function FieldsFrom(v: Json, keys: seq<string>, i: nat): map<string, Json>
    requires v.Obj? && i <= |keys|
  {
    map k | k in v.fields && k in keys[i..] :: v.fields[k]
  }

  lemma FieldsAll(v: Json, keys: seq<string>)
    requires v.Obj? && multiset(keys) == multiset(v.fields.Keys)
    ensures FieldsFrom(v, keys, 0) == v.fields
    ensures keys == [] ==> v.fields == map[]
  {
    SortedKeysMembers(v.fields.Keys, keys);
    assert keys[0..] == keys;
  }

  lemma FieldsStep(v: Json, keys: seq<string>, i: nat)
    requires v.Obj? && i < |keys| && keys[i] in v.fields
    ensures FieldsFrom(v, keys, i) == map[keys[i] := v.fields[keys[i]]] + FieldsFrom(v, keys, i + 1)
    ensures i + 1 == |keys| ==> FieldsFrom(v, keys, i) == map[keys[i] := v.fields[keys[i]]]
  {
    assert keys[i..] == [keys[i]] + keys[i + 1..];
  }

  lemma {:induction false} MembersBack(v: Json, keys: seq<string>, i: nat, rest: string)
    requires v.Obj? && i < |keys| && multiset(keys) == multiset(v.fields.Keys)
    ensures keys[i] in v.fields
    ensures ParseMembers(Member(keys[i], v.fields[keys[i]]) + PrintMembers(v, keys, i + 1) + "}" + rest)
         == Some((FieldsFrom(v, keys, i), rest))
    decreases v, |keys| - i
  {
    SortedKeysMembers(v.fields.Keys, keys);
    var k := keys[i];
    var x := v.fields[k];
    var s := Member(k, x) + PrintMembers(v, keys, i + 1) + "}" + rest;
    FieldsStep(v, keys, i);
    if i + 1 == |keys| {
      assert PrintMembers(v, keys, i + 1) == "";
      assert s == Member(k, x) + ("}" + rest) by { Regroup(Member(k, x), "", "", "}", rest); }
      PrintBack(x, "}" + rest);
      MemberBack(k, x, '}', rest);
    } else {
      var k', x' := keys[i + 1], v.fields[keys[i + 1]];
      var tail := Member(k', x') + PrintMembers(v, keys, i + 2) + "}" + rest;
      assert PrintMembers(v, keys, i + 1) == "," + Member(k', x') + PrintMembers(v, keys, i + 2);
      assert s == Member(k, x) + ("," + tail) by {
        Regroup(Member(k, x), Member(k', x'), PrintMembers(v, keys, i + 2), "}", rest);
      }
      PrintBack(x, "," + tail);
      MembersBack(v, keys, i + 1, rest);
      MemberBack(k, x, ',', tail);
    }
  }

  lemma MemberBack(k: string, v: Json, c: char, tail: string)
    requires ParseValue(Print(v) + ([c] + tail)) == Some((v, [c] + tail))
    ensures c == '}' ==> ParseMembers(Member(k, v) + ([c] + tail)) == Some((map[k := v], tail))
    ensures c == ',' && ParseMembers(tail).Some? ==>
      ParseMembers(Member(k, v) + ([c] + tail))
      == Some((map[k := v] + ParseMembers(tail).value.0, ParseMembers(tail).value.1))
  {
    var text := Print(v) + ([c] + tail);
    var s := Member(k, v) + ([c] + tail);
    assert s == "\"" + (EscapeAll(k) + "\"" + (":" + text)) by {
      RegroupMember(EscapeAll(k), Print(v), [c] + tail);
    }
    assert s[1..] == EscapeAll(k) + "\"" + (":" + text);
    QuoteBack(k, ":" + text);
    MembersStep(s, k, text, v, c, tail);
  }

  /** Canonical texts are uniquely readable: whatever delimited text follows them, equal
      texts come from equal values and break off at the same place. */
  lemma UniquelyReadable(v: Json, w: Json, s: string, t: string)
    requires Print(v) + s == Print(w) + t
    requires v.Num? ==> Delimited(s)
    requires w.Num? ==> Delimited(t)
    ensures v == w && s == t
  {
    PrintBack(v, s);
    PrintBack(w, t);
  }

  lemma PrintInjective(v: Json, w: Json)
    ensures Print(v) == Print(w) <==> v == w
  {
    if Print(v) == Print(w) {
      assert Print(v) + "" == Print(w) + "";
      UniquelyReadable(v, w, "", "");
    }
  }

  // ----- writing the text -----

  /** bytes.Buffer */
  class Buffer {
    var content: string

    constructor ()
      ensures content == ""
    {
      content := "";
    }

    method Write(s: string)
      modifies this
      ensures content == old(content) + s
    {
      content := content + s;
    }
  }

  /** The keys of a map in whatever order the runtime enumerates them, then sorted. */
  method CollectKeys(fields: map<string, Json>) returns (keys: seq<string>)
    ensures keys == SortedKeys(fields.Keys)
  {
    var pending := fields.Keys;
    keys := [];
    while pending != {}
      invariant pending <= fields.Keys
      invariant multiset(keys) == multiset(fields.Keys - pending)
      decreases pending
    {
      var k :| k in pending;
      keys := keys + [k];
      assert fields.Keys - (pending - {k}) == (fields.Keys - pending) + {k};
      pending := pending - {k};
    }
    assert fields.Keys - {} == fields.Keys;
    keys := Sort(keys);
    SortedUnique(keys, SortedKeys(fields.Keys));
  }

  method Canonical(v: Json, buf: Buffer)
    modifies buf
    ensures buf.content == old(buf.content) + Print(v)
    decreases v
  {
    match v {
      case Null => buf.Write("null");
      case Bool(b) => if b { buf.Write("true"); } else { buf.Write("false"); }
      case Num(token) => buf.Write(token);
      case Str(s) => buf.Write(Quote(s));
      case Arr(items) => CanonicalArray(v, buf);
      case Obj(fields) => CanonicalObject(v, buf);
    }
  }

  method CanonicalArray(v: Json, buf: Buffer)
    requires v.Arr?
    modifies buf
    ensures buf.content == old(buf.content) + Print(v)
    decreases v, 0
  {
    ghost var before := buf.content;
    buf.Write("[");
    for i := 0 to |v.items|
      invariant buf.content + PrintItems(v, i) == before + "[" + PrintItems(v, 0)
    {
      ghost var start := buf.content;
      if i > 0 {
        buf.Write(",");
      }
      Canonical(v.items[i], buf);
      Appended(start, if i > 0 then "," else "", Print(v.items[i]), PrintItems(v, i + 1));
    }
    buf.Write("]");
    Appended(before, "[", PrintItems(v, 0), "]");
  }

  method CanonicalObject(v: Json, buf: Buffer)
    requires v.Obj?
    modifies buf
    ensures buf.content == old(buf.content) + Print(v)
    decreases v, 0
  {
    ghost var before := buf.content;
    var keys := CollectKeys(v.fields);
    SortedKeysMembers(v.fields.Keys, keys);
    buf.Write("{");
    for i := 0 to |keys|
      invariant buf.content + PrintMembers(v, keys, i) == before + "{" + PrintMembers(v, keys, 0)
    {
      ghost var start := buf.content;
      if i > 0 {
        buf.Write(",");
      }
      CanonicalMember(keys[i], v.fields[keys[i]], v, buf);
      Appended(start, if i > 0 then "," else "", Member(keys[i], v.fields[keys[i]]), PrintMembers(v, keys, i + 1));
    }
    buf.Write("}");
    Appended(before, "{", PrintMembers(v, keys, 0), "}");
  }

  method CanonicalMember(key: string, member: Json, ghost v: Json, buf: Buffer)
    requires v.Obj? && key in v.fields && v.fields[key] == member
    modifies buf
    ensures buf.content == old(buf.content) + Member(key, member)
    decreases v, 0, 0
  {
    buf.Write(Quote(key));
    buf.Write(":");
    Canonical(member, buf);
  }

  lemma Appended(before: string, sep: string, text: string, rest: string)
    ensures before + sep + text + rest == before + (sep + text + rest)
    ensures sep == "" ==> before + text + rest == before + (sep + text + rest)
  {}

  // ----- the content hash -----

  /** What is hashed: the value without its own top-level hash field. */
  ghost function WithoutHash(v: Json): Json {
    if v.Obj? then Obj(v.fields - {HASH_FIELD}) else v
  }

  ghost function HashOf(sha: string -> string, v: Json): string {
    PREFIX + sha(Print(WithoutHash(v)))
  }

  method Canonicalize(v: Json) returns (text: string)
    ensures text == Print(WithoutHash(v))
  {
    var generic := v;
    if generic.Obj? {
      generic := Obj(generic.fields - {HASH_FIELD});
    }
    var buf := new Buffer();
    Canonical(generic, buf);
    text := buf.content;
  }

  method Compute(sha: string -> string, v: Json) returns (hash: string)
    ensures hash == HashOf(sha, v)
  {
    var text := Canonicalize(v);
    hash := PREFIX + sha(text);
  }

  method Verify(sha: string -> string, v: Json, expected: string) returns (ok: bool)
    ensures ok <==> expected == HashOf(sha, v)
  {
    var got := Compute(sha, v);
    ok := got == expected;
  }

  ghost predicate Collision(sha: string -> string, x: string, y: string) {
    x != y && sha(x) == sha(y)
  }

  /** v verifies against the hash of w exactly when the two agree on everything but the
      top-level hash field, or their texts are a collision of the hash function. */
  lemma VerifiesIff(sha: string -> string, v: Json, w: Json)
    ensures HashOf(sha, v) == HashOf(sha, w) <==>
      (WithoutHash(v) == WithoutHash(w) || Collision(sha, Print(WithoutHash(v)), Print(WithoutHash(w))))
  {
    PrintInjective(WithoutHash(v), WithoutHash(w));
    var x, y := sha(Print(WithoutHash(v))), sha(Print(WithoutHash(w)));
    if PREFIX + x == PREFIX + y {
      assert (PREFIX + x)[|PREFIX|..] == x && (PREFIX + y)[|PREFIX|..] == y;
    }
  }

  // ----- stamping (internal/shortform/artifacts.go) -----

  ghost function StampedFields(sha: string -> string, fields: map<string, Json>): map<string, Json> {
    fields[HASH_FIELD := Str(HashOf(sha, Obj(fields)))]
  }

  /** An artifact as its JSON fields; the envelope's content_hash is one of them. */
  class Artifact {
    var fields: map<string, Json>

    constructor (fields: map<string, Json>)
      ensures this.fields == fields
    {
      this.fields := fields;
    }

    method Stamp(sha: string -> string)
      modifies this
      ensures fields == StampedFields(sha, old(fields))
    {
      var hash := Compute(sha, Obj(fields));
      fields := fields[HASH_FIELD := Str(hash)];
    }
  }

  lemma RestOfUpdate(m: map<string, Json>, k: string, x: Json)
    ensures m[k := x] - {k} == m - {k}
  {}

  lemma RestDetermines(m: map<string, Json>, n: map<string, Json>, k: string)
    requires k in m && k in n && m[k] == n[k]
    ensures m - {k} == n - {k} <==> m == n
  {
    if m - {k} == n - {k} {
      assert m == (m - {k})[k := m[k]];
      assert n == (n - {k})[k := n[k]];
    }
  }

  lemma HashSkipsItself(sha: string -> string, fields: map<string, Json>, x: Json)
    ensures WithoutHash(Obj(fields[HASH_FIELD := x])) == WithoutHash(Obj(fields))
    ensures HashOf(sha, Obj(fields[HASH_FIELD := x])) == HashOf(sha, Obj(fields))
  {
    RestOfUpdate(fields, HASH_FIELD, x);
  }

  /** Stamping keeps every other field, a stamped artifact verifies against the hash it
      carries, and stamping it again changes nothing. */
  lemma StampStable(sha: string -> string, fields: map<string, Json>)
    ensures var stamped := StampedFields(sha, fields);
      && stamped - {HASH_FIELD} == fields - {HASH_FIELD}
      && stamped[HASH_FIELD] == Str(HashOf(sha, Obj(stamped)))
      && StampedFields(sha, stamped) == stamped
  {
    var hash := Str(HashOf(sha, Obj(fields)));
    HashSkipsItself(sha, fields, hash);
    RestOfUpdate(fields, HASH_FIELD, hash);
  }

  /** Any artifact carrying the hash of a stamped one verifies exactly when it is that
      artifact, unless the hash function collides on the two. */
  lemma TamperingDetected(sha: string -> string, fields: map<string, Json>, tampered: map<string, Json>)
    requires HASH_FIELD in tampered && tampered[HASH_FIELD] == StampedFields(sha, fields)[HASH_FIELD]
    requires !Collision(sha, Print(WithoutHash(Obj(tampered))), Print(WithoutHash(Obj(fields))))
    ensures tampered[HASH_FIELD] == Str(HashOf(sha, Obj(tampered))) <==> tampered == StampedFields(sha, fields)
  {
    var hash := Str(HashOf(sha, Obj(fields)));
    VerifiesIff(sha, Obj(tampered), Obj(fields));
    RestOfUpdate(fields, HASH_FIELD, hash);
    RestDetermines(tampered, fields[HASH_FIELD := hash], HASH_FIELD);
  }
}
