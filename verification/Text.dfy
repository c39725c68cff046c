/** Go's string helpers as the pipeline uses them: trimming, searching, the byte
    order of sort.Strings, and decimal numerals. A string is a sequence of Unicode
    scalar values, whose order agrees with the byte order of their UTF-8 form. */
module Text {

  // ----- white space -----

  /** unicode.IsSpace */
  predicate IsSpace(c: char) {
    || '\t' <= c <= '\r'
    || c == ' ' || c == '\U{85}' || c == '\U{A0}' || c == '\U{1680}'
    || '\U{2000}' <= c <= '\U{200A}'
    || c == '\U{2028}' || c == '\U{2029}' || c == '\U{202F}' || c == '\U{205F}' || c == '\U{3000}'
  }

  /** Drops the longest prefix whose characters all satisfy p. */
  function TrimLeft(s: string, p: char -> bool): (r: string)
    ensures |r| <= |s| && r == s[|s| - |r|..]
    ensures r != "" ==> !p(r[0])
    ensures forall i | 0 <= i < |s| - |r| :: p(s[i])
  {
    if s == "" || !p(s[0]) then s else TrimLeft(s[1..], p)
  }

  /** Drops the longest suffix whose characters all satisfy p. */
  function TrimRight(s: string, p: char -> bool): (r: string)
    ensures |r| <= |s| && r == s[..|r|]
    ensures r != "" ==> !p(r[|r| - 1])
    ensures forall i | |r| <= i < |s| :: p(s[i])
  {
    if s == "" || !p(s[|s| - 1]) then s else TrimRight(s[..|s| - 1], p)
  }

  /** strings.TrimFunc, of which strings.TrimSpace and strings.Trim are instances. */
  function Trim(s: string, p: char -> bool): (r: string)
    ensures r != "" ==> !p(r[0]) && !p(r[|r| - 1])
  {
    TrimRight(TrimLeft(s, p), p)
  }

  function TrimSpace(s: string): string {
    Trim(s, IsSpace)
  }

  /** gates.present and the many TrimSpace(x) != "" tests. */
  predicate Present(s: string) {
    TrimSpace(s) != ""
  }

  lemma TrimFixed(s: string, p: char -> bool)
    requires s != "" ==> !p(s[0]) && !p(s[|s| - 1])
    ensures Trim(s, p) == s
  {}

  /** Trimming twice changes nothing more. */
  lemma TrimIdempotent(s: string, p: char -> bool)
    ensures Trim(Trim(s, p), p) == Trim(s, p)
  {
    TrimFixed(Trim(s, p), p);
  }

  /** A string holds some non-space character exactly when it is present. */
  lemma PresentIff(s: string)
    ensures Present(s) <==> exists i :: 0 <= i < |s| && !IsSpace(s[i])
  {
    var l := TrimLeft(s, IsSpace);
    var r := TrimRight(l, IsSpace);
    if r == "" {
      forall i | 0 <= i < |s|
        ensures IsSpace(s[i])
      {
        if i >= |s| - |l| {
          assert s[i] == l[i - (|s| - |l|)];
        }
      }
    } else {
      assert r[0] == l[0] == s[|s| - |l|];
    }
  }

  lemma PresentAt(s: string, i: nat)
    requires i < |s| && !IsSpace(s[i])
    ensures Present(s)
  {
    hide TrimSpace;
    PresentIff(s);
  }

  lemma PresentWord(s: string)
    requires s != "" && 'a' <= s[0] <= 'z'
    ensures Present(s)
  {
    hide TrimSpace;
    PresentAt(s, 0);
  }

  // ----- searching -----

  predicate HasPrefix(s: string, prefix: string) {
    prefix <= s
  }

  function TrimSuffix(s: string, suffix: string): string {
    if |suffix| <= |s| && s[|s| - |suffix|..] == suffix then s[..|s| - |suffix|] else s
  }

  /** strings.Contains */
  predicate Contains(s: string, needle: string) {
    exists i | 0 <= i <= |s| :: HasPrefix(s[i..], needle)
  }

  predicate ContainsAny(s: string, needles: seq<string>) {
    exists i | 0 <= i < |needles| :: Contains(s, needles[i])
  }

  lemma ContainsSelf(s: string)
    ensures Contains(s, s)
  {
    assert s[0..] == s;
    assert HasPrefix(s[0..], s);
  }

  function Split(s: string, sep: char): (parts: seq<string>)
    ensures |parts| > 0
  {
    if s == "" then [""]
    else if s[0] == sep then [""] + Split(s[1..], sep)
    else
      var rest := Split(s[1..], sep);
      [[s[0]] + rest[0]] + rest[1..]
  }

  lemma {:induction false} SplitNone(s: string, sep: char)
    requires sep !in s
    ensures Split(s, sep) == [s]
  {
    if s != "" {
      SplitNone(s[1..], sep);
      assert [s[0]] + s[1..] == s;
    }
  }

  lemma {:induction false} SplitOnce(a: string, b: string, sep: char)
    requires sep !in a && sep !in b
    ensures Split(a + [sep] + b, sep) == [a, b]
  {
    var s := a + [sep] + b;
    if a == "" {
      assert s[1..] == b;
      SplitNone(b, sep);
    } else {
      assert s[1..] == a[1..] + [sep] + b;
      SplitOnce(a[1..], b, sep);
      assert [a[0]] + a[1..] == a;
    }
  }

  // ----- order -----

  /** The order of sort.Strings. */
  predicate StrLe(a: string, b: string) {
    a == "" || (b != "" && (a[0] < b[0] || (a[0] == b[0] && StrLe(a[1..], b[1..]))))
  }

  lemma {:induction false} StrLeTotal(a: string, b: string)
    ensures StrLe(a, b) || StrLe(b, a)
  {
    if a != "" && b != "" && a[0] == b[0] {
      StrLeTotal(a[1..], b[1..]);
    }
  }

  lemma {:induction false} StrLeAntisymmetric(a: string, b: string)
    requires StrLe(a, b) && StrLe(b, a)
    ensures a == b
  {
    if a != "" && b != "" {
      StrLeAntisymmetric(a[1..], b[1..]);
      assert a == [a[0]] + a[1..] && b == [b[0]] + b[1..];
    }
  }

  lemma {:induction false} StrLeTransitive(a: string, b: string, c: string)
    requires StrLe(a, b) && StrLe(b, c)
    ensures StrLe(a, c)
  {
    if a != "" && b != "" && a[0] == b[0] == c[0] {
      StrLeTransitive(a[1..], b[1..], c[1..]);
    }
  }

  predicate Sorted(s: seq<string>) {
    forall i, j :: 0 <= i < j < |s| ==> StrLe(s[i], s[j])
  }

  function Insert(x: string, s: seq<string>): (r: seq<string>)
    requires Sorted(s)
    ensures Sorted(r) && multiset(r) == multiset(s) + multiset{x}
  {
    if s == [] then [x]
    else if StrLe(x, s[0]) then
      assert forall j :: 0 <= j < |s| ==> StrLe(x, s[j]) by {
        forall j | 0 < j < |s| { StrLeTransitive(x, s[0], s[j]); }
      }
      [x] + s
    else
      var rest := Insert(x, s[1..]);
      assert s == [s[0]] + s[1..];
      assert forall j :: 0 <= j < |rest| ==> StrLe(s[0], rest[j]) by {
        StrLeTotal(x, s[0]);
        forall j | 0 <= j < |rest|
          ensures StrLe(s[0], rest[j])
        {
          assert rest[j] in multiset(rest);
          assert rest[j] == x || rest[j] in s[1..];
        }
      }
      [s[0]] + rest
  }

  /** sort.Strings */
  function Sort(s: seq<string>): (r: seq<string>)
    ensures Sorted(r) && multiset(r) == multiset(s)
  {
    if s == [] then []
    else
      assert s == [s[0]] + s[1..];
      Insert(s[0], Sort(s[1..]))
  }

  /** A multiset of strings has one sorted listing. */
  lemma {:induction false} SortedUnique(a: seq<string>, b: seq<string>)
    requires Sorted(a) && Sorted(b) && multiset(a) == multiset(b)
    ensures a == b
  {
    if a == [] {
      assert b == [] by {
        assert |multiset(b)| == |b|;
      }
    } else {
      assert b != [] by {
        assert a[0] in multiset(a);
      }
      SortedHead(a, b);
      assert a == [a[0]] + a[1..] && b == [b[0]] + b[1..];
      assert multiset(a[1..]) == multiset(a) - multiset{a[0]};
      assert multiset(b[1..]) == multiset(b) - multiset{b[0]};
      SortedUnique(a[1..], b[1..]);
    }
  }

  lemma SortedHead(a: seq<string>, b: seq<string>)
    requires a != [] && b != [] && Sorted(a) && Sorted(b) && multiset(a) == multiset(b)
    ensures a[0] == b[0]
  {
    assert a[0] in multiset(b) && b[0] in multiset(a);
    var i :| 0 <= i < |b| && b[i] == a[0];
    var j :| 0 <= j < |a| && a[j] == b[0];
    StrLeTotal(a[0], a[0]);
    StrLeTotal(b[0], b[0]);
    StrLeAntisymmetric(a[0], b[0]);
  }

  /** Sorting forgets the order in which the strings were collected. */
  lemma SortCanonical(a: seq<string>, b: seq<string>)
    requires multiset(a) == multiset(b)
    ensures Sort(a) == Sort(b)
  {
    SortedUnique(Sort(a), Sort(b));
  }

  lemma SortMembers(s: seq<string>, x: string)
    ensures x in Sort(s) <==> x in s
  {
    assert x in Sort(s) <==> x in multiset(Sort(s));
    assert x in s <==> x in multiset(s);
  }

  lemma {:induction false} SubsetSize(a: set<string>, b: set<string>)
    requires a <= b
    ensures |a| <= |b|
  {
    if a != {} {
      var x :| x in a;
      SubsetSize(a - {x}, b - {x});
    }
  }

  // ----- decimal numerals -----

  predicate IsDigit(c: char) {
    '0' <= c <= '9'
  }

  function DigitValue(c: char): (d: int)
    requires IsDigit(c)
    ensures 0 <= d < 10
  {
    c as int - '0' as int
  }

  function DigitChar(d: int): (c: char)
    requires 0 <= d < 10
    ensures IsDigit(c) && DigitValue(c) == d
  {
    ('0' as int + d) as char
  }

  /** strconv.Itoa on a natural number; the verb %d. */
  function Decimal(n: nat): (s: string)
    ensures s != "" && forall i :: 0 <= i < |s| ==> IsDigit(s[i])
    decreases n
  {
    if n < 10 then [DigitChar(n)] else Decimal(n / 10) + [DigitChar(n % 10)]
  }

  /** The verb %0<width>d. */
  function Padded(n: nat, width: nat): (s: string)
    ensures s != "" && forall i :: 0 <= i < |s| ==> IsDigit(s[i])
  {
    var s := Decimal(n);
    seq(if |s| < width then width - |s| else 0, _ => '0') + s
  }

  /** The number a string of digits spells. */
  function Value(s: string): nat
    requires forall i :: 0 <= i < |s| ==> IsDigit(s[i])
  {
    if s == "" then 0 else 10 * Value(s[..|s| - 1]) + DigitValue(s[|s| - 1])
  }

  lemma {:induction false} ValueOfDecimal(n: nat)
    ensures Value(Decimal(n)) == n
    decreases n
  {
    var s := Decimal(n);
    if n >= 10 {
      assert s[..|s| - 1] == Decimal(n / 10);
      ValueOfDecimal(n / 10);
    } else {
      assert s[..|s| - 1] == "";
    }
  }

  lemma {:induction false} ValueZeros(k: nat, s: string)
    requires forall i :: 0 <= i < |s| ==> IsDigit(s[i])
    ensures Value(seq(k, _ => '0') + s) == Value(s)
    decreases k + |s|
  {
    var z := seq(k, _ => '0');
    var t := z + s;
    if s != "" {
      assert t[..|t| - 1] == z + s[..|s| - 1];
      ValueZeros(k, s[..|s| - 1]);
    } else if k > 0 {
      assert t[..|t| - 1] == seq(k - 1, _ => '0') + "";
      ValueZeros(k - 1, "");
    }
  }

  lemma ValueOfPadded(n: nat, width: nat)
    ensures Value(Padded(n, width)) == n
  {
    var s := Decimal(n);
    ValueZeros(if |s| < width then width - |s| else 0, s);
    ValueOfDecimal(n);
  }
}
