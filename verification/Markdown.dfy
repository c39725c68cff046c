/** The script splitting that internal/claims and internal/storyboard each carry: fences,
    headings, list prefixes and sentence ends. */
module Markdown {
  import opened Text

  /** strings.ToLower, as a map on characters. */
  type Lowering = char -> char

  function ToLower(lower: Lowering, s: string): (r: string)
    ensures |r| == |s|
  {
    seq(|s|, i requires 0 <= i < |s| => lower(s[i]))
  }

  /** The white space of a Go regular expression. */
  predicate IsRegexpSpace(c: char) {
    c == ' ' || c == '\t' || c == '\n' || c == '\r' || c == '\U{C}'
  }

  /** How many digits a string begins with. */
  function DigitsLength(s: string): (n: nat)
    ensures n <= |s| && forall i | 0 <= i < n :: IsDigit(s[i])
  {
    if s == "" || !IsDigit(s[0]) then 0 else 1 + DigitsLength(s[1..])
  }

  /** listPrefix: "-" or "*", or digits followed by "." or ")", and then white space. */
  function StripMarkdownPrefix(line: string): string {
    var n := DigitsLength(line);
    var marker :=
      if line != "" && (line[0] == '-' || line[0] == '*') then 1
      else if 0 < n < |line| && (line[n] == '.' || line[n] == ')') then n + 1
      else 0;
    if marker == 0 || marker == |line| || !IsRegexpSpace(line[marker]) then line
    else TrimLeft(line[marker..], IsRegexpSpace)
  }

  function DropTicks(s: string): string {
    if s == "" then "" else (if s[0] == '`' then "" else [s[0]]) + DropTicks(s[1..])
  }

  function Clean(line: string): string {
    TrimSpace(DropTicks(StripMarkdownPrefix(line)))
  }

  /** The characters that are trimmed from a sentence. */
  predicate IsMark(c: char) {
    c == '-' || c == '*' || c == ' '
  }

  predicate IsFence(line: string) {
    HasPrefix(line, "```")
  }

  /** A trimmed line outside a fence that holds prose. */
  predicate IsProse(line: string) {
    line != "" && !HasPrefix(line, "#") && Clean(line) != ""
  }

  /** inFence after some lines. */
  function InFence(lines: seq<string>): bool {
    if lines == [] then false
    else InFence(lines[..|lines| - 1]) != IsFence(TrimSpace(lines[|lines| - 1]))
  }

  /** A rune ends a sentence when it is a full stop, an exclamation or a question mark at the
      end of the line or before a blank. */
  predicate IsSentenceEnd(line: string, i: nat)
    requires i < |line|
  {
    (line[i] == '.' || line[i] == '!' || line[i] == '?') &&
    (i + 1 < |line| ==> line[i + 1] == ' ' || line[i + 1] == '\t')
  }

  /** The sentences that end before position i. */
  function Ended(line: string, i: nat): (parts: seq<string>)
    requires i <= |line|
  {
    if i == 0 then []
    else if IsSentenceEnd(line, i - 1) then Ended(line, i - 1) + [line[LastEnd(line, i - 1)..i]]
    else Ended(line, i - 1)
  }

  /** Where the last sentence that ends before position i ends. */
  function LastEnd(line: string, i: nat): (n: nat)
    requires i <= |line|
    ensures n <= i
  {
    if i == 0 then 0 else if IsSentenceEnd(line, i - 1) then i else LastEnd(line, i - 1)
  }

  function Sentences(line: string): seq<string> {
    var rest := line[LastEnd(line, |line|)..];
    var parts := Ended(line, |line|) + (if rest != "" then [rest] else []);
    if parts == [] then [line] else parts
  }

  method SplitSentenceLine(line: string) returns (parts: seq<string>)
    ensures parts == Sentences(line)
  {
    parts := [];
    var start := 0;
    for i := 0 to |line|
      invariant start == LastEnd(line, i)
      invariant parts == Ended(line, i)
    {
      if line[i] != '.' && line[i] != '!' && line[i] != '?' {
        continue;
      }
      if i + 1 < |line| && line[i + 1] != ' ' && line[i + 1] != '\t' {
        continue;
      }
      parts := parts + [line[start..i + 1]];
      start := i + 1;
    }
    if start < |line| {
      parts := parts + [line[start..]];
    }
    if |parts| == 0 {
      parts := [line];
    }
  }

  function Concat(parts: seq<string>): string {
    if parts == [] then "" else Concat(parts[..|parts| - 1]) + parts[|parts| - 1]
  }

  lemma ConcatAppend(parts: seq<string>, s: string)
    ensures Concat(parts + [s]) == Concat(parts) + s
  {
    assert (parts + [s])[..|parts|] == parts;
  }

  lemma {:induction false} EndedJoins(line: string, i: nat)
    requires i <= |line|
    ensures Concat(Ended(line, i)) == line[..LastEnd(line, i)]
  {
    if i > 0 {
      EndedJoins(line, i - 1);
      if IsSentenceEnd(line, i - 1) {
        ConcatAppend(Ended(line, i - 1), line[LastEnd(line, i - 1)..i]);
      }
    }
  }

  /** Splitting loses no character: the sentences of a line, put together, are the line. */
  lemma SentencesJoin(line: string)
    ensures Concat(Sentences(line)) == line
  {
    EndedJoins(line, |line|);
    var n := LastEnd(line, |line|);
    var ended, rest := Ended(line, |line|), line[n..];
    ConcatAppend(ended, rest);
    ConcatAppend([], line);
    assert line == line[..n] + rest;
    assert ended + [] == ended && [] + [line] == [line];
  }

  /** dedupe: the first of every group of strings that are equal in lower case. */
  function Dedupe(lower: Lowering, items: seq<string>): seq<string> {
    if items == [] then []
    else
      var front, last := items[..|items| - 1], items[|items| - 1];
      Dedupe(lower, front) + (if SeenIn(lower, front, ToLower(lower, last)) then [] else [last])
  }

  predicate SeenIn(lower: Lowering, items: seq<string>, key: string) {
    exists i | 0 <= i < |items| :: ToLower(lower, items[i]) == key
  }

  method DedupeItems(lower: Lowering, items: seq<string>) returns (out: seq<string>)
    ensures out == Dedupe(lower, items)
  {
    var seen: map<string, bool> := map[];
    out := [];
    for i := 0 to |items|
      invariant out == Dedupe(lower, items[..i])
      invariant forall key :: key in seen <==> SeenIn(lower, items[..i], key)
    {
      var key := ToLower(lower, items[i]);
      SeenStep(lower, items[..i], items[i]);
      assert items[..i + 1] == items[..i] + [items[i]];
      if key in seen {
        continue;
      }
      seen := seen[key := true];
      out := out + [items[i]];
    }
    assert items[..|items|] == items;
  }

  lemma SeenStep(lower: Lowering, items: seq<string>, item: string)
    ensures forall key :: SeenIn(lower, items + [item], key) <==>
      SeenIn(lower, items, key) || key == ToLower(lower, item)
    ensures Dedupe(lower, items + [item]) ==
      Dedupe(lower, items) + (if SeenIn(lower, items, ToLower(lower, item)) then [] else [item])
  {
    var all := items + [item];
    assert all[..|items|] == items;
    assert all[|items|] == item;
    forall key
      ensures SeenIn(lower, all, key) <==> SeenIn(lower, items, key) || key == ToLower(lower, item)
    {
      if SeenIn(lower, items, key) {
        var i :| 0 <= i < |items| && ToLower(lower, items[i]) == key;
        assert all[i] == items[i];
      }
    }
  }

  lemma {:induction false} DedupeMembers(lower: Lowering, items: seq<string>)
    ensures forall x | x in Dedupe(lower, items) :: x in items
    ensures items != [] ==> Dedupe(lower, items) != []
  {
    if items != [] {
      DedupeMembers(lower, items[..|items| - 1]);
    }
  }

  // ----- a whole script -----

  /** The parts of a line that are not empty once normalized. The two packages differ in
      how they normalize a part. */
  function NormalizedParts(normalize: string -> string, parts: seq<string>): seq<string> {
    if parts == [] then []
    else
      var n := normalize(parts[|parts| - 1]);
      NormalizedParts(normalize, parts[..|parts| - 1]) + (if n != "" then [n] else [])
  }

  /** The parts of the prose lines outside fences. */
  function LineParts(normalize: string -> string, lines: seq<string>): seq<string> {
    if lines == [] then []
    else
      var front, line := lines[..|lines| - 1], TrimSpace(lines[|lines| - 1]);
      LineParts(normalize, front) +
      (if IsFence(line) || InFence(front) || !IsProse(line) then []
       else NormalizedParts(normalize, Sentences(Clean(line))))
  }

  function ScriptParts(lower: Lowering, normalize: string -> string, script: string): seq<string> {
    Dedupe(lower, LineParts(normalize, Split(script, '\n')))
  }

  method SplitScript(lower: Lowering, normalize: string -> string, script: string) returns (parts: seq<string>)
    ensures parts == ScriptParts(lower, normalize, script)
  {
    hide IsProse, Clean, TrimSpace, Sentences, NormalizedParts, Split, Dedupe;
    var lines := Split(script, '\n');
    var raw := [];
    var inFence := false;
    for i := 0 to |lines|
      invariant inFence == InFence(lines[..i])
      invariant raw == LineParts(normalize, lines[..i])
    {
      assert lines[..i + 1][..i] == lines[..i];
      var line := TrimSpace(lines[i]);
      if IsFence(line) {
        inFence := !inFence;
        continue;
      }
      if inFence || !IsProse(line) {
        continue;
      }
      var found := SplitLine(normalize, Clean(line));
      raw := raw + found;
    }
    assert lines[..|lines|] == lines;
    parts := DedupeItems(lower, raw);
  }

  method SplitLine(normalize: string -> string, line: string) returns (found: seq<string>)
    ensures found == NormalizedParts(normalize, Sentences(line))
  {
    var parts := SplitSentenceLine(line);
    found := [];
    for j := 0 to |parts|
      invariant found == NormalizedParts(normalize, parts[..j])
    {
      assert parts[..j + 1][..j] == parts[..j];
      var normalized := normalize(parts[j]);
      if normalized != "" {
        found := found + [normalized];
      }
    }
    assert parts[..|parts|] == parts;
  }

  lemma {:induction false} SamePartsOfLine(f: string -> string, g: string -> string, parts: seq<string>)
    requires forall s :: f(s) == g(s)
    ensures NormalizedParts(f, parts) == NormalizedParts(g, parts)
  {
    if parts != [] {
      SamePartsOfLine(f, g, parts[..|parts| - 1]);
    }
  }

  /** Splitters that normalize alike find the same parts in every script. */
  lemma {:induction false} SameParts(f: string -> string, g: string -> string, lines: seq<string>)
    requires forall s :: f(s) == g(s)
    ensures LineParts(f, lines) == LineParts(g, lines)
  {
    if lines != [] {
      SameParts(f, g, lines[..|lines| - 1]);
      SamePartsOfLine(f, g, Sentences(Clean(TrimSpace(lines[|lines| - 1]))));
    }
  }
}
