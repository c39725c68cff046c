/** internal/render/preview.go: what the preview renderer reads off a storyboard. */
module Preview {
  import opened Text
  import opened Json
  import opened Markdown
  import opened Storyboard
  import Claims

  // ----- reading a clock -----

  /** The number a string begins with, and what is left of it. */
  function ScanDigits(s: string): Option<(nat, string)> {
    var n := DigitsLength(s);
    if n == 0 then None else Some((Value(s[..n]), s[n..]))
  }

  function SkipSpace(s: string): string {
    TrimLeft(s, IsBlank)
  }

  /** White space but for the line break, which a scan does not skip. */
  predicate IsBlank(c: char) {
    IsSpace(c) && c != '\n'
  }

  /** The verb %d of fmt.Sscanf: white space, a sign, digits; and what is left to scan. */
  function ScanInt(s: string): Option<(int, string)> {
    var t := SkipSpace(s);
    if t != "" && t[0] == '-' then
      match ScanDigits(t[1..])
      case None => None
      case Some((v, rest)) => Some((-(v as int), rest))
    else ScanDigits(if t != "" && t[0] == '+' then t[1..] else t)
  }

  /** fmt.Sscanf with the format %d:%d; what follows the second number is not looked at. */
  function ScanClock(s: string): Option<int> {
    match ScanInt(s)
    case None => None
    case Some((minutes, rest)) =>
      if rest == "" || rest[0] != ':' then None
      else match ScanInt(rest[1..])
        case None => None
        case Some((seconds, _)) => Some(minutes * 60 + seconds)
  }

  function ParseClock(value: string): Option<int> {
    var v := TrimSpace(value);
    if |Split(v, ':')| != 2 then None else ScanClock(v)
  }

  function SceneDuration(target: string): int {
    var parts := Split(target, '-');
    if |parts| != 2 then 0
    else match (ParseClock(parts[0]), ParseClock(parts[1]))
      case (Some(start), Some(end)) => if end <= start then 0 else end - start
      case _ => 0
  }

  function SumDurations(scenes: seq<Scene>): int {
    if scenes == [] then 0
    else SumDurations(scenes[..|scenes| - 1]) + SceneDuration(scenes[|scenes| - 1].timeTarget)
  }

  method DurationSeconds(scenes: seq<Scene>) returns (total: int)
    ensures total == if SumDurations(scenes) == 0 then |scenes| * 8 else SumDurations(scenes)
  {
    hide SceneDuration;
    total := 0;
    for i := 0 to |scenes|
      invariant total == SumDurations(scenes[..i])
    {
      assert scenes[..i + 1][..i] == scenes[..i];
      total := total + SceneDuration(scenes[i].timeTarget);
    }
    assert scenes[..|scenes|] == scenes;
    if total == 0 {
      return |scenes| * 8;
    }
  }

  // ----- the clock reader undoes the clock printer -----

  lemma {:induction false} DigitsLengthOf(digits: string, rest: string)
    requires forall i | 0 <= i < |digits| :: IsDigit(digits[i])
    requires rest == "" || !IsDigit(rest[0])
    ensures DigitsLength(digits + rest) == |digits|
  {
    if digits == "" {
      assert digits + rest == rest;
    } else {
      assert (digits + rest)[1..] == digits[1..] + rest;
      DigitsLengthOf(digits[1..], rest);
    }
  }

  lemma NothingToSkip(s: string)
    requires s != "" && IsDigit(s[0])
    ensures SkipSpace(s) == s
  {}

  lemma ScanNumeral(digits: string, rest: string)
    requires digits != "" && forall i | 0 <= i < |digits| :: IsDigit(digits[i])
    requires rest == "" || !IsDigit(rest[0])
    ensures ScanInt(digits + rest) == Some((Value(digits), rest))
  {
    hide Value, DigitsLength, SkipSpace;
    var s := digits + rest;
    assert IsDigit(s[0]);
    NothingToSkip(s);
    DigitsLengthOf(digits, rest);
    assert s[..|digits|] == digits && s[|digits|..] == rest;
  }

  lemma ClockShape(n: nat)
    ensures TrimSpace(Clock(n)) == Clock(n) != ""
    ensures '-' !in Clock(n) && |Split(Clock(n), ':')| == 2
  {
    var minutes, seconds := Decimal(n / 60), Padded(n % 60, 2);
    var clock := Clock(n);
    assert clock == minutes + [':'] + seconds;
    SplitOnce(minutes, seconds, ':');
    assert clock[0] == minutes[0] && clock[|clock| - 1] == seconds[|seconds| - 1];
    TrimFixed(clock, IsSpace);
  }

  lemma ScanClockBack(n: nat)
    ensures ScanClock(Clock(n)) == Some(n)
  {
    hide Decimal, Padded, Value, ScanInt;
    var minutes, seconds := Decimal(n / 60), Padded(n % 60, 2);
    assert Clock(n) == minutes + (":" + seconds);
    ScanNumeral(minutes, ":" + seconds);
    assert (":" + seconds)[1..] == seconds == seconds + "";
    ScanNumeral(seconds, "");
    ValueOfDecimal(n / 60);
    ValueOfPadded(n % 60, 2);
  }

  /** What clock prints, parseClock reads. */
  lemma ClockBack(n: nat)
    ensures ParseClock(Clock(n)) == Some(n)
  {
    hide Clock, Split, TrimSpace, ScanClock;
    ClockShape(n);
    ScanClockBack(n);
  }

  lemma TargetSplit(start: nat, end: nat)
    ensures Split(TimeTarget(start, end), '-') == [Clock(start), Clock(end)]
  {
    hide Clock, Split;
    ClockShape(start);
    ClockShape(end);
    assert TimeTarget(start, end) == Clock(start) + ['-'] + Clock(end);
    SplitOnce(Clock(start), Clock(end), '-');
  }

  /** The renderer recovers the length of every interval the storyboard prints. */
  lemma IntervalBack(start: nat, end: nat)
    ensures SceneDuration(TimeTarget(start, end)) == if start < end then end - start else 0
  {
    hide TimeTarget, Clock, ParseClock, Split;
    TargetSplit(start, end);
    ClockBack(start);
    ClockBack(end);
  }

  lemma StartStep(texts: seq<string>, i: nat)
    requires i < |texts|
    ensures StartAt(texts, i + 1) - StartAt(texts, i) == EstimateDuration(texts[i], i == 0)
    ensures 6 <= StartAt(texts, i + 1) - StartAt(texts, i) <= 18
  {
    DurationBounds(texts[i], i == 0);
  }

  lemma {:induction false} DurationsUpTo(style: Style, texts: seq<string>, claims: seq<Claims.Claim>, n: nat)
    requires n <= |texts|
    ensures SumDurations(Scenes(style, texts, claims)[..n]) == StartAt(texts, n)
  {
    hide SceneDuration, SceneAt, EstimateDuration;
    if n > 0 {
      var scenes := Scenes(style, texts, claims);
      DurationsUpTo(style, texts, claims, n - 1);
      assert scenes[..n][..n - 1] == scenes[..n - 1];
      SceneTime(style, texts, claims, n - 1);
    }
  }

  lemma SceneTime(style: Style, texts: seq<string>, claims: seq<Claims.Claim>, i: nat)
    requires i < |texts|
    ensures var scene := Scenes(style, texts, claims)[i];
      && scene.timeTarget == TimeTarget(StartAt(texts, i), StartAt(texts, i + 1))
      && SceneDuration(scene.timeTarget) == StartAt(texts, i + 1) - StartAt(texts, i)
  {
    hide SceneDuration, EstimateDuration, TimeTarget;
    StartStep(texts, i);
    IntervalBack(StartAt(texts, i), StartAt(texts, i + 1));
  }

  /** Generated scenes tile the episode: scene i runs from where the one before it ends,
      from 0 on, for 6 to 18 seconds and the first for at least 8; and the total the renderer
      computes is where the last scene ends. */
  lemma ScenesTile(style: Style, texts: seq<string>, claims: seq<Claims.Claim>)
    requires texts != []
    ensures StartAt(texts, 0) == 0 && StartAt(texts, 1) >= 8
    ensures forall i | 0 <= i < |texts| ::
      && Scenes(style, texts, claims)[i].timeTarget == TimeTarget(StartAt(texts, i), StartAt(texts, i + 1))
      && 6 <= StartAt(texts, i + 1) - StartAt(texts, i) <= 18
      && SceneDuration(Scenes(style, texts, claims)[i].timeTarget) == StartAt(texts, i + 1) - StartAt(texts, i)
    ensures SumDurations(Scenes(style, texts, claims)) == StartAt(texts, |texts|) > 0
  {
    hide SceneDuration, EstimateDuration, TimeTarget, Scenes;
    DurationBounds(texts[0], true);
    StartStep(texts, 0);
    forall i | 0 <= i < |texts|
      ensures Scenes(style, texts, claims)[i].timeTarget == TimeTarget(StartAt(texts, i), StartAt(texts, i + 1))
      ensures 6 <= StartAt(texts, i + 1) - StartAt(texts, i) <= 18
      ensures SceneDuration(Scenes(style, texts, claims)[i].timeTarget) == StartAt(texts, i + 1) - StartAt(texts, i)
    {
      SceneTime(style, texts, claims, i);
      StartStep(texts, i);
    }
    DurationsUpTo(style, texts, claims, |texts|);
    assert Scenes(style, texts, claims)[..|texts|] == Scenes(style, texts, claims);
  }

  // ----- which storyboards are rendered -----

  predicate SceneOk(scene: Scene) {
    && Present(scene.id) && Present(scene.timeTarget) && Present(scene.narration)
    && Present(scene.visual.kind) && Present(scene.visual.content)
  }

  predicate Renderable(scenes: seq<Scene>) {
    && scenes != []
    && (forall i | 0 <= i < |scenes| :: SceneOk(scenes[i]))
    && (forall i, j | 0 <= i < j < |scenes| :: scenes[i].id != scenes[j].id)
  }

  method ValidateStoryboard(scenes: seq<Scene>) returns (err: Option<string>)
    ensures err.None? <==> Renderable(scenes)
  {
    hide TrimSpace;
    if |scenes| == 0 {
      return Some("storyboard must contain at least one scene");
    }
    var seen: set<string> := {};
    for i := 0 to |scenes|
      invariant forall j | 0 <= j < i :: SceneOk(scenes[j]) && scenes[j].id in seen
      invariant forall id | id in seen :: exists j | 0 <= j < i :: scenes[j].id == id
      invariant forall j, k | 0 <= j < k < i :: scenes[j].id != scenes[k].id
    {
      var scene := scenes[i];
      if !Present(scene.id) { return Some("scene_id is required"); }
      if scene.id in seen { return Some("duplicate scene_id"); }
      seen := seen + {scene.id};
      if !Present(scene.timeTarget) { return Some("time_target is required"); }
      if !Present(scene.narration) { return Some("narration is required"); }
      if !Present(scene.visual.kind) { return Some("visual.type is required"); }
      if !Present(scene.visual.content) { return Some("visual.content is required"); }
    }
    err := None;
  }

  lemma SceneIdsDiffer(i: nat, j: nat)
    requires SceneId(i) == SceneId(j)
    ensures i == j
  {
    hide Padded, Value;
    assert SceneId(i)[|"scene-"|..] == Padded(i, 3);
    assert SceneId(j)[|"scene-"|..] == Padded(j, 3);
    ValueOfPadded(i, 3);
    ValueOfPadded(j, 3);
  }

  lemma SceneFieldsPresent(style: Style, texts: seq<string>, claims: seq<Claims.Claim>, i: nat)
    requires i < |texts|
    ensures var scene := Scenes(style, texts, claims)[i];
      && scene.id == SceneId(i + 1) && Present(scene.id) && Present(scene.timeTarget)
      && scene.narration == texts[i] && scene.visual == style.visual(texts[i])
  {
    hide TrimSpace, Clock, StartAt, Present, Decimal, Padded, ReferredIds, ReferredSources, Fields, Compact, Sort;
    PresentAt(SceneId(i + 1), 0);
    var target := TimeTarget(StartAt(texts, i), StartAt(texts, i + 1));
    assert target[|Clock(StartAt(texts, i))|] == '-';
    PresentAt(target, |Clock(StartAt(texts, i))|);
  }

  predicate Shown(style: Style, text: string) {
    Present(text) && Present(style.visual(text).kind) && Present(style.visual(text).content)
  }

  lemma SceneOkIff(style: Style, texts: seq<string>, claims: seq<Claims.Claim>, i: nat)
    requires i < |texts|
    ensures SceneOk(Scenes(style, texts, claims)[i]) <==> Shown(style, texts[i])
    ensures Scenes(style, texts, claims)[i].id == SceneId(i + 1)
  {
    hide Present, Scenes, SceneAt;
    SceneFieldsPresent(style, texts, claims, i);
  }

  /** A generated storyboard is rendered exactly when no segment is blank and every visual
      is named and filled. */
  lemma RenderableIff(style: Style, texts: seq<string>, claims: seq<Claims.Claim>)
    requires texts != []
    ensures Renderable(Scenes(style, texts, claims)) <==> forall i | 0 <= i < |texts| :: Shown(style, texts[i])
  {
    hide Shown, SceneOk, SceneAt, SceneId, Scenes;
    var scenes := Scenes(style, texts, claims);
    forall i | 0 <= i < |texts|
      ensures SceneOk(scenes[i]) <==> Shown(style, texts[i])
    {
      SceneOkIff(style, texts, claims, i);
    }
    forall i, j | 0 <= i < j < |texts|
      ensures scenes[i].id != scenes[j].id
    {
      SceneOkIff(style, texts, claims, i);
      SceneOkIff(style, texts, claims, j);
      if SceneId(i + 1) == SceneId(j + 1) {
        SceneIdsDiffer(i + 1, j + 1);
      }
    }
  }

  lemma VisualNamed(topic: Topic, text: string)
    ensures Present(VisualPlan(topic, text).kind)
    ensures Present(text) ==> Present(VisualPlan(topic, text).content)
  {
    hide Present;
    PresentWord(VisualPlan(topic, text).kind);
    match topic {
      case Terminal => PresentWord("git push origin main");
      case Checks => PresentWord("repository event -> CI checks");
      case Artifact => PresentWord("build -> artifact -> deployable package");
      case Deployment => PresentWord("artifact -> deployment strategy" + " -> production");
      case Rollback => PresentWord("bad release -> rollback -> stable state");
      case Other =>
    }
  }

  /** With the keyword directions that leaves the blank segments: a script whose segments
      are all readable is always rendered, and no other. */
  lemma KeywordRenderable(lower: Lowering, texts: seq<string>, claims: seq<Claims.Claim>)
    requires texts != []
    ensures Renderable(Scenes(KeywordStyle(lower), texts, claims)) <==> forall i | 0 <= i < |texts| :: Present(texts[i])
  {
    hide Present, Scenes, VisualPlan, Renderable, MascotPlan, TopicOf;
    RenderableIff(KeywordStyle(lower), texts, claims);
    forall i | 0 <= i < |texts|
      ensures Shown(KeywordStyle(lower), texts[i]) <==> Present(texts[i])
    {
      VisualNamed(TopicOf(ToLower(lower, texts[i])), texts[i]);
    }
  }

  // ----- a script with a blank segment -----

  lemma {:induction false} NoTicks(s: string)
    requires '`' !in s
    ensures DropTicks(s) == s
  {
    if s != "" {
      NoTicks(s[1..]);
      assert s == [s[0]] + s[1..];
    }
  }

  lemma {:induction false} NoSentenceEnd(s: string, i: nat)
    requires i <= |s| && '.' !in s && '!' !in s && '?' !in s
    ensures LastEnd(s, i) == 0 && Ended(s, i) == []
  {
    if i > 0 {
      NoSentenceEnd(s, i - 1);
    }
  }

  /** A vertical tab, which a Go regular expression does not count as white space, between
      two dashes. */
  const TAB_LINE := ['-', '\U{B}', '-']

  lemma TabLineIsProse()
    ensures TrimSpace(TAB_LINE) == TAB_LINE && Clean(TAB_LINE) == TAB_LINE
    ensures !IsFence(TAB_LINE) && IsProse(TAB_LINE) && Sentences(TAB_LINE) == [TAB_LINE]
  {
    hide Ended, LastEnd, DropTicks, TrimLeft, TrimRight;
    TrimFixed(TAB_LINE, IsSpace);
    NoTicks(TAB_LINE);
    NoSentenceEnd(TAB_LINE, 3);
    assert StripMarkdownPrefix(TAB_LINE) == TAB_LINE;
  }

  lemma TabLineNormal()
    ensures NormalizeNarration(TAB_LINE) == ['\U{B}'] && !Present(['\U{B}'])
  {
    hide TrimSpace;
    TabLineIsProse();
    TabLineTrimmed();
    assert TrimSuffix(['\U{B}'], ".") == ['\U{B}'];
    assert IsSpace('\U{B}');
    PresentIff(['\U{B}']);
  }

  lemma TabLineTrimmed()
    ensures Trim(TAB_LINE, IsMark) == ['\U{B}']
  {
    assert TAB_LINE[1..] == ['\U{B}', '-'] && ['\U{B}', '-'][..1] == ['\U{B}'];
    assert !IsMark('\U{B}') && IsMark('-');
    assert TrimLeft(['\U{B}', '-'], IsMark) == ['\U{B}', '-'];
    assert TrimRight(['\U{B}'], IsMark) == ['\U{B}'];
  }

  /** The script of that one line is narrated as a blank segment. */
  lemma BlankSegment(lower: Lowering)
    ensures Segments(lower, TAB_LINE) == [['\U{B}']] && !Present(['\U{B}'])
  {
    hide TrimSpace, Clean, IsFence, IsProse, Sentences, ToLower, Present;
    SplitNone(TAB_LINE, '\n');
    TabLineIsProse();
    TabLineNormal();
    OneLine(NormalizeNarration, TAB_LINE);
    OnePart(lower, ['\U{B}']);
  }

  /** So an approved storyboard of it is made, and the preview refuses it. */
  lemma BlankSegmentRefused(lower: Lowering, episodeId: string, artifactId: string)
    requires Present(episodeId)
    ensures var input := Input(episodeId, artifactId, TAB_LINE, Approve, []);
      Storyboardable(KeywordStyle(lower), input) && !Renderable(ScenesOf(KeywordStyle(lower), input))
  {
    hide Present, Segments, Scenes, Renderable;
    var texts := [['\U{B}']];
    BlankSegment(lower);
    KeywordRenderable(lower, texts, []);
    assert !Present(texts[0]);
    PresentAt(TAB_LINE, 0);
    NoneMissing(Scenes(KeywordStyle(lower), texts, []));
  }

  lemma NoneMissing(scenes: seq<Scene>)
    ensures Uncovered([], scenes) == []
  {}

  lemma OneLine(normalize: string -> string, line: string)
    requires TrimSpace(line) == line && !IsFence(line) && IsProse(line) && Sentences(Clean(line)) == [line]
    requires normalize(line) != ""
    ensures LineParts(normalize, [line]) == [normalize(line)]
  {
    hide TrimSpace, Clean, IsFence, IsProse, Sentences;
    assert [line][..0] == [];
    assert LineParts(normalize, []) == [] == NormalizedParts(normalize, []);
  }

  lemma OnePart(lower: Lowering, part: string)
    ensures Dedupe(lower, [part]) == [part]
  {
    hide ToLower;
    assert [part][..0] == [];
  }
}
