/** internal/publishing/pack.go: the chapters of a release pack. */
module Chapters {
  import opened Text
  import opened Json
  import opened Markdown
  import opened Storyboard
  import Preview
  import Claims

  datatype Chapter = Chapter(timestamp: string, title: string)

  /** The text before the first dash of a time target. */
  function ChapterTimestamp(timeTarget: string): string {
    var t := TrimSpace(timeTarget);
    if t == "" then "" else TrimSpace(Split(t, '-')[0])
  }

  function ChapterTitle(scene: Scene): string {
    if Present(scene.onScreenText) then TrimSpace(scene.onScreenText) else TrimSpace(scene.visual.kind)
  }

  function ChapterOf(scene: Scene): Chapter {
    Chapter(ChapterTimestamp(scene.timeTarget), ChapterTitle(scene))
  }

  function Titled(chapter: Chapter): (chapters: seq<Chapter>) {
    if chapter.timestamp == "" || chapter.title == "" then [] else [chapter]
  }

  function ChaptersOf(scenes: seq<Scene>): seq<Chapter> {
    if scenes == [] then []
    else ChaptersOf(scenes[..|scenes| - 1]) + Titled(ChapterOf(scenes[|scenes| - 1]))
  }

  method ChaptersFromStoryboard(scenes: seq<Scene>) returns (chapters: seq<Chapter>)
    ensures chapters == ChaptersOf(scenes)
  {
    hide ChapterTimestamp, TrimSpace;
    chapters := [];
    for i := 0 to |scenes|
      invariant chapters == ChaptersOf(scenes[..i])
    {
      assert scenes[..i + 1][..i] == scenes[..i];
      var timestamp := ChapterTimestamp(scenes[i].timeTarget);
      var title := TrimSpace(scenes[i].onScreenText);
      if title == "" {
        title := TrimSpace(scenes[i].visual.kind);
      }
      if timestamp == "" || title == "" {
        continue;
      }
      chapters := chapters + [Chapter(timestamp, title)];
    }
    assert scenes[..|scenes|] == scenes;
  }

  // ----- chapters of a generated storyboard -----

  /** Directions that name every visual. */
  ghost predicate NamesVisuals(style: Style) {
    forall text :: Present(style.visual(text).kind)
  }

  lemma KeywordsNameVisuals(lower: Lowering)
    ensures NamesVisuals(KeywordStyle(lower))
  {
    hide Present, TopicOf, MascotPlan, VisualPlan;
    forall text
      ensures Present(KeywordStyle(lower).visual(text).kind)
    {
      Preview.VisualNamed(TopicOf(ToLower(lower, text)), text);
    }
  }

  lemma TimestampOf(start: nat, end: nat)
    ensures ChapterTimestamp(TimeTarget(start, end)) == Clock(start) != ""
  {
    hide Clock, Split, TrimSpace;
    Preview.TargetSplit(start, end);
    Preview.ClockShape(start);
    TargetTrimmed(start, end);
  }

  lemma TargetTrimmed(start: nat, end: nat)
    ensures TrimSpace(TimeTarget(start, end)) == TimeTarget(start, end) != ""
  {
    hide Decimal, Padded;
    var target := TimeTarget(start, end);
    var first, last := Decimal(start / 60), Padded(end % 60, 2);
    assert target[0] == first[0] && target[|target| - 1] == last[|last| - 1];
    TrimFixed(target, IsSpace);
  }

  lemma ChapterAt(style: Style, texts: seq<string>, claims: seq<Claims.Claim>, i: nat)
    requires i < |texts| && NamesVisuals(style)
    ensures var chapter := ChapterOf(Scenes(style, texts, claims)[i]);
      chapter.timestamp == Clock(StartAt(texts, i)) && Titled(chapter) == [chapter]
  {
    hide Clock, Present, StartAt, TimeTarget, ChapterTimestamp, Compact, Sort, ReferredIds, ReferredSources,
      OnScreenText;
    TimestampOf(StartAt(texts, i), StartAt(texts, i + 1));
    TitlePresent(Scenes(style, texts, claims)[i]);
  }

  lemma TitlePresent(scene: Scene)
    requires Present(scene.visual.kind)
    ensures ChapterTitle(scene) != ""
  {
    hide TrimSpace;
  }

  lemma {:induction false} ChaptersUpTo(style: Style, texts: seq<string>, claims: seq<Claims.Claim>, n: nat)
    requires n <= |texts| && NamesVisuals(style)
    ensures var chapters := ChaptersOf(Scenes(style, texts, claims)[..n]);
      |chapters| == n && forall i | 0 <= i < n :: chapters[i].timestamp == Clock(StartAt(texts, i))
  {
    hide Clock, StartAt, Scenes, ChapterOf, Titled, NamesVisuals;
    var scenes := Scenes(style, texts, claims);
    if n > 0 {
      ChaptersUpTo(style, texts, claims, n - 1);
      ChapterAt(style, texts, claims, n - 1);
      assert scenes[..n][..n - 1] == scenes[..n - 1];
      assert scenes[..n][n - 1] == scenes[n - 1];
    }
  }

  lemma {:induction false} StartsIncrease(texts: seq<string>, i: nat, j: nat)
    requires i < j <= |texts|
    ensures StartAt(texts, i) < StartAt(texts, j)
  {
    hide EstimateDuration;
    Preview.StartStep(texts, j - 1);
    if i < j - 1 {
      StartsIncrease(texts, i, j - 1);
    }
  }

  /** A generated storyboard has one chapter for each scene. The renderer's clock reader
      takes the timestamp of chapter i for the start of scene i: the first is zero and each
      is later than the one before. */
  lemma ChaptersTile(style: Style, texts: seq<string>, claims: seq<Claims.Claim>)
    requires NamesVisuals(style)
    ensures var chapters := ChaptersOf(Scenes(style, texts, claims));
      && |chapters| == |texts|
      && (forall i | 0 <= i < |texts| :: Preview.ParseClock(chapters[i].timestamp) == Some(StartAt(texts, i)))
      && (texts != [] ==> Preview.ParseClock(chapters[0].timestamp) == Some(0))
      && forall i, j | 0 <= i < j < |texts| ::
        Preview.ParseClock(chapters[i].timestamp).value < Preview.ParseClock(chapters[j].timestamp).value
  {
    hide Clock, Scenes, NamesVisuals, ChaptersOf, EstimateDuration, Preview.ParseClock;
    var chapters := ChaptersOf(Scenes(style, texts, claims));
    ChaptersUpTo(style, texts, claims, |texts|);
    assert Scenes(style, texts, claims)[..|texts|] == Scenes(style, texts, claims);
    forall i | 0 <= i < |texts|
      ensures Preview.ParseClock(chapters[i].timestamp) == Some(StartAt(texts, i))
    {
      Preview.ClockBack(StartAt(texts, i));
    }
    forall i, j | 0 <= i < j < |texts|
      ensures StartAt(texts, i) < StartAt(texts, j)
    {
      StartsIncrease(texts, i, j);
    }
  }

  /** The chapters of a storyboard made with the keyword directions, of any storyboardable
      input: one for each segment of the script, from zero on. */
  lemma KeywordChaptersTile(lower: Lowering, input: Input)
    requires Storyboardable(KeywordStyle(lower), input)
    ensures var texts, chapters := Segments(lower, input.script), ChaptersOf(ScenesOf(KeywordStyle(lower), input));
      && |chapters| == |texts| > 0
      && (forall i | 0 <= i < |texts| :: Preview.ParseClock(chapters[i].timestamp) == Some(StartAt(texts, i)))
      && Preview.ParseClock(chapters[0].timestamp) == Some(0)
      && forall i, j | 0 <= i < j < |texts| ::
        Preview.ParseClock(chapters[i].timestamp).value < Preview.ParseClock(chapters[j].timestamp).value
  {
    hide Segments, Scenes, ChaptersOf, Preview.ParseClock, NamesVisuals, StartAt;
    KeywordsNameVisuals(lower);
    ChaptersTile(KeywordStyle(lower), Segments(lower, input.script), input.claims);
  }
}
