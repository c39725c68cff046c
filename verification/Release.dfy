/** internal/publishing/pack.go: the release pack made from approved production artifacts. */
module Release {
  import opened Text
  import opened Json
  import Chapters
  import Claims
  import ProductionQA
  import Storyboard

  datatype Input = Input(
    episodeId: string, title: string, sources: seq<Claims.Source>, claims: seq<Claims.Claim>,
    scenes: seq<Storyboard.Scene>, renderOutputs: nat, productionQA: ProductionQA.Report, cta: string,
    visibility: ProductionQA.Visibility, humanApproved: bool, platform: string, scheduledAt: string,
    disclosureRequired: bool, disclosure: string)

  datatype Pack = Pack(
    episodeId: string, title: string, chapters: seq<Chapters.Chapter>, cta: string,
    visibility: ProductionQA.Visibility, humanApproved: bool, platform: string, scheduledAt: string, disclosure: string)

  const DEFAULT_CTA := "Join the Animus open-source community and follow the source-backed production path."

  function Aim(visibility: ProductionQA.Visibility): ProductionQA.Visibility {
    if visibility == ProductionQA.Unset then ProductionQA.Private else visibility
  }

  /** The inputs a release pack is made from. */
  predicate Releasable(input: Input) {
    && input.productionQA.decision == ProductionQA.Approved
    && (input.claims != [] ==> input.sources != [])
    && input.scenes != [] && input.renderOutputs > 0
    && (input.disclosureRequired ==> Present(input.disclosure))
    && input.episodeId != "" && Present(input.title)
    && (input.visibility == ProductionQA.Public ==> input.humanApproved)
    && !input.visibility.OtherVisibility?
  }

  function DefaultText(value: string, fallback: string): string {
    if Present(value) then TrimSpace(value) else fallback
  }

  function CtaFor(cta: string): string {
    if Present(cta) then cta else DEFAULT_CTA
  }

  function PackOf(input: Input): Pack {
    Pack(input.episodeId, input.title, Chapters.ChaptersOf(input.scenes), CtaFor(input.cta),
         Aim(input.visibility), input.humanApproved, DefaultText(input.platform, "youtube"),
         TrimSpace(input.scheduledAt),
         TrimSpace(input.disclosure))
  }

  method GenerateReleasePack(input: Input) returns (r: Result<Pack>)
    ensures r.Ok? <==> Releasable(input)
    ensures r.Ok? ==> r.value == PackOf(input)
  {
    hide TrimSpace, Present, Chapters.ChaptersOf, DefaultText, CtaFor;
    if input.productionQA.decision != ProductionQA.Approved {
      return Err("approved production QA is required before publish pack generation");
    }
    if |input.claims| > 0 && |input.sources| == 0 {
      return Err("claims require a visible source list in the publish pack");
    }
    if |input.scenes| == 0 { return Err("storyboard scenes are required for chapter generation"); }
    if input.renderOutputs == 0 { return Err("render manifest outputs are required"); }
    if input.disclosureRequired && !Present(input.disclosure) { return Err("synthetic disclosure text is required"); }
    var chapters := Chapters.ChaptersFromStoryboard(input.scenes);
    var cta := CtaFor(input.cta);
    if input.episodeId == "" { return Err("episode id is required"); }
    if !Present(input.title) { return Err("title is required"); }
    var visibility := Aim(input.visibility);
    if visibility == ProductionQA.Public && !input.humanApproved {
      return Err("public visibility requires explicit human release approval");
    }
    if visibility.OtherVisibility? { return Err("unsupported visibility"); }
    r := Ok(Pack(input.episodeId, input.title, chapters, cta, visibility, input.humanApproved,
                 DefaultText(input.platform, "youtube"), TrimSpace(input.scheduledAt), TrimSpace(input.disclosure)));
  }
}
