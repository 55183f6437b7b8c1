/**
 * The validation schemas of src/lib/types.ts, read as predicates over the
 * parsed input. Each schema is given twice: as the list of issues the
 * validator reports (in the order of the object's keys) and as a plain
 * predicate saying when an input is acceptable; the contracts connect the two.
 * The colour rule is checked by a small anchored pattern matcher that walks
 * the pattern `^#[0-9A-F]{6}$` with the case-insensitive flag, and a lemma
 * proves it accepts exactly the seven-character colours.
 */
module SiteTypes {
  import opened Wrappers

  /** The `status` of a site: draft (archived) or published. */
  datatype SiteStatus = Draft | Published

  /** The members of the `TemplateId` union, which is also the enum of `templateId`. */
  const TemplateIds: seq<string> := ["t6", "t7", "t9", "t14", "t15", "t16", "t17", "t18"]

  /** The `INDUSTRIES` list; the create-site schema does not consult it. */
  const Industries: seq<string> := [
    "Technology", "Healthcare", "Finance", "E-commerce", "Education", "Real Estate",
    "Food & Beverage", "Travel & Tourism", "Fitness & Wellness", "Entertainment",
    "Professional Services", "Non-profit", "Casino & Gaming", "Other"
  ]

  predicate IsTemplateId(s: string) {
    s in TemplateIds
  }

  // ---------------------------------------------------------------------------
  // Hex colours

  predicate IsHexDigit(c: char) {
    '0' <= c <= '9' || 'A' <= c <= 'F' || 'a' <= c <= 'f'
  }

  /** What the colour pattern means: '#' and exactly six hex digits of either case. */
  predicate IsHexColor(s: string) {
    |s| == 7 && s[0] == '#' && forall i :: 1 <= i < 7 ==> IsHexDigit(s[i])
  }

  /** One position of an anchored pattern. */
  datatype Atom = Literal(c: char) | HexClass

  /** Upper-casing of ASCII letters, as the `i` flag compares characters. */
  function CaseFold(c: char): char {
    if 'a' <= c <= 'z' then (c as int - 32) as char else c
  }

  predicate AtomMatches(a: Atom, c: char) {
    match a
    case Literal(l) => CaseFold(c) == CaseFold(l)
    case HexClass => '0' <= CaseFold(c) <= '9' || 'A' <= CaseFold(c) <= 'F'
  }

  /** `^#[0-9A-F]{6}$` as a sequence of atoms. */
  const HexColorPattern: seq<Atom> := [Literal('#'), HexClass, HexClass, HexClass, HexClass, HexClass, HexClass]

  /** Matches a pattern anchored at both ends: each atom consumes exactly one character. */
  predicate MatchAnchored(pattern: seq<Atom>, s: string)
    decreases |pattern|
  {
    if pattern == [] then s == []
    else s != [] && AtomMatches(pattern[0], s[0]) && MatchAnchored(pattern[1..], s[1..])
  }

  lemma HexClassMatchesHexDigit(c: char)
    ensures AtomMatches(HexClass, c) <==> IsHexDigit(c)
  {
  }

  /** A run of hex-class atoms accepts exactly the strings of that many hex digits. */
  lemma {:induction false} HexRunMatches(pattern: seq<Atom>, s: string)
    requires forall i :: 0 <= i < |pattern| ==> pattern[i] == HexClass
    ensures MatchAnchored(pattern, s) <==> |s| == |pattern| && forall i :: 0 <= i < |s| ==> IsHexDigit(s[i])
    decreases |pattern|
  {
    if pattern != [] && s != [] {
      HexRunMatches(pattern[1..], s[1..]);
      HexClassMatchesHexDigit(s[0]);
      if |s| == |pattern| && forall i :: 0 <= i < |s| ==> IsHexDigit(s[i]) {
        assert forall i :: 0 <= i < |s[1..]| ==> IsHexDigit(s[1..][i]) by {
          forall i | 0 <= i < |s[1..]| ensures IsHexDigit(s[1..][i]) {
            assert s[1..][i] == s[i + 1];
          }
        }
      }
      if MatchAnchored(pattern, s) {
        forall i | 0 <= i < |s| ensures IsHexDigit(s[i]) {
          if i > 0 {
            assert s[i] == s[1..][i - 1];
          }
        }
      }
    }
  }

  /** The pattern matcher and the declarative colour rule agree on every string. */
  lemma {:induction false} HexColorPatternMeaning(s: string)
    ensures MatchAnchored(HexColorPattern, s) <==> IsHexColor(s)
  {
    var rest := HexColorPattern[1..];
    if s != [] {
      HexRunMatches(rest, s[1..]);
      assert CaseFold('#') == '#';
      assert AtomMatches(Literal('#'), s[0]) <==> s[0] == '#';
      if IsHexColor(s) {
        forall i | 0 <= i < |s[1..]| ensures IsHexDigit(s[1..][i]) {
          assert s[1..][i] == s[i + 1];
        }
      }
      if MatchAnchored(HexColorPattern, s) {
        forall i | 1 <= i < 7 ensures IsHexDigit(s[i]) {
          assert s[i] == s[1..][i - 1];
        }
      }
    }
  }

  /** The colour check as the schemas run it. */
  function CheckHexColor(s: string): (ok: bool)
    ensures ok <==> IsHexColor(s)
  {
    HexColorPatternMeaning(s);
    MatchAnchored(HexColorPattern, s)
  }

  // ---------------------------------------------------------------------------
  // Issues reported by the schemas

  datatype ColorSlot = Primary | Secondary | Accent

  datatype Issue =
    | InvalidTemplateId
    | BrandNameRequired
    | IndustryRequired
    | DescriptionTooShort
    | InvalidUrl
    | InvalidHexColor(slot: ColorSlot)
    | ColorRequired(slot: ColorSlot)
    | HeadlineTooLong
    | SubheadlineTooLong
    | CtaTooLong
    | TooManyKeywords

  /** Reports `issue` exactly when the check fails. */
  function Check(ok: bool, issue: Issue): (issues: seq<Issue>)
    ensures issues == [] <==> ok
    ensures forall x :: x in issues <==> !ok && x == issue
  {
    if ok then [] else [issue]
  }

  // ---------------------------------------------------------------------------
  // CreateSiteSchema

  datatype PreferredColors = PreferredColors(primary: Option<string>, secondary: Option<string>, accent: Option<string>)

  /**
   * The create-site form. `logoUrl` is nullable and optional and takes any
   * string, so it never produces an issue; `None` stands for absent or null.
   */
  datatype CreateSiteInput = CreateSiteInput(
    templateId: string,
    brandName: string,
    industry: string,
    logoUrl: Option<string>,
    description: string,
    ctaUrl: Option<string>,
    preferredColors: Option<PreferredColors>)

  function ColorAt(p: PreferredColors, slot: ColorSlot): Option<string> {
    match slot
    case Primary => p.primary
    case Secondary => p.secondary
    case Accent => p.accent
  }

  predicate OptionalColorOk(c: Option<string>) {
    c.None? || IsHexColor(c.value)
  }

  /** `ctaUrl`: absent, the empty literal, or a string the URL check accepts. */
  predicate CtaUrlOk(ctaUrl: Option<string>, isUrl: string -> bool) {
    ctaUrl.None? || ctaUrl.value == "" || isUrl(ctaUrl.value)
  }

  /** When the create-site schema accepts its input. */
  predicate ValidCreateSite(input: CreateSiteInput, isUrl: string -> bool) {
    && IsTemplateId(input.templateId)
    && |input.brandName| >= 1
    && |input.industry| >= 1
    && |input.description| >= 10
    && CtaUrlOk(input.ctaUrl, isUrl)
    && (input.preferredColors.Some? ==>
          var p := input.preferredColors.value;
          OptionalColorOk(p.primary) && OptionalColorOk(p.secondary) && OptionalColorOk(p.accent))
  }

  function OptionalColorIssues(c: Option<string>, slot: ColorSlot): (issues: seq<Issue>)
    ensures issues == [] <==> OptionalColorOk(c)
    ensures issues != [] ==> issues == [InvalidHexColor(slot)]
  {
    match c
    case None => []
    case Some(s) => Check(CheckHexColor(s), InvalidHexColor(slot))
  }

  function PreferredColorsIssues(p: Option<PreferredColors>): (issues: seq<Issue>)
    ensures issues == [] <==>
      (p.Some? ==> OptionalColorOk(p.value.primary) && OptionalColorOk(p.value.secondary) && OptionalColorOk(p.value.accent))
    ensures forall x :: x in issues <==> x.InvalidHexColor? && p.Some? && !OptionalColorOk(ColorAt(p.value, x.slot))
    ensures forall i, j :: 0 <= i < j < |issues| ==> issues[i] != issues[j]
  {
    match p
    case None => []
    case Some(colors) =>
      OptionalColorIssues(colors.primary, Primary)
      + OptionalColorIssues(colors.secondary, Secondary)
      + OptionalColorIssues(colors.accent, Accent)
  }

  /** The rule of `CreateSiteSchema` that each issue stands for is broken. */
  predicate CreateSiteRuleBroken(x: Issue, input: CreateSiteInput, isUrl: string -> bool) {
    match x
    case InvalidTemplateId => !IsTemplateId(input.templateId)
    case BrandNameRequired => input.brandName == []
    case IndustryRequired => input.industry == []
    case DescriptionTooShort => |input.description| < 10
    case InvalidUrl => !CtaUrlOk(input.ctaUrl, isUrl)
    case InvalidHexColor(slot) =>
      input.preferredColors.Some? && !OptionalColorOk(ColorAt(input.preferredColors.value, slot))
    case _ => false
  }

  /**
   * The issues `CreateSiteSchema` reports, in key order. `isUrl` stands for
   * the library's URL check, which is not part of this model.
   */
  function CreateSiteIssues(input: CreateSiteInput, isUrl: string -> bool): (issues: seq<Issue>)
    ensures forall x :: x in issues <==> CreateSiteRuleBroken(x, input, isUrl)
    ensures issues == [] <==> ValidCreateSite(input, isUrl)
  {
    var colors := PreferredColorsIssues(input.preferredColors);
    Check(IsTemplateId(input.templateId), InvalidTemplateId)
    + Check(|input.brandName| >= 1, BrandNameRequired)
    + Check(|input.industry| >= 1, IndustryRequired)
    + Check(|input.description| >= 10, DescriptionTooShort)
    + Check(CtaUrlOk(input.ctaUrl, isUrl), InvalidUrl)
    + colors
  }

  /**
   * `industry` is free text: the issues do not depend on which non-empty
   * industry is given, listed in `Industries` or not.
   */
  lemma IndustryIsFreeText(input: CreateSiteInput, industry: string, isUrl: string -> bool)
    requires input.industry != [] && industry != []
    ensures CreateSiteIssues(input.(industry := industry), isUrl) == CreateSiteIssues(input, isUrl)
  {
  }

  /** For example, "Space Mining" is not in `Industries`, yet a site in it is accepted. */
  lemma UnlistedIndustryAccepted(isUrl: string -> bool)
    ensures var input := CreateSiteInput("t6", "Brand", "Space Mining", None, "Ten chars!", None, None);
            "Space Mining" !in Industries && CreateSiteIssues(input, isUrl) == []
  {
  }

  // ---------------------------------------------------------------------------
  // OpenAIResponseSchema

  datatype OpenAIResponse = OpenAIResponse(headline: string, subheadline: string, cta: string, seoKeywords: seq<string>)

  function OpenAIResponseIssues(r: OpenAIResponse): (issues: seq<Issue>)
    ensures issues == [] <==>
      |r.headline| <= 100 && |r.subheadline| <= 200 && |r.cta| <= 50 && |r.seoKeywords| <= 6
    ensures HeadlineTooLong in issues <==> |r.headline| > 100
    ensures SubheadlineTooLong in issues <==> |r.subheadline| > 200
    ensures CtaTooLong in issues <==> |r.cta| > 50
    ensures TooManyKeywords in issues <==> |r.seoKeywords| > 6
  {
    Check(|r.headline| <= 100, HeadlineTooLong)
    + Check(|r.subheadline| <= 200, SubheadlineTooLong)
    + Check(|r.cta| <= 50, CtaTooLong)
    + Check(|r.seoKeywords| <= 6, TooManyKeywords)
  }

  // ---------------------------------------------------------------------------
  // ColorPaletteSchema

  /** A palette as received: a missing key is `None`. */
  datatype ColorPaletteInput = ColorPaletteInput(primary: Option<string>, secondary: Option<string>, accent: Option<string>)

  function RequiredColorIssues(c: Option<string>, slot: ColorSlot): (issues: seq<Issue>)
    ensures issues == [] <==> c.Some? && IsHexColor(c.value)
    ensures c.None? ==> issues == [ColorRequired(slot)]
    ensures c.Some? && !IsHexColor(c.value) ==> issues == [InvalidHexColor(slot)]
  {
    match c
    case None => [ColorRequired(slot)]
    case Some(s) => Check(CheckHexColor(s), InvalidHexColor(slot))
  }

  function ColorPaletteIssues(p: ColorPaletteInput): (issues: seq<Issue>)
    ensures issues == [] <==>
      && p.primary.Some? && IsHexColor(p.primary.value)
      && p.secondary.Some? && IsHexColor(p.secondary.value)
      && p.accent.Some? && IsHexColor(p.accent.value)
  {
    RequiredColorIssues(p.primary, Primary)
    + RequiredColorIssues(p.secondary, Secondary)
    + RequiredColorIssues(p.accent, Accent)
  }

  /** A palette the palette schema accepts is also acceptable as `preferredColors`. */
  lemma PaletteIsAcceptablePreference(p: ColorPaletteInput)
    requires ColorPaletteIssues(p) == []
    ensures PreferredColorsIssues(Some(PreferredColors(p.primary, p.secondary, p.accent))) == []
  {
  }
}
