/**
 * The editor's field registry of src/lib/template-config.ts: a constant table
 * from template id to the fields its editor sidebar offers, and three lookups
 * over it. A config's `fields` object is an ordered list of key/field entries,
 * so that the declaration order `Object.keys` reports is kept; `in` on that
 * object becomes a search of the keys.
 */
module TemplateConfig {
  import opened Wrappers
  import SiteTypes

  datatype FieldType = Text | Number | Url | Textarea | Color | Image

  /** A `TemplateField`; the optional `required` and `isPremium` flags stay optional. */
  datatype TemplateField = TemplateField(
    id: string,
    displayLabel: string,
    fieldType: FieldType,
    required: Option<bool>,
    isPremium: Option<bool>)

  /** One property of a config's `fields` object, in declaration order. */
  datatype FieldEntry = FieldEntry(key: string, field: TemplateField)

  datatype Config = Config(id: string, name: string, fields: seq<FieldEntry>)

  // ---------------------------------------------------------------------------
  // The table

  function Entry(key: string, displayLabel: string, fieldType: FieldType, required: bool): FieldEntry {
    FieldEntry(key, TemplateField(key, displayLabel, fieldType, Some(required), None))
  }

  /** The optional subtitle of t6 and t7 declares no `required` flag. */
  function OptionalSubtitle(): FieldEntry {
    FieldEntry("subheadline", TemplateField("subheadline", "Subtitle", Text, None, None))
  }

  function T6(): Config {
    Config("t6", "Classic Overlay", [
      Entry("headline", "Game Title", Text, true),
      OptionalSubtitle(),
      Entry("cta", "Button Text", Text, true),
      Entry("ctaUrl", "Destination URL", Url, true)])
  }

  function T7(): Config {
    Config("t7", "Sweet Bonanza", [
      Entry("headline", "Game Title", Text, true),
      OptionalSubtitle(),
      Entry("cta", "Button Text", Text, true),
      Entry("ctaUrl", "Destination URL", Url, true)])
  }

  /** The fishing slot fields shared by t9 and t10. */
  function FishingSlotFields(): seq<FieldEntry> {
    [ Entry("headline", "Game Title", Text, true),
      Entry("gameBalance", "\U{1F4B0} Game Balance", Number, false),
      Entry("ctaUrl", "Destination URL", Url, true),
      Entry("popupTitle", "Win Popup Title", Text, false),
      Entry("popupMessage", "Win Popup Message", Textarea, false),
      Entry("popupPrize", "Prize Display", Text, false)]
  }

  /** The wheel fields shared by t14 to t17. */
  function WheelFields(): seq<FieldEntry> {
    [ Entry("headline", "Game Title", Text, true),
      Entry("logoUrl", "\U{1F3A8} Custom Logo URL", Url, false),
      Entry("ctaUrl", "Claim Bonus URL", Url, true),
      Entry("wheelValues", "\U{1F3B0} Wheel Prize Values", Textarea, false),
      Entry("popupTitle", "\U{1F3C6} Win Modal Title", Text, false),
      Entry("popupMessage", "\U{1F4AC} Win Message", Text, false),
      Entry("popupPrize", "\U{1F4B0} Prize Display", Text, false)]
  }

  function T18(): Config {
    Config("t18", "Big Cash Scratch Card", [
      Entry("headline", "Main Title", Text, true),
      Entry("subheadline", "Prize Text", Text, true),
      Entry("cta", "Claim Button Text", Text, true),
      Entry("ctaUrl", "Destination URL", Url, true),
      FieldEntry("backgroundColor",
        TemplateField("backgroundColor", "\U{1F3A8} Background Color", Color, Some(false), Some(false))),
      FieldEntry("backgroundImage",
        TemplateField("backgroundImage", "\U{1F5BC}\U{FE0F} Background Image URL", Url, Some(false), Some(false)))])
  }

  /** `TEMPLATE_CONFIGS`: nine templates, each with at least one editable field. */
  function TemplateConfigs(): (configs: map<string, Config>)
    ensures configs.Keys == {"t6", "t7", "t9", "t10", "t14", "t15", "t16", "t17", "t18"}
    ensures forall key :: key in configs ==> |configs[key].fields| > 0
  {
    map[
      "t6" := T6(),
      "t7" := T7(),
      "t9" := Config("t9", "FisherMan Slot", FishingSlotFields()),
      "t10" := Config("t10", "FisherMan Slot 2", FishingSlotFields()),
      "t14" := Config("t14", "Fortune Wheel - Underwater", WheelFields()),
      "t15" := Config("t15", "Fortune Wheel - China", WheelFields()),
      "t16" := Config("t16", "Fortune Wheel - Christmas", WheelFields()),
      "t17" := Config("t17", "Fortune Wheel - Pirates", WheelFields()),
      "t18" := T18()]
  }

  // ---------------------------------------------------------------------------
  // Lookups

  /** `getTemplateConfig`: the table entry, or nothing for an id the table lacks. */
  function GetTemplateConfig(templateId: string): (r: Option<Config>)
    ensures r.Some? <==> templateId in {"t6", "t7", "t9", "t10", "t14", "t15", "t16", "t17", "t18"}
    ensures r.Some? ==> r.value.id == templateId
    ensures r.Some? ==> r.value == TemplateConfigs()[templateId]
  {
    var configs := TemplateConfigs();
    if templateId in configs then Some(configs[templateId]) else None
  }

  /** The keys of a `fields` object, in declaration order (`Object.keys`). */
  function Keys(entries: seq<FieldEntry>): (keys: seq<string>)
    ensures |keys| == |entries|
    ensures forall i :: 0 <= i < |entries| ==> keys[i] == entries[i].key
  {
    if entries == [] then [] else [entries[0].key] + Keys(entries[1..])
  }

  /** `key in fields`: whether some entry is stored under `key`. */
  function HasKey(entries: seq<FieldEntry>, key: string): (b: bool)
    ensures b <==> exists i :: 0 <= i < |entries| && entries[i].key == key
  {
    if entries == [] then false
    else if entries[0].key == key then true
    else
      var b := HasKey(entries[1..], key);
      assert b ==> exists i :: 0 <= i < |entries| && entries[i].key == key by {
        if b {
          var j :| 0 <= j < |entries[1..]| && entries[1..][j].key == key;
          assert entries[j + 1].key == key;
        }
      }
      b
  }

  /** `getTemplateEditableFields`: the keys of the config's fields in declaration order, or none. */
  function GetTemplateEditableFields(templateId: string): (r: seq<string>)
    ensures GetTemplateConfig(templateId).None? ==> r == []
    ensures GetTemplateConfig(templateId).Some? ==>
      var fields := GetTemplateConfig(templateId).value.fields;
      |r| == |fields| && forall i :: 0 <= i < |fields| ==> r[i] == fields[i].key
  {
    match GetTemplateConfig(templateId)
    case None => []
    case Some(config) => Keys(config.fields)
  }

  /** `templateSupportsField`: false for an unknown template, else whether `fieldId` is a key of its fields. */
  function TemplateSupportsField(templateId: string, fieldId: string): (b: bool)
    ensures b <==> (GetTemplateConfig(templateId).Some? &&
      var fields := GetTemplateConfig(templateId).value.fields;
      exists i :: 0 <= i < |fields| && fields[i].key == fieldId)
  {
    match GetTemplateConfig(templateId)
    case None => false
    case Some(config) => HasKey(config.fields, fieldId)
  }

  // ---------------------------------------------------------------------------
  // Properties of the table and the lookups

  /** A template supports a field exactly when the field is among its editable fields. */
  lemma SupportsIffEditable(templateId: string, fieldId: string)
    ensures TemplateSupportsField(templateId, fieldId) <==> fieldId in GetTemplateEditableFields(templateId)
  {
    var r := GetTemplateEditableFields(templateId);
    if fieldId in r {
      var i :| 0 <= i < |r| && r[i] == fieldId;
      assert GetTemplateConfig(templateId).value.fields[i].key == fieldId;
    }
  }

  lemma ScratchCardEditableFields()
    ensures GetTemplateEditableFields("t18") ==
      ["headline", "subheadline", "cta", "ctaUrl", "backgroundColor", "backgroundImage"]
  {
  }

  predicate WellKeyed(key: string, config: Config) {
    && config.id == key
    && forall i :: 0 <= i < |config.fields| ==> config.fields[i].field.id == config.fields[i].key
  }

  /** Every config carries its own key as `id`, and every field carries the key it is stored under. */
  lemma TableIsWellKeyed()
    ensures forall key :: key in TemplateConfigs() ==> WellKeyed(key, TemplateConfigs()[key])
  {
  }

  predicate HasRequiredField(config: Config, key: string) {
    exists i :: 0 <= i < |config.fields| && config.fields[i].key == key && config.fields[i].field.required == Some(true)
  }

  /** Every configured template asks for a headline and a destination URL. */
  lemma HeadlineAndCtaUrlRequired()
    ensures forall key :: key in TemplateConfigs() ==>
      HasRequiredField(TemplateConfigs()[key], "headline") && HasRequiredField(TemplateConfigs()[key], "ctaUrl")
  {
    forall key | key in TemplateConfigs()
      ensures HasRequiredField(TemplateConfigs()[key], "headline") && HasRequiredField(TemplateConfigs()[key], "ctaUrl")
    {
      var fields := TemplateConfigs()[key].fields;
      // the headline is declared first everywhere; the destination URL is third, or fourth after a subtitle and a button
      var ctaUrlAt := if key in {"t6", "t7", "t18"} then 3 else 2;
      assert fields[0].key == "headline" && fields[0].field.required == Some(true);
      assert fields[ctaUrlAt].key == "ctaUrl" && fields[ctaUrlAt].field.required == Some(true);
    }
  }

  /** Every configured template supports, and lists as editable, a headline and a destination URL. */
  lemma ConfiguredTemplatesSupportHeadlineAndCtaUrl(templateId: string)
    requires GetTemplateConfig(templateId).Some?
    ensures TemplateSupportsField(templateId, "headline") && TemplateSupportsField(templateId, "ctaUrl")
    ensures "headline" in GetTemplateEditableFields(templateId) && "ctaUrl" in GetTemplateEditableFields(templateId)
  {
    HeadlineAndCtaUrlRequired();
    SupportsIffEditable(templateId, "headline");
    SupportsIffEditable(templateId, "ctaUrl");
  }

  /**
   * Every id of the `TemplateId` union has a config, and the table also
   * configures t10, which the union and the create-site enum leave out.
   */
  lemma ConfiguredBeyondTemplateIds()
    ensures forall t :: SiteTypes.IsTemplateId(t) ==> GetTemplateConfig(t).Some?
    ensures GetTemplateConfig("t10").Some? && !SiteTypes.IsTemplateId("t10")
  {
  }
}
