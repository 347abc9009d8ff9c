/**
 * The catalogue customisation screen (`CatalogCustomization`): a settings
 * record edited key by key, reset to its defaults, recoloured by presets, and
 * the store address derived from the store name.
 */
module Customization {
  import Seqs
  import Text

  /** A setting is either text (names, colours, URLs) or a switch. */
  datatype ConfigValue = Text(text: string) | Flag(on: bool)

  type Config = map<string, ConfigValue>

  /** The settings a fresh screen, and "Restaurar", start from. */
  function DefaultConfig(): Config {
    map[
      "storeName" := Text("LojixApp Store"),
      "storeDescription" := Text("Sua loja de tecnologia com os melhores pre\U{00E7}os"),
      "logoUrl" := Text(""),
      "bannerUrl" := Text(""),
      "primaryColor" := Text("#3B82F6"),
      "secondaryColor" := Text("#10B981"),
      "textColor" := Text("#1F2937"),
      "backgroundColor" := Text("#FFFFFF"),
      "fontFamily" := Text("Inter"),
      "showPrices" := Flag(true),
      "showStock" := Flag(true),
      "showRatings" := Flag(true),
      "enableWhatsApp" := Flag(true),
      "whatsappNumber" := Text(""),
      "customDomain" := Text(""),
      "seoTitle" := Text(""),
      "seoDescription" := Text(""),
      "enableAnalytics" := Flag(false)
    ]
  }

  predicate SameKind(a: ConfigValue, b: ConfigValue) {
    a.Text? == b.Text?
  }

  /** Every default setting is present and holds the kind of value it started with. */
  predicate WellTyped(config: Config) {
    forall key :: key in DefaultConfig() ==>
      key in config && SameKind(config[key], DefaultConfig()[key])
  }

  /** `handleConfigChange`. */
  function Changed(config: Config, key: string, value: ConfigValue): Config {
    config[key := value]
  }

  /** A change sets its own key and leaves every other key as it was; a value
      of the setting's kind keeps the settings well typed. */
  lemma ChangedSpec(config: Config, key: string, value: ConfigValue)
    ensures key in Changed(config, key, value) && Changed(config, key, value)[key] == value
    ensures forall k :: k != key ==>
      (k in Changed(config, key, value) <==> k in config)
      && (k in config ==> Changed(config, key, value)[k] == config[k])
    ensures WellTyped(config) && (key in DefaultConfig() ==> SameKind(value, DefaultConfig()[key])) ==>
      WellTyped(Changed(config, key, value))
  {
  }

  datatype Preset = Preset(name: string, primary: string, secondary: string)

  function Presets(): seq<Preset> {
    [ Preset("Azul", "#3B82F6", "#10B981"),
      Preset("Verde", "#10B981", "#3B82F6"),
      Preset("Roxo", "#8B5CF6", "#EC4899"),
      Preset("Laranja", "#F59E0B", "#EF4444"),
      Preset("Escuro", "#1F2937", "#6B7280") ]
  }

  /** A preset click: two changes in a row, primary colour first. */
  function WithPreset(config: Config, preset: Preset): Config {
    Changed(Changed(config, "primaryColor", Text(preset.primary)), "secondaryColor", Text(preset.secondary))
  }

  /** A preset sets the two colours and nothing else; the defaults are the
      "Azul" preset, and "Verde" is "Azul" with the colours swapped. */
  lemma PresetSpec(config: Config, preset: Preset)
    ensures var r := WithPreset(config, preset);
      && r["primaryColor"] == Text(preset.primary)
      && r["secondaryColor"] == Text(preset.secondary)
      && forall k :: k != "primaryColor" && k != "secondaryColor" ==>
           (k in r <==> k in config) && (k in config ==> r[k] == config[k])
    ensures WellTyped(config) ==> WellTyped(WithPreset(config, preset))
    ensures WithPreset(DefaultConfig(), Presets()[0]) == DefaultConfig()
    ensures Presets()[1].primary == Presets()[0].secondary && Presets()[1].secondary == Presets()[0].primary
  {
    assert "primaryColor" != "secondaryColor";
    var d := DefaultConfig();
    assert d["primaryColor"] == Text("#3B82F6") && d["secondaryColor"] == Text("#10B981");
  }

  /** The store address: the name in lower case with all whitespace removed. */
  function Slug(storeName: string): (r: string)
    ensures forall i :: 0 <= i < |r| ==> !Text.IsWhitespace(r[i]) && !Text.IsUpper(r[i])
  {
    var r := Text.RemoveWhitespace(Text.Lower(storeName));
    assert forall i :: 0 <= i < |r| ==> r[i] in r;
    assert forall c :: c in r ==> c in Text.Lower(storeName);
    r
  }

  /** Taking the address of an address changes nothing. */
  lemma SlugIdempotent(storeName: string)
    ensures Slug(Slug(storeName)) == Slug(storeName)
  {
    var s := Slug(storeName);
    Text.LowerOfLower(s);
    Seqs.FilterAll(s, Text.NotWhitespace);
  }

  class CatalogCustomization {
    var config: Config

    ghost predicate Valid()
      reads this
    {
      WellTyped(config)
    }

    constructor ()
      ensures Valid() && config == DefaultConfig()
    {
      config := DefaultConfig();
    }

    /** An input's change: the setting's own kind of value. */
    method ConfigChange(key: string, value: ConfigValue)
      requires Valid()
      requires key in DefaultConfig() ==> SameKind(value, DefaultConfig()[key])
      modifies this`config
      ensures Valid()
      ensures config == Changed(old(config), key, value)
    {
      config := Changed(config, key, value);
    }

    /** `handleReset`; resetting twice is resetting once. */
    method Reset()
      modifies this`config
      ensures Valid()
      ensures config == DefaultConfig()
    {
      config := DefaultConfig();
    }

    /** A click on preset `i`. */
    method ApplyPreset(i: nat)
      requires Valid() && i < |Presets()|
      modifies this`config
      ensures Valid()
      ensures config == WithPreset(old(config), Presets()[i])
    {
      ConfigChange("primaryColor", Text(Presets()[i].primary));
      ConfigChange("secondaryColor", Text(Presets()[i].secondary));
    }

    /** The address shown under "Links de compartilhamento". */
    function StoreSlug(): string
      reads this
      requires Valid()
    {
      Slug(config["storeName"].text)
    }
  }
}
