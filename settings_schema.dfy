/** The settings schema, the request's tab selection, and what registering a
    selection adds to the host's settings registries
    (includes/class-aweb-badge-plugin-settings.php). */
module SettingsSchema {
  import opened Php

  /** One configurable value. `callback` is the optional validator (`$field['callback']`). */
  datatype Field = Field(
    id: string,
    labelText: string,
    description: string,
    fieldType: string,
    default: string,
    placeholder: string,
    callback: Option<string>
  )

  /** One tab of the settings page; `id` is its key in the ordered section map. */
  datatype Section = Section(id: string, title: string, description: string, fields: seq<Field>)

  /** The ordered section map, in insertion order. */
  type Schema = seq<Section>

  /** Keys of a PHP array are distinct. */
  ghost predicate UniqueIds(schema: Schema) {
    forall i, j :: 0 <= i < j < |schema| ==> schema[i].id != schema[j].id
  }

  ghost predicate Known(schema: Schema, id: string) {
    exists i :: 0 <= i < |schema| && schema[i].id == id
  }

  /** Prefix of every option name (`$this->base`). */
  const Base: string := "aweb_"

  /** The settings group and page slug: `<token>_settings`. */
  function SettingsPageId(token: string): string {
    token + "_settings"
  }

  // ---------------------------------------------------------------------------
  // The built-in schema (`settings_fields`)

  /** The static markup of the section description: the introduction before the
      review link and the installation instructions after it. */
  datatype DescriptionMarkup = DescriptionMarkup(intro: string, instructions: string)

  const ReviewUrlBase: string := "https://ramp.accessibleweb.com/a11ycenter/"

  /** The paragraph linking to the customer's accessibility center, present only
      when the key option exists (it may be empty). */
  function ReviewParagraph(apiKey: Option<string>, escAttr: string -> string): (p: string)
    ensures p == "" <==> apiKey.None?
  {
    match apiKey
    case None => ""
    case Some(key) => ReviewOpen + escAttr(key) + ReviewClose
  }

  const ReviewOpen: string :=
    "\t\t\t<p>The button will embed your accessibility center into your website. You can <a href=\"" + ReviewUrlBase
  const ReviewClose: string :=
    "/\" target=\"_blank\" rel=\"noreferrer\">review your accessibility center</a> if you'd like to verify its appearance.</p>\n\t\t\t"

  function SectionDescription(apiKey: Option<string>, markup: DescriptionMarkup, escAttr: string -> string): string {
    markup.intro + ReviewParagraph(apiKey, escAttr) + markup.instructions
  }

  /** The built-in schema: one section `standard` holding the API key field. */
  function BuiltInSchema(description: string, translate: string -> string): (schema: Schema)
    ensures |schema| == 1 && schema[0].id == "standard"
    ensures |schema[0].fields| == 1
    ensures schema[0].fields[0].id == "api_key" && schema[0].fields[0].fieldType == "text"
    ensures schema[0].fields[0].default == "" && schema[0].fields[0].callback.None?
    ensures Base + schema[0].fields[0].id == ApiKeyOption
  {
    [Section("standard", translate("Settings"), description, [
      Field("api_key", translate("API Key"), translate("Your api key from Accessible Web RAMP."),
            "text", "", translate("Enter your API key"), None)
    ])]
  }

  /** `settings_fields()`: the built-in schema passed through the `<token>_settings_fields`
      filter, which is given as `filter`. */
  function SettingsFields(store: OptionStore, markup: DescriptionMarkup, translate: string -> string,
                          escAttr: string -> string, filter: Schema -> Schema): Schema
  {
    filter(BuiltInSchema(SectionDescription(GetOption(store, ApiKeyOption), markup, escAttr), translate))
  }

  /** Without an extension on the filter, the schema is the single built-in section,
      and its description carries the review link exactly when the key option exists. */
  lemma DefaultSchema(store: OptionStore, markup: DescriptionMarkup, translate: string -> string, escAttr: string -> string)
    ensures var schema := SettingsFields(store, markup, translate, escAttr, s => s);
      && |schema| == 1 && schema[0].id == "standard"
      && schema[0].fields == [Field("api_key", translate("API Key"), translate("Your api key from Accessible Web RAMP."),
                                    "text", "", translate("Enter your API key"), None)]
      && (schema[0].description == markup.intro + markup.instructions <==> ApiKeyOption !in store)
  {
  }

  // ---------------------------------------------------------------------------
  // The request and the current section

  /** The `tab` parameter of the posted form and of the query string (`None`: not set),
      and whether the query string carries `settings-updated`. */
  datatype Request = Request(postTab: Option<string>, getTab: Option<string>, settingsUpdated: bool)

  /** `$current_section` of `register_settings`: the posted tab when set and truthy,
      else the query tab when set and truthy, else ''; both sanitised. */
  function CurrentSection(req: Request, sanitize: string -> string): (current: string)
    ensures !TruthyOpt(req.postTab) && !TruthyOpt(req.getTab) ==> current == ""
  {
    if TruthyOpt(req.postTab) then sanitize(req.postTab.value)
    else if TruthyOpt(req.getTab) then sanitize(req.getTab.value)
    else ""
  }

  /** The posted tab wins over the query tab, whatever the query holds. */
  lemma PostTabWins(req: Request, getTab: Option<string>, sanitize: string -> string)
    requires TruthyOpt(req.postTab)
    ensures CurrentSection(req, sanitize) == CurrentSection(req.(getTab := getTab), sanitize) == sanitize(req.postTab.value)
  {
  }

  /** A posted tab that is unset, empty or "0" defers to the query tab. */
  lemma GetTabFallback(req: Request, sanitize: string -> string)
    requires !TruthyOpt(req.postTab) && TruthyOpt(req.getTab)
    ensures CurrentSection(req, sanitize) == sanitize(req.getTab.value)
  {
  }

  // ---------------------------------------------------------------------------
  // Which sections `register_settings` registers

  /** The sections whose id is `id`, in schema order. */
  function Matching(schema: Schema, id: string): (m: Schema)
    ensures |m| <= |schema|
    ensures forall k :: 0 <= k < |m| ==> m[k].id == id && m[k] in schema
  {
    if |schema| == 0 then []
    else Matching(schema[..|schema| - 1], id) + (if schema[|schema| - 1].id == id then [schema[|schema| - 1]] else [])
  }

  /** The sections the loop of `register_settings` reaches without skipping: with no
      current section only the first one (the loop breaks after it), otherwise every
      section whose id equals the current section. */
  function Selected(schema: Schema, current: string): Schema {
    if !Truthy(current) then schema[..if |schema| == 0 then 0 else 1]
    else Matching(schema, current)
  }

  lemma {:induction false} MatchingKnown(schema: Schema, i: int)
    requires UniqueIds(schema) && 0 <= i < |schema|
    ensures Matching(schema, schema[i].id) == [schema[i]]
  {
    var n := |schema| - 1;
    if i < n {
      MatchingKnown(schema[..n], i);
    } else {
      MatchingUnknown(schema[..n], schema[i].id);
    }
  }

  lemma {:induction false} MatchingUnknown(schema: Schema, id: string)
    requires forall k :: 0 <= k < |schema| ==> schema[k].id != id
    ensures Matching(schema, id) == []
  {
    if |schema| > 0 {
      MatchingUnknown(schema[..|schema| - 1], id);
    }
  }

  /** No tab: the first section and nothing else. */
  lemma SelectedWithoutTab(schema: Schema, current: string)
    requires !Truthy(current) && |schema| > 0
    ensures Selected(schema, current) == [schema[0]]
  {
  }

  /** A tab naming a known section: exactly that section. */
  lemma SelectedKnownTab(schema: Schema, i: int)
    requires UniqueIds(schema) && 0 <= i < |schema| && Truthy(schema[i].id)
    ensures Selected(schema, schema[i].id) == [schema[i]]
  {
    MatchingKnown(schema, i);
  }

  /** A tab naming no section: nothing at all (no fall back to the first section). */
  lemma SelectedUnknownTab(schema: Schema, current: string)
    requires Truthy(current) && !Known(schema, current)
    ensures Selected(schema, current) == []
  {
    MatchingUnknown(schema, current);
  }

  // ---------------------------------------------------------------------------
  // The host's settings registries and what registering sections adds to them

  /** `add_settings_section( id, title, callback, page )`. */
  datatype SectionEntry = SectionEntry(id: string, title: string, page: string)
  /** `register_setting( group, option_name, validation )`; `validation` is '' when the field has no callback. */
  datatype SettingEntry = SettingEntry(group: string, optionName: string, validation: string)
  /** `add_settings_field( id, label, callback, page, section, args )`; `prefix` is `args['prefix']`. */
  datatype FieldEntry = FieldEntry(id: string, labelText: string, page: string, section: string, field: Field, prefix: string)

  function SettingFor(f: Field, page: string): SettingEntry {
    SettingEntry(page, Base + f.id, f.callback.GetOr(""))
  }

  function FieldEntryFor(f: Field, section: string, page: string): FieldEntry {
    FieldEntry(f.id, f.labelText, page, section, f, Base)
  }

  function SectionEntries(secs: Schema, page: string): seq<SectionEntry> {
    if |secs| == 0 then []
    else
      var last := secs[|secs| - 1];
      SectionEntries(secs[..|secs| - 1], page) + [SectionEntry(last.id, last.title, page)]
  }

  function FieldSettings(fields: seq<Field>, page: string): seq<SettingEntry> {
    if |fields| == 0 then [] else FieldSettings(fields[..|fields| - 1], page) + [SettingFor(fields[|fields| - 1], page)]
  }

  function SettingEntries(secs: Schema, page: string): seq<SettingEntry> {
    if |secs| == 0 then []
    else SettingEntries(secs[..|secs| - 1], page) + FieldSettings(secs[|secs| - 1].fields, page)
  }

  function SectionFieldEntries(fields: seq<Field>, section: string, page: string): seq<FieldEntry> {
    if |fields| == 0 then []
    else SectionFieldEntries(fields[..|fields| - 1], section, page) + [FieldEntryFor(fields[|fields| - 1], section, page)]
  }

  function FieldEntries(secs: Schema, page: string): seq<FieldEntry> {
    if |secs| == 0 then []
    else
      var last := secs[|secs| - 1];
      FieldEntries(secs[..|secs| - 1], page) + SectionFieldEntries(last.fields, last.id, page)
  }

  lemma AppendAssoc<T>(a: seq<T>, b: seq<T>, c: seq<T>)
    ensures (a + b) + c == a + (b + c)
  {
  }

  /** Registering one more section appends its entries after those of the sections before it. */
  lemma EntriesAppend(secs: Schema, s: Section, page: string)
    ensures SectionEntries(secs + [s], page) == SectionEntries(secs, page) + [SectionEntry(s.id, s.title, page)]
    ensures SettingEntries(secs + [s], page) == SettingEntries(secs, page) + FieldSettings(s.fields, page)
    ensures FieldEntries(secs + [s], page) == FieldEntries(secs, page) + SectionFieldEntries(s.fields, s.id, page)
  {
  }

  /** The sections matching among the first i + 1 extend those among the first i. */
  lemma MatchingStep(schema: Schema, i: int, id: string)
    requires 0 <= i < |schema|
    ensures Matching(schema[..i + 1], id) == Matching(schema[..i], id) + (if schema[i].id == id then [schema[i]] else [])
  {
    assert schema[..i + 1][..i] == schema[..i];
  }

  /** Every field of the given sections, in schema order. */
  function AllFields(secs: Schema): seq<Field> {
    if |secs| == 0 then [] else AllFields(secs[..|secs| - 1]) + secs[|secs| - 1].fields
  }

  lemma {:induction false} FieldSettingsAt(fields: seq<Field>, page: string)
    ensures |FieldSettings(fields, page)| == |fields|
    ensures forall k :: 0 <= k < |fields| ==> FieldSettings(fields, page)[k] == SettingFor(fields[k], page)
  {
    if |fields| > 0 {
      FieldSettingsAt(fields[..|fields| - 1], page);
    }
  }

  /** One setting per field, in schema order, named `aweb_<field id>`, validated by the
      field's callback or by nothing (''), all in the group `page`. */
  lemma {:induction false} SettingEntriesAt(secs: Schema, page: string)
    ensures |SettingEntries(secs, page)| == |AllFields(secs)|
    ensures forall k :: 0 <= k < |AllFields(secs)| ==>
      && SettingEntries(secs, page)[k].group == page
      && SettingEntries(secs, page)[k].optionName == Base + AllFields(secs)[k].id
      && SettingEntries(secs, page)[k].validation == AllFields(secs)[k].callback.GetOr("")
  {
    if |secs| > 0 {
      var init := secs[..|secs| - 1];
      SettingEntriesAt(init, page);
      FieldSettingsAt(secs[|secs| - 1].fields, page);
      assert SettingEntries(secs, page) == SettingEntries(init, page) + FieldSettings(secs[|secs| - 1].fields, page);
      assert AllFields(secs) == AllFields(init) + secs[|secs| - 1].fields;
    }
  }

  lemma {:induction false} SectionFieldEntriesAt(fields: seq<Field>, section: string, page: string)
    ensures |SectionFieldEntries(fields, section, page)| == |fields|
    ensures forall k :: 0 <= k < |fields| ==> SectionFieldEntries(fields, section, page)[k] == FieldEntryFor(fields[k], section, page)
  {
    if |fields| > 0 {
      SectionFieldEntriesAt(fields[..|fields| - 1], section, page);
    }
  }

  /** Each field entry names a section among `secs` and carries the prefix `aweb_`;
      when every section of `secs` has id `id`, every field entry is placed in `id`. */
  lemma {:induction false} FieldEntriesInSections(secs: Schema, page: string, id: string)
    requires forall k :: 0 <= k < |secs| ==> secs[k].id == id
    ensures |FieldEntries(secs, page)| == |AllFields(secs)|
    ensures forall k :: 0 <= k < |FieldEntries(secs, page)| ==>
      && FieldEntries(secs, page)[k].section == id
      && FieldEntries(secs, page)[k].page == page
      && FieldEntries(secs, page)[k].prefix == Base
      && FieldEntries(secs, page)[k].field == AllFields(secs)[k]
  {
    if |secs| > 0 {
      var init := secs[..|secs| - 1];
      var last := secs[|secs| - 1];
      FieldEntriesInSections(init, page, id);
      SectionFieldEntriesAt(last.fields, last.id, page);
      assert FieldEntries(secs, page) == FieldEntries(init, page) + SectionFieldEntries(last.fields, last.id, page);
      assert AllFields(secs) == AllFields(init) + last.fields;
    }
  }

  /** A tab naming a known section registers that section, a setting `aweb_<id>` for
      each of its fields in order, and a control for each field placed in that section. */
  lemma KnownTabRegistersOnlyIt(schema: Schema, i: int, page: string)
    requires UniqueIds(schema) && 0 <= i < |schema| && Truthy(schema[i].id)
    ensures var sel := Selected(schema, schema[i].id);
      && SectionEntries(sel, page) == [SectionEntry(schema[i].id, schema[i].title, page)]
      && |SettingEntries(sel, page)| == |schema[i].fields|
      && (forall k :: 0 <= k < |schema[i].fields| ==>
            SettingEntries(sel, page)[k] == SettingEntry(page, Base + schema[i].fields[k].id, schema[i].fields[k].callback.GetOr("")))
      && |FieldEntries(sel, page)| == |schema[i].fields|
      && (forall k :: 0 <= k < |FieldEntries(sel, page)| ==>
            FieldEntries(sel, page)[k].section == schema[i].id && FieldEntries(sel, page)[k].field == schema[i].fields[k])
  {
    SelectedKnownTab(schema, i);
    var s := schema[i];
    assert [s][..0] == [];
    assert SettingEntries([s], page) == FieldSettings(s.fields, page);
    FieldSettingsAt(s.fields, page);
    assert FieldEntries([s], page) == SectionFieldEntries(s.fields, s.id, page);
    SectionFieldEntriesAt(s.fields, s.id, page);
  }

  /** No tab: only the first section and its fields are registered. */
  lemma NoTabRegistersFirst(schema: Schema, current: string, page: string)
    requires !Truthy(current) && |schema| > 0
    ensures SectionEntries(Selected(schema, current), page) == [SectionEntry(schema[0].id, schema[0].title, page)]
    ensures SettingEntries(Selected(schema, current), page) == FieldSettings(schema[0].fields, page)
    ensures FieldEntries(Selected(schema, current), page) == SectionFieldEntries(schema[0].fields, schema[0].id, page)
  {
  }

  /** A tab naming no section registers nothing at all. */
  lemma UnknownTabRegistersNothing(schema: Schema, current: string, page: string)
    requires Truthy(current) && !Known(schema, current)
    ensures SectionEntries(Selected(schema, current), page) == []
    ensures SettingEntries(Selected(schema, current), page) == []
    ensures FieldEntries(Selected(schema, current), page) == []
  {
  }

  /** The host's registries of sections, settings, fields and admin pages, which the
      plugin only ever appends to. */
  class SettingsRegistry {
    var sections: seq<SectionEntry>
    var settings: seq<SettingEntry>
    var fields: seq<FieldEntry>

    constructor ()
      ensures sections == [] && settings == [] && fields == []
    {
      sections, settings, fields := [], [], [];
    }

    method AddSection(e: SectionEntry)
      modifies this
      ensures sections == old(sections) + [e] && settings == old(settings) && fields == old(fields)
    {
      sections := sections + [e];
    }

    method RegisterSetting(e: SettingEntry)
      modifies this
      ensures settings == old(settings) + [e] && sections == old(sections) && fields == old(fields)
    {
      settings := settings + [e];
    }

    method AddField(e: FieldEntry)
      modifies this
      ensures fields == old(fields) + [e] && sections == old(sections) && settings == old(settings)
    {
      fields := fields + [e];
    }
  }
}
