/** The settings object (`Aweb_Badge_Plugin_Settings` in
    includes/class-aweb-badge-plugin-settings.php): its schema, registering the current
    tab's section with the host, the settings page, the admin menu entry and the
    plugins-list link. */
module SettingsAdmin {
  import opened Php
  import opened Host
  import opened SettingsSchema
  import opened SettingsScreen
  import opened BadgePlugin

  // ---------------------------------------------------------------------------
  // The admin menu entry

  /** The `<prefix>menu_settings` arguments. `location` is `None` when the key is not set. */
  datatype MenuArgs = MenuArgs(
    location: Option<string>,
    parentSlug: string,
    pageTitle: string,
    menuTitle: string,
    capability: string,
    menuSlug: string,
    iconUrl: string,
    position: Option<int>
  )

  /** A page added with `add_submenu_page` or with `add_menu_page`. */
  datatype MenuPage =
    | SubmenuPage(parentSlug: string, pageTitle: string, menuTitle: string, capability: string, menuSlug: string)
    | TopLevelPage(pageTitle: string, menuTitle: string, capability: string, menuSlug: string, iconUrl: string, position: Option<int>)

  /** The arguments before filtering: a submenu of Settings, slug `<token>_settings`. */
  function DefaultMenuArgs(token: string, translate: string -> string): (a: MenuArgs)
    ensures a.location == Some("options") && a.parentSlug == "options-general.php"
    ensures a.capability == "manage_options" && a.menuSlug == SettingsPageId(token)
    ensures a.iconUrl == "" && a.position.None?
  {
    MenuArgs(Some("options"), "options-general.php", translate("Accessible Web A11Y Center"),
             translate("A11Y Center"), "manage_options", token + "_settings", "", None)
  }

  /** `configure_settings`, the plugin's own handler on the menu filter: it returns its argument. */
  function ConfigureSettings(args: Option<MenuArgs>): (r: Option<MenuArgs>)
    ensures r == args
  {
    args
  }

  /** The page `add_menu_item` adds for the filtered arguments (`None` when the filter
      returned something other than an array), or `None` when it adds nothing.
      `pageFunctionExists` is the host's `function_exists`. */
  function MenuPageFor(args: Option<MenuArgs>, pageFunctionExists: string -> bool): (page: Option<MenuPage>)
    ensures page.Some? ==> args.Some? && args.value.location.Some?
                           && pageFunctionExists("add_" + args.value.location.value + "_page")
    ensures page.Some? && page.value.SubmenuPage? ==>
              var a := args.value;
              && a.location.value in {"options", "submenu"}
              && page.value == SubmenuPage(a.parentSlug, a.pageTitle, a.menuTitle, a.capability, a.menuSlug)
    ensures page.Some? && page.value.TopLevelPage? ==>
              var a := args.value;
              && a.location.value == "menu"
              && page.value == TopLevelPage(a.pageTitle, a.menuTitle, a.capability, a.menuSlug, a.iconUrl, a.position)
  {
    if args.Some? && args.value.location.Some? && pageFunctionExists("add_" + args.value.location.value + "_page") then
      var a := args.value;
      match a.location.value
      case "options" => Some(SubmenuPage(a.parentSlug, a.pageTitle, a.menuTitle, a.capability, a.menuSlug))
      case "submenu" => Some(SubmenuPage(a.parentSlug, a.pageTitle, a.menuTitle, a.capability, a.menuSlug))
      case "menu" => Some(TopLevelPage(a.pageTitle, a.menuTitle, a.capability, a.menuSlug, a.iconUrl, a.position))
      case _ => None
    else
      None
  }

  /** Only the three known locations add a page, whenever their host function exists. */
  lemma MenuLocations(args: MenuArgs, pageFunctionExists: string -> bool)
    requires args.location.Some? && pageFunctionExists("add_" + args.location.value + "_page")
    ensures MenuPageFor(Some(args), pageFunctionExists).Some? <==> args.location.value in {"options", "submenu", "menu"}
    ensures MenuPageFor(Some(args), pageFunctionExists).Some? ==>
      (MenuPageFor(Some(args), pageFunctionExists).value.TopLevelPage? <==> args.location.value == "menu")
  {
  }

  /** Without an extension on the filter the settings page is a submenu of Settings. */
  lemma DefaultMenuIsSettingsSubmenu(token: string, translate: string -> string, pageFunctionExists: string -> bool)
    requires pageFunctionExists("add_options_page")
    ensures MenuPageFor(ConfigureSettings(Some(DefaultMenuArgs(token, translate))), pageFunctionExists)
            == Some(SubmenuPage("options-general.php", translate("Accessible Web A11Y Center"), translate("A11Y Center"),
                                "manage_options", token + "_settings"))
  {
    assert "add_" + "options" + "_page" == "add_options_page";
  }

  /** The host's admin menu: the pages added so far. */
  class AdminMenu {
    var pages: seq<MenuPage>

    constructor ()
      ensures pages == []
    {
      pages := [];
    }

    method AddPage(p: MenuPage)
      modifies this
      ensures pages == old(pages) + [p]
    {
      pages := pages + [p];
    }
  }

  // ---------------------------------------------------------------------------
  // The plugins-list link

  function SettingsLinkHtml(token: string, translate: string -> string): string {
    "<a href=\"options-general.php?page=" + token + "_settings\">" + translate("Settings") + "</a>"
  }

  // ---------------------------------------------------------------------------
  // `settings_section`

  /** The description of the first section with the given id, or '' when there is none
      (PHP reads a missing key as null, which concatenates as ''). */
  function DescriptionOf(schema: Schema, id: string): string {
    if |schema| == 0 then ""
    else if schema[0].id == id then schema[0].description
    else DescriptionOf(schema[1..], id)
  }

  lemma {:induction false} DescriptionOfKnown(schema: Schema, i: int)
    requires UniqueIds(schema) && 0 <= i < |schema|
    ensures DescriptionOf(schema, schema[i].id) == schema[i].description
  {
    if i > 0 {
      DescriptionOfKnown(schema[1..], i - 1);
    }
  }

  lemma {:induction false} DescriptionOfUnknown(schema: Schema, id: string)
    requires !Known(schema, id)
    ensures DescriptionOf(schema, id) == ""
  {
    if |schema| > 0 {
      assert schema[0].id != id;
      DescriptionOfUnknown(schema[1..], id);
    }
  }

  /** The two cases of `DescriptionOf`, in the form `settings_section` needs. */
  lemma DescriptionLookup(schema: Schema, id: string)
    ensures UniqueIds(schema) ==> forall i :: 0 <= i < |schema| && schema[i].id == id ==> DescriptionOf(schema, id) == schema[i].description
    ensures !Known(schema, id) ==> DescriptionOf(schema, id) == ""
  {
  }

  // ---------------------------------------------------------------------------
  // The settings object

  class Settings {
    const parent: Plugin
    /** Prefix of every option name. */
    const base: string := Base
    /** The section schema, set by `InitSettings`. */
    var settings: Schema

    constructor (parent: Plugin)
      ensures this.parent == parent && base == Base && settings == []
    {
      this.parent := parent;
      this.settings := [];
    }

    /** `init_settings`: the schema becomes `settings_fields()`. */
    method InitSettings(store: OptionStore, markup: DescriptionMarkup, host: Host, filter: Schema -> Schema)
      modifies this
      ensures settings == SettingsFields(store, markup, host.translate, host.escAttr, filter)
    {
      settings := SettingsFields(store, markup, host.translate, host.escAttr, filter);
    }

    /** `register_settings`: registers with the host the section the request selects,
        each of its fields as a setting `aweb_<id>` in the group `<token>_settings`, and
        each field's control. */
    method RegisterSettings(req: Request, host: Host, api: SettingsRegistry)
      modifies api
      ensures var page := SettingsPageId(parent.token);
              var sel := Selected(settings, CurrentSection(req, host.sanitize));
              && api.sections == old(api.sections) + SectionEntries(sel, page)
              && api.settings == old(api.settings) + SettingEntries(sel, page)
              && api.fields == old(api.fields) + FieldEntries(sel, page)
    {
      var current := "";
      if TruthyOpt(req.postTab) {
        current := host.sanitize(req.postTab.value);
      } else {
        if TruthyOpt(req.getTab) {
          current := host.sanitize(req.getTab.value);
        }
      }
      assert current == CurrentSection(req, host.sanitize);

      var page := parent.token + "_settings";
      var schema := settings;
      ghost var sections0, settings0, fields0 := api.sections, api.settings, api.fields;
      ghost var done: Schema := [];
      var i := 0;
      while i < |schema|
        invariant 0 <= i <= |schema|
        invariant !Truthy(current) ==> i == 0
        invariant done == if Truthy(current) then Matching(schema[..i], current) else []
        invariant api.sections == sections0 + SectionEntries(done, page)
        invariant api.settings == settings0 + SettingEntries(done, page)
        invariant api.fields == fields0 + FieldEntries(done, page)
      {
        var section := schema[i];
        MatchingStep(schema, i, current);
        if Truthy(current) && current != section.id {
          i := i + 1;
          continue;
        }

        RegisterSection(section, page, api);
        EntriesAppend(done, section, page);
        AppendAssoc(sections0, SectionEntries(done, page), [SectionEntry(section.id, section.title, page)]);
        AppendAssoc(settings0, SettingEntries(done, page), FieldSettings(section.fields, page));
        AppendAssoc(fields0, FieldEntries(done, page), SectionFieldEntries(section.fields, section.id, page));
        done := done + [section];

        if !Truthy(current) {
          break;
        }
        i := i + 1;
      }
      assert Truthy(current) ==> schema[..i] == schema;
    }

    /** The body of the loop of `register_settings` for one section that is not skipped:
        the section, then for each field its setting and its control. */
    method RegisterSection(section: Section, page: string, api: SettingsRegistry)
      modifies api
      ensures api.sections == old(api.sections) + [SectionEntry(section.id, section.title, page)]
      ensures api.settings == old(api.settings) + FieldSettings(section.fields, page)
      ensures api.fields == old(api.fields) + SectionFieldEntries(section.fields, section.id, page)
    {
      api.AddSection(SectionEntry(section.id, section.title, page));

      var j := 0;
      while j < |section.fields|
        invariant 0 <= j <= |section.fields|
        invariant api.sections == old(api.sections) + [SectionEntry(section.id, section.title, page)]
        invariant api.settings == old(api.settings) + FieldSettings(section.fields[..j], page)
        invariant api.fields == old(api.fields) + SectionFieldEntries(section.fields[..j], section.id, page)
      {
        var field := section.fields[j];
        assert section.fields[..j + 1][..j] == section.fields[..j];
        var validation := "";
        if field.callback.Some? {
          validation := field.callback.value;
        }
        var optionName := base + field.id;
        api.RegisterSetting(SettingEntry(page, optionName, validation));
        api.AddField(FieldEntry(field.id, field.labelText, page, section.id, field, base));
        j := j + 1;
      }
      assert section.fields[..j] == section.fields;
    }

    /** `settings_page`: the page it echoes, given what the host's `settings_fields` and
        `do_settings_sections` print (`formFields`). */
    method SettingsPage(req: Request, host: Host, formFields: string) returns (html: string)
      ensures html == PageHtml(settings, parent.token, req, host, formFields)
    {
      html := "<div class=\"wrap\" id=\"" + parent.token + "_settings\">\n";
      html := html + "<h2>" + host.translate("Accessible Web A11Y Center") + "</h2>\n";
      ghost var head := html;
      assert head == PageHead(parent.token, host);

      var tab := "";
      if TruthyOpt(req.getTab) {
        tab := tab + host.sanitize(req.getTab.value);
      }
      assert tab == HiddenTab(req, host.sanitize);

      if 1 < |settings| {
        html := html + "<h2 class=\"nav-tab-wrapper\">\n";
        var links := TabLinks(req, host);
        html := html + links;
        html := html + "</h2>\n";
        AppendAssoc(head, TabStripOpen, links);
        AppendAssoc(head, TabStripOpen + links, TabStripClose);
      }
      assert html == head + TabStrip(settings, req, host);

      var form := "<form method=\"post\" action=\"options.php\" enctype=\"multipart/form-data\">\n";
      form := form + formFields;
      form := form + "<p class=\"submit\">\n";
      form := form + "<input type=\"hidden\" name=\"tab\" value=\"" + host.escAttr(tab) + "\" />\n";
      form := form + "<input name=\"Submit\" type=\"submit\" class=\"button-primary\" value=\"" + host.escAttr(host.translate("Save Settings")) + "\" />\n";
      form := form + "</p>\n";
      form := form + "</form>\n";
      form := form + "</div>\n";
      assert form == PageForm(formFields, HiddenTab(req, host.sanitize), host);
      html := html + form;
    }

    /** The loop of `settings_page` over the sections: one link per section, the first
        one or the one the query names marked active. */
    method TabLinks(req: Request, host: Host) returns (html: string)
      ensures html == TabsHtml(settings, |settings|, req, host)
    {
      html := "";
      var c := 0;
      while c < |settings|
        invariant 0 <= c <= |settings|
        invariant html == TabsHtml(settings, c, req, host)
      {
        var section := settings[c];
        var tabClass := "nav-tab";
        if req.getTab.None? {
          if c == 0 {
            tabClass := tabClass + " nav-tab-active";
          }
        } else {
          if section.id == req.getTab.value {
            tabClass := tabClass + " nav-tab-active";
          }
        }
        assert tabClass == TabClass(settings, c, req.getTab);

        var tabLink := host.withTab(section.id);
        if req.settingsUpdated {
          tabLink := host.withoutUpdated(tabLink);
        }

        var link := "<a href=\"" + tabLink + "\" class=\"" + host.escAttr(tabClass) + "\">" + host.escHtml(section.title) + "</a>\n";
        assert link == TabHtml(settings, c, req, host);
        html := html + link;
        c := c + 1;
      }
    }

    /** `settings_section`: the paragraph holding the description of the section with
        the given id, or an empty paragraph when no section has that id. */
    function SettingsSection(sectionId: string): (html: string)
      reads this
      ensures UniqueIds(settings) ==> forall i :: 0 <= i < |settings| && settings[i].id == sectionId ==>
        html == "<p> " + settings[i].description + "</p>\n"
      ensures !Known(settings, sectionId) ==> html == "<p> </p>\n"
    {
      DescriptionLookup(settings, sectionId);
      "<p> " + DescriptionOf(settings, sectionId) + "</p>\n"
    }

    /** `add_settings_link`: the list of links with the settings link appended. */
    method AddSettingsLink(links: seq<string>, translate: string -> string) returns (r: seq<string>)
      ensures |r| == |links| + 1
      ensures r[..|links|] == links
      ensures r[|links|] == SettingsLinkHtml(parent.token, translate)
    {
      var settingsLink := "<a href=\"options-general.php?page=" + parent.token + "_settings\">" + translate("Settings") + "</a>";
      r := links;
      r := r + [settingsLink];
    }

    /** `add_menu_item`: adds the page the filtered menu arguments call for, if any.
        `menuFilter` is the `<prefix>menu_settings` filter applied to the defaults. */
    method AddMenuItem(menuFilter: MenuArgs -> Option<MenuArgs>, translate: string -> string,
                       pageFunctionExists: string -> bool, menu: AdminMenu)
      modifies menu
      ensures var page := MenuPageFor(menuFilter(DefaultMenuArgs(parent.token, translate)), pageFunctionExists);
              menu.pages == old(menu.pages) + (if page.Some? then [page.value] else [])
    {
      var args := menuFilter(DefaultMenuArgs(parent.token, translate));
      if args.Some? && args.value.location.Some? && pageFunctionExists("add_" + args.value.location.value + "_page") {
        var a := args.value;
        match a.location.value {
          case "options" =>
            menu.AddPage(SubmenuPage(a.parentSlug, a.pageTitle, a.menuTitle, a.capability, a.menuSlug));
          case "submenu" =>
            menu.AddPage(SubmenuPage(a.parentSlug, a.pageTitle, a.menuTitle, a.capability, a.menuSlug));
          case "menu" =>
            menu.AddPage(TopLevelPage(a.pageTitle, a.menuTitle, a.capability, a.menuSlug, a.iconUrl, a.position));
          case _ =>
            return;
        }
      }
    }
  }

  /** The class's static `$_instance`: the one settings object of the process. */
  class SettingsSingleton {
    var instance: Settings?

    constructor ()
      ensures instance == null
    {
      instance := null;
    }

    /** `Aweb_Badge_Plugin_Settings::instance( $parent )`: the first call creates the
        settings object for `parent`; later calls return it and ignore their argument. */
    method Instance(parent: Plugin) returns (s: Settings)
      modifies this
      ensures instance == s
      ensures old(instance) != null ==> s == old(instance)
      ensures old(instance) == null ==> fresh(s) && s.parent == parent && s.base == Base && s.settings == []
    {
      if instance == null {
        instance := new Settings(parent);
      }
      s := instance;
    }
  }
}
