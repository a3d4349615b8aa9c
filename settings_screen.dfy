/** The markup of the settings page: the tab strip, which tab is active, and the
    form around the host's field output (`settings_page` in
    includes/class-aweb-badge-plugin-settings.php). */
module SettingsScreen {
  import opened Php
  import opened Host
  import opened SettingsSchema

  /** Whether tab k is marked active. With no `tab` in the query string the first
      tab is; otherwise every tab whose id equals the raw query value is. */
  predicate TabActive(schema: Schema, k: int, getTab: Option<string>)
    requires 0 <= k < |schema|
  {
    if getTab.None? then k == 0 else schema[k].id == getTab.value
  }

  function TabClass(schema: Schema, k: int, getTab: Option<string>): string
    requires 0 <= k < |schema|
  {
    if TabActive(schema, k, getTab) then "nav-tab" + " nav-tab-active" else "nav-tab"
  }

  /** The tab's link: the current URL with `tab` set to the section id, without
      `settings-updated` when the query carries it. */
  function TabLink(id: string, req: Request, host: Host): string {
    if req.settingsUpdated then host.withoutUpdated(host.withTab(id)) else host.withTab(id)
  }

  function TabHtml(schema: Schema, k: int, req: Request, host: Host): string
    requires 0 <= k < |schema|
  {
    "<a href=\"" + TabLink(schema[k].id, req, host) + "\" class=\"" + host.escAttr(TabClass(schema, k, req.getTab))
    + "\">" + host.escHtml(schema[k].title) + "</a>\n"
  }

  /** The links of the first n tabs, in schema order. */
  function TabsHtml(schema: Schema, n: int, req: Request, host: Host): string
    requires 0 <= n <= |schema|
  {
    if n == 0 then "" else TabsHtml(schema, n - 1, req, host) + TabHtml(schema, n - 1, req, host)
  }

  const TabStripOpen: string := "<h2 class=\"nav-tab-wrapper\">\n"
  const TabStripClose: string := "</h2>\n"

  /** The tab strip: present only when the schema has more than one section. */
  function TabStrip(schema: Schema, req: Request, host: Host): string {
    if 1 < |schema| then TabStripOpen + TabsHtml(schema, |schema|, req, host) + TabStripClose else ""
  }

  /** The value of the form's hidden `tab` field: the sanitised query tab when it is
      set and truthy, else ''. (The posted tab is not consulted here.) */
  function HiddenTab(req: Request, sanitize: string -> string): string {
    if TruthyOpt(req.getTab) then sanitize(req.getTab.value) else ""
  }

  function PageHead(token: string, host: Host): string {
    "<div class=\"wrap\" id=\"" + token + "_settings\">\n"
    + "<h2>" + host.translate("Accessible Web A11Y Center") + "</h2>\n"
  }

  /** The form: the host's hidden fields and sections (`formFields`), the hidden tab
      field and the submit button. */
  function PageForm(formFields: string, hiddenTab: string, host: Host): string {
    "<form method=\"post\" action=\"options.php\" enctype=\"multipart/form-data\">\n"
    + formFields
    + "<p class=\"submit\">\n"
    + "<input type=\"hidden\" name=\"tab\" value=\"" + host.escAttr(hiddenTab) + "\" />\n"
    + "<input name=\"Submit\" type=\"submit\" class=\"button-primary\" value=\""
    + host.escAttr(host.translate("Save Settings")) + "\" />\n"
    + "</p>\n"
    + "</form>\n"
    + "</div>\n"
  }

  /** The whole page `settings_page` echoes. */
  function PageHtml(schema: Schema, token: string, req: Request, host: Host, formFields: string): string {
    PageHead(token, host) + TabStrip(schema, req, host) + PageForm(formFields, HiddenTab(req, host.sanitize), host)
  }

  /** The indices of the active tabs. */
  function ActiveTabs(schema: Schema, getTab: Option<string>): set<int> {
    set k | 0 <= k < |schema| && TabActive(schema, k, getTab)
  }

  /** The strip is there exactly when there is more than one section. */
  lemma TabStripShown(schema: Schema, req: Request, host: Host)
    ensures TabStrip(schema, req, host) != "" <==> 1 < |schema|
  {
  }

  /** The strip holds one link per section, in schema order: the first n links are
      a prefix of the first n + 1. */
  lemma {:induction false} TabsInOrder(schema: Schema, m: int, n: int, req: Request, host: Host)
    requires 0 <= m <= n <= |schema|
    ensures |TabsHtml(schema, m, req, host)| <= |TabsHtml(schema, n, req, host)|
    ensures TabsHtml(schema, n, req, host)[..|TabsHtml(schema, m, req, host)|] == TabsHtml(schema, m, req, host)
  {
    if m < n {
      TabsInOrder(schema, m, n - 1, req, host);
      var a := TabsHtml(schema, n - 1, req, host);
      var b := TabHtml(schema, n - 1, req, host);
      assert TabsHtml(schema, n, req, host) == a + b;
      assert (a + b)[..|a|] == a;
    }
  }

  /** Each section contributes a link of its own: tab k's link sits right after the
      links of the tabs before it. */
  lemma TabAtPosition(schema: Schema, k: int, req: Request, host: Host)
    requires 0 <= k < |schema|
    ensures var before := TabsHtml(schema, k, req, host);
            var link := TabHtml(schema, k, req, host);
            var all := TabsHtml(schema, |schema|, req, host);
            |before| + |link| <= |all| && all[|before|..|before| + |link|] == link
  {
    var before := TabsHtml(schema, k, req, host);
    var link := TabHtml(schema, k, req, host);
    TabsInOrder(schema, k + 1, |schema|, req, host);
    assert TabsHtml(schema, k + 1, req, host) == before + link;
    var all := TabsHtml(schema, |schema|, req, host);
    assert all[..|before| + |link|] == before + link;
    assert all[|before|..|before| + |link|] == (before + link)[|before|..];
  }

  /** No `tab` in the query string: exactly the first tab is active. */
  lemma NoTabActivatesFirst(schema: Schema)
    requires |schema| > 0
    ensures ActiveTabs(schema, None) == {0}
  {
  }

  /** A query tab naming a section: exactly that section's tab is active. */
  lemma KnownTabActivatesIt(schema: Schema, i: int)
    requires UniqueIds(schema) && 0 <= i < |schema|
    ensures ActiveTabs(schema, Some(schema[i].id)) == {i}
  {
  }

  /** A query tab naming no section (including an empty one): no tab is active. */
  lemma UnknownTabActivatesNone(schema: Schema, tab: string)
    requires !Known(schema, tab)
    ensures ActiveTabs(schema, Some(tab)) == {}
  {
  }
}
