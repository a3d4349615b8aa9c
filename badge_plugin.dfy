/** The main plugin object and its badge injector (includes/class-aweb-badge-plugin.php). */
module BadgePlugin {
  import opened Php

  /** What the constructor asks the host about the current process. */
  datatype Environment = Environment(
    /** `is_admin()`: the request is for an administrative screen. */
    isAdmin: bool,
    /** The `SCRIPT_DEBUG` constant: `None` when it is not defined, else its truthiness. */
    scriptDebug: Option<bool>
  )

  /** The token every option group, page slug and hook name is derived from. */
  const Token: string := "aweb_badge_plugin"

  /** Suffix of the plugin's script file names: `''` when script debugging is on,
      `'.min'` otherwise (`defined( 'SCRIPT_DEBUG' ) && SCRIPT_DEBUG ? '' : '.min'`). */
  function ScriptSuffix(scriptDebug: Option<bool>): (suffix: string)
    ensures suffix == "" <==> scriptDebug == Some(true)
    ensures suffix != "" ==> suffix == ".min"
  {
    if scriptDebug.Some? && scriptDebug.value then "" else ".min"
  }

  /** The generic admin helper; its field rendering is not part of this model. */
  class AdminApi {
    constructor ()
    {
    }
  }

  class Plugin {
    const version: string
    const token: string
    const file: string
    const scriptSuffix: string
    /** Created only for administrative requests. */
    const admin: AdminApi?

    constructor (env: Environment, file: string := "", version: string := "1.0.0")
      ensures this.version == version && this.file == file
      ensures token == Token
      ensures scriptSuffix == ScriptSuffix(env.scriptDebug)
      ensures (admin != null) <==> env.isAdmin
      ensures admin != null ==> fresh(admin)
    {
      this.version := version;
      this.token := Token;
      this.file := file;
      this.scriptSuffix := ScriptSuffix(env.scriptDebug);
      if env.isAdmin {
        var api := new AdminApi();
        this.admin := api;
      } else {
        this.admin := null;
      }
    }
  }

  /** The class's static `$_instance`: the one plugin object of the process. */
  class PluginSingleton {
    var instance: Plugin?

    constructor ()
      ensures instance == null
    {
      instance := null;
    }

    /** `Aweb_Badge_Plugin::instance( $file, $version )`: the first call creates the
        plugin from its arguments; every later call returns that same object and
        ignores its arguments. Both arguments default as in PHP: `''` and `'1.0.0'`. */
    method Instance(env: Environment, file: string := "", version: string := "1.0.0") returns (p: Plugin)
      modifies this
      ensures instance == p
      ensures old(instance) != null ==> p == old(instance)
      ensures old(instance) == null ==>
        && fresh(p) && p.file == file && p.version == version
        && p.token == Token && p.scriptSuffix == ScriptSuffix(env.scriptDebug)
        && (p.admin != null <==> env.isAdmin)
    {
      if instance == null {
        instance := new Plugin(env, file, version);
      }
      p := instance;
    }
  }

  /** Two calls with different arguments, the first relying on the default version:
      the second returns the first object, still carrying the first call's file and
      the default version. */
  method InstanceKeepsFirstArguments(env: Environment)
  {
    var holder := new PluginSingleton();
    var first := holder.Instance(env, "a.php");
    var second := holder.Instance(env, "b.php", "2.0.0");
    assert second == first;
    assert second.version == "1.0.0" && second.file == "a.php";
  }

  /** The badge snippet, in front of and behind the escaped key. */
  const BadgeOpen: string :=
    "\t\t<!-- Begin Accessible Web A11Y Center Button Snippet --> \n"
    + "\t\t<script async defer \n"
    + "\t\t\tid=\"aweb-script\"\n"
    + "\t\t\ttype=\"text/javascript\"\n"
    + "\t\t\tsrc=\"" + BadgeUrlBase
  const BadgeClose: string :=
    BadgeUrlFile + "\"></script> \n"
    + "\t\t<!-- End Accessible Web A11Y Center Button Snippet --> \n"
    + "\t\t"
  const BadgeUrlBase: string := "https://ramp.accessibleweb.com/badge/"
  const BadgeUrlFile: string := "/script.js"

  /** The badge script's URL for an already escaped key. */
  function BadgeUrl(escapedKey: string): string {
    BadgeUrlBase + escapedKey + BadgeUrlFile
  }

  /** `render_badge_snippet( $api_key )`: the text it echoes. A falsy key echoes nothing. */
  function RenderBadgeSnippet(apiKey: string, escAttr: string -> string): (out: string)
    ensures out == "" <==> !Truthy(apiKey)
    ensures Truthy(apiKey) ==> IsBadge(out) && EmbeddedKey(out) == escAttr(apiKey)
  {
    if !Truthy(apiKey) then ""
    else
      var out := BadgeOpen + escAttr(apiKey) + BadgeClose;
      BadgeRoundTrip(escAttr(apiKey));
      out
  }

  /** `maybe_inject_badge()` with the option store passed in. `None` means it returned
      before calling the renderer; `Some(out)` is what the renderer echoed. */
  function MaybeInjectBadge(store: OptionStore, escAttr: string -> string): (r: Option<string>)
    ensures r.None? <==> ApiKeyOption !in store
    ensures r.Some? ==> r.value == RenderBadgeSnippet(store[ApiKeyOption], escAttr)
  {
    var apiKey := GetOption(store, ApiKeyOption);
    if apiKey.None? then None else Some(RenderBadgeSnippet(apiKey.value, escAttr))
  }

  /** The text the footer hook adds to a page. */
  function InjectedText(store: OptionStore, escAttr: string -> string): string {
    MaybeInjectBadge(store, escAttr).GetOr("")
  }

  /** Recognises a badge snippet: the fixed text around the key slot. */
  predicate IsBadge(s: string) {
    |s| >= |BadgeOpen| + |BadgeClose| && s[..|BadgeOpen|] == BadgeOpen && s[|s| - |BadgeClose|..] == BadgeClose
  }

  /** The escaped key a badge snippet carries in its script URL. */
  function EmbeddedKey(s: string): string
    requires IsBadge(s)
  {
    s[|BadgeOpen|..|s| - |BadgeClose|]
  }

  /** The key slot is read back verbatim from the snippet. */
  lemma BadgeRoundTrip(escapedKey: string)
    ensures IsBadge(BadgeOpen + escapedKey + BadgeClose)
    ensures EmbeddedKey(BadgeOpen + escapedKey + BadgeClose) == escapedKey
  {
  }

  /** The snippet holds the script URL built from the escaped key, verbatim. */
  lemma BadgeCarriesUrl(apiKey: string, escAttr: string -> string)
    requires Truthy(apiKey)
    ensures exists i :: OccursAt(BadgeUrl(escAttr(apiKey)), RenderBadgeSnippet(apiKey, escAttr), i)
  {
    var out := RenderBadgeSnippet(apiKey, escAttr);
    var url := BadgeUrl(escAttr(apiKey));
    var head := BadgeOpen[..|BadgeOpen| - |BadgeUrlBase|];
    assert BadgeOpen == head + BadgeUrlBase;
    var i := |head|;
    assert out == head + url + BadgeClose[|BadgeUrlFile|..];
    assert out[i..i + |url|] == url;
    assert OccursAt(url, out, i);
  }

  /** `part` occurs in `s` starting at index i. */
  predicate OccursAt(part: string, s: string, i: int) {
    0 <= i <= |s| - |part| && s[i..i + |part|] == part
  }

  /** The footer emits a badge exactly when the key option is present and truthy. */
  lemma InjectionGate(store: OptionStore, escAttr: string -> string)
    ensures InjectedText(store, escAttr) != "" <==> ApiKeyOption in store && Truthy(store[ApiKeyOption])
    ensures InjectedText(store, escAttr) != "" ==> EmbeddedKey(InjectedText(store, escAttr)) == escAttr(store[ApiKeyOption])
  {
  }
}
