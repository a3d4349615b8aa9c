/** The `accessible_web_target_snippet` shortcode handler
    (includes/lib/class-aweb-badge-plugin-shortcodes.php). */
module Shortcodes {
  import opened Php

  /** The name the handler is registered under. */
  const ShortcodeTag: string := "accessible_web_target_snippet"

  /** The text-only variant wraps the shortcode's content between these two strings.
      The opening is written in two pieces so that the verifier can read its
      characters (`ShapesDiffer` compares one of them); it is one string. */
  const TextOpen: string := "<!-- Begin Accessible Web " + "Text Only Target Snippet --><a href=\"#\" data-awam-target>"
  const TextClose: string := "</a><!-- End Accessible Web Text Only Target Snippet -->"

  /** The fixed hidden placeholder emitted when there is no content. */
  const ButtonTarget: string :=
    "<!-- Begin Accessible Web A11Y Center Button Target Snippet -->\n"
    + "<div data-awam-target style=\"display:none;\"></div> \n"
    + "<!-- End Accessible Web A11Y Center Button Target Snippet -->"

  /** `target_snippet_shortcode( $atts, $content )` with `get_option( 'aweb_api_key', null )`
      passed in as `apiKey`. `None` is the handler's bare `return;` (PHP null). */
  function TargetSnippetShortcode(apiKey: Option<string>, atts: map<string, string>, content: Option<string>): (r: Option<string>)
    // the only gate is whether the option exists, not whether it is truthy
    ensures r.None? <==> apiKey.None?
    ensures r.Some? ==> |r.value| > 0
    // the two shapes, chosen by the truthiness of the content
    ensures r.Some? && TruthyOpt(content) ==> IsTextTarget(r.value) && TextTargetContent(r.value) == content.value
    ensures r.Some? && !TruthyOpt(content) ==> r.value == ButtonTarget
  {
    if apiKey.None? then
      None
    else
      if TruthyOpt(content) then
        Some(TextOpen + content.value + TextClose)
      else
        Some(ButtonTarget)
  }

  /** Recognises the text-only variant: the fixed opening, some text, the fixed closing. */
  predicate IsTextTarget(s: string) {
    |s| >= |TextOpen| + |TextClose| && s[..|TextOpen|] == TextOpen && s[|s| - |TextClose|..] == TextClose
  }

  /** The text wrapped by the text-only variant. */
  function TextTargetContent(s: string): string
    requires IsTextTarget(s)
  {
    s[|TextOpen|..|s| - |TextClose|]
  }

  /** Wrapping is undone by `TextTargetContent`: the content is kept verbatim, unescaped. */
  lemma TextTargetRoundTrip(text: string)
    ensures IsTextTarget(TextOpen + text + TextClose)
    ensures TextTargetContent(TextOpen + text + TextClose) == text
  {
  }

  /** The two shapes never coincide: the button placeholder is not a text-only anchor. */
  lemma ShapesDiffer()
    ensures !IsTextTarget(ButtonTarget)
  {
    assert ButtonTarget[26] == 'A';
    assert TextOpen[26] == "Text Only Target Snippet -->"[0] == 'T';
  }

  /** The output does not depend on the attributes. */
  lemma AttributesIgnored(apiKey: Option<string>, atts1: map<string, string>, atts2: map<string, string>, content: Option<string>)
    ensures TargetSnippetShortcode(apiKey, atts1, content) == TargetSnippetShortcode(apiKey, atts2, content)
  {
  }

  /** Without the option nothing is returned, whatever the attributes and content. */
  lemma AbsentKeyGivesNothing(atts: map<string, string>, content: Option<string>)
    ensures TargetSnippetShortcode(None, atts, content) == None
  {
  }

  /** An empty or "0" option still produces output: the gate is presence only. */
  lemma FalsyKeyStillRenders(key: string, atts: map<string, string>, content: Option<string>)
    requires !Truthy(key)
    ensures TargetSnippetShortcode(Some(key), atts, content).Some?
  {
  }
}
