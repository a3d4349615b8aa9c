/** PHP value semantics the plugin relies on: optional values (PHP `null`),
    the truthiness of strings, and the host's key-value option store. */
module Php {

  datatype Option<+T> = None | Some(value: T) {
    function GetOr(default: T): T {
      match this
      case Some(v) => v
      case None => default
    }
  }

  /** A PHP string is falsy exactly when it is "" or "0"; every other string is truthy. */
  predicate Truthy(s: string) {
    s != "" && s != "0"
  }

  /** An optional string is truthy when it is set and its value is truthy
      (`isset($x) && $x`, or `if ( $x )` on a value that may be null). */
  predicate TruthyOpt(s: Option<string>) {
    s.Some? && Truthy(s.value)
  }

  /** The option store: option names mapped to their persisted values.
      A name that is not in the map has never been saved. */
  type OptionStore = map<string, string>

  /** `get_option( name, null )`: the stored value, or null when there is none. */
  function GetOption(store: OptionStore, name: string): (r: Option<string>)
    ensures r.Some? <==> name in store
    ensures r.Some? ==> r.value == store[name]
  {
    if name in store then Some(store[name]) else None
  }

  /** The option that gates the badge and the shortcode. */
  const ApiKeyOption: string := "aweb_api_key"
}
