/** The host platform's string utilities, which the plugin calls but does not define.
    They are passed in as values so that every property proved here holds for any
    escaping, translation, sanitisation and URL-building the host supplies. */
module Host {

  datatype Host = Host(
    /** `esc_attr`: escapes a string for use inside an HTML attribute. */
    escAttr: string -> string,
    /** `esc_html`: escapes a string for use as HTML text. */
    escHtml: string -> string,
    /** `__( text, 'aweb-badge-plugin' )`: translates a message. */
    translate: string -> string,
    /** `sanitize_text_field`: cleans a request parameter. */
    sanitize: string -> string,
    /** `add_query_arg( array( 'tab' => id ) )`: the current URL with its `tab` parameter set to id. */
    withTab: string -> string,
    /** `remove_query_arg( 'settings-updated', url )`. */
    withoutUpdated: string -> string
  )
}
