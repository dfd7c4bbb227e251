/** The application shell's two query-string effects: keeping `utm_source` in the
    address while the user navigates, and the `theme` parameter choosing dark mode. */
module App {
  import opened Wrappers
  import opened Strings

  const UtmKey: string := "utm_source"

  /** The query string with the preserved source appended: after `&` when there is
      already a query, after `?` when there is none. */
  function WithSource(search: string, source: string): string {
    if search != "" then search + "&" + UtmKey + "=" + source
    else search + "?" + UtmKey + "=" + source
  }

  /** The rewrite the effect asks the router for: a preserved source must be known
      (non-empty) and the query must not mention `utm_source` yet; `None` is no
      rewrite. */
  function UtmRewrite(search: string, preservedSource: Option<string>): Option<string> {
    if preservedSource.Some? && preservedSource.value != "" && !Includes(search, UtmKey)
    then Some(WithSource(search, preservedSource.value))
    else None
  }

  /** The rewrite happens exactly when a source is preserved and the query lacks it;
      it keeps the old query as a prefix, uses `&` after a non-empty query and `?`
      for an empty one, ends with the source, and leaves a query that mentions
      `utm_source`, so running the effect on the rewritten address changes nothing. */
  lemma UtmRewriteSpec(search: string, preservedSource: Option<string>)
    ensures UtmRewrite(search, preservedSource).Some? <==>
              preservedSource.Some? && preservedSource.value != "" && !Includes(search, UtmKey)
    ensures UtmRewrite(search, preservedSource).Some? ==>
              var r := UtmRewrite(search, preservedSource).value;
              && r == search + (if search != "" then "&" else "?") + "utm_source=" + preservedSource.value
              && StartsWith(r, search)
              && Includes(r, UtmKey)
              && UtmRewrite(r, preservedSource) == None
  {
    if UtmRewrite(search, preservedSource).Some? {
      var src := preservedSource.value;
      var sep := if search != "" then "&" else "?";
      var r := UtmRewrite(search, preservedSource).value;
      assert r == (search + sep) + UtmKey + ("=" + src);
      IncludesPiece(search + sep, UtmKey, "=" + src);
      assert r[..|search|] == search;
    }
  }

  /** The shell's routing state: the current query string and the preserved source,
      which starts as the empty string and becomes whatever `utm_source` parses to
      (`None` when the query has none). */
  class AppShell {
    var search: string
    var preservedSource: Option<string>

    constructor (search: string)
      ensures this.search == search && preservedSource == Some("")
    {
      this.search := search;
      preservedSource := Some("");
    }

    /** The utm effect, given what the query parser made of `utm_source`. The
        preserved source is updated only when it differs; the rewrite uses the value
        the effect started with (the update shows on the next run). */
    method UtmEffect(parsedSource: Option<string>) returns (sourceUpdated: bool, replaced: bool)
      modifies this
      ensures sourceUpdated <==> parsedSource != old(preservedSource)
      ensures preservedSource == parsedSource
      ensures replaced <==> UtmRewrite(old(search), old(preservedSource)).Some?
      ensures search == if replaced then UtmRewrite(old(search), old(preservedSource)).value else old(search)
    {
      var current := preservedSource;
      sourceUpdated := parsedSource != current;
      if sourceUpdated {
        preservedSource := parsedSource;
      }
      replaced := false;
      if current.Some? && current.value != "" && !Includes(search, UtmKey) {
        search := if search != "" then search + "&" + UtmKey + "=" + current.value
                  else search + "?" + UtmKey + "=" + current.value;
        replaced := true;
      }
    }
  }

  /** A parsed query value: a string, or anything else the parser can produce
      (an array for a repeated key, an object for a bracketed one). */
  datatype QueryValue = Str(s: string) | NonString

  /** The theme effect: `Some(dark)` is the dark-mode flag dispatched, `None` is
      nothing dispatched. */
  function ThemeDarkMode(search: string, theme: Option<QueryValue>): Option<bool> {
    if search == "" || |search| < 2 then None
    else if theme.None? || theme.value.NonString? then None
    else if ToLower(theme.value.s) == "light" then Some(false)
    else if ToLower(theme.value.s) == "dark" then Some(true)
    else None
  }

  /** `light` turns dark mode off and `dark` turns it on, whatever their case; a query
      shorter than two characters, a missing or non-string theme, or any other value
      dispatches nothing. */
  lemma ThemeDecision(search: string, theme: Option<QueryValue>)
    ensures ThemeDarkMode(search, theme) == Some(false) <==>
              |search| >= 2 && theme.Some? && theme.value.Str? && ToLower(theme.value.s) == "light"
    ensures ThemeDarkMode(search, theme) == Some(true) <==>
              |search| >= 2 && theme.Some? && theme.value.Str? && ToLower(theme.value.s) == "dark"
    ensures theme.Some? && theme.value.Str? ==>
              ThemeDarkMode(search, theme) == ThemeDarkMode(search, Some(Str(ToLower(theme.value.s))))
    ensures |search| >= 2 ==> ThemeDarkMode(search, Some(Str("LIGHT"))) == Some(false)
    ensures |search| >= 2 ==> ThemeDarkMode(search, Some(Str("Dark"))) == Some(true)
  {
    if theme.Some? && theme.value.Str? {
      ToLowerIdempotent(theme.value.s);
    }
    assert ToLower("LIGHT") == "light" by {
      ToLowerPointwise("LIGHT");
    }
    assert ToLower("Dark") == "dark" by {
      ToLowerPointwise("Dark");
    }
  }
}
