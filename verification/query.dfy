/**
 * Query-string access. Android's `Uri.parse(text).getQueryParameter(key)`
 * (parsing and percent-decoding) is not part of this model: it is the
 * abstract lookup `UriQuery`, which yields the first decoded value of `key`,
 * `Some("")` for a key given with an empty value and `None` for a missing key.
 */
module Query {
  import opened Wrappers
  import opened Strings

  type UriQuery = (string, string) -> Option<string>

  const HttpScheme := "http"
  const SyntheticPrefix := "http://example.com?"

  /**
   * `parseUri`: content that already starts with "http" is taken as a URL;
   * anything else is a bare query string and gets a synthetic scheme and host.
   * Its properties are stated by `ParseUriShape`; an ensures here would be
   * unfolded in every proof that mentions a query value.
   */
  function ParseUri(content: string): string {
    if StartsWith(content, HttpScheme) then content else SyntheticPrefix + content
  }

  /**
   * The text handed to the URI parser always starts with "http" and ends
   * with the original content; it is the content itself exactly when the
   * content already starts with "http", and otherwise carries the synthetic
   * prefix. Normalising twice is normalising once.
   */
  lemma ParseUriShape(content: string)
    ensures var r := ParseUri(content);
      && StartsWith(r, HttpScheme)
      && |content| <= |r| && r[|r| - |content|..] == content
      && (r == content <==> StartsWith(content, HttpScheme))
      && (!StartsWith(content, HttpScheme) ==> StartsWith(r, SyntheticPrefix))
      && ParseUri(r) == r
  {
    var r := ParseUri(content);
    if !StartsWith(content, HttpScheme) {
      assert r[..|HttpScheme|] == SyntheticPrefix[..|HttpScheme|];
      assert r[|r| - |content|..] == content;
      assert |r| > |content|;
    }
  }

  /**
   * `extractParam`: the raw query value of `key`, with an empty value
   * treated as absent.
   */
  function ExtractParam(query: UriQuery, content: string, key: string): (r: Option<string>)
    ensures r.None? <==> query(ParseUri(content), key) in {None, Some("")}
    ensures r.Some? ==> r == query(ParseUri(content), key) && r.value != ""
  {
    var value := query(ParseUri(content), key);
    if value.Some? && value.value == "" then None else value
  }
}
