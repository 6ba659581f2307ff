/**
 * A TVDb external link: an identifier and the URL of the matching page on
 * www.tvdb.com, built from an optional integer title identifier.
 *
 * Foundation's `URL(string:)` is not modelled; every operation that needs it
 * takes it as a parameter `parse`, a total function from strings to an
 * optional URL of some type `U`, and is specified relative to it.
 */
module TVDb {
  import opened Wrappers
  import opened Decimal

  /**
   * The link value. Its constructor is the private memberwise initializer
   * `init(id:url:)`: it stores exactly its two arguments and has no other state.
   */
  datatype TVDbLink<U> = TVDbLink(id: string, url: U)

  const TITLE_PREFIX: string := "https://www.tvdb.com/title/"
  const NAME_PREFIX: string := "https://www.tvdb.com/name/"

  /** String interpolation of `id` into a template `<prefix><id>/`. */
  function Interpolate(prefix: string, id: string): string {
    prefix + id + "/"
  }

  /** The inverse of `Interpolate`: the `id` part of `s`, if `s` has the form `<prefix><id>/`. */
  function ExtractID(prefix: string, s: string): (r: Option<string>)
    ensures r.Some? ==> Interpolate(prefix, r.value) == s
  {
    if |s| >= |prefix| + 1 && s[..|prefix|] == prefix && s[|s| - 1] == '/' then
      assert s == s[..|prefix|] + s[|prefix|..|s| - 1] + [s[|s| - 1]];
      Some(s[|prefix|..|s| - 1])
    else None
  }

  lemma InterpolateRoundTrip(prefix: string, id: string)
    ensures ExtractID(prefix, Interpolate(prefix, id)) == Some(id)
  {
    var s := Interpolate(prefix, id);
    assert s[..|prefix|] == prefix;
    assert s[|prefix|..|s| - 1] == id;
  }

  /** The template is injective in the identifier. */
  lemma InterpolateInjective(prefix: string, a: string, b: string)
    ensures Interpolate(prefix, a) == Interpolate(prefix, b) ==> a == b
  {
    InterpolateRoundTrip(prefix, a);
    InterpolateRoundTrip(prefix, b);
  }

  /** The string handed to `URL(string:)` by `tvdbURL(forTitle:)`. */
  function TitleURLString(titleID: string): string {
    Interpolate(TITLE_PREFIX, titleID)
  }

  /** The string handed to `URL(string:)` by `tvdbURL(forName:)`. */
  function NameURLString(nameID: string): string {
    Interpolate(NAME_PREFIX, nameID)
  }

  /** `tvdbURL(forTitle:)`. */
  function TitleURL<U>(titleID: string, parse: string -> Option<U>): Option<U> {
    parse(TitleURLString(titleID))
  }

  /** `tvdbURL(forName:)`; no initializer calls it. */
  function NameURL<U>(nameID: string, parse: string -> Option<U>): Option<U> {
    parse(NameURLString(nameID))
  }

  /**
   * No title URL string is a name URL string, whatever the two identifiers:
   * the templates part at their 22nd character ('t' of "title", 'n' of "name"),
   * and neither template's inverse accepts the other's strings.
   */
  lemma TitleAndNameTemplatesDiffer(titleID: string, nameID: string)
    ensures TitleURLString(titleID) != NameURLString(nameID)
    ensures ExtractID(TITLE_PREFIX, NameURLString(nameID)) == None
    ensures ExtractID(NAME_PREFIX, TitleURLString(titleID)) == None
  {
    var t := TitleURLString(titleID);
    var n := NameURLString(nameID);
    assert t[21] == 't' && n[21] == 'n';
    if |n| >= |TITLE_PREFIX| + 1 {
      assert n[..|TITLE_PREFIX|][21] == 'n';
    }
    assert t[..|NAME_PREFIX|][21] == 't';
  }

  /** Distinct integer title identifiers give distinct title URL strings. */
  lemma TitleURLStringInjective(a: int, b: int)
    ensures a != b ==> TitleURLString(IntToDecimal(a)) != TitleURLString(IntToDecimal(b))
  {
    InterpolateInjective(TITLE_PREFIX, IntToDecimal(a), IntToDecimal(b));
    IntToDecimalInjective(a, b);
  }

  /**
   * The failable initializer `init?(tvdbTitleID:)`: no link for a `nil`
   * identifier or for a URL string that does not parse; otherwise the link
   * whose `id` is the decimal rendering of the identifier and whose `url` is
   * the parse of the title template filled with that same string.
   */
  function TryCreate<U>(tvdbTitleID: Option<Int64>, parse: string -> Option<U>): (r: Option<TVDbLink<U>>)
    ensures tvdbTitleID.None? ==> r.None?
    ensures tvdbTitleID.Some? ==>
      (r.Some? <==> parse(TitleURLString(IntToDecimal(tvdbTitleID.value))).Some?)
    ensures r.Some? ==> r.value.id == IntToDecimal(tvdbTitleID.value)
    ensures r.Some? ==> IsCanonicalDecimal(r.value.id) && ParseDecimal(r.value.id) == Some(tvdbTitleID.value as int)
    ensures r.Some? ==> parse(TitleURLString(r.value.id)) == Some(r.value.url)
    ensures r.Some? ==> ExtractID(TITLE_PREFIX, TitleURLString(r.value.id)) == Some(r.value.id)
  {
    match tvdbTitleID
    case None => None
    case Some(n) =>
      match TitleURL(IntToDecimal(n), parse)
      case None => None
      case Some(url) =>
        DecimalRoundTrip(n);
        InterpolateRoundTrip(TITLE_PREFIX, IntToDecimal(n));
        Some(TVDbLink(IntToDecimal(n), url))
  }

  /** A `nil` identifier gives no link, whatever the URL parser does. */
  lemma NilGivesNoLink<U>(parse: string -> Option<U>)
    ensures TryCreate(None, parse) == None
  {
  }

  /** A link is never built around a URL string the parser rejected. */
  lemma UnparsedURLGivesNoLink<U>(n: Int64, parse: string -> Option<U>)
    requires parse(TitleURLString(IntToDecimal(n))) == None
    ensures TryCreate(Some(n), parse) == None
  {
  }

  /**
   * The link determines the identifier it was built from: links from distinct
   * identifiers have distinct `id`s and distinct URL strings, and the
   * identifier is recovered by parsing `id`.
   */
  lemma TryCreateInjective<U>(a: Int64, b: Int64, parse: string -> Option<U>)
    ensures TryCreate(Some(a), parse).Some? && TryCreate(Some(b), parse).Some? && a != b ==>
      && TryCreate(Some(a), parse).value.id != TryCreate(Some(b), parse).value.id
      && TitleURLString(TryCreate(Some(a), parse).value.id) != TitleURLString(TryCreate(Some(b), parse).value.id)
  {
    TitleURLStringInjective(a, b);
  }

  /** The example of a title identifier 12345. */
  lemma TitleExample<U>(parse: string -> Option<U>, u: U)
    requires parse("https://www.tvdb.com/title/12345/") == Some(u)
    ensures TryCreate(Some(12345), parse) == Some(TVDbLink("12345", u))
  {
    assert IntToDecimal(12345) == "12345" by {
      assert NatToDecimal(1) == "1";
      assert NatToDecimal(12) == "12";
      assert NatToDecimal(123) == "123";
      assert NatToDecimal(1234) == "1234";
    }
    assert TitleURLString("12345") == "https://www.tvdb.com/title/12345/";
  }

  /** The name template filled with "abc". */
  lemma NameExample()
    ensures NameURLString("abc") == "https://www.tvdb.com/name/abc/"
  {
  }
}
