/** The two strings the configuration builder derives from its one URL: the
    origin (for the web server's readiness check) and the href with a trailing
    slash (for the tests' base URL). URL parsing itself, the `URL` class of the
    WHATWG URL Standard (section 6.1, the `origin` and `href` getters), is a
    parameter: any function from strings to an optional parse result. */
module Url {
  import opened Wrappers

  /** What the builder reads from a parsed `URL` object. */
  datatype ParsedUrl = ParsedUrl(origin: string, href: string)

  /** `new URL(s)`: a parsed URL, or `None` where the constructor throws. */
  type UrlParser = string -> Option<ParsedUrl>

  /** The one error the builder can raise: its URL did not parse. */
  datatype UrlError = InvalidUrl(input: string)

  /** The two derived strings. */
  datatype DerivedUrls = DerivedUrls(origin: string, baseUrl: string)

  /** `s.endsWith("/")` */
  predicate EndsWithSlash(s: string) {
    |s| > 0 && s[|s| - 1] == '/'
  }

  /** `r` is `href` extended by at most one character so that it ends in '/',
      and `href` itself when it already did. */
  predicate SlashTerminated(href: string, r: string) {
    && EndsWithSlash(r)
    && href <= r
    && |r| <= |href| + 1
    && (EndsWithSlash(href) ==> r == href)
  }

  /** Appends '/' to `href` unless it already ends in one. */
  function WithTrailingSlash(href: string): (r: string)
    ensures SlashTerminated(href, r)
  {
    if EndsWithSlash(href) then href else href + "/"
  }

  /** `SlashTerminated` pins its second argument down completely: the
      appended string is the only one that meets it. */
  lemma SlashTerminatedUnique(href: string, r: string)
    ensures SlashTerminated(href, r) <==> r == WithTrailingSlash(href)
  {
  }

  /** Appending is idempotent: a base URL is its own base URL. */
  lemma WithTrailingSlashIdempotent(href: string)
    ensures WithTrailingSlash(WithTrailingSlash(href)) == WithTrailingSlash(href)
  {
  }

  /** The number of consecutive '/' characters that end `s`. */
  function TrailingSlashes(s: string): (n: nat)
    ensures n <= |s|
    ensures forall i :: |s| - n <= i < |s| ==> s[i] == '/'
    ensures n < |s| ==> s[|s| - 1 - n] != '/'
    decreases |s|
  {
    if EndsWithSlash(s) then 1 + TrailingSlashes(s[..|s| - 1]) else 0
  }

  /** The slash is never doubled: the base URL ends in as many slashes as the
      href when it had any, and in exactly one when it had none. */
  lemma BaseUrlSlashNotDoubled(href: string)
    ensures TrailingSlashes(WithTrailingSlash(href)) == if EndsWithSlash(href) then TrailingSlashes(href) else 1
  {
  }

  /** Parses `raw` and derives the origin and the slash-terminated href; fails
      exactly when the parser rejects `raw`. */
  function DeriveUrls(parse: UrlParser, raw: string): (r: Result<DerivedUrls, UrlError>)
    ensures r.Failure? <==> parse(raw).None?
    ensures r.Failure? ==> r.error == InvalidUrl(raw)
    ensures r.Success? ==> r.value.origin == parse(raw).value.origin
    ensures r.Success? ==> SlashTerminated(parse(raw).value.href, r.value.baseUrl)
  {
    match parse(raw)
    case None => Failure(InvalidUrl(raw))
    case Some(u) => Success(DerivedUrls(u.origin, WithTrailingSlash(u.href)))
  }

  /** The serialization of an origin ("null", or scheme "://" host with an
      optional ":" port) never ends in '/', so the readiness URL and the base
      URL always differ. */
  lemma OriginDistinctFromBaseUrl(parse: UrlParser, raw: string)
    requires parse(raw).Some? && !EndsWithSlash(parse(raw).value.origin)
    ensures DeriveUrls(parse, raw).Success?
    ensures DeriveUrls(parse, raw).value.origin != DeriveUrls(parse, raw).value.baseUrl
  {
  }
}
