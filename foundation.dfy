/**
 * The Foundation types the app passes around: `Data`, `URL`, `IndexPath`
 * and the existential `Error` of foreign libraries. URL parsing and JSON
 * decoding are foreign code; the modules that need them take them as
 * function parameters of the types declared here.
 */
module Foundation {
  import opened Wrappers

  newtype byte = x: int | 0 <= x < 256

  /** Swift's `Data`: a byte string. `Data()` is the empty one. */
  type Data = seq<byte>

  /** A parsed `URL`; only its `absoluteString` is observable here. */
  datatype Url = Url(absoluteString: string)

  /** `URL(string:)`, a partial function this model leaves uninterpreted. */
  type UrlParser = string -> Option<Url>

  /** The parser accepts `s` and keeps it as the URL's `absoluteString`. */
  predicate ParsesAs(parse: UrlParser, s: string) {
    parse(s) == Some(Url(s))
  }

  /** A value of Swift's `any Error` produced by code outside the app. */
  datatype AnyError = AnyError(description: string)

  /** Foundation's `IndexPath` as a collection view uses it. */
  datatype IndexPath = IndexPath(section: int, row: int)
}
