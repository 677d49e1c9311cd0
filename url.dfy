/**
 * URL parsing is outside the model: the WHATWG URL Standard's basic URL
 * parser (what `new URL(s)` runs) is a partial function supplied by the
 * caller. `None` stands for the parser throwing.
 */
module Url {
  import opened Wrappers

  /** The parts of a parsed URL the modelled code reads. */
  datatype ParsedUrl = ParsedUrl(protocol: string, href: string, host: string, hostname: string)

  type UrlParser = string -> Option<ParsedUrl>

  /** `new URL(s)` does not throw, which is all zod's `.url()` check asks. */
  predicate IsUrl(parse: UrlParser, s: string) {
    parse(s).Some?
  }
}
