/**
 * What the components read from a parsed URL. Parsing itself (the WHATWG URL
 * Standard behind `new URL(s)`) is not modelled: callers receive it as a function
 * that yields None exactly where the constructor would throw.
 */
module Urls {
  import opened Wrappers

  datatype Url = Url(hostname: string, pathname: string)

  /** `new URL(s)`, with a thrown TypeError written as None. */
  type UrlParser = string -> Option<Url>
}
