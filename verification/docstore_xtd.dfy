/** gocloudxtd/docstore: a process-wide table of custom collection openers keyed by URL
    scheme, and `OpenCollection`, which parses the URL and hands the whole URL string to the
    opener registered for its scheme, falling back to gocloud's own URL openers. The table
    is an explicit value here; `H` stands for an opened collection. */
module Docstorextd {
  import opened Wrappers
  import Urls

  type Opener<H> = string -> Result<H>
  type Registry<H> = map<string, Opener<H>>

  /** `RegisterCustomOpener`: the key now maps to `fn`, replacing any earlier opener. */
  function RegisterCustomOpener<H>(reg: Registry<H>, key: string, fn: Opener<H>): (r: Registry<H>)
    ensures key in r && r[key] == fn
    ensures r.Keys == reg.Keys + {key}
    ensures forall k :: k in reg && k != key ==> r[k] == reg[k]
  {
    reg[key := fn]
  }

  /** `OpenCollection`: a URL that does not parse is an error; a scheme with a custom opener
      goes to it; anything else goes to `fallback` (gocloud's `docstore.OpenCollection`). */
  function OpenCollection<H>(reg: Registry<H>, urlStr: string,
                             parse: string -> Result<Urls.Url>, fallback: Opener<H>): (r: Result<H>)
    ensures parse(urlStr).Err? ==> r.Err?
    ensures parse(urlStr).Ok? && parse(urlStr).value.scheme in reg ==>
      r == reg[parse(urlStr).value.scheme](urlStr)
    ensures parse(urlStr).Ok? && parse(urlStr).value.scheme !in reg ==> r == fallback(urlStr)
  {
    match parse(urlStr)
    case Err(e) => Err(e)
    case Ok(u) =>
      if u.scheme in reg then reg[u.scheme](urlStr) else fallback(urlStr)
  }

  /** After registering `fn` under a scheme, every parseable URL of that scheme is opened by
      `fn`, whatever was registered before. */
  lemma RegisteredOpenerIsUsed<H>(reg: Registry<H>, key: string, fn: Opener<H>, urlStr: string,
                                  parse: string -> Result<Urls.Url>, fallback: Opener<H>)
    requires parse(urlStr).Ok? && parse(urlStr).value.scheme == key
    ensures OpenCollection(RegisterCustomOpener(reg, key, fn), urlStr, parse, fallback) == fn(urlStr)
  {
  }

  /** Registering an opener for one scheme does not change how URLs of another scheme open. */
  lemma RegistrationIsLocal<H>(reg: Registry<H>, key: string, fn: Opener<H>, urlStr: string,
                               parse: string -> Result<Urls.Url>, fallback: Opener<H>)
    requires parse(urlStr).Err? || parse(urlStr).value.scheme != key
    ensures OpenCollection(RegisterCustomOpener(reg, key, fn), urlStr, parse, fallback)
         == OpenCollection(reg, urlStr, parse, fallback)
  {
  }
}
