/**
 * The parts of the Fetch API that the service worker observes: a response
 * (status line and body bytes) and the outcome of one call to `fetch`.
 */
module Http {

  /** One byte of a response body. */
  newtype byte = b: int | 0 <= b < 256

  predicate IsAscii(s: string)
  {
    forall i :: 0 <= i < |s| ==> s[i] as int < 128
  }

  /** The body bytes of an ASCII text, one byte per character. */
  function AsciiBytes(s: string): (bytes: seq<byte>)
    requires IsAscii(s)
    ensures |bytes| == |s|
    ensures forall i :: 0 <= i < |s| ==> bytes[i] as int == s[i] as int
  {
    seq(|s|, i requires 0 <= i < |s| => s[i] as int as byte)
  }

  /** A response: status, status text and body. */
  datatype Response = Response(status: int, statusText: string, body: seq<byte>)
  {
    /** `response.ok`: the status lies in the range 200-299. */
    predicate Ok()
    {
      200 <= status <= 299
    }

    /**
     * The Cache API accepts the response: it is ok and not a 206 Partial
     * Content, which `cache.put` and `cache.add` both reject.
     */
    function Cacheable(): (r: bool)
      ensures r ==> Ok()
      ensures status == 206 ==> !r
    {
      Ok() && status != 206
    }

    /** `(await response.blob()).size`: the body length in bytes. */
    function Size(): nat
    {
      |body|
    }
  }

  /**
   * What `fetch(request)` does when the worker calls it: it either rejects
   * with an error or resolves to a response (ok or not).
   */
  datatype FetchOutcome = Threw(error: string) | Got(response: Response)

}
