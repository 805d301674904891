/**
 * Decoding of the status code the host returns from a chain-extension call
 * whose status is handled; in this contract only `take_response` is
 * declared that way, so `send_message` never decodes a status.
 *
 * The only typed error of the extension is `NoResponse`, whose discriminant
 * is the status code that signals it. Status 0 is success; every other code
 * is a protocol mismatch that aborts the call. The abort (a panic in the
 * contract) is kept apart from the typed error as the `Fatal` outcome.
 */
module Status {
  import opened Primitives

  /** The error kinds of the extension; there is exactly one. */
  datatype Error = NoResponse

  /**
   * The explicit discriminant each error kind is declared with: the status
   * code that signals it.
   */
  function Discriminant(e: Error): (d: u32)
    ensures FromStatusCode(d) == Err(e)
  {
    match e
    case NoResponse => 1
  }

  /** What decoding a status code yields: success, a typed error, or an abort. */
  datatype Outcome = Ok | Err(error: Error) | Fatal(message: string)

  /** Message the contract aborts with on a status code it does not know. */
  const UnknownStatusCode: string := "Unknown status code"

  /**
   * Maps a host status code to the call's outcome. Success and `NoResponse`
   * are exactly the codes 0 and 1; every other code is fatal and is never
   * reported as success or as a typed error.
   */
  function FromStatusCode(code: u32): (r: Outcome)
    ensures r == Ok <==> code == 0
    ensures r == Err(NoResponse) <==> code == 1
    ensures r.Fatal? <==> code != 0 && code != 1
    ensures r.Fatal? ==> r.message == UnknownStatusCode
  {
    match code
    case 0 => Ok
    case 1 => Err(NoResponse)
    case _ => Fatal(UnknownStatusCode)
  }

  /**
   * The status code a host reports for a non-fatal outcome: 0 for success,
   * the error's discriminant for a typed error.
   */
  function StatusCodeOf(r: Outcome): (code: u32)
    requires !r.Fatal?
  {
    match r
    case Ok => 0
    case Err(e) => Discriminant(e)
  }

  /** Every non-fatal outcome is recovered from the code that reports it. */
  lemma DecodeEncoded(r: Outcome)
    requires !r.Fatal?
    ensures FromStatusCode(StatusCodeOf(r)) == r
  {
  }

  /** Every code that does not abort is the code of the outcome it decodes to. */
  lemma EncodeDecoded(code: u32)
    requires !FromStatusCode(code).Fatal?
    ensures StatusCodeOf(FromStatusCode(code)) == code
  {
  }

  /** Decoding is one-to-one on the codes that do not abort. */
  lemma NonFatalCodesDistinct(c1: u32, c2: u32)
    requires !FromStatusCode(c1).Fatal? && FromStatusCode(c1) == FromStatusCode(c2)
    ensures c1 == c2
  {
  }
}
