/**
 * What a call to `fetch` hands back to the scraper. The request itself is
 * I/O and is not modelled: every use of `fetch` takes its outcome as an input.
 */
module Fetch {
  import opened Text

  /** A received response: the status line and the body text. */
  datatype Response = Response(status: nat, statusText: string, body: string) {
    /** `response.ok`: the status is in the range 200-299 (the Fetch Standard's "ok status"). */
    predicate Ok() {
      200 <= status <= 299
    }
  }

  /** Either a response, or the message of the error that `fetch` (or reading the body) threw. */
  datatype FetchOutcome = Responded(response: Response) | Threw(message: string) {
    predicate Succeeded() {
      Responded? && response.Ok()
    }
  }

  /** The error text the batch code records for a non-OK response: `HTTP <status>`. */
  function HttpStatusError(status: nat): (e: string)
    ensures |e| > 5 && e[..5] == "HTTP " && e[5..] == NatToString(status)
  {
    "HTTP " + NatToString(status)
  }

  /** The status code can be read back from the recorded error text. */
  lemma HttpStatusErrorRecoversStatus(status: nat)
    ensures AllDigits(HttpStatusError(status)[5..])
    ensures DigitsValue(HttpStatusError(status)[5..]) == status
  {
    DigitsValueOfNatToString(status);
  }
}
