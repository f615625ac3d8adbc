/**
 * What a page's `fetch` can come back with, given to the model as input
 * instead of a network call, the outcome a page settles on, and the hosts
 * the pages talk to.
 */
module Fetching {
  import opened JsStrings

  /** What `await response.json()` gives: a body of the expected shape, or the message of the error it throws. */
  datatype Json<B> = Unreadable(message: string) | Parsed(data: B)

  /**
   * One settled `fetch`: either the promise rejected (network failure; its
   * error message), or a response with its `ok` flag, its HTTP status and
   * what reading its body as JSON gives.
   */
  datatype Outcome<B> =
    | NetworkError(message: string)
    | Response(ok: bool, status: nat, body: Json<B>)

  /** Where a detail fetch ends: the value it stores, or the message of the error it caught. */
  datatype Settled<T> = Loaded(value: T) | Failed(message: string)

  /** The image host every page loads its pictures from: `<category>/<id>.jpg` under it. */
  const ImageBase := "https://starwars-visualguide.com/assets/img/"

  const HttpErrorPrefix := "HTTP error! status: "

  /** `` `HTTP error! status: ${response.status}` ``: the status can be read back from the message. */
  function HttpErrorMessage(status: nat): (m: string)
    ensures |m| > |HttpErrorPrefix| && m[..|HttpErrorPrefix|] == HttpErrorPrefix
    ensures var digits := m[|HttpErrorPrefix|..];
      && (forall i :: 0 <= i < |digits| ==> IsDigit(digits[i]))
      && (|digits| > 1 ==> digits[0] != '0')
      && DecimalValue(digits) == status
  {
    DecimalRoundTrip(status);
    var m := HttpErrorPrefix + NatToString(status);
    assert m[|HttpErrorPrefix|..] == NatToString(status);
    m
  }

  /** Different statuses give different messages. */
  lemma HttpErrorMessageInjective(a: nat, b: nat)
    requires HttpErrorMessage(a) == HttpErrorMessage(b)
    ensures a == b
  {
  }
}
