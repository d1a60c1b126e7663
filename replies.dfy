/**
  How the outcome of a completion call becomes the bot's transcript entry.
  The network call itself is not modelled: its outcome is an input.
 */
module Replies {
  import opened JsString

  /**
    What a completion call can end with: the reply content of a successful
    response, a non-success HTTP status with the response body, or an
    exception raised on the way (transport failure, unreadable response),
    carrying its message.
   */
  datatype Outcome = Reply(content: string) | HttpError(status: nat, body: string) | Thrown(message: string)

  const MissingKeyText := "❌ Add your Groq API key first!"
  const ErrorPrefix := "⚠️ Error: "
  const BodyLimit: nat := 100

  /** The message of the error raised for a non-success status: at most 100 characters of the body. */
  function ApiErrorMessage(status: nat, body: string): (r: string)
    ensures "API " <= r && |r| <= |"API "| + |NatToDecimal(status)| + |": "| + BodyLimit
  {
    "API " + NatToDecimal(status) + ": " + Take(body, BodyLimit)
  }

  /** The text of the bot entry appended when the call completes. */
  function ReplyText(o: Outcome): (r: string)
    ensures o.Reply? ==> r == o.content
    ensures !o.Reply? ==> ErrorPrefix <= r
  {
    match o
    case Reply(content) => content
    case HttpError(status, body) => ErrorPrefix + ApiErrorMessage(status, body)
    case Thrown(message) => ErrorPrefix + message
  }

  /** The header of an HTTP error entry, up to the body excerpt. */
  function HttpErrorHeader(status: nat): string {
    ErrorPrefix + "API " + NatToDecimal(status) + ": "
  }

  /**
    An HTTP error entry is its header followed by the first `min(|body|, 100)`
    characters of the body, and the status can be read back from the header.
   */
  lemma HttpErrorEntry(status: nat, body: string)
    ensures HttpErrorHeader(status) <= ReplyText(HttpError(status, body))
    ensures var excerpt := ReplyText(HttpError(status, body))[|HttpErrorHeader(status)|..];
      excerpt <= body && |excerpt| == Min(|body|, BodyLimit)
    ensures var digits := ReplyText(HttpError(status, body))[|ErrorPrefix + "API "|..|HttpErrorHeader(status)| - 2];
      DecimalToNat(digits) == status
  {
    var r := ReplyText(HttpError(status, body));
    var h := HttpErrorHeader(status);
    assert r == h + Take(body, BodyLimit);
    assert h == (ErrorPrefix + "API ") + NatToDecimal(status) + ": ";
    assert r[|ErrorPrefix + "API "|..|h| - 2] == NatToDecimal(status);
    DecimalRoundTrip(status);
  }

  /** The HTTP error path is the exception path: the status error is thrown and caught like any other. */
  lemma HttpErrorIsThrown(status: nat, body: string)
    ensures ReplyText(HttpError(status, body)) == ReplyText(Thrown(ApiErrorMessage(status, body)))
  {
    assert ErrorPrefix + ("API " + NatToDecimal(status) + ": " + Take(body, BodyLimit))
      == ErrorPrefix + "API " + NatToDecimal(status) + ": " + Take(body, BodyLimit);
  }

  /** Every failure is reported with the warning prefix; a successful reply is shown as it came. */
  lemma FailuresArePrefixed(o: Outcome)
    ensures !o.Reply? ==> ErrorPrefix <= ReplyText(o)
    ensures o.Reply? ==> ReplyText(o) == o.content
  {
    if o.HttpError? {
      assert ReplyText(o) == ErrorPrefix + ApiErrorMessage(o.status, o.body);
    }
  }

  /** A 429 with body "rate limited" reads "⚠️ Error: API 429: rate limited". */
  lemma RateLimitedScenario()
    ensures ReplyText(HttpError(429, "rate limited")) == "⚠️ Error: API 429: rate limited"
  {
    TooManyRequestsDigits();
    assert Take("rate limited", BodyLimit) == "rate limited";
    assert ErrorPrefix + "API " + "429" + ": " + "rate limited" == "⚠️ Error: API 429: rate limited";
  }

  lemma TooManyRequestsDigits()
    ensures NatToDecimal(429) == "429"
  {
    assert NatToDecimal(4) == "4";
    assert NatToDecimal(42) == "4" + ['2'];
    assert NatToDecimal(429) == "42" + ['9'];
  }
}
