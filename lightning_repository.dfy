/**
 * The repository's fetch: one call of the rankings endpoint, classified into a
 * Result holding either the mapped view objects or an error message.
 */
module LightningRepository {
  import opened LightningNodes

  /** What the one call of the rankings endpoint produced. */
  datatype ApiOutcome =
    | Responded(code: int, reason: string, body: Option<seq<LightningNode>>)  // a Retrofit Response
    | NullResponse                          // the call returned null: reading its status code throws
    | ThrowsIO                              // the call threw an IOException
    | ThrowsHttp(code: int, reason: string)   // the call threw an HttpException (status code, reason phrase)
    | ThrowsOther                           // the call threw any other exception

  /** The repository's result: the mapped nodes, or the message of the exception it wraps. */
  datatype Result<+T> = Success(data: T) | Error(message: string)

  /**
   * The platform services the mapping depends on but that are not part of this
   * model: the locale- and time-zone-dependent date formatter, and the message
   * Retrofit gives an HttpException built from a non-successful response.
   */
  datatype Platform = Platform(
    formatDate: int -> string,
    httpExceptionMessage: (int, string) -> string)

  const NullBodyMessage: string := "Response body is null"
  const NetworkErrorMessage: string := "Network error"
  const UnexpectedErrorMessage: string := "Unexpected error"
  const HttpErrorPrefix: string := "HTTP error: "

  /** Retrofit's `Response.isSuccessful`: the status code is in the 2xx range. */
  predicate IsSuccessful(code: int): (ok: bool)
    ensures ok <==> code / 100 == 2
  {
    200 <= code < 300
  }

  predicate IsDigit(c: char) {
    '0' <= c <= '9'
  }

  /** The decimal digits of a natural number, without leading zeros. */
  function NatToDecimal(n: nat): (s: string)
    ensures |s| >= 1 && (s[0] == '0' ==> n == 0 && s == "0")
    ensures forall i :: 0 <= i < |s| ==> IsDigit(s[i])
    decreases n
  {
    if n < 10 then [('0' as int + n) as char]
    else NatToDecimal(n / 10) + [('0' as int + n % 10) as char]
  }

  /** Kotlin's decimal rendering of an integer in a string template. */
  function IntToDecimal(n: int): (s: string)
    ensures |s| >= 1
    ensures forall i :: 0 <= i < |s| ==> IsDigit(s[i]) || (i == 0 && s[i] == '-')
    ensures s[0] == '-' <==> n < 0
    ensures var digits := if n < 0 then s[1..] else s;
      |digits| >= 1 && (digits[0] == '0' ==> n == 0 && digits == "0")
  {
    if n < 0 then "-" + NatToDecimal(-n) else NatToDecimal(n)
  }

  function DigitValue(c: char): nat
    requires IsDigit(c)
  {
    c as int - '0' as int
  }

  /** The value of a string of decimal digits. */
  function ParseDigits(s: string): nat
    requires forall i :: 0 <= i < |s| ==> IsDigit(s[i])
  {
    if s == [] then 0 else ParseDigits(s[..|s| - 1]) * 10 + DigitValue(s[|s| - 1])
  }

  /** The value of an optionally signed decimal string. */
  function ParseDecimal(s: string): int
    requires |s| >= 1
    requires forall i :: 0 <= i < |s| ==> IsDigit(s[i]) || (i == 0 && s[i] == '-')
  {
    if s[0] == '-' then -(ParseDigits(s[1..]) as int) else ParseDigits(s)
  }

  lemma {:induction false} NatToDecimalRoundTrip(n: nat)
    ensures ParseDigits(NatToDecimal(n)) == n
    decreases n
  {
    if n >= 10 {
      var s := NatToDecimal(n);
      NatToDecimalRoundTrip(n / 10);
      assert s[..|s| - 1] == NatToDecimal(n / 10);
    }
  }

  /** The decimal rendering of an integer reads back as that integer. */
  lemma IntToDecimalRoundTrip(n: int)
    ensures ParseDecimal(IntToDecimal(n)) == n
  {
    if n < 0 {
      NatToDecimalRoundTrip(-n);
      assert IntToDecimal(n)[1..] == NatToDecimal(-n);
    } else {
      NatToDecimalRoundTrip(n);
    }
  }

  /**
   * The message of the exception wrapped after an HttpException is caught: the
   * fixed prefix, the status code in decimal, a blank, and the reason phrase.
   */
  function HttpErrorMessage(code: int, reason: string): (r: string)
    ensures |r| > |HttpErrorPrefix| + |reason|
    ensures r[..|HttpErrorPrefix|] == HttpErrorPrefix
    ensures r[|r| - |reason|..] == reason
    ensures r[|r| - |reason| - 1] == ' '
  {
    HttpErrorPrefix + IntToDecimal(code) + " " + reason
  }

  /**
   * `getNodes`: the classification of one API outcome. Only a successful status
   * with a body succeeds, and then with every record mapped, in order.
   */
  function GetNodes(outcome: ApiOutcome, platform: Platform): (r: Result<seq<LightningNodeViewObject>>)
    ensures r.Success? <==> outcome.Responded? && IsSuccessful(outcome.code) && outcome.body.Some?
    ensures r.Success? ==>
      |r.data| == |outcome.body.value| &&
      forall i :: 0 <= i < |r.data| ==> r.data[i] == ToViewObject(outcome.body.value[i], platform.formatDate)
  {
    match outcome
    case Responded(code, reason, body) =>
      if IsSuccessful(code) then
        match body
        case Some(records) => Success(ToViewObjects(records, platform.formatDate))
        case None => Error(NullBodyMessage)
      else Error(platform.httpExceptionMessage(code, reason))
    case NullResponse => Error(UnexpectedErrorMessage)
    case ThrowsIO => Error(NetworkErrorMessage)
    case ThrowsHttp(code, reason) => Error(HttpErrorMessage(code, reason))
    case ThrowsOther => Error(UnexpectedErrorMessage)
  }

  /** `body.map { it.toViewObject() }`. */
  function ToViewObjects(records: seq<LightningNode>, formatDate: int -> string): (views: seq<LightningNodeViewObject>)
    ensures |views| == |records|
    ensures forall i :: 0 <= i < |records| ==> views[i] == ToViewObject(records[i], formatDate)
  {
    if records == [] then []
    else [ToViewObject(records[0], formatDate)] + ToViewObjects(records[1..], formatDate)
  }

  /** The error message of each failing outcome. */
  lemma FailureMessages(outcome: ApiOutcome, platform: Platform)
    ensures outcome.Responded? && IsSuccessful(outcome.code) && outcome.body.None? ==>
      GetNodes(outcome, platform) == Error(NullBodyMessage)
    ensures outcome.Responded? && !IsSuccessful(outcome.code) ==>
      GetNodes(outcome, platform) == Error(platform.httpExceptionMessage(outcome.code, outcome.reason))
    ensures outcome.ThrowsIO? ==> GetNodes(outcome, platform) == Error(NetworkErrorMessage)
    ensures outcome.ThrowsHttp? ==> GetNodes(outcome, platform) == Error(HttpErrorMessage(outcome.code, outcome.reason))
    ensures outcome.NullResponse? || outcome.ThrowsOther? ==> GetNodes(outcome, platform) == Error(UnexpectedErrorMessage)
  {
  }

  /** A successful response with an empty body is a success with no nodes, not an error. */
  lemma EmptyBodyIsEmptySuccess(code: int, reason: string, platform: Platform)
    requires IsSuccessful(code)
    ensures GetNodes(Responded(code, reason, Some([])), platform) == Success([])
  {
  }

  /** The public keys of a successful result are those of the body, in order. */
  lemma SuccessKeepsPublicKeys(outcome: ApiOutcome, platform: Platform, i: nat)
    requires GetNodes(outcome, platform).Success?
    requires i < |outcome.body.value|
    ensures GetNodes(outcome, platform).data[i].publicKey == outcome.body.value[i].publicKey
    ensures GetNodes(outcome, platform).data[i].channels == outcome.body.value[i].channels
  {
  }

  /**
   * The status code and the reason phrase can be read back from the message
   * itself: after the prefix comes the code's decimal text, which has no
   * blank and parses back to the code, then one blank, then the reason.
   */
  lemma HttpErrorMessageReadsBack(code: int, reason: string)
    ensures var m := HttpErrorMessage(code, reason);
      var k := |m| - |reason| - 1;
      && |HttpErrorPrefix| < k
      && m[|HttpErrorPrefix|..k] == IntToDecimal(code)
      && ' ' !in m[|HttpErrorPrefix|..k]
      && (forall i :: 0 <= i < k - |HttpErrorPrefix| ==>
            IsDigit(m[|HttpErrorPrefix|..k][i]) || (i == 0 && m[|HttpErrorPrefix|..k][i] == '-'))
      && ParseDecimal(m[|HttpErrorPrefix|..k]) == code
      && m[k] == ' '
      && m[k + 1..] == reason
  {
    var m := HttpErrorMessage(code, reason);
    var d := IntToDecimal(code);
    var k := |m| - |reason| - 1;
    assert m == HttpErrorPrefix + d + " " + reason;
    assert k == |HttpErrorPrefix| + |d|;
    assert m[|HttpErrorPrefix|..k] == d;
    assert m[k + 1..] == reason;
    IntToDecimalRoundTrip(code);
  }

  /**
   * Distinct caught HttpExceptions give distinct messages: the status code and
   * the reason phrase can be read back from the wrapped message.
   */
  lemma HttpErrorMessageInjective(code1: int, reason1: string, code2: int, reason2: string)
    requires HttpErrorMessage(code1, reason1) == HttpErrorMessage(code2, reason2)
    ensures code1 == code2 && reason1 == reason2
  {
    // Each message's code ends at its first blank after the prefix, so both
    // codes end at the same place and the rest is the same reason phrase.
    HttpErrorMessageReadsBack(code1, reason1);
    HttpErrorMessageReadsBack(code2, reason2);
  }
}
