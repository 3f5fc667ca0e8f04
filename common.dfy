/** Vocabulary shared by every service: optional values, the exception kinds
    the services throw, results, JavaScript truthiness of optional strings,
    the outcome of a file upload, and decimal rendering of integers (as done
    by JavaScript template strings). */
module Common {

  type Id = string

  datatype Option<+T> = None | Some(value: T) {
    /** The value, or `default` when absent (the `??` of an optional field). */
    function GetOr(default: T): T {
      if Some? then value else default
    }
  }

  /** The exceptions thrown by the services. `Internal` stands for a plain
      `Error` (or a database error) that reaches the caller as HTTP 500. */
  datatype Error =
    | Unauthorized(message: string)
    | Forbidden(message: string)
    | NotFound(message: string)
    | Conflict(message: string)
    | BadRequest(message: string)
    | Internal(message: string)

  /** A value, or the exception the operation threw instead. */
  datatype Result<+T> = Ok(value: T) | Err(error: Error) {
    predicate IsFailure() {
      Err?
    }

    function PropagateFailure<U>(): Result<U>
      requires Err?
    {
      Err(error)
    }

    function Extract(): T
      requires Ok?
    {
      value
    }
  }

  /** JavaScript truthiness of an optional string: `null`, `undefined` and
      the empty string are all falsy. */
  predicate Truthy(s: Option<string>) {
    s.Some? && s.value != ""
  }

  /** What the file-upload service produced for an optional uploaded file:
      no file was sent, the file was stored under a public URL, or the
      storage call failed (the upload service then throws a plain Error). */
  datatype Upload = NoFile | Uploaded(url: string) | UploadFailed

  const UploadFailedMessage := "Failed to upload file to storage"

  /** The URL an upload yields (`null` when no file was sent), or the error
      the upload service throws. */
  function UploadUrl(u: Upload): (r: Result<Option<string>>)
    ensures r.Err? <==> u.UploadFailed?
    ensures r.Err? ==> r.error == Internal(UploadFailedMessage)
    ensures r.Ok? && r.value.Some? <==> u.Uploaded?
    ensures u.Uploaded? ==> r == Ok(Some(u.url))
  {
    match u
    case NoFile => Ok(None)
    case Uploaded(url) => Ok(Some(url))
    case UploadFailed => Err(Internal(UploadFailedMessage))
  }

  predicate IsDigit(c: char) {
    '0' <= c <= '9'
  }

  predicate AllDigits(s: string) {
    forall i :: 0 <= i < |s| ==> IsDigit(s[i])
  }

  function DigitChar(d: nat): (c: char)
    requires d < 10
    ensures IsDigit(c) && c as int - '0' as int == d
  {
    "0123456789"[d]
  }

  /** Decimal rendering of a natural number, most significant digit first,
      without leading zeros. */
  function DecimalString(n: nat): (s: string)
    ensures |s| >= 1 && AllDigits(s)
    ensures n >= 10 ==> s[0] != '0'
  {
    if n < 10 then [DigitChar(n)] else DecimalString(n / 10) + [DigitChar(n % 10)]
  }

  /** The value of a string of decimal digits. */
  function DecimalValue(s: string): nat
    requires AllDigits(s)
  {
    if s == [] then 0
    else DecimalValue(s[..|s| - 1]) * 10 + (s[|s| - 1] as int - '0' as int)
  }

  /** Reading back a rendered number gives the number. */
  lemma {:induction false} DecimalRoundTrip(n: nat)
    ensures DecimalValue(DecimalString(n)) == n
  {
    var s := DecimalString(n);
    if n >= 10 {
      assert s[..|s| - 1] == DecimalString(n / 10);
      DecimalRoundTrip(n / 10);
    }
  }

  /** Decimal rendering of an integer, as `${n}` does for a whole number. */
  function IntString(n: int): string {
    if n < 0 then "-" + DecimalString(-n) else DecimalString(n)
  }
}
