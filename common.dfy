/** Vocabulary shared by the two services and the notification worker: optional
    values, handler outcomes, and the JavaScript truthiness tests the handlers use. */
module Common {

  /** A value that may be absent. Each datatype that uses it says which JavaScript
      value `None` stands for. */
  datatype Option<+T> = None | Some(value: T)

  /** Why a handler answered with a client-facing failure (HTTP 400). */
  datatype InvalidReason =
    | MissingCreateFields   // create: propertyAddress, inspectorName or inspectorEmail missing
    | ChecklistIncomplete   // generate: checklist absent or some value null
    | ReportNotGenerated    // get report: status is not REPORT_GENERATED
    | MissingPresignFields  // presigned URL: inspectionId or fileName missing

  /** The failure taxonomy of the HTTP handlers. */
  datatype Failure =
    | NotFound                       // 404
    | Invalid(reason: InvalidReason) // 400
    | Unexpected                     // 500: an exception caught at the handler boundary

  /** The outcome of one request handler. */
  datatype Result<+T> = Ok(value: T) | Err(failure: Failure)

  /** The HTTP status a failure is answered with. */
  function StatusCode(f: Failure): int
  {
    match f
    case NotFound => 404
    case Invalid(_) => 400
    case Unexpected => 500
  }

  /** JavaScript truthiness of a possibly-missing string: present and non-empty. */
  predicate Truthy(s: Option<string>)
  {
    s.Some? && s.value != ""
  }

  /** `s || ""`: the string when it is truthy, the empty string otherwise. */
  function OrEmpty(s: Option<string>): string
  {
    if Truthy(s) then s.value else ""
  }

  /** `s` ends with `suffix`. */
  predicate EndsWith(s: string, suffix: string)
  {
    |suffix| <= |s| && s[|s| - |suffix|..] == suffix
  }

  /** `s.slice(0, n)`: the first n characters, or all of s when it is shorter. */
  function Take(s: string, n: nat): (r: string)
    ensures |r| == if |s| < n then |s| else n
    ensures r <= s
  {
    if |s| < n then s else s[..n]
  }

  /** One more element of a prefix. */
  lemma PrefixSnoc<T>(s: seq<T>, i: nat)
    requires i < |s|
    ensures s[..i + 1] == s[..i] + [s[i]]
  {
  }
}
