/** Values shared by every part of the honeypot model: optional JavaScript values, error
    results, severities and the activity/alert records that flow between the analyzer,
    the store and the dispatcher. */
module Common {

  /** An optional JavaScript value; `None` stands for `undefined` (the property is absent). */
  datatype Option<T> = None | Some(value: T)

  /** The outcome of code that may throw: `Err` carries the exception's message. */
  datatype Result<T> = Ok(value: T) | Err(error: string)

  /** JavaScript truthiness of an optional string: present and not the empty string. */
  predicate Present(s: Option<string>) {
    s.Some? && s.value != ""
  }

  /** `s || fallback` for an optional string. */
  function OrElse(s: Option<string>, fallback: string): (r: string)
    ensures Present(s) ==> r == s.value
    ensures !Present(s) ==> r == fallback
  {
    if Present(s) then s.value else fallback
  }

  /** How a template literal `${s}` renders an optional string. */
  function Show(s: Option<string>): (r: string)
    ensures s.Some? ==> r == s.value
    ensures s.None? ==> r == "undefined"
  {
    match s
    case Some(v) => v
    case None => "undefined"
  }

  datatype Severity = High | Medium | Low {
    /** The lower-case word the source stores and compares ('high', 'medium', 'low'). */
    function Label(): string {
      match this
      case High => "high"
      case Medium => "medium"
      case Low => "low"
    }
  }

  /** One observed attempt as the routes hand it to the store and to the analyzer
      (`activityData`); every field but the type may be absent. */
  datatype ActivityData = ActivityData(
    kind: string,
    email: Option<string>,
    password: Option<string>,
    ip: Option<string>,
    userAgent: Option<string>,
    success: Option<bool>,
    provider: Option<string>,
    profileId: Option<string>,
    payload: Option<string>,
    severity: Option<Severity>)

  /** The `alertData` object the analyzer builds for one threat and hands to both the
      alert table and the notification dispatcher. */
  datatype AlertData = AlertData(
    title: string,
    description: string,
    severity: Severity,
    reasonCode: string,
    ip: Option<string>,
    email: Option<string>)
}
