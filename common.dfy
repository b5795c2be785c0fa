/** Shared vocabulary of the front end: optional values, the abstract outcome of a
    call to the REST backend, the user-visible notices (toasts and alerts) and the
    result of a browser geolocation request. */
module Common {

  datatype Option<+T> = None | Some(value: T)

  /** The outcome of one HTTP call to the backend, as a handler observes it:
      the response data, or a rejection carrying `error.response.data.detail`
      when the server sent one. */
  datatype Reply<+T> = Ok(data: T) | Failed(detail: Option<string>)

  /** What a handler shows: `toast.success`, `toast.error`, `toast.info` or a
      blocking `window.alert`. */
  datatype Notice = Success(text: string) | Error(text: string) | Info(text: string) | Alert(text: string)

  /** JavaScript truthiness of an optional string: present and non-empty. */
  predicate Truthy(s: Option<string>)
  {
    s.Some? && s.value != ""
  }

  /** JavaScript truthiness of an optional number: present and not zero (NaN is
      not modelled). */
  predicate TruthyReal(x: Option<real>)
  {
    x.Some? && x.value != 0.0
  }

  /** `detail || fallback`: the server's detail when it is truthy, else the fallback. */
  function DetailOr(detail: Option<string>, fallback: string): (msg: string)
    ensures Truthy(detail) ==> msg == detail.value
    ensures !Truthy(detail) ==> msg == fallback
    ensures fallback != "" ==> msg != ""
  {
    if Truthy(detail) then detail.value else fallback
  }

  /** The signed-in user as `/auth/me` and the login and register calls return
      it; the front end inspects only the role. */
  datatype Account = Account(id: string, email: string, role: string)

  /** A position handed out by `navigator.geolocation.getCurrentPosition`. */
  datatype Location = Location(latitude: real, longitude: real, accuracy: real)

  /** The result of one geolocation request: a fix, no geolocation support in the
      browser (rejected before the request starts), or a platform error code
      (permission denied, position unavailable, timeout). */
  datatype Fix = Located(loc: Location) | Unsupported | PlatformError(code: nat)
}
