/** Requests and responses as the handlers see them: cookies in, status, JSON body and cookies out. */
module Http {
  import opened Wrappers
  import opened Jwt

  /** The two session cookies a request may carry. */
  datatype Cookies = Cookies(token: Option<Token>, adminToken: Option<Token>)

  /** `request.cookies.get(name)?.value` is truthy: present and not the empty string. */
  predicate Present(c: Option<Token>) {
    c.Some? && c.value != Raw("")
  }

  /** `response.cookies.set(name, value, options)`; the `secure` flag is left out. */
  datatype SetCookie = SetCookie(
    name: string,
    value: Token,
    httpOnly: bool,
    sameSite: string,
    maxAge: nat,
    path: Option<string>)

  /** A JSON body: `{ error }` on failure, the handler's own record on success. */
  datatype Payload<T> = Failure(error: string) | Success(data: T)

  datatype Response<T> = Response(status: int, body: Payload<T>, cookies: seq<SetCookie>)

  /** `NextResponse.json({ error }, { status })`. */
  function Fail<T>(status: int, error: string): Response<T> {
    Response(status, Failure(error), [])
  }

  /** `NextResponse.json(data, { status })` without cookies. */
  function Ok<T>(status: int, data: T): Response<T> {
    Response(status, Success(data), [])
  }

  /** The outcome of a middleware: pass the request on, or answer it with an error. */
  datatype Gate = Next | Deny(status: int, error: string)
}
