/**
 * The proxy's private cookie jar, seen through its plain contents.
 *
 * The real jar seals every cookie with a process-wide key; a cookie that does
 * not unseal is never returned by a lookup. Here the jar is the map from cookie
 * name to the cookie that unsealed, and sealing is not modelled.
 */
module CookieJar {
  import opened Wrappers

  /** How long the browser keeps a cookie: a relative max-age in seconds or an absolute expiry instant (Unix seconds). */
  datatype Lifetime = MaxAge(seconds: int) | Expires(unixSeconds: int)

  datatype Cookie = Cookie(value: string, lifetime: Lifetime, httpOnly: bool, secure: bool, path: string)

  type Jar = map<string, Cookie>

  /** The value of the cookie called `name`, if the jar holds one. */
  function ValueOf(jar: Jar, name: string): Option<string>
  {
    if name in jar then Some(jar[name].value) else None
  }
}
