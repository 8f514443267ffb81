/**
 * The filter engine shared by loggers and appenders: `allow` (global switch,
 * user-agent and IP filters) and `allowMessage` (the `disallow` filter).
 * Regular expressions are not interpreted: the host supplies `test`, which
 * answers whether a pattern matches a subject, or None when building or
 * running the expression throws.
 */
module Filters {
  import opened Base
  import opened Values

  /**
   * What the host environment supplies: the user-agent string, the regex
   * engine and the serializer in effect. `serialize` stands for the choice
   * stringifyLogObject makes: the global `serialize` hook when one is set,
   * and JSON encoding otherwise.
   */
  datatype Env = Env(
    userAgent: string,
    test: (string, string) -> Option<bool>,
    serialize: Value -> string)

  /** The filter options a logger or an appender may hold. */
  datatype FilterOptions = FilterOptions(
    userAgentRegex: Option<string>,
    ipRegex: Option<string>,
    disallow: Option<string>)

  /** A string option is truthy when it is set and not empty. */
  predicate IsSet(s: Option<string>)
  {
    s.Some? && s.value != ""
  }

  /** A set filter rejects only when its expression is evaluated and does not match. */
  predicate Rejects(env: Env, regex: Option<string>, subject: string)
  {
    IsSet(regex) && env.test(regex.value, subject) == Some(false)
  }

  /**
   * allow: false when logging is switched off globally; otherwise false only
   * when the user-agent filter, or the IP filter (when a client IP is known),
   * is evaluated and does not match. An expression that throws lets the item
   * pass.
   */
  function Allow(enabled: Option<bool>, clientIP: Option<string>, env: Env, f: FilterOptions): (r: bool)
    ensures enabled == Some(false) ==> !r
    ensures !r <==> enabled == Some(false)
                    || (IsSet(f.userAgentRegex) && env.test(f.userAgentRegex.value, env.userAgent) == Some(false))
                    || (IsSet(clientIP) && IsSet(f.ipRegex) && env.test(f.ipRegex.value, clientIP.value) == Some(false))
    ensures !r && enabled != Some(false) ==>
      (IsSet(f.userAgentRegex) && env.test(f.userAgentRegex.value, env.userAgent) == Some(false))
      || (IsSet(f.ipRegex) && IsSet(clientIP) && env.test(f.ipRegex.value, clientIP.value) == Some(false))
    ensures enabled != Some(false) && !IsSet(f.userAgentRegex) && !IsSet(f.ipRegex) ==> r
    ensures (enabled != Some(false) && !IsSet(f.ipRegex) && IsSet(f.userAgentRegex)
             && env.test(f.userAgentRegex.value, env.userAgent) == None) ==> r
  {
    if enabled == Some(false) then false
    else if Rejects(env, f.userAgentRegex, env.userAgent) then false
    else if IsSet(clientIP) && Rejects(env, f.ipRegex, clientIP.value) then false
    else true
  }

  /**
   * allowMessage: false exactly when a `disallow` expression is set, is
   * evaluated without throwing and matches the message.
   */
  function AllowMessage(env: Env, f: FilterOptions, message: string): (r: bool)
    ensures !IsSet(f.disallow) ==> r
    ensures !r <==> IsSet(f.disallow) && env.test(f.disallow.value, message) == Some(true)
  {
    if IsSet(f.disallow) && env.test(f.disallow.value, message) == Some(true) then false else true
  }
}
