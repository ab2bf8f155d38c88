/** The configuration read from the environment (index.js:5-9, 199, 211-216). */
module Config {
  import opened Options

  /** The environment variables the updater reads. `None` stands for an unset
      variable. `intervalMinutes` is `INTERVAL` after integer parsing; an unset
      or empty `INTERVAL` is `None`. */
  datatype Env = Env(
    apiKey: Option<string>,          // CF_API_KEY
    domain: Option<string>,          // CF_DOMAIN
    proxied: Option<string>,         // PROXIED
    domainType: Option<string>,      // CF_DOMAIN_TYPE
    intervalMinutes: Option<int>     // INTERVAL
  )

  const MillisPerMinute: int := 60000
  /** The poll interval used when INTERVAL is unset: five minutes. */
  const DefaultSleepMillis: int := 300000

  /** The proxied flag sent with every record write: on unless PROXIED is set
      to something other than "true" or "1". */
  function IsProxied(flag: Option<string>): (r: bool)
    ensures !Truthy(flag) ==> r
    ensures Truthy(flag) ==> (r <==> flag.value == "true" || flag.value == "1")
  {
    flag == Some("true") || flag == Some("1") || !Truthy(flag)
  }

  /** The record type sent with every record write; "A" unless CF_DOMAIN_TYPE
      is set to a non-empty string. */
  function DomainType(t: Option<string>): (r: string)
    ensures r != ""
    ensures Truthy(t) ==> r == t.value
    ensures !Truthy(t) ==> r == "A"
  {
    if Truthy(t) then t.value else "A"
  }

  /** The length of one sleep, in milliseconds. */
  function SleepMillis(minutes: Option<int>): (r: int)
    ensures r % MillisPerMinute == 0
    ensures minutes.Some? ==> r / MillisPerMinute == minutes.value
    ensures minutes.None? ==> r == 5 * MillisPerMinute
  {
    if minutes.Some? then minutes.value * MillisPerMinute else DefaultSleepMillis
  }

  /** Both variables the updater cannot do without are present. */
  predicate Configured(env: Env) {
    Truthy(env.apiKey) && Truthy(env.domain)
  }

  lemma ProxiedIsOptOut(flag: Option<string>)
    ensures IsProxied(flag) <==> flag in {None, Some(""), Some("true"), Some("1")}
    ensures !IsProxied(Some("false")) && !IsProxied(Some("0")) && !IsProxied(Some("TRUE"))
  {
  }

  lemma UnsetIntervalIsFiveMinutes()
    ensures SleepMillis(None) == SleepMillis(Some(5)) == DefaultSleepMillis
  {
  }
}
