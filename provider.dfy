/** What the updater makes of the DNS provider's and the IP service's
    answers, and what it sends them (index.js:35-123, 147-189). Transport,
    headers and JSON are not modelled: a call's answer is a `Reply`. */
module Provider {
  import opened Options
  import opened Config

  /** The errors `main` catches at the end of a pass. */
  datatype Error =
    | MissingApiKey         // index.js:211-213
    | MissingDomain         // index.js:214-216
    | ZoneLookupFailed      // the zone query threw
    | ZoneNotFound          // zone query answered with no zone
    | RecordLookupFailed    // the record query threw
    | RecordCreateFailed    // the record creation threw
    | RecordPatchFailed     // the record update threw
    | PublicIpFetchFailed   // the request to the IP service threw

  datatype Result<T> = Success(value: T) | Failure(error: Error)

  /** The answer to one HTTP call: `Ok` with the payload the code reads from a
      2xx response, or `Fail` for any way the call throws (a non-2xx status,
      a rejected request, a body that is not valid JSON). */
  datatype Reply<T> = Ok(value: T) | Fail

  /** One entry of the record query's result set. */
  datatype RecordEntry = RecordEntry(id: string, content: string)

  /** The JSON body of a record creation or update. */
  datatype RecordBody = RecordBody(recordType: string, name: string, content: string, ttl: int, proxied: bool)

  /** The provider's "automatic" TTL. */
  const AutoTtl: int := 1
  /** The type the record query filters on, whatever CF_DOMAIN_TYPE says. */
  const LookupType: string := "A"

  /** getZoneId's decision on the zone query: a failed query or an absent or
      empty `result` is an error, otherwise the first zone's id. */
  function ZoneResult(reply: Reply<Option<seq<string>>>): (r: Result<string>)
    ensures r.Success? <==> reply.Ok? && reply.value.Some? && reply.value.value != []
    ensures r.Success? ==> r.value == reply.value.value[0]
    ensures r.Failure? ==> r.error == (if reply.Fail? then ZoneLookupFailed else ZoneNotFound)
  {
    match reply
    case Fail => Failure(ZoneLookupFailed)
    case Ok(result) =>
      if result.None? || result.value == [] then Failure(ZoneNotFound)
      else Success(result.value[0])
  }

  /** getRecordId's decision on the record query: only a failed query is an
      error; an absent or empty `result` means "no record" (`None`), otherwise
      the first record's id and content. */
  function RecordResult(reply: Reply<Option<seq<RecordEntry>>>): (r: Result<Option<RecordEntry>>)
    ensures r.Failure? <==> reply.Fail?
    ensures r.Failure? ==> r.error == RecordLookupFailed
    ensures r.Success? ==> (r.value.None? <==> reply.value.None? || reply.value.value == [])
    ensures r.Success? && r.value.Some? ==> r.value.value == reply.value.value[0]
  {
    match reply
    case Fail => Failure(RecordLookupFailed)
    case Ok(result) =>
      if result.None? || result.value == [] then Success(None)
      else Success(Some(result.value[0]))
  }

  /** The body createDnsRecord posts. */
  function CreateBody(env: Env, domain: string, ip: string): (b: RecordBody)
    ensures b.name == domain && b.content == ip
  {
    RecordBody(DomainType(env.domainType), domain, ip, AutoTtl, IsProxied(env.proxied))
  }

  /** The body patchCloudflareIP sends. */
  function PatchBody(env: Env, domain: string, ip: string): (b: RecordBody)
    ensures b.name == domain && b.content == ip
  {
    RecordBody(DomainType(env.domainType), domain, ip, AutoTtl, IsProxied(env.proxied))
  }

  /** Creation and update write the same fields: the configured type, the
      domain, the IP, the automatic TTL and the proxied flag. */
  lemma CreateAndPatchAgree(env: Env, domain: string, ip: string)
    ensures CreateBody(env, domain, ip) == PatchBody(env, domain, ip)
    ensures CreateBody(env, domain, ip).recordType == DomainType(env.domainType)
    ensures var b := CreateBody(env, domain, ip);
            b.ttl == 1 && b.proxied == IsProxied(env.proxied) &&
            (b.recordType == "A" <==> !Truthy(env.domainType) || env.domainType.value == "A")
  {
  }

  /** ECMAScript WhiteSpace and LineTerminator code points, the set that
      `String.prototype.trim` removes. */
  predicate IsSpace(c: char) {
    c == '\t' || c == '\n' || c == '\U{000B}' || c == '\U{000C}' || c == '\r' || c == ' ' ||
    c == '\U{00A0}' || c == '\U{1680}' || ('\U{2000}' <= c <= '\U{200A}') ||
    c == '\U{2028}' || c == '\U{2029}' || c == '\U{202F}' || c == '\U{205F}' ||
    c == '\U{3000}' || c == '\U{FEFF}'
  }

  predicate AllSpace(s: string) {
    forall k :: 0 <= k < |s| ==> IsSpace(s[k])
  }

  /** `s` without its leading white space. */
  function TrimStart(s: string): (r: string)
    ensures |r| <= |s|
    ensures r == [] || !IsSpace(r[0])
  {
    if s != [] && IsSpace(s[0]) then TrimStart(s[1..]) else s
  }

  /** `s` without its trailing white space. */
  function TrimEnd(s: string): (r: string)
    ensures |r| <= |s|
    ensures r == [] || !IsSpace(r[|r| - 1])
  {
    if s != [] && IsSpace(s[|s| - 1]) then TrimEnd(s[..|s| - 1]) else s
  }

  /** `s.trim()`. */
  function Trim(s: string): (r: string)
    ensures r == [] || (!IsSpace(r[0]) && !IsSpace(r[|r| - 1]))
  {
    var t := TrimStart(s);
    TrimEndIsPrefix(t);
    TrimEnd(t)
  }

  /** TrimStart removes a prefix of white space. */
  lemma {:induction false} TrimStartIsSuffix(s: string)
    ensures var r := TrimStart(s);
            |r| <= |s| && r == s[|s| - |r|..] && AllSpace(s[..|s| - |r|])
  {
    if s != [] && IsSpace(s[0]) {
      TrimStartIsSuffix(s[1..]);
      var n := |s| - |TrimStart(s)|;
      forall k | 0 <= k < n ensures IsSpace(s[..n][k]) {
        if k > 0 { assert s[..n][k] == s[1..][..n - 1][k - 1]; }
      }
    }
  }

  /** TrimEnd removes a suffix of white space. */
  lemma {:induction false} TrimEndIsPrefix(s: string)
    ensures var r := TrimEnd(s);
            |r| <= |s| && r == s[..|r|] && AllSpace(s[|r|..])
  {
    if s != [] && IsSpace(s[|s| - 1]) {
      var t := s[..|s| - 1];
      TrimEndIsPrefix(t);
      var n := |TrimEnd(s)|;
      forall k | 0 <= k < |s| - n ensures IsSpace(s[n..][k]) {
        if n + k < |s| - 1 { assert s[n..][k] == t[n..][k]; }
      }
    }
  }

  /** Trimming removes white space only: the result is what is left of `s`
      between its leading and its trailing white space. */
  lemma TrimRemovesOnlySpace(s: string)
    ensures var i, r := |s| - |TrimStart(s)|, Trim(s);
            i + |r| <= |s| && s[i..i + |r|] == r && AllSpace(s[..i]) && AllSpace(s[i + |r|..])
  {
    var t := TrimStart(s);
    var i := |s| - |t|;
    var r := Trim(s);
    TrimStartIsSuffix(s);
    TrimEndIsPrefix(t);
    assert s[i..i + |r|] == r;
    assert t[|r|..] == s[i + |r|..];
  }

  /** A string without surrounding white space is left as it is; in
      particular trimming twice is trimming once. */
  lemma TrimKeepsTrimmed(s: string)
    requires s == [] || (!IsSpace(s[0]) && !IsSpace(s[|s| - 1]))
    ensures Trim(s) == s
  {
  }

  /** getPublicIP: a failed request is an error, otherwise the trimmed body. */
  function PublicIp(reply: Reply<string>): (r: Result<string>)
    ensures r.Failure? <==> reply.Fail?
    ensures r.Failure? ==> r.error == PublicIpFetchFailed
    ensures r.Success? ==> r.value == Trim(reply.value)
    ensures r.Success? ==> r.value == [] || (!IsSpace(r.value[0]) && !IsSpace(r.value[|r.value| - 1]))
  {
    match reply
    case Fail => Failure(PublicIpFetchFailed)
    case Ok(text) => Success(Trim(text))
  }
}
