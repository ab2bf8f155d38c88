/** What one pass and a run of passes of the reconciliation loop do, stated
    over the specification functions of `Reconcile`. Throughout, `fx` is the
    trace before the pass and `d` the configured domain. */
module ReconcileFacts {
  import opened Options
  import opened Config
  import opened Domain
  import opened Provider
  import opened Reconcile

  /** A missing API key or domain ends the pass before any call: the
      variables stay as they were and the only effect is the sleep
      (index.js:211-216, 262-264). */
  lemma MissingConfigurationOnlySleeps(s: State, env: Env, fx: seq<Effect>, rs: Responses)
    requires !Configured(env)
    ensures Iterate(s, env, fx, rs)
         == Pass(s, fx + [Nap(env)], Caught(if !Truthy(env.apiKey) then MissingApiKey else MissingDomain))
  {
  }

  /** With the zone unknown, the pass starts with the zone lookup on the root
      domain; a failed or empty lookup ends it with the state unchanged
      (index.js:219-221, 49-59). */
  lemma ZoneLookupFailureKeepsState(s: State, env: Env, fx: seq<Effect>, rs: Responses)
    requires Configured(env) && !Truthy(s.zoneId)
    requires ZoneResult(rs.zone).Failure?
    ensures Iterate(s, env, fx, rs)
         == Pass(s, fx + [ZoneLookup(RootDomain(env.domain.value)), Nap(env)], Caught(ZoneResult(rs.zone).error))
  {
  }

  /** A successful zone lookup leaves the pass exactly where a pass that
      already knew the zone would be, one lookup later. An empty zone id is
      excluded: it is stored but stays falsy, so that pass does not behave as
      one with a known zone, and the next pass looks the zone up again. */
  lemma ZoneLookupSuccessResumes(s: State, env: Env, fx: seq<Effect>, rs: Responses, zone: string)
    requires Configured(env) && !Truthy(s.zoneId)
    requires ZoneResult(rs.zone) == Success(zone) && zone != ""
    ensures Iterate(s, env, fx, rs)
         == Iterate(s.(zoneId := Some(zone)), env, fx + [ZoneLookup(RootDomain(env.domain.value))], rs)
  {
  }

  /** A known zone is never looked up again: the pass extends the trace,
      starts with the record lookup or the public-IP fetch, and issues no
      zone lookup at all. */
  lemma KnownZoneIsNotLookedUp(s: State, env: Env, fx: seq<Effect>, rs: Responses)
    requires Configured(env) && Truthy(s.zoneId)
    ensures var p := Iterate(s, env, fx, rs);
            |p.trace| > |fx| + 1 && p.trace[..|fx|] == fx &&
            p.trace[|fx|] == (if Truthy(s.recordId) then IpFetch
                              else RecordLookup(s.zoneId.value, env.domain.value, LookupType)) &&
            forall k :: |fx| <= k < |p.trace| ==> !p.trace[k].ZoneLookup?
  {
  }

  /** A failed record lookup ends the pass without touching the record id or
      the cached IP (index.js:76-80). */
  lemma RecordLookupFailureKeepsRecord(s: State, env: Env, fx: seq<Effect>, rs: Responses)
    requires Configured(env) && Truthy(s.zoneId) && !Truthy(s.recordId)
    requires rs.record.Fail?
    ensures Iterate(s, env, fx, rs)
         == Pass(s, fx + [RecordLookup(s.zoneId.value, env.domain.value, LookupType), Nap(env)],
                 Caught(RecordLookupFailed))
  {
  }

  /** A found record gives its id and content to `recordId` and `cacheIP`,
      and the same pass goes straight on to the update check, with no sleep
      in between (index.js:227-229, 245-259). An empty record id is excluded:
      it is stored but stays falsy, so the next pass looks the record up
      again. */
  lemma RecordFoundResumes(s: State, env: Env, fx: seq<Effect>, rs: Responses, entry: RecordEntry)
    requires Configured(env) && Truthy(s.zoneId) && !Truthy(s.recordId)
    requires RecordResult(rs.record) == Success(Some(entry)) && entry.id != ""
    ensures Iterate(s, env, fx, rs)
         == Iterate(s.(recordId := Some(entry.id), cacheIP := entry.content), env,
                    fx + [RecordLookup(s.zoneId.value, env.domain.value, LookupType)], rs)
  {
  }

  /** An absent record is created with the fetched public IP, which becomes
      the cached IP; no update is attempted and the pass sleeps twice, once
      before its `continue` and once in `finally` (index.js:230-242, 262-264). */
  lemma AbsentRecordIsCreated(s: State, env: Env, fx: seq<Effect>, rs: Responses, id: string)
    requires Configured(env) && Truthy(s.zoneId) && !Truthy(s.recordId)
    requires RecordResult(rs.record) == Success(None)
    requires rs.publicIp.Ok? && rs.create == Ok(id)
    ensures var zone, d, ip := s.zoneId.value, env.domain.value, Trim(rs.publicIp.value);
            Iterate(s, env, fx, rs) ==
              Pass(State(s.zoneId, Some(id), ip),
                   fx + [RecordLookup(zone, d, LookupType), IpFetch, Create(zone, CreateBody(env, d, ip)), Nap(env), Nap(env)],
                   Continued)
  {
  }

  /** An absent record whose creation cannot get the public IP ends the pass
      before any write, with the state unchanged (index.js:232, 180-184). */
  lemma CreationFetchFailureKeepsState(s: State, env: Env, fx: seq<Effect>, rs: Responses)
    requires Configured(env) && Truthy(s.zoneId) && !Truthy(s.recordId)
    requires RecordResult(rs.record) == Success(None)
    requires rs.publicIp.Fail?
    ensures Iterate(s, env, fx, rs)
         == Pass(s, fx + [RecordLookup(s.zoneId.value, env.domain.value, LookupType), IpFetch, Nap(env)],
                 Caught(PublicIpFetchFailed))
  {
  }

  /** A failed creation leaves the record unknown and the cached IP as it
      was, so the next pass looks the record up again (index.js:113-118). */
  lemma FailedCreationKeepsState(s: State, env: Env, fx: seq<Effect>, rs: Responses)
    requires Configured(env) && Truthy(s.zoneId) && !Truthy(s.recordId)
    requires RecordResult(rs.record) == Success(None)
    requires rs.publicIp.Ok? && rs.create.Fail?
    ensures var p := Iterate(s, env, fx, rs);
            p.state == s && p.status == Caught(RecordCreateFailed) &&
            p.trace[|p.trace| - 2..] == [Create(s.zoneId.value, CreateBody(env, env.domain.value, Trim(rs.publicIp.value))), Nap(env)]
  {
  }

  /** Steady state, zone and record known: the public IP is fetched; the
      record is patched with it exactly when it differs from the cached IP;
      the cached IP takes the new value only when the patch succeeds, so a
      failed patch is retried by the next pass (index.js:245-259). */
  lemma SteadyStatePatchesOnChange(s: State, env: Env, fx: seq<Effect>, rs: Responses)
    requires Configured(env) && Truthy(s.zoneId) && Truthy(s.recordId)
    requires rs.publicIp.Ok?
    ensures var ip := Trim(rs.publicIp.value);
            var patch := Patch(s.zoneId.value, s.recordId.value, PatchBody(env, env.domain.value, ip));
            Iterate(s, env, fx, rs) ==
              if s.cacheIP == ip then Pass(s, fx + [IpFetch, Nap(env)], Completed)
              else if rs.patch.Ok? then Pass(s.(cacheIP := ip), fx + [IpFetch, patch, Nap(env)], Completed)
              else Pass(s, fx + [IpFetch, patch, Nap(env)], Caught(RecordPatchFailed))
  {
  }

  /** Steady state: a failed public-IP fetch changes nothing and writes nothing. */
  lemma SteadyStateFetchFailure(s: State, env: Env, fx: seq<Effect>, rs: Responses)
    requires Configured(env) && Truthy(s.zoneId) && Truthy(s.recordId)
    requires rs.publicIp.Fail?
    ensures Iterate(s, env, fx, rs) == Pass(s, fx + [IpFetch, Nap(env)], Caught(PublicIpFetchFailed))
  {
  }

  /** An effect as the configuration shapes it: the record lookup is always
      on type `LookupType` ("A") and the domain, writes carry the configured body, and
      sleeps last the configured interval (index.js:70, 103-109, 155-161, 199). */
  predicate Shaped(env: Env, e: Effect) {
    match e
    case ZoneLookup(name) => Truthy(env.domain) && name == RootDomain(env.domain.value)
    case RecordLookup(_, name, recordType) => Truthy(env.domain) && name == env.domain.value && recordType == LookupType
    case IpFetch => true
    case Create(_, body) => Truthy(env.domain) && body == CreateBody(env, env.domain.value, body.content)
    case Patch(_, _, body) => Truthy(env.domain) && body == PatchBody(env, env.domain.value, body.content)
    case Sleep(millis) => millis == SleepMillis(env.intervalMinutes)
  }

  predicate AllShaped(env: Env, trace: seq<Effect>) {
    forall k :: 0 <= k < |trace| ==> Shaped(env, trace[k])
  }

  lemma ShapedAppend(env: Env, a: seq<Effect>, b: seq<Effect>)
    requires AllShaped(env, a) && AllShaped(env, b)
    ensures AllShaped(env, a + b)
  {
    forall k | 0 <= k < |a + b| ensures Shaped(env, (a + b)[k]) {
      if k >= |a| { assert (a + b)[k] == b[k - |a|]; }
    }
  }

  lemma ShapedSnoc(env: Env, a: seq<Effect>, e: Effect)
    requires AllShaped(env, a) && Shaped(env, e)
    ensures AllShaped(env, a + [e])
  {
    ShapedAppend(env, a, [e]);
  }

  lemma SyncKeepsShape(s: State, env: Env, zone: string, record: string, fx: seq<Effect>, rs: Responses)
    requires Configured(env) && AllShaped(env, fx)
    ensures AllShaped(env, Sync(s, env, env.domain.value, zone, record, fx, rs).trace)
  {
    var d := env.domain.value;
    ShapedSnoc(env, fx, IpFetch);
    if rs.publicIp.Ok? {
      var ip := Trim(rs.publicIp.value);
      ShapedSnoc(env, fx + [IpFetch], Patch(zone, record, PatchBody(env, d, ip)));
    }
  }

  lemma CreateRecordKeepsShape(s: State, env: Env, zone: string, fx: seq<Effect>, rs: Responses)
    requires Configured(env) && AllShaped(env, fx)
    ensures AllShaped(env, CreateRecord(s, env, env.domain.value, zone, fx, rs).trace)
  {
    var d := env.domain.value;
    ShapedSnoc(env, fx, IpFetch);
    if rs.publicIp.Ok? {
      var created := fx + [IpFetch, Create(zone, CreateBody(env, d, Trim(rs.publicIp.value)))];
      ShapedSnoc(env, fx + [IpFetch], Create(zone, CreateBody(env, d, Trim(rs.publicIp.value))));
      assert fx + [IpFetch] + [Create(zone, CreateBody(env, d, Trim(rs.publicIp.value)))] == created;
      ShapedSnoc(env, created, Nap(env));
    }
  }

  lemma ResolveRecordKeepsShape(s: State, env: Env, zone: string, fx: seq<Effect>, rs: Responses)
    requires Configured(env) && AllShaped(env, fx)
    ensures AllShaped(env, ResolveRecord(s, env, env.domain.value, zone, fx, rs).trace)
  {
    var d := env.domain.value;
    if Truthy(s.recordId) {
      SyncKeepsShape(s, env, zone, s.recordId.value, fx, rs);
    } else {
      var looked := fx + [RecordLookup(zone, d, LookupType)];
      ShapedSnoc(env, fx, RecordLookup(zone, d, LookupType));
      match RecordResult(rs.record)
      case Failure(_) =>
      case Success(Some(entry)) =>
        SyncKeepsShape(s.(recordId := Some(entry.id), cacheIP := entry.content), env, zone, entry.id, looked, rs);
      case Success(None) =>
        CreateRecordKeepsShape(s, env, zone, looked, rs);
    }
  }

  /** A pass issues only effects shaped by the configuration. */
  lemma IterateKeepsShape(s: State, env: Env, fx: seq<Effect>, rs: Responses)
    requires AllShaped(env, fx)
    ensures AllShaped(env, Iterate(s, env, fx, rs).trace)
  {
    var a := Attempt(s, env, fx, rs);
    if Configured(env) {
      var d := env.domain.value;
      if Truthy(s.zoneId) {
        ResolveRecordKeepsShape(s, env, s.zoneId.value, fx, rs);
      } else {
        ShapedSnoc(env, fx, ZoneLookup(RootDomain(d)));
        if ZoneResult(rs.zone).Success? {
          var zone := ZoneResult(rs.zone).value;
          ResolveRecordKeepsShape(s.(zoneId := Some(zone)), env, zone, fx + [ZoneLookup(RootDomain(d))], rs);
        }
      }
    }
    ShapedSnoc(env, a.trace, Nap(env));
  }

  /** A run of passes issues only effects shaped by the configuration. */
  lemma {:induction false} ReplayKeepsShape(start: Run, env: Env, rounds: seq<Responses>)
    requires AllShaped(env, start.trace)
    ensures AllShaped(env, Replay(start, env, rounds).trace)
  {
    if rounds != [] {
      var before := Replay(start, env, rounds[..|rounds| - 1]);
      ReplayKeepsShape(start, env, rounds[..|rounds| - 1]);
      IterateKeepsShape(before.state, env, before.trace, rounds[|rounds| - 1]);
    }
  }

  /** Resolved identifiers survive any run of passes, whatever fails. */
  lemma {:induction false} ReplayKeepsIdentifiers(start: Run, env: Env, rounds: seq<Responses>)
    ensures var end := Replay(start, env, rounds);
            (Truthy(start.state.zoneId) ==> end.state.zoneId == start.state.zoneId) &&
            (Truthy(start.state.recordId) ==> end.state.recordId == start.state.recordId)
  {
    if rounds != [] {
      ReplayKeepsIdentifiers(start, env, rounds[..|rounds| - 1]);
    }
  }

  /** `n` copies of `block`, one after the other. */
  function Repeat(block: seq<Effect>, n: nat): seq<Effect> {
    if n == 0 then [] else Repeat(block, n - 1) + block
  }

  /** Steady state with an unchanged public IP: however many passes run, the
      variables stay as they are and each pass only fetches the IP and
      sleeps, so no write is ever issued. */
  lemma {:induction false} UnchangedIpWritesNothing(start: Run, env: Env, rounds: seq<Responses>)
    requires Configured(env) && Truthy(start.state.zoneId) && Truthy(start.state.recordId)
    requires forall i :: 0 <= i < |rounds| ==> PublicIp(rounds[i].publicIp) == Success(start.state.cacheIP)
    ensures Replay(start, env, rounds) == Run(start.state, start.trace + Repeat([IpFetch, Nap(env)], |rounds|))
  {
    if rounds != [] {
      var n := |rounds| - 1;
      UnchangedIpWritesNothing(start, env, rounds[..n]);
      SteadyStatePatchesOnChange(start.state, env, start.trace + Repeat([IpFetch, Nap(env)], n), rounds[n]);
    }
  }

  /** Answers for a pass in which only the named calls matter. */
  function Answers(zone: Reply<Option<seq<string>>>, record: Reply<Option<seq<RecordEntry>>>,
                   ip: string, created: Reply<string>): Responses
  {
    Responses(zone, record, Ok(ip), created, Ok(()))
  }

  /** The first pass of a fresh start: the zone is found, no record is, and
      the record is created with the fetched IP, which becomes the cached IP. */
  lemma FirstPassCreatesRecord(env: Env, zone: string, record: string, ip: string)
    requires Configured(env) && zone != "" && Trim(ip) == ip
    ensures var d := env.domain.value;
            Iterate(Initial, env, [], Answers(Ok(Some([zone])), Ok(Some([])), ip, Ok(record))) ==
              Pass(State(Some(zone), Some(record), ip),
                   [ZoneLookup(RootDomain(d)), RecordLookup(zone, d, LookupType), IpFetch,
                    Create(zone, CreateBody(env, d, ip)), Nap(env), Nap(env)],
                   Continued)
  {
    var d := env.domain.value;
    var first := Answers(Ok(Some([zone])), Ok(Some([])), ip, Ok(record));
    var none: seq<Effect> := [];
    var looked := none + [ZoneLookup(RootDomain(d))];
    ZoneLookupSuccessResumes(Initial, env, none, first, zone);
    AbsentRecordIsCreated(Initial.(zoneId := Some(zone)), env, looked, first, record);
    assert looked + [RecordLookup(zone, d, LookupType), IpFetch, Create(zone, CreateBody(env, d, ip)), Nap(env), Nap(env)]
        == [ZoneLookup(RootDomain(d)), RecordLookup(zone, d, LookupType), IpFetch,
            Create(zone, CreateBody(env, d, ip)), Nap(env), Nap(env)];
  }

  /** The second pass of a fresh start sees the IP the first one wrote and
      adds only the IP fetch and the sleep. */
  lemma SecondPassWritesNothing(env: Env, zone: string, record: string, ip: string)
    requires Configured(env) && zone != "" && record != "" && Trim(ip) == ip
    ensures var d := env.domain.value;
            var first := Answers(Ok(Some([zone])), Ok(Some([])), ip, Ok(record));
            var later := Answers(Fail, Fail, ip, Fail);
            Replay(Run(Initial, []), env, [first, later]) ==
              Run(State(Some(zone), Some(record), ip),
                  [ZoneLookup(RootDomain(d)), RecordLookup(zone, d, LookupType), IpFetch,
                   Create(zone, CreateBody(env, d, ip)), Nap(env), Nap(env)] + [IpFetch, Nap(env)])
  {
    var d := env.domain.value;
    var first := Answers(Ok(Some([zone])), Ok(Some([])), ip, Ok(record));
    var later := Answers(Fail, Fail, ip, Fail);
    var rounds := [first, later];
    var start := Run(Initial, []);
    var s1 := State(Some(zone), Some(record), ip);
    var t1 := [ZoneLookup(RootDomain(d)), RecordLookup(zone, d, LookupType), IpFetch,
               Create(zone, CreateBody(env, d, ip)), Nap(env), Nap(env)];
    FirstPassCreatesRecord(env, zone, record, ip);
    assert rounds[..0] == [];
    ReplayPrefix(start, env, rounds, 0);
    assert Replay(start, env, rounds[..1]) == Run(s1, t1);
    SteadyStatePatchesOnChange(s1, env, t1, later);
    ReplayPrefix(start, env, rounds, 1);
    assert rounds[..2] == rounds;
  }

  /** A fresh start: the first pass creates the record with the first IP; the
      next pass sees the same IP and writes nothing; the pass after sees a
      new IP and patches the record with it. The answers to calls a pass does
      not make are irrelevant and given as failures. */
  lemma FreshStartScenario(env: Env, zone: string, record: string, ip1: string, ip2: string)
    requires Configured(env) && zone != "" && record != ""
    requires Trim(ip1) == ip1 && Trim(ip2) == ip2 && ip1 != ip2
    ensures var d := env.domain.value;
            var first := Answers(Ok(Some([zone])), Ok(Some([])), ip1, Ok(record));
            var later := Answers(Fail, Fail, ip1, Fail);
            var last := Answers(Fail, Fail, ip2, Fail);
            Replay(Run(Initial, []), env, [first, later, last]) ==
              Run(State(Some(zone), Some(record), ip2),
                  [ZoneLookup(RootDomain(d)), RecordLookup(zone, d, LookupType), IpFetch,
                   Create(zone, CreateBody(env, d, ip1)), Nap(env), Nap(env)] +
                  [IpFetch, Nap(env)] +
                  [IpFetch, Patch(zone, record, PatchBody(env, d, ip2)), Nap(env)])
  {
    var d := env.domain.value;
    var first := Answers(Ok(Some([zone])), Ok(Some([])), ip1, Ok(record));
    var later := Answers(Fail, Fail, ip1, Fail);
    var last := Answers(Fail, Fail, ip2, Fail);
    var rounds := [first, later, last];
    var start := Run(Initial, []);
    var s1 := State(Some(zone), Some(record), ip1);
    var t2 := [ZoneLookup(RootDomain(d)), RecordLookup(zone, d, LookupType), IpFetch,
               Create(zone, CreateBody(env, d, ip1)), Nap(env), Nap(env)] + [IpFetch, Nap(env)];
    SecondPassWritesNothing(env, zone, record, ip1);
    assert rounds[..2] == [first, later];
    SteadyStatePatchesOnChange(s1, env, t2, last);
    ReplayPrefix(start, env, rounds, 2);
    assert rounds[..3] == rounds;
  }
}
