/** The reconciliation loop of `main` (index.js:204-266): one pass resolves
    the zone and the record if they are unknown, then compares the public IP
    with the cached one and updates the record when they differ. Every call to
    the outside world is replaced by its answer, supplied as an input, and
    recorded as an `Effect` at the end of an ordered trace. */
module Reconcile {
  import opened Options
  import opened Config
  import opened Domain
  import opened Provider

  /** The three variables `main` keeps across passes. */
  datatype State = State(zoneId: Option<string>, recordId: Option<string>, cacheIP: string)

  /** `main`'s variables before the first pass (index.js:205-207). */
  const Initial: State := State(None, None, "")

  /** One observable action of a pass, in the order it is issued. */
  datatype Effect =
    | ZoneLookup(zoneName: string)
    | RecordLookup(zoneId: string, name: string, recordType: string)
    | IpFetch
    | Create(zoneId: string, body: RecordBody)
    | Patch(zoneId: string, recordId: string, body: RecordBody)
    | Sleep(millis: int)

  /** The answers the outside world gives to the calls of one pass. A pass
      makes each kind of call at most once, so one answer each suffices. */
  datatype Responses = Responses(
    zone: Reply<Option<seq<string>>>,
    record: Reply<Option<seq<RecordEntry>>>,
    publicIp: Reply<string>,
    create: Reply<string>,
    patch: Reply<()>
  )

  /** How the `try` block of a pass ended. */
  datatype Status = Completed | Continued | Caught(error: Error)

  /** Where a pass (or part of one) leaves the variables, the trace of every
      effect issued so far, and how the `try` block ended. */
  datatype Pass = Pass(state: State, trace: seq<Effect>, status: Status)

  /** The sleep `main` performs, with the configured duration. */
  function Nap(env: Env): Effect {
    Sleep(SleepMillis(env.intervalMinutes))
  }

  /** The update check (index.js:245-259), run with the zone and the record
      known: fetch the public IP and patch the record when it differs from
      the cached one. `fx` is the trace before it. */
  function Sync(s: State, env: Env, domain: string, zone: string, record: string,
                fx: seq<Effect>, rs: Responses): (p: Pass)
    ensures p.state.zoneId == s.zoneId && p.state.recordId == s.recordId
    ensures !p.status.Continued?
  {
    var fetched := fx + [IpFetch];
    match PublicIp(rs.publicIp)
    case Failure(e) => Pass(s, fetched, Caught(e))
    case Success(ip) =>
      if s.cacheIP == ip then Pass(s, fetched, Completed)
      else
        var patched := fetched + [Patch(zone, record, PatchBody(env, domain, ip))];
        match rs.patch
        case Fail => Pass(s, patched, Caught(RecordPatchFailed))
        case Ok(_) => Pass(s.(cacheIP := ip), patched, Completed)
  }

  /** Creation of an absent record (index.js:230-241): fetch the public IP,
      create the record with it, then sleep and skip the update check. */
  function CreateRecord(s: State, env: Env, domain: string, zone: string,
                        fx: seq<Effect>, rs: Responses): (p: Pass)
    ensures p.state.zoneId == s.zoneId
    ensures p.state.recordId != s.recordId ==> p.state.recordId.Some?
    ensures p.status.Continued? ==> p.trace != [] && p.trace[|p.trace| - 1] == Nap(env)
  {
    var fetched := fx + [IpFetch];
    match PublicIp(rs.publicIp)
    case Failure(e) => Pass(s, fetched, Caught(e))
    case Success(ip) =>
      var created := fetched + [Create(zone, CreateBody(env, domain, ip))];
      match rs.create
      case Fail => Pass(s, created, Caught(RecordCreateFailed))
      case Ok(id) => Pass(s.(recordId := Some(id), cacheIP := ip), created + [Nap(env)], Continued)
  }

  /** The record stage and what follows it (index.js:223-259), run with the
      zone known. */
  function ResolveRecord(s: State, env: Env, domain: string, zone: string,
                         fx: seq<Effect>, rs: Responses): (p: Pass)
    ensures p.state.zoneId == s.zoneId
    ensures Truthy(s.recordId) ==> p.state.recordId == s.recordId
    ensures p.state.recordId != s.recordId ==> p.state.recordId.Some?
    ensures p.status.Continued? ==> p.trace != [] && p.trace[|p.trace| - 1] == Nap(env)
  {
    if Truthy(s.recordId) then Sync(s, env, domain, zone, s.recordId.value, fx, rs)
    else
      var looked := fx + [RecordLookup(zone, domain, LookupType)];
      match RecordResult(rs.record)
      case Failure(e) => Pass(s, looked, Caught(e))
      case Success(Some(entry)) =>
        Sync(s.(recordId := Some(entry.id), cacheIP := entry.content), env, domain, zone, entry.id, looked, rs)
      case Success(None) => CreateRecord(s, env, domain, zone, looked, rs)
  }

  /** The zone stage and what follows it (index.js:218-259), run with the
      configuration present. */
  function ResolveZone(s: State, env: Env, domain: string, fx: seq<Effect>, rs: Responses): (p: Pass)
    ensures Truthy(s.zoneId) ==> p.state.zoneId == s.zoneId
    ensures Truthy(s.recordId) ==> p.state.recordId == s.recordId
    ensures p.state.zoneId != s.zoneId ==> p.state.zoneId.Some?
    ensures p.state.recordId != s.recordId ==> p.state.recordId.Some?
    ensures p.status.Continued? ==> p.trace != [] && p.trace[|p.trace| - 1] == Nap(env)
  {
    if Truthy(s.zoneId) then ResolveRecord(s, env, domain, s.zoneId.value, fx, rs)
    else
      var looked := fx + [ZoneLookup(RootDomain(domain))];
      match ZoneResult(rs.zone)
      case Failure(e) => Pass(s, looked, Caught(e))
      case Success(zone) => ResolveRecord(s.(zoneId := Some(zone)), env, domain, zone, looked, rs)
  }

  /** The `try` block of one pass (index.js:210-259): the configuration
      check, then the zone stage. */
  function Attempt(s: State, env: Env, fx: seq<Effect>, rs: Responses): (p: Pass)
    ensures Truthy(s.zoneId) ==> p.state.zoneId == s.zoneId
    ensures Truthy(s.recordId) ==> p.state.recordId == s.recordId
    ensures p.state.zoneId != s.zoneId ==> p.state.zoneId.Some?
    ensures p.state.recordId != s.recordId ==> p.state.recordId.Some?
    ensures !Configured(env) ==> p.state == s && p.trace == fx
    ensures p.status.Continued? ==> p.trace != [] && p.trace[|p.trace| - 1] == Nap(env)
  {
    if !Truthy(env.apiKey) then Pass(s, fx, Caught(MissingApiKey))
    else if !Truthy(env.domain) then Pass(s, fx, Caught(MissingDomain))
    else ResolveZone(s, env, env.domain.value, fx, rs)
  }

  /** One whole pass: the `try` block, then the sleep of the `finally`
      block (index.js:262-264), whatever the outcome. */
  function Iterate(s: State, env: Env, fx: seq<Effect>, rs: Responses): (p: Pass)
    ensures p.trace != [] && p.trace[|p.trace| - 1] == Nap(env)
    ensures Truthy(s.zoneId) ==> p.state.zoneId == s.zoneId
    ensures Truthy(s.recordId) ==> p.state.recordId == s.recordId
  {
    var a := Attempt(s, env, fx, rs);
    Pass(a.state, a.trace + [Nap(env)], a.status)
  }

  /** The variables and the trace between passes. */
  datatype Run = Run(state: State, trace: seq<Effect>)

  /** The variables and the trace after a finite run of passes, one per
      element of `rounds`, starting from `start`; a non-empty run ends with
      a sleep. */
  function Replay(start: Run, env: Env, rounds: seq<Responses>): (r: Run)
    ensures rounds != [] ==> r.trace != [] && r.trace[|r.trace| - 1] == Nap(env)
  {
    if rounds == [] then start
    else
      var before := Replay(start, env, rounds[..|rounds| - 1]);
      var p := Iterate(before.state, env, before.trace, rounds[|rounds| - 1]);
      Run(p.state, p.trace)
  }

  /** Running one more pass extends the run by that pass. */
  lemma ReplayPrefix(start: Run, env: Env, rounds: seq<Responses>, i: nat)
    requires i < |rounds|
    ensures var before := Replay(start, env, rounds[..i]);
            var p := Iterate(before.state, env, before.trace, rounds[i]);
            Replay(start, env, rounds[..i + 1]) == Run(p.state, p.trace)
  {
    assert rounds[..i + 1][..i] == rounds[..i];
  }

  /** `main`'s loop state as an object: `Step` is one pass of the loop,
      `Poll` a finite run of passes. */
  class Reconciler {
    var zoneId: Option<string>
    var recordId: Option<string>
    var cacheIP: string
    /** Every effect issued so far, oldest first. */
    var trace: seq<Effect>

    function Current(): State
      reads this
    {
      State(zoneId, recordId, cacheIP)
    }

    constructor ()
      ensures Current() == Initial && trace == []
    {
      zoneId, recordId, cacheIP := None, None, "";
      trace := [];
    }

    /** The update check (index.js:245-259). */
    method UpdateIfChanged(env: Env, domain: string, zone: string, rs: Responses) returns (status: Status)
      requires recordId.Some?
      modifies this
      ensures var p := Sync(old(Current()), env, domain, zone, old(recordId).value, old(trace), rs);
              Current() == p.state && trace == p.trace && status == p.status
    {
      trace := trace + [IpFetch];
      var publicIp := PublicIp(rs.publicIp);
      if publicIp.Failure? {
        return Caught(publicIp.error);
      }
      if cacheIP != publicIp.value {
        trace := trace + [Patch(zone, recordId.value, PatchBody(env, domain, publicIp.value))];
        if rs.patch.Fail? {
          return Caught(RecordPatchFailed);
        }
        cacheIP := publicIp.value;
      }
      return Completed;
    }

    /** Creation of an absent record (index.js:230-241). */
    method CreateMissingRecord(env: Env, domain: string, zone: string, rs: Responses) returns (status: Status)
      modifies this
      ensures var p := CreateRecord(old(Current()), env, domain, zone, old(trace), rs);
              Current() == p.state && trace == p.trace && status == p.status
    {
      trace := trace + [IpFetch];
      var ip := PublicIp(rs.publicIp);
      if ip.Failure? {
        return Caught(ip.error);
      }
      trace := trace + [Create(zone, CreateBody(env, domain, ip.value))];
      if rs.create.Fail? {
        return Caught(RecordCreateFailed);
      }
      recordId := Some(rs.create.value);
      cacheIP := ip.value;
      trace := trace + [Nap(env)];
      return Continued;
    }

    /** The record stage and the rest of the `try` block (index.js:223-259). */
    method FindOrCreateRecord(env: Env, domain: string, zone: string, rs: Responses) returns (status: Status)
      modifies this
      ensures var p := ResolveRecord(old(Current()), env, domain, zone, old(trace), rs);
              Current() == p.state && trace == p.trace && status == p.status
    {
      if !Truthy(recordId) {
        trace := trace + [RecordLookup(zone, domain, LookupType)];
        var info := RecordResult(rs.record);
        if info.Failure? {
          return Caught(info.error);
        }
        if info.value.None? {
          status := CreateMissingRecord(env, domain, zone, rs);
          return;
        }
        recordId := Some(info.value.value.id);
        cacheIP := info.value.value.content;
      }
      status := UpdateIfChanged(env, domain, zone, rs);
    }

    /** The zone stage and the rest of the `try` block (index.js:218-259). */
    method FindZone(env: Env, domain: string, rs: Responses) returns (status: Status)
      modifies this
      ensures var p := ResolveZone(old(Current()), env, domain, old(trace), rs);
              Current() == p.state && trace == p.trace && status == p.status
    {
      if !Truthy(zoneId) {
        trace := trace + [ZoneLookup(RootDomain(domain))];
        var zone := ZoneResult(rs.zone);
        if zone.Failure? {
          return Caught(zone.error);
        }
        zoneId := Some(zone.value);
      }
      status := FindOrCreateRecord(env, domain, zoneId.value, rs);
    }

    /** The `try` block of one pass; a `return` is a `throw` or the `continue`. */
    method TryBody(env: Env, rs: Responses) returns (status: Status)
      modifies this
      ensures var p := Attempt(old(Current()), env, old(trace), rs);
              Current() == p.state && trace == p.trace && status == p.status
    {
      if !Truthy(env.apiKey) {
        return Caught(MissingApiKey);
      }
      if !Truthy(env.domain) {
        return Caught(MissingDomain);
      }
      status := FindZone(env, env.domain.value, rs);
    }

    /** One pass of the loop: the `try` block, its error caught, then the
        sleep of the `finally` block. */
    method Step(env: Env, rs: Responses) returns (status: Status)
      modifies this
      ensures var p := Iterate(old(Current()), env, old(trace), rs);
              Current() == p.state && trace == p.trace && status == p.status
    {
      status := TryBody(env, rs);
      trace := trace + [Nap(env)];
    }

    /** The loop, run once per element of `rounds`. */
    method Poll(env: Env, rounds: seq<Responses>)
      modifies this
      ensures Run(Current(), trace) == Replay(Run(old(Current()), old(trace)), env, rounds)
    {
      ghost var start := Run(Current(), trace);
      for i := 0 to |rounds|
        invariant Run(Current(), trace) == Replay(start, env, rounds[..i])
      {
        ReplayPrefix(start, env, rounds, i);
        var _ := Step(env, rounds[i]);
      }
      assert rounds[..|rounds|] == rounds;
    }
  }
}
