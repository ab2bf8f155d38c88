# Cloudflare dynamic-DNS updater — a Dafny model

The updater is a single long-running script (`index.js`). It keeps one DNS
record at Cloudflare pointing at the host's public IP address. The record's
type is `CF_DOMAIN_TYPE`, or `A` when that is unset or empty. `main`
keeps three variables across passes of an endless loop: the zone id, the
record id, and the last IP it wrote or read (`cacheIP`). One pass of the loop:

1. checks that `CF_API_KEY` and `CF_DOMAIN` are set;
2. looks up the zone of the domain's root domain (the last two labels) if
   the zone id is not known yet;
3. looks up the record if the record id is not known yet. A found record
   gives the id and the cached IP. An absent record is created with the
   public IP, after which the pass sleeps and `continue`s;
4. fetches the public IP (trimmed) and patches the record when it differs
   from the cached IP;
5. catches any error, and in its `finally` block sleeps for `INTERVAL`
   minutes (five by default).

The model has six modules:

- `Options`: `Option` and JavaScript truthiness of an optional string.
- `Config`: the environment and the values derived from it: the proxied
  flag, the record type and the sleep length.
- `Domain`: `split(".")`, `slice(-2)` and `join(".")`, and the root domain
  built from them.
- `Provider`: what the script makes of each answer from Cloudflare and from
  the IP service, the bodies it sends, and `String.prototype.trim`.
- `Reconcile`: one pass as pure specification functions (`Attempt`,
  `Iterate`) over the state and an ordered trace of effects, and a finite
  run of passes (`Replay`). Also the class `Reconciler`, whose fields are
  `main`'s variables plus the trace. Its methods mirror the `try` block step
  by step and are proved equal to the specification functions.
- `ReconcileFacts`: lemmas about passes and runs.

Every call to the outside world is replaced by its answer (a `Reply`),
given as an input in `Responses`. The call itself is recorded as an
`Effect`.

Two behaviours of the code are easy to miss. The model keeps both:

- After creating a record, the pass sleeps twice. It sleeps once before
  its `continue` (index.js:240-241), and again in `finally`
  (index.js:262-264).
- The record query always filters on type `A` (index.js:70), even when
  `CF_DOMAIN_TYPE` names another type for the writes.

## Model

| member | source | states |
|---|---|---|
| Config.IsProxied | index.js:5-8 | the flag is on when PROXIED is unset or empty; when it is set, the flag is on exactly for "true" or "1" |
| Config.ProxiedIsOptOut | index.js:5-8 | the flag is on exactly for unset, "", "true" and "1"; it is off for "false", "0" and "TRUE" |
| Config.DomainType | index.js:9 | the record type is never empty; it is CF_DOMAIN_TYPE when that is non-empty, otherwise "A" |
| Config.Configured | index.js:211-216 | both CF_API_KEY and CF_DOMAIN are set and non-empty; see MissingConfigurationOnlySleeps for what a pass does otherwise |
| Config.SleepMillis | index.js:199 | the sleep is a whole number of minutes; it is INTERVAL minutes when INTERVAL is set, five minutes otherwise |
| Config.UnsetIntervalIsFiveMinutes | index.js:199 | an unset INTERVAL and INTERVAL=5 give the same 300000 ms sleep |
| Domain.Split | index.js:39 | `split(".")` yields at least one label, and no label contains a dot |
| Domain.Join | index.js:40 | `join(".")`; see JoinSplit, SplitJoin and JoinAppend |
| Domain.LastTwo | index.js:40 | `slice(-2)`: the result has two elements, or all of them when there are fewer; see RootDomainLabels |
| Domain.RootDomain | index.js:39-40 | the zone name looked up for a domain; see RootDomainLabels, RootDomainIsSuffix, RootOfShortDomain and RootDomainIdempotent |
| Domain.JoinSplit | index.js:39-40 | joining the split labels with "." gives back the domain |
| Domain.SplitJoin | index.js:39-40 | splitting a join of dot-free labels gives back the labels |
| Domain.JoinAppend | index.js:40 | joining two non-empty runs of labels puts exactly one dot between their joins |
| Domain.RootOfShortDomain | index.js:39-40 | a domain with at most two labels is its own root domain |
| Domain.RootDomainLabels | index.js:39-40 | the root domain's labels are exactly the last two labels of the domain (all of them when there are fewer), so there are one or two |
| Domain.RootDomainIsSuffix | index.js:39-40 | a domain with more than two labels is its leading labels, a dot, and its root domain |
| Domain.RootDomainIdempotent | index.js:39-40 | the root domain of a root domain is itself |
| Domain.RootDomainExample | index.js:38-40 | "foo.bar.example.co" has root domain "example.co": public suffixes with more than one label are not recognised |
| Provider.ZoneResult | index.js:49-63 | the zone query succeeds exactly when the request succeeds and `result` is present and non-empty, and then gives the first zone; a failed request is a lookup failure, and an empty result is "no zone found" |
| Provider.RecordResult | index.js:76-92 | only a failed request is an error; an absent or empty `result` means no record; otherwise the first record's id and content |
| Provider.CreateBody | index.js:103-109 | the creation body names the domain and carries the IP |
| Provider.PatchBody | index.js:155-161 | the update body names the domain and carries the IP |
| Provider.CreateAndPatchAgree | index.js:103-109 | creation and update send the same body: its type is the configured type `DomainType(CF_DOMAIN_TYPE)`, its TTL is 1 (automatic) and it carries the proxied flag; the type is "A" exactly when CF_DOMAIN_TYPE is unset, empty or "A" |
| Provider.Trim | index.js:186 | the trimmed text neither starts nor ends with white space |
| Provider.TrimStart | index.js:186 | the result is no longer than the text and does not start with white space; see TrimStartIsSuffix |
| Provider.TrimEnd | index.js:186 | the result is no longer than the text and does not end with white space; see TrimEndIsPrefix |
| Provider.TrimStartIsSuffix | index.js:186 | removing leading white space drops a prefix made only of white space |
| Provider.TrimEndIsPrefix | index.js:186 | removing trailing white space drops a suffix made only of white space |
| Provider.TrimRemovesOnlySpace | index.js:186 | the trimmed text is the part of the original between a white-space prefix and a white-space suffix |
| Provider.TrimKeepsTrimmed | index.js:186 | text with no surrounding white space is unchanged by trimming, so trimming is idempotent |
| Provider.PublicIp | index.js:180-188 | a failed request is an IP-fetch error; otherwise the result is exactly the trimmed body, so it has no surrounding white space |
| Reconcile.Sync | index.js:245-259 | the update check never changes the zone id or the record id, and never ends in `continue` |
| Reconcile.CreateRecord | index.js:230-241 | creation keeps the zone id; it changes the record id only to a present value; when it ends in `continue`, its last effect is a sleep |
| Reconcile.ResolveRecord | index.js:224-259 | a known record id is kept; a new record id is always present; a `continue` comes right after a sleep |
| Reconcile.ResolveZone | index.js:219-259 | a known zone id and a known record id are kept; new ids are always present |
| Reconcile.Attempt | index.js:210-259 | as ResolveZone; in addition, with the API key or the domain missing, nothing changes and no effect is issued |
| Reconcile.Iterate | index.js:209-264 | every pass ends with the configured sleep, whatever happened; known ids are kept |
| Reconcile.Replay | index.js:209-265 | a finite run of passes of the loop; a non-empty run ends with a sleep; see ReplayPrefix, Reconciler.Poll, ReplayKeepsIdentifiers, ReplayKeepsShape and UnchangedIpWritesNothing |
| Reconcile.ReplayPrefix | index.js:209-265 | a run of n+1 passes is the run of n passes followed by one more pass |
| Reconcile.Reconciler.constructor | index.js:205-207 | the loop starts with no zone id, no record id, an empty cached IP and no effects |
| Reconcile.Reconciler.UpdateIfChanged | index.js:245-259 | the imperative update check leaves the variables and the trace exactly as `Sync` says |
| Reconcile.Reconciler.CreateMissingRecord | index.js:230-241 | the imperative creation leaves the variables and the trace exactly as `CreateRecord` says |
| Reconcile.Reconciler.FindOrCreateRecord | index.js:224-259 | the imperative record stage matches `ResolveRecord` |
| Reconcile.Reconciler.FindZone | index.js:219-259 | the imperative zone stage matches `ResolveZone` |
| Reconcile.Reconciler.TryBody | index.js:210-259 | the imperative `try` block matches `Attempt`; a throw and the `continue` become returns |
| Reconcile.Reconciler.Step | index.js:209-264 | one imperative pass, `try` then the sleep of `finally`, matches `Iterate` |
| Reconcile.Reconciler.Poll | index.js:209-265 | the loop run over a list of answers ends in the state and trace `Replay` gives |
| ReconcileFacts.MissingConfigurationOnlySleeps | index.js:211-216 | a missing API key (checked first) or domain ends the pass with that error; the state is unchanged and the only effect is the sleep |
| ReconcileFacts.ZoneLookupFailureKeepsState | index.js:219-221 | with the zone unknown, a failed or empty zone lookup on the root domain ends the pass with the state unchanged |
| ReconcileFacts.ZoneLookupSuccessResumes | index.js:219-221 | a found zone is stored, and the pass goes on as a pass that already knew it |
| ReconcileFacts.KnownZoneIsNotLookedUp | index.js:219-246 | with the zone known, the pass only appends to the trace; its first call is the record lookup on (zone, domain, "A"), or the IP fetch when the record is also known; and it issues no zone lookup at all |
| ReconcileFacts.RecordLookupFailureKeepsRecord | index.js:224-225 | a failed record lookup ends the pass with the state unchanged |
| ReconcileFacts.RecordFoundResumes | index.js:227-229 | a found record stores its id and content, and the same pass goes straight on to the update check, with no sleep in between |
| ReconcileFacts.AbsentRecordIsCreated | index.js:230-242 | an absent record is created with the trimmed public IP, which becomes the cached IP; no update follows and the pass sleeps twice |
| ReconcileFacts.CreationFetchFailureKeepsState | index.js:230-232 | with the record absent, a failed IP fetch ends the pass after the record lookup and the fetch, writes nothing, and leaves the state unchanged |
| ReconcileFacts.FailedCreationKeepsState | index.js:232-237 | a failed creation leaves the state unchanged, so the next pass looks the record up again |
| ReconcileFacts.SteadyStatePatchesOnChange | index.js:245-259 | with both ids known, the record is patched exactly when the trimmed IP differs from the cached one; the cache takes the new IP only if the patch succeeds |
| ReconcileFacts.SteadyStateFetchFailure | index.js:246 | a failed IP fetch changes nothing and writes nothing |
| ReconcileFacts.ShapedAppend | index.js:209-265 | well-shaped traces stay well shaped when concatenated |
| ReconcileFacts.SyncKeepsShape | index.js:245-259 | the update check issues only effects shaped by the configuration |
| ReconcileFacts.CreateRecordKeepsShape | index.js:230-241 | creation issues only effects shaped by the configuration |
| ReconcileFacts.ResolveRecordKeepsShape | index.js:224-259 | the record stage issues only effects shaped by the configuration |
| ReconcileFacts.IterateKeepsShape | index.js:209-264 | a pass issues only shaped effects: zone lookups on the root domain, record lookups on the domain with type "A", writes carrying the configured body, and sleeps of the configured length |
| ReconcileFacts.ReplayKeepsShape | index.js:209-265 | any run of passes issues only shaped effects |
| ReconcileFacts.ReplayKeepsIdentifiers | index.js:260-264 | a resolved zone id or record id survives any run of passes, whatever fails |
| ReconcileFacts.UnchangedIpWritesNothing | index.js:249 | in steady state with an unchanged public IP, every pass only fetches the IP and sleeps: no write is ever issued |
| ReconcileFacts.FirstPassCreatesRecord | index.js:204-242 | from the initial state, the first pass looks up the zone and the record, creates the record with the IP, and sleeps twice |
| ReconcileFacts.SecondPassWritesNothing | index.js:245-249 | the pass after the creation sees the IP it wrote and only fetches and sleeps |
| ReconcileFacts.FreshStartScenario | index.js:204-265 | create, then an idle pass, then a patch with the new IP when the IP changes: the exact trace and the final state |

## Left out

- HTTP transport, URLs, headers and JSON (de)serialisation: each call is
  replaced by its answer. A `Reply` records only success or failure (a
  non-2xx status, a rejected request and unparsable JSON all throw, and
  all become `Fail`) and the fields the code reads. JSON that parses but
  has an unexpected shape (an id that is absent or not a string) is not
  modelled.
- `getCloudflareIP` (index.js:125-145) is never called by `main` and is
  not modelled.
- Logging and `LOG_LEVEL` (index.js:1-3, 10-28) have no effect on the
  loop's state or calls, and are not modelled.
- Time and asynchrony: a sleep is an effect carrying its length in
  milliseconds. No clock is modelled. Neither is the timer's handling of
  odd delays: a zero, negative or non-numeric delay, or one above 2^31-1 ms
  (INTERVAL=40000 gives 2.4e9 ms), which the timer replaces by 1 ms.
  A call that never answers is not modelled either.
- Config.SleepMillis: `INTERVAL` is taken as already parsed to an integer.
  `parseInt`'s partial parses and its NaN result are not modelled.
- Reconcile.Reconciler.Poll: the endless `while (true)` is modelled as a
  finite run, one pass per element of the list of answers.
- Error messages and the HTTP status text are reduced to the `Error` kind.
