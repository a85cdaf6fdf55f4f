/** The provider health monitor (src/utils/healthCheck.ts): one record per provider,
    refreshed by probes, and a ranking that prefers fast operational providers.
    The probe itself (an HTTP GET with a five-second abort) is a parameter: the model
    receives what it produced, and the time it finished, instead of performing it. */
module Health {
  import opened Results
  import opened Text
  import opened Domain
  import Notifications

  datatype Status = Operational | Degraded | Down | Unknown

  /** `ServiceHealth`; `lastCheck` is a time in milliseconds and `error` is absent when `None`. */
  datatype ServiceHealth = ServiceHealth(service: Provider, status: Status, latency: int,
                                         lastCheck: int, error: Option<string>)

  /** `Record<ServiceProvider, ServiceHealth>`, one field per provider. */
  datatype HealthTable = HealthTable(openai: ServiceHealth, groq: ServiceHealth, huggingface: ServiceHealth)

  /** The store: the table and the `isChecking` flag. */
  datatype HealthState = HealthState(health: HealthTable, isChecking: bool)

  /** The order of `Object.keys` / `Object.entries` on the table, fixed by `initialHealth`. */
  const ProviderOrder: seq<Provider> := [OpenAI, Groq, HuggingFace]

  function Get(t: HealthTable, p: Provider): ServiceHealth
  {
    match p
    case OpenAI => t.openai
    case Groq => t.groq
    case HuggingFace => t.huggingface
  }

  /** `{ ...table, [p]: h }`: the entry for `p` replaced, the others as they were. */
  function Set(t: HealthTable, p: Provider, h: ServiceHealth): (r: HealthTable)
    ensures Get(r, p) == h
    ensures forall q :: q != p ==> Get(r, q) == Get(t, q)
  {
    match p
    case OpenAI => t.(openai := h)
    case Groq => t.(groq := h)
    case HuggingFace => t.(huggingface := h)
  }

  function Unchecked(p: Provider): ServiceHealth
  {
    ServiceHealth(p, Unknown, 0, 0, None)
  }

  /** `initialHealth`: every provider `unknown`, latency 0, last checked at the epoch. */
  const InitialHealth: HealthTable :=
    HealthTable(Unchecked(OpenAI), Unchecked(Groq), Unchecked(HuggingFace))

  const InitialState: HealthState := HealthState(InitialHealth, false)

  lemma InitialHealthUnknown(p: Provider)
    ensures Get(InitialHealth, p).service == p
    ensures Get(InitialHealth, p).status == Unknown
    ensures Get(InitialHealth, p).latency == 0 && Get(InitialHealth, p).lastCheck == 0
    ensures Get(InitialHealth, p).error.None?
  {
  }

  /** `Partial<ServiceHealth>`: `None` is a field not given. The `error` field can be given
      explicitly as `undefined`, which is `Some(None)`. */
  datatype HealthPatch = HealthPatch(status: Option<Status>, latency: Option<int>,
                                     lastCheck: Option<int>, error: Option<Option<string>>)

  const EmptyPatch: HealthPatch := HealthPatch(None, None, None, None)

  /** `{ ...h, ...patch }`. */
  function ApplyPatch(h: ServiceHealth, patch: HealthPatch): (r: ServiceHealth)
    ensures r.service == h.service
    ensures r.status == (if patch.status.Some? then patch.status.value else h.status)
    ensures r.latency == (if patch.latency.Some? then patch.latency.value else h.latency)
    ensures r.lastCheck == (if patch.lastCheck.Some? then patch.lastCheck.value else h.lastCheck)
    ensures r.error == (if patch.error.Some? then patch.error.value else h.error)
  {
    ServiceHealth(h.service, patch.status.GetOr(h.status), patch.latency.GetOr(h.latency),
                  patch.lastCheck.GetOr(h.lastCheck), patch.error.GetOr(h.error))
  }

  /** `updateHealth(service, patch)`: the given fields of that provider's entry overwritten,
      its other fields and the other providers untouched. */
  function UpdateHealth(s: HealthState, p: Provider, patch: HealthPatch): (r: HealthState)
    ensures r.isChecking == s.isChecking
    ensures Get(r.health, p) == ApplyPatch(Get(s.health, p), patch)
    ensures forall q :: q != p ==> Get(r.health, q) == Get(s.health, q)
  {
    s.(health := Set(s.health, p, ApplyPatch(Get(s.health, p), patch)))
  }

  /** An empty patch changes nothing. */
  lemma UpdateHealthEmpty(s: HealthState, p: Provider)
    ensures UpdateHealth(s, p, EmptyPatch) == s
  {
    var t := UpdateHealth(s, p, EmptyPatch).health;
    assert Get(t, OpenAI) == Get(s.health, OpenAI);
    assert Get(t, Groq) == Get(s.health, Groq);
    assert Get(t, HuggingFace) == Get(s.health, HuggingFace);
  }

  /** Applying the same patch twice is the same as applying it once. */
  lemma UpdateHealthIdempotent(s: HealthState, p: Provider, patch: HealthPatch)
    ensures UpdateHealth(UpdateHealth(s, p, patch), p, patch) == UpdateHealth(s, p, patch)
  {
    var once := UpdateHealth(s, p, patch);
    var twice := UpdateHealth(once, p, patch);
    assert Get(twice.health, p) == Get(once.health, p);
    assert twice.health == once.health by {
      assert Get(twice.health, OpenAI) == Get(once.health, OpenAI);
      assert Get(twice.health, Groq) == Get(once.health, Groq);
      assert Get(twice.health, HuggingFace) == Get(once.health, HuggingFace);
    }
  }

  /** Patches to different providers commute, which is why the concurrent probes of
      `checkHealth` can finish in any order. */
  lemma UpdatesCommute(s: HealthState, p: Provider, a: HealthPatch, q: Provider, b: HealthPatch)
    requires p != q
    ensures UpdateHealth(UpdateHealth(s, p, a), q, b) == UpdateHealth(UpdateHealth(s, q, b), p, a)
  {
    var x := UpdateHealth(UpdateHealth(s, p, a), q, b);
    var y := UpdateHealth(UpdateHealth(s, q, b), p, a);
    assert Get(x.health, OpenAI) == Get(y.health, OpenAI);
    assert Get(x.health, Groq) == Get(y.health, Groq);
    assert Get(x.health, HuggingFace) == Get(y.health, HuggingFace);
  }

  /** How one probe ended: a response with its `ok` flag and HTTP status, or a thrown
      error (`Some(message)` for an `Error`, `None` for anything else). */
  datatype ProbeResult = Responded(ok: bool, httpStatus: int) | Threw(message: Option<string>)

  /** A probe's result, its latency (`Date.now() - startTime`) and the time it finished. */
  datatype Probe = Probe(result: ProbeResult, latency: int, finishedAt: int)

  /** The status a completed response earns. */
  function Classify(ok: bool, latency: int): (st: Status)
    ensures st == Operational <==> ok && latency < 1000
    ensures st == Degraded <==> ok && latency >= 1000
    ensures st == Down <==> !ok
  {
    if ok then (if latency < 1000 then Operational else Degraded) else Down
  }

  /** The patch `checkHealth` hands to `updateHealth` for one probe. */
  function ProbePatch(pr: Probe): (patch: HealthPatch)
    ensures patch.status.Some? && patch.latency == Some(pr.latency) && patch.lastCheck == Some(pr.finishedAt)
    ensures patch.error.Some?
    ensures pr.result.Threw? ==> patch.status == Some(Down)
    ensures pr.result.Threw? ==> patch.error.value == Some(pr.result.message.GetOr("Unknown error"))
    ensures pr.result.Responded? ==> patch.status == Some(Classify(pr.result.ok, pr.latency))
    ensures pr.result.Responded? && pr.result.ok ==> patch.error.value.None?
    ensures pr.result.Responded? && !pr.result.ok ==> patch.error.value == Some("HTTP " + IntToString(pr.result.httpStatus))
  {
    match pr.result
    case Responded(ok, code) =>
      HealthPatch(Some(Classify(ok, pr.latency)), Some(pr.latency), Some(pr.finishedAt),
                  Some(if ok then None else Some("HTTP " + IntToString(code))))
    case Threw(msg) =>
      HealthPatch(Some(Down), Some(pr.latency), Some(pr.finishedAt), Some(Some(msg.GetOr("Unknown error"))))
  }

  /** The notification `checkHealth` raises for one probe, if any: none for an operational
      provider, a warning for a slow one, an error otherwise. */
  function ProbeNotice(p: Provider, pr: Probe): (n: Option<Notifications.Notice>)
    ensures n.None? <==> pr.result.Responded? && Classify(pr.result.ok, pr.latency) == Operational
    ensures n.Some? && pr.result.Responded? && pr.result.ok ==>
              n.value == Notifications.Notice(Notifications.Warning, ProviderTag(p) + " service is degraded (high latency)")
    ensures n.Some? && pr.result.Responded? && !pr.result.ok ==>
              n.value == Notifications.Notice(Notifications.Error, ProviderTag(p) + " service is down")
    ensures pr.result.Threw? ==>
              n == Some(Notifications.Notice(Notifications.Error,
                          ProviderTag(p) + " service check failed: " + pr.result.message.GetOr("Unknown error")))
  {
    match pr.result
    case Responded(ok, _) =>
      var st := Classify(ok, pr.latency);
      if st == Operational then None
      else if st == Degraded then
        Some(Notifications.Notice(Notifications.Warning, ProviderTag(p) + " service is degraded" + " (high latency)"))
      else Some(Notifications.Notice(Notifications.Error, ProviderTag(p) + " service is down"))
    case Threw(msg) =>
      Some(Notifications.Notice(Notifications.Error,
             ProviderTag(p) + " service check failed: " + msg.GetOr("Unknown error")))
  }

  /** `servicesToCheck`: the named service alone, otherwise every provider in table order.
      Either way no provider is probed twice. */
  function ServicesToCheck(service: Option<Provider>): (ps: seq<Provider>)
    ensures service.Some? ==> ps == [service.value]
    ensures service.None? ==> ps == ProviderOrder
    ensures forall p: Provider :: p in ps <==> service.None? || service == Some(p)
    ensures forall i, j :: 0 <= i < j < |ps| ==> ps[i] != ps[j]
  {
    if service.Some? then [service.value] else AllProvidersListed(); ProviderOrder
  }

  /** The table lists every provider. */
  lemma AllProvidersListed()
    ensures forall p: Provider :: p in ProviderOrder
  {
    forall p: Provider ensures p in ProviderOrder {
      match p
      case OpenAI => assert ProviderOrder[0] == p;
      case Groq => assert ProviderOrder[1] == p;
      case HuggingFace => assert ProviderOrder[2] == p;
    }
  }

  /** Applies the probes of `ps` in order, collecting notifications. */
  function ApplyProbes(s: HealthState, ps: seq<Provider>, probe: Provider -> Probe)
    : (r: (HealthState, seq<Notifications.Notice>))
    ensures r.0.isChecking == s.isChecking
    ensures forall q :: q !in ps ==> Get(r.0.health, q) == Get(s.health, q)
    ensures |r.1| <= |ps|
    decreases |ps|
  {
    if |ps| == 0 then (s, [])
    else
      var p := ps[0];
      var s1 := UpdateHealth(s, p, ProbePatch(probe(p)));
      var n := ProbeNotice(p, probe(p));
      var rest := ApplyProbes(s1, ps[1..], probe);
      (rest.0, (if n.Some? then [n.value] else []) + rest.1)
  }

  /** With each provider listed at most once, a listed provider ends up patched with its own probe. */
  lemma {:induction false} ApplyProbesPatches(s: HealthState, ps: seq<Provider>, probe: Provider -> Probe, p: Provider)
    requires forall i, j :: 0 <= i < j < |ps| ==> ps[i] != ps[j]
    requires p in ps
    ensures Get(ApplyProbes(s, ps, probe).0.health, p) == ApplyPatch(Get(s.health, p), ProbePatch(probe(p)))
    decreases |ps|
  {
    var s1 := UpdateHealth(s, ps[0], ProbePatch(probe(ps[0])));
    if ps[0] == p {
      assert p !in ps[1..] by {
        forall k | 0 <= k < |ps[1..]|
          ensures ps[1..][k] != p
        {
          assert ps[1..][k] == ps[k + 1];
        }
      }
    } else {
      assert p in ps[1..];
      ApplyProbesPatches(s1, ps[1..], probe, p);
    }
  }

  /** `checkHealth(service)`, once every probe has settled: each checked provider carries the
      outcome of its probe, the others are untouched, and `isChecking` is false again. */
  function CheckHealth(s: HealthState, service: Option<Provider>, probe: Provider -> Probe)
    : (r: (HealthState, seq<Notifications.Notice>))
    ensures !r.0.isChecking
    ensures forall q :: q !in ServicesToCheck(service) ==> Get(r.0.health, q) == Get(s.health, q)
  {
    var ps := ServicesToCheck(service);
    var done := ApplyProbes(s.(isChecking := true), ps, probe);
    (done.0.(isChecking := false), done.1)
  }

  /** Each checked provider ends with the status, latency, time and error its probe gave it;
      a named service is the only one that changes. */
  lemma CheckHealthOutcome(s: HealthState, service: Option<Provider>, probe: Provider -> Probe, p: Provider)
    requires service.None? || service == Some(p)
    ensures var h := Get(CheckHealth(s, service, probe).0.health, p);
            h == ApplyPatch(Get(s.health, p), ProbePatch(probe(p)))
            && h.latency == probe(p).latency && h.lastCheck == probe(p).finishedAt
            && (probe(p).result.Threw? ==> h.status == Down)
            && (probe(p).result.Responded? ==> h.status == Classify(probe(p).result.ok, probe(p).latency))
  {
    var ps := ServicesToCheck(service);
    assert p in ps;
    ApplyProbesPatches(s.(isChecking := true), ps, probe, p);
  }

  /** The first provider of `ps` with status `st` whose latency is least, which is what
      filtering `Object.entries` by status, sorting stably by latency and taking `[0]` yields. */
  function Fastest(t: HealthTable, ps: seq<Provider>, st: Status): (r: Option<Provider>)
    ensures r.Some? ==> r.value in ps && Get(t, r.value).status == st
    ensures r.None? ==> forall q :: q in ps ==> Get(t, q).status != st
    ensures r.Some? ==> forall q :: q in ps && Get(t, q).status == st ==> Get(t, r.value).latency <= Get(t, q).latency
    decreases |ps|
  {
    if |ps| == 0 then None
    else
      var rest := Fastest(t, ps[1..], st);
      if Get(t, ps[0]).status != st then rest
      else if rest.Some? && Get(t, rest.value).latency < Get(t, ps[0]).latency then rest
      else Some(ps[0])
  }

  /** Ties go to the provider listed first: a provider of the class that is as fast as the
      chosen one never comes before it. */
  lemma {:induction false} FastestFirstOfTies(t: HealthTable, ps: seq<Provider>, st: Status, i: nat)
    requires Fastest(t, ps, st).Some?
    requires i < |ps| && Get(t, ps[i]).status == st && Get(t, ps[i]).latency == Get(t, Fastest(t, ps, st).value).latency
    ensures Fastest(t, ps, st).value in ps[..i + 1]
    decreases |ps|
  {
    var rest := Fastest(t, ps[1..], st);
    if Get(t, ps[0]).status == st && !(rest.Some? && Get(t, rest.value).latency < Get(t, ps[0]).latency) {
      assert ps[0] in ps[..i + 1];
    } else if i == 0 {
      assert false;
    } else {
      assert ps[i] == ps[1..][i - 1];
      FastestFirstOfTies(t, ps[1..], st, i - 1);
      var v := Fastest(t, ps, st).value;
      var k :| 0 <= k < i && ps[1..][k] == v;
      assert ps[..i + 1][k + 1] == v;
    }
  }

  /** `getPreferredService()`, with the provider configured in the key store as `configured`. */
  function GetPreferredService(t: HealthTable, configured: Provider): (p: Provider)
    ensures (exists q :: Get(t, q).status == Operational) ==> Get(t, p).status == Operational
    ensures ((forall q :: Get(t, q).status != Operational) && (exists q :: Get(t, q).status == Degraded))
            ==> Get(t, p).status == Degraded
    ensures (forall q :: Get(t, q).status != Operational && Get(t, q).status != Degraded) ==> p == configured
  {
    var op := Fastest(t, ProviderOrder, Operational);
    if op.Some? then op.value
    else
      var dg := Fastest(t, ProviderOrder, Degraded);
      if dg.Some? then dg.value else configured
  }

  /** The preferred provider is the fastest of its class: no operational provider is faster,
      and a degraded choice means no provider is operational. */
  lemma PreferredIsFastest(t: HealthTable, configured: Provider, q: Provider)
    ensures var p := GetPreferredService(t, configured);
            Get(t, p).status == Get(t, q).status && (Get(t, p).status == Operational || Get(t, p).status == Degraded)
            ==> Get(t, p).latency <= Get(t, q).latency
  {
    assert q in ProviderOrder;
  }

  /** An `unknown` or `down` provider is chosen only as the configured fallback. */
  lemma UnhealthyOnlyAsFallback(t: HealthTable, configured: Provider)
    ensures var p := GetPreferredService(t, configured);
            Get(t, p).status == Unknown || Get(t, p).status == Down ==> p == configured
  {
  }

  /** Straight after start-up nothing has been probed, so the configured provider is chosen. */
  lemma InitialPrefersConfigured(configured: Provider)
    ensures GetPreferredService(InitialHealth, configured) == configured
  {
  }

  /** `shouldAvoidService`: down, or degraded with more than five seconds of latency. */
  function ShouldAvoidService(h: ServiceHealth): (avoid: bool)
    ensures h.status == Operational || h.status == Unknown ==> !avoid
    ensures h.status == Down ==> avoid
    ensures h.status == Degraded ==> (avoid <==> h.latency > 5000)
  {
    h.status == Down || (h.status == Degraded && h.latency > 5000)
  }

  /** An operational provider is never avoided; a provider just probed is avoided exactly when
      its probe failed or it answered `ok` after more than five seconds. */
  lemma AvoidAfterProbe(h: ServiceHealth, pr: Probe)
    ensures var r := ApplyPatch(h, ProbePatch(pr));
            ShouldAvoidService(r) <==>
              pr.result.Threw? || !pr.result.ok || pr.latency > 5000
  {
  }

  /** The preferred provider is one to avoid only when no provider is operational. */
  lemma PreferredAvoidedOnlyWithoutOperational(t: HealthTable, configured: Provider)
    requires ShouldAvoidService(Get(t, GetPreferredService(t, configured)))
    ensures forall q :: Get(t, q).status != Operational
  {
  }
}
