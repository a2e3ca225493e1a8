/**
 * Deregistration of sandbox jobs from Nomad (app/jobs/nomad_cleanup.py).
 *
 * The Nomad client, the Box table, the job queue, the process environment
 * and the DNS resolver are collaborators whose answers come in as values
 * (`Env`, `Nomad`, a sequence of `Box` rows). Every call the jobs make on the
 * Nomad client, the Box table and the job queue is appended to the effect
 * log of a `Worker`; the environment reads and the DNS query that choose the
 * host are not logged.
 */
module NomadCleanup {
  import opened Results
  import Dns

  const ProductionEnv := "production"
  const DefaultSeaHost := "0.0.0.0"
  /** The service name the production host is discovered under. */
  const NomadService := "nomad"
  /** The job whose deployments the sweep examines. */
  const SweepJobClass := "ssh-client"
  /** `timedelta(hours=2)`, in seconds. */
  const RetryDelaySeconds: nat := 2 * 60 * 60
  /** The `timeout` passed when a retry is scheduled. */
  const RetryTimeout: nat := 60000

  /** How Nomad answers a deregistration: `NotFound` and `Refused` both reach
      the job as a `BaseNomadException`. */
  datatype Reply = Accepted | NotFound | Refused

  /** The exceptions that end a job run. */
  datatype Exception =
    | NomadException               // nomad.api.exceptions.BaseNomadException
    | AttributeError               // attribute read on None
    | TypeError                    // `>=` between a function object and a datetime
    | DnsQueryFailed               // the resolver raised for "nomad"
    | Discovery(error: Dns.ParseError)  // building the Service raised

  datatype Outcome = Completed | Raised(exception: Exception)

  /** A call on a collaborator. */
  datatype Effect =
    | ListDeployments(host: string, jobClass: string)
    | LookupBox(jobId: string)
    | Deregister(host: string, jobId: string, reply: Reply)
    | Schedule(delaySeconds: nat, jobId: string, timeout: nat)

  /** The process environment and the DNS answers the resolver would give
      (a name without an answer is a query that raises). */
  datatype Env = Env(vars: map<string, string>, dns: map<string, Dns.Response>)

  /** Nomad's answers: to deregistering each job, and to listing the
      deployments of the swept job (`None`: the request raised). */
  datatype Nomad = Nomad(deregister: string -> Reply, deployments: Option<seq<string>>)

  /** A row of the Box table, reduced to what the sweep reads. */
  datatype Box = Box(jobId: string, sessionEndTime: int)

  /** What part of a job run does: its calls, in order, and how it ends. */
  datatype Step = Step(effects: seq<Effect>, outcome: Outcome)

  /** The host a Nomad client is built for, or what choosing it raised. */
  type Host = Result<string, Exception>

  function Then(effects: seq<Effect>, s: Step): Step
  {
    Step(effects + s.effects, s.outcome)
  }

  // ---------------------------------------------------------------------------
  // Projections of an effect log
  // ---------------------------------------------------------------------------

  function Schedules(es: seq<Effect>): seq<Effect>
  {
    if es == [] then [] else (if es[0].Schedule? then [es[0]] else []) + Schedules(es[1..])
  }

  function DeregisteredJobs(es: seq<Effect>): seq<string>
  {
    if es == [] then [] else (if es[0].Deregister? then [es[0].jobId] else []) + DeregisteredJobs(es[1..])
  }

  function LookedUpJobs(es: seq<Effect>): seq<string>
  {
    if es == [] then [] else (if es[0].LookupBox? then [es[0].jobId] else []) + LookedUpJobs(es[1..])
  }

  lemma {:induction false} SchedulesAppend(a: seq<Effect>, b: seq<Effect>)
    ensures Schedules(a + b) == Schedules(a) + Schedules(b)
  {
    if a != [] {
      assert (a + b)[1..] == a[1..] + b;
      SchedulesAppend(a[1..], b);
    } else {
      assert a + b == b;
    }
  }

  lemma {:induction false} DeregisteredJobsAppend(a: seq<Effect>, b: seq<Effect>)
    ensures DeregisteredJobs(a + b) == DeregisteredJobs(a) + DeregisteredJobs(b)
  {
    if a != [] {
      assert (a + b)[1..] == a[1..] + b;
      DeregisteredJobsAppend(a[1..], b);
    } else {
      assert a + b == b;
    }
  }

  lemma {:induction false} LookedUpJobsAppend(a: seq<Effect>, b: seq<Effect>)
    ensures LookedUpJobs(a + b) == LookedUpJobs(a) + LookedUpJobs(b)
  {
    if a != [] {
      assert (a + b)[1..] == a[1..] + b;
      LookedUpJobsAppend(a[1..], b);
    } else {
      assert a + b == b;
    }
  }

  /** Each projection of a log is the projections of its parts, in order. */
  lemma ProjectionsAppend(a: seq<Effect>, b: seq<Effect>)
    ensures Schedules(a + b) == Schedules(a) + Schedules(b)
    ensures DeregisteredJobs(a + b) == DeregisteredJobs(a) + DeregisteredJobs(b)
    ensures LookedUpJobs(a + b) == LookedUpJobs(a) + LookedUpJobs(b)
  {
    SchedulesAppend(a, b);
    DeregisteredJobsAppend(a, b);
    LookedUpJobsAppend(a, b);
  }

  /** Appending to a log one piece at a time is appending the pieces. */
  lemma AppendAssoc(a: seq<Effect>, b: seq<Effect>, c: seq<Effect>)
    ensures (a + b) + c == a + (b + c)
  {
  }

  /** The projections of a single effect. */
  lemma ProjectOne(e: Effect)
    ensures DeregisteredJobs([e]) == if e.Deregister? then [e.jobId] else []
    ensures Schedules([e]) == if e.Schedule? then [e] else []
  {
    assert [e][1..] == [];
  }

  // ---------------------------------------------------------------------------
  // Choosing the Nomad host
  // ---------------------------------------------------------------------------

  /** `os.getenv(key, default)`. */
  function GetEnv(vars: map<string, string>, key: string, default: string): string
  {
    if key in vars then vars[key] else default
  }

  predicate IsProduction(env: Env)
  {
    "FLASK_ENV" in env.vars && env.vars["FLASK_ENV"] == ProductionEnv
  }

  /** The hosts a job run may build its Nomad client for: in production the
      address of any endpoint discovered for "nomad" (or what discovery
      raises), elsewhere SEA_HOST, defaulting to 0.0.0.0. */
  ghost function HostChoices(env: Env): set<Host>
  {
    if !IsProduction(env) then {Ok(GetEnv(env.vars, "SEA_HOST", DefaultSeaHost))}
    else if NomadService !in env.dns then {Err(DnsQueryFailed)}
    else match Dns.Parse(env.dns[NomadService])
      case Err(e) => {Err(Discovery(e))}
      case Ok(p) => set e | e in p.srv :: Ok(e.ip)
  }

  /** The `nomad.Nomad(...)` line at the head of both jobs. */
  method NomadHost(env: Env) returns (h: Host)
    ensures h in HostChoices(env)
    ensures !IsProduction(env) ==> h == Ok(GetEnv(env.vars, "SEA_HOST", DefaultSeaHost))
    ensures IsProduction(env) && NomadService in env.dns && Dns.Parse(env.dns[NomadService]).Ok? ==>
      h.Ok? && exists e :: e in Dns.Parse(env.dns[NomadService]).value.srv && e.ip == h.value
  {
    if IsProduction(env) {
      if NomadService !in env.dns {
        return Err(DnsQueryFailed);
      }
      var service := Dns.DiscoverService(env.dns[NomadService]);
      if service.Err? {
        return Err(Discovery(service.error));
      }
      var ip := service.value.GetIp();
      return Ok(ip);
    }
    return Ok(GetEnv(env.vars, "SEA_HOST", DefaultSeaHost));
  }

  // ---------------------------------------------------------------------------
  // The retry rule
  // ---------------------------------------------------------------------------

  /** One run of `cleanup_old_nomad_box(job_id)` for host choice `h` when
      Nomad answers the deregistration with `reply`: it completes exactly
      when the deregistration is accepted; otherwise it schedules exactly one
      retry of the same job, two hours later with timeout 60000, and only then
      raises BaseNomadException. A failed host choice raises before any Nomad
      call and schedules nothing. */
  function CleanupRun(h: Host, jobId: string, reply: Reply): (s: Step)
    ensures s.outcome == Completed <==> h.Ok? && reply == Accepted
    ensures s.outcome.Raised? ==> s.outcome.exception == if h.Ok? then NomadException else h.error
  {
    match h
    case Err(e) => Step([], Raised(e))
    case Ok(host) =>
      if reply == Accepted then Step([Deregister(host, jobId, reply)], Completed)
      else Step([Deregister(host, jobId, reply), Schedule(RetryDelaySeconds, jobId, RetryTimeout)], Raised(NomadException))
  }

  /** A run calls Nomad once for its own job when its host choice succeeds,
      and schedules its retry exactly when that call fails. */
  lemma CleanupRunEffects(h: Host, jobId: string, reply: Reply)
    ensures var s := CleanupRun(h, jobId, reply);
      && DeregisteredJobs(s.effects) == (if h.Ok? then [jobId] else [])
      && Schedules(s.effects) == (if SchedulesRetry(h, reply) then [Schedule(RetryDelaySeconds, jobId, RetryTimeout)] else [])
      && LookedUpJobs(s.effects) == []
  {
    if h.Ok? && reply != Accepted {
      var deregister := [Deregister(h.value, jobId, reply)];
      var retry := [Schedule(RetryDelaySeconds, jobId, RetryTimeout)];
      assert CleanupRun(h, jobId, reply).effects == deregister + retry;
      ProjectionsAppend(deregister, retry);
    }
  }

  /** A run that ends by scheduling its own retry. */
  predicate SchedulesRetry(h: Host, reply: Reply)
  {
    h.Ok? && reply != Accepted
  }

  /** One execution of the job by the queue. */
  datatype Attempt = Attempt(host: Host, reply: Reply)

  /** The effects of a cleanup job and of the retries it schedules for itself,
      when the queue's k-th execution of it meets `attempts[k]`. */
  function RetryChain(jobId: string, attempts: seq<Attempt>): seq<Effect>
  {
    if attempts == [] then []
    else
      var run := CleanupRun(attempts[0].host, jobId, attempts[0].reply);
      run.effects + (if SchedulesRetry(attempts[0].host, attempts[0].reply) then RetryChain(jobId, attempts[1..]) else [])
  }

  /** `n` copies of `x`. */
  function Copies<T>(x: T, n: nat): (r: seq<T>)
    ensures |r| == n && forall y :: y in r ==> y == x
  {
    if n == 0 then [] else [x] + Copies(x, n - 1)
  }

  /** An execution that schedules a retry contributes one deregistration
      call and one retry, then the chain goes on with the next execution. */
  lemma {:induction false} RetryChainGoesOn(jobId: string, attempts: seq<Attempt>)
    requires attempts != [] && SchedulesRetry(attempts[0].host, attempts[0].reply)
    ensures var chain := RetryChain(jobId, attempts);
      var rest := RetryChain(jobId, attempts[1..]);
      && Schedules(chain) == [Schedule(RetryDelaySeconds, jobId, RetryTimeout)] + Schedules(rest)
      && DeregisteredJobs(chain) == [jobId] + DeregisteredJobs(rest)
  {
    var run := CleanupRun(attempts[0].host, jobId, attempts[0].reply);
    CleanupRunEffects(attempts[0].host, jobId, attempts[0].reply);
    ProjectionsAppend(run.effects, RetryChain(jobId, attempts[1..]));
  }

  /** An execution that does not schedule a retry is the last one. */
  lemma {:induction false} RetryChainStops(jobId: string, attempts: seq<Attempt>)
    requires attempts != [] && !SchedulesRetry(attempts[0].host, attempts[0].reply)
    ensures var chain := RetryChain(jobId, attempts);
      && Schedules(chain) == []
      && DeregisteredJobs(chain) == if attempts[0].host.Ok? then [jobId] else []
  {
    var run := CleanupRun(attempts[0].host, jobId, attempts[0].reply);
    CleanupRunEffects(attempts[0].host, jobId, attempts[0].reply);
    assert RetryChain(jobId, attempts) == run.effects + [];
  }

  /** There is no attempt cap: every failed execution schedules the same
      retry again, whatever the number of failures before it. */
  lemma {:induction false} RetriesWithoutBound(jobId: string, attempts: seq<Attempt>)
    requires forall k :: 0 <= k < |attempts| ==> SchedulesRetry(attempts[k].host, attempts[k].reply)
    ensures Schedules(RetryChain(jobId, attempts)) == Copies(Schedule(RetryDelaySeconds, jobId, RetryTimeout), |attempts|)
    ensures DeregisteredJobs(RetryChain(jobId, attempts)) == Copies(jobId, |attempts|)
  {
    if attempts != [] {
      RetryChainGoesOn(jobId, attempts);
      RetriesWithoutBound(jobId, attempts[1..]);
    }
  }

  /** A job whose deregistration Nomad answers with NotFound is not treated
      as deregistered: it is retried every two hours for as long as the queue
      runs it. */
  lemma AbsentJobRetriedForever(jobId: string, host: string, n: nat)
    ensures |Schedules(RetryChain(jobId, Copies(Attempt(Ok(host), NotFound), n)))| == n
  {
    var attempts := Copies(Attempt(Ok(host), NotFound), n);
    forall k | 0 <= k < n
      ensures SchedulesRetry(attempts[k].host, attempts[k].reply)
    {
      assert attempts[k] in attempts;
    }
    RetriesWithoutBound(jobId, attempts);
  }

  /** The chain ends at the first execution that does not reschedule: after
      k failures an accepted deregistration completes it with k + 1
      deregistration calls in all, and a failed host choice drops the job
      with k calls and no retry left. */
  lemma {:induction false} RetryChainEnds(jobId: string, attempts: seq<Attempt>, k: nat)
    requires k < |attempts|
    requires forall i :: 0 <= i < k ==> SchedulesRetry(attempts[i].host, attempts[i].reply)
    requires !SchedulesRetry(attempts[k].host, attempts[k].reply)
    ensures Schedules(RetryChain(jobId, attempts)) == Copies(Schedule(RetryDelaySeconds, jobId, RetryTimeout), k)
    ensures DeregisteredJobs(RetryChain(jobId, attempts)) == Copies(jobId, if attempts[k].host.Ok? then k + 1 else k)
  {
    if k == 0 {
      RetryChainStops(jobId, attempts);
    } else {
      RetryChainGoesOn(jobId, attempts);
      RetryChainEnds(jobId, attempts[1..], k - 1);
    }
  }

  // ---------------------------------------------------------------------------
  // The sweep
  // ---------------------------------------------------------------------------

  /** The left operand of `>=` at line 45: as written, the function
      `datetime.utcnow` itself; with the call made, the current time. */
  datatype TimeOperand = UncalledUtcnow | Instant(seconds: int)

  /** `left >= session_end_time`: a datetime does not compare with a
      function object, so the uncalled form always raises TypeError. */
  function AtOrAfter(left: TimeOperand, sessionEnd: int): (r: Result<bool, Exception>)
    ensures r.Err? <==> left.UncalledUtcnow?
    ensures r.Err? ==> r.error == TypeError
    ensures r.Ok? ==> (r.value <==> left.seconds >= sessionEnd)
  {
    match left
    case UncalledUtcnow => Err(TypeError)
    case Instant(t) => Ok(t >= sessionEnd)
  }

  /** `Box.query.filter_by(job_id=jobId).first()`: the first row for the
      job, or None when there is none. */
  function FirstBox(boxes: seq<Box>, jobId: string): (b: Option<Box>)
    ensures b.Some? ==> b.value in boxes && b.value.jobId == jobId
  {
    if boxes == [] then None
    else if boxes[0].jobId == jobId then Some(boxes[0])
    else FirstBox(boxes[1..], jobId)
  }

  /** The lookup finds nothing exactly when no row belongs to the job, and
      otherwise finds the earliest row that does. */
  lemma {:induction false} FirstBoxFindsEarliest(boxes: seq<Box>, jobId: string)
    ensures FirstBox(boxes, jobId).None? <==> forall i :: 0 <= i < |boxes| ==> boxes[i].jobId != jobId
    ensures FirstBox(boxes, jobId).Some? ==>
      exists i :: 0 <= i < |boxes| && boxes[i] == FirstBox(boxes, jobId).value && forall j :: 0 <= j < i ==> boxes[j].jobId != jobId
  {
    if boxes != [] && boxes[0].jobId != jobId {
      var rest := boxes[1..];
      FirstBoxFindsEarliest(rest, jobId);
      assert forall i :: 0 < i < |boxes| ==> boxes[i] == rest[i - 1];
      if FirstBox(rest, jobId).Some? {
        var i :| 0 <= i < |rest| && rest[i] == FirstBox(rest, jobId).value && forall j :: 0 <= j < i ==> rest[j].jobId != jobId;
        assert boxes[i + 1] == FirstBox(boxes, jobId).value;
      }
    } else if boxes != [] {
      assert boxes[0] == FirstBox(boxes, jobId).value;
    }
  }

  /** Which sweep. `Unguarded(left)` keeps the structure of lines 44-50, where
      line 45 reads `session_end_time` before line 49 checks for a missing
      Box, with `left` as the left operand of its comparison; `Intended(now)`
      is the evidently intended rule (see README). */
  datatype Variant = Unguarded(left: TimeOperand) | Intended(now: int)

  /** The code exactly as written: line 45 compares the uncalled
      `datetime.utcnow`. */
  const AsWritten: Variant := Unguarded(UncalledUtcnow)

  /** The code as written with only the call `utcnow()` restored at line 45,
      which isolates the missing-Box defect. The called code would read the
      clock afresh on every turn; this variant uses the one instant `now`
      for the whole loop. */
  function CalledUtcnow(now: int): Variant
  {
    Unguarded(Instant(now))
  }

  /** The intended rule: a deployment is stale when it has no Box or its
      session has ended. */
  predicate IsStale(boxes: seq<Box>, now: int, d: string)
  {
    var box := FirstBox(boxes, d);
    box.None? || now >= box.value.sessionEndTime
  }

  /** What the body of the loop does with one deployment. */
  datatype Decision = Keep | CleanUp | Fail(exception: Exception)

  /** Lines 44-50 for deployment `d`. As written, line 45 reads
      `session_end_time` before line 49 checks for a missing Box, and its
      left operand decides whether the comparison can succeed; a Box row is
      truthy, so the cleanup at line 50 is never chosen. */
  function Decide(v: Variant, boxes: seq<Box>, d: string): (r: Decision)
    ensures r.Fail? <==> v.Unguarded? && (FirstBox(boxes, d).None? || v.left.UncalledUtcnow?)
    ensures r.Fail? ==> r.exception == if FirstBox(boxes, d).None? then AttributeError else TypeError
    ensures v.Unguarded? && r == CleanUp ==> FirstBox(boxes, d).Some? && v.left.seconds >= FirstBox(boxes, d).value.sessionEndTime
    ensures v.Intended? ==> (r == CleanUp <==> IsStale(boxes, v.now, d))
  {
    var box := FirstBox(boxes, d);
    match v
    case Unguarded(left) =>
      if box.None? then Fail(AttributeError)
      else (
        match AtOrAfter(left, box.value.sessionEndTime)
        case Err(e) => Fail(e)
        case Ok(expired) => if expired then CleanUp else Keep)
    case Intended(now) =>
      if IsStale(boxes, now, d) then CleanUp else Keep
  }

  /** One turn of the loop at lines 42-50 for deployment `d`; `h` is the host
      the cleanup it calls would choose. */
  function SweepStep(v: Variant, nomad: Nomad, boxes: seq<Box>, d: string, h: Host): Step
  {
    var lookup := [LookupBox(d)];
    match Decide(v, boxes, d)
    case Keep => Step(lookup, Completed)
    case Fail(e) => Step(lookup, Raised(e))
    case CleanUp => Then(lookup, CleanupRun(h, d, nomad.deregister(d)))
  }

  /** Each turn looks up its own deployment and no other, and deregisters
      at most one job. */
  lemma SweepStepLooksUp(v: Variant, nomad: Nomad, boxes: seq<Box>, d: string, h: Host)
    ensures LookedUpJobs(SweepStep(v, nomad, boxes, d, h).effects) == [d]
    ensures |DeregisteredJobs(SweepStep(v, nomad, boxes, d, h).effects)| <= 1
  {
    var lookup := [LookupBox(d)];
    var run := CleanupRun(h, d, nomad.deregister(d));
    CleanupRunEffects(h, d, nomad.deregister(d));
    ProjectionsAppend(lookup, run.effects);
    assert LookedUpJobs(lookup) == [d];
    assert DeregisteredJobs(lookup) == [];
  }

  /** A turn deregisters its deployment exactly when it decides to clean it
      up and its host choice succeeds, and schedules a retry exactly when
      that deregistration fails. */
  lemma SweepStepCleansUp(v: Variant, nomad: Nomad, boxes: seq<Box>, d: string, h: Host)
    ensures var s := SweepStep(v, nomad, boxes, d, h);
      var c := Decide(v, boxes, d) == CleanUp;
      && DeregisteredJobs(s.effects) == (if c && h.Ok? then [d] else [])
      && Schedules(s.effects) == (if c && SchedulesRetry(h, nomad.deregister(d)) then [Schedule(RetryDelaySeconds, d, RetryTimeout)] else [])
  {
    var lookup := [LookupBox(d)];
    var run := CleanupRun(h, d, nomad.deregister(d));
    CleanupRunEffects(h, d, nomad.deregister(d));
    ProjectionsAppend(lookup, run.effects);
    assert DeregisteredJobs(lookup) == [] && Schedules(lookup) == [];
  }

  /** The loop over the deployments `ds`, in list order; `hosts[i]` is the
      host the cleanup of `ds[i]` would choose. The first exception ends it. */
  function SweepLoop(v: Variant, nomad: Nomad, boxes: seq<Box>, ds: seq<string>, hosts: seq<Host>): Step
    requires |hosts| == |ds|
  {
    if ds == [] then Step([], Completed)
    else
      var n := |ds| - 1;
      var prev := SweepLoop(v, nomad, boxes, ds[..n], hosts[..n]);
      if prev.outcome.Raised? then prev
      else Then(prev.effects, SweepStep(v, nomad, boxes, ds[n], hosts[n]))
  }

  /** The loop over the first i + 1 deployments is the loop over the first
      i followed, unless it has raised, by turn i. */
  lemma SweepLoopPrefix(v: Variant, nomad: Nomad, boxes: seq<Box>, ds: seq<string>, hosts: seq<Host>, i: nat)
    requires |hosts| == |ds| && i < |ds|
    ensures var prev := SweepLoop(v, nomad, boxes, ds[..i], hosts[..i]);
      SweepLoop(v, nomad, boxes, ds[..i + 1], hosts[..i + 1]) ==
        if prev.outcome.Raised? then prev else Then(prev.effects, SweepStep(v, nomad, boxes, ds[i], hosts[i]))
  {
    assert ds[..i + 1][..i] == ds[..i] && hosts[..i + 1][..i] == hosts[..i];
  }

  /** The loop's first turn. */
  lemma SweepLoopFirst(v: Variant, nomad: Nomad, boxes: seq<Box>, ds: seq<string>, hosts: seq<Host>)
    requires |hosts| == |ds| && ds != []
    ensures SweepLoop(v, nomad, boxes, ds[..1], hosts[..1]) == SweepStep(v, nomad, boxes, ds[0], hosts[0])
  {
    var step := SweepStep(v, nomad, boxes, ds[0], hosts[0]);
    assert SweepLoop(v, nomad, boxes, ds[..1][..0], hosts[..1][..0]) == Step([], Completed);
    assert [] + step.effects == step.effects;
  }

  /** A turn that completes extends the loop by one deployment. */
  lemma SweepLoopExtends(v: Variant, nomad: Nomad, boxes: seq<Box>, ds: seq<string>, hosts: seq<Host>, h: Host)
    requires |hosts| < |ds|
    requires SweepLoop(v, nomad, boxes, ds[..|hosts|], hosts).outcome == Completed
    ensures var i := |hosts|;
      SweepLoop(v, nomad, boxes, ds[..i + 1], hosts + [h]) ==
        Then(SweepLoop(v, nomad, boxes, ds[..i], hosts).effects, SweepStep(v, nomad, boxes, ds[i], h))
  {
    var i := |hosts|;
    assert ds[..i + 1][..i] == ds[..i] && (hosts + [h])[..i] == hosts;
  }

  /** A turn that raises ends the loop, whatever hosts the deployments after
      it would have used. */
  lemma SweepLoopEndsEarly(v: Variant, nomad: Nomad, boxes: seq<Box>, ds: seq<string>, hosts: seq<Host>, h: Host, spare: Host)
    returns (all: seq<Host>)
    requires |hosts| < |ds|
    requires SweepLoop(v, nomad, boxes, ds[..|hosts|], hosts).outcome == Completed
    requires SweepStep(v, nomad, boxes, ds[|hosts|], h).outcome.Raised?
    ensures |all| == |ds| && forall x :: x in all ==> x in hosts || x == h || x == spare
    ensures SweepLoop(v, nomad, boxes, ds, all) ==
      Then(SweepLoop(v, nomad, boxes, ds[..|hosts|], hosts).effects, SweepStep(v, nomad, boxes, ds[|hosts|], h))
  {
    var i := |hosts|;
    all := hosts + [h] + Copies(spare, |ds| - i - 1);
    SweepLoopExtends(v, nomad, boxes, ds, hosts, h);
    assert all[..i + 1] == hosts + [h];
    SweepStopsAtFirstRaise(v, nomad, boxes, ds, all, i + 1);
  }

  /** `check_all_boxes`: choose the host, list the deployments of
      "ssh-client", then run the loop. */
  function Sweep(v: Variant, nomad: Nomad, boxes: seq<Box>, h0: Host, hosts: seq<Host>): Step
    requires nomad.deployments.Some? ==> |hosts| == |nomad.deployments.value|
  {
    match h0
    case Err(e) => Step([], Raised(e))
    case Ok(host) =>
      var listed := [ListDeployments(host, SweepJobClass)];
      match nomad.deployments
      case None => Step(listed, Raised(NomadException))
      case Some(ds) => Then(listed, SweepLoop(v, nomad, boxes, ds, hosts))
  }

  /** An exception stops the sweep: once the turns up to k have raised, the
      later deployments are never examined. */
  lemma {:induction false} SweepStopsAtFirstRaise(v: Variant, nomad: Nomad, boxes: seq<Box>, ds: seq<string>, hosts: seq<Host>, k: nat)
    requires |hosts| == |ds| && k <= |ds|
    requires SweepLoop(v, nomad, boxes, ds[..k], hosts[..k]).outcome.Raised?
    ensures SweepLoop(v, nomad, boxes, ds, hosts) == SweepLoop(v, nomad, boxes, ds[..k], hosts[..k])
    decreases |ds| - k
  {
    if k < |ds| {
      var n := |ds| - 1;
      assert ds[..n][..k] == ds[..k] && hosts[..n][..k] == hosts[..k];
      SweepStopsAtFirstRaise(v, nomad, boxes, ds[..n], hosts[..n], k);
    } else {
      assert ds[..k] == ds && hosts[..k] == hosts;
    }
  }

  /** A turn after a loop that has completed so far adds the lookup of its
      own deployment and at most one deregistration. */
  lemma SweepTurnLooksUp(v: Variant, nomad: Nomad, boxes: seq<Box>, d: string, h: Host, done: seq<Effect>)
    ensures var s := Then(done, SweepStep(v, nomad, boxes, d, h));
      && LookedUpJobs(s.effects) == LookedUpJobs(done) + [d]
      && |DeregisteredJobs(s.effects)| <= |DeregisteredJobs(done)| + 1
  {
    var step := SweepStep(v, nomad, boxes, d, h);
    SweepStepLooksUp(v, nomad, boxes, d, h);
    ProjectionsAppend(done, step.effects);
  }

  /** The sweep examines a prefix of the deployments in list order, each
      once, deregisters at most one job per examined deployment, and
      examines them all when it completes. */
  lemma {:induction false} SweepExaminesInOrder(v: Variant, nomad: Nomad, boxes: seq<Box>, ds: seq<string>, hosts: seq<Host>)
    requires |hosts| == |ds|
    ensures var s := SweepLoop(v, nomad, boxes, ds, hosts);
      && |LookedUpJobs(s.effects)| <= |ds|
      && LookedUpJobs(s.effects) == ds[..|LookedUpJobs(s.effects)|]
      && |DeregisteredJobs(s.effects)| <= |LookedUpJobs(s.effects)|
      && (s.outcome == Completed ==> LookedUpJobs(s.effects) == ds)
  {
    if ds != [] {
      var n := |ds| - 1;
      var prev := SweepLoop(v, nomad, boxes, ds[..n], hosts[..n]);
      SweepExaminesInOrder(v, nomad, boxes, ds[..n], hosts[..n]);
      if prev.outcome.Completed? {
        SweepTurnLooksUp(v, nomad, boxes, ds[n], hosts[n], prev.effects);
        assert ds[..n] + [ds[n]] == ds;
      } else {
        var m := |LookedUpJobs(prev.effects)|;
        assert ds[..n][..m] == ds[..m];
      }
    }
  }

  /** With line 45 before the None check, as written or with the call
      restored, only a deployment that has a Box is ever deregistered. */
  lemma {:induction false} UnguardedCleansOnlyBoxed(left: TimeOperand, nomad: Nomad, boxes: seq<Box>, ds: seq<string>, hosts: seq<Host>)
    requires |hosts| == |ds|
    ensures forall j :: j in DeregisteredJobs(SweepLoop(Unguarded(left), nomad, boxes, ds, hosts).effects) ==> FirstBox(boxes, j).Some?
  {
    if ds != [] {
      var n := |ds| - 1;
      var prev := SweepLoop(Unguarded(left), nomad, boxes, ds[..n], hosts[..n]);
      UnguardedCleansOnlyBoxed(left, nomad, boxes, ds[..n], hosts[..n]);
      if prev.outcome.Completed? {
        UnguardedTurnCleansOnlyBoxed(left, nomad, boxes, ds[n], hosts[n], prev.effects);
      }
    }
  }

  /** With line 45 before the None check, a turn deregisters its deployment
      only if it has a Box. */
  lemma UnguardedTurnCleansOnlyBoxed(left: TimeOperand, nomad: Nomad, boxes: seq<Box>, d: string, h: Host, done: seq<Effect>)
    ensures forall j :: j in DeregisteredJobs(Then(done, SweepStep(Unguarded(left), nomad, boxes, d, h)).effects) ==>
      j in DeregisteredJobs(done) || FirstBox(boxes, j).Some?
  {
    var step := SweepStep(Unguarded(left), nomad, boxes, d, h);
    SweepStepCleansUp(Unguarded(left), nomad, boxes, d, h);
    ProjectionsAppend(done, step.effects);
    if Decide(Unguarded(left), boxes, d) == CleanUp {
      assert FirstBox(boxes, d).Some?;
    }
  }

  /** Line 50 is unreachable: whatever the left operand of line 45, a
      deployment without a Box makes line 45 raise AttributeError before the
      check at line 49, so the sweep raises once it meets one. */
  lemma UnguardedStopsAtMissingBox(left: TimeOperand, nomad: Nomad, boxes: seq<Box>, ds: seq<string>, hosts: seq<Host>, i: nat)
    requires |hosts| == |ds| && i < |ds|
    requires FirstBox(boxes, ds[i]).None?
    ensures SweepLoop(Unguarded(left), nomad, boxes, ds, hosts).outcome.Raised?
  {
    var v := Unguarded(left);
    SweepLoopPrefix(v, nomad, boxes, ds, hosts, i);
    assert Decide(v, boxes, ds[i]) == Fail(AttributeError);
    SweepStopsAtFirstRaise(v, nomad, boxes, ds, hosts, i + 1);
  }

  /** The exceptions choosing a host can raise. */
  predicate WellChosen(h: Host)
  {
    h.Err? ==> h.error.DnsQueryFailed? || h.error.Discovery?
  }

  lemma HostChoicesWellChosen(env: Env, h: Host)
    requires h in HostChoices(env)
    ensures WellChosen(h)
  {
  }

  /** The stale deployments of `ds`, in list order. */
  function Stale(boxes: seq<Box>, now: int, ds: seq<string>): seq<string>
  {
    if ds == [] then []
    else Stale(boxes, now, ds[..|ds| - 1]) + (if IsStale(boxes, now, ds[|ds| - 1]) then [ds[|ds| - 1]] else [])
  }

  /** One intended turn after a loop that has completed so far: it raises
      only from Nomad or from choosing a host, and when it completes it adds
      its own lookup and, if the deployment is stale, its deregistration. */
  lemma IntendedTurn(now: int, nomad: Nomad, boxes: seq<Box>, d: string, h: Host, done: seq<Effect>)
    requires WellChosen(h)
    ensures var s := Then(done, SweepStep(Intended(now), nomad, boxes, d, h));
      && (s.outcome.Raised? ==> s.outcome.exception == NomadException || WellChosen(Err(s.outcome.exception)))
      && (s.outcome == Completed ==>
            && LookedUpJobs(s.effects) == LookedUpJobs(done) + [d]
            && DeregisteredJobs(s.effects) == DeregisteredJobs(done) + (if IsStale(boxes, now, d) then [d] else [])
            && Schedules(s.effects) == Schedules(done))
  {
    var step := SweepStep(Intended(now), nomad, boxes, d, h);
    SweepStepLooksUp(Intended(now), nomad, boxes, d, h);
    SweepStepCleansUp(Intended(now), nomad, boxes, d, h);
    ProjectionsAppend(done, step.effects);
  }

  /** The intended sweep never raises for a missing Box or a time
      comparison, only from Nomad or from choosing a host; when it completes
      it has examined every deployment and deregistered exactly the stale
      ones, in list order, and scheduled no retry. */
  lemma {:induction false} IntendedSweepCleansStale(now: int, nomad: Nomad, boxes: seq<Box>, ds: seq<string>, hosts: seq<Host>)
    requires |hosts| == |ds|
    requires forall i :: 0 <= i < |hosts| ==> WellChosen(hosts[i])
    ensures var s := SweepLoop(Intended(now), nomad, boxes, ds, hosts);
      && (s.outcome.Raised? ==> s.outcome.exception == NomadException || WellChosen(Err(s.outcome.exception)))
      && (s.outcome == Completed ==>
            && LookedUpJobs(s.effects) == ds
            && DeregisteredJobs(s.effects) == Stale(boxes, now, ds)
            && Schedules(s.effects) == [])
  {
    if ds != [] {
      var n := |ds| - 1;
      var prev := SweepLoop(Intended(now), nomad, boxes, ds[..n], hosts[..n]);
      IntendedSweepCleansStale(now, nomad, boxes, ds[..n], hosts[..n]);
      if prev.outcome.Completed? {
        IntendedTurn(now, nomad, boxes, ds[n], hosts[n], prev.effects);
      }
    }
  }

  /** As written, line 45 raises on the first deployment, with TypeError
      (the uncalled `datetime.utcnow`) or AttributeError (no Box): the sweep
      completes only when there is nothing to sweep and never deregisters or
      schedules anything. */
  lemma AsWrittenSweepNeverCleansUp(nomad: Nomad, boxes: seq<Box>, h0: Host, hosts: seq<Host>)
    requires nomad.deployments.Some? ==> |hosts| == |nomad.deployments.value|
    ensures var s := Sweep(AsWritten, nomad, boxes, h0, hosts);
      && DeregisteredJobs(s.effects) == []
      && Schedules(s.effects) == []
      && (s.outcome == Completed <==> h0.Ok? && nomad.deployments == Some([]))
      && (h0.Ok? && nomad.deployments.Some? && nomad.deployments.value != [] ==>
            var d := nomad.deployments.value[0];
            && s.effects == [ListDeployments(h0.value, SweepJobClass), LookupBox(d)]
            && s.outcome == Raised(if FirstBox(boxes, d).None? then AttributeError else TypeError))
  {
    var v := AsWritten;
    if h0.Ok? && nomad.deployments.Some? {
      var ds := nomad.deployments.value;
      var listed := [ListDeployments(h0.value, SweepJobClass)];
      if ds != [] {
        var lookup := [LookupBox(ds[0])];
        AsWrittenLoopStopsAtFirst(nomad, boxes, ds, hosts);
        ProjectionsAppend(listed, lookup);
        ProjectOne(listed[0]);
        ProjectOne(lookup[0]);
      }
    } else if h0.Ok? {
      ProjectOne(ListDeployments(h0.value, SweepJobClass));
    }
  }

  /** As written, the loop raises at its first deployment, having looked
      up only that one. */
  lemma AsWrittenLoopStopsAtFirst(nomad: Nomad, boxes: seq<Box>, ds: seq<string>, hosts: seq<Host>)
    requires |hosts| == |ds| && ds != []
    ensures SweepLoop(AsWritten, nomad, boxes, ds, hosts) ==
      Step([LookupBox(ds[0])], Raised(if FirstBox(boxes, ds[0]).None? then AttributeError else TypeError))
  {
    SweepLoopFirst(AsWritten, nomad, boxes, ds, hosts);
    SweepStopsAtFirstRaise(AsWritten, nomad, boxes, ds, hosts, 1);
  }

  // ---------------------------------------------------------------------------
  // The worker that runs the jobs
  // ---------------------------------------------------------------------------

  class Worker {
    /** Every call the jobs have made on a collaborator, oldest first. */
    var log: seq<Effect>

    constructor ()
      ensures log == []
    {
      log := [];
    }

    /** `del_box_nomad`: one deregistration call; anything but acceptance
        raises BaseNomadException. */
    method DelBoxNomad(host: string, nomad: Nomad, jobId: string) returns (out: Outcome)
      modifies this
      ensures log == old(log) + [Deregister(host, jobId, nomad.deregister(jobId))]
      ensures out == if nomad.deregister(jobId) == Accepted then Completed else Raised(NomadException)
    {
      var reply := nomad.deregister(jobId);
      log := log + [Deregister(host, jobId, reply)];
      out := if reply == Accepted then Completed else Raised(NomadException);
    }

    /** `cleanup_old_nomad_box(job_id)` run synchronously; `h` is the host
        it chose. */
    method CleanupOldNomadBox(env: Env, nomad: Nomad, jobId: string) returns (out: Outcome, ghost h: Host)
      modifies this
      ensures h in HostChoices(env)
      ensures log == old(log) + CleanupRun(h, jobId, nomad.deregister(jobId)).effects
      ensures out == CleanupRun(h, jobId, nomad.deregister(jobId)).outcome
    {
      var host := NomadHost(env);
      h := host;
      if host.Err? {
        out := Raised(host.error);
        return;
      }
      out := DelBoxNomad(host.value, nomad, jobId);
      if out.Raised? {
        log := log + [Schedule(RetryDelaySeconds, jobId, RetryTimeout)];
        out := Raised(NomadException);
      }
    }

    /** One turn of the sweep loop; `spare` stands for the host of a cleanup
        that does not happen. */
    method CheckDeployment(env: Env, nomad: Nomad, boxes: seq<Box>, v: Variant, d: string, ghost spare: Host)
      returns (out: Outcome, ghost h: Host)
      requires spare in HostChoices(env)
      modifies this
      ensures h in HostChoices(env)
      ensures log == old(log) + SweepStep(v, nomad, boxes, d, h).effects
      ensures out == SweepStep(v, nomad, boxes, d, h).outcome
    {
      h := spare;
      log := log + [LookupBox(d)];
      var box := FirstBox(boxes, d);
      match v {
        case Unguarded(left) =>
          if box.None? {
            out := Raised(AttributeError);
            return;
          }
          var expired := AtOrAfter(left, box.value.sessionEndTime);
          if expired.Err? {
            out := Raised(expired.error);
            return;
          }
          if expired.value {
            out, h := CleanupOldNomadBox(env, nomad, d);
            return;
          }
          // line 49: a Box row is truthy, so `not box_exist` is false
          out := Completed;
        case Intended(now) =>
          if box.None? || now >= box.value.sessionEndTime {
            out, h := CleanupOldNomadBox(env, nomad, d);
            return;
          }
          out := Completed;
      }
    }

    /** The loop at lines 42-50 over the deployments `ds`; `spare` stands
        for the host of a cleanup that does not happen. */
    method SweepDeployments(env: Env, nomad: Nomad, boxes: seq<Box>, v: Variant, ds: seq<string>, ghost spare: Host)
      returns (out: Outcome, ghost hosts: seq<Host>)
      requires spare in HostChoices(env)
      modifies this
      ensures |hosts| == |ds|
      ensures forall x :: x in hosts ==> x in HostChoices(env)
      ensures log == old(log) + SweepLoop(v, nomad, boxes, ds, hosts).effects
      ensures out == SweepLoop(v, nomad, boxes, ds, hosts).outcome
    {
      hosts := [];
      ghost var done: seq<Effect> := [];
      var i := 0;
      while i < |ds|
        invariant 0 <= i <= |ds| && |hosts| == i
        invariant forall x :: x in hosts ==> x in HostChoices(env)
        invariant SweepLoop(v, nomad, boxes, ds[..i], hosts) == Step(done, Completed)
        invariant log == old(log) + done
      {
        var o: Outcome;
        ghost var h: Host;
        o, h := CheckDeployment(env, nomad, boxes, v, ds[i], spare);
        ghost var step := SweepStep(v, nomad, boxes, ds[i], h);
        AppendAssoc(old(log), done, step.effects);
        if o.Raised? {
          hosts := SweepLoopEndsEarly(v, nomad, boxes, ds, hosts, h, spare);
          out := o;
          return;
        }
        SweepLoopExtends(v, nomad, boxes, ds, hosts, h);
        hosts := hosts + [h];
        done := done + step.effects;
        i := i + 1;
      }
      assert ds[..i] == ds;
      out := Completed;
    }

    /** The sweep job under either variant; `h0` is the host of the sweep's
        own client and `hosts[i]` that of the cleanup of the i-th deployment. */
    method RunSweep(env: Env, nomad: Nomad, boxes: seq<Box>, v: Variant)
      returns (out: Outcome, ghost h0: Host, ghost hosts: seq<Host>)
      modifies this
      ensures h0 in HostChoices(env)
      ensures forall x :: x in hosts ==> x in HostChoices(env)
      ensures nomad.deployments.Some? ==> |hosts| == |nomad.deployments.value|
      ensures log == old(log) + Sweep(v, nomad, boxes, h0, hosts).effects
      ensures out == Sweep(v, nomad, boxes, h0, hosts).outcome
    {
      var host := NomadHost(env);
      h0 := host;
      hosts := if nomad.deployments.Some? then Copies(host, |nomad.deployments.value|) else [];
      if host.Err? {
        out := Raised(host.error);
        return;
      }
      var listed := [ListDeployments(host.value, SweepJobClass)];
      log := log + listed;
      if nomad.deployments.None? {
        out := Raised(NomadException);
        return;
      }
      var ds := nomad.deployments.value;
      out, hosts := SweepDeployments(env, nomad, boxes, v, ds, h0);
      AppendAssoc(old(log), listed, SweepLoop(v, nomad, boxes, ds, hosts).effects);
    }

    /** `check_all_boxes` as written: the loop compares the uncalled
        `datetime.utcnow` at line 45. */
    method CheckAllBoxes(env: Env, nomad: Nomad, boxes: seq<Box>)
      returns (out: Outcome, ghost h0: Host, ghost hosts: seq<Host>)
      modifies this
      ensures h0 in HostChoices(env)
      ensures nomad.deployments.Some? ==> |hosts| == |nomad.deployments.value|
      ensures log == old(log) + Sweep(AsWritten, nomad, boxes, h0, hosts).effects
      ensures out == Sweep(AsWritten, nomad, boxes, h0, hosts).outcome
      ensures DeregisteredJobs(log[|old(log)|..]) == [] && Schedules(log[|old(log)|..]) == []
      ensures out == Completed <==> h0.Ok? && nomad.deployments == Some([])
    {
      out, h0, hosts := RunSweep(env, nomad, boxes, AsWritten);
      AsWrittenSweepNeverCleansUp(nomad, boxes, h0, hosts);
      assert log[|old(log)|..] == Sweep(AsWritten, nomad, boxes, h0, hosts).effects;
    }

    /** The sweep as evidently intended, NOT the code as written: a
        deployment is cleaned up when it has no Box or when `now` is at or
        after its session end, with `now` read once for the sweep. */
    method CheckAllBoxesIntended(env: Env, nomad: Nomad, boxes: seq<Box>, now: int)
      returns (out: Outcome, ghost h0: Host, ghost hosts: seq<Host>)
      modifies this
      ensures h0 in HostChoices(env)
      ensures nomad.deployments.Some? ==> |hosts| == |nomad.deployments.value|
      ensures log == old(log) + Sweep(Intended(now), nomad, boxes, h0, hosts).effects
      ensures out == Sweep(Intended(now), nomad, boxes, h0, hosts).outcome
      ensures out == Completed ==>
        nomad.deployments.Some? && DeregisteredJobs(log[|old(log)|..]) == Stale(boxes, now, nomad.deployments.value)
    {
      out, h0, hosts := RunSweep(env, nomad, boxes, Intended(now));
      assert log[|old(log)|..] == Sweep(Intended(now), nomad, boxes, h0, hosts).effects;
      if out == Completed {
        var ds := nomad.deployments.value;
        forall i | 0 <= i < |hosts|
          ensures WellChosen(hosts[i])
        {
          HostChoicesWellChosen(env, hosts[i]);
        }
        IntendedSweepCleansStale(now, nomad, boxes, ds, hosts);
        ProjectionsAppend([ListDeployments(h0.value, SweepJobClass)], SweepLoop(Intended(now), nomad, boxes, ds, hosts).effects);
      }
    }
  }

  // ---------------------------------------------------------------------------
  // Three deployments: A running, B expired, C without a Box
  // ---------------------------------------------------------------------------

  const ExampleBoxes: seq<Box> := [Box("A", 200), Box("B", 50)]
  const ExampleDeployments: seq<string> := ["A", "B", "C"]
  const ExampleNomad := Nomad((_: string) => Accepted, Some(ExampleDeployments))

  /** A sweep over three deployments, turn by turn. */
  lemma SweepLoopOfThree(v: Variant, nomad: Nomad, boxes: seq<Box>, a: string, b: string, c: string, h: Host)
    ensures var s1 := SweepStep(v, nomad, boxes, a, h);
      var s2 := Then(s1.effects, SweepStep(v, nomad, boxes, b, h));
      var s3 := Then(s2.effects, SweepStep(v, nomad, boxes, c, h));
      SweepLoop(v, nomad, boxes, [a, b, c], [h, h, h]) ==
        if s1.outcome.Raised? then s1 else if s2.outcome.Raised? then s2 else s3
  {
    var ds, hs := [a, b, c], [h, h, h];
    SweepLoopFirst(v, nomad, boxes, ds, hs);
    SweepLoopPrefix(v, nomad, boxes, ds, hs, 1);
    SweepLoopPrefix(v, nomad, boxes, ds, hs, 2);
    assert ds[..3] == ds && hs[..3] == hs;
    assert ds[1] == b && ds[2] == c && hs[1] == h && hs[2] == h;
  }

  lemma ExampleBoxLookups()
    ensures FirstBox(ExampleBoxes, "A") == Some(Box("A", 200))
    ensures FirstBox(ExampleBoxes, "B") == Some(Box("B", 50))
    ensures FirstBox(ExampleBoxes, "C") == None
  {
    assert ExampleBoxes[1..] == [Box("B", 50)];
    assert ExampleBoxes[1..][1..] == [];
  }

  /** What each turn decides at time 100, and with the uncalled `utcnow`. */
  lemma ExampleDecisions()
    ensures Decide(Intended(100), ExampleBoxes, "A") == Keep
    ensures Decide(Intended(100), ExampleBoxes, "B") == CleanUp
    ensures Decide(Intended(100), ExampleBoxes, "C") == CleanUp
    ensures Decide(CalledUtcnow(100), ExampleBoxes, "A") == Keep
    ensures Decide(CalledUtcnow(100), ExampleBoxes, "B") == CleanUp
    ensures Decide(CalledUtcnow(100), ExampleBoxes, "C") == Fail(AttributeError)
  {
    ExampleBoxLookups();
  }

  /** The turns of the intended sweep at time 100. */
  lemma ExampleIntendedLoop(host: string)
    ensures SweepLoop(Intended(100), ExampleNomad, ExampleBoxes, ["A", "B", "C"], [Ok(host), Ok(host), Ok(host)]) ==
      Step([LookupBox("A")] + ([LookupBox("B")] + [Deregister(host, "B", Accepted)]) +
           ([LookupBox("C")] + [Deregister(host, "C", Accepted)]), Completed)
  {
    var v := Intended(100);
    var h: Host := Ok(host);
    ExampleDecisions();
    SweepLoopOfThree(v, ExampleNomad, ExampleBoxes, "A", "B", "C", h);
  }

  /** At time 100, B (session ended at 50) and C (no Box) are stale. */
  lemma ExampleStale()
    ensures Stale(ExampleBoxes, 100, ExampleDeployments) == ["B", "C"]
  {
    var ds := ExampleDeployments;
    ExampleBoxLookups();
    assert ds[..2][..1] == ds[..1] && ds[..1][..0] == [];
    assert Stale(ExampleBoxes, 100, ds[..1]) == [];
    assert Stale(ExampleBoxes, 100, ds[..2]) == ["B"];
  }

  /** At time 100 the intended sweep keeps A, whose session runs to 200,
      and deregisters B, whose session ended at 50, and C, which has no Box. */
  lemma ExampleIntendedSweep(host: string)
    ensures var s := Sweep(Intended(100), ExampleNomad, ExampleBoxes, Ok(host), [Ok(host), Ok(host), Ok(host)]);
      s.outcome == Completed && DeregisteredJobs(s.effects) == ["B", "C"]
  {
    var hosts: seq<Host> := [Ok(host), Ok(host), Ok(host)];
    var loop := SweepLoop(Intended(100), ExampleNomad, ExampleBoxes, ExampleDeployments, hosts);
    ExampleIntendedLoop(host);
    IntendedSweepCleansStale(100, ExampleNomad, ExampleBoxes, ExampleDeployments, hosts);
    ExampleStale();
    ProjectionsAppend([ListDeployments(host, SweepJobClass)], loop.effects);
    ProjectOne(ListDeployments(host, SweepJobClass));
  }

  /** As written the sweep raises TypeError at A and deregisters nothing. */
  lemma ExampleAsWrittenSweep(host: string)
    ensures var s := Sweep(AsWritten, ExampleNomad, ExampleBoxes, Ok(host), [Ok(host), Ok(host), Ok(host)]);
      s.outcome == Raised(TypeError) && DeregisteredJobs(s.effects) == []
  {
    ExampleBoxLookups();
    AsWrittenSweepNeverCleansUp(ExampleNomad, ExampleBoxes, Ok(host), [Ok(host), Ok(host), Ok(host)]);
  }

  /** The turns of the sweep with only the call to `utcnow` restored. */
  lemma ExampleCalledUtcnowLoop(host: string)
    ensures SweepLoop(CalledUtcnow(100), ExampleNomad, ExampleBoxes, ["A", "B", "C"], [Ok(host), Ok(host), Ok(host)]) ==
      Step([LookupBox("A")] + ([LookupBox("B")] + [Deregister(host, "B", Accepted)]) + [LookupBox("C")], Raised(AttributeError))
  {
    var v := CalledUtcnow(100);
    var h: Host := Ok(host);
    ExampleDecisions();
    SweepLoopOfThree(v, ExampleNomad, ExampleBoxes, "A", "B", "C", h);
  }

  lemma ExampleCalledUtcnowDeregistrations(host: string)
    ensures DeregisteredJobs([ListDeployments(host, SweepJobClass)] + ([LookupBox("A")] +
      ([LookupBox("B")] + [Deregister(host, "B", Accepted)]) + [LookupBox("C")])) == ["B"]
  {
    var eL, eA, eB, dB, eC := [ListDeployments(host, SweepJobClass)], [LookupBox("A")],
      [LookupBox("B")], [Deregister(host, "B", Accepted)], [LookupBox("C")];
    var loop := eA + (eB + dB) + eC;
    ProjectOne(eL[0]); ProjectOne(eA[0]); ProjectOne(eB[0]); ProjectOne(dB[0]); ProjectOne(eC[0]);
    ProjectionsAppend(eB, dB);
    ProjectionsAppend(eA, eB + dB);
    ProjectionsAppend(eA + (eB + dB), eC);
    assert DeregisteredJobs(loop) == ["B"] + [];
    ProjectionsAppend(eL, loop);
  }

  /** With only the call to `utcnow` restored, the sweep keeps A, deregisters
      B, and then raises AttributeError at C, which is never deregistered. */
  lemma ExampleCalledUtcnowSweep(host: string)
    ensures var s := Sweep(CalledUtcnow(100), ExampleNomad, ExampleBoxes, Ok(host), [Ok(host), Ok(host), Ok(host)]);
      s.outcome == Raised(AttributeError) && DeregisteredJobs(s.effects) == ["B"]
  {
    ExampleCalledUtcnowLoop(host);
    ExampleCalledUtcnowDeregistrations(host);
  }
}
