# Nomad service discovery and job cleanup, in Dafny

This project models two files of the userland-cloud backend and proves
properties of the model.

- `app/utils/dns.py` (module `Dns`, file `dns.dfy`) handles service discovery through DNS SRV records.
  - `Service._parse_response` first maps the normalised names of the A RRsets in the additional section to their first address.
  - It then keeps the records of the first answer RRset whose priority is the numerically largest.
  - For each kept record it appends an `Entry(ip, port)` and the record's weight.
  - The service then hands out weighted random picks of those entries from an endless generator (`url`, `ip`, `port`).
  - `entries()` returns the list itself.
  - The pure functions `NameMap`, `MaxPriority`, `Kept`, `Select` and `Parse` define parsing.
  - The method `ParseResponse` has the two loops of the source and is proved equal to `Parse`.
  - `Service` is a class with the parsed lists and a ghost history of the picks the generator has produced.
- `app/jobs/nomad_cleanup.py` (module `NomadCleanup`, file `nomad_cleanup.dfy`) deregisters sandbox jobs from Nomad.
  - **Host choice.** `cleanup_old_nomad_box` and `check_all_boxes` each build a Nomad client. In production the host is the address of a discovered "nomad" endpoint; otherwise it is `SEA_HOST`, defaulting to `0.0.0.0`.
  - **Retry rule.** `cleanup_old_nomad_box` deregisters one job. On any Nomad failure it schedules itself again for the same job two hours later, with timeout 60000, and raises again. Line 21 raises the class `BaseNomadException` itself rather than the exception it caught. The model takes this to end the run with a `BaseNomadException` (see "## Left out").
  - **Sweep.** `check_all_boxes` lists the deployments of `ssh-client` and looks up the Box row of each. It is meant to clean up every job whose session has ended or that has no Box.
  - The class `Worker` runs the jobs. Its field `log` records every call on the Nomad client, the Box table and the job queue: listing, Box lookup, deregistration and scheduling. The environment reads and the DNS query that choose the host are not logged.
  - Each method is proved against a specification function: `CleanupRun`, `SweepStep`, `SweepLoop` or `Sweep`. The lemmas about those functions state what the jobs do.
- `results.dfy` (module `Results`) holds the `Option` and `Result` wrappers.

**Collaborators.** The DNS resolver, the Nomad API, the Box table, the job queue and the process environment are all values:
- `Env` holds the environment variables and the DNS answer for each service name.
- `Nomad` holds the reply to each deregistration and the deployment list, or the fact that listing raised.
- The Box table is a `seq<Box>`.

The random pick is a nondeterministic choice. Which host a job run picks is therefore a ghost out-parameter constrained by `HostChoices`.

**Line 45 of `nomad_cleanup.py`.** The sweep is modelled twice:
- `Unguarded(left)` keeps the structure of lines 44-50: line 45 reads `session_end_time` before line 49 checks for a missing Box. `left` is the left operand of the comparison.
  - `AsWritten` is the code exactly as written, `Unguarded(UncalledUtcnow)`.
  - `CalledUtcnow(now)` is the same code with only the call `utcnow()` restored, which isolates the second defect.
- `Intended(now)` is the evidently intended rule. `CheckAllBoxesIntended` is labelled as such.

See "## Findings".

**Behaviour of the code that the model keeps:**
- The numerically LARGEST priority is kept, though section 2 of RFC 2782 prefers the smallest. For h1, h2 at priority 10 and h3 at 20, the code keeps h3 alone (`Dns.HighestPriorityValueKept`).
- A deregistration that Nomad answers with "not found" raises `BaseNomadException` like any other failure. It is retried every two hours without end (`NomadCleanup.AbsentJobRetriedForever`).
- The job keeps no attempt count, so retries have no cap (`NomadCleanup.RetriesWithoutBound`).
- A DNS failure while choosing the host happens outside the `try`. It is raised with no retry scheduled.
- The zero weights go to `random.choices` unchanged.

## Model

| member | source | states |
|---|---|---|
| Dns.StripLeadingDots | app/utils/dns.py:36 | the result is no longer than the input and does not start with a dot |
| Dns.StripTrailingDots | app/utils/dns.py:36 | the result is a prefix of the input and does not end with a dot |
| Dns.Normalize | app/utils/dns.py:36 | `strip(".")` leaves a name that neither starts nor ends with a dot |
| Dns.StripLeadingDotsShape | app/utils/dns.py:36 | stripping leading dots leaves a suffix of the name, and what was removed is all dots |
| Dns.StripTrailingDotsShape | app/utils/dns.py:36 | what stripping trailing dots removes is all dots |
| Dns.NormalizeFramedByDots | app/utils/dns.py:36 | the name is its normalised form with only dots before and after it: normalising removes dots at the two ends and nothing else |
| Dns.DecimalString | app/utils/dns.py:46 | `str(port)` is a non-empty string of decimal digits with no leading zero unless the port is 0 |
| Dns.DecimalRoundTrip | app/utils/dns.py:46 | the port text reads back as the record's port |
| Dns.NameMapErrorPersists | app/utils/dns.py:33-36 | once an A RRset without rdata has raised, later RRsets do not change the outcome |
| Dns.NameMapFails | app/utils/dns.py:34-36 | building the name map raises iff some A RRset has no rdata |
| Dns.NameMapKeys | app/utils/dns.py:33-36 | the names in the map are exactly the normalised names of the A RRsets; other record types are ignored |
| Dns.NameMapLastWins | app/utils/dns.py:33-36 | a name maps to the first address of the last A RRset with that name |
| Dns.NameMap | app/utils/dns.py:33-36 | the first loop: each A RRset in turn maps its normalised name to its first address, a later one overriding an earlier; an A RRset without rdata raises `EmptyAddressRRset`; other record types are skipped |
| Dns.MaxPriority | app/utils/dns.py:41 | `max` of the priorities bounds every record's priority and is attained by one of them |
| Dns.Kept | app/utils/dns.py:43-44 | the records of the answer RRset whose priority equals `p`, in answer order |
| Dns.KeptInAnswerOrder | app/utils/dns.py:43-44 | the kept records are those at the given priority, in answer order, at strictly increasing positions |
| Dns.KeptMembers | app/utils/dns.py:43-44 | a record is kept iff it occurs in the answer with the given priority |
| Dns.EntryFor | app/utils/dns.py:46 | the `Entry` of one record: the address the map gives its normalised target, and the decimal text of its port |
| Dns.SelectStep | app/utils/dns.py:43-48 | one turn of the second loop: a record at another priority changes nothing; a target without an address raises `MissingAddress` (the KeyError); otherwise the record's entry and weight are appended |
| Dns.Select | app/utils/dns.py:43-48 | the second loop: the turns of `SelectStep` over the records in answer order, stopping at the first KeyError |
| Dns.SelectSnoc | app/utils/dns.py:43-48 | the second loop over one more record is one more turn of the loop |
| Dns.SelectErrorPersists | app/utils/dns.py:43-48 | once a kept target without an address has raised, later records do not change the outcome |
| Dns.SelectFromKept | app/utils/dns.py:43-48 | selection succeeds iff every kept target has an address; `srv[j]` and `weights[j]` then come from the j-th kept record; on failure the error names a kept target missing from the map |
| Dns.LowerTiersIgnored | app/utils/dns.py:43-44 | records below the chosen priority never influence the result |
| Dns.Parse | app/utils/dns.py:29-48 | `_parse_response`: build the name map (raising as it does); raise `NoAnswer` for a response without an answer RRset (the IndexError) and `EmptyAnswerRRset` for an empty one (`max` of nothing); otherwise select at the maximum priority |
| Dns.ParsedTier | app/utils/dns.py:29-48 | a successful parse yields at least one entry and one weight per entry; each comes from a top-priority record, with the address the map gives its target and the decimal text of its port |
| Dns.TopTierNonEmpty | app/utils/dns.py:41-44 | at least one record carries the maximum priority |
| Dns.SelectedFromTop | app/utils/dns.py:41-48 | the j-th entry and weight are those of the j-th record at the maximum priority |
| Dns.SelectedPortsAreDigits | app/utils/dns.py:46 | every selected port text is decimal digits |
| Dns.ParseFailures | app/utils/dns.py:29-48 | parsing raises exactly when an A RRset has no rdata, there is no answer RRset, the first answer RRset is empty, or a top-priority target has no address |
| Dns.ParseResponse | app/utils/dns.py:29-48 | the two loops of `_parse_response` return exactly what `Parse` defines, raising at the same point |
| Dns.PositiveTotalHasPositiveWeight | app/utils/dns.py:50-51 | a positive total weight means some entry has a positive weight to be picked |
| Dns.Url | app/utils/dns.py:62 | the text `ip:port` of an entry |
| Dns.LastColon | app/utils/dns.py:62 | the position found is the last ':' of the text, or there is none |
| Dns.UrlRoundTrip | app/utils/dns.py:59-62 | splitting `ip:port` at its last colon gives back the entry, even when the address holds colons |
| Dns.Service.constructor | app/utils/dns.py:24-27 | a service holds the parsed lists of its response and has produced no pick yet |
| Dns.Service.WeightedChoice | app/utils/dns.py:50-51 | a pick is an entry of `srv`, and one with positive weight whenever the weights do not all vanish |
| Dns.Service.Next | app/utils/dns.py:53-57 | the generator never runs out; each call adds one pick to the history |
| Dns.Service.GetUrl | app/utils/dns.py:59-62 | `url` consumes exactly one pick and is its `ip:port`, from which the pick is recoverable |
| Dns.Service.GetIp | app/utils/dns.py:64-66 | `ip` consumes one pick of its own and returns its address |
| Dns.Service.GetPort | app/utils/dns.py:68-70 | `port` consumes one pick of its own and returns its port |
| Dns.Service.Entries | app/utils/dns.py:72-73 | `entries()` is the entry list exactly as parsing produced it |
| Dns.DiscoverService | app/utils/dns.py:76-78 | a fresh valid service exists iff the response parses; otherwise the parse error is raised |
| Dns.ExampleNames | app/utils/dns.py:36 | "h1." normalises to "h1", and likewise for h2 and h3 |
| Dns.ExampleNameMap | app/utils/dns.py:33-36 | the three A RRsets give the map h1, h2, h3 to their addresses |
| Dns.ExampleMaxPriority | app/utils/dns.py:41 | the priorities 10, 10, 20 have maximum 20 |
| Dns.ExampleSelect | app/utils/dns.py:43-48 | at priority 20 only h3 is selected, with port "22" and weight 100 |
| Dns.HighestPriorityValueKept | app/utils/dns.py:41-48 | for h1, h2 at priority 10 and h3 at 20, parsing keeps h3 alone |
| NomadCleanup.GetEnv | app/jobs/nomad_cleanup.py:15 | `os.getenv(key, default)`: the variable's value, or the default when it is unset |
| NomadCleanup.IsProduction | app/jobs/nomad_cleanup.py:12 | `FLASK_ENV` is set and equals "production" |
| NomadCleanup.HostChoices | app/jobs/nomad_cleanup.py:12-15 | the hosts a client may be built for: outside production just `SEA_HOST` or 0.0.0.0; in production the address of any parsed "nomad" endpoint, or the failed query, or the parse error |
| NomadCleanup.NomadHost | app/jobs/nomad_cleanup.py:12-15 | outside production the host is SEA_HOST or 0.0.0.0; in production it is the address of some discovered "nomad" endpoint, or discovery's exception |
| NomadCleanup.CleanupRun | app/jobs/nomad_cleanup.py:17-21 | a run completes iff the host was chosen and the deregistration accepted; otherwise it raises BaseNomadException, or the host-choice exception |
| NomadCleanup.CleanupRunEffects | app/jobs/nomad_cleanup.py:17-21 | a run deregisters its job once when the host was chosen, and schedules exactly one retry (2 h, timeout 60000) exactly when that fails |
| NomadCleanup.RetryChain | app/jobs/nomad_cleanup.py:17-21 | the calls of successive executions of the job: each runs `CleanupRun`, and the next runs only if this one scheduled a retry (line 20) |
| NomadCleanup.RetryChainGoesOn | app/jobs/nomad_cleanup.py:19-21 | a failed execution adds one deregistration call and one retry, and the chain goes on |
| NomadCleanup.RetryChainStops | app/jobs/nomad_cleanup.py:17-21 | an execution that does not reschedule ends the chain, with no retry |
| NomadCleanup.RetriesWithoutBound | app/jobs/nomad_cleanup.py:19-21 | n failing executions schedule n identical retries and make n deregistration calls: no cap |
| NomadCleanup.AbsentJobRetriedForever | app/jobs/nomad_cleanup.py:19-21 | a job Nomad answers "not found" for is retried at every execution |
| NomadCleanup.RetryChainEnds | app/jobs/nomad_cleanup.py:17-21 | after k failures, success ends the chain with k retries and k + 1 calls; a host-choice failure ends it with k retries and k calls |
| NomadCleanup.AtOrAfter | app/jobs/nomad_cleanup.py:45 | the comparison raises TypeError iff its left operand is the uncalled `utcnow`; otherwise it is true iff the time is at or after the session end |
| NomadCleanup.FirstBox | app/jobs/nomad_cleanup.py:43 | a row found is a row of the table for that job |
| NomadCleanup.FirstBoxFindsEarliest | app/jobs/nomad_cleanup.py:43 | `first()` finds nothing iff no row belongs to the job, and otherwise finds the earliest such row |
| NomadCleanup.Decide | app/jobs/nomad_cleanup.py:43-50 | as written, a turn raises iff the Box is missing (AttributeError) or `utcnow` is uncalled (TypeError); it cleans up only boxed, expired jobs. As intended, it cleans up iff the job is stale |
| NomadCleanup.IsStale | app/jobs/nomad_cleanup.py:45-50 | the intended rule, not the code: a deployment is stale when it has no Box or its session has ended by `now` |
| NomadCleanup.SweepStep | app/jobs/nomad_cleanup.py:43-50 | one turn of the loop: look up the Box; then keep the deployment, raise, or run `CleanupRun` on it, as `Decide` says |
| NomadCleanup.SweepStepLooksUp | app/jobs/nomad_cleanup.py:43 | each turn looks up its own deployment only and deregisters at most one job |
| NomadCleanup.SweepStepCleansUp | app/jobs/nomad_cleanup.py:45-50 | a turn deregisters its deployment iff it decides to clean up and a host was chosen; it schedules a retry iff that call fails |
| NomadCleanup.SweepLoop | app/jobs/nomad_cleanup.py:42-50 | the loop: the turns for the deployments in list order, each with its own host choice, stopping at the first that raises |
| NomadCleanup.SweepLoopPrefix | app/jobs/nomad_cleanup.py:42-50 | the loop over i + 1 deployments is the loop over i followed, unless it raised, by turn i |
| NomadCleanup.SweepLoopFirst | app/jobs/nomad_cleanup.py:42-50 | the loop over one deployment is that deployment's turn |
| NomadCleanup.SweepLoopExtends | app/jobs/nomad_cleanup.py:42-50 | a completed prefix of the loop is extended by the next turn |
| NomadCleanup.SweepLoopEndsEarly | app/jobs/nomad_cleanup.py:42-50 | a raising turn ends the loop, whatever the later deployments would do |
| NomadCleanup.Sweep | app/jobs/nomad_cleanup.py:35-50 | `check_all_boxes`: a host-choice failure raises first; then one listing call, which raises `BaseNomadException` if listing fails; then the loop over the listed deployments |
| NomadCleanup.SweepStopsAtFirstRaise | app/jobs/nomad_cleanup.py:42-50 | once the turns up to k have raised, the loop's effects and outcome are fixed |
| NomadCleanup.SweepTurnLooksUp | app/jobs/nomad_cleanup.py:42-43 | a turn adds its own lookup and at most one deregistration |
| NomadCleanup.SweepExaminesInOrder | app/jobs/nomad_cleanup.py:42-43 | the sweep looks up a prefix of the deployments in list order and deregisters at most one job per lookup; a completed sweep looks up all of them |
| NomadCleanup.UnguardedCleansOnlyBoxed | app/jobs/nomad_cleanup.py:45-46 | with line 45 before the None check, as written or with `utcnow()` called, only a deployment with a Box is ever deregistered |
| NomadCleanup.UnguardedTurnCleansOnlyBoxed | app/jobs/nomad_cleanup.py:45-46 | with line 45 before the None check, a turn deregisters its deployment only if it has a Box |
| NomadCleanup.UnguardedStopsAtMissingBox | app/jobs/nomad_cleanup.py:43-49 | whatever the left operand of line 45, any deployment without a Box makes the sweep raise, so line 50 is unreachable |
| NomadCleanup.HostChoicesWellChosen | app/jobs/nomad_cleanup.py:12-13 | choosing a host raises only the DNS query failure or a discovery error |
| NomadCleanup.Stale | app/jobs/nomad_cleanup.py:42-50 | the intended rule, not the code: the stale deployments, in list order |
| NomadCleanup.IntendedTurn | app/jobs/nomad_cleanup.py:42-50 | an intended turn raises only from Nomad or host choice; a completed one adds its lookup and, if stale, its deregistration |
| NomadCleanup.IntendedSweepCleansStale | app/jobs/nomad_cleanup.py:42-50 | the intended loop raises only from Nomad or host choice; when it completes it has looked up every deployment and deregistered exactly the stale ones, in order, and scheduled no retry |
| NomadCleanup.AsWrittenSweepNeverCleansUp | app/jobs/nomad_cleanup.py:35-50 | the sweep as written never deregisters or schedules; it completes iff there is nothing to sweep; otherwise it raises at the first deployment |
| NomadCleanup.AsWrittenLoopStopsAtFirst | app/jobs/nomad_cleanup.py:42-45 | the loop as written raises at its first deployment after looking up only that one |
| NomadCleanup.Worker.DelBoxNomad | app/jobs/nomad_cleanup.py:30-31 | one deregistration call for the job; anything but acceptance raises BaseNomadException |
| NomadCleanup.Worker.CleanupOldNomadBox | app/jobs/nomad_cleanup.py:10-21 | the job's calls and outcome are those of `CleanupRun` for a host it may choose |
| NomadCleanup.Worker.CheckDeployment | app/jobs/nomad_cleanup.py:43-50 | one loop turn makes the calls of `SweepStep` and ends as it does |
| NomadCleanup.Worker.SweepDeployments | app/jobs/nomad_cleanup.py:42-50 | the loop makes the calls of `SweepLoop` and ends as it does, with one possible host per deployment |
| NomadCleanup.Worker.RunSweep | app/jobs/nomad_cleanup.py:35-50 | the sweep job makes the calls of `Sweep` and ends as it does |
| NomadCleanup.Worker.CheckAllBoxes | app/jobs/nomad_cleanup.py:34-50 | `check_all_boxes` as written adds no deregistration and no retry to the log; it completes iff a host was chosen and there are no deployments |
| NomadCleanup.Worker.CheckAllBoxesIntended | app/jobs/nomad_cleanup.py:35-50 | the intended sweep, when it completes, has deregistered exactly the stale deployments, in list order |
| NomadCleanup.SweepLoopOfThree | app/jobs/nomad_cleanup.py:42-50 | a loop over three deployments is their three turns, stopping at the first that raises |
| NomadCleanup.ExampleBoxLookups | app/jobs/nomad_cleanup.py:43 | A and B have rows and C has none |
| NomadCleanup.ExampleDecisions | app/jobs/nomad_cleanup.py:45-50 | at time 100, A is kept and B is cleaned up in both variants; C is cleaned up as intended but raises AttributeError as written |
| NomadCleanup.ExampleIntendedLoop | app/jobs/nomad_cleanup.py:42-50 | the intended loop over A, B, C looks up all three and deregisters B and C |
| NomadCleanup.ExampleStale | app/jobs/nomad_cleanup.py:45-50 | at time 100, B and C are the stale deployments |
| NomadCleanup.ExampleIntendedSweep | app/jobs/nomad_cleanup.py:35-50 | the intended sweep completes and deregisters B and C |
| NomadCleanup.ExampleAsWrittenSweep | app/jobs/nomad_cleanup.py:35-50 | as written the sweep raises TypeError at A and deregisters nothing |
| NomadCleanup.ExampleCalledUtcnowLoop | app/jobs/nomad_cleanup.py:42-50 | with `utcnow` called, the loop keeps A, deregisters B and raises AttributeError at C |
| NomadCleanup.ExampleCalledUtcnowDeregistrations | app/jobs/nomad_cleanup.py:42-50 | that sweep's log deregisters B alone |
| NomadCleanup.ExampleCalledUtcnowSweep | app/jobs/nomad_cleanup.py:35-50 | with `utcnow` called, the sweep deregisters B and raises AttributeError at C, which is never cleaned up |

## Left out

- Dns.Parse: every record of the first answer RRset is taken to be an SRV record. Line 41 reads `r.priority` on each of them, so an answer that starts with an RRset of another type would raise AttributeError there. That happens, for example, when a CNAME RRset precedes the SRV RRset for an aliased name. `Parse` and `ParseFailures` do not model this case.
- NomadCleanup.CleanupRun: a failed deregistration is taken to end the run with a `BaseNomadException`. Line 21 raises the class with no arguments, so Python first constructs it. Whether that construction succeeds depends on the Nomad client library, which is not part of this model. If its constructor requires an argument, the raise ends in TypeError instead. The log is the same either way: one deregistration, then one scheduled retry. Only the exception label differs, for `CleanupRun`, `Worker.CleanupOldNomadBox` and the sweep lemmas that use it.
- The resolver setup (`DNS_ADDR`, search domains, lines 10-15 of `dns.py`) and the query at line 77 are I/O. The answer comes in as a `Response` value, and a failed query is `DnsQueryFailed`.
- The message is not decoded from the wire: names are the text `to_text()` gives, and integers are unbounded.
- Dns.Service.WeightedChoice: the probability of each pick is not modelled, because that needs floating point. Only membership is proved, and a positive weight when the weights do not all vanish.
- Dns.Service.WeightedChoice: the model assumes `random.choices` always returns an entry; with all weights zero it may return any entry. Not modelled: Python 3.9 and later raise ValueError there, and the generator is then finished, so every later `next()` raises StopIteration. Dns.Service.Next, GetUrl, GetIp and GetPort therefore have no failure outcome.
- NomadCleanup.HostChoices: for the same reason, in production with all weights zero it yields the address of some endpoint, where Python 3.9 and later would raise.
- The `Q.job` decorators are not modelled: the queue names and the timeouts of the jobs themselves (60000 and 100000). A scheduled retry is recorded in the log and not run. `RetryChain` models the queue's later executions from the `Attempt`s it is given.
- `expire_running_box` (`nomad_cleanup.py` lines 24-27) only delegates to `BoxDeletionService`. That service is not part of this model.
- A Nomad failure other than a deregistration reply, such as listing raising, is one `BaseNomadException`. Connection errors are not distinguished.
- NomadCleanup.HostChoices: it also allows the address of any parsed endpoint, not only those with positive weight. Every production host choice in one run comes from the one DNS answer in `Env`; the source queries again each time.
- Each element `get_deployments` lists is taken to be the job id the loop uses it as. A Box row is reduced to its job id and its session end time in seconds.
- The `os.getenv` reads and the `discover_service("nomad")` query that choose the host (`nomad_cleanup.py` lines 12-15 and 36-39) are not entries of the `Worker` log. Only their result, the `Host`, is modelled.
- Both jobs run sequentially. Concurrent runs and the aliasing of the `srv` list that `entries()` returns are not modelled.

## Findings

| source | as written | input that shows it | evidently intended | confidence | as-written member | corrected member |
|---|---|---|---|---|---|---|
| app/jobs/nomad_cleanup.py:45 | `datetime.utcnow` is compared without being called, so the loop raises at its first deployment whatever it is: TypeError if that deployment has a Box, AttributeError if not. No later deployment is reached and nothing is ever cleaned up | deployments A, B, C; Box A ends at 200, B at 50, C has none: the sweep raises TypeError at A, deregistering nothing (`ExampleAsWrittenSweep`) | compare the current time `datetime.utcnow()`, so that expired sessions are deregistered (`ExampleIntendedSweep` deregisters B and C) | not executed | NomadCleanup.AsWrittenSweepNeverCleansUp | NomadCleanup.IntendedSweepCleansStale |
| app/jobs/nomad_cleanup.py:45-49 | `box_exist.session_end_time` is read before `not box_exist` is checked at line 49, so a deployment without a Box raises AttributeError and line 50 is unreachable | the same input with `utcnow()` called at time 100: B is deregistered, then the sweep raises AttributeError at C (`ExampleCalledUtcnowSweep`) | check for a missing Box first and clean up its orphaned job | not executed | NomadCleanup.UnguardedStopsAtMissingBox | NomadCleanup.IntendedSweepCleansStale |
