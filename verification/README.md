# NWarp: verified model

NWarp is an HTTP server with static files, a health-checked round-robin reverse proxy,
sandboxed WebAssembly handlers and hot reload of its routes. This project models the parts
of it where steps interleave, counters wrap, buffers move or one format is read back as
another, and proves what they guarantee, for every input and every run.

`dafny verify dfyconfig.toml` checks the whole project.

## The modules

| module | part of NWarp |
|---|---|
| Tickets, Upstreams, Balancer | the lock-free round robin: the wrapping counter, one task alone, any number of tasks against the health checker |
| Reload | startup, the configuration watcher, the two table swaps, checkers and requests, interleaved |
| Rounds | what whole runs of Reload do: the checkers' rounds, the tickets of a route and of a request, a missing file |
| Pool | the thread pool and its shutdown |
| Bits, Wasm | the host/guest interface of the example WASM module, over its 131072-byte memory |
| Requests, HeaderText, Forward | reading a request, and the request text forwarded upstream |
| Responses | writing a response, and taking an upstream's response apart |
| Configs, SettingsText, Routing, LoadOrder | the configuration file, reading printed settings and routes back, longest-prefix matching, and when the order of a hash map matters |
| StaticFiles, FrontEnds | static file resolution, and the decisions of the HTTP/1.1, HTTP/2 and HTTP/3 handlers |
| Results, Maps, Text, Arithmetic | vocabulary: optional values, map iteration order, the string operations of Rust's library, division |

Code that changes state in place is modelled by methods with loops and by classes
(`ProxyRoute`, `Instance`, `Response`, `BufReader`, `Sink`, ...), each proved against a
function on values. Protocols between tasks are state machines whose step is one atomic
operation; `Run(tr)` says that `tr` is a finite run of the machine from its initial state.

## What turned out not to hold

Where the code does not do what its comments or documentation say, the model follows the
code, a concrete input or run shows the difference, and the exact condition is proved.

- "If every target is unhealthy, none" (src/proxy/mod.rs:27-31, docs/ARCHITECTURE.md:182-184)
  cannot be read backwards: a call's tickets need not be consecutive. A failure means that
  every target is unhealthy exactly for routes with one target (`Balancer.NoFalseFailureIff`);
  `Balancer.FailsDespiteHealthyTarget` is a run for every other number of targets, and
  `Balancer.ProgressBehindFailure` shows that another call is then served by the healthy target.
- Even alone, a call at the wrap of the counter can miss a healthy target
  (`Upstreams.WrapHidesHealthyTarget`); it cannot exactly when `Tickets.Fits` holds
  (`Upstreams.LoneNoneIff`). The tickets stay fair for ever exactly when the number of targets
  divides 2^64 (`Tickets.FairForeverIff`).
- "Each request loads its own snapshot" (src/server/connection.rs:42-46,
  docs/ARCHITECTURE.md:281): the two tables are stored and loaded separately, so a request can
  see two generations (`Reload.RequestMayMixGenerations`), never more than one apart
  (`Reload.TableSkew`), and one generation exactly when no store of the wasm table, or just the
  pending one of a running swap, falls between its two loads (`Reload.SameGenerationIff`).
- A write between startup's load and the watcher's first look is not noticed
  (`Reload.StartupRaceIsMissed`), nor is one that repeats an earlier modification time
  (`Reload.SameTimeIsMissed`). For a given history of the file, a watcher that missed no write
  during startup converges in every run exactly when the last time is new
  (`Reload.HistoryConvergesIff`); when it is new, the watcher has converged exactly when it
  reloaded or missed no write during startup (`Reload.ReloadConvergesIff`).
- Writing `proxy_route  /x` with two spaces defines a second route with prefix `/x`, and then
  the iteration order of a hash map decides where requests go (`LoadOrder.IterationOrderMatters`,
  with the file of `LoadOrder.TwoSpellingsExample`). For which files it does not is proved for
  proxy routes (`LoadOrder.ProxyOrderIrrelevantIff`) and wasm routes
  (`LoadOrder.WasmOrderIrrelevantIff`).
- A request whose decoded path is empty or contains white space reaches the upstream as another
  request; `Forward.EncodedSpaceIsMisread` is one, `Forward.ForwardKeepsTargetIff` the exact
  condition.
- An upstream or module status outside 100 to 999 is answered on HTTP/1.1 and logged on all
  protocols, but HTTP/2 and HTTP/3 send nothing, because building the response panics
  (`FrontEnds.UnbuildableIsNotSent`); `FrontEnds.HandleOnAll` says exactly when they send.
- Decoding in pieces differs from decoding the whole exactly when an escape straddles the cut
  (`Requests.DecodeConcatIff`).
- A missing file is answered 403 instead of 404 exactly when the index file is configured as an
  absolute path outside the document root and asked for (`StaticFiles.MissingTarget`);
  `StaticFiles.MissingIndexIs403` is such a configuration file and request.
- The pool does not run every job it is given when enough of them panic
  (`Pool.PanicLosesJobs`): it does exactly when fewer of the jobs before the last one panic than
  there are workers (`Pool.DropRunsEverythingIff`).

## Model

| member | source | states |
|---|---|---|
| Tickets.SlotInWindow | src/proxy/mod.rs:38 | consecutive tickets go to targets in cyclic order, inside any window that the 2^64 wrap does not cut or when `n` divides 2^64 |
| Tickets.ShareExact | src/proxy/mod.rs:37-39 | the exact number of tickets that target `i` gets in such a window: the whole laps, and one more for the targets within the remainder |
| Tickets.FairWindow | src/proxy/mod.rs:37-39 | hence any two targets differ by at most one ticket |
| Tickets.FairForeverIff | src/proxy/mod.rs:37-39 | handing out tickets from zero stays fair at every length exactly when `n` divides 2^64 |
| Tickets.UnfairAfterWrap | src/proxy/mod.rs:38 | otherwise target 0 is two tickets ahead of the last target right after the first wrap |
| Tickets.LapReaches | src/proxy/mod.rs:27-39 | every target is reached within `n` consecutive tickets that fit |
| Tickets.LapInjective | src/proxy/mod.rs:27-39 | and none is reached twice |
| Tickets.CutLapSkips | src/proxy/mod.rs:38 | a lap cut by the wrap never reaches one named target |
| Tickets.CoversIff | src/proxy/mod.rs:27-39 | `n` consecutive tickets reach all targets exactly when the lap fits |
| Upstreams.ProbeFindsFirst | src/proxy/mod.rs:37-44 | a probe sequence returns the target of the first ticket that meets a healthy one and draws exactly that many tickets; it fails only after drawing all of them in vain |
| Upstreams.ProbeStopsAt | src/proxy/mod.rs:37-44 | the converse: the first healthy ticket within reach is the one that is picked |
| Upstreams.LoneNoneIff | src/proxy/mod.rs:27-45 | for a task alone, "none" means that every target is unhealthy, whatever the flags are, exactly when the lap is not cut by the wrap |
| Upstreams.LoneNone | src/proxy/mod.rs:27-45 | the same for given flags: none exactly when all are unhealthy |
| Upstreams.WrapHidesHealthyTarget | src/proxy/mod.rs:38 | three targets and the counter one step before its wrap: the only healthy target is not found |
| Upstreams.PicksAreHits | src/proxy/mod.rs:32-45 | successive picks return the healthy tickets of the window in order, skipping none |
| Upstreams.LapHitsDistinct | src/proxy/mod.rs:32-45 | one lap meets no healthy target twice |
| Upstreams.LapHitsAll | src/proxy/mod.rs:32-45 | one lap meets exactly the healthy targets |
| Upstreams.HealthyRoundRobin | src/proxy/mod.rs:32-45 | with `h` healthy targets, any `h` picks in a row are a permutation of the healthy set |
| Upstreams.UpstreamTarget.constructor | src/proxy/mod.rs:65-70 | a target starts healthy |
| Upstreams.ProxyRoute.constructor | src/proxy/mod.rs:57-76 | one fresh, healthy target per configured upstream, in order, pairwise distinct, and the counter at zero |
| Upstreams.ProxyRoute.FetchAdd | src/proxy/mod.rs:38 | returns the old counter and wraps at 2^64 |
| Upstreams.ProxyRoute.PickUpstream | src/proxy/mod.rs:32-45 | the loop returns the address of the target that the probe specification names and advances the counter by exactly the tickets drawn, wrapping |
| Upstreams.ProxyRoute.CheckTargets | src/proxy/mod.rs:108-113 | after one round of checks the flags are the results of the connection attempts; the counter is untouched |
| Balancer.InvStep | src/proxy/mod.rs:32-45 | every atomic step of any task keeps: counter = tickets drawn mod 2^64, every ticket names the target of its number and belongs to exactly the call that drew it, a call's tickets increase, all but its last missed, and its result is what its last ticket found |
| Balancer.InvRun | src/proxy/mod.rs:32-45 | so it holds in every reachable state, for any number of calls and any interleaving |
| Balancer.HealthStep | src/proxy/mod.rs:110-111 | a flag changes exactly in a check that stores another value, which is possible at any time and touches nothing else; requests never change one |
| Balancer.PickedIsHit | src/proxy/mod.rs:37-42 | the number of calls that returned target `i` is the number of tickets that found `i` healthy |
| Balancer.PicksFollowTickets | src/proxy/mod.rs:32-45 | while target `i` stays healthy, in every reachable state each of its tickets is a finished pick or a load still to run; nothing is assumed about other flags or failing calls |
| Balancer.FairBetweenQuietStates | src/proxy/mod.rs:32-45 | between two states with no load outstanding, targets that stayed healthy were picked exactly as often as they had tickets, and equally often up to one when the window fits |
| Balancer.PendingOwner | src/proxy/mod.rs:38-40 | a ticket whose load has not run is the last one of a call whose next step is that load |
| Balancer.HitOwner | src/proxy/mod.rs:40-42 | a ticket that found its target healthy belongs to a call that returned that target |
| Balancer.OutcomesSince | src/proxy/mod.rs:38-42 | tickets drawn while a flag is constant find that flag |
| Balancer.ProgressBehindFailure | src/proxy/mod.rs:27-45 | if a call fails although target `i` was healthy throughout, another task drew the ticket for `i` strictly between the call's first and last ticket and returns `i`, or is about to |
| Balancer.ServedLoadReturns | src/proxy/mod.rs:40-42 | that pending load returns `i` if `i` is still healthy when it runs |
| Balancer.UninterruptedIsAlone | src/proxy/mod.rs:32-45 | a call whose tickets are consecutive, under constant flags, has the result and the number of tickets of the same call run alone |
| Balancer.UninterruptedFailsIff | src/proxy/mod.rs:27-45 | and so fails exactly when every target is unhealthy; the case of a call that no other call interrupts |
| Balancer.FailureRulesOut | src/proxy/mod.rs:37-44 | a failed call, under constant flags and any interleaving, proves unhealthy each target that its tickets name, and it has as many tickets as there are targets |
| Balancer.FailureNamingAll | src/proxy/mod.rs:37-44 | so a failure is sound whenever the call's tickets name every target, however they were interleaved |
| Balancer.NoFalseFailureIff | src/proxy/mod.rs:27-45 | over all runs with `n` targets: a failure under constant flags means that every target is unhealthy exactly when `n` is at most 1; for more targets `n + 2` tickets, far from any wrap, already break it |
| Balancer.WaitFree | src/proxy/mod.rs:37-44 | an unfinished call always has a step of its own that brings it closer to its end, within two steps per target; no step of another task or of the checker delays it or changes its result |
| Balancer.FailsDespiteHealthyTarget | src/proxy/mod.rs:32-45 | for every number of targets above one, a run with target 0 healthy throughout and a call that fails |
| Reload.InvStep | src/server/listener.rs:17-68 | every step of startup, watcher, checkers, requests or a writer of the file keeps the invariant that ties the published generations, the checkers, the flags and what requests hold to one another |
| Reload.InvRun | src/server/listener.rs:17-68 | so it holds in every reachable state |
| Reload.CheckerGoesOn | src/proxy/mod.rs:106-113 | in every such state each checker can make its next probe, with either result |
| Reload.RequestGoesOn | src/proxy/mod.rs:37-44 | in every such state each unfinished request has its next step, and can match any route of the table it loaded: no step is cut off by its guard |
| Reload.TableSkew | src/server/listener.rs:174-175 | the published proxy table is the generation of the published wasm table or the next one, and a request's wasm table is at most one generation older than its proxy table |
| Reload.SameGenerationIff | src/server/connection.rs:65-94 | a request holds the tables published at its two loads; they are of one generation exactly when the number of wasm stores between the loads is none, or one if the first load fell between the two stores of a swap |
| Reload.ProxyKept | src/server/connection.rs:65-67 | the proxy table of a request never changes once loaded, whatever is reloaded |
| Reload.UpstreamFromOwnTable | src/server/connection.rs:65-67 | an upstream picked by drawing tickets and loading flags, with reloads in between, is a target of the matched route of the one proxy table that was published when the request loaded it, and that route is one of the file version the table was built from |
| Reload.PickedIsHealthy | src/proxy/mod.rs:38-42 | the load after a draw picks the drawn target exactly when its latest probe succeeded or it was not probed yet |
| Reload.CheckerOwnership | src/server/listener.rs:166-174 | every table with routes that a request holds or can load has exactly one checker; a flag is true until probed and the latest result afterwards; only checkers of that table probed its targets |
| Reload.FlagWriter | src/proxy/mod.rs:101-117 | a flag changes only in a probe of that very target by a checker of its own generation |
| Reload.CheckersAccumulate | src/server/listener.rs:166-172 | checkers are never stopped: their number is the number of generations with routes served so far, and never decreases |
| Reload.ReloadConvergesIff | src/server/listener.rs:144-181 | when the remembered time is that of the file on disk and new in its history, both published tables are those of the file exactly when there was a reload or no write between the load at startup and the first look |
| Reload.HistoryConvergesIff | src/server/listener.rs:144-181 | for every history of the file: in every run that ends with it, missed no write during startup and sees nothing new, both tables are those of the last version, exactly when no earlier version has its modification time |
| Reload.PublishedVersionBounds | src/server/listener.rs:144-181 | at the loop head the published version is at least the one last looked at after a reload, at most the one first looked at before any, and never beyond the disk |
| Reload.ReloadCycle | src/server/listener.rs:149-175 | an undisturbed pass over a changed file ends with both tables built from it and the invariant intact |
| Reload.StartupRaceIsMissed | src/server/listener.rs:144 | for any writes during startup, a run in which they stay unpublished although the remembered time is that of the file |
| Reload.SameTimeIsMissed | src/server/listener.rs:154-156 | for any history that repeats an earlier time, a run with undisturbed startup in which the last version stays unpublished |
| Reload.RequestMayMixGenerations | src/server/connection.rs:65-94 | a run in which one request loads the new proxy table and the old wasm table |
| Rounds.PlacesInOrder | src/proxy/mod.rs:108-109 | the places of a table are its targets, route by route and target by target, each route followed by the first target of the next |
| Rounds.CheckerGoesRound | src/proxy/mod.rs:106-115 | in every run, the j-th probe that a checker made is at place j modulo N of its table of N targets: it starts at the first target of the first route, visits them in order, and starts again after the last |
| Rounds.EveryTargetInEveryRound | src/proxy/mod.rs:106-115 | hence any N probes in a row of one checker probe every target of every route, exactly once |
| Rounds.TicketsGoRound | src/proxy/mod.rs:37-39 | in every run, the tickets drawn from one route of one table, by all requests together, are its targets in cyclic order, and its counter is their number modulo 2^64 |
| Rounds.TicketsOfRequest | src/proxy/mod.rs:32-45 | in every run, a request that is told there is no upstream drew exactly as many tickets as its route has targets; one that got an upstream drew no more and got that of its last ticket |
| Rounds.LeavesHeadIff | src/server/listener.rs:149-157 | whatever step is taken, the watcher leaves its loop head exactly when it looks and finds a file whose time is not the remembered one; it then remembers that time |
| Rounds.MissingKeepsTables | src/server/listener.rs:149-152 | over any stretch of a run in which the file is missing, with the watcher at its loop head at the start, the watcher and both published tables stay as they are |
| Pool.InvStep | src/server/pool.rs:30-38 | every step keeps: at most one worker inside `recv`, started jobs followed by queued jobs are the sent jobs in order, every start is running, finished or panicked, workers exit only when the channel is closed and empty, joins go in order |
| Pool.InvRun | src/server/pool.rs:22-50 | so it holds in every reachable state, and the number of workers never changes |
| Pool.EachJobOnceInOrder | src/server/pool.rs:22-58 | jobs start in the order they were given, each at most once; each started job is on exactly one worker, or finished, or panicked, exactly once; there are max(size, 1) workers |
| Pool.IdleWorkerTakesJob | src/server/pool.rs:31-37 | a queued job and an idle worker imply that some worker can take the lock or the job |
| Pool.NoDeadlock | src/server/pool.rs:62-70 | after the sender is dropped some thread can always move until `Drop` is done |
| Pool.ShutdownShrinks | src/server/pool.rs:62-70 | every step after that decreases a measure |
| Pool.ShutdownTerminates | src/server/pool.rs:62-70 | so a run has at most as many steps after the sender is dropped as the measure says |
| Pool.StuckMeansDone | src/server/pool.rs:62-70 | a shutdown that cannot move is complete: every thread is joined |
| Pool.DropStopsEverything | src/server/pool.rs:62-70 | when `Drop` returns no thread is left and every started job has finished or panicked, exactly once |
| Pool.LossMeansAllDied | src/server/pool.rs:52-70 | if then some job given to `execute` was not started, every single worker died of a panic |
| Pool.DropRunsEverythingIff | src/server/pool.rs:22-70 | for the set of jobs that panic: every job ever given to `execute`, also one offered after the last worker died, has run exactly once, exactly when fewer of the jobs before the last one panic than there are workers |
| Pool.SomeFaults | src/server/pool.rs:35-37 | every run is a run for some such set of jobs |
| Pool.DropWithoutPanics | src/server/pool.rs:52-70 | without panics all jobs have finished, each once |
| Pool.PanicLosesJobs | src/server/pool.rs:35-59 | a run with one worker and three jobs: the first panics, the second stays in the queue, the third never gets there |
| Bits.OrDisjoint | wasm/hello.wat:60-63 | or-ing bits below position `k` into a multiple of 2^k adds them |
| Bits.AndMask | src/wasm/mod.rs:133 | masking with 2^k - 1 is the remainder modulo 2^k |
| Bits.OrIsSum | wasm/hello.wat:60-63 | the packed bit pattern is pointer * 2^32 + length, for all 32-bit values |
| Bits.UnpackInvertsPack | src/wasm/mod.rs:132-133 | the host recovers pointer and length from every packed value; the i64 is negative exactly when the pointer has its top bit set |
| Wasm.Instance.constructor | wasm/hello.wat:18-22 | a fresh memory of two pages with the greeting at 0 and zeros elsewhere, the heap at 4096 |
| Wasm.Instance.Alloc | wasm/hello.wat:24-29 | returns the heap pointer and advances it with 32-bit wrap-around, unchecked |
| Wasm.Instance.Store | wasm/hello.wat:45 | a store happens entirely or traps, exactly at the memory bound |
| Wasm.Instance.Copy | wasm/hello.wat:48-58 | `memory.copy` as in section 4.4.7 of the WebAssembly Core Specification 2.0: bounds first, then as if through a buffer |
| Wasm.Instance.Handle | wasm/hello.wat:31-64 | the guest's `handle`: whether it traps, the memory it leaves, and the packed result, for any arguments |
| Wasm.Instance.Place | src/wasm/mod.rs:114-126 | the host's alloc-then-write: fails exactly when the block does not fit in memory |
| Wasm.Instance.ReadResponse | src/wasm/mod.rs:132-147 | fails exactly when the response is shorter than 2 bytes or not inside memory, and says which; status and body are those at the packed place |
| Wasm.Instance.CallHandle | src/wasm/mod.rs:128-147 | with the path in place, succeeds exactly when the response fits, and gives 200 and greeting ++ path |
| Wasm.Invoke | src/wasm/mod.rs:92-148 | end to end for every method of m bytes and path of p bytes: Ok exactly when 4096 + m + 2p + 53 <= 131072, and then status 200 and the literal greeting followed by the path |
| Wasm.HandleResponse | wasm/hello.wat:39-58 | the three writes of `handle` leave status, greeting and path side by side, when the path lies before the new block |
| Wasm.BothPlaced | src/wasm/mod.rs:114-126 | writing method and path keeps the greeting intact and the path readable |
| Wasm.AllocFits | wasm/hello.wat:24-29 | blocks whose sizes fit in the address space are disjoint and above the first pointer |
| Wasm.AllocDisjointIff | wasm/hello.wat:22-29 | the blocks handed out by a fresh instance are disjoint, in the address space and above the data exactly when the sizes total at most 2^32 - 4096 |
| Requests.HexPair | src/http/request.rs:69-70 | two characters as a byte below 256, as `u8::from_str_radix` reads them: a leading `+` counts, `%` never does |
| Requests.HexDigitIs | src/http/request.rs:69-70 | a character is a hex digit exactly when it is one of the sixteen, in either case, and then with its value |
| Requests.HexPairIs | src/http/request.rs:69-70 | two hex digits are 16 times the first plus the second; a plus sign in front of a digit is that digit; nothing else is read |
| Requests.PercentDecodeLoop | src/http/request.rs:63-81 | the index loop computes the recursive decoder |
| Requests.PercentDecode | src/http/request.rs:63-81 | never lengthens its input |
| Requests.DecodeInverts | src/http/request.rs:62-81 | decoding inverts every encoding that escapes at least `%`, in either case of hex digits, however other characters are escaped |
| Requests.DecodeEncode | src/http/request.rs:62-81 | in particular the encoder of section 2.1 of RFC 3986 for every set of kept characters without `%` |
| Requests.DecodeConcatIff | src/http/request.rs:67-79 | decode(a ++ b) = decode(a) ++ decode(b) exactly when no escape straddles the cut |
| Requests.DecodeConcatSafe | src/http/request.rs:67-79 | in particular when neither of the last two characters of a is `%` |
| Requests.DecodeStraddled | src/http/request.rs:67-79 | a straddled escape makes the whole two characters shorter than the parts |
| Requests.Sanitize | src/http/request.rs:53-60 | the result never contains `..`, and is `/` or no longer than the input |
| Requests.QueryIsCut | src/http/request.rs:53-55 | for every path without `?` and every query: the query is cut off before anything else |
| Requests.SanitizeIs | src/http/request.rs:53-60 | for every path without `?`: the decoded path, or `/` exactly when two adjacent characters of it are dots |
| Requests.EmptyRequestLine | src/http/request.rs:25-28 | a blank request line is read as an empty verb, path `/` and HTTP/1.1 |
| Requests.VerbOnly | src/http/request.rs:25-28 | a lone verb is read with path `/` and HTTP/1.1 |
| Requests.VerbAndPath | src/http/request.rs:25-28 | verb and path, apart by any white space, are read with HTTP/1.1 |
| Requests.ThreeTokens | src/http/request.rs:25-28 | verb, path and version are the first three tokens; what follows is ignored |
| Requests.ColonlessIgnored | src/http/request.rs:37 | a header line without a colon adds nothing |
| Requests.SpacesEndHead | src/http/request.rs:34-36 | a line of white space, or the end of the input, ends the head |
| Requests.BufReader.ReadLine | src/http/request.rs:22-33 | takes exactly the first line with its line feed; fails exactly when the connection breaks before the line ends or the line is not UTF-8 |
| Requests.ReadHeaders | src/http/request.rs:30-40 | the loop over the reader collects the headers that the recursive specification names, or fails exactly when a line up to the blank one cannot be read |
| Requests.Parse | src/http/request.rs:18-48 | the reader-based parser computes the specification `ParseRequest`, whose request line, headers and path the rows around this one state, and fails exactly when the head cannot be read |
| Requests.BadRequestLineFails | src/http/request.rs:22-24 | a request line that is not UTF-8 or is cut off by a broken connection fails; otherwise the headers decide |
| Requests.BadLineFails | src/http/request.rs:31-33 | after any complete header lines, a line that is not UTF-8 fails the request |
| Requests.CutHeadFails | src/http/request.rs:31-33 | after any complete header lines, a connection that breaks before the blank line fails the request |
| Requests.CompleteHeadReads | src/http/request.rs:31-36 | a head of complete header lines with its blank line never fails, whatever follows or breaks afterwards |
| Requests.ClosedNeverFails | src/http/request.rs:30-36 | on a connection that is closed rather than broken, UTF-8 input never fails, however it is cut |
| Requests.HeadSuffices | src/http/request.rs:18-48 | a request accepted before the connection breaks is final: any further bytes would leave it as it is |
| Requests.ParsedHeadersOk | src/http/request.rs:31-40 | names are lower-case, trimmed and colon-free, values trimmed, nothing contains a line feed |
| Requests.ParsedRequestOk | src/http/request.rs:18-60 | for every input: the headers are so, the verb is one token, the path has no `..`, and an empty verb comes with path `/` |
| HeaderText.ReadHeaderLine | src/http/request.rs:31-39 | reading a written header line adds exactly that header, trimmed and lower-cased, whatever follows |
| HeaderText.ReadBlankLine | src/http/request.rs:34-36 | the blank line ends the block, whatever follows |
| HeaderText.ReadNamedLine | src/http/request.rs:37-39 | a header line of known name is read under its lower-case name |
| HeaderText.PaddedValue | src/http/request.rs:37-38 | blanks and tabs around a value, and a carriage return, are removed; a later line overrides an earlier one of that name |
| HeaderText.LowerAlphabet | src/http/request.rs:38 | names are lowered letter by letter over the Latin alphabet, other characters kept |
| Forward.BuildRequestText | src/proxy/mod.rs:149-159 | the text pushed piece by piece, in any iteration order of the headers and without those named host or connection, is the specified request text |
| Forward.ReadHeaderLines | src/proxy/mod.rs:153-158 | the forwarded lines, in any order, read back as exactly the headers other than host and connection |
| Forward.ReadOwnLines | src/proxy/mod.rs:149-152 | the proxy's three lines read back as its three headers |
| Forward.GoodStartTail | src/proxy/mod.rs:150-151 | a verb, a path and a version that are single tokens are read back unchanged |
| Forward.BadStartLine | src/proxy/mod.rs:150-151 | with an empty path or white space in it, the upstream reads another raw path |
| Forward.ForwardKeepsTargetIff | src/proxy/mod.rs:149-159 | for every request this server can read and every header order: the upstream finds the same verb and path exactly when verb and path are non-empty and the path is white-space-free and fixed by `sanitize_path` |
| Forward.ForwardRoundTrip | src/proxy/mod.rs:149-159 | and then the whole request it reads is: same verb and path, and {host: address, x-forwarded-for: peer, connection: close} overridden by the client's headers other than host and connection |
| Forward.ForwardedHeaders | src/proxy/mod.rs:149-159 | so the upstream reads the proxy's host and connection, never the client's, the peer address unless the client sent its own x-forwarded-for, and every other header of the client unchanged |
| Forward.EncodedSpaceIsMisread | src/proxy/mod.rs:149-152 | a request for `/a%20b` is read as path `/a b`, and the upstream reads another verb or path |
| Forward.SpacedInputText | src/http/request.rs:25-28 | the text of that request |
| Responses.Sink.WriteAll | src/proxy/mod.rs:183 | all bytes are written, or a prefix up to the point of failure |
| Responses.Response.constructor | src/http/response.rs:12-20 | a fresh response is empty plain text |
| Responses.Response.Page | src/http/response.rs:26-54 | the error constructors: the given status and text with an HTML body |
| Responses.Response.SetHtmlBody | src/http/response.rs:56-59 | replaces body and type, nothing else |
| Responses.Response.SetBody | src/http/response.rs:61-64 | replaces body and type, nothing else |
| Responses.Response.Send | src/http/response.rs:68-85 | the bytes on the wire are the serialized response, or a prefix of it when the client stops accepting; it succeeds exactly when all was accepted and flushed |
| Responses.SerializeText | src/http/response.rs:69-83 | the serialized response, literally: status line, the four headers in order, the blank line, the body |
| Responses.FindBlank | src/proxy/mod.rs:203-207 | the first CR LF CR LF, and none only if there is none |
| Responses.SplitBody | src/proxy/mod.rs:203-208 | the body is what follows the first blank line |
| Responses.NoBlankNoBody | src/proxy/mod.rs:203-208 | and empty if there is no blank line |
| Responses.StatusOr502 | src/proxy/mod.rs:218-225 | the status is the second token of the first line if that is a 16-bit number, and 502 otherwise |
| Responses.StatusMissing | src/proxy/mod.rs:218-225 | and 502 if the first line has fewer than two tokens |
| Responses.BlankSkipsLine | src/http/response.rs:69-81 | a header line followed by another contains no blank line |
| Responses.SerializeHead | src/http/response.rs:68-84 | the first blank line of a response is the end of its head, and what follows is the body |
| Responses.ResponseRoundTrip | src/proxy/mod.rs:201-210 | for every 16-bit status, every body, and line-feed-free text, server name and type: splitting the sent bytes gives back exactly that status and body |
| Responses.ResponseHeaders | src/http/response.rs:69-81 | a header reader finds exactly the four headers, and Content-Length is the decimal length of the body |
| Routing.MatchIsBest | src/proxy/mod.rs:81-86 | the match is the last of the longest matching prefixes, and there is none only if no prefix matches |
| Routing.OrderIrrelevantIff | src/proxy/mod.rs:81-86 | permuting the table changes the match of no path exactly when equal prefixes mean equal routes |
| Routing.SameRoutesSameMatch | src/wasm/mod.rs:44-49 | tables with the same routes, in any order and multiplicity, give the same match |
| Routing.SameTableSameMatch | src/wasm/mod.rs:44-49 | in particular permutations of one table |
| Routing.LaterDuplicateWins | src/proxy/mod.rs:85 | of two routes with one prefix the later one is matched |
| Routing.BuildWasmTable | src/wasm/mod.rs:24-42 | the loop keeps, in order, the routes whose module loads |
| Routing.LoadedMatch | src/wasm/mod.rs:24-49 | a path is matched by the longest prefix among the loadable routes, so a module that fails to load takes no path from another route |
| Configs.ParseKv | src/config/mod.rs:164-179 | the loop over the lines builds the settings of all lines, later lines overriding earlier ones |
| SettingsText.OneKeyOneField | src/config/mod.rs:82-134 | setting a key changes no field but its own, and no field if it is none of the fourteen keys |
| SettingsText.CommentIgnored | src/config/mod.rs:166-169 | a line whose first visible character is `#` defines nothing |
| SettingsText.NoEqualsIgnored | src/config/mod.rs:171 | neither does a line without `=` |
| SettingsText.QuotesRemoved | src/config/mod.rs:171-175 | a value in double quotes is read without them |
| SettingsText.UpstreamsRead | src/config/mod.rs:139-149 | a list of upstreams is read without the blanks around each and without empty pieces, in order; if none is left there is no route |
| SettingsText.WasmRouteReads | src/config/mod.rs:153-157 | a printed wasm route is read back as that prefix and file |
| SettingsText.NumberReads | src/config/mod.rs:85-134 | a decimal is read, with a plus sign too, if it is in range; otherwise, or with a non-digit after the first character, the default stays |
| SettingsText.ZeroIsOne | src/config/mod.rs:99-134 | a zero worker count, check interval or check timeout becomes 1; other values are kept |
| SettingsText.FlagReads | src/config/mod.rs:110-112 | a flag is set exactly by `1` and by `true` in any case |
| SettingsText.ShownIsRead | src/config/mod.rs:82-134 | each field of a configuration is read from the key under which it is shown, numbers and flags included |
| SettingsText.SettingsRoundTrip | src/config/mod.rs:164-179 | any settings whose keys and values survive trimming can be printed in any order and are read back exactly |
| SettingsText.ConfigFieldsRoundTrip | src/config/mod.rs:61-134 | printing every field of a configuration, in any order, and loading the text gives every field back |
| Configs.LoadProxyRoutes | src/config/mod.rs:139-150 | the loop over the map, in any iteration order, collects the routes of the settings |
| Configs.LoadWasmRoutes | src/config/mod.rs:153-157 | likewise for wasm routes, whose routing `LoadOrder.WasmOrderIrrelevantIff` is about |
| Configs.Load | src/config/mod.rs:61-160 | defaults without a readable file, otherwise the settings of the file; in every case worker count and check times are at least 1, ports are 16-bit, the server name has no line feed, and every route has an upstream |
| Configs.SettingsClean | src/config/mod.rs:164-179 | no key or value contains a line feed |
| Configs.ReadSettingLine | src/config/mod.rs:166-176 | a line `k = v` is read as exactly that setting, for every trimmed key without `=` and trimmed value without quotes at its ends |
| Configs.SettingsOfText | src/config/mod.rs:164-179 | a text of lines gives the settings of these lines, also with carriage returns at their ends |
| Configs.ReadRouteLine | src/config/mod.rs:166-176 | a printed route line is read as one setting, unchanged by trimming and quote removal |
| Configs.ReadRoute | src/config/mod.rs:139-149 | and that setting gives the route back |
| Configs.SettingsKnow | src/config/mod.rs:164-179 | after any lines of a document the settings hold exactly its routes, beside anything else |
| Configs.ConfigRoundTrip | src/config/mod.rs:139-179 | printing routes with distinct prefixes and loading the text gives the same routes up to order, in every iteration order, with comments, blank lines and other settings anywhere |
| Configs.ConfigRouting | src/config/mod.rs:139-157 | hence every path is routed as the printed routes say |
| LoadOrder.FixedIffAgree | src/config/mod.rs:139-157 | for any keys that define routes: the order in which they are collected affects the match of no path exactly when keys that define routes with one prefix define one route |
| LoadOrder.ProxyOrderIrrelevantIff | src/config/mod.rs:139-150 | for all settings: the iteration order of the map affects the proxy routing of no path exactly when settings that define routes with one prefix define the same route |
| LoadOrder.WasmOrderIrrelevantIff | src/config/mod.rs:153-157 | for all settings and modules: it affects the wasm routing of no path exactly when settings that define loadable routes with one prefix name equal modules |
| LoadOrder.TwoSpellings | src/config/mod.rs:164-176 | a file with one prefix written with one and with two spaces loads as two keys |
| LoadOrder.IterationOrderMatters | src/config/mod.rs:139-150 | and then the two iteration orders of its settings route that prefix to different upstreams |
| LoadOrder.TwoSpellingsExample | src/config/mod.rs:136-150 | the text of such a file |
| StaticFiles.Serve | src/http/router.rs:12-49 | the steps over the file system give the specified answer |
| StaticFiles.OtherMethodIs405 | src/http/router.rs:13-17 | 405 exactly for methods other than GET and HEAD |
| StaticFiles.LeadingSlashes | src/http/router.rs:19 | slashes in front of a path make no difference |
| StaticFiles.RootServesIndex | src/http/router.rs:19-22 | a path of slashes only is answered as the index file |
| StaticFiles.DirectoryServesIndex | src/http/router.rs:24-33 | a path that names a directory is answered as the index file inside it |
| StaticFiles.FileIsServed | src/http/router.rs:35-48 | a path that names a file inside the root is answered 200 with its content and the media type of its name |
| StaticFiles.ExtensionIs | src/http/router.rs:62-63 | the extension of a name is what follows its last dot, unless nothing precedes that dot |
| StaticFiles.ServedFromInside | src/http/router.rs:35-60 | 200 exactly when the named path resolves to a file whose canonical path extends the canonical root by components, and then with that file's content |
| StaticFiles.MissingTarget | src/http/router.rs:51-60 | a target that does not resolve is answered 404, and 403 exactly when an absolute index file outside the root is what was asked for |
| StaticFiles.MissingIs404 | src/http/router.rs:51-60 | never 403 with a relative index file |
| StaticFiles.MissingIndexIs403 | src/http/router.rs:19-38 | with the configuration file `index = /index.html`, a request for `/` is answered 403 on any file system without that file |
| StaticFiles.ParsedIsNeverForbidden | src/http/router.rs:35-38 | on a file system without symbolic links and with a relative index file, no request that the server can read is ever answered 403 |
| StaticFiles.MimeClean | src/http/router.rs:62-80 | no file name puts a line feed into the response head |
| StaticFiles.StaticAnswerClean | src/http/router.rs:12-49 | every static answer has a clean head and status 200, 403, 404 or 405 |
| FrontEnds.Relay | src/proxy/mod.rs:174-187 | the client gets the upstream's bytes, or a prefix; the status is returned exactly when it took and flushed all of them |
| FrontEnds.SendError | src/server/connection.rs:71-88 | an error page of the given status and text is sent and logged once |
| FrontEnds.SendUpstreamError | src/server/connection.rs:71-88 | NotConnected is answered and logged as 503 Service Unavailable, any other error as 502 Bad Gateway |
| FrontEnds.HandleProxied | src/server/connection.rs:66-91 | relays, or answers 503 for NotConnected and 502 otherwise; after a relay that the client did not take, the error page can only follow bytes that were already sent |
| FrontEnds.HandleModule | src/server/connection.rs:95-114 | the module's answer, or 500 |
| FrontEnds.HandleH1 | src/server/connection.rs:47-123 | proxy routes before wasm routes before files; the bytes on the wire and the one log entry, for every point at which the client may stop accepting and for a failing flush |
| FrontEnds.HandleConnection | src/server/connection.rs:55-63 | the same from the bytes of the connection; a request that cannot be read is answered with the 500 page and not logged as an access |
| FrontEnds.SendH2 | src/http2/mod.rs:150-174 | headers with the content length, then data; nothing if the status cannot be built, and no more than the client takes |
| FrontEnds.SendH3 | src/http3/mod.rs:197-217 | headers without content length, then data, under the same conditions |
| FrontEnds.HandleH2 | src/http2/mod.rs:63-131 | the same decision, logged and sent on h2 |
| FrontEnds.HandleH3 | src/http3/mod.rs:114-178 | the same decision, logged and sent on h3 |
| FrontEnds.WireIsMessage | src/server/connection.rs:71-118 | everything that HTTP/1.1 sends and did not relay is a serialized response with a clean head and the decision's status |
| FrontEnds.WireSplits | src/http2/mod.rs:79-130 | the bytes of the HTTP/1.1 answer split into the status that the decision has on h2 and h3, and into its body there unless the server reports an error of its own |
| FrontEnds.OutcomeIs | src/server/connection.rs:65-117 | a matching proxy route decides first, then a matching wasm route, then the files |
| FrontEnds.HandleOnAll | src/http2/mod.rs:79-130 | the three handlers on one request and one world. h2 and h3 log one status, and HTTP/1.1 the same unless its client fails during a relay, then 503 or 502 by that failure. The status is that of the upstream's, module's or file's answer, and literally 503 for no healthy upstream, 502 for another upstream error, 500 for a module error. If the HTTP/1.1 client takes everything, its bytes split into that status and, if the server has an answer, into that answer; h2 and h3 send headers with that status exactly when it is 100 to 999 and the client takes them, and the data they send is the body of the split |
| FrontEnds.PhrasesAgree | src/server/connection.rs:128-142 | the reason phrases of the static answers and of the 500 page are the ones of the status table |
| FrontEnds.UnbuildableIsNotSent | src/http2/mod.rs:157-163 | an upstream status outside 100 to 999 is relayed on HTTP/1.1, logged, and not sent on h2 and h3 |

## Left out

- TLS, QUIC, ALPN, HTTP/2 and HTTP/3 framing, sockets, binding and accept loops: external crates and the operating system; what the upstream and the client's connection do is an input.
- Timeouts, sleep durations and scheduling: any step may happen at any time.
- Memory orderings weaker than one total order for each atomic variable.
- Reload and Pool are state machines on values, not classes: several tasks share the state, and a method would run to its end without interleaving.
- Reload leaves open which route of the loaded table a path matches (that is in Routing), how long a checker pauses, and the addresses it connects to.
- Loading the file in Reload is one step: the existence test and the read are not separated.
- Unicode: characters stand for bytes, white space and lower case are those of ASCII, which lines are UTF-8 is an input, and the lossy conversion after percent decoding is left out.
- `strip_scheme`: the forwarded address is taken after the scheme has been removed.
- Other WASM modules than the example, and the start-up errors of an instance: they are results that FrontEnds takes as input.
- The media type of each extension and the reason phrase of each status: these two tables are copied, and no lemma repeats them entry by entry.
- The wording of HTML pages and of the short h2 and h3 error bodies, the error log and the JSON form of the log.
- Header values that the `http` crate refuses, such as a server name with control characters, and its handling of 1xx statuses.
- The file system is fixed during a request, and a path that cannot be resolved cannot be read.
- Wasm.Invoke: is stated for the example module only, which is the one whose exports are known.
- FrontEnds.HandleOnAll: compares requests that are already parsed, because the h2 and h3 handlers do not sanitize paths.
- Chunked or other transfer codings of upstream responses: the code does not decode them.
- Command line, packaging, install scripts and the default site.
