# Verified model of the Sui CTF orchestrator

The orchestrator hands each player a private Sui network in a Docker container, takes it
away when its time is up, and releases a flag once the challenge is solved on it. This
project models that behaviour in Dafny and proves what it guarantees. Checking it needs
only `dafny verify dfyconfig.toml`.

## How the model is laid out

| file | models |
|---|---|
| `Registry.dfy`, `Docker.dfy`, `Configuration.dfy` | the shared state: the instance table, the container fleet, settings and derived names |
| `Lifecycle.dfy` | spawns, kills, the reaper and restarts as interleaved tasks: `State`, `Step`, `Enabled`, `Next`, `Benign`, `Run` |
| `Ownership.dfy` | what one step can do, and the invariant every step keeps with no assumption at all |
| `Caps.dfy`, `CapBreach.dfy` | the two caps over all runs, exactly when a step breaks one, and a run in which one does |
| `Orphans.dfy`, `Presence.dfy`, `Leftovers.dfy` | containers against rows: who has one under the operating assumptions, and what a raising launch leaves behind |
| `Drain.dfy`, `Reaper.dfy` | exactness and effect of a sweep |
| `History.dfy`, `Provenance.dfy`, `Decisions.dfy` | the life of one row over a whole run, where its columns come from and what each decision of its spawn rests on; independence of instances |
| `Segments.dfy`, `Interference.dfy`, `Manager.dfy` | when each step can be taken and what it does; `spawn`, `kill` and `reconcile_startup` as methods that await while other tasks interfere, each segment a step of the run |
| `Admission.dfy`, `NcSession.dfy`, `Pow.dfy` | connection and request counters, the nc menu, the proof of work |
| `SolveCheck.dfy`, `Pool.dfy`, `Text.dfy` | the win condition, the placeholder Move package, the flag; decimal and string handling |
| `Sets.dfy`, `Wrappers.dfy` | cardinality lemmas, `Option` and `Result` |

**Interleaving.** The orchestrator is one event loop whose tasks give up control at every
call into a worker thread. A step is therefore either the stretch of code between two such
points or the effect of one worker-thread call. A kill or a sweep acts on the row it read
earlier, however stale. Daemon failures the code swallows, calls that raise and end a spawn, a
kill or a sweep where they stand, players killing any uuid at any time, a clock that jumps, a
launch that raises after creating its container, and one that takes effect after its process
died are all steps of the model. A restart drops every task and reconciles as one step.

**Operating assumptions.** `Benign` names them: a launch takes effect strictly within the
boot window of its reservation and before any crash, or not at all; players kill only
instances a spawn returned to them; the clock does not go backwards; daemon removals and
listings succeed. Theorems over `Run` use none of them, theorems over `BenignRun` do. That no
removal overtakes a launch is proved from them and the reaper's guard
(`Orphans.SweepSafeStep`, `Orphans.GoneForGood`), not assumed. Two things are fixed for all
theorems: one configuration, caps included, for a whole run across restarts, and a
reconciliation that nothing interrupts. The methods also take the clock as monotone.

**Two forms, tied together.** `Manager.InstanceManager` is the imperative code. It keeps the
run it is part of: at each await `Yield` lets other tasks take any number of their own steps,
and each segment of code between two awaits adds its own step, with the proof that registry,
fleet and clock end up as that step says (`Valid`). So every execution of the methods is a
stretch of a run, to which all theorems about runs apply (`Interference.RunIsPath`), and
`Interference.PathRely` is what a task can count on across an await. Where a `Benign` step
excludes a failure the methods take a parameter (`up`, `stuck`, `clean`, `raises`) that says
whether it happens. `Drain.StepsMatchLoop` proves that a sweep taken step by step does what the
`Reaper.Sweep` loop promises.

## What the proofs found

* **The caps can be exceeded.** `set_running` has no condition on status, so a spawn that
  was reaped or killed while booting writes its row back to `running` although its place
  may have been given away. `CapBreach.CapsCanBreak` is a run that meets every operating
  assumption and ends with two active rows under a cap of one. `Caps.CapBrokenIff` says
  exactly which steps do this, `Orphans.ExcessIsOverdue` that the excess is always expired
  rows without containers which the next sweep takes, `Caps.CapHoldsIff` the same for whole
  runs, and `Orphans.FleetWithinCap` that
  the host never runs more containers than the cap and the pending clean-ups.
* **The status lifecycle has a backward edge.** The registry documents
  starting, running, then a terminal state. `History.BackwardEdgeIff` shows the one way
  back.
* **Proxy status codes.** The proxy's own documentation and the project README promise 404
  for an instance that is not running; the code answers 503 and the model follows the code.
* **The nonce need not be a number.** The proof-of-work documentation speaks of an integer;
  `verify` accepts any non-blank text whose hash passes (`Pow.AnyTextCanPass`).
* **Event checks look at one page.** A win event followed by fifty more of its type by others
  is no longer seen (`SolveCheck.WinsAreForgotten`), so a flag of the event variant can be lost
  again (`PoolChallenge.EventFlagIsLost`) while one of the state variant never is.
  `SolveCheck.EventCheckIff` gives the exact condition.
* **Long numerals compare as text.** Python 3.12 refuses `int()` on more than 4300 written
  digits, and the comparison then falls back to text: `SolveCheck.LongTextMisorders` shows
  powers of ten that count as less than two, `SolveCheck.PaddedTextMisorders` a three with
  leading zeros that does. `SolveCheck.NumericOrder` says exactly when both sides are compared
  as numbers; Move integers always are (`SolveCheck.MoveIntegersAreReadable`).
* **A running row may have no container.** A revived row never has one, and one whose removal
  is halfway has lost it already. `Presence.RunningHasContainerIff` says that under the
  operating assumptions these are the only cases; `CapBreach.CapsCanBreak` ends in one.
* **A solution can go unanswered.** A client that is gone right after pasting an accepted
  solution gets no spawn call. `NcSession.OneSolutionPerSpawn` shows that this happens to
  the last solution of a session at most, and only if nothing follows it.
* **A raising launch can leave a container behind.** The failed spawn removes only a
  container whose id it recorded. `Leftovers.LeftBehindIff` says exactly when one stays,
  `Leftovers.StrandedUntilRestart` that it does until the next restart, since the reaper never
  takes an inactive row, and `Leftovers.LaunchLeaks` is a run with two containers under a cap
  of one. The guarantees under the operating assumptions exclude the case by name.

## Model

| member | source | states |
|---|---|---|
| `Ownership.OwnedAlways` | orchestrator/app/registry.py:56-97 | In every reachable state of every interleaving, containers, recorded ids and the stale rows tasks hold belong to the uuid they were made for, no uuid ever got two containers, and running rows are complete |
| `Ownership.RowMoves` | orchestrator/app/registry.py:68-97 | An existing row changes only by its own spawn recording its container, by its own spawn's success, or by a terminal status; new rows come only from reservations |
| `Ownership.RemovalMoves` | orchestrator/app/docker_manager.py:101-115 | Every removal, by recorded id or by name and from however stale a snapshot, takes exactly its own instance's container |
| `Ownership.FleetMoves` | orchestrator/app/docker_manager.py:43-65 | Containers appear only through the launch of a booting spawn, under a fresh id and a free name |
| `Docker.RemovalIsExact` | orchestrator/app/config.py:82-85 | Since names embed the full uuid and never look like ids, the id-else-name choice designates the container of that uuid and no other |
| `Configuration.NamesInjective` | orchestrator/app/config.py:79-85 | Distinct uuids have distinct container names and RPC urls |
| `Configuration.NamesEmbedUuid` | orchestrator/app/config.py:79-85 | A url is the public host and port and ends in the uuid after its last slash; a container name is the prefix and the uuid |
| `Configuration.ManifestLifetimeWins` | orchestrator/app/instances.py:62 | The lifetime of the manifest, unless missing or zero, wins over the configured one |
| `Docker.DockerManager.StopAndRemove` | orchestrator/app/docker_manager.py:101-115 | Id wins over name even when it designates nothing, an empty id is none, an unknown reference or an unreachable daemon changes nothing |
| `Docker.DockerManager.RunInstance` | orchestrator/app/docker_manager.py:43-65 | Either one labelled container under a never-issued id and a free name, or an exception; the exception may come after the container was created unless excluded, and always comes with no change when the name is taken |
| `Docker.DockerManager.ListManaged` | orchestrator/app/docker_manager.py:117-133 | Each managed container exactly once, in any order; empty when the daemon is unreachable |
| `Registries.Registry.Create` | orchestrator/app/registry.py:56-66 | Inserts a starting row with the given columns and all others empty, or fails without change on a taken uuid |
| `Registries.Registry.PutRunning` | orchestrator/app/registry.py:71-83 | Writes status, url, address, key, deployer, package and objects from the answer, each into its own column, with no condition on the status and no other change |
| `Registries.Registry.PutStatus` | orchestrator/app/registry.py:85-97 | Overwrites status and error of an existing row only, and no other column |
| `Registries.Registry.PutContainer` | orchestrator/app/registry.py:68-69 | Overwrites the container id of an existing row only, and no other column |
| `Registries.Registry.ActiveCountForIp` | orchestrator/app/registry.py:107-114 | Visiting each row once counts the starting or running rows of one address |
| `Registries.Registry.TotalActive` | orchestrator/app/registry.py:126-133 | Visiting each row once counts the starting or running rows |
| `Registries.Registry.AllActive` | orchestrator/app/registry.py:135-141 | The starting or running rows, each once |
| `Registries.Registry.Select` | orchestrator/app/registry.py:135-151 | Query results hold each selected row once, in any order |
| `Registries.Registry.DueForReap` | orchestrator/app/registry.py:143-151 | The active rows whose expiry is strictly past, each once |
| `Caps.CapsAlways` | orchestrator/app/instances.py:43-68 | In every run, active rows that were not revived never exceed the total cap, nor the cap of any address |
| `Caps.CapBrokenIff` | orchestrator/app/instances.py:120-128 | From a state within a cap, a step exceeds it if and only if it completes a spawn whose row had become inactive while the cap was used up |
| `Caps.CapHoldsIff` | orchestrator/app/instances.py:43-68 | Over a whole run, the cap of a scope holds at every moment if and only if no step revives a row of the scope while the scope is full |
| `Caps.CapsOutright` | orchestrator/app/instances.py:43-68 | Both caps hold outright in every run in which no row is killed or reaped while its own spawn is in flight |
| `Caps.DeactivationMoves` | orchestrator/app/instances.py:71-86 | An active row becomes inactive only by its own failing spawn, a kill or sweep of it, or a restart that found no container |
| `CapBreach.CapsCanBreak` | orchestrator/app/registry.py:88-97 | A run within all operating assumptions ends with two active rows of one address under caps of one |
| `Orphans.NoOrphans` | orchestrator/app/instances.py:75-97 | Every live container has exactly one row, which is starting or running or whose own failed spawn is about to remove it; this covers the time before the container id is recorded |
| `Presence.RunningHasContainerIff` | orchestrator/app/instances.py:145-156 | Under the operating assumptions a running row has a container if and only if it was not revived and no kill or sweep stands between taking its container and writing its status |
| `Orphans.FleetWithinCap` | orchestrator/app/instances.py:43-86 | Live containers of an address, or in all, never exceed its cap plus the failed spawns of that address, or in all, still to be cleaned up, revived rows notwithstanding |
| `Orphans.ExcessIsOverdue` | orchestrator/app/reaper.py:42-57 | Revived active rows are past expiry, have no container and are unprotected, so rows not due never exceed a cap |
| `Orphans.SweepSafeStep` | orchestrator/app/reaper.py:45-56 | Once the reaper's removal took effect, the instance has no container and its launch can no longer take effect |
| `Orphans.GoneForGood` | orchestrator/app/reaper.py:45-57 | Under the operating assumptions, once a kill's, a sweep's or a failed spawn's removal took effect, the instance never has a container again, whatever interleaves |
| `Orphans.DeactivationSafe` | orchestrator/app/instances.py:145-156 | When a row becomes inactive its container is gone or its own spawn is removing it |
| `Orphans.RestartSafe` | orchestrator/app/main.py:65-71 | A restart leaves containers only under rows that are and stay active |
| `Leftovers.PresenceMoves` | orchestrator/app/docker_manager.py:101-115 | With no assumption, an instance has a container after a step exactly if the step creates it or it had one that no effective removal or restart takes |
| `Leftovers.LeftBehindIff` | orchestrator/app/instances.py:75-81 | In every run, a launch that raised has left a container at a later moment if and only if it had created one and nothing took it away since |
| `Leftovers.FailedLaunchEnds` | orchestrator/app/instances.py:73-86 | The spawn whose launch raised ends with an inactive row that names no container and removes nothing |
| `Leftovers.StrandedUntilRestart` | orchestrator/app/registry.py:143-151 | Such a container stays until the next restart as long as players kill only what they were given, since an inactive row is never due |
| `Leftovers.LaunchLeaks` | orchestrator/app/instances.py:91-97 | A run ends with two containers under a cap of one, the first stranded, none about to be cleaned up |
| `Drain.SweepExact` | orchestrator/app/reaper.py:42-57 | Whatever runs in between, a completed sweep writes expired to exactly the starting or running rows whose expiry had passed at its start and which were not starting within one boot timeout |
| `Drain.StepsMatchLoop` | orchestrator/app/reaper.py:42-57 | A sweep with nothing but the clock in between has, step by step, exactly the effect the loop promises |
| `Drain.OneSweepDrains` | orchestrator/app/reaper.py:42-57 | With spawns and kills finished and every expiry and boot window past, one sweep leaves no active row and no container |
| `Drain.SweepTerminates` | orchestrator/app/reaper.py:42-57 | A sweep can always take its next step and each one shortens it |
| `Reaping.Reaper.Sweep` | orchestrator/app/reaper.py:42-57 | Undisturbed, the loop expires exactly the due unprotected rows and removes exactly their containers, in whatever order they are listed |
| `Reaping.OverdueOnly` | orchestrator/app/reaper.py:44-57 | What that means row by row: the overdue rows become expired with no other column but the error changed, every other row stays, and exactly their containers go |
| `History.BackwardEdgeIff` | orchestrator/app/registry.py:17-19 | A row goes from inactive back to active exactly when its spawn succeeds late; none returns to starting |
| `History.StatusHasAuthor` | orchestrator/app/reaper.py:48-57 | Running is written by the row's own spawn, killed by a kill that saw it active, expired by a sweep begun after its expiry, error by its own failing spawn or a restart that found no container |
| `History.ReapedAfterLifetime` | orchestrator/app/instances.py:62-67 | A row is expired only by a sweep begun later than its reservation plus the configured lifetime |
| `History.NoEarlyTimeout` | orchestrator/app/instances.py:99-118 | Under the operating assumptions no spawn gives up for lateness before a whole boot window has passed since its reservation |
| `History.Frame` | orchestrator/app/instances.py:76-81 | No step of one instance's spawn, kill or reaping changes another instance's row, spawn or containers |
| `History.IdentityForever` | orchestrator/app/registry.py:56-66 | Rows are never lost, and address, challenge, container name, creation time, expiry and flag mode, each by itself, never change |
| `History.CreatedOnce` | orchestrator/app/registry.py:21-23 | No uuid is reserved twice in a run |
| `History.RunningOnce` | orchestrator/app/instances.py:120-128 | A row enters running at most once, through its own spawn, which then returns its uuid for the first time |
| `History.RunningRowsFilled` | orchestrator/app/instances.py:97-128 | A running row names a container that was launched for its uuid, a package id and the RPC url of its uuid |
| `Provenance.RunningRowsSourced` | orchestrator/app/instances.py:101-128 | In every run, the url of a running row is its own, and its player address, private key, deployer, package and objects are, column by column, those of one answer read earlier, by its own spawn, out of its own container |
| `Decisions.BreakIff` | orchestrator/app/instances.py:102-104 | The polling ends on an answer exactly if it names a package and a private key |
| `Decisions.DeadlineIff` | orchestrator/app/instances.py:101-118 | Before the deadline the spawn polls again; from then on it succeeds exactly if the last answer names a package and raises otherwise |
| `Decisions.GoneIff` | orchestrator/app/instances.py:105-112 | The spawn gives up on its container exactly if it has no status, exited or died; with any other status it polls on until the same deadline |
| `Decisions.RaisesForReason` | orchestrator/app/instances.py:99-118 | In every run, a spawn that raises was told that its own container is gone, or found its deadline passed with no package named |
| `Interference.RunRely` | orchestrator/app/instances.py:91-112 | Across any stretch of any run short of a restart, other tasks change rows and containers only as the awaiting task counts on |
| `Interference.PathRely` | orchestrator/app/instances.py:91-112 | The same from any state in which ownership holds |
| `Interference.PathWaits` | orchestrator/app/instances.py:145-156 | While a spawn or a kill awaits, no step of another task moves it |
| `Segments.SweepStartLeads` | orchestrator/app/reaper.py:43-44 | A sweep can start whenever none is under way, with any listing of the due rows |
| `Segments.SweepRowLeads` | orchestrator/app/reaper.py:45-56 | A row in its boot window is skipped; any other is removed first, and the call may raise, with or without effect |
| `Segments.SweepWriteLeads` | orchestrator/app/reaper.py:57 | After its removal the row is written expired whatever it says by then |
| `Segments.SweepEndLeads` | orchestrator/app/reaper.py:44 | A sweep ends when its list is exhausted |
| `Segments.LateLaunchLeads` | orchestrator/app/docker_manager.py:46-64 | A launch under way when its process died can still take effect, once |
| `Manager.InstanceManager.Spawn` | orchestrator/app/instances.py:40-89 | Its whole execution continues the run by steps. Refusal depends on the two counts alone and changes nothing; success tells the player the uuid, its url, and the key, address, package and objects of one answer read out of the new container, with expiry and remaining time in whole seconds, and the row is reserved for this caller with one lifetime from the call; failure leaves an inactive row and no container, except one created by a launch that raised |
| `Manager.InstanceManager.Admit` | orchestrator/app/instances.py:43-68 | The reservation step: refused by the address count first, then the total, otherwise one new row and a spawn about to launch |
| `Manager.InstanceManager.Record` | orchestrator/app/instances.py:97-99 | The launched id is recorded on the row whatever it says by then, and the deadline is exactly one boot timeout from there |
| `Manager.InstanceManager.Round` | orchestrator/app/instances.py:101-112 | One round is the sequence of steps read, resume, status, resume; it breaks exactly on an answer with package and key and raises when a call does or the container is gone |
| `Manager.InstanceManager.CheckAlive` | orchestrator/app/instances.py:105-112 | It raises for an exited container exactly if the status read is none, exited or dead |
| `Manager.InstanceManager.Succeed` | orchestrator/app/instances.py:114-128 | The successful end is one step that writes the running row from the answer at hand and ends the spawn |
| `Manager.InstanceManager.WriteError` | orchestrator/app/instances.py:75-80 | The failing end is one step that writes error with the message and keeps the recorded id, if any, for the clean-up |
| `Manager.InstanceManager.Launch` | orchestrator/app/instances.py:91-97 | Either the new container is recorded on the row, or the launch raised and none is recorded; the uuid then has no container either, unless the launch raised after creating one |
| `Manager.InstanceManager.Boot` | orchestrator/app/instances.py:91-129 | Success writes a complete running row from one answer of the launched container; an exception leaves the row not running with the launched container, if any, recorded; lateness takes the whole boot window |
| `Manager.InstanceManager.Poll` | orchestrator/app/instances.py:99-112 | Leaves with an answer of this container that is complete, or after the whole boot window, or raises because a read failed or the container is gone; it rests two seconds between rounds |
| `Manager.InstanceManager.CleanUp` | orchestrator/app/instances.py:76-81 | Removes the recorded container by id, whatever others wrote to the row meanwhile |
| `Manager.InstanceManager.HandleFailure` | orchestrator/app/instances.py:73-86 | Ends with an inactive row and no container of this instance if one was recorded or none launched; with no id recorded nothing is removed |
| `Manager.MessagesAre` | orchestrator/app/instances.py:111-118 | The text each failure leaves in the error column |
| `Manager.InstanceManager.Kill` | orchestrator/app/instances.py:145-156 | Three steps with awaits between: true iff the uuid is known, every container the uuid had when the call began is gone and a row seen active ends killed; if the removal call raises, no status is written |
| `Manager.InstanceManager.ReconcileStartup` | orchestrator/app/instances.py:190-207 | Both loops together remove exactly the listed containers without a starting or running row and mark exactly the starting or running rows without a listed container, each with its message and no other change, which is the restart step of the run; with the daemon's help containers and active rows then agree |
| `Manager.InstanceManager.RemoveOrphans` | orchestrator/app/instances.py:193-203 | The first loop removes exactly the listed containers without an active row and collects all labels |
| `Manager.InstanceManager.MarkMissing` | orchestrator/app/instances.py:204-207 | The second loop marks exactly the active rows whose uuid was not listed |
| `Manager.ReconcileAgrees` | orchestrator/app/instances.py:190-207 | From any registry and any containers, containers and active rows then name the same uuids |
| `Manager.ReconcileIdempotent` | orchestrator/app/instances.py:190-207 | A second reconciliation changes nothing |
| `Admission.CountersAgree` | orchestrator/app/proxy.py:72-79 | After any history of admitted, rejected and finished work, in any order, total and table equal the work in progress, no zero entries remain, the total is their sum, both caps hold, and at rest both are empty |
| `Admission.SumOfTally` | orchestrator/app/proxy.py:77-78 | The per-key counts add up to the total in any order |
| `Admission.Counters.TryBegin` | orchestrator/app/ncserver.py:79-90 | Admits exactly when the total and the key's own count are below their caps |
| `Admission.Counters.Finish` | orchestrator/app/ncserver.py:123-126 | Takes back exactly one piece of work, dropping the key with its last |
| `Admission.Proxy.Admit` | orchestrator/app/proxy.py:63-79 | 404 for an unknown uuid, 503 for one not running, 429 over a cap, and only a request let through is counted |
| `Pow.TestsAgree` | orchestrator/app/pow.py:19-22 | For every digest and difficulty up to 256 the server's and the solver's tests agree; nothing passes above 256 |
| `Pow.SolverMatchesServer` | orchestrator/app/pow.py:34-40 | A number passes the printed one-liner exactly when the server accepts its numeral |
| `Pow.SolverRoundTrip` | orchestrator/app/pow.py:42-52 | The printed nonce is accepted, with blanks and line endings of either kind around it too, and no smaller number is |
| `Pow.AcceptsIff` | orchestrator/app/pow.py:34-40 | An answer passes exactly if the gate is off, or it is not blank and the hash of challenge then stripped answer begins with as many zero bits as the difficulty |
| `Pow.GateEdges` | orchestrator/app/pow.py:34-39 | A disabled gate lets everything through, an enabled one no blank answer |
| `Pow.AnyTextCanPass` | orchestrator/app/pow.py:34-40 | Any text with something besides white space can be a solution, depending on the hash alone |
| `Pow.Solve` | orchestrator/app/pow.py:49-51 | The search returns the smallest passing number |
| `Pow.LeadingZerosAreScanned` | orchestrator/app/pow.py:19-22 | The count equals a bit-by-bit scan of the 32 bytes, all-zero digest included |
| `Pow.PassingDigests` | orchestrator/app/pow.py:1-11 | Exactly 2^(256-D) digests pass at difficulty D, and one bit more halves them |
| `NcSession.NcServer.Handle` | orchestrator/app/ncserver.py:75-127 | Over the caps on arrival nothing is read; otherwise the session runs up to its cut while others come and go, and exactly this connection is taken back from what is open at its end (`Admission.CountersAgree` has whole histories) |
| `NcSession.NcServer.Menu` | orchestrator/app/ncserver.py:94-112 | The menu loop ends and makes exactly the calls the input asks for, up to the moment the connection breaks |
| `NcSession.NcServer.DoSpawn` | orchestrator/app/ncserver.py:139-179 | The spawn call is made exactly if the gate is off, or if the next line solves the challenge issued in this choice and the client is still connected |
| `NcSession.SpawnsAreGated` | orchestrator/app/ncserver.py:139-168 | For every input and every moment of disconnection, each spawn call directly follows an accepted solution to the challenge issued in the same choice |
| `NcSession.OneSolutionPerSpawn` | orchestrator/app/ncserver.py:139-168 | In a complete session spawn calls equal accepted solutions; in one cut off anywhere at most a final accepted solution lacks its call, and no call lacks its solution; each solution costs two input lines |
| `NcSession.SolverGetsThrough` | orchestrator/app/ncserver.py:141-168 | A client that pastes what the printed solver prints gets its spawn call exactly if it stays connected until then |
| `NcSession.ScriptIsServed` | orchestrator/app/ncserver.py:92-112 | Any script of spawns, solved, unsolved or ungated, kills, flag requests and mistyped or missing lines has exactly its own effects, in order, uuids stripped, and leaves the session as if it began there |
| `NcSession.LeavingEnds` | orchestrator/app/ncserver.py:96-109 | After any such script, quitting in one of the four ways or disconnecting ends the session whatever follows |
| `NcSession.CallsAreAsked` | orchestrator/app/ncserver.py:216-239 | For every input, each kill and flag call carries the stripped line right after a choice of that kind |
| `SolveCheck.NumericOrder` | orchestrator/app/challenge.py:76-82 | Integers given as numbers or as decimal text with white space, sign and leading zeros are compared as integers if and only if neither text has more than 4300 digits, and then under all six operators; eq and ne on canonical text are right at any length |
| `SolveCheck.LongTextMisorders` | orchestrator/app/challenge.py:76-82 | Every power of ten with more digits, given as text, counts as less than two |
| `SolveCheck.PaddedTextMisorders` | orchestrator/app/challenge.py:76-82 | A three written with 4300 or more leading zeros counts as less than two |
| `SolveCheck.MoveIntegersAreReadable` | orchestrator/app/challenge.py:76-78 | Unsigned integers up to 256 bits stay within the digit limit |
| `SolveCheck.OperatorsPartition` | orchestrator/app/challenge.py:17-24 | On any pair, text included, exactly one of lt, eq, gt holds, the rest are their combinations, and swapping sides swaps lt and gt |
| `SolveCheck.TextOrder` | orchestrator/app/challenge.py:79-82 | When a side is no integer both compare as the texts they are: eq is equality, lt the order at the first difference |
| `SolveCheck.FindsFirst` | orchestrator/app/challenge.py:138-146 | The checked object is the first whose type matches up to generic arguments |
| `SolveCheck.FoundMatches` | orchestrator/app/challenge.py:138-146 | Nothing is found exactly when nothing matches |
| `SolveCheck.GenericsIgnored` | orchestrator/app/challenge.py:139-146 | An object matches exactly if its type name up to the first generic bracket ends in the suffix; one without a type only the empty suffix |
| `SolveCheck.StateCheckDecides` | orchestrator/app/challenge.py:98-114 | A state check on an integer within the digit limit is decided by the first matching object's field under the named integer order, equality by default; an unknown operator is an error |
| `SolveCheck.StateCheckMissing` | orchestrator/app/challenge.py:98-109 | Without a matching object, or without the field on the first one, the challenge is unsolved; only a failing RPC is an error |
| `SolveCheck.UnknownOperatorFails` | orchestrator/app/challenge.py:111-113 | A name that is no operator is an error whatever the field holds |
| `SolveCheck.OnPageIff` | orchestrator/app/sui_rpc.py:52-64 | A sender's event is on the page exactly when fewer than the page size of its type followed it |
| `SolveCheck.EventCheckIff` | orchestrator/app/challenge.py:117-135 | With the emitter bound to the row's player or an address, the check succeeds exactly when one of its events of the type, prefixed by the package if it starts with two colons, has fewer than fifty of that type after it; always sound, and complete up to fifty events |
| `SolveCheck.WinsAreForgotten` | orchestrator/app/sui_rpc.py:52-64 | Whatever the log holds, fifty later events of the type by others make the check fail |
| `SolveCheck.AnyoneCheckIff` | orchestrator/app/challenge.py:128-135 | With no emitter bound, or on a row without a player address, any event of the type ever emitted is enough |
| `SolveCheck.NoPackageNoWin` | orchestrator/app/challenge.py:120-122 | Without a package id no event counts |
| `PoolChallenge.Chain.Init` | challenges/placeholder-flashpool/package/sources/pool.move:27-29 | Shares a new pool with exactly the given balance |
| `PoolChallenge.Chain.Drain` | challenges/placeholder-flashpool/package/sources/pool.move:34-36 | Empties an existing pool and changes nothing else |
| `PoolChallenge.Chain.Claim` | challenges/placeholder-flashpool/package/sources/pool.move:41-44 | Emits the event, last in the log, exactly when the pool is empty, and aborts otherwise |
| `PoolChallenge.BalanceTellsDrained` | challenges/placeholder-flashpool/package/sources/pool.move:27-36 | Over every history after the seeding, the seeded pool holds its seed until first drained and zero ever after |
| `PoolChallenge.ClaimsNeedDrain` | challenges/placeholder-flashpool/package/sources/pool.move:38-44 | A claim on the seeded pool leaves an event exactly when it was drained before |
| `PoolChallenge.FlagIffDrained` | orchestrator/app/instances.py:159-174 | For a running row that lists only the seeded pool, the flag is handed out exactly when that pool was drained, over every chain history |
| `PoolChallenge.FlagNeedsRunning` | orchestrator/app/instances.py:159-174 | For every table, challenge and RPC, a flag is handed out only for a known running row whose check succeeds, and is the configured one; unknown, not running, unsolved and failing each have their own answer |
| `PoolChallenge.KindsOfCheck` | orchestrator/app/challenge.py:85-95 | An unknown kind of challenge fails; an event challenge is decided by the event check on the row's own package and player |
| `PoolChallenge.FailedChecks` | orchestrator/app/instances.py:167-171 | A failing RPC on the first matching object and an unknown operator each give a failed check, never a flag |
| `PoolChallenge.FlagForever` | orchestrator/app/challenge.py:98-114 | Once handed out it stays so whatever happens on the chain |
| `PoolChallenge.EventFlagMeansClaim` | orchestrator/app/challenge.py:117-135 | In the event variant a flag means the row's own player claimed, and up to fifty claims a claim means a flag |
| `PoolChallenge.EventFlagIsLost` | orchestrator/app/challenge.py:117-135 | In the event variant fifty later claims by others take the flag away again |
| `Text.ParsePrintInt` | orchestrator/app/challenge.py:76-82 | Reading back a printed integer yields it exactly if it has at most 4300 digits, and fails otherwise |
| `Text.ParseIntIff` | orchestrator/app/challenge.py:76-82 | int of a text is n exactly if the text spells n: blanks, a fitting sign, leading zeros, the numeral, blanks, within the digit limit |
| `Text.StripIdempotent` | orchestrator/app/ncserver.py:153-154 | Stripping a line twice is stripping it once |
| `Text.BlanksAre` | orchestrator/app/ncserver.py:153-154 | The characters strip takes away, carriage return included, and the fewer that int does |
| `Text.LessIff` | orchestrator/app/challenge.py:82 | Text order is decided at the first difference |
| `Text.NumeralExample` | orchestrator/app/challenge.py:76-82 | Sign and digit order by example, and texts that are no integer |
| `Text.DigitsAre` | orchestrator/app/challenge.py:76-82 | The ten digits |

## Left out

- Sockets, HTTP forwarding, headers, timeouts of individual reads and the heartbeat: plumbing around the modelled decisions.
- SQLite, WAL, the thread lock and JSON columns: the registry is a map with atomic operations, since the event loop never yields inside one.
- Docker lookup by abbreviated id: names contain a hyphen and recorded ids are complete, so it never applies.
- Containers without the management label: the orchestrator never lists them and its names embed fresh uuids.
- The status page and the seconds shown by the menu: they only display columns of rows that are modelled.
- A non-empty private key on running rows: the test after the polling loop looks at the package id only.
- SHA-256, uuid and token generation: an arbitrary function to 32 bytes, a given uuid, a given token sequence.
- `int()` on floats, underscores and non-ASCII text, and `strip()` on non-ASCII white space: values are integers or ASCII text without underscores.
- `str()` of an integer of more than 4300 digits, which raises: JSON and decimal YAML cannot produce one.
- A startup whose listing or removal call raises: the process exits, and the next start reconciles again.
- Environment parsing, manifest loading, the instance image, its entry script and the solver script.
- Reaping.Reaper.Sweep: runs undisturbed as a method; the sweep interleaved with other tasks is the subject of Drain.SweepExact.
