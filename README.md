# DDL owner manager

A model of TiDB's DDL owner manager (`ddl/owner_manager.go`), with proofs about it. The
manager is a client of etcd's election. One process becomes the *DDL owner* and one the
*background owner*. Each duty has a flag: an `int32` that is 1 while this process holds the
duty. The manager keeps an etcd session and runs one campaign loop per duty. A loop does
three things:

- it campaigns with the process's DDL ID;
- it reads the elected leader and sets the duty's flag when the leader is this process;
- it watches the leader record and clears the flag when ownership is lost.

Every etcd call is replaced by the answer it gave. These answers are the inputs of the model
(module `EtcdOutcomes`):

- the outcome of each `NewSession` attempt (a success, a context-finished error, or any other
  error);
- the campaign error;
- the leader response: an error, or the first leader record (`Kvs[0]`) and the records after it;
- for every key a watch could be opened on, the responses it delivers (a cancelled bit plus
  PUT/DELETE events), so that which key is watched decides what is seen;
- which `Done` channel a `select` finds closed.

A `select` that could take several cases is modelled by letting the input name the case taken.

The model has three modules:

- `EtcdOutcomes` holds the outcome types. An `Iteration` is everything the environment decides
  during one iteration of `campaignLoop`.
- `OwnerSpec` holds the constants of the source and the specification functions:
  - `Tried`, `RetryError` and `RetrySession` for `newSession`;
  - `WatchOutcome` for `watchOwner`;
  - `RoundOf` for one loop iteration and `Run` for a whole run over a script of iterations.

  It also holds the lemmas that state what the manager promises about them.
- `Ddl` holds class `OwnerManager`, whose fields are the two flags, the DDL ID and the session
  handle. Its invariant `Valid` says both flags are stored as 0 or 1. Each of its methods works step by step, as the Go code does, and is proved against
  those functions. Class `WaitGroup` is a counter.

A run of `campaignLoop` is given a finite script of iterations. It ends in one of three ways:

- the loop returns;
- the script runs out at the loop top;
- the script runs out while a watch is still going. The flag then stays set.

Two facts come from that script:

- The rounds of `CampaignLoop` are exactly the ones `Run` computes.
- `Run` satisfies these properties:
  - the flag is set only on an ID match;
  - the loop exits only in the three returning cases;
  - the flag is false at every loop top; the state at the top of iteration k is the run over
    the first k iterations (`RunSplit`);
  - the flag reads true only inside the watch of a round that won (`OwnerFlagSafety`).

## Model

| member | source | states |
|---|---|---|
| Ddl.OwnerManager.constructor | ddl/owner_manager.go:66-72 | a new manager holds the given ID, neither flag is set, both are stored as 0, and there is no session |
| Ddl.OwnerManager.ID | ddl/owner_manager.go:75-77 | returns the ID fixed at construction (a constant field) |
| Ddl.OwnerManager.IsOwner | ddl/owner_manager.go:80-82 | reads true exactly when the stored DDL flag is 1 |
| Ddl.OwnerManager.SetOwner | ddl/owner_manager.go:84-91 | after SetOwner(b), IsOwner() reads b, and the stored flag is 0 or 1 |
| Ddl.OwnerManager.IsBgOwner | ddl/owner_manager.go:99-101 | reads true exactly when the stored background flag is 1 |
| Ddl.OwnerManager.SetBgOwner | ddl/owner_manager.go:103-110 | after SetBgOwner(b), IsBgOwner() reads b, and the stored flag is 0 or 1 |
| Ddl.OwnerManager.SetOwnerVal | ddl/owner_manager.go:198-204 | the DDL owner key stores 1 or 0 for true or false in the DDL flag only; every other key does so in the background flag only; the routed flag then reads val |
| OwnerSpec.FirstStop | ddl/owner_manager.go:117-126 | the first attempt in range that succeeds or fails with a finished context; every attempt before it failed otherwise |
| OwnerSpec.Tried | ddl/owner_manager.go:117-129 | the number of attempts is at most the budget, and at least one for a positive budget |
| OwnerSpec.RetryError | ddl/owner_manager.go:115-131 | an error is returned only for a positive budget, and an ordinary (not context-finished) error only once the whole budget has been used |
| OwnerSpec.RetrySession | ddl/owner_manager.go:117-122 | with no attempt the session is left as it was; otherwise a session exists exactly when the error is nil |
| OwnerSpec.NewSessionPolicy | ddl/owner_manager.go:115-131 | at most retryCnt attempts; a retry only after an error that is not context-finished; nil exactly when no attempt was made or the last succeeded; otherwise the last attempt's error; no attempt and nil for retryCnt <= 0 |
| OwnerSpec.NewSessionExhausted | ddl/owner_manager.go:115-131 | when every attempt fails with an ordinary error, exactly retryCnt attempts are made and the error is returned |
| OwnerSpec.NewSessionSuccessLeavesSession | ddl/owner_manager.go:118-122 | a positive budget that ends in nil leaves the manager with a session |
| Ddl.OwnerManager.NewSession | ddl/owner_manager.go:115-131 | the loop makes the attempts Tried counts, returns RetryError, and leaves RetrySession as the session |
| Ddl.OwnerManager.CampaignOwners | ddl/owner_manager.go:134-147 | if the initial 3-attempt session fails, returns its error with no loop started and the wait group untouched; otherwise a session exists, the wait group grows by 2, and loops start for the DDL and background keys in that order |
| OwnerSpec.FirstEnd | ddl/owner_manager.go:209-228 | the first watch case that ends the watch; no earlier case ends it |
| OwnerSpec.WatchOutcome | ddl/owner_manager.go:209-229 | the watch ends exactly when some case ends it |
| OwnerSpec.PutOnlyResponseIgnored | ddl/owner_manager.go:211-223 | a response that is not cancelled and has only PUT events leaves the outcome to the cases after it |
| OwnerSpec.WatchEndsAtFirstLoss | ddl/owner_manager.go:209-229 | the watch ends at the first cancelled response, the first response with a DELETE, or a done session or context, each with its own reason |
| Ddl.OwnerManager.WatchOwner | ddl/owner_manager.go:206-229 | returns WatchOutcome of the cases delivered for the key it watches; when ended, the consumed prefix has exactly one ending case, its last |
| OwnerSpec.RoundOf | ddl/owner_manager.go:152-164 | an iteration replaces the session only through the renewal after a done session |
| Ddl.OwnerManager.CampaignRound | ddl/owner_manager.go:152-194 | one iteration yields RoundOf's round and session, so the watch is opened on the leader record's key; the duty's flag ends as FlagAfter; the other flag is untouched; both stay stored as 0 or 1 |
| OwnerSpec.Run | ddl/owner_manager.go:151-195 | a run has at most one round per iteration, and a non-empty script yields at least one round |
| Ddl.OwnerManager.CampaignRounds | ddl/owner_manager.go:151-195 | the loop goes through exactly Run's rounds and leaves Run's flag and session; it returns exactly when its last round is an exit |
| Ddl.OwnerManager.CampaignLoop | ddl/owner_manager.go:149-196 | the same as CampaignRounds, and the wait group drops by one exactly when the loop returned |
| OwnerSpec.RoundFollowsIteration | ddl/owner_manager.go:152-194 | in one iteration, the flag is set exactly when the loop top passes, the campaign wins and the leader's value is our ID; the round then records the watch outcome of the responses for the leader record's key (Kvs[0].Key); the loop returns exactly on ctx done at the top, a failed renewal, or a context-finished campaign |
| OwnerSpec.RunRoundsFollowScript | ddl/owner_manager.go:150-194 | every round of a run follows from its own iteration in the sense of RoundFollowsIteration (predicate Follows) |
| OwnerSpec.RunStopsOnlyAtLastRound | ddl/owner_manager.go:150-175 | every error other than the three exits goes back to the loop top: only the last round can stop a run, and a run shorter than its script stopped there |
| OwnerSpec.FlagFalseAtLoopTop | ddl/owner_manager.go:186-194 | starting cleared, the flag is true at the end of a run exactly when the run ends inside the unfinished watch of an owned round |
| OwnerSpec.RunSplit | ddl/owner_manager.go:151-195 | a run that reaches iteration k is the run over the first k iterations (k rounds, all continuing) followed by the run over the rest from the state they leave |
| OwnerSpec.FlagFalseAtEveryLoopTop | ddl/owner_manager.go:186-194 | starting cleared, the flag is false at the top of every iteration the run reaches |
| OwnerSpec.OwnerFlagSafety | ddl/owner_manager.go:166-194 | if the flag reads true, the latest iteration passed the loop top, won its campaign, read the leader, found its own ID, and its watch of the leader record has not ended |
| OwnerSpec.RoundKeepsSession | ddl/owner_manager.go:152-159 | an iteration that starts with a session ends with one, unless it returns after a failed renewal |
| OwnerSpec.RunKeepsSession | ddl/owner_manager.go:152-159 | a run that starts with a session keeps one, unless its last round is the return after a failed renewal |

## Left out

- The etcd client library is not part of this model. That covers `concurrency.NewSession`,
  `NewElection`, `Campaign`, `Leader`, `Watch`, the session TTL (`newSessionTTL`) and lease
  semantics. Their answers are inputs.
- "At most one process is owner" is enforced by etcd's election, not by this file. It is not
  claimed.
- Goroutines are not modelled. The two campaign loops are separate sequential runs of
  `CampaignLoop`. `CampaignOwners` returns the duty keys of the loops it would start.
- `select` non-determinism is not modelled. The input names the case taken.
- `sync.WaitGroup` is modelled as a counter.
- Atomic loads and stores are modelled as plain field reads and writes.
- The two loops share `etcdSession` without synchronization. This race cannot be modelled with
  sequential runs. One consequence is not captured: a failed renewal leaves the handle nil for
  the other loop too. That loop's next `select` then calls `Done()` on a nil session
  (ddl/owner_manager.go:153 or 224), and Go panics on the dereference.
- Ddl.OwnerManager.CampaignLoop accepts a state with no session, which the source cannot survive
  at its first `select`. Within one loop that state is never reached from a state with a session
  (`RunKeepsSession`).
- `Cancel` only calls the context's cancel function. It is not modelled as a method. Its effect
  appears as a done context in the input.
- The contexts derived with `WithCancel` are not modelled separately from the caller's context.
- `time.Sleep`, logging and `errors.Trace` wrapping are left out. They do not affect any decision.
- `isContextFinished` is defined in another file of package ddl, which is not part of this model.
  Its verdict is the `CtxFinished` classification of an error.
- `resp.Kvs[0]` assumes a non-empty leader response. The response type always carries a first
  record, so the panic on an empty `Kvs` with a nil error is not modelled.
- A script need not keep a closed `Done` channel closed in later iterations. The lemmas hold for
  every script, so they also hold for the ones the real channels produce.
- A watch channel closed by the client yields zero-value responses. This is modelled as a
  response that is not cancelled and has no events, which does not end the watch, as in the
  source.
