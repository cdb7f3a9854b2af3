# Verified model of the MCP hub's concurrent cores

This project models the parts of the MCP hub in which interleavings, rotation chains or string
grammars decide correctness, and proves what they promise for all inputs and all runs.

- **Backend pool** (`pool_*.dfy`). `PoolLedger` holds the decision block of a reconcile, the fast
  path in front of it and the other critical sections as functions on values; `PoolInner` is the
  class whose loops change the same fields in place, proved equal to those functions. `PoolEntry` is
  one user's entry as a transition system: one step for each hold of the `inner` mutex and each
  suspension point between two holds, with the decision block one step per loop turn, so that the
  clock, reload epochs, transports and the semaphore may move inside it. `PoolHub` puts all users'
  entries, the epochs, the clock, the reaper and the global semaphore together. `PoolShape`,
  `PoolSlots`, `PoolRestart`, `PoolLate` and `PoolStrikes` hold one inductive invariant each, and
  `PoolRuns` reads the promises off them for every run. `PoolLost` and `PoolExcuses` show where the
  promise of a restart ends, and `PoolWalks` has the means to construct such runs. `PoolEffects` has
  what the steps achieve, as against what they keep: who is respawned, answered, reconciled or reaped.
  `PoolBlock` shows that the protocol's turns in a row are the decision block.
- **OAuth tokens** (`oauth_*.dfy`). `OauthStore` has the code store and the refresh-token table.
  `OauthToken` is the token endpoint as a transition system in which taking a code, checking it,
  consuming a token, checking it, inserting the successor and revoking a family are separate steps of
  any number of interleaved exchanges, each of which may fail or be cancelled between two steps.
  `OauthRuns` has the theorems over runs, and `OauthLives` says how long tokens and codes live and
  which exchanges come to a token. `OauthGrants` is the two grant handlers as methods that
  drive the stores, each proved to be an uninterrupted run of the step machine. The design they
  follow is refresh token rotation (RFC 9700, section 4.14) and single-use authorization codes
  (RFC 6749, section 4.1.2).
- **Sessions** (`session.dfy`): the throttled sliding deadline under an absolute cap, and the sweeper.
- **Command-line templates** (`template.dfy`): the `${VAR}` expander and the scanner that warns about
  secrets it would expose.
- **Environment blocks** (`env_block.dfy`): the parser and printer of the edit form.
- **Names and routes** (`naming.dfy`, `routing.dfy`): `<namespace>__<tool>` and `hub://` URIs, from
  listing to call.
- **Metrics** (`metrics.dfy`): the bounded registry and its label sets.

`wrappers.dfy` and `text.dfy` hold the shared `Option`/`Result` types, sequence helpers and substring search.

History that no guard reads (`Past` in an entry, `roots` and `goneUsers` at the endpoint) is kept as
ordinary fields of the state, so that the theorems can speak about what happened earlier in a run.

## Where the code and its description differ

- The pool is described as relaunching a restarted backend on the next request
  (`src/lib.rs:199-207`). A request whose instance listing fails, or whose sandbox is unavailable, is
  answered from the pooled vector as it stands, restarted or not (`src/proxy/pool.rs:137-139`,
  `src/proxy/pool.rs:212-247`), and so is one whose reconcile finds no room for a replacement, which it
  looks for while the old backend still counts (`src/proxy/pool.rs:285-304`).
  `PoolRuns.RestartTakesEffect` names the exceptions, and `PoolExcuses` shows each of the three
  occurring from every reachable state in which a backend is pooled and the bind lock is free (for the
  last two its transport open, and for the last the pool or the hub full).
- A skipped restart is described as retried by a bump or once the backoff elapses
  (`src/proxy/pool.rs:287-289`). That is so only for a backend that is down. Where a healthy old backend
  stays, the skip and the sandbox branch record the new epoch, and the restart is lost for good:
  `PoolLost.StepKeepsLost` says exactly which steps end that, `PoolLost.LostForGood` that every request
  until then is handed the old backend, and `PoolLost.FullPoolLosesRestarts` that a user at the
  per-user cap cannot restart anything.
- Replay detection is described as revoking the family for good (`src/oauth/token.rs:173-174`). A
  rotation that has consumed its token but not yet inserted the successor survives the revocation and
  brings the family back. `OauthRuns.RevocationIsFinal` proves that this is the only way, and
  `OauthRuns.RevocationCanLose` that it happens from every state with a usable token.
- A tool is listed under a name that is meant to route back to it. Namespaces may contain `__` or end
  in `_` (`src/instances.rs:296-310`), and then the name is split elsewhere.
  `Routing.ListedToolIsCallable` gives the exact condition.

## Model

| member | source | states |
|---|---|---|
| PoolInner.Semaphore.TryAcquire | src/proxy/pool.rs:295-304 | a permit is taken exactly when one is free |
| PoolInner.Inner.IsFresh | src/proxy/pool.rs:86-106 | the scan over tracked instances decides freshness of the ledger it is looking at |
| PoolInner.Inner.RetainBackends | src/proxy/pool.rs:261-263 | disabled backends go, in order, and each permit nobody else pins is returned |
| PoolInner.Inner.DecideInstance | src/proxy/pool.rs:270-313 | one turn of the loop: keep, skip or claim, with every field it changes |
| PoolInner.Inner.Decide | src/proxy/pool.rs:256-314 | the whole block in place is the specified block: ledger, free permits, claims and skips |
| PoolInner.Inner.SandboxUnavailable | src/proxy/pool.rs:231-246 | every enabled instance is recorded and stamped, nothing is spawned or dropped |
| PoolInner.Inner.Land | src/proxy/pool.rs:343-355 | a spawn task stops connecting and is pooled only if its instance is still tracked |
| PoolInner.Inner.ApplyHeartbeats | src/proxy/pool.rs:682-718 | the strike loop in place is the specified pass |
| PoolLedger.TurnOutcome | src/proxy/pool.rs:270-313 | an instance needs a spawn if it is not connecting and either not recorded at its epoch or without an open backend and past its backoff; a turn leaves any other alone and, exactly if there is room in the pool and a free slot, puts one that does in connecting and in the spawn list and unpools its old backend; otherwise it is skipped with the reason |
| PoolLedger.BlockClaimsTheNeedy | src/proxy/pool.rs:256-314 | with room for all of them the block spawns every instance that needs it, in list order, and skips none |
| PoolLedger.Convergence | src/proxy/pool.rs:256-314 | after the block what is pooled, tracked or struck is enabled, and every enabled instance not already connecting is tracked at the epoch read |
| PoolLedger.Idempotence | src/proxy/pool.rs:256-314 | the block run again with the same inputs changes nothing at all |
| PoolLedger.BlockIsNoOpIff | src/proxy/pool.rs:256-314 | the block leaves a ledger alone if and only if nothing tracked is disabled and every enabled instance is connecting, healthy and current, or backing off |
| PoolLedger.FastPathRefinesBlock | src/proxy/pool.rs:86-112 | whenever the fast path answers while every tracked instance is enabled and every enabled untracked one is connecting, the block would have claimed, skipped and changed nothing |
| PoolLedger.NoOpIsFreshIff | src/proxy/pool.rs:86-106 | conversely, where the block is a no-op the fast path answers exactly if the ledger is initialized, clean and no connecting instance has a pending restart |
| PoolLedger.StampAllEffect | src/proxy/pool.rs:237-242 | the sandbox branch touches exactly the epochs and attempts of the listed instances |
| PoolBlock.BlockInTurns | src/proxy/pool.rs:256-314 | from every reachable state in which a reconcile may decide, the turns of its block can be taken in a row, and with nothing moving in between they leave the ledger, the free permits and the spawn list that the block computes as one function |
| PoolHeartbeat.PassRemovesOnlyItsOwn | src/proxy/pool.rs:703-714 | a pass drops only incarnations it heartbeated itself and found failing |
| PoolHeartbeat.PassDropsIff | src/proxy/pool.rs:682-718 | what is pooled before a pass is gone after it if and only if one of the pass's results is a failure of that incarnation and finds two strikes stored |
| PoolHeartbeat.PassKeepsStrikes | src/proxy/pool.rs:683-717 | strikes equal the failures since the last pass, claim, drop or prune, over a whole pass |
| PoolHeartbeat.PruneKeepsStrikes | src/proxy/pool.rs:267-269 | pruning forgets the strikes of disabled instances and no others |
| PoolHeartbeat.ClaimKeepsStrikes | src/proxy/pool.rs:310 | a claim forgets the strikes of its instance and no others |
| PoolShape.BlockKeepsLedgerOk | src/proxy/pool.rs:285-312 | the block keeps one backend per instance, pooled and connecting disjoint, and the per-user cap, although its guard counts new claims twice |
| PoolShape.StepKeepsShape | src/proxy/pool.rs:208-402 | every step of an entry keeps the shape, with exactly one spawn task behind each connecting instance and one holder of the bind lock |
| PoolSlots.RetainPermits | src/proxy/pool.rs:261-263 | the permits freed by pruning are exactly those whose last reference it drops |
| PoolSlots.ReplacePermits | src/proxy/pool.rs:305-307 | likewise for the backend a claim replaces |
| PoolSlots.StepConserves | src/proxy/pool.rs:295-355 | free permits and permits held inside one entry have the same sum before and after every step |
| PoolHub.SlotConservation | src/proxy/backend.rs:27-29 | in every run free permits plus permits in spawn tasks, pools and borrows equal the configured maximum, across reaps, failures and cancelled requests |
| PoolHub.ReachableInv | src/proxy/pool.rs:115-200 | every state of every run satisfies all invariants in every entry |
| PoolRuns.EveryEntryInShape | src/proxy/pool.rs:256-355 | uniqueness and cap in every reachable state: at most one position of the vector per instance, pooled and connecting disjoint, one task per connecting id, pooled ids tracked, cap respected |
| PoolRestart.DecidedIsCurrent | src/proxy/pool.rs:274-313 | whatever is pooled for an instance the block has just decided was claimed no earlier than the epoch its request saw on arrival, or was spawning then, or the instance was passed over at such an epoch, or comes up again in the same block |
| PoolRestart.FreshIsCurrent | src/proxy/pool.rs:90-96 | a fast-path answer holds only backends claimed no earlier than the epochs the request saw on arrival, spawning then, or of instances passed over at such an epoch |
| PoolRestart.StepKeepsRestart | src/proxy/pool.rs:119-313 | every step keeps epochs, pending requests and past answers current |
| PoolRuns.RestartTakesEffect | src/lib.rs:204-228 | a request that arrives after an epoch bump is never handed an incarnation claimed before it, unless it was still connecting at arrival, or its instance was skipped or stamped after the bump, at a newer epoch, and not claimed since, or the request's own reconcile returned early |
| PoolLost.RestartTurn | src/proxy/pool.rs:274-313 | a pending restart is carried out by its turn of the block if and only if there is room for one more backend with the old one still counting; otherwise the old one stays, recorded at the new epoch |
| PoolLost.FullPoolLosesRestarts | src/proxy/pool.rs:285-294 | in every reachable state, a turn on a pending restart in a pool at its cap loses it |
| PoolLost.StepKeepsLost | src/proxy/pool.rs:86-106 | a step ends a lost restart if and only if it bumps the instance again, closes the transport, drops the backend in a heartbeat pass, disables the instance or frees the pool; whatever it returns holds the backend |
| PoolLost.LostForGood | src/proxy/pool.rs:86-140 | in every continuation without such a step the outdated backend stays pooled and every request that returns is handed it |
| PoolExcuses.FailedListingServesThePool | src/proxy/pool.rs:212-220 | a request that misses the fast path and cannot list the instances is handed the pooled vector unchanged |
| PoolExcuses.FailedSandboxServesThePool | src/proxy/pool.rs:228-247 | likewise when the sandbox fails, and every listed instance is then recorded at its current epoch |
| PoolExcuses.RestartMissedWhenListingFails | src/proxy/pool.rs:137-139 | from every reachable state with a pooled backend and a free bind lock there is a run in which a restart of it is followed by a request that receives it, because the listing fails |
| PoolExcuses.RestartLostWhenSandboxFails | src/proxy/pool.rs:228-247 | likewise because the sandbox fails, and the restart is then lost |
| PoolExcuses.RestartLostWithoutRoom | src/proxy/pool.rs:285-304 | likewise for a request that returns in order, whenever the pruned pool is at its cap or no slot is free, and the restart is then lost |
| PoolLate.ArrivalAccounted | src/proxy/pool.rs:343-358 | a backend that lands is either in time for its caller's snapshot or sees the late flag |
| PoolLate.LandPast | src/proxy/pool.rs:343-363 | a spawn that reports back is pooled, at the end, if and only if it brings a backend and its instance is still tracked, and announces itself if and only if its batch's flag is set |
| PoolLate.StepKeepsLate | src/proxy/pool.rs:324-375 | every step keeps every pooled backend accounted for |
| PoolRuns.NoSilentLateArrival | src/proxy/pool.rs:324-375 | in every reachable state each backend a reconcile's batch pooled is in that caller's snapshot, has announced itself, or was dropped by a heartbeat pass |
| PoolStrikes.StepKeepsStrikes | src/proxy/pool.rs:682-718 | every step keeps strikes in agreement with the heartbeat history |
| PoolRuns.StrikesAccounted | src/proxy/pool.rs:639-718 | in every reachable state strikes are 1 or 2 where stored and equal the failures since the last reset |
| PoolRuns.PassSparesRespawns | src/proxy/pool.rs:705-714 | whatever a pass removes was pooled when the pass began, however long it took |
| PoolRuns.WedgedIsDropped | src/proxy/pool.rs:654-718 | in every reachable state a pass over everything pooled when it began drops, of what is pooled when it ends, exactly the incarnations that failed in it and had failed twice since the last reset |
| PoolRuns.BackoffRespected | src/proxy/pool.rs:264-312 | two claims of one instance are at least the backoff apart unless its epoch advanced or its tracking was dropped in between |
| PoolEffects.DownIsRespawned | src/proxy/pool.rs:270-313 | in every reachable state a turn on an instance that needs a spawn starts one spawn task for it and unpools its old backend if and only if there is room, and otherwise leaves pool and tasks alone |
| PoolEffects.SandboxBacksOff | src/proxy/pool.rs:228-247 | a failed sandbox keeps the pool, and requests are then answered by the fast path until the backoff runs out with a listed instance down |
| PoolEffects.QuietIsServed | src/proxy/pool.rs:119-136 | a request is answered at once with the whole pool if and only if the pool is initialized and clean and every tracked instance is at its epoch and connecting, up or backing off; the same again once it has the bind lock |
| PoolEffects.RequestDefersReaping | src/proxy/pool.rs:152-175 | after a request no run reaps its user's entry before the idle time has passed, and a reaped user starts with an empty entry |
| PoolEffects.IdleIsReaped | src/proxy/pool.rs:156-168 | once no request came by for the idle time, the entry can be reaped whenever its lock is free, and not before |
| PoolEffects.DirtyIsReconciled | src/proxy/pool.rs:142-150 | in every run, after an entry is marked dirty no later request is answered in order until a reconcile has come to decide or has given up on the sandbox |
| PoolEffects.StepFlags | src/proxy/pool.rs:142-150 | a pool becomes dirty only by being marked and clean only by a reconcile that comes to decide or gives up on the sandbox; it becomes initialized by a reconcile's end or a failed sandbox, and stays so |
| PoolEffects.AnsweredIsInitialized | src/proxy/pool.rs:377-380 | in every reachable state an entry that ever answered a request in order is initialized |
| OauthStore.AuthCodeStore.InsertCode | src/oauth/store.rs:120-154 | expired codes go and no others, the new code is refused exactly at the cap, and is otherwise stored |
| OauthStore.AuthCodeStore.TakeCode | src/oauth/store.rs:160-168 | the code is gone afterwards whatever happens, and is handed out only unexpired |
| OauthStore.RefreshTable.Insert | src/oauth/store.rs:181-214 | a fresh row is stored unconsumed; a taken hash is refused |
| OauthStore.RefreshTable.Consume | src/oauth/store.rs:238-296 | outcome and new table for first use, replay, expiry and absence; after a first use the same token is a replay |
| OauthStore.RefreshTable.RevokeFamily | src/oauth/store.rs:299-308 | exactly the family's rows go, and every other row is stored unchanged |
| OauthStore.RefreshTable.RevokeUserClient | src/oauth/store.rs:446-453 | exactly the rows of that user and client go, every other row is stored unchanged, and their number is returned |
| OauthGrants.TokenEndpoint.AuthorizationCode | src/oauth/token.rs:89-152 | when the code grant issues, by the fields of the code and of the request, which error it returns otherwise, what it stores, that the code is spent on every path past authentication, and that the handler is a run of the step machine |
| OauthGrants.TokenEndpoint.RefreshToken | src/oauth/token.rs:154-219 | when a rotation issues, by the fields of the row and of the request, which error it returns otherwise, that the old token is then a replay and the new one valid, that a replay deletes the family, that a failed rotation leaves the token consumed, and that the handler is a run of the step machine |
| OauthToken.ConsumeMovesToExchange | src/oauth/store.rs:267-284 | linearity is kept, and a consumed token's one chance is afterwards the exchange that consumed it |
| OauthToken.InsertMovesToToken | src/oauth/token.rs:206-218 | linearity is kept, and the inserted token now holds the chance the exchange held |
| OauthToken.RootStartsFamily | src/oauth/token.rs:138-151 | linearity is kept, and a new family has no token and exactly one exchange in flight |
| OauthToken.StepKeepsSound | src/oauth/token.rs:89-219 | every step keeps linearity, the root's grant, single-use codes and fresh numbering |
| OauthRuns.FamilyLinearity | src/oauth/token.rs:154-218 | in every run a family's unconsumed tokens and in-flight exchanges number at most one together, and all carry the root's client, user, scope and resource |
| OauthRuns.OneConsentOneChain | src/oauth/store.rs:156-168 | a code roots at most one family, every token descends from a code, and at most one usable token descends from each |
| OauthRuns.RefreshTokenAcceptedOnce | src/oauth/store.rs:263-284 | an accepted token is never accepted again in any continuation; it is reported as a replay exactly while its row is stored and unexpired |
| OauthRuns.CodePresentedOnce | src/oauth/store.rs:156-168 | a presented code is never redeemable again, even if it was expired or the rest of the request was wrong |
| OauthRuns.ExtinctionIsForever | src/oauth/token.rs:171-191 | a family without rows and without an exchange able to issue never has a row again |
| OauthRuns.InFlightResurfaces | src/oauth/token.rs:198-218 | any exchange able to issue has a continuation in which the family is back |
| OauthRuns.RevocationIsFinal | src/oauth/token.rs:171-191 | after a family is revoked no run ever stores one of its tokens, if and only if no exchange able to issue for it was in flight |
| OauthRuns.GoneIffNothingInFlight | src/oauth/token.rs:198-218 | a family without rows stays so in every continuation if and only if no exchange able to issue for it is in flight |
| OauthRuns.DisconnectIsFinal | src/oauth/store.rs:446-453 | disconnecting a client is final for each family it was granted under that same condition |
| OauthRuns.DisablingIsFinal | src/oauth/store.rs:455-462 | disabling an account is final for each of its families under that same condition |
| OauthRuns.RevocationCanLose | src/oauth/token.rs:169-191 | from every state with a usable token, presenting it twice before the first rotation is done leads to a revocation after which the family comes back |
| OauthRuns.FirstExchangeIssues | src/oauth/token.rs:89-151 | such states are reached: for every grant there is a run from the empty store to a usable token of it |
| OauthRuns.AccountDeletionIsFinal | src/oauth/token.rs:198-200 | deleting the account is final for all its families, whatever is in flight |
| OauthLives.RowFate | src/oauth/store.rs:238-308 | a row goes in a step if and only if the step revokes its family, its user's tokens for its client, or its user, deletes its user, or presents it too late; presenting it in time consumes it, and no other step changes it |
| OauthLives.RowOrigin | src/oauth/store.rs:181-214 | a row appears only by an insert, unconsumed, under a hash never used before, with the grant and family of its exchange and the fixed lifetime |
| OauthLives.TokenLife | src/oauth/store.rs:238-308 | in every run a usable token is still usable, and unchanged, if and only if nothing since presented it or revoked it and its time is not over |
| OauthLives.IssueOutcome | src/oauth/store.rs:120-154 | issuing a code keeps exactly the codes still in time and stores the new one if and only if they are fewer than the cap |
| OauthLives.CodeLife | src/oauth/store.rs:120-168 | in every run a stored code is still redeemable, for what was approved, if and only if nothing since presented it, its time is not over, and no code was issued in the second in which it runs out |
| OauthLives.CodeExchange | src/oauth/token.rs:110-151 | presenting a code can come to a token if and only if it is in time, by its own client, with its redirect URI and the committed verifier, for an account that is not deleted |
| OauthLives.RotationContinues | src/oauth/token.rs:169-218 | presenting a usable token leaves its family a future if and only if its own client presents it and its user is known; otherwise the family has had its last usable token |
| Session.Sessions.LoadAndTouch | src/auth/session.rs:247-276 | accept or delete, and the new deadline, for the one row, with every other row as it was |
| Session.Sessions.DeleteExpired | src/auth/session.rs:281-287 | exactly the rows whose deadline has passed go, and the others are stored unchanged |
| Session.SessionWindow | src/auth/session.rs:235-246 | for every row and request sequence an accepted request is before the absolute cap and less than the idle time after the previous one, which was accepted too |
| Session.UseKeepsAlive | src/auth/session.rs:262-275 | gaps shorter than the idle time less a minute keep the session alive until a minute before the cap |
| Session.ThrottleCostsAMinute | src/auth/session.rs:21-23 | for all timeouts some session with a last gap of exactly the idle time less a minute is rejected |
| Session.WritesAreAMinuteApart | src/auth/session.rs:267-275 | whatever deadline a row started with, two requests that rewrite it are more than a minute apart |
| Session.SweeperIsInvisible | src/auth/session.rs:278-287 | sweeps interleaved anywhere change no verdict |
| Session.AbandonedIsSwept | src/auth/session.rs:278-287 | a sweep removes every session past its cap or whose last accepted request is longer ago than the idle time |
| Session.SweptIffDead | src/auth/session.rs:281-287 | within its cap a row is removed if and only if a request one second earlier would have been rejected, and is otherwise left as it was |
| Session.AcceptedDespiteSweeps | src/auth/session.rs:247-287 | with sweeps anywhere among the requests each request is accepted exactly when it is accepted without them |
| Session.ConstantTimeEq | src/auth/session.rs:107-117 | the accumulating comparison decides equality |
| Template.ParseIsFaithful | src/util.rs:19-26 | a token is the concatenation of its pieces, and the pieces are in normal form: every reference that could be found was |
| Template.PiecesAreRecovered | src/util.rs:26-55 | a normal list of pieces is read back as itself, so the reading is unambiguous |
| Template.ReferenceIsReplaced | src/util.rs:26-45 | the first reference of a text is replaced by its variable's value, or stays as written if there is none, and the rest is expanded in turn |
| Template.PlainIsCopied | src/util.rs:46-55 | a text in which nothing that opens is closed is copied, and nothing is looked up in it |
| Template.ExpandVars | src/util.rs:26-55 | the loop replaces exactly the references to known variables and copies the rest |
| Template.ExpansionWithoutVariables | src/util.rs:19-25 | expansion that knows none of the names is the identity |
| Template.Scan | src/instances.rs:744-761 | the scanning loop notes, in order, the references of the expander's own grammar |
| Template.SecretRefsInArgv | src/instances.rs:736-769 | the report over command and arguments, in order |
| Template.NotedIsFirstOccurrences | src/instances.rs:735 | the report holds exactly the referenced secrets, each once, in order of first occurrence |
| Template.ReportInOrder | src/instances.rs:762-768 | the report names nothing twice, further arguments only add at its end, and the command counts as an argument before the first |
| Template.ReportWithinText | src/instances.rs:744-761 | within a text a secret is reported before those referenced after it |
| Template.ReportedIffExposed | src/instances.rs:729-734 | a stored secret is reported if and only if giving it any other value changes some expanded token |
| Template.UnreportedSecretsStayHidden | src/instances.rs:745-746 | all unreported secrets may change, appear or vanish together without changing the expanded command line |
| EnvBlock.ParseEnv | src/instances.rs:673-701 | the loop over lines computes the specified map or error |
| EnvBlock.ValidateName | src/instances.rs:684-691 | the character scan decides valid names |
| EnvBlock.BlanksAndComments | src/instances.rs:677-683 | a line is skipped if and only if it is blank or a comment, however it is indented, and lacks its `=` if and only if there is none in it |
| EnvBlock.BindingLine | src/instances.rs:681-698 | any other line binds what stands before its first `=` to what stands after, both without the white space around them, unless the former is no valid name |
| EnvBlock.ValidNamesGrow | src/instances.rs:684-691 | which characters start a name and which continue one |
| EnvBlock.LineEndings | src/instances.rs:676 | a line ends in a newline with or without a carriage return, and the last needs none |
| EnvBlock.RenderSnoc | src/instances.rs:703-709 | one binding more is one `NAME=VALUE` line more, with a newline between lines only |
| EnvBlock.FirstWrongLine | src/instances.rs:680-697 | the error is that of the first wrong line, with its number, and there is none exactly if no line is wrong |
| EnvBlock.LastBindingWins | src/instances.rs:698 | a name has a value if and only if some line binds it, and then the last such line's |
| EnvBlock.ParsedIsHoldable | src/instances.rs:673-701 | what the parser returns has valid names and trimmed one-line values |
| EnvBlock.RoundTripIffHoldable | src/instances.rs:703-709 | printing and parsing returns the same map if and only if its names are valid and its values trimmed and on one line |
| EnvBlock.ParsedRoundTrips | src/instances.rs:673-709 | every map the parser returns survives the round trip |
| Naming.ValidNamespaces | src/instances.rs:295-310 | a namespace is accepted if and only if it is one to 32 lowercase letters, digits and underscores and not the reserved one |
| Naming.ValidButUnroutable | src/instances.rs:295-310 | accepted namespaces that no route survives: ending in `_`, with `__` inside, and `hub_` |
| Naming.SplitInvertsJoin | src/proxy/backend.rs:171-173 | splitting a namespaced name recovers namespace and tool if and only if the namespace has no `__` and does not end in `_`, whatever the tool's name |
| Naming.JoinIsInjective | src/proxy/backend.rs:171-173 | on such namespaces no two tools share a name |
| Naming.ManagementShadows | src/proxy/management.rs:365-368 | exactly which namespaces make every tool look like a management tool |
| Naming.UnwrapInvertsWrap | src/proxy/backend.rs:656-673 | unwrapping recovers what was wrapped if and only if the namespace has no `/` |
| Naming.WrapInvertsUnwrap | src/proxy/backend.rs:668-673 | only wrapped URIs unwrap |
| Routing.ListTools | src/proxy/server.rs:281-320 | the aggregate is the tools of the visible backends that answered, in backend order |
| Routing.ListedIffOffered | src/proxy/server.rs:281-320 | a name is listed if and only if a backend of the group that the credential is not denied, and that answered, offers a tool under it |
| Routing.ListingInOrder | src/proxy/server.rs:289-310 | the listing keeps the order of the backends and each backend's own, with every tool of a visible one in its place |
| Routing.GroupBackends | src/proxy/server.rs:145-163 | exactly the group's members, in order |
| Routing.FindBackend | src/proxy/server.rs:393-399 | the first backend of the namespace that the caller sees |
| Routing.RouteName | src/proxy/server.rs:668-680 | where a prompt name leads, and the errors; what it reaches is visible and carries on the rest of the name |
| Routing.CallTool | src/proxy/server.rs:371-399 | where a tool name leads, and the errors; likewise, and never a management tool |
| Routing.CallOutcome | src/proxy/server.rs:371-399 | a tool name leads to a backend if and only if it is no management name, what stands before its first `__` is that backend's namespace, and the backend is the first visible one of it; each error has its exact condition |
| Routing.NameOutcome | src/proxy/server.rs:668-680 | the same for prompt names, among which none is reserved |
| Routing.NameFindsBackend | src/proxy/server.rs:668-680 | a namespaced prompt name leads to its backend if and only if the namespace can be split off |
| Routing.ListedToolIsCallable | src/proxy/server.rs:371-399 | every visible tool is listed, and calling its listed name reaches it if and only if its namespace can be split off and is not the reserved one |
| Routing.RouteStaysInside | src/proxy/server.rs:391-399 | a routed call reaches only a member of the group that the credential is not denied, and carries on the rest of the name |
| Routing.RewrapContents | src/proxy/backend.rs:207-226 | each returned URI is wrapped in place, and kind and payload stay |
| Routing.ReadOutcome | src/proxy/server.rs:571-587 | a resource URI leads to a backend if and only if it is that backend's wrapping of a URI, its namespace has no `/`, and it is the first visible one of it |
| Routing.ReturnedUriIsReadable | src/proxy/server.rs:571-587 | a returned URI reads back from the same backend if and only if its namespace has no `/` |
| Metrics.Registry.RecordCall | src/metrics.rs:94-125 | exactly one series changes, by exactly this call |
| Metrics.Conservation | src/metrics.rs:107-124 | over any log the calls of all series sum to its length, the errors of each kind to the log's, and the durations likewise up to the 64-bit wrap |
| Metrics.SeriesAreBounded | src/metrics.rs:81-83 | at most the cap and the sentinel |
| Metrics.SeriesIffAdmitted | src/metrics.rs:107-117 | a key has a series if and only if it is among the first `MAX_SERIES` distinct keys of the log |
| Metrics.ExactOrFolded | src/metrics.rs:107-124 | an admitted key is counted exactly, any other key has no series |
| Metrics.SentinelHoldsTheRest | src/metrics.rs:107-124 | the sentinel holds exactly the calls under its own key and under every key that was not admitted |
| Metrics.EscapeLabel | src/metrics.rs:179-192 | the loop escapes character by character |
| Metrics.EscapesOnlySpecials | src/metrics.rs:179-192 | backslashes, quotes and newlines are escaped, each as itself behind a backslash or as `n`, and a stretch of other characters stands as it was |
| Metrics.ReadsBack | src/metrics.rs:177-192 | a reader of the exposition format finds the value that was written, whatever follows its closing quote, and never a raw newline |
| Metrics.LabelsAreInjective | src/metrics.rs:170-192 | distinct series have distinct label sets, whatever their names contain |

## Left out

- Process spawning, transports, timeouts as real time, HTTP and HTML handlers, cookies, SQL text, tracing and the runtime status registry; a backend is an instance, an incarnation and whether its transport has closed.
- Cryptography, JWT signing and the access tokens themselves; random tokens, codes and ids are fresh numbers, and a PKCE verifier is compared by its S256 image, which is a parameter.
- `retry_busy` and busy databases: an attempt that fails has no effect, and a transaction that never succeeds is the exchange failing.
- Reload epochs and the clock move between turns of the decision block but not inside one turn or one freshness scan, which read them more than once.
- The return of a permit when the last reference to a backend goes may be delayed past the drop in the model; it is never earlier.
- The reaper works on one user at a time; `reap_idle` removes several in one hold of the map lock. Its counts, `counts` and the returned numbers of `warm_all` are not modelled, and those of `exercise_all` only for one user's pass.
- Bind budgets are not measured: a budget expires at any moment while a reconcile waits, which includes never.
- Counters that cannot overflow in practice (reload epochs, strikes, call counts) are unbounded numbers.
- Whether a late backend's announcement reaches a client; a request other than the reconciling one that borrowed inside the budget window is not promised one.
- The database answers of a reconcile are arbitrary: nothing relates the listed instances to the user's actual ones.
- Deleting an OAuth client, and refresh-token rows from before families existed.
- A failed write while touching or deleting a session row; `user_for_session`, which does not slide the deadline.
- User lookup after a session or token check is a set of known users; accounts are never recreated under a deleted id.
- `env_from_args` and its multi-line values, shell quoting, URL validation and the connect timeout parser.
- Prompts and resource templates are listed like tools and get no listing of their own.
- The text of the metrics page beyond its label sets, and the order of its lines.
- Single-user edits of groups, invites, access lists and credentials, which have no interleaving to speak of.
- Hub-wide uniqueness of an instance's backend: an entry that was reaped may still have a spawn task while a new entry starts another, so uniqueness is per entry.
