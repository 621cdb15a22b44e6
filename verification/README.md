# Fishhawk credential store: a verified model

Fishhawk's CLI and its MCP server share one JSON file of bearer credentials. Each credential holds a
rotating refresh token: the authorization server consumes the token it is shown, issues a successor,
and revokes the whole lineage if a consumed token is ever shown again. Any number of processes may
refresh, log in and read at the same time. This project models that protocol, the arithmetic that
drives it, and two smaller components of the repository, and proves what they promise.

Check everything with `dafny verify dfyconfig.toml` (Dafny 4.11).

## How the model is built

- `GoInt.dfy`, `Credential.dfy`: 64-bit wrap-around, truncating division and saturating instants;
  the credential record, the refresh margin, the refresh decision and the token exchange.
- `StoreKey.dfy`: the normalized URL a record is stored under.
- `AuthServer.dfy`: the server's refresh-token table, with rotation and reuse detection.
- `Protocol.dfy`: the transition system. A world is a lock, a file, the server's table, the requests
  sent and not yet served, a program counter per process, and a log of what has happened. A step is
  one atomic action of one process, of the server or of the environment. Sending a request and serving
  it are separate steps: the server may serve an outstanding request at any later time, after its
  sender has given up, died or released the lock, or never. The environment may crash a process
  anywhere, lose or mangle a reply, fail a read or a write, time a waiter out, corrupt the file, and
  revoke a lineage. Processes, keys and requests are unbounded, and captured instants are arbitrary.
- `Invariant.dfy`, `Frames.dfy`, `ClientSteps.dfy`, `ServerSteps.dfy`, `Preservation.dfy`: what every
  reachable world satisfies, step by step.
- `Chronicle.dfy`: every entry of every reachable log is justified by the entries before it.
- `Safety.dfy`, `Necessity.dfy`, `Refinement.dfy`, `RotationRate.dfy`, `Race.dfy`, `Progress.dfy`:
  the theorems about runs.
- `LockWait.dfy`: the timed, cancellable lock loop.
- `Client.dfy`: the sequential code as a class whose methods are run among arbitrary steps of the
  other processes, each proved to be a sequence of steps of the transition system and to succeed
  exactly when the environment lets it.
- `Watcher.dfy`: the shim's settled-content-change detector, as a class over byte arrays, against a
  predicate over its whole history.
- `SortedNames.dfy`, `Drift.dfy`: the price drift check.

A process *abandons* a lineage when it fails or dies after sending the lineage's token and before the
rename: it stops waiting for the answer, the reply is lost or unusable, or the write-back fails. A
*burn* is an abandoned rotation that the server has committed, before the abandonment or, serving the
request late, after it. The safety theorems are exact about both. Reuse is never detected without an
abandonment of the same lineage; a live sender is answered reuse exactly when the lineage is burned and
not revoked; and the answer to any outstanding request, awaited or not, is determined by the log.
`Necessity.dfy` exhibits two runs that cost a lineage: a rotation lost to a crash, and a request served
late although no rotation was ever lost. Neither condition can be dropped.

## Assumptions

- The server rotates on every successful refresh, and its random tokens never repeat. All
  authorization servers are one table.
- A login stores a newly issued credential of a new lineage, once, under one key.
- Replacing the file by rename is atomic, and JSON round-trips credentials.
- Instants are points on one clock, counted in nanoseconds without bound; only durations are 64-bit.
- The server serves a request at most once. When it does so, if ever, is unrestricted.

## Where the code and its description differ

- `normalizeURL` is described as a canonicalization. It is not idempotent: white space directly
  before trailing slashes survives the first pass. `StoreKey.IdempotentIff` gives the exact condition.
- `RefreshSkew` is described as lifetime times two fifteenths, floored at 30 s and capped at half. The
  code computes that exactly for lifetimes below 2^62 ns (`Credentials.DescribedIff`); from there on the
  doubling wraps and the margin drops to 30 s. `Credentials.RecordableLifetimeFallsShort` gives an
  `expires_in` that reaches it.
- `credstore/README.md:50-52` names the rotation that is not written back as what trips reuse detection.
  Giving up on a request the server has not served yet can do so too, with every rotation written back
  (`Necessity.LateServiceCostsLineage`). `Safety.ReuseFollowsAbandonment` states what the code guarantees.
- `refreshAt` replaces a lifetime that is not positive by fifteen minutes, but tests the wrapped product:
  `Credentials.NegativeLifetimeMayWrap` gives a negative `expires_in` recorded as almost 2^63 ns, and
  `Credentials.RecordedLifetimeIs` says what is recorded for every value.
- A negative reference price makes `pct_delta` and `direction` disagree in `compareField`; `Drift.Bands`
  gives the exact condition.

## Model

| member | source | states |
|---|---|---|
| Credentials.Skew | credstore/credstore.go:81-102 | the margin's regimes; never more than half a positive lifetime, zero otherwise |
| Credentials.RefreshSkew | credstore/credstore.go:90-102 | the wrapping, truncating code computes that closed form for every 64-bit lifetime |
| Credentials.DescribedIff | credstore/credstore.go:79-102 | the margin is the described one, two fifteenths floored and capped over unbounded integers, exactly when doubling fits in 64 bits |
| Credentials.RecordableLifetimeFallsShort | credstore/refresh.go:204-211 | an advertised lifetime, recorded exactly, whose margin is 30 s instead of more than nineteen years |
| Credentials.SkewMonotone | credstore/credstore.go:90-102 | the margin never shrinks as the lifetime grows, until doubling wraps, where it drops strictly |
| Credentials.LifetimeIs | credstore/credstore.go:112-123 | the lifetime from the two instants, cut off at 64 bits |
| Credentials.DueIff | credstore/credstore.go:125-147 | exactly when a credential is due and when it is expired, from its instants alone, in every regime of the margin; never due without an expiry or the means to refresh |
| Credentials.NeedIsUpwardClosed | credstore/credstore.go:125-147 | an expired refreshable credential needs refresh, and a need never lapses |
| Credentials.FreshOutlastsLockWait | credstore/credstore.go:139-147 | a credential of lifetime at least twice the lock wait, judged fresh, is unexpired when the wait ends |
| Credentials.ShorterLivesMayDieWaiting | credstore/credstore.go:139-147 | for every shorter lifetime some instant refutes that |
| Credentials.RecordedLifetime | credstore/refresh.go:204-211 | for every 64-bit expires_in, wrapping or not, the recorded lifetime is positive |
| Credentials.RecordedLifetimeIs | credstore/refresh.go:204-211 | which lifetime that is, from the bits of the product, for every 64-bit expires_in |
| Credentials.NegativeLifetimeMayWrap | credstore/refresh.go:204-211 | a negative expires_in that is recorded as almost 2^63 ns |
| Credentials.RenewedCarries | credstore/refresh.go:186-216 | what each field of a renewed credential comes from: bearer, refresh token and scopes from the reply, identity kept, instants from the captured one and the advertised lifetime |
| Credentials.RefreshAt | credstore/refresh.go:141-217 | exactly when each outcome occurs, from the credential and the reply alone, with the code and description of a refusal; on success what every field of the result is |
| Credentials.RenewedIsUsable | credstore/refresh.go:186-216 | a renewed credential is refreshable, of positive lifetime, unexpired and not due at its issue instant |
| Credentials.RecordedLifetimeNeverOverstates | credstore/refresh.go:204-215 | a positive advertised lifetime is never overstated, so the recorded expiry is no later than the server's |
| Credentials.ChainStaysRefreshable | credstore/refresh.go:186-216 | no chain of refreshes yields a non-expiring or non-refreshable credential or changes its identity |
| StoreKey.DecorationsShareOneKey | credstore/credstore.go:173-178 | outer white space and trailing slashes do not change the key |
| StoreKey.SpaceIff | credstore/credstore.go:176-178 | which characters the canonicalization trims as white space |
| StoreKey.IdempotentIff | credstore/credstore.go:173-178 | normalizing twice equals normalizing once exactly when no white space precedes the trailing slashes |
| StoreKey.NormalizeTwiceDiffers | credstore/credstore.go:173-178 | a URL on which two passes differ from one |
| AuthServer.OAuthStore.RotateRefreshToken | backend/internal/oauthstore/postgres.go:392-540 | when each verdict is given; a rotation adds one live successor and consumes only the presented token; a reuse leaves its lineage revoked and other rows alone; otherwise nothing changes; a lineage keeps one unconsumed token |
| AuthServer.PresentationKeepsChains | backend/internal/oauthstore/postgres.go:452-530 | a lineage keeps one unconsumed token; reuse revokes that lineage and touches no other row; a dead lineage is never rotated |
| AuthServer.DeadForever | backend/internal/oauthstore/postgres.go:321-359 | a swept lineage stays dead through every later history |
| Preservation.StepKept | credstore/refresh.go:250-277 | every step of every process, of the server and of the environment keeps the protocol invariant, whenever a request is served |
| Preservation.ReachableInv | credstore/refresh.go:226-277 | every reachable world satisfies the invariant |
| Chronicle.ReachableChronicled | credstore/refresh.go:250-277 | every dial, rename, result, read, consumption, burn and detected reuse in a reachable log is justified by what preceded it |
| Chronicle.ReusedWasAbandoned | backend/internal/oauthstore/postgres.go:457-476 | whoever presents a consumed token, its lineage was abandoned and not yet revoked; if the sender still waits, it was burned |
| Safety.AbandonmentsAreExact | credstore/refresh.go:157-178 | abandonments are exactly the steps that fail or kill a process with its token sent and its result not renamed |
| Safety.BurnsAreExact | credstore/refresh.go:237-241 | burns are exactly the steps that lose a committed rotation, late service of an orphaned request included; no lineage is burned twice |
| Safety.ReuseFollowsAbandonment | credstore/README.md:50-58 | every detected reuse follows an abandonment of the same lineage, and no lineage is detected twice |
| Safety.NoAbandonNoReuse | credstore/refresh.go:226-236 | without abandonments, in every interleaving and with any delay at the server, no consumed token is presented or outstanding and only an operator revokes |
| Safety.VerdictIsExact | backend/internal/oauthstore/postgres.go:440-499 | the server's answer to any outstanding request, from the log: never unknown, never another client's, reuse iff spent and not revoked, and for a live sender iff burned and not revoked |
| Safety.LoginRestores | credstore/credstore.go:219-242 | a login's rename leaves a live token of a lineage never abandoned or burned under its key |
| Safety.FreshLineageNeedsFreshAbandonment | credstore/credstore.go:224-242 | after that, only a later abandonment of the new lineage can lead to reuse, whatever is still outstanding |
| Safety.UnreadableNeverDials | credstore/refresh.go:257-262 | after a corrupt or unreadable locked re-read the process does not dial until it starts another refresh |
| Necessity.LostRotationCostsLineage | credstore/README.md:50-52 | a run in which one crash between commit and rename trips reuse detection |
| Necessity.LateServiceCostsLineage | cli/cmd/fishhawk/run.go:79-90 | a run in which a timed-out request is served late and revokes the lineage of the credential on disk, with no rotation lost |
| Refinement.FileIsReplayedRenames | credstore/credstore.go:253-299 | a parseable file equals the completed renames applied one at a time to the empty map |
| Refinement.UnwrittenKeysSurvive | credstore/credstore.go:224-242 | through any run a key nobody renamed keeps its entry in the file |
| Refinement.ReadsAreOrderedVersions | credstore/credstore.go:183-203 | lock-free reads return versions of the store, and later reads never earlier ones |
| RotationRate.RotationsAreSpaced | credstore/refresh.go:246-277 | successive rotations between logins are at least lifetime less margin apart, though captured instants are unordered |
| RotationRate.RotationsTakeTime | credstore/credstore.go:81-102 | n rotations of lifetime at least L span at least (n - 1) times half of L, rounded up |
| RotationRate.ReturnedIsStoredAndFresh | credstore/refresh.go:257-276 | a credential handed out is what the store holds then and is outside its window at the captured instant |
| RotationRate.ReturnedOutlastsLockWait | credstore/refresh.go:285-288 | so one living at least twenty seconds is unexpired after the longest lock wait |
| Race.RaceRotatesOnce | credstore/refresh.go:226-236 | any number of consumers racing on one credential dial at most once and are all handed the rotated one |
| Progress.MutualExclusion | credstore/refresh.go:303-354 | at most one process is between acquire and release, and no waiter, finished or dead process holds the lock |
| Progress.HolderDescends | credstore/refresh.go:250-277 | each step of the holder brings it closer to release, an answer takes it no further away, and nobody else moves it or takes its lock |
| Progress.WaiterIsNeverStuck | credstore/credstore.go:232-242 | a waiter can take a free lock; otherwise another process holds it, can proceed, and frees it by dying |
| Progress.CriticalSectionIsShort | credstore/refresh.go:250-277 | six steps of the holder release the lock, however the others and the server interleave |
| Progress.AnyoneMayStart | credstore/refresh.go:246-251 | a process at rest may start a refresh at any captured instant, or log in with a newly issued credential |
| Progress.OperationsMayFail | credstore/refresh.go:251-275 | whatever a process is doing may fail, leaving file, table and requests as they are |
| Progress.EnvironmentIsFree | credstore/refresh.go:226-241 | in any world the file may be corrupted, a process killed, a lineage revoked and an outstanding request served |
| LockWait.Descriptor.constructor | credstore/refresh.go:317-320 | the lock file is opened unlocked |
| LockWait.Descriptor.Release | credstore/refresh.go:321-324 | releasing unlocks and closes |
| LockWait.LockExclusive | credstore/refresh.go:316-341 | holds the lock or leaves nothing open; retries at every poll; a lock freed in time is taken, and a broken one reported, at the first attempt that can; cancelled only when the context is done before the next poll |
| LockWait.LockStore | credstore/refresh.go:343-354 | at most 501 attempts; no retry starts after ten seconds or the caller's deadline; a lock freed within both is taken at the first attempt that can, a free one at once |
| Client.OthersKeepOut | credstore/refresh.go:303-307 | a step of another process, or of the server for another process, leaves this one in place; while this one holds the lock nothing is written |
| Client.MeanwhileIsAnyRun | credstore/refresh.go:226-236 | between two operations of a process any run of the others can happen |
| Client.Process.LockStore | credstore/refresh.go:346-354 | takes the lock exactly when some poll finds it free, at the first that does; otherwise times out holding nothing |
| Client.Process.Unlock | credstore/refresh.go:321-324 | the release step |
| Client.Process.List | credstore/credstore.go:183-203 | the whole store as written so far, empty when missing, an error when corrupt or unreadable |
| Client.Process.Load | credstore/credstore.go:207-217 | the record under the normalized key; which error, from the file and the key |
| Client.Process.StoreLocked | credstore/credstore.go:253-299 | succeeds exactly when the store can be read back and replaced; changes the store exactly then, and only under its key |
| Client.Process.Store | credstore/credstore.go:235-242 | fails only if no poll finds the lock free or the store cannot be read back or replaced; on success every URL of the same normal form finds the credential, and every other key holds what it held just before the write |
| Client.Process.Reread | credstore/refresh.go:257-266 | the re-read under the lock and the decision it leads to |
| Client.Process.Present | credstore/refresh.go:267-276 | dials and persists: which failure for which cause, and otherwise what the reply grants, stored under the key |
| Client.Process.Dial | credstore/refresh.go:141-161 | a successor is minted exactly when the server, getting to the request in time, rotates; a request given up on stays outstanding |
| Client.Process.Hear | credstore/refresh.go:157-178 | an answer while the sender waits: a rotation exactly when the server's verdict is one |
| Client.Process.Fetch | credstore/refresh.go:157-216 | succeeds exactly on a usable reply, with what the reply grants and the minted token |
| Client.Process.UnderLock | credstore/refresh.go:255-276 | the critical section: one failure for each cause, else the stored entry or its renewal; failure leaves the store as it was |
| Client.Process.RefreshStored | credstore/refresh.go:246-277 | fails only for the listed causes: no free lock, an unreadable, corrupt or missing entry, a request unsent, unanswered or refused, an unusable reply, a store that cannot be read back or replaced; otherwise returns, and leaves in the file, the entry or its renewal, outside its window |
| Watcher.CloneBytes | backend/cmd/fishhawk-mcp-shim/transport.go:204-208 | a fresh copy |
| Watcher.Watch.Step | backend/cmd/fishhawk-mcp-shim/watcher.go:29-52 | fires exactly when this poll and the one just before read the same hash off the baseline; keeps none of the caller's bytes |
| Watcher.Watch.SetBaseline | backend/cmd/fishhawk-mcp-shim/watcher.go:54-59 | a copied baseline and no candidate |
| Watcher.FiresIffCandidateRepeats | backend/cmd/fishhawk-mcp-shim/watcher.go:41-52 | the stored candidate is a function of the whole history, and a poll fires iff it repeats |
| Watcher.TickOnce | backend/cmd/fishhawk-mcp-shim/supervisor.go:222-229 | one supervised tick |
| Watcher.Supervise | backend/cmd/fishhawk-mcp-shim/supervisor.go:199-241 | the loop realizes exactly the supervised history and its swaps |
| Watcher.LaunchContentNeverSwaps | backend/cmd/fishhawk-mcp-shim/supervisor.go:204-206 | the launch hash is the first baseline: polls that read it, or fail, never swap |
| Watcher.SwapsAreRare | backend/cmd/fishhawk-mcp-shim/watcher.go:5-11 | swaps never exceed half the polls |
| Watcher.SwapChangesBaseline | backend/cmd/fishhawk-mcp-shim/watcher.go:29-32 | a swap is always to other content, which becomes the baseline |
| Watcher.ConstantContentSettles | backend/cmd/fishhawk-mcp-shim/watcher.go:5-11 | constant content is running within two polls, after at most one swap, and never swaps again |
| SortedNames.SortNames | pricing/drift.go:166-171 | a sorted listing of the same names |
| SortedNames.SortedListingUnique | pricing/drift.go:166-171 | a sorted listing of a set of names is unique |
| SortedNames.LeqIff | pricing/drift.go:171 | the order is that of dictionaries: the first difference decides, and a prefix comes first |
| Drift.Bands | pricing/drift.go:218-252 | the severity bands without a division, the three directions and the per-million prices, for every nonzero reference; the delta leads from their price back to ours; when its sign agrees with the direction |
| Drift.BlindIff | pricing/drift.go:229-233 | a field is without reference exactly when the dataset has no price for it or a zero one |
| Drift.CheckDrift | pricing/drift.go:152-216 | the report, from the tables alone: for each referenced family and each of its four prices, what is found when it is compared with the dataset's price of the same name; one finding for an unreferenced family; every field accounted for, each finding once and in order, whatever the map iteration order |
| Drift.DueAnswers | pricing/drift.go:173-214 | exactly the findings due is exactly what the tables call for |
| Drift.CheckFamily | pricing/drift.go:173-214 | one family's contribution |
| Drift.EveryFieldIsAccountedFor | pricing/drift.go:173-214 | four fields per family: checked, unreferenced, blind or skipped, each exactly once |
| Drift.TotalSkipped | pricing/drift.go:201-207 | the fields passed over in silence are exactly those priced on neither side, counted over the tables |
| Drift.ReportsExactlyWhatIsDue | pricing/drift.go:173-214 | the findings are exactly those due |
| Drift.TotalInOrder | pricing/drift.go:166-214 | findings are strictly ordered by family and then by field, so none is repeated |
| Drift.DriftIffNotAllFine | pricing/drift.go:124-136 | a report shows drift exactly when some checked field is not fine |
| Drift.HighSeverity | pricing/drift.go:113-122 | whether some finding is high |
| Drift.HasDrift | pricing/drift.go:124-136 | whether some finding is warn or high |
| Drift.JudgeReport | pricing/drift.go:255-275 | the counts partition the findings, and the verdict follows severity, drift, then missing references |
| Drift.RunCheck | pricing/cmd/price-drift/main.go:48-74 | the job: for every table and dataset the drift flag and a warn or high verdict are raised exactly when some checked field is not fine |

## Left out

- HTTP transport, form encoding, redirect refusal and error texts: only the cases of a reply are modelled.
- `Refresh` called directly, outside `RefreshStored`: its caller owns the persistence duty, and no consumer in the repository does so.
- File permissions, path resolution, temporary-file names and the JSON bytes of the store.
- Removal or hand-editing of the credentials file by an operator; corruption of the file is modelled.
- Revocation of a single refresh token by an operator; revocation of a lineage is modelled.
- The transaction isolation inside the authorization server, its access tokens and its code redemption: each table operation is one atomic step.
- Client.Process.LockStore: counts attempts rather than time; the timed loop is `LockWait.LockExclusive`.
- LockWait.LockExclusive: where timer and context are both ready before `select` is entered Go picks at random; here the earlier one wins, and only a tie is arbitrary.
- LockWait.LockStore: inherits that order.
- Watcher.TickOnce: the swap follows the firing poll at once; the source arms it and may defer it until the session is quiet. The watcher's own contract holds for any sequence of polls and resets.
- Watcher.Supervise: no deferral, crash respawn, session replay or manual swap request.
- Credentials.RefreshAt: an undecodable body is truncated by characters rather than bytes.
- Floating-point rounding at the edges of the drift bands, and the text of the Markdown table.
- Cost lookup by longest family prefix, the frontend, the site, the runner and the rest of the backend.
