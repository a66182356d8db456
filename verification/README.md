# Release notification: a verified model

The repository watches GitHub repositories and e-mails confirmed subscribers when a new release
appears. An application process runs the subscription service and a scanner; it publishes e-mail
commands to a JetStream stream; a notifier process consumes the stream and sends the mail. This
project models that protocol in Dafny and proves what it keeps under interleaving, failed and
ambiguous writes, panics, cancellation and crashes. `dafny verify dfyconfig.toml` checks everything.

## How it is organised

- `SystemModel`, `SystemInvariant`, `SystemTheorems`: the application as one state machine. A step is
  one database statement, one publish, one GitHub answer or one scheduling step of a goroutine. The
  machine keeps a log of what happened; the invariant says that every logged event was admissible
  when it happened (`History`), and the whole-run theorems are read off such logs.
- `Pool`, `ScanCycle`: the worker pool as dispatcher and goroutines with their own program counters,
  and the rate-limit flag on top of it. `SystemModel` runs this machine.
- `Store`, `Service`, `Scanner`, `Bus`, `Boot`, `Consumer`, `CachedClient`: each component twice. Its
  specification is a function or machine over values; the program's objects are classes whose methods
  are proved equal to that specification. `SoloRuns`, `Subscriber.CallbackMatches` and
  `Cache.UndisturbedMatches` prove that the machines' steps of one undisturbed call do exactly what
  those objects do.
- `EndToEnd`: the machines joined: the consumer fed with the application's stream, the scanner's feed
  coming through the cache, the stream's windows set by the boots. `WitnessRun`: runs from the empty
  database, one in which a cursor moves and a family that reaches the bound on stored copies.
- `RepoFormat`, `Notify`: the format check and split, the dedup ids and the dedup window in 64-bit
  arithmetic.

## What is assumed of the environment

- Each SQL statement or transaction is atomic. Row ids are never reused, even after a failed insert.
  Generated tokens never repeat and are not empty. The tables start empty.
- Every remote write ends in one of three ways: done, not done, or done but reported as an error.
- A JetStream publish with a message id stores a copy iff no copy with that id was stored within the
  window. A duplicate is acknowledged and does not restart the window. The window may be changed by a
  boot at any time; a copy remembers the window in force when it was stored.
- The broker makes at most `MaxDeliver` deliveries of a message. Deliveries of one message may overlap.
- There is one scanner process (docs/system-design.md:320 requires a single replica); a crash drops
  all calls and the scan cycle in flight.
- Release tags contain no colon (Git's rules for ref names forbid it). This is a precondition, named
  `ColonFreeTags`, of exactly those theorems that need it; `Notify.ColonTagsCollide` shows why.
- Handlers and calls return; panics inside a check are ordinary returns of that check.

## Where the code does not do what a comment or document says

The model follows the code.

- Documents describing persist-then-send (docs/system-design.md:216) are older than the code, which
  sends before it advances the cursor.
- "Exactly one email per subscriber" (scanner.go:167-169) holds only inside the window: a long retry
  session stores up to floor(L / window) + 1 copies (`SystemTheorems.RetrySessionBound`, reached by
  `WitnessRun.RetrySessionReachesItsBound`), a tag that
  comes back is announced again (`ScannerSpec.ReturningTagIsAnnouncedAgain`), and the notifier can mail
  one copy as often as it may deliver it (`Consumer.MailsCanReachTheMaximum`): `Consumer.MailedAgainIff`
  says exactly when one more mail can come.
  Inside the window, and with a calm notifier, it is one
  (`SystemTheorems.OneCopyPerWindow`, `Consumer.CalmRunsMailOnce`); `EndToEnd.MailsPerSubscriber` is
  the bound over both processes.
- "A failed park stays redeliverable" (subscriber.go:108) is true only of hopeless payloads below the
  cap (`Consumer.FailedParkIsRedeliverableIff`); a command that used up its deliveries is lost
  (`Consumer.FailedParkCanLoseACommand`).
- Unreadable delivery metadata counts as delivery 1 (subscriber.go:81), so with `MaxDeliver` above 1 a
  last delivery can end in a nak and lose its command (`Consumer.UnreadableCountCanLoseACommand`).
  `Consumer.Fates` lists this cause of exhaustion beside the failed
  park, the lost settlement and the death of the process.
- "`__none__` can't collide with any valid Git tag" (cached_client.go:16): it is a legal tag, and it is
  read back as "no release" (`Cache.CachedAnswerRoundTrips`).
- The ten minutes of the cache count from the store's write, not from GitHub's answer
  (`Cache.StalenessIsFromTheWrite`), and failed gets and sets can make the cached client step back to
  an older tag (`Cache.AnswersCanGoBack`). The scanner then announces both directions, since it
  compares with the last tag only. `Cache.CarefulRunsMoveForward` says which
  steps keep this from happening, and `Cache.CarelessStepsGoBack` that none of the others does: any run
  can be continued into such a return after any other step.
- "Skipping next tick" (scanner.go:82): a run between 0.8 and 1 interval long drains nothing, because
  no tick fell due during it (`Ticker.Run`).
- "Unique per (repo, tag, recipient)" (command.go:38) needs colon-free tags.
- The window is three intervals only when SCAN_INTERVAL is positive: the scanner's default for 0 is
  applied after the window was set (`Boot.WindowMatchesScannerIff`).
- "First sighting is silent, the release predates every subscription" (scanner.go:156-157): the silence
  holds, the reason does not. A repo is scanned only once a subscription to it was confirmed
  (`SystemTheorems.TagsAreFetchedAfterAConfirmation`), and an answer without a release leaves no cursor,
  so a repo that had no release at its first checks has its first release recorded without being
  announced (`ScannerSpec.FirstReleaseIsSkipped`). `ScannerSpec.AnnouncedIff` says exactly which answers of a feed
  are announced.

## Model

| member | source | states |
|---|---|---|
| SystemTheorems.CursorMovesOnlyWhenAnnounced | internal/app/scanner/scanner.go:143-207 | In every run, with failed and ambiguous sends, panics, cancellation, failed saves and crashes anywhere: a stored cursor that moves from a present tag to another is saved by a check that itself fetched the tag, then took the returned snapshot of exactly the repo's confirmed, not removed subscriptions, then had every one's publish in that round accepted, with no save of the repo since its fetch; and the stream already holds each one's command |
| SystemTheorems.AcceptedMeansOwnCopy | internal/shared/notify/command.go:39-41 | An accepted release publish has left a copy of that very command to that very recipient: deduplication never swallows somebody else's (tags without a colon) |
| SystemTheorems.OnlySavesWriteCursors | internal/app/scanner/scanner.go:151-207 | Among all steps of the application only the save at the end of a check writes a cursor, and it writes the tag that check fetched |
| SystemTheorems.StoredReleaseWasOptedIn | internal/app/scanner/scanner.go:162-181 | Double opt-in end to end: behind every release command in the stream stand, in order, the subscription's creation, a presentation of its own confirmation token, its confirmation, the snapshot, the publish |
| SystemTheorems.StoredConfirmationWasCommitted | internal/app/service/service.go:124-134 | Every confirmation command in the stream names a token committed with its subscription before the publish, and goes to that address |
| SystemTheorems.FirstSightingStoresNothing | internal/app/scanner/scanner.go:156-160 | A repo without a cursor row has never had a release command stored |
| SystemTheorems.StoredCursorNeverReturns | internal/app/scanner/scanner.go:151-207 | If the fetched tags of a repo never return to a tag they left, its stored cursor never revisits a value |
| SystemTheorems.TagIsAnnouncedOnce | internal/app/scanner/scanner.go:162-207 | And each tag has at most one announcing round that ends in a save |
| SystemTheorems.NoPublishAfterItsSave | internal/app/scanner/scanner.go:156-207 | And after a tag was saved no release of it is published, to anybody |
| SystemTheorems.TagsAreFetchedAfterAConfirmation | internal/app/repository/repository.go:108-116 | Every tag, the silently recorded first one included, is fetched after a subscription of its repo was confirmed |
| SystemTheorems.RetrySessionBound | internal/app/scanner/scanner.go:167-194 | In any run, a stretch of length l stores at most floor(l / w) + 1 copies of one release id when every configured window was at least w |
| SystemTheorems.OneCopyPerWindow | internal/shared/notify/command.go:20-22 | Between two moments of a run less than a window apart at most one copy of an id is stored |
| SystemTheorems.ThreeRunsStoreOneCopy | internal/shared/notify/command.go:20-22 | For a scanner started at any time whose runs each take less than an interval: from the start of a run to the end of the second next at most one copy of an id is stored, in every run of the application with windows of three intervals |
| SystemTheorems.StoredWindows | cmd/app/main.go:121-125 | When no boot configures a window below w, no copy in the stream was ever admitted under one |
| SystemTheorems.ScanCycleBounds | internal/app/scanner/scanner.go:102-121 | In every reachable cycle: at most `size` handlers in flight, at most `size` checks rate-limited, at most `size - 1` GitHub calls started after the flag was raised, none by a later dispatched job, no repo checked twice |
| SystemTheorems.ScannedReposAreWellFormed | internal/app/scanner/scanner.go:137-140 | Every repo given to a worker splits into two non-empty parts that join back, so the invalid-format exit is unreachable |
| SystemTheorems.EveryConfirmedRepoIsListed | internal/app/scanner/scanner.go:96-107 | A scan's jobs are exactly the repos with a confirmed subscription, each once |
| SystemTheorems.CallsFailFreely | internal/app/service/service.go:90-191 | The environment is not restrained: time, boots and crashes come in any state, a call fails at any point, its writes and publishes end in every way |
| SystemTheorems.InsertIsFree | internal/app/service/service.go:108-126 | An insert with tokens never drawn before can end in every way |
| SystemTheorems.LookupsFind | internal/app/service/service.go:90-184 | Calls begin at any moment and find what is there |
| SystemTheorems.ChecksProceed | internal/app/scanner/scanner.go:95-165 | Scans begin and end when they can; a check with its tag goes on to the cursor, and then to the poll record or the snapshot, exactly by whether there is news |
| SystemTheorems.ChecksEndFreely | internal/app/scanner/scanner.go:143-209 | A check can get any tag, and have every publish and its save end in every way |
| SystemTheorems.ChecksFailFreely | internal/app/scanner/scanner.go:107-134 | A check can be refused for the rate, and panic at any point |
| SystemTheorems.StoreIntegrity | internal/app/db/migrations/0001_init.up.sql:17-39 | In every reachable state, also between two statements of one call: unique pairs, unique tokens, no dangling token, at most one token per subscription, exactly one while unconfirmed |
| SystemTheorems.RowAuthority | internal/app/service/service.go:150-187 | No step changes a subscription row except a confirm that presented this row's own token and a delete that found this row by its own unsubscribe token |
| SystemTheorems.TokenAuthority | internal/app/service/service.go:158-168 | A live subscription loses its token only to a call that presented that token, and only once confirmed |
| SystemTheorems.NewRowsHaveNewIds | internal/app/db/migrations/0001_init.up.sql:6 | A new row's id was never any subscription's before |
| SystemTheorems.NoABA | internal/app/service/service.go:150-168 | In every run, a confirm that looked its token up for one subscription changes no other row and takes no other row's token; if that subscription was removed meanwhile, every row there is, also the same pair created again, is another one |
| SystemTheorems.ConfirmTouchesOnlyItsOwn | internal/app/service/service.go:150-160 | No ABA: an in-flight confirm changes no other row and no token, whatever was deleted and created since its lookup |
| SystemTheorems.DropTouchesOnlyItsOwn | internal/app/service/service.go:162-168 | An in-flight token delete leaves every other subscription's token in place |
| SystemTheorems.RemovedStaysAway | internal/app/repository/repository.go:85-87 | The row of a removed subscription never comes back |
| SystemTheorems.UnsubscribeIsFinal | internal/app/service/service.go:173-191 | Once an unsubscribe's delete is done: in every later state the row is gone, no later snapshot contains it, and any later release publish to it comes from an earlier snapshot |
| SystemTheorems.PublishedNamesAreClean | internal/app/service/service.go:16 | Repo and tag of every release publish are colon-free, the repo because of the subscribe check |
| SystemInvariant.StepKeepsInv | internal/app/scanner/scanner.go:136-210 | Each of the 27 kinds of step keeps the joint invariant of tables, log, calls in flight, scan cycle and stream |
| SystemInvariant.RunKeepsInv | internal/app/scanner/scanner.go:56-93 | The invariant holds after every run from the empty database |
| SystemInvariant.CreateRowsKeepsInv | internal/app/service/service.go:117-126 | The insert of both rows keeps it, also when it fails, is refused by an index or succeeds unreported |
| SystemInvariant.ConfirmRowKeepsInv | internal/app/service/service.go:158-160 | The confirming update keeps it even if the row is gone by then |
| SystemInvariant.DeleteRowKeepsInv | internal/app/service/service.go:186-188 | The cascading delete keeps it under calls in flight for the same row |
| SystemInvariant.TakeSnapshotKeepsInv | internal/app/scanner/scanner.go:162-165 | The list the database returns is, by the invariant, exactly the confirmed and not removed subscriptions of the log |
| SystemInvariant.SendKeepsInv | internal/app/scanner/scanner.go:171-194 | Each publish keeps it, whether accepted, lost or stored unreported |
| SystemInvariant.SaveKeepsInv | internal/app/scanner/scanner.go:200-207 | Each save is admissible: announced by a fully accepted round, or no news |
| History.MoveAnnounced | internal/app/scanner/scanner.go:167-207 | In an admissible history, a save that moves a cursor is preceded by its snapshot and by an accepted publish to each recipient in between |
| History.DoubleOptIn | internal/app/service/service.go:145-171 | In an admissible history every release publish goes back to creation, presentation of the own token, confirmation and snapshot, in this order |
| History.RemovedIsFinal | internal/app/repository/repository.go:118-127 | After a removal no snapshot contains the subscription; later publishes come from earlier snapshots |
| History.BornOnce | internal/app/db/migrations/0002_drop_soft_delete.up.sql:13-14 | Ids, confirmation tokens and unsubscribe tokens are minted once; a pair is created again only after its removal |
| History.CursorNeverRevisits | internal/app/domain/models.go:27-29 | On a feed that never returns, a saved tag that comes back was never left in between |
| History.AnnouncedOnce | internal/app/scanner/scanner.go:156-207 | On such a feed a second save of a tag is silent |
| History.FirstSightingSilent | internal/app/scanner/scanner.go:156-160 | Before a repo's first save there is no snapshot and no publish for it |
| SoloRuns.SubscribeAlone | internal/app/service/service.go:90-142 | The machine's checks, insert and publish of one undisturbed subscribe have exactly the effect of the service object's method, also when the insert is refused or fails and when the confirmation cannot be composed or sent |
| SoloRuns.ConfirmAlone | internal/app/service/service.go:150-170 | The same for confirm |
| SoloRuns.UnsubscribeAlone | internal/app/service/service.go:178-190 | The same for unsubscribe, which answers success exactly when the machine's delete step is reported done |
| SoloRuns.QuietCheckAlone | internal/app/scanner/scanner.go:143-160 | The machine's steps of an undisturbed check with nothing to announce have exactly the effect of the scanner object's method |
| SoloRuns.LoudCheckAlone | internal/app/scanner/scanner.go:162-209 | The same for a check that announces, whichever sends fail |
| SoloRuns.AnnouncementRuns | internal/app/scanner/scanner.go:143-209 | From every state whose handler is in its GitHub call with a new tag to come, the machine can take the whole announcing check, for every pattern of failing sends |
| WitnessRun.ACursorMoves | internal/app/scanner/scanner.go:151-207 | For every subscriber, repo and two different tags, a run from the empty database whose last step moves the cursor from the one tag to the other |
| WitnessRun.RetrySessionReachesItsBound | internal/app/scanner/scanner.go:167-207 | For every window w and every n a run from the empty database and a session of length (n - 1) * w in which one release id is stored n times, which is floor(l / w) + 1 |
| ScannerSpec.CursorMovesIff | internal/app/scanner/scanner.go:167-209 | An announcing check moves the cursor exactly when every publish and the save went through; then everyone has a copy; otherwise the database is unchanged and the next check announces again |
| ScannerSpec.CheckReplyIff | internal/app/scanner/scanner.go:136-210 | Exactly when a check answers what: ErrRateLimited iff the repo splits and GitHub refused for the rate, the format error iff it does not split, an error iff GitHub was unreachable, a read it came to failed, or the save of a check without news failed |
| ScannerSpec.FailedCheckChangesNothing | internal/app/scanner/scanner.go:143-165 | When GitHub gives no tag or a read fails, database and stream are as before |
| ScannerSpec.CheckMovesCursorIff | internal/app/scanner/scanner.go:151-209 | A present cursor changes exactly with news, both reads done, every publish accepted and the save applied; a first one is written exactly with the cursor read and the save applied; and only to the fetched tag |
| ScannerSpec.CheckTouchesOnlyItsCursor | internal/app/scanner/scanner.go:136-210 | A check changes no subscription, token or other cursor, and publishes only with news and the subscribers read |
| ScannerSpec.RetryStoresOnlyTheMissing | internal/app/scanner/scanner.go:167-194 | A retry within the window stores no second copy for a recipient the first attempt reached, whatever the recipients and outcomes of the retry |
| ScannerSpec.SentServes | internal/app/scanner/scanner.go:171-194 | A first announcement leaves a copy of this moment for everyone it reached |
| ScannerSpec.SentKeepsOk | internal/app/scanner/scanner.go:171-194 | The send loop keeps copies of one id a window apart and only appends |
| ScannerSpec.SentStoresIff | internal/app/scanner/scanner.go:171-194 | The send loop stores a new copy for a recipient it reaches exactly when none is inside the window |
| ScannerSpec.ReturningTagIsAnnouncedAgain | internal/app/domain/models.go:27-29 | A feed that goes back to a tag announces it again, and a recipient gets a second copy exactly when the first one has left the window: `a tag is never announced twice` is false of the code |
| ScannerSpec.AnnouncedIff | internal/app/scanner/scanner.go:147-160 | Over any feed of answers for a repo without a cursor, an answer is announced exactly when some release was seen before and it is another one |
| ScannerSpec.FirstReleaseIsSkipped | internal/app/scanner/scanner.go:147-160 | A repo that has no release during the first checks: its first release is recorded without a publish, now and at every later check that sees it |
| ScannerObject.Scanner.SendAll | internal/app/scanner/scanner.go:170-194 | The loop over subscribers leaves exactly the specified stream and reports whether all were accepted |
| ScannerObject.Scanner.CheckRepo | internal/app/scanner/scanner.go:136-210 | The whole check equals its specification on database, stream and result |
| Ticker.Run | internal/app/scanner/scanner.go:63-93 | Exactly when runs start, for every sequence of run times: the first at once, each other on the first tick after the previous one's end if that was a run of the loop longer than 0.8 intervals, else on the first tick after its start or at once if that fell inside it; runs each shorter than the interval start on successive ticks |
| Ticker.Drain | internal/app/scanner/scanner.go:86-89 | After a drain the next tick is the first one after now |
| Ticker.ThreeShortRunsFit | internal/app/scanner/scanner.go:63-91 | Three consecutive short runs end within three intervals of the first one's start |
| Pool.NewWorkerPool | internal/app/scanner/workerpool.go:12-17 | The size is at least one, and the given one when that is positive |
| Pool.StepKeepsInv | internal/app/scanner/workerpool.go:33-55 | Every dispatcher and goroutine step keeps slots and wait group equal to the goroutines that hold them |
| Pool.PoolSafety | internal/app/scanner/workerpool.go:21-56 | Under every schedule: handlers in flight <= held slots <= size, started jobs are the list's prefix in order, Run returns only when all goroutines exited, and without cancellation all jobs were run |
| Pool.AtMostOneStartsAfterCancel | internal/app/scanner/workerpool.go:34-45 | In every run at most one job starts after the cancel, and none if the dispatcher had not passed its check of the context |
| Pool.CancelledCommitsNoMore | internal/app/scanner/workerpool.go:34-45 | Once cancelled, no step commits the dispatcher to another job |
| Pool.NoDeadlock | internal/app/scanner/workerpool.go:33-55 | Every state short of the return has an enabled step, given handlers return |
| Pool.StepSpends | internal/app/scanner/workerpool.go:33-55 | A measure linear in the jobs strictly decreases at every scheduling step |
| Pool.RunsAreFinite | internal/app/scanner/workerpool.go:33-55 | No run has more than 7 scheduling steps per job and 6 more |
| ScanCycle.ScheduleKeepsInv | internal/app/scanner/workerpool.go:33-55 | The rate-limit invariant survives dispatcher and goroutine steps |
| ScanCycle.MoveKeepsInv | internal/app/scanner/scanner.go:107-120 | It survives every handler step, including the compare-and-swap and recovered panics |
| ScanCycle.RateLimitBounds | internal/app/scanner/scanner.go:102-121 | At most `size` rate-limited checks, at most `size - 1` late calls, none by a job dispatched after the flag |
| ScanCycle.RateLimitOverRuns | internal/app/scanner/scanner.go:102-121 | Counted over the steps of any cycle: at most `size` refusals, at most `size - 1` calls started with the flag up, none by a job dispatched when it was already up |
| ScanCycle.RefusalRaisesFlag | internal/app/scanner/scanner.go:107-120 | A refused check has the flag up after its next step, and a job that looks at a raised flag returns at once |
| Store.CreateKeepsIntegrity | internal/app/repository/repository.go:23-37 | The two-row transaction keeps all table invariants, also when an index refuses it |
| Store.ConfirmKeepsIntegrity | internal/app/repository/repository.go:78-83 | So does the confirming update, on a missing row too |
| Store.DeleteKeepsIntegrity | internal/app/repository/repository.go:85-87 | So does the delete with its cascade |
| Store.DropTokenKeepsIntegrityIff | internal/app/repository/repository.go:104-106 | A token delete keeps them exactly when the token is not a pending subscription's |
| Store.DeleteUndoesCreate | internal/app/repository/repository.go:28-37 | Deleting a fresh row restores both tables |
| Store.DeleteFreesThePair | internal/app/db/migrations/0002_drop_soft_delete.up.sql:13-14 | After a delete the pair can be inserted again |
| RepositoryObject.Repository.CreateSubscriptionWithToken | internal/app/repository/repository.go:23-37 | Both rows or neither, refused exactly when a unique index is hit |
| RepositoryObject.Repository.FindSubscriptionByEmailAndRepo | internal/app/repository/repository.go:39-51 | Finds a row of the pair iff there is one |
| RepositoryObject.Repository.FindSubscriptionByUnsubscribeToken | internal/app/repository/repository.go:64-76 | Finds a row with that token iff there is one |
| RepositoryObject.Repository.FindTokenByValue | internal/app/repository/repository.go:89-102 | Finds a token row with that value iff there is one |
| RepositoryObject.Repository.ConfirmSubscription | internal/app/repository/repository.go:78-83 | Updates the row if it is there; a missing row is no error |
| RepositoryObject.Repository.DeleteSubscription | internal/app/repository/repository.go:85-87 | Removes the row and its tokens; a missing row is no error |
| RepositoryObject.Repository.DeleteToken | internal/app/repository/repository.go:104-106 | Removes the token row only |
| RepositoryObject.Repository.SaveWatchedRepoTag | internal/app/repository/repository.go:142-155 | Inserts or overwrites the repo's cursor |
| RepositoryObject.Repository.FindConfirmedSubscriptionsByRepo | internal/app/repository/repository.go:118-127 | Exactly the confirmed rows of the repo, each once |
| RepositoryObject.Repository.FindDistinctConfirmedRepos | internal/app/repository/repository.go:108-116 | Exactly the repos with a confirmed row, each once |
| ServiceSpec.SubscribeCreatesPending | internal/app/service/service.go:90-143 | A successful subscribe adds one pending row under a new id, with its token, and keeps the table invariants |
| ServiceSpec.SubscribeReplyIff | internal/app/service/service.go:90-143 | Exactly when subscribe answers what: success iff the format matches, the lookup works, the pair is free, GitHub knows the repo, both tokens are drawn, the insert is done and no index refuses it; not-found and rate-limited iff GitHub said so; already-subscribed iff the pair is taken |
| ServiceSpec.RefusedSubscribeChangesNothing | internal/app/service/service.go:91-126 | Short of its insert a subscribe has changed nothing |
| ServiceSpec.InsertIsBothOrNone | internal/app/service/service.go:117-126 | The insert adds the pending row and its token, or neither; a call told of a failure mails nothing |
| ServiceSpec.SubscribeMails | internal/app/service/service.go:128-142 | A successful subscribe whose confirmation is composed and reaches the broker leaves exactly one new command, with this token and to this address, under the token's id; otherwise none |
| ServiceSpec.ConfirmIsOneShot | internal/app/service/service.go:145-171 | A successful confirm confirms the token's own subscription; presenting the token again finds nothing exactly when its delete went through |
| ServiceSpec.ConfirmReplyIff | internal/app/service/service.go:145-171 | Exactly when confirm answers success, not found or an error |
| ServiceSpec.ConfirmChangesOnlyItsOwn | internal/app/service/service.go:150-168 | A confirm changes at most the flag of the row its token belongs to and takes at most that token, after the update was reported |
| ServiceSpec.UnsubscribeReplyIff | internal/app/service/service.go:173-191 | Exactly when unsubscribe answers success, not found or an error |
| ServiceSpec.UnsubscribeRemovesItsRow | internal/app/service/service.go:178-190 | Success means that exactly the row with the presented token is gone, with its tokens; not found and a delete that did not happen leave everything as it was |
| ServiceSpec.UnsubscribeUndoesSubscribe | internal/app/service/service.go:173-191 | Subscribing and unsubscribing, with a confirm in between or not, restores every table |
| ServiceObject.Service.Subscribe | internal/app/service/service.go:90-143 | Equals its specification: every error exit in order, the insert, the confirmation whose failure is only logged |
| ServiceObject.Service.ConfirmSubscription | internal/app/service/service.go:145-171 | Equals its specification; a failed token delete is only logged |
| ServiceObject.Service.Unsubscribe | internal/app/service/service.go:173-191 | Equals its specification |
| RepoFormat.MatchIffTwoNames | internal/app/service/service.go:16 | The regular expression accepts exactly the texts whose split at the first slash gives two non-empty names |
| RepoFormat.AcceptsJoinedNames | internal/app/service/service.go:16 | Of texts joined by their first slash, exactly those are accepted whose two parts are non-empty and made of ASCII letters, digits, full stop, low line and hyphen, by code |
| RepoFormat.AcceptedRepoSplits | internal/app/service/service.go:91-103 | An accepted repo splits losslessly into two non-empty slash-free parts and has no colon |
| Notify.DedupWindowIsThreeIntervals | internal/shared/notify/command.go:20-22 | In 64-bit arithmetic the window is three intervals exactly when three of them fit |
| Notify.ReleaseIdsCollideIff | internal/shared/notify/command.go:39-41 | For colon-free repos, exactly when two release ids are equal |
| Notify.ReleaseIdInjective | internal/shared/notify/command.go:39-41 | With colon-free tags an id determines repo, tag and recipient |
| Notify.ColonTagsCollide | internal/shared/notify/command.go:39-41 | A colon in a tag can make two recipients share an id |
| Notify.ReleaseIdIsNoConfirmationId | internal/shared/notify/command.go:33-41 | No release id is a confirmation id |
| Notify.ConfirmationIdInjective | internal/shared/notify/command.go:33-35 | A confirmation id determines its token |
| Bus.PublishKeepsOk | internal/app/natspublisher/publisher.go:21-34 | A publish only appends, keeps copies of one id a window apart, and leaves a copy once it reached the broker |
| Bus.CopyIsTheRecipients | internal/shared/notify/command.go:39-41 | A stored copy with a release id is that repo's, tag's and recipient's command |
| Bus.CopiesFit | internal/shared/notify/command.go:20-22 | Copies of one id in a stretch fit one more than whole windows in it |
| Bus.SessionBound | internal/shared/notify/command.go:20-22 | At most floor(l / w) + 1 copies in a stretch of length l |
| Publishing.Broker.Publish | internal/app/natspublisher/publisher.go:30-32 | Stores iff the message reaches the broker and its id is fresh; success otherwise means duplicate |
| Publishing.EmailNotifier.SendConfirmation | internal/app/service/email_notifier.go:25-39 | Publishes the recipient's command under the token's id, or nothing when composing fails |
| Publishing.EmailNotifier.SendReleaseNotification | internal/app/service/email_notifier.go:41-55 | Publishes the recipient's command under the id of repo, tag and recipient, or nothing when composing fails |
| Boot.WindowStays | internal/shared/natsbus/conn.go:44-64 | Over every order of boots and crashes, a window stays until an application's own update takes effect |
| Boot.NotifiersWriteNoWindow | cmd/notifier/main.go:109-111 | Runs of notifiers alone write no window |
| Boot.EnvironmentIsFree | cmd/app/main.go:118-125 | Boots of either kind start and die at any moment, and each broker call ends in every way |
| Boot.AppBootSetsThreeIntervals | cmd/app/main.go:118-125 | Over every order and number of boots from the empty broker on: when an application with interval I > 0 has its update done, the window is 3 I and survives any further boots without another such update |
| Boot.ScannersWindow | cmd/app/main.go:118-125 | From the empty broker on: when the scanner starts, and after any later boots however they fail, the window is at least three of the least interval of all applications |
| Boot.WindowMatchesScannerIff | cmd/app/main.go:121-129 | The window is three of the scanner's own intervals exactly when SCAN_INTERVAL is positive and 3 I fits; for 0 it is 120 s where the scanner needs 900 s |
| Natsbus.EnsureStreams | internal/shared/natsbus/conn.go:44-64 | Success means both streams exist; an existing window is never touched |
| Natsbus.AppBoot | cmd/app/main.go:118-125 | The broker after an application's boot, for every failure; 3 I when it succeeds |
| Natsbus.NotifierBoot | cmd/notifier/main.go:109-111 | A notifier's boot leaves an existing window alone |
| Consumer.StepKeepsInv | internal/notifier/subscriber.go:76-121 | Every delivery step, also of overlapping and dying deliveries, keeps the delivery invariant |
| Consumer.EnvironmentIsFree | internal/notifier/subscriber.go:76-121 | The environment is not restrained: any command arrives, deliveries overlap and die at any point, acceptances, parks and settlements end in every way |
| Consumer.Fates | internal/notifier/subscriber.go:43-121 | Every message is pending, acked (the mailer accepted it in that delivery), termed (parked first, and hopeless or at its cap) or exhausted, and exhausted only by a failed park, a lost settlement, a death or unreadable metadata; at most maxDeliver deliveries |
| Consumer.FatesAreFinal | internal/notifier/subscriber.go:86-120 | A fate other than pending never changes |
| Consumer.PendingIsNotStuck | internal/notifier/subscriber.go:63-71 | A pending message can be delivered again or has a delivery in progress |
| Consumer.FailedParkIsRedeliverableIff | internal/notifier/subscriber.go:106-118 | After a failed park, in any delivery, the message can be delivered again exactly when it is a hopeless payload below its cap |
| Consumer.FailedParkCanLoseACommand | internal/notifier/subscriber.go:108-117 | For every maximum, a run in which a failed park at the cap leaves a command that was never accepted, is in no dead-letter stream and gets no further delivery |
| Consumer.UnreadableCountCanLoseACommand | internal/notifier/subscriber.go:81-84 | For every maximum above one, the same by unreadable metadata in the last delivery, without a try at parking |
| Consumer.MailsAreBounded | internal/notifier/subscriber.go:63-71 | The mailer takes one message at most maxDeliver times |
| Consumer.MailsCanReachTheMaximum | internal/notifier/subscriber.go:89 | For every maximum, a run with lost acks in which it takes one message that often |
| Consumer.CalmRunsMailOnce | internal/notifier/subscriber.go:76-121 | Without unreported acceptances, lost acks, deaths after acceptance and overlapping deliveries, an acked message was mailed exactly once, every other at most once, and a parked or exhausted one never |
| Consumer.MailedAgainIff | internal/notifier/subscriber.go:63-121 | At any moment of any run a message can be mailed once more exactly when it is a command that may be delivered again or is with the handler |
| EndToEnd.MailsPerSubscriber | internal/app/scanner/scanner.go:167-169 | Application and notifier together: one release id makes at most maxDeliver * (floor(l / w) + 1) mails in a retry session of length l, and at most floor(l / w) + 1 when the notifier's run is calm |
| EndToEnd.NoRecipientNoMail | internal/notifier/handler.go:21-23 | A command without a recipient never reaches the mailer |
| EndToEnd.EverySubscriberIsAccountedFor | internal/app/scanner/scanner.go:167-207 | When a cursor has moved and what the stream held then has reached the notifier, with or without more: for every subscriber of the saving check's own round the message of that very release command to that address is there, and it is pending, mailed, in the dead-letter stream, or used up |
| EndToEnd.BootsSupplyWindows | cmd/app/main.go:118-125 | When the stream's windows are those the boots leave, from the empty broker on, and every application's interval is at least I > 0, no window the application sees is below 3 I |
| EndToEnd.BootedScannerStoresOneCopy | internal/shared/notify/command.go:20-22 | Boots, application and scanner together: three consecutive short runs store at most one copy of an id, whatever boots in between |
| EndToEnd.CarefulFeedNeverReturns | internal/app/scanner/scanner.go:143-149 | The feed the scanner sees through a careful cached client never comes back to a tag it left, if GitHub's answers never do |
| EndToEnd.CarefulFeedAnnouncesOnce | internal/app/scanner/scanner.go:156-207 | Then each tag has at most one announcing round that ends in a save, and no release of it is published after that save |
| Subscriber.CallbackMatches | internal/notifier/subscriber.go:76-121 | The machine's steps of one undisturbed delivery park, settle and leave open exactly what the callback method does |
| Subscriber.Notifier.RunHandler | internal/notifier/handler.go:15-31 | Permanent for unreadable or recipient-less payloads, which never reach the mailer; transient for a refused send |
| Subscriber.Notifier.OnMessage | internal/notifier/subscriber.go:76-121 | Disposition, dead-letter stream, mailer and the three counters after one delivery, for every outcome |
| Cache.BoundedStaleness | internal/app/github/cached_client.go:13-89 | Every answer is this call's own from GitHub, or one given earlier to the same operation, owner and repo, written less than 600,000,000,000 ns before it was read, and unchanged exactly when it is not the tag `__none__` |
| Cache.StalenessIsFromTheWrite | internal/app/github/cached_client.go:85-89 | Concrete family: with a write `delay` after the answer, an answer of age 600,000,000,000 + delay - 1 ns is returned |
| Cache.StoreIsWellTyped | internal/app/github/cached_client.go:13-21 | In every run a validate key holds only ok or 404, a latest key only non-empty text that decodes back to its answer exactly when that is not the sentinel tag, and nothing stems from a rate limit or failure |
| Cache.CachedAnswerRoundTrips | internal/app/github/cached_client.go:17-21 | Encoding and decoding agree exactly when the tag is not `__none__` |
| Cache.AnswerIsReadBack | internal/app/github/cached_client.go:13-21 | What GitHub told of success or absence is what every working get reads for 600,000,000,000 ns after the write, and no longer; rate limits and failures leave the store as it was |
| Cache.StoresOnlyItsOwn | internal/app/github/cached_client.go:37-89 | A call leaves the answers to every other request as they were |
| Cache.KeyInjective | internal/app/github/cached_client.go:37-62 | Keys of different requests differ |
| Cache.FailedGetIsPlain | internal/app/github/cached_client.go:37-83 | A call whose get failed returns what GitHub answered to it, whatever happens next |
| Cache.AnswersCanGoBack | internal/app/github/cached_client.go:61-89 | Concrete run: after a failed get and a failed set the client returns an older tag again although GitHub never went back |
| Cache.CarefulRunsMoveForward | internal/app/github/cached_client.go:61-89 | Without overlapping calls for one request and without failing gets of live entries every call returns GitHub's latest answer so far |
| Cache.CarelessStepsGoBack | internal/app/github/cached_client.go:37-89 | After any run, every step that overlaps a call for the same request or fails to get a live entry can be continued so that a call returns an older, different answer after a newer one |
| Cache.CarefulTagsNeverReturn | internal/app/github/cached_client.go:61-89 | In a careful run the tags returned for one request never come back to one they left, if GitHub's never do and none is the sentinel |
| Cache.StepKeepsInv | internal/app/github/cached_client.go:37-89 | Every step keeps store entries and answers tied to what GitHub said |
| Cache.EnvironmentIsFree | internal/app/github/cached_client.go:37-89 | The environment is not restrained: time passes, entries vanish, calls overlap and end at any point, gets, answers and writes turn out in every way |
| Cache.UndisturbedMatches | internal/app/github/cached_client.go:37-89 | The machine's steps of one undisturbed call answer and store exactly what the client object does |
| CacheObject.CachedClient.ValidateRepo | internal/app/github/cached_client.go:37-59 | Equals the read-through specification; a readable entry is answered when younger than ten minutes, GitHub's answer is given at that age or older, on a miss, a failed get or an unknown text; rate limits and failures are not stored |
| CacheObject.CachedClient.GetLatestRelease | internal/app/github/cached_client.go:61-83 | Equals the read-through specification; an entry is answered when younger than ten minutes, GitHub's answer is given at that age or older, on a miss or a failed get; the empty tag is stored as its sentinel |

## Left out

- Several scanner processes at once: the cursor theorems rest on one scan cycle at a time.
- HTTP router, handlers, pages and status mapping, metrics registration, logging and configuration parsing.
- SMTP, MIME and templates: the mailer accepts or refuses, and a command is who gets it and what it is about.
- HTTP details of the GitHub client: it is an oracle that returns a tag, nothing, not-found, rate-limited or another error.
- JSON encoding of commands: it round-trips; undecodable bytes are one of the handler's payload kinds.
- NATS connecting, draining and shutdown; Redis and Postgres drivers and connection handling.
- The migration that backfills cursors with the largest stored tag: the tables start empty.
- GetSubscriptions and FindSubscriptionsByEmail: read-only listings no property needs.
- Column length limits: a value that is too long is a failed statement.
- Created, updated and polled timestamps.
- The worker pool and the handler's program counters are values stepped by a machine, not objects: their content is which goroutine moves next, which a sequential method cannot express.
- ScannerObject.Scanner.CheckRepo: one undisturbed check without panic, cancellation or crash; the system machine has all three between any two of its steps.
- ScannerSpec.RetryStoresOnlyTheMissing: one retry of a first announcement; longer sessions are bounded by SystemTheorems.RetrySessionBound.
- SoloRuns.SubscribeAlone: follows a call that comes to its insert; a call that ends before leaves database and stream unchanged in the machine (it is abandoned) as in the object.
- SystemTheorems.CursorMovesOnlyWhenAnnounced: needs colon-free tags, because the ids of two recipients can otherwise be equal.
- Ticker.Run: run times are given and time is exact. The system machine's clock advances by anything at any moment; SystemTheorems.ThreeRunsStoreOneCopy relates the two by the times of its states.
- EndToEnd.MailsPerSubscriber: the consumer has seen a beginning of the stream, in order; purging and redrive of the dead-letter stream are not modelled.
- Pool.NoDeadlock: handlers are assumed to return, as every GitHub call and publish has a deadline.
- Boot.ScannersWindow: an application with interval 0 gets the broker's default window (Boot.WindowMatchesScannerIff), so it is not among those that keep the window at three intervals.
- Boot.AppBootSetsThreeIntervals: intervals above a third of the largest Duration (97 years) wrap around; Notify.DedupWindowIsThreeIntervals says so.
- Consumer.PendingIsNotStuck: says that a step is possible, not that the broker makes it.
