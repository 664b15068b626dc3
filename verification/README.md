# Prospector's resilience and money code, modelled and proved

Prospector generates business packs, verifies them and sells them. Around its model calls stands a
layer of code that must hold whatever the machine, the network and the operator do: a lock file
between processes, a machine-wide concurrency governor, the publish step that mints provider prices
and lists packs, a rewriter that keeps internal names out of sold prose, a circuit breaker, a
citation archiver, a coverage sampler, a queue consumer with its heartbeat, and two greedy
de-duplicators. This project models that layer in Dafny and proves what it is for.

| file | component |
|---|---|
| `claim_lock_machine.dfy`, `claim_lock_limits.dfy`, `claim_lock.dfy` | the cross-process claim lock: every interleaving of any number of workers, the runs that show each hypothesis is needed, and the class itself |
| `cli_governor_machine.dfy`, `cli_governor.dfy` | the governor over kernel-locked slot files |
| `cli_governor_fallback.dfy` | the governor's in-process fallback |
| `bridge.dfy` | the publish money rail and the listing gate |
| `copy_lint.dfy`, `copy_lint_gate.dfy` | the identifier rewriter over a stretch of text, and over whole texts beside the gate it must satisfy |
| `copy_lint_shape.dfy`, `copy_lint_spans.dfy`, `copy_lint_pieces.dfy`, `copy_lint_agreement.dfy` | when both sides cut the same code and URLs: shapes of texts, spans one at a time, cutting with provenance, the agreement |
| `copy_lint_code.dfy`, `copy_lint_limits.dfy` | the rewriter's and the gate's loops; two texts on which they disagree |
| `breaker.dfy` | the circuit breaker |
| `archive.dfy` | the citation archiver and its cache |
| `coverage.dfy` | shares, quality discount, ranking and quota dealing |
| `consumer.dfy` | the consumer loop and the reader of its heartbeat |
| `dedup.dfy`, `denylist.dfy` | market-scoped dedup and leader clustering of dead families |
| `common.dfy` | absent values, the distinct values of a list in order of first appearance, runs of a state machine |

How the model stands to the code:

* Code that changes state step by step is a class or a method with the same steps and loops. Where
  several processes or threads act at once, each system call is one event of a state machine, and the
  class takes those steps one at a time with arbitrary steps of the others in between, so a theorem
  about every interleaving is a theorem about the class.
* The operating system, the network, the payment provider, the Store and the clock are parameters:
  each answer is arbitrary. Reals stand for Python floats, so rounding is not modelled.
* Each method is proved against a function, and the results below are about that function or about
  whole runs of it.

Where the code does not keep what its text promises, the model follows the code:

* **Claim lock.** Mutual exclusion needs seven hypotheses, each shown necessary by a run that obeys
  the other six (`EveryRuleIsNeeded`). Two are easy to miss: a worker must not pause between reading a
  steal file's stamp and reading the clock until that stamp turns 60 s old, and `release` without a
  preceding successful `claim` unlinks whatever lock is there. After a crash that left a steal file
  but no lock file, a lone `claim` succeeds without removing the steal file.
* **Governor.** A thread that ends while holding a slot leaves the slot locked until its process
  dies (`EndedThreadKeepsItsSlot`); held and locked slots agree exactly when nothing is in flight and no
  thread ended that way (`SlotsAreExclusive`). In the fallback, one release without an acquire lets two
  threads share an index (`UnmatchedReleaseShares`).
* **Rewriter.** `_SKIP_SPAN_RE` looks for fences, inline spans and URLs together, `_strip_code` cuts
  them one kind after the other, and the two can disagree: on ``"`a_b```x```"`` a fence opens with an
  inline span's closing backtick, and on ``"http://`x`a_b"`` an inline span starts within a URL. Both times
  the rewriter keeps the identifier and the gate refuses it. Both sides cut the same stretches of a text
  exactly when it is legible (`CutAlikeIffLegible`): no inline span's closing backtick opens a fence, and
  nothing within a URL opens a fence or, once later fences are cut, an inline span. On every legible text
  the promise holds (`RewriterSatisfiesGate`); a text without three backticks in a row and without a
  backtick in a URL is legible at sight (`LegibleAtSight`).
* **Breaker.** Reading `state` is not always harmless; the exact case is `LookingMatters`, and a run
  that meets it is `LookingHappens`.
* **Archiver.** "A service said no" is not always behind a URL remembered as missing. A request error that
  is neither a timeout nor a connection error counts as an answer (`ErrorIsRememberedAsNo`), and so does
  any status but 200 and 429, a server's own failure included (`StatusIsRememberedAsNo`);
  `MissingMeansAnswered` says exactly when a service answered and when one said that it has no capture.
  Two save timeouts stop a batch also when they are not in a row, if only requests that failed
  otherwise lie between them (`BrokenKeepsTheStreak`; exactly when a batch stops is `StopsExactly`). A cache file
  that could not be read is written over by the next run that finds anything (`MementoIsLost`; the exact
  case is `LostIffOverwritten`).
* **Coverage.** An axis fixed by the context is dealt and then overwritten, so it is not spread at all
  (`ContextIsNotSpread`).

## Model

| member | source | states |
|---|---|---|
| ClaimLockMachine.StepKeepsInv | prospector/claim_lock.py:259-430 | every single step of claim, expire, release, crash or time by any worker that obeys the hypotheses keeps the inductive invariant tying program counters, lock file and steal file together |
| ClaimLockMachine.ClaimIsExclusive | prospector/claim_lock.py:179-224 | in every disciplined interleaving of any number of workers at most one holds an unexpired claim, and the record on disk carries its token and stamp |
| ClaimLockMachine.NobodyUnlinksALiveLock | prospector/claim_lock.py:346-430 | no step of anybody else unlinks or rewrites the lock file of an unexpired holder |
| ClaimLockMachine.UnlinkKeepsInv | prospector/claim_lock.py:336-344 | neither a thief about to unlink a corpse nor a holder about to release can remove a record somebody else still holds |
| ClaimLockLimits.EveryRuleIsNeeded | prospector/claim_lock.py:346-430 | for each of the seven hypotheses there is a run that breaks only that one and ends with two unexpired holders |
| ClaimLockLimits.EmptyLockBreaks | prospector/claim_lock.py:401-409 | without atomic create-and-write the unparseable branch lets two workers hold the claim |
| ClaimLockLimits.LateReleaseBreaks | prospector/claim_lock.py:194-224 | a holder that releases after its claim expired can unlink its successor's lock |
| ClaimLockLimits.DeadThiefBreaks | prospector/claim_lock.py:354-364 | a worker that dies in the guard leaves a steal file that two workers can both clear |
| ClaimLockLimits.SlowThiefBreaks | prospector/claim_lock.py:354-364 | a worker slower than 60 s in the guard is taken for dead, with the same outcome |
| ClaimLockLimits.SlowProbeBreaks | prospector/claim_lock.py:355-360 | a pause between a steal file's stamp and the clock makes a worker unlink a newer steal file |
| ClaimLockLimits.ClockStepBreaks | prospector/claim_lock.py:283-314 | a clock that steps back revives an expired claim beside its successor |
| ClaimLockLimits.BlindReleaseBreaks | prospector/claim_lock.py:194-220 | a release that remembers no token unlinks a live lock |
| ClaimLocks.ClaimLock.constructor | prospector/claim_lock.py:153-162 | a lock object starts with an empty trace of the shared world |
| ClaimLocks.ClaimLock.Claim | prospector/claim_lock.py:179-192 | True means holding; exclusive in every disciplined run; with no peer acting it takes a free lock, spares a fresh one, and over any abandoned lock and steal file returns True and removes the steal file exactly when there was a lock to expire or no steal file |
| ClaimLocks.ClaimLock.Release | prospector/claim_lock.py:194-224 | exclusion is kept in every disciplined run; with no peer acting a remembered token removes exactly the own record and no token whatever lock is there, a failing call leaving all |
| ClaimLocks.ClaimLock.Create | prospector/claim_lock.py:259-281 | a win holds the claim it wrote, in any run; with no peer acting it is refused exactly when the path is taken or the open fails, and a failed write leaves an unreadable file |
| ClaimLocks.ClaimLock.Age | prospector/claim_lock.py:283-314 | leads to the verdict on what was read, in any run; with no peer acting absent is no age, unreadable is age 0, and otherwise the age is the time since the stamp or the mtime |
| ClaimLocks.ClaimLock.IsStale | prospector/claim_lock.py:328-334 | leads on to the steal, the removal or the refusal; with no peer acting it changes nothing, and with no call failing stale means exactly lapsed |
| ClaimLocks.ClaimLock.StaleRecord | prospector/claim_lock.py:316-326 | by its stamp against the clock, in any run; without a usable stamp and with no peer acting by the mtime, and stale when that cannot be had; alone, stale exactly when lapsed |
| ClaimLocks.ClaimLock.UnlinkCorpse | prospector/claim_lock.py:336-344 | True exactly when the path is clear afterwards, whoever acts meanwhile; alone it always is |
| ClaimLocks.ClaimLock.Judge | prospector/claim_lock.py:390-425 | True means a clear path, whoever acts meanwhile; with no peer acting False leaves the lock as it was, and alone a lapsed lock is cleared and a fresh one spared |
| ClaimLocks.ClaimLock.JudgeRecord | prospector/claim_lock.py:411-425 | the judgement of a parsed record: True means a clear path, and alone a lapsed record is removed and a fresh one spared |
| ClaimLocks.ClaimLock.TakeGuard | prospector/claim_lock.py:354-368 | takes the steal guard or refuses; alone it always takes it from a dead thief |
| ClaimLocks.ClaimLock.Expire | prospector/claim_lock.py:346-430 | with no peer acting True leaves no lock file and anything else leaves it as it was; alone it clears an abandoned pair of files and spares a fresh lock |
| GovernorMachine.StepKeepsInv | prospector/cli_governor.py:228-285 | every probe, push, pop, unlock, thread end and crash keeps each thread's owned slots distinct, within its limit and exactly those the kernel has locked for it |
| GovernorMachine.SlotsAreExclusive | prospector/cli_governor.py:214-285 | over every interleaving held slots are pairwise distinct and locked by their holder, and they are all the locked ones exactly when nothing is in flight and no thread ended while holding |
| GovernorMachine.EndedThreadKeepsItsSlot | prospector/cli_governor.py:214-226 | a slot that a thread owned when it ended stays locked and is on nobody's stack, whatever happens next, as long as its process lives |
| GovernorMachine.CeilingHolds | prospector/cli_governor.py:185-194 | governors of any sizes sharing a directory never lock more slots than the largest of them |
| GovernorMachine.CurrentSlotIsExclusive | prospector/cli_governor.py:214-226 | while current_slot answers i no other thread of any process owns slot i |
| GovernorMachine.CrashFreesItsOwn | prospector/cli_governor.py:214-226 | after a crash exactly the slots owned by other processes' threads are still locked |
| Governors.CrossProcessSemaphore.TrySlot | prospector/cli_governor.py:228-242 | a free slot taken into the hand, or every slot refused when it was probed in this call |
| Governors.CrossProcessSemaphore.Acquire | prospector/cli_governor.py:244-262 | Got pushes one slot nobody else owns; TimedOut leaves everything, after the timeout, and only if each slot was refused in the last sweep; without a timeout the wait goes on for any number of sweeps, each having found every slot refused |
| Governors.CrossProcessSemaphore.Release | prospector/cli_governor.py:273-285 | unlocks the newest slot only; does nothing on an empty stack |
| GovernorFallback.StepConservesIffMatched | prospector/cli_governor.py:244-272 | a step keeps free indices, permits and threads in between in balance, and every index held once, exactly when it is not a release without an acquire |
| GovernorFallback.FallbackIsConserved | prospector/cli_governor.py:244-272 | with matched releases free indices equal permits plus threads in between, the pop never finds an empty list, no thread holds an index twice or holds a free one, and at most n are held |
| GovernorFallback.FallbackIsExclusive | prospector/cli_governor.py:244-272 | with matched releases no index is held by two threads |
| GovernorFallback.UnmatchedReleaseShares | prospector/cli_governor.py:249-252 | one unmatched release lets two threads hold index 0 at once |
| GovernorFallback.FallbackSemaphore.Acquire | prospector/cli_governor.py:245-253 | True takes a permit and pushes one popped index, shared with nobody in a matched run; False leaves the thread as it was |
| GovernorFallback.FallbackSemaphore.Release | prospector/cli_governor.py:264-272 | the thread pops its newest index, appends it to the free list and gives a permit, or with nothing held only gives the permit; with no peer acting that is all that changes |
| Bridge.GateIsTheConjunction | prospector/bridge.py:50-96 | the gate opens exactly when all six verdicts are true, and the blockers name exactly the false ones |
| Bridge.ListedMeansSellable | prospector/bridge.py:1285-1586 | a listed payload has its bundle uploaded in this run, every content gate and claims_ok true, and a real price that belongs to its product and charges exactly the sent amount |
| Bridge.PublishOnlyAdds | prospector/bridge.py:1293-1475 | nothing is minted or uploaded when a content gate fails, a dry run changes nothing, and no publish alters or removes an existing price, product or bundle, also when the provider replays a price under its idempotency key |
| Bridge.PublishKeepsRail | prospector/bridge.py:1371-1475 | one publish keeps the row's price real; on a pack on sale it keeps product, price and amount, asks for no price, and whatever payload it sends, accepted or not, carries the same three |
| Bridge.RailNeverMoves | prospector/bridge.py:1371-1475 | over any sequence of publishes a pack on sale keeps its product, price and amount and the provider's prices stay as they are |
| Bridge.RailStaysOk | prospector/bridge.py:1576-1584 | over any sequence of publishes a live row names an existing price that charges what the row says |
| Bridge.OnePriceBarLostWrites | prospector/bridge.py:2396-2470 | over any run the new prices are exactly those not replayed under an idempotency key, and a pack costs at most one more than the catalogue writes lost after a mint, none once on sale |
| Bridge.BlindPublishLosesRailIff | prospector/bridge.py:1597-1608 | when the row cannot be read the rail of a pack on sale survives exactly when the publish never reaches an accepted write or the provider replays the row's own price |
| Bridge.EngineBridge.ResolveMoneyRail | prospector/bridge.py:1610-1677 | reuses the live rail with the provider's own amount, refuses exactly when a live rail cannot be confirmed, and otherwise allows minting |
| Bridge.EngineBridge.Provision | prospector/bridge.py:1362-1475 | the live rail, a freshly minted one or a stub, in the code's order, with what each failure leaves at the provider |
| Bridge.EngineBridge.Upload | prospector/bridge.py:1480-1493 | the bundle reaches storage exactly when every content gate passed and the upload succeeded |
| Bridge.EngineBridge.Ship | prospector/bridge.py:1477-1586 | upload, gate and write once the rail is settled |
| Bridge.EngineBridge.UpdateCatalog | prospector/bridge.py:2256-2275 | without a key nothing is sent; otherwise the payload is sent and the row is the payload exactly when it is accepted |
| Bridge.EngineBridge.PublishPass | prospector/bridge.py:1285-1586 | the whole publish as one function of the world, with the rail of a pack on sale kept |
| CopyLint.RewriteLeavesNoLeak | prospector/copy_lint.py:289-302 | whatever stretch of text is rewritten, no internal identifier is left as a whole word |
| CopyLint.RewriteActsIffGateRefuses | prospector/copy_lint.py:285-302 | a stretch is changed exactly when it holds an internal identifier, and rewriting twice is rewriting once |
| CopyLint.OnlyInternalWordsChange | prospector/copy_lint.py:162-210 | text and output are the same maximal words and single characters, each kept unless it is an internal identifier |
| CopyLint.UrlComesFromInput | prospector/copy_lint.py:266-302 | rewriting never makes a URL that was not there |
| CopyLintAgreement.RewriterSatisfiesGate | prospector/copy_lint.py:269-328 | on every legible text, the ones both sides cut alike, the gate finds nothing in the rewritten text, and a text the gate accepts comes back unchanged |
| CopyLintAgreement.CutAlikeIffLegible | prospector/copy_lint.py:202-266 | the gate's three passes cut exactly the spans the rewriter skips if and only if no inline span's closing backtick opens a fence and nothing in a URL opens a fence or, once later fences are cut, an inline span |
| CopyLintAgreement.StripLosesNothing | prospector/copy_lint.py:202-210 | what the passes leave and what they cut, put together, is the text |
| CopyLintPieces.FlatCut | prospector/copy_lint.py:208-210 | a pass that remembers what it cut shows the next pass the same text as one that does not |
| CopyLintAgreement.BothFindTheSame | prospector/copy_lint.py:202-266 | on every legible text what the gate scans is exactly what the rewriter does not skip |
| CopyLintAgreement.CleanIsKept | prospector/copy_lint.py:269-302 | any text whatever: one with nothing internal outside the rewriter's own spans is not touched |
| CopyLintAgreement.NothingLeftOutside | prospector/copy_lint.py:269-302 | any text whatever: outside the spans the rewriter sees in its own output no internal identifier is left |
| CopyLintAgreement.RewritingTwiceIsOnce | prospector/copy_lint.py:269-302 | any text whatever: rewriting twice is rewriting once |
| CopyLintAgreement.LegibleAtSight | prospector/copy_lint.py:202-210 | a text without three backticks in a row and without a backtick in a URL is legible, inline code and all |
| CopyLintAgreement.StaysLegible | prospector/copy_lint.py:263-302 | rewriting keeps a text legible |
| CopyLintSpans.OpensRewritten | prospector/copy_lint.py:295-302 | any text whatever: the rewritten text has the same spans between its rewritten stretches |
| CopyLintShape.ReadableShape | prospector/copy_lint.py:263-302 | rewriting keeps the backticks and line ends in order, and with something between two of them exactly where there was |
| CopyLintCode.NoUnderscoreIsKept | prospector/copy_lint.py:285-286 | the early exit agrees with the full rewriting on every text |
| CopyLintLimits.FenceTakesTheClosingTick | prospector/copy_lint.py:263-266 | on a text in which a fence opens with an inline span's closing backtick the rewriter changes nothing and the gate still finds the identifier |
| CopyLintLimits.CodeSplitsTheUrl | prospector/copy_lint.py:202-210 | on a text with inline code in a URL the rewriter changes nothing and the gate still finds the identifier |
| CopyLintCode.BuyerReadable | prospector/copy_lint.py:269-302 | the span-by-span loop computes the rewriting of the whole text, and satisfies the gate on legible texts |
| CopyLintCode.Walk | prospector/copy_lint.py:295-302 | spans are kept, everything between them is rewritten, and the pieces join to the whole |
| CopyLintCode.CountLeaks | prospector/copy_lint.py:314-320 | the dictionary counts each internal identifier exactly as often as it occurs outside code and URLs |
| CopyLintCode.CheckIdentifierLeak | prospector/copy_lint.py:305-328 | one problem for each prose text with a finding, in order, with exact counts, and none for any other |
| CircuitBreakers.BreakerTracksHistory | prospector/breaker.py:59-112 | after any trace the counter is the failures since the last success, the breaker is closed exactly when those are soft and below the threshold, and a probe is out only when half open |
| CircuitBreakers.AdmissionIsByTheClock | prospector/breaker.py:72-92 | under a monotone clock a request is admitted exactly when the breaker is closed or the cooldown has passed and no probe is out |
| CircuitBreakers.ProbesArePaced | prospector/breaker.py:72-112 | after a trip with no success since, k admissions take at least k cooldowns, for any mix of hard, soft and late failures |
| CircuitBreakers.OneProbePerPeriod | prospector/breaker.py:86-92 | until a result is recorded a tripped breaker admits at most one request, and none once a probe is out |
| CircuitBreakers.LookingMatters | prospector/breaker.py:64-70 | exactly when reading the state changes what the next event does |
| CircuitBreakers.LookingHappens | prospector/breaker.py:64-112 | a tripped breaker whose state was read when its cooldown ran out trips again on a late soft failure, and one nobody looked at does not |
| CircuitBreakers.CircuitBreaker.constructor | prospector/breaker.py:50-62 | starts closed with no failures |
| CircuitBreakers.CircuitBreaker.CurrentMode | prospector/breaker.py:64-70 | half-opens when due and says so |
| CircuitBreakers.CircuitBreaker.AllowRequest | prospector/breaker.py:79-92 | admits by mode and probe; under a monotone clock never within a cooldown of the trip |
| CircuitBreakers.CircuitBreaker.RecordSuccess | prospector/breaker.py:94-100 | fully resets |
| CircuitBreakers.CircuitBreaker.RecordFailure | prospector/breaker.py:102-112 | afterwards closed exactly when the failures since the last success are soft and below the threshold |
| Archive.VisitMeaning | prospector/archive.py:164-238 | an unanswered lookup found nothing; one that counts as a miss saw no capture in any reply, and a service answered for exactly that URL unless nothing but request errors stands in for an answer; a service said that it has no capture exactly when one of the two ended its ladder with that |
| Archive.MementosAreForever | prospector/archive.py:411-416 | a run that could read the cache neither changes nor loses any memento, and returns it for a URL it took on |
| Archive.MissingMeansAnswered | prospector/archive.py:423-456 | a URL newly recorded as missing was asked about in that run and no reply had a capture; a service answered for exactly that URL if and only if it is not request errors alone that stand in for an answer, and one said that it has no capture if and only if one of the two ended its ladder with that |
| Archive.ErrorIsRememberedAsNo | prospector/archive.py:328-329 | for any http URL a first run over it alone remembers it as missing without a reply from any service, both having been asked, at the minimum interval, with requests that erred |
| Archive.StatusIsRememberedAsNo | prospector/archive.py:317-318 | for any http URL a first run over it alone remembers it as missing although neither service said so, both having answered with a status that is neither 200 nor 429 |
| Archive.UnansweredIsForgotten | prospector/archive.py:425-431 | corollary: a URL whose lookup went unanswered keeps its old entry, and no lookup follows it |
| Archive.UnaskedIsUntouched | prospector/archive.py:417-421 | corollary: a URL left unasked or unsaved keeps its entry, and is left only for a stated reason |
| Archive.NothingAfterStop | prospector/archive.py:441-450 | corollary: no save follows one that told the batch to stop, none is sent past the budget, and each is for a URL whose lookups were answered without a capture |
| Archive.StopsExactly | prospector/archive.py:342-360 | the saves so far stop the batch exactly when the last was rate limited, or timed out after an earlier timeout with nothing but otherwise failed requests between |
| Archive.BrokenKeepsTheStreak | prospector/archive.py:353-355 | a timeout, a request that fails otherwise and a timeout stop the batch |
| Archive.FuseStaysBlown | prospector/archive.py:221-235 | once the fallback service has stayed silent through its whole ladder it is never asked again in the process |
| Archive.DistinctInOrder | prospector/archive.py:390-397 | the URLs a run takes on are distinct and stand in the order of their first appearance, so the cap keeps the first |
| Archive.MementosSurvive | prospector/archive.py:117-145 | over any number of runs a memento on disk survives as long as no unreadable cache is written over |
| Archive.LostIffOverwritten | prospector/archive.py:124-130 | a memento no later run asks about is lost exactly when some run could not read the cache and wrote its own |
| Archive.MementoIsLost | prospector/archive.py:124-130 | any memento is lost by one run that cannot read the cache and looks for another URL |
| Archive.RunIsFaithful | prospector/archive.py:404-456 | the two passes together settle every entry, the returned map and the order of requests exactly as accounted |
| Archive.Archiver.Request | prospector/archive.py:295-301 | one request, never sooner than the minimum interval after the last |
| Archive.Archiver.PacedGet | prospector/archive.py:272-330 | one to four attempts, each after its backoff; silence alone climbs the ladder, any reply or other error ends it; unanswered exactly when the last attempt is silent |
| Archive.Archiver.LookUp | prospector/archive.py:185-238 | CDX first, the other service after a miss unless fused, and the fuse set exactly when it stays silent |
| Archive.Archiver.Snapshot | prospector/archive.py:164-182 | the URL, then its other slash form exactly when the first was answered "no" |
| Archive.Archiver.SaveSnapshot | prospector/archive.py:333-372 | one capture, with the timeout streak and the stop signal it gives |
| Archive.Archiver.LookPass | prospector/archive.py:404-437 | the first pass: every wanted URL visited once, none after a silent one, cache and result kept in step |
| Archive.Archiver.SavePass | prospector/archive.py:439-456 | the second pass: misses saved until told to stop or out of time, the rest left uncached |
| Archive.Archiver.ArchiveUrls | prospector/archive.py:375-464 | the whole run over the file: faithful to its account, at most the cap of distinct http URLs, all lookups before all saves, the fuse carried over between runs, written back when changed |
| Coverage.SharesSumToOne | prospector/coverage.py:446-449 | the shares of an axis sum to 1 or are all 0 |
| Coverage.WeightZeroCounts | prospector/coverage.py:434-445 | at weight 0 the shares are exactly the count shares, whatever the statistics |
| Coverage.UnruledIsNotDiscounted | prospector/coverage.py:389-395 | corollary: a value never ruled keeps all its rows at any weight |
| Coverage.QualityIsInertWithoutScale | prospector/coverage.py:396-398 | when no statistic is positive the shares at any weight are the count shares |
| Coverage.IlluminationRaised | prospector/coverage.py:385-422 | raising a ruled value's statistic brightens it and never brightens another |
| Coverage.RaisingNeverLowers | prospector/coverage.py:385-449 | for any weight in [0,1] raising the statistic of a ruled value never lowers its share, even when it becomes the new best |
| Coverage.BlendedShare | prospector/coverage.py:425-449 | the dictionary holds the share of every value of the domain |
| Coverage.RankingIsSortedPermutation | prospector/coverage.py:452-461 | the ranking lists every value once, most wanting first, ties by key |
| Coverage.DealtExactly | prospector/coverage.py:577-580 | exactly how often each rank is dealt from a given offset |
| Coverage.QuotaIsFair | prospector/coverage.py:559-580 | n cells over m values use each value floor(n/m) or ceil(n/m) times, so n >= m leaves none out |
| Coverage.PickedCellsCoverEvenly | prospector/coverage.py:535-583 | on the cells picked, every axis the context does not fix is spread over its whole domain that evenly |
| Coverage.ContextIsNotSpread | prospector/coverage.py:581-582 | an axis fixed by the context carries the one value in every cell |
| Coverage.Domain | prospector/coverage.py:481-508 | the supplied values if any, else the observed ones, each once and never "unknown" |
| Coverage.DomainInOrder | prospector/coverage.py:505-507 | those values stand in the order in which they were first supplied or observed |
| Coverage.DealAxis | prospector/coverage.py:577-580 | deals one axis over the cells in place and leaves every other axis alone |
| Coverage.SelectCells | prospector/coverage.py:535-583 | n cells, every axis dealt round-robin from its own offset, the context laid over all of them |
| Consumer.ForeignIsNeverDead | prospector/consumer.py:550-562 | corollary: a beat from another host is never read as a death |
| Consumer.LatePastItsDeadline | prospector/consumer.py:575-588 | corollary: a beat of a process not known to be gone reads as late exactly past the deadline it set itself |
| Consumer.CrashReadsDead | prospector/consumer.py:564-573 | a consumer that dies at any point before its final beat, in a run that ends or one that would go on for ever, having written one beat, reads as dead on its own host |
| Consumer.FinishReadsStopped | prospector/consumer.py:787-795 | a finished run reads as stopped exactly when its final beat was written, and otherwise as dead once gone |
| Consumer.LiveReadsItsPhase | prospector/consumer.py:575-597 | at any moment after a beat a live consumer reads by the last beat that reached the disk: late exactly past that beat's deadline, before it blocked exactly in the two blocked phases and running otherwise; while beats are timely and reach the disk it is never late |
| Consumer.PassesAddUp | prospector/consumer.py:684-785 | passes are drain errors plus skipped plus idle plus drained, and blocks are guard refusals plus skipped |
| Consumer.BoundedRunReturns | prospector/consumer.py:662-698 | a run of k passes goes through at most k(k+1) cycles, whatever is answered |
| Consumer.Heartbeat.StartPass | prospector/consumer.py:709-734 | the sweep counted as done or as an error, the draining beat, the drain |
| Consumer.Heartbeat.EndPass | prospector/consumer.py:733-785 | counts the pass, tells its phase and sleeps for the wait it promised |
| Consumer.Heartbeat.Turn | prospector/consumer.py:684-709 | one cycle: a refusal counted, told and slept on, or the budget of refusals spent; otherwise a pass |
| Consumer.Heartbeat.Write | prospector/consumer.py:391-403 | the file is the beat if it was written and otherwise what it was |
| Consumer.Heartbeat.RunConsumer | prospector/consumer.py:639-799 | returns when stopped, held or out of passes, and a run without end is told up to any horizon; totals are those of the cycles run, the beats tell exactly those cycles, only a last one says stopped, the reason is the real one, and if every cycle is prompt no beat is ever late |
| Dedup.KeptAreCleanDropsJustified | prospector/dedup.py:142-175 | nothing kept matches its market's catalogue or an earlier kept item, and every drop names a real match of the same market |
| Dedup.OutcomePartitionsInOrder | prospector/dedup.py:142-180 | kept and dropped are the candidates, each once, both in input order |
| Dedup.RerunDropsNothing | prospector/dedup.py:101-108 | running again on what was kept drops nothing |
| Dedup.MarketsDoNotInterfere | prospector/dedup.py:120-124 | each market's outcome is the outcome with only its own candidates and catalogue entries present |
| Dedup.Jaccard | prospector/dedup.py:47-51 | the word overlap lies between 0 and 1 |
| Dedup.TokensAreTheWords | prospector/dedup.py:38-44 | the content tokens of a text are exactly its whole words of more than two letters that are no stopwords |
| Dedup.NormalisedCatalogue | prospector/dedup.py:81-98 | both catalogue shapes become lower-cased fingerprints under their market |
| Dedup.RemoveDuplicates | prospector/dedup.py:101-180 | the nested loops compute the specified outcome, and what they keep is clean |
| Denylist.EligibleRows | prospector/denylist.py:80-82 | the rows kept are exactly those of a family gate with content words |
| Denylist.ClustersAreLed | prospector/denylist.py:85-98 | all seeds are pairwise below the threshold, and every row sits with the first seed at or above it or is a seed itself |
| Denylist.ClustersPartition | prospector/denylist.py:85-98 | the clusters partition the eligible kills and keep their order |
| Denylist.SortSorts | prospector/denylist.py:80-83 | the eligible rows are put newest first and none is lost |
| Denylist.ReportedIffExhausted | prospector/denylist.py:100-116 | a family is reported exactly when a large cluster without a survivor near its seed stands behind it, with its newest member as example |
| Denylist.FamiliesAreRanked | prospector/denylist.py:118-119 | families come most dead first and together report no more kills than there are eligible rows |
| Denylist.FindSeed | prospector/denylist.py:89-93 | the first seed near enough, or -1 |
| Denylist.Cluster | prospector/denylist.py:85-98 | the nested loops compute the leader clustering |
| Denylist.ExhaustedFamilies | prospector/denylist.py:56-119 | the whole computation |

## Left out

- Claim lock keys: one key is modelled; the file name, its digest and two ids sharing a slug are not.
- Claim lock records that are JSON but no object: treated as unparseable, so the exception `release` raises on one is not modelled.
- ClaimLocks.ClaimLock.Claim: the worker calls it only when it holds nothing; a second claim by the same object on its own expired lock is the same as one by a new worker.
- ClaimLockMachine.ClaimIsExclusive: the crash of a worker inside the guard, a failing write and a late step are excluded by hypothesis because each breaks exclusion, as shown in `claim_lock_limits.dfy`.
- GovernorFallback.FallbackSemaphore.Acquire: the wait for a permit is one step that succeeds or fails, so its timeout is not timed.
- The choice of the slot directory and of the governor per brand.
- Bridge.RailNeverMoves: stated for publishes whose catalogue read succeeds; what a failed read does is `BlindPublishLosesRailIff`.
- The Store: an accepted catalogue write is taken to store exactly the payload sent, and a payload without a dollar amount to leave none; the .NET code is not part of this model.
- Bundle rendering, copy cleaning, the claim check, figure review and the price ladder: only their verdicts and the decided amounts enter the publish.
- CopyLintAgreement.RewriterSatisfiesGate: the agreement of the two sides is exact (`CutAlikeIffLegible`); on an illegible text, which they cut differently, whether the gate finds anything depends on the words that stand there, and no condition is given for that.
- CopyLintCode.CheckIdentifierLeak: the wording of a problem and its top five are not modelled, and the texts come already sorted by name.
- Character classes, letter case beyond ASCII and the contents of the identifier table: parameters of the rewriter, with only the properties it needs.
- House dashes, grammar checks and URL extraction in `copy_lint.py`.
- Locks inside the breaker: each method is one atomic event.
- Archive.Archiver.ArchiveUrls: the bodies of replies are not parsed, so a parser that fails on an unexpected shape other than by a value or index error is not modelled; malformed cache entries read as entries without a memento.
- The order of time between two clocks in the archiver: one clock serves `time.time` and `time.monotonic`.
- The entropy method, seed hashing and the database queries of the sampler: offsets and tie-break keys are arbitrary.
- Coverage.BlendedShare: exact reals in place of floats.
- Consumer.Heartbeat.RunConsumer: the drain log and the decay marker are not modelled.
- Reuse of process ids: a dead consumer's id is taken to be gone.
- Dedup.RemoveDuplicates: the character ratio, lower-casing and stripping are arbitrary functions, with no symmetry assumed.
- Denylist.ExhaustedFamilies: a family carries its newest row instead of the stripped title, and its label of frequent words is not modelled; stamps are numbers in their order; the cached refresh is not modelled.
- Attribution, canary, configuration, admissibility, critique, spend and the wrappers around processes and web frameworks.
