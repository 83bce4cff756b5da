# Sales agent: what its pipelines, limits and scores guarantee

A Dafny model of the deterministic part of a multi-tenant sales agent, and proofs about it. Answers of language
models, HTTP services, Slack, databases and the clock are arbitrary inputs; everything the code computes from them
is modelled as it is written.

| File | Models |
|---|---|
| `Outbound.dfy` | the outbound graph: account selection, research with retries, drafting, approval, sending, replies, next account |
| `Qualification.dfy` | the qualification graph: scoring, signals, contacts, pains, recommendation, brief, review, CRM, tasks, gate, next account |
| `AutoOutboundGate.dfy` | the gate's guards, thresholds and side effects |
| `IcpScore.dfy`, `TimingScore.dfy`, `ActionRules.dfy`, `Rounding.dfy` | ICP fit, timing, overall priority and the next-best-action rules |
| `TokenBucket.dfy` | the Redis token bucket and its rate limiter |
| `ThreadLock.dfy` | the Redis lock around jobs of one thread, with workers that crash |
| `SendCaps.dfy`, `Calendar.dfy` | the daily and weekly send counters, over traces and under interleaving |
| `AccountDedup.dfy`, `ContactDedup.dfy` | entity resolution |
| `BusinessDays.dfy` | the business-day loop of task creation |

`Accounts.dfy` has what both graphs share, `Options.dfy` the optional value used throughout. `dafny verify dfyconfig.toml` checks the project.

## How it is modelled

Both graphs are step machines. A node is a function from the state to the updated state, an edge a function from the
state to the next node, and a run is the fold of `Step` over a sequence of answers, one per node executed, so a
statement about `Run(b, c, answers)` for all `answers` is about every reachable state. In the outbound graph an answer
is a value; in the qualification graph it is a function of everything the node puts into its prompt, which is what makes
the isolation theorem say something: a field left over from an earlier account would reach the prompt. Any node may
raise at any time; the run is then over. A sender that raises may have sent its mail, so what is proved about sending
speaks of every step at which the sender has its turn; the forms about recorded messages follow.

The answer to an approval request is any text. The Slack tool itself answers only "pending" or "error"
(`src/tools/slack_approval.py:142-163`), so an answer "approved" stands for a thread that was resumed with a human's
decision. Without one no run sends anything, and the batch is over at its first gate
(`Outbound.NothingIsSentUnapproved`); `Outbound.EveryAccountGetsItsSequence`, `Outbound.DuplicateIdsNeverEnd` and
`Outbound.RunEndsIffDistinct` are about runs in which all drafts are approved.

Redis is a map with expiry times and a clock that does not run backwards; an entry is gone from its expiry instant on.
The token bucket is proved twice over: the script, statement by statement over reals, refines a specification in
integers scaled by refill_secs, and the theorems are about the specification. Send caps and thread locks add a machine
whose steps are single reads, pipelines, acquisitions, releases, crashes and clock ticks of any number of workers.

Loops of the source are loops here: scoring, deduplication, merging, business days and the unsubscribe update are
methods proved against a function, and the theorems are about the function. Scores and weights are exact reals, with
Python's rounding of halves to even.

## What the code does not do

Where the code and its comments or names disagree the model follows the code:

- A disqualified account does not merely skip the intelligence nodes: its brief goes to review like every other that is
  not to be pursued, and that ends the batch (`Qualification.WrittenIsPursuedPrefix`).
- Signals are cleared before scoring and detected after it, so timing is always 30, no priority passes 75 and the
  automatic gate never opens (`Qualification.NothingIsSentAutomatically`).
- If pain scoring gives no confidence, the default sends every account that is not disqualified to a human
  (`ActionRules.FailedPainScoringGoesToHuman`).
- The cap on enrichment retries does not end the retries (`Outbound.FailingResearcherNeverEnds`), an empty outbound
  batch never ends (`Outbound.EmptyBatchNeverEnds`), and neither graph copes with repeated account ids
  (`Outbound.RunEndsIffDistinct`, `Qualification.RunEndsIffDistinct`).
- The last stage of a sequence of two or more is never sent (`Outbound.SendsAreInOrder`).
- A size within range scores 80 to 100, not 60 to 100 (`IcpScore.SizeScoreBands`); ICP fit is 16 to 88, not 0 to 100
  (`IcpScore.FitIsBetween16And88`).
- The ICP score can depend on the order of the metadata signals, exactly when a cut at 0 or 100 comes in between
  (`IcpScore.OrderIsIrrelevantIff`); signals that are on both lists take 10 points and are part of the condition.
- The timing score can depend on the order of the signals, when signals of equal weight and different recency are
  tied at the fifth place. That is the exact condition for the average (`TimingScore.AverageIsFixedIff`); for the score
  it is not necessary, because rounding can hide a difference (`TimingScore.RoundingHidesOrder`). All orders score the
  same exactly when the list does with the least and with the most recent signals first
  (`TimingScore.ScoreIsFixedIff`).
- Signal evidence is filed by the word "Positive" in its statement, so a negative signal is filed as a reason for the
  fit exactly when its own text contains that word (`IcpScore.NegativeSignalIsFiledByText`).
- The gate's docstring lists the caps before the thresholds; the code asks for them last. The result is the same
  (`AutoOutboundGate.TriggersIffAllClear`), but a slot is lost when the queue then does not confirm the job
  (`AutoOutboundGate.SlotIsLostIff`).
- Account deduplication does not always leave distinct domains or dissimilar names (`AccountDedup.FilledDomainIsNotIndexed`,
  `AccountDedup.FilledNameIsNotCompared`). Domains are distinct as long as the branch that fills in a domain by name has
  no occasion (`AccountDedup.DomainsAreDistinctUnlessLate`). That is not necessary for one list, since a filled domain
  does no harm until another record brings the same one (`AccountDedup.LateDomainCanBeHarmless`); it is for the next record that the condition is exact: domains
  stay distinct whatever named record comes next if and only if none was filled (`AccountDedup.SafeForOneMoreIff`). When a pass
  changes nothing, and when a second one does, is `AccountDedup.FixedPointIffUnrelated` and
  `AccountDedup.SecondPassIffDistinctDomains`.
- Send caps can be passed by concurrent calls, by up to one less than the number of workers between check and increment,
  whatever the caps and that number (`SendCaps.OverrunIsAttained`, `SendCaps.CapsHoldIff`).
- The thread lock does not keep out the next worker once the holder has outlived the ttl
  (`ThreadLock.OverlapsIffOverrun`).

## Model

| member | source | states |
|---|---|---|
| TokenBucket.ServeKeepsGood | src/ratelimit/bucket.py:72-97 | the stored count is between 0 and max_tokens - 1 after a grant and between 0 and one token after a denial, at any later reading |
| TokenBucket.ExpiryIsInvisible | src/ratelimit/bucket.py:72-97 | on every trace with a non-decreasing clock, the key that expires after 2 * refill_secs answers call by call like a bucket that never expires and starts full |
| TokenBucket.DeniedCallsAreFree | src/ratelimit/bucket.py:79-97 | deleting all denied calls from any trace changes no other answer |
| TokenBucket.WindowBound | src/ratelimit/bucket.py:79-97 | in any window of consecutive calls of any run, the cost of the grants is at most one full bucket plus the refill of the window |
| TokenBucket.WindowBoundInTokens | src/ratelimit/bucket.py:79-97 | the same in tokens: grants * refill_secs <= max_tokens * refill_secs + elapsed * max_tokens |
| TokenBucket.RetryAfterIsExact | src/ratelimit/bucket.py:90-96 | after a denial that answers r, with only denials in between, a call s seconds later is granted if and only if s >= r |
| TokenBucket.FreshBurst | src/ratelimit/bucket.py:72-97 | of calls in one instant a fresh bucket grants exactly max_tokens, with max_tokens - 1 down to 0 left, and tells the others the least wait for one token |
| TokenBucket.BurstAfterIdleTime | src/ratelimit/bucket.py:79-97 | after any calls and idle time, exactly min(max_tokens, left + refill) of them in whole tokens |
| TokenBucket.RefillComposes | src/ratelimit/bucket.py:79-83 | refilling over two stretches, cap included, is refilling over their sum |
| TokenBucket.DripIsProduct | src/ratelimit/bucket.py:81-82 | the scaled refill of the specification is seconds * max_tokens |
| TokenBucket.WholeTokensIsQuotient | src/ratelimit/bucket.py:89-89 | the reported remainder is the floor of the stored fraction |
| TokenBucket.SecondsForIsLeast | src/ratelimit/bucket.py:92-93 | the reported delay is the least whole number of seconds whose refill covers the deficit |
| TokenBucket.SecondsForIsCeiling | src/ratelimit/bucket.py:92-93 | that number is the rounded-up quotient of the script |
| TokenBucket.FirstCallMatches | src/ratelimit/bucket.py:72-77 | the script's first-call branch stores exactly what the integer specification stores |
| TokenBucket.LaterCallMatches | src/ratelimit/bucket.py:79-97 | the script's fractional arithmetic stores and answers exactly what the integer specification does |
| TokenBucket.Redis.Script | src/ratelimit/bucket.py:63-97 | the Lua script, branch by branch over a hash with an expiry, refines the integer specification and leaves other keys alone |
| TokenBucket.RateLimiter.Enforce | src/ratelimit/bucket.py:144-190 | unknown resources and plans touch nothing; otherwise one script call on the pair's own key decides between return and retry_after |
| TokenBucket.BucketsAreSeparate | src/ratelimit/bucket.py:165-165 | two limited workspace and resource pairs never share a key, even when workspace names contain colons |
| TokenBucket.LimitsInForce | src/ratelimit/bucket.py:18-53 | the limits in force, for each resource and plan |
| ThreadLock.Redis.Acquire | src/worker/locks.py:59-70 | SET NX EX succeeds exactly when no live key is there, and then stores the token with its expiry |
| ThreadLock.Redis.Release | src/worker/locks.py:76-85 | returns true exactly when a live key with the caller's token was there, which is then gone; otherwise nothing changes, and no other key ever does |
| ThreadLock.StepKeepsInv | src/worker/locks.py:54-93 | tokens of running workers differ, and a worker within its ttl owns the live key; every acquisition, release, crash and tick keeps this |
| ThreadLock.AtMostOneYoungHolder | src/worker/locks.py:54-75 | on every run with any number of workers, crashes and ticks, at most one worker per thread acquired less than ttl ago |
| ThreadLock.OverlapMeansOverrun | src/worker/runner.py:84-94 | two bodies of one thread overlap only when one has outlived ttl, so bodies that finish in time never overlap |
| ThreadLock.OverlapsIffOverrun | src/worker/locks.py:54-70 | for every ttl: while a worker stays in the body and nobody else has got in, the next attempt gets in beside it if and only if the worker has outlived its ttl |
| ThreadLock.OverrunCanOverlap | src/worker/locks.py:33-33 | such a run at the default ttl of 30 seconds |
| ThreadLock.ReleaseDeletesOnlyOwnKey | src/worker/locks.py:77-85 | however late, a release leaves the key of every other worker within its ttl in place |
| ThreadLock.FinishFreesThread | src/worker/runner.py:84-94 | a job that ends within its ttl frees its thread at once: the key is gone and any worker that tries in the same instant gets in |
| ThreadLock.CrashFreesAfterTtl | src/worker/locks.py:45-47 | after a crash inside the body the thread is locked exactly until ttl after the acquisition |
| ThreadLock.AcquirableAfterTtl | src/worker/locks.py:45-47 | whatever happened before, ttl seconds without a successful acquisition make the thread acquirable |
| SendCaps.SendCapEnforcer.CheckAndIncrement | src/guardrails/send_caps.py:55-106 | passes exactly when the two or three counters of the call are below their limits, daily and weekly of the workspace and daily of the account, and then counts one more on exactly those; otherwise it names the first that is full and changes nothing |
| SendCaps.SendCapEnforcer.GetRemaining | src/guardrails/send_caps.py:121-133 | the two counts used, and what is left of the budgets, never below zero; a budget is used up exactly when a call would be refused; nothing is written |
| SendCaps.CheckMeaning | src/guardrails/send_caps.py:55-94 | a call passes exactly when all its counters are below their limits; otherwise it is refused with the first that is not, its count and its limit |
| SendCaps.BumpAt | src/guardrails/send_caps.py:97-106 | the pipeline adds one to each counter of the call and touches no other |
| SendCaps.ExpiryIsInvisible | src/guardrails/send_caps.py:97-106 | on every trace with one clock reading per call, the 2-day and 8-day expiries change no verdict and no count read |
| SendCaps.CountersAddUp | src/guardrails/send_caps.py:36-41 | in a store that forgets nothing each weekly counter is the sum of its days' workspace counters, and each of those is at least the sum of its account counters |
| SendCaps.StepKeepsBound | src/guardrails/send_caps.py:55-106 | counter plus calls already past its check stays within the bound, at every interleaved step |
| SendCaps.OverrunIsBounded | src/guardrails/send_caps.py:55-106 | with at most k workers between check and increment, no counter passes limit - 1 + k on any schedule |
| SendCaps.OverrunIsAttained | src/guardrails/send_caps.py:55-106 | for every call, all positive caps and every number k of workers, a schedule that ends with all counters of the call at k - 1 over the smallest of their limits |
| SendCaps.CapsHoldIff | src/guardrails/send_caps.py:55-106 | all caps hold on all schedules with at most k workers between check and increment if and only if k <= 1 or a workspace cap admits no call at all |
| SendCaps.CountsAreCommits | src/guardrails/send_caps.py:60-106 | on every schedule each counter reads as the number of commits of its key since it last expired, so refused, crashed and unfinished calls count nothing |
| SendCaps.CapsInForce | src/config/automation.py:34-38 | the caps in force, 25 a day and 100 a week for a workspace and 3 a day for an account, and so the most that a day admits of a call, 25 or 3 |
| Calendar.WeekSpan | src/guardrails/send_caps.py:39-39 | days that share a %Y-%W week are fewer than seven apart, which is why eight days of life suffice |
| Calendar.WeekOfIs | src/guardrails/send_caps.py:39-39 | the year of a week key is the Gregorian one, leap years included, and its number that of the year's Mondays so far |
| BusinessDays.AddBusinessDays | src/agent/nodes/task_creator.py:34-43 | the loop ends for every start and count, on the closed-form date; for positive counts that is a workday with exactly that many workdays behind it, and the least such date |
| BusinessDays.ClosedFormCounts | src/agent/nodes/task_creator.py:34-43 | the closed form (division by five and the start's weekday) has exactly `days` workdays behind it |
| BusinessDays.ClosedFormIsFirst | src/agent/nodes/task_creator.py:34-43 | no earlier date has that many |
| BusinessDays.ClosedFormIsUnique | src/agent/nodes/task_creator.py:34-43 | it is the only workday with that many |
| BusinessDays.AddingComposes | src/agent/nodes/task_creator.py:34-43 | adding m and then n business days is adding m + n, for all m and n from zero on |
| AccountDedup.DeduplicateAccounts | src/normalization/domain_resolver.py:117-145 | the loop over the result list and the domain index computes the fold whose properties follow |
| AccountDedup.MergeFields | src/normalization/domain_resolver.py:150-152 | every gap of the target, missing or None, takes the source's value, and nothing else changes |
| AccountDedup.MergeEntries | src/normalization/domain_resolver.py:157-159 | the metadata loop is the left-biased union |
| AccountDedup.MergeMetadata | src/normalization/domain_resolver.py:148-159 | both parts together, in the order of the source |
| AccountDedup.MergeByName | src/normalization/domain_resolver.py:131-138 | the inner loop merges into the first survivor with a similar name and into no other |
| AccountDedup.FoldIsSound | src/normalization/domain_resolver.py:117-145 | invariant of the pass: survivors are first occurrences in input order, texts once there are never overwritten, the index holds exactly the domains of first occurrences |
| AccountDedup.HomeIsEarliest | src/normalization/domain_resolver.py:120-143 | the next record joins the survivor that came with its domain, else the earliest survivor with a similar name, and is a survivor itself exactly when there is neither |
| AccountDedup.EveryInputIsRepresented | src/normalization/domain_resolver.py:120-143 | every input is a survivor or belongs to an earlier one with the same normalized domain or a similar name |
| AccountDedup.SurvivorIsGroupMerge | src/normalization/domain_resolver.py:120-143 | each survivor is the left-to-right merge of the inputs that belong to it, its first occurrence leading |
| AccountDedup.SurvivorTakesFirstValues | src/normalization/domain_resolver.py:148-152 | each field of a survivor is the first value its group has for it |
| AccountDedup.MergeTakesFirstValue | src/normalization/domain_resolver.py:148-152 | the same for any merged group |
| AccountDedup.MergeUnitesMetadata | src/normalization/domain_resolver.py:153-159 | for any group of records, each metadata entry of the merge is the first one the group has, and the merge has a metadata dictionary exactly when some record has one |
| AccountDedup.SurvivorUnitesMetadata | src/normalization/domain_resolver.py:153-159 | the same for every survivor, from the inputs that belong to it |
| AccountDedup.IndexedDomainsAreDistinct | src/normalization/domain_resolver.py:124-142 | survivors that arrived with a domain keep it and never share it |
| AccountDedup.DomainsAreDistinct | src/normalization/domain_resolver.py:124-142 | if every input has a non-empty normalized domain, all survivors' domains differ |
| AccountDedup.DomainsAreDistinctUnlessLate | src/normalization/domain_resolver.py:131-142 | for records that carry names, with or without domains: all survivors' non-empty domains differ if no record with a domain is named like an earlier one without, the guard of the branch that fills a domain by name |
| AccountDedup.SafeForOneMoreIff | src/normalization/domain_resolver.py:124-142 | the survivors' domains stay distinct whatever named record comes next if and only if no survivor's domain was filled in from a later record |
| AccountDedup.LateDomainCanBeHarmless | src/normalization/domain_resolver.py:134-142 | two records of one name, the first without a domain, that leave one survivor: the condition of DomainsAreDistinctUnlessLate is not necessary |
| AccountDedup.FilledDomainIsNotIndexed | src/normalization/domain_resolver.py:134-142 | three records without that premise whose survivors end with one domain, because a name merge filled it in |
| AccountDedup.NamesAreDissimilar | src/normalization/domain_resolver.py:131-138 | when every record carries a name, survivors with names are pairwise dissimilar |
| AccountDedup.FilledNameIsNotCompared | src/normalization/domain_resolver.py:124-129 | three records without that premise whose survivors end with one name, because a domain merge filled it in |
| AccountDedup.FixedPointIffUnrelated | src/normalization/domain_resolver.py:117-145 | the pass is the identity exactly when no two records share a domain or have similar names |
| AccountDedup.BigramsAre | src/normalization/domain_resolver.py:96-97 | the bigrams of a name are its stretches of two characters |
| AccountDedup.SimilarIff | src/normalization/domain_resolver.py:86-104 | two names are one company's exactly when they are equal once cleaned, or at least 17 of 23 of all their bigrams are common to both, a Dice coefficient of 0.85 |
| AccountDedup.AllSurviveIffNoTwoAreOne | src/normalization/domain_resolver.py:117-145 | all records survive unchanged exactly when no two share a non-empty domain, or have names that are equal once cleaned or share 17 of 23 bigrams |
| AccountDedup.PairIsMergedIff | src/normalization/domain_resolver.py:117-145 | two records are merged into one under exactly that condition, and otherwise both survive |
| AccountDedup.SecondPassIffDistinctDomains | src/normalization/domain_resolver.py:117-145 | for records that carry names, a second pass is the identity exactly when the first pass left distinct domains |
| AccountDedup.SecondPassIsIdentity | src/normalization/domain_resolver.py:117-145 | in particular when every input has a domain |
| AccountDedup.ResolveAccounts | src/agent/nodes/entity_resolver.py:33-44 | the node's loop returns the survivors with normalized domains; no two share one if every input has a domain, or if the condition of DomainsAreDistinctUnlessLate holds |
| ContactDedup.DeduplicateContacts | src/normalization/contact_linker.py:96-114 | the loop over the dictionary computes the group-by specification: one record per distinct key, in order of first appearance |
| ContactDedup.CombinedStep | src/normalization/contact_linker.py:105-112 | one in-place merge extends the combination of the group by one record: every optional field is the group's first value |
| ContactDedup.ResultHasEachKeyOnce | src/normalization/contact_linker.py:98-114 | the result has exactly the input's keys, each once |
| ContactDedup.ResultMergesEachKey | src/normalization/contact_linker.py:96-114 | each record of the result has the id and e-mail of the first contact with its key and for every other field the first value that is not missing among them, and records stand in the order in which their keys first appear |
| ContactDedup.FixedPointIffDistinct | src/normalization/contact_linker.py:96-114 | a list is unchanged exactly when its keys are distinct |
| ContactDedup.Idempotent | src/normalization/contact_linker.py:96-114 | deduplicating twice is deduplicating once |
| TimingScore.ScoreTiming | src/scoring/timing_rules.py:59-97 | the loop, sort, cut and average compute the specification; the score is 30 without signals and from 20 to 100 otherwise |
| TimingScore.TimingIs | src/scoring/timing_rules.py:59-97 | the score is 80 times the weighted mean of the chosen recencies plus 20, to the nearest integer, plus 3 for each signal with some recency up to 15, at most 100; the confidence 0.3 plus 0.1 for each such signal plus 0.3 times the mean reliability, at most 1; 30 without signals, 20 when all have expired |
| TimingScore.RecencyIsPiecewiseLinear | src/scoring/timing_rules.py:24-41 | recency is 1 up to 14 days, falls in straight lines to 0.3 at 60 and to nothing at 180, and is 0.3 without a date |
| TimingScore.RecencyFalls | src/scoring/timing_rules.py:35-41 | recency never rises with age, across all pieces and their borders |
| TimingScore.SortSorts | src/scoring/timing_rules.py:78-78 | the sort descends by weight, permutes its input and keeps the order of equal weights |
| TimingScore.TopDominates | src/scoring/timing_rules.py:78-79 | every chosen signal weighs at least as much as every unchosen one, and together they are all the signals |
| TimingScore.AverageBetween | src/scoring/timing_rules.py:82-84 | the weighted average lies between any bounds on the recencies it averages, so between the least and the greatest |
| TimingScore.ScoreInRange | src/scoring/timing_rules.py:86-91 | every non-empty list scores from 20 to 100 |
| TimingScore.TopSumIsFixedIff | src/scoring/timing_rules.py:78-84 | for any measure of a signal, the sum over the five chosen ones is the same for all arrangements if and only if the fifth outweighs the sixth, there are at most five, or all signals as heavy as the fifth measure the same |
| TimingScore.AverageIsFixedIff | src/scoring/timing_rules.py:78-84 | the weighted average is the same for all arrangements of the unexpired signals if and only if the cut is clear or all signals as heavy as the fifth are equally recent |
| TimingScore.OrderDoesNotMatter | src/scoring/timing_rules.py:78-97 | hence the score is the same for all arrangements under that condition, and the confidence under the same condition on reliability |
| TimingScore.OrderCanMatter | src/scoring/timing_rules.py:78-91 | six signals of one weight that score 59 in one order and 57 in another |
| TimingScore.RoundingHidesOrder | src/scoring/timing_rules.py:84-91 | six signals whose average varies with the order while every order scores 59, because of rounding: for the score alone the condition on the average is not necessary |
| TimingScore.ScoreIsBetweenExtremes | src/scoring/timing_rules.py:78-91 | every order of a list scores at least what it scores with the least recent signals first, and at most what it scores with the most recent first |
| TimingScore.ScoreIsFixedIff | src/scoring/timing_rules.py:78-91 | the exact condition for the score: all orders score the same if and only if those two do |
| IcpScore.ScoreIcpFit | src/scoring/icp_rules.py:206-268 | the disqualify check, the dimension loop, the signal loop and the neutral remainder compute the specification, evidence lists included |
| IcpScore.ScoreMetadataSignals | src/scoring/icp_rules.py:139-167 | the loop with its two cuts keeps the score in [0, 100] and emits the evidence of each match in order |
| IcpScore.CheckDisqualify | src/scoring/icp_rules.py:172-183 | returns the first broken rule of the list |
| IcpScore.FirstBroken | src/scoring/icp_rules.py:172-183 | there is none exactly when no rule of the list is broken, and no earlier one is broken |
| IcpScore.BrokenIff | src/scoring/icp_rules.py:172-183 | a rule is broken exactly by a known size below 20, a known revenue of nothing, or being a customer, each if it is on the list |
| IcpScore.SizeScoreBands | src/scoring/icp_rules.py:46-78 | a size is in range exactly when it scores 80 or more; out of range it scores below 40 |
| IcpScore.SizeScoreIs | src/scoring/icp_rules.py:46-78 | the points for a known size in terms of the two ends of the range: within it, below it and above it |
| IcpScore.MiddleIsFavoured | src/scoring/icp_rules.py:47-51 | in range, a size nearer to the middle never scores less |
| IcpScore.RaisesIff | src/scoring/icp_rules.py:49-51 | scoring raises exactly when no rule disqualifies and a known size or revenue lies in a range without upper end |
| IcpScore.SignalsPullTheirWay | src/scoring/icp_rules.py:148-167 | one more positive signal anywhere never lowers the signal score, one more negative signal never raises it |
| IcpScore.OrderIsIrrelevantIff | src/scoring/icp_rules.py:148-167 | every order of the signals scores the same if and only if there is no purely positive one, or no negative one at all, or at most three positive ones (two if some signal is both) and 25 per negative and 10 per mixed signal make at most 50 |
| IcpScore.FreeScoreIsScore | src/scoring/icp_rules.py:148-167 | in those cases the score is 50 + 15 per positive - 25 per negative - 10 per mixed signal, cut to 0 and 100 |
| IcpScore.SignalOrderMatters | src/scoring/icp_rules.py:151-159 | four signals that score 0 or 15 depending on order |
| IcpScore.FilingIsAPartition | src/scoring/icp_rules.py:235-258 | each piece of evidence is filed under exactly one of the two lists |
| IcpScore.SignalEvidenceIsFiledByWord | src/scoring/icp_rules.py:252-258 | the evidence of a metadata signal is in the result, for the fit exactly when its statement has the word Positive, and otherwise against it |
| IcpScore.NegativeSignalIsFiledByText | src/scoring/icp_rules.py:252-258 | so a negative signal is a reason for the fit exactly when its own text has that word, and a reason against it exactly when it has not |
| IcpScore.NegativeSignalCanSpeakForFit | src/scoring/icp_rules.py:252-258 | a signal that lowers the score of an account and is a reason for its fit |
| IcpScore.FitConfidence | src/scoring/icp_rules.py:266-266 | confidence is 0.3 exactly when no dimension is known and no metadata signal is on a list, and from 0.80 to 0.95 otherwise |
| IcpScore.FitIsMix | src/scoring/icp_rules.py:216-265 | with default weights the fit is 15 % industry, 10 % size, 10 % revenue, 5 % geography and 35 % metadata signals plus 12.5, to the nearest integer |
| IcpScore.DimensionEvidenceIs | src/scoring/icp_rules.py:20-135 | each known dimension gives one piece of evidence, of the confidence of its branch, for the fit exactly when it matches |
| IcpScore.ConfidenceIsMean | src/scoring/icp_rules.py:266-266 | the confidence of a fit is the mean over both its evidence lists |
| IcpScore.FitIsBetween16And88 | src/scoring/icp_rules.py:216-265 | with default weights every account that is not disqualified scores from 16 to 88, for all criteria under which scoring does not raise |
| IcpScore.FitReaches88 | src/scoring/icp_rules.py:216-265 | an account that scores 88 |
| IcpScore.FitReaches16 | src/scoring/icp_rules.py:216-265 | an account that scores 16 |
| IcpScore.ScoreAccount | src/agent/nodes/icp_scorer.py:37-179 | the overall priority is 35 % ICP fit, 35 % pain and 30 % timing to the nearest integer, the confidence the same mix of three confidences to the nearest thousandth, the pain answer is clamped; a disqualified account has all scores zero |
| IcpScore.ScoresAreMixed | src/agent/nodes/icp_scorer.py:136-145 | the same of the specification, for every account that is not disqualified |
| IcpScore.NoSignalsNoHighPriority | src/agent/nodes/icp_scorer.py:70-140 | an account scored without signals has timing 30 and a priority of at most 75, whatever the pain answer |
| IcpScore.SeventyFiveIsReached | src/agent/nodes/icp_scorer.py:137-140 | 75 is reached |
| ActionRules.TopPain | src/scoring/action_rules.py:42-44 | the greatest confidence among the hypotheses, 0 without any |
| ActionRules.PursuedIff | src/scoring/action_rules.py:56-104 | pursue_now exactly when not disqualified, confidence >= 0.5, priority >= 60, a contact of relevance >= 70 and a hypothesis >= 0.5 |
| ActionRules.ActionIs | src/scoring/action_rules.py:69-154 | for each of the four actions, the exact condition on score, contact and hypotheses under which it is recommended |
| ActionRules.ConfidenceIs | src/scoring/action_rules.py:69-154 | a pursuit is as sure as the weaker of the score and its best hypothesis, a nurture 4/5 and an undecided case 7/10 as sure as the score, a broken rule 0.95 |
| ActionRules.ContactIsKeptIff | src/scoring/action_rules.py:69-154 | the contact is dropped exactly by a disqualification, and several threads are advised exactly for pursuits with two or more hypotheses |
| ActionRules.PursuitIsUpwardClosed | src/scoring/action_rules.py:79-104 | better score, confidence, contact or more hypotheses never end a pursuit |
| ActionRules.ManagerIsNeverAsked | src/scoring/action_rules.py:56-154 | no recommendation sets manager_approval_required |
| ActionRules.WithoutSignalsFitDecides | src/scoring/action_rules.py:106-154 | for accounts scored without signals, what is not pursued is nurtured from ICP fit 50 on, sent to a human from 30 to 49, and disqualified below |
| ActionRules.FailedPainScoringGoesToHuman | src/agent/nodes/icp_scorer.py:75-145 | when the pain answer has no usable confidence, an account scored without signals stays below confidence 0.5 and always goes to a human |
| ActionRules.PursuitIsReachable | src/scoring/action_rules.py:84-104 | an account scored without signals that is pursued |
| AutoOutboundGate.NoThresholdMissedIff | src/agent/nodes/auto_outbound_gate.py:70-136 | the chain of tests passes exactly when all seven thresholds hold |
| AutoOutboundGate.TriggersIffAllClear | src/agent/nodes/auto_outbound_gate.py:198-438 | a slot is taken exactly when all guards and thresholds pass and the counters are incremented, even if that answer is lost; the gate triggers when moreover the job is confirmed or not needed |
| AutoOutboundGate.ReasonIs | src/agent/nodes/auto_outbound_gate.py:198-438 | for each recorded reason, the exact answers and thresholds that lead to it |
| AutoOutboundGate.SlotIsLostIff | src/agent/nodes/auto_outbound_gate.py:353-427 | a send slot is used up without a trigger exactly when, all checks passed, the answer to the increment is lost or the queue does not confirm the job |
| AutoOutboundGate.JobIsUnknownIff | src/agent/nodes/auto_outbound_gate.py:403-427 | a job is queued without a trigger exactly when the queue's confirmation is lost |
| AutoOutboundGate.StricterThanManual | src/config/automation.py:20-30 | what meets the gate's thresholds is pursued by the manual rules as well |
| Outbound.StepKeepsLocal | src/agent/graph.py:99-111 | invariant of every node and edge, for any list of accounts: among others, no reply is pending when the personaliser is entered, stages to be sent are 1 or below max_stages, and the contact is the first of the current account |
| Outbound.StepKeepsInv | src/agent/graph.py:63-74 | with distinct ids, moreover, the run stands at the account that the search by id finds |
| Outbound.PrimaryContact | src/agent/nodes/account_selector.py:55-57 | the earliest contact listed for the account, none exactly when none is listed |
| Outbound.SelectorTakesNext | src/agent/nodes/account_selector.py:35-77 | the selector moves to the next account, with the earliest contact listed for it, stage 1 and no reply |
| Outbound.SendAppends | src/agent/nodes/sender.py:27-104 | only the sender changes sent_messages, by appending one message with the draft, contact and stage at hand |
| Outbound.EverySenderStepIsApproved | src/agent/nodes/approval_gate.py:41-89 | on every run of any list, whenever the sender has its turn, recorded or not, the draft at hand was written two nodes earlier and approved in the step just before, and the contact is the earliest one listed for the current account |
| Outbound.EveryMessageWasApproved | src/agent/nodes/sender.py:63-104 | so each recorded message carries that draft, for that contact |
| Outbound.NothingIsSentUnapproved | src/agent/graph.py:38-42 | while no approval request is answered with approved, as the Slack tool itself never does, a run of any list sends and records nothing, stays with the first account and is over after its first gate |
| Outbound.SenderStepsAreInOrder | src/agent/nodes/router.py:50-72 | with distinct ids, the turns of the sender, recorded or not, are in strictly increasing order of account, then of stage |
| Outbound.SenderStagesAreInRange | src/agent/nodes/router.py:50-63 | on every run of any list, stages sent start at 1 and stay below max_stages (or are 1) |
| Outbound.SendsAreInOrder | src/agent/nodes/sender.py:63-104 | with distinct ids, recorded messages are in that order and range |
| Outbound.SenderStepsAreBounded | src/agent/graph.py:54-60 | with distinct ids, the sender has at most max(1, max_stages - 1) turns with an account, recorded or not |
| Outbound.SendsAreBounded | src/agent/graph.py:54-60 | so no account has more messages recorded than that |
| Outbound.EveryAccountGetsItsSequence | src/agent/nodes/router.py:50-63 | with distinct ids and when all goes well every account with a contact is sent exactly that many, so stage max_stages is never sent when max_stages >= 2 |
| Outbound.NothingFollowsATerminalReply | src/agent/nodes/router.py:24-48 | with distinct ids and each contact in one account: after a positive, negative or unsubscribe reply the sender has no further turn with that account or that contact, so no mail goes out to them, recorded or not |
| Outbound.NoMessageFollowsATerminalReply | src/agent/nodes/sender.py:63-104 | in particular no message to them is recorded |
| Outbound.SelectionComesFirst | src/agent/graph.py:45-60 | of any list, repeated ids included: after such a reply the sender has no turn before the selector has had one |
| Outbound.RepliesAreHandled | src/agent/graph.py:45-60 | in any state with an account and a contact: sales is notified exactly of positive replies, unsubscribes are handled exactly when found, and only a neutral reply lets the sequence go on |
| Outbound.NothingIsLeftAtSelector | src/agent/nodes/memory_updater.py:75-85 | no run of any list comes back to the selector with contact, enrichment, draft, approval, reply or error of the last account |
| Outbound.RouterStopsIff | src/agent/nodes/router.py:24-72 | the router stops exactly at a terminal reply or the last stage and leaves both as they are, else it starts the next stage without a reply |
| Outbound.SelectedInOrder | src/agent/nodes/account_selector.py:35-53 | with distinct ids, the accounts selected are a prefix of the list: in order, without gaps, each once |
| Outbound.RunTerminates | src/agent/graph.py:99-111 | with a non-empty list of distinct ids and at most F research failures per account, the run is over after n * (2F + 4 + 5 * max(1, max_stages - 1)) nodes |
| Outbound.TimesIsProduct | src/agent/graph.py:99-111 | the bound of RunTerminates is that product |
| Outbound.RetryCounterIsCapped | src/agent/nodes/enrichment_retry.py:26-51 | on every run of any list no retry takes the stored counter past 3; a larger one can only be the one the account came with |
| Outbound.FailuresAreCounted | src/agent/nodes/enrichment_retry.py:26-51 | on every run of any list the account at hand is one of the list but for its retry counter, which has counted the failed attempts since the selection up to 3 |
| Outbound.SequenceRestsOnOwnResearch | src/agent/nodes/researcher.py:38-129 | on every run of any list the enrichment at personaliser, gate, sender, monitor and router is that of the last researcher step since the selection, and none only if its error was empty |
| Outbound.FailingResearcherNeverEnds | src/agent/graph.py:109-109 | nevertheless a researcher that always fails is retried for ever, because the edge back to it is unconditional |
| Outbound.EmptyBatchNeverEnds | src/agent/nodes/account_selector.py:27-33 | an empty list of accounts loops between researcher and retry for ever |
| Outbound.DuplicateIdsNeverEnd | src/agent/graph.py:63-74 | with two equal ids the search by first match goes back for ever, unless a node raises or a draft is not approved |
| Outbound.RunEndsIffDistinct | src/agent/graph.py:63-74 | when nothing raises and all drafts are approved, a long enough run is over exactly if the list is non-empty and its ids are distinct |
| Outbound.Outbox.SendDraft | src/agent/nodes/sender.py:27-104 | post, save and append in this order: what is posted, saved and recorded for each answer of webhook and database, lost answers included |
| Outbound.MessageStore.HandleUnsubscribe | src/agent/nodes/unsubscribe_handler.py:25-49 | marks exactly the workspace's messages recorded for the contact, or none when the database raises during an update or the commit is undone; a commit whose answer is lost still marks them |
| Outbound.MessageStore.UpdateStatus | src/db/queries.py:324-343 | changes the status of the row with that id if it belongs to the workspace, and of no other |
| Accounts.IndexOf | src/agent/graph.py:68-71 | the first position with the id, -1 exactly when there is none |
| Qualification.StepKeepsInv | src/agent/qualification_graph.py:174-197 | invariant of every node and edge: scores were made without signals, recommendations fit the work at hand, nodes after the review work on pursued accounts, auto_outbound_triggered is unset |
| Qualification.NothingIsSentAutomatically | src/agent/qualification_graph.py:115-126 | no run of the wired graph sets auto_outbound_triggered or takes a send slot, for any accounts, criteria and answers: priorities stay at 75 or below and the gate asks for 80 |
| Qualification.OnlyPursuedReachCrm | src/agent/qualification_graph.py:80-87 | on every run, an account at crm_writer or later breaks no disqualify rule, has priority 60 to 75, confidence and a hypothesis of at least 0.5, a contact of relevance 70, and its pain scoring answered |
| Qualification.ReviewPassesPursued | src/agent/nodes/brief_reviewer.py:83-126 | auto-approval is given exactly to recommendations to pursue |
| Qualification.BriefIsFromThisAccount | src/agent/nodes/brief_builder.py:158-177 | a brief always repeats score, action, signals, pains and top contacts of the account at hand |
| Qualification.WrittenIsPursuedPrefix | src/agent/qualification_graph.py:42-87 | the accounts written to the CRM are the longest prefix of the list recommended to be pursued, each once and in order; the run is over at the first other account, disqualified ones included, or at the end of the list |
| Qualification.NodesStoreTheirAnswers | src/agent/nodes/pain_inferrer.py:34-137 | detector, ranker, inferrer, matcher, brief builder and draft generator store exactly the answer of that step, for the current account |
| Qualification.DecisionRestsOnOwnAnswers | src/agent/qualification_graph.py:179-186 | on every run, a recommendation rests on the answers of the five steps just before, given for this account: score, signals, contacts, pains and value propositions; of a disqualified account, on its score alone |
| Qualification.EveryFavouredAccountIsWritten | src/agent/qualification_graph.py:174-197 | when no rule is broken and every step's answers make for priority 60, confidence 0.5, a first contact of relevance 70 and a hypothesis of 0.5, all n accounts are written to the CRM, in order, and the run is over after 14 n nodes |
| Qualification.WrittenAccountIsFollowedUp | src/agent/qualification_graph.py:187-197 | when nothing raises, an account written to the CRM goes to Zoho, the task creator, the gate and the draft generator with its work unchanged, and the drafts are those of that step |
| Qualification.FavourableAnswersExist | src/agent/qualification_graph.py:174-197 | there are such answers |
| Qualification.RunTerminates | src/agent/qualification_graph.py:174-197 | with distinct ids a run of n accounts takes at most 14 n nodes |
| Qualification.EmptyBatchEnds | src/agent/qualification_graph.py:100-101 | an empty batch runs through to a review of nothing and is over after nine nodes, with nothing written |
| Qualification.NothingCarriesOver | src/agent/qualification_graph.py:95-126 | isolation: two runs of one campaign whose lists agree from some account on stay in step from there under equal answers, whatever came before: same nodes, account, signals, contacts, pains, score, recommendation and brief |
| Qualification.NothingCarriesOverIntoDrafts | src/agent/nodes/draft_email_generator.py:44-178 | the same for the draft e-mails of those accounts |
| Qualification.DuplicateIdsNeverEnd | src/agent/qualification_graph.py:62-67 | with two equal ids a run of pursued accounts goes back for ever |
| Qualification.RunEndsIffDistinct | src/agent/qualification_graph.py:56-69 | when every account is pursued and nothing raises, a long enough run is over exactly if no id is repeated |
| Qualification.SelectorTakesNext | src/agent/qualification_graph.py:95-126 | the selector moves to the next account with all per-account work cleared |

## Left out

- Floating point: scores, weights and the bucket's fraction are exact, so results that hang on a rounding error in binary fractions are not modelled.
- Strings: `normalize_domain`, the suffix stripping of company names and the lower-casing of e-mail addresses are arbitrary functions passed in; the comparison of industries, geographies and metadata signals with their target lists is an input of the ICP score.
- AccountDedup.MergeMetadata: dictionaries are values, so two survivors that share one nested metadata dictionary are not modelled; neither are domain or name entries that are not text.
- AccountDedup.NamesAreDissimilar: assumes a name on every record, which the typed account guarantees; raw dictionaries without names are the counterexample above.
- Outbound.Send: the node is a state update; `Outbound.Outbox` has the order of post and save and the answers that get lost.
- Qualification.Execute: language model answers arrive parsed, and the contact and hypothesis lists already sorted; their JSON handling only decides which value arrives.
- Both graphs start at their selector with no account current; data ingestion, title normalization and whoever prepares the first state are not modelled, so distinct account ids are an assumption of the theorems that need it.
- Resuming a run after a pending approval or review beyond the answer it brings, LangGraph's checkpoints and its recursion limit (which would cut the endless runs short), and the job queue's retries.
- The texts of prompts, explanations, briefs and drafts, and what CRM, Zoho and task nodes write outside the state; the nodes value_prop_matcher and zoho_writer are taken to write value_props and nothing.
- SendCaps.ExpiryIsInvisible: one clock reading per call; midnight falling between the several readings of one call is not modelled. Keys are values of a datatype, not strings.
- TokenBucket.WindowBound: one plan for the life of a bucket and one clock for all workers; plan changes and clock skew are not modelled.
- ThreadLock.AtMostOneYoungHolder: one Redis without failover.
- Kill switch and blocklist look-ups, which are inputs of the gate; the admin API, rollback, demo mode, exports, metrics and event logging.
- handle_brief_to_outbound, which calls functions that the repository does not define, and link_contacts_to_account, a filter and sort.
