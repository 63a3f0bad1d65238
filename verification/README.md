# BerryShield, modelled and proved

BerryShield's gateway answers three requests. Issuing scores a visitor and grants a token,
poses a challenge, or blocks. Verifying checks a proof for a challenge, consumes the
challenge and mints a token. Site verification checks a token for the site that owns a
secret and spends it. Behind them stand a store in memory that sweeps itself, a signer with
a key ring, and two scorers that must not differ; around them, three implementations of
one proof of work, a press-and-hold dialog, a bit mixer, and a reputation service with a
bounded cache. This project models them in Dafny and proves what they promise together.

`dafny verify dfyconfig.toml` checks everything.

## How it is laid out

The store comes first. `Store.dfy` has the class `Memory`, whose methods sweep and update
three maps in place, each proved equal to a function on states. `StoreRuns.dfy` compares
whole runs of those functions with a store that never forgets, `RateRuns.dfy` counts what
the rate limiter grants.

The protocol is modelled twice. `Protocol.dfy` interleaves any number of requests at every
operation on the shared store, random draw and clock reading; `Agreement.dfy` has the
invariant and `Guarantees.dfy` what follows for callers. `Ledger.dfy` and `Gateway.dfy` run
each handler as one step: `Gateway.Server` is the imperative server with its counters,
`Ledger` the functions it is proved against, `Conservation.dfy` the balance of store, counters
and history. `Atomicity.dfy` joins the two: every run of the server is matched, request by
request, by an interleaved run; `ServerRuns.dfy` says of the server's own requests what follows,
`Failures.dfy` which of them are counted as failures, and `Visits.dfy` which of them share a rate
window and are turned away. All rest on the request checks in `Api.dfy`.

The parts they use: `Token.dfy` over `Base64Url.dfy`, `Challenges.dfy` over `Work.dfy`,
`Risk.dfy` and `Scorers.dfy`, with `Signals.dfy` for what each signal recognises and adds,
`Hostnames.dfy` and `Sites.dfy`. On their own stand `Hold.dfy`,
`Mixer.dfy`, `Reputation.dfy` and `TtlCache.dfy`.

## What is taken for granted

- HMAC is symbolic: a tag under a ring key covers only texts the gateway signed in the run,
  and different keys give different tags. JSON reads back what it wrote. SHA-256 is any function.
- Challenge ids and token ids that are drawn are fresh. The ledger also covers draws that fail.
- Clock readings never decrease in the order the store's lock is taken. `AllowRate` takes its
  reading before the lock (memory.go:82-83), so there this is a premise about scheduling.
- Each handler's clock readings are modelled one by one: `siteVerify` reads when it checks a token
  (server.go:255) and again when the store spends it (memory.go:73), and nothing ties the two together.
- A press-and-hold timer never fires before it is due.

## Findings

- docs/API.md:32 says without condition that a token is single-use. The code keeps that only while the
  second reading of `siteVerify` is not past the token's expiry, because the store forgets a spent token
  there. `Guarantees.SpendSucceedsExactlyWhen` gives the exact condition in every reachable state, and
  `Guarantees.TokenSucceedsTwice` a run, for every ordinary request that is let through at once, in which
  one token succeeds twice. `Guarantees.InjectiveAgreement` is once-only use under that condition.
- Normalising a host name twice is not always normalising it once: each pass takes one dot off the end, or one
  of two nested ports (config.go:264-268). `Hostnames.TwiceIsOnceExactlyWhen` gives the exact condition on the
  text, `Hostnames.RepeatedDotsAreNotSettled` and `Hostnames.NestedPortsAreNotSettled` inputs on which it fails. The
  cost is at server.go:295: a spelling that an allow-list admits (`Hostnames.EntryAdmitsItsSpelling`) and a
  token was issued for is then refused at site verification (`Api.SameSpellingMismatchesExactlyWhen`).
- A rate key is three texts joined by colons (server.go:102), and actions, site keys and prefixes may hold colons
  too. `Visits.RateKeysCollideExactlyWhen` and `Visits.RateKeysSeparate` give the exact conditions under which
  different visitors share a window, `Visits.UnreadableAddressCollides` an input: an address without a readable
  prefix (an IPv6 zone, say) and the action `:/56:login` share that of `::/56` and the action `login`.
- The cache fails on a put exactly when its capacity is not positive (`TtlCache.Cache.Put`).
- A hold can be resolved below a minimum that is not a whole number of milliseconds, by rounding
  (interactive.ts:87): `Hold.MinimumUndercutExactlyWhen` says for which limits some run does. Issued minima are whole.

## Model

| member | source | states |
|---|---|---|
| Store.Memory.PutChallenge | services/gateway/internal/store/memory.go:30-35 | stores the challenge in the swept store, whatever order the maps are swept in |
| Store.Memory.GetChallenge | services/gateway/internal/store/memory.go:37-43 | returns what the swept store holds, and sweeps |
| Store.Memory.FailChallenge | services/gateway/internal/store/memory.go:45-58 | one more failure, or removal at the maximum; a missing id changes nothing |
| Store.Memory.ConsumeChallenge | services/gateway/internal/store/memory.go:60-68 | wins exactly when the id was there, and removes it without sweeping |
| Store.Memory.ConsumeJTI | services/gateway/internal/store/memory.go:70-79 | first exactly when the swept store does not know the token id, which it then remembers |
| Store.Memory.AllowRate | services/gateway/internal/store/memory.go:81-92 | counts the call in its fixed window and allows it up to the limit |
| Store.Memory.GcLocked | services/gateway/internal/store/memory.go:94-110 | deleting while iterating leaves exactly the records still in time |
| StoreRuns.ForgetfulStoreAgrees | services/gateway/internal/store/memory.go:30-110 | over any run the sweeping store answers like one that never forgets, on every call that does not consume or spend past expiry |
| StoreRuns.SpendIsAcceptedExactlyWhen | services/gateway/internal/store/memory.go:70-79 | a token id is accepted if and only if it was never spent or the call comes after its expiry |
| StoreRuns.ConsumeSucceedsExactlyWhen | services/gateway/internal/store/memory.go:60-68 | consuming succeeds if and only if the challenge is unconsumed and no earlier sweep read a clock past its expiry |
| StoreRuns.LongerWindowsAreForgotten | services/gateway/internal/store/memory.go:105-109 | with any window longer than the retention the two stores can be told apart, so the premise on windows is tight |
| StoreRuns.GoneIsAbsorbing | services/gateway/internal/store/memory.go:45-68 | an id that left the store returns only by being put again |
| StoreRuns.ConsumedOnce | services/gateway/internal/store/memory.go:60-68 | between two successful consumptions of one id it was put again |
| StoreRuns.AttemptsAreTheFailures | services/gateway/internal/store/memory.go:45-58 | a stored challenge carries exactly the failures recorded since it was put, and fewer than the maximum |
| StoreRuns.ThirdFailureIsFinal | services/gateway/internal/store/memory.go:45-58 | after three recorded failures a challenge is gone for the rest of the run |
| RateRuns.WindowsAreFixed | services/gateway/internal/store/memory.go:85-88 | two calls on a key share their window if and only if the later one comes before its end; otherwise a new one opened at or after that end, with a call |
| RateRuns.FixedWindowIsExact | services/gateway/internal/store/memory.go:81-92 | against the one call that opened its window, each call gets the number of calls so far and is allowed while that is at most the limit |
| RateRuns.WholeWindowIsExact | services/gateway/internal/store/memory.go:81-92 | over the whole run each window lets exactly min(limit, calls) of its calls through |
| RateRuns.AtMostTwiceTheLimit | services/gateway/internal/store/memory.go:81-109 | any stretch of time no longer than the window has at most twice the limit of allowed calls |
| Guarantees.SuccessesAgreeWithIssues | services/gateway/internal/api/server.go:71-337 | in every interleaving each success goes back to an issue with the same site, action, host, binding, score and kind; the very challenge posed for it was solved from its session, before its expiry and with the work and hold it asked for; a second success of one issue only past expiry |
| Guarantees.InjectiveAgreement | services/gateway/internal/api/server.go:71-337 | when tokens are spent in time, different successes go back to different issues |
| Guarantees.SpendSucceedsExactlyWhen | services/gateway/internal/api/server.go:255-327 | in every reachable state spending succeeds if and only if the token has never succeeded or the reading is past its expiry |
| Guarantees.TokenSucceedsTwice | services/gateway/internal/api/server.go:255-327 | a run in which one token, checked twice while valid, succeeds in time and again just past its expiry, for every ordinary request |
| Guarantees.BoundTokensStayInTheirPrefix | services/gateway/internal/api/server.go:301-316 | a bound token succeeds only from the network prefix it was issued to |
| Guarantees.KindsMatchBuckets | services/gateway/internal/token/token.go:122-133 | a token's kind is the decision on its score; with default thresholds kind and bucket correspond and none is critical |
| Guarantees.GoneStaysGone | services/gateway/internal/store/memory.go:45-68 | whatever step any request takes next, a challenge that is gone stays gone and keeps its fate |
| Guarantees.GoneForever | services/gateway/internal/store/memory.go:45-68 | the same over every continuation of a run |
| Guarantees.GoneUnconsumedMintsNothing | services/gateway/internal/api/server.go:176-235 | a struck-out or expired challenge never yields a token, not even to a request that read it before |
| Guarantees.OneTokenPerChallenge | services/gateway/internal/api/server.go:218-234 | at most one token per challenge, and only once it is consumed |
| Guarantees.AttemptsAreTheStrikes | services/gateway/internal/store/memory.go:45-58 | in every interleaving a stored challenge carries exactly the failures the run has recorded of it, and no challenge records a fourth |
| Guarantees.ThirdStrikeIsFinal | services/gateway/internal/api/server.go:195-217 | once a run has recorded three failures of a challenge it is gone, unconsumed, and no token is ever minted for it, whatever comes after |
| Agreement.EveryRunKeeps | services/gateway/internal/api/server.go:71-337 | the agreement invariant holds in every state of every interleaving; every copy of a challenge in flight is the one posed, parameters and expiry included |
| Api.AcceptedWasMinted | services/gateway/internal/api/server.go:247-316 | a token that passes the check was minted here with those claims, fits the request and is in time |
| Api.CheckedIsCertified | services/gateway/internal/api/server.go:247-316 | a passed check means the secret's own site, the expected action and host, and the right binding |
| Api.DecisionsTileLikeBuckets | services/gateway/internal/token/token.go:122-133 | under default thresholds the decision cascade and the bucket cascade split the scores alike |
| Gateway.OriginAllowed | services/gateway/internal/api/server.go:368-380 | an absent origin passes, an unusable one does not, a host passes when the site allows it and it is the expected one |
| Gateway.Server.IssueChallenge | services/gateway/internal/api/server.go:71-174 | the whole effect on store, counters and history from three clock readings; which answer each outcome gets; a returned token is the one minted, a returned challenge the one stored. Who is let in is fixed by `Api.AdmittedExactlyWhen`, who is limited by `Visits.VisitorsAreLimitedByThemselves` |
| Gateway.Server.VerifyChallenge | services/gateway/internal/api/server.go:176-235 | the whole effect from four clock readings; which answer each outcome gets; only a passed proof on a stored challenge returns a token, and it is the one minted. Which requests fail or pass is fixed by `Api.JudgedExactlyWhen` and `Failures.FailuresAreRecorded` |
| Gateway.Server.SiteVerify | services/gateway/internal/api/server.go:237-337 | the whole effect and the answer, for whichever owner the walk over the sites finds |
| Api.AdmittedExactlyWhen | services/gateway/internal/api/server.go:77-98 | an issuing request is let in if and only if its site is known, its action is 1 to 64 letters, digits or marks, its host and origin are allowed and its session has 1 to 128 characters |
| Api.JudgedExactlyWhen | services/gateway/internal/api/server.go:188-219 | of an issued challenge, an attempt is a failure if and only if it comes from an allowed page and either from another network, or readable and without the session or the work; it passes if and only if it lacks nothing |
| Api.OwnTokenIsAnswered | services/gateway/internal/api/server.go:255-317 | a token the gateway signed is "timeout-or-duplicate" exactly from its expiry on, "invalid-input-response" exactly more than 30 s before its issue, and in between passes exactly when site, action, host and binding fit |
| Api.UntaggedIsUnreadable | services/gateway/internal/api/server.go:255-265 | what no ring key has tagged is "invalid-input-response" at any time |
| Failures.FailuresAreRecorded | services/gateway/internal/api/server.go:183-224 | over every run the recorded failures of a challenge are its failing requests, never a fourth; it was consumed exactly if a request passed it; with three it is gone and unconsumed, with fewer still there until its time is over |
| Failures.ThreeFailuresAreFinal | services/gateway/internal/api/server.go:183-224 | after three failing requests no request ever passes the challenge |
| Failures.StoredWerePosed | services/gateway/internal/api/server.go:155-165 | every stored challenge is, but for its failures, what one of the requests posed |
| Visits.OneActionSharesExactlyByPrefix | services/gateway/internal/api/server.go:102-103 | for one site and action, two requests share a window if and only if their network prefixes are equal |
| Visits.RateKeysCollideExactlyWhen | services/gateway/internal/api/server.go:102-103 | for one site and prefixes that are address blocks or unreadable, two requests share a window if and only if prefix and action agree, or one has no prefix and names the other's in its action |
| Visits.UnreadableAddressCollides | services/gateway/internal/util/ip.go:36-46 | the input on which that happens |
| Visits.RateKeysSeparate | services/gateway/internal/api/server.go:102-103 | with readable prefixes and no site key that continues another after a colon, two requests share a window if and only if site, prefix and action agree |
| Visits.LimitedExactlyWhen | services/gateway/internal/api/server.go:102-125 | over every run an admitted request is turned away if and only if the requests of its key and one-minute window, itself included, exceed its site's limit; otherwise exactly its decision is counted |
| Visits.VisitorsAreLimitedByThemselves | services/gateway/internal/api/server.go:102-125 | the same of site, prefix and action: turned away only after the limit of earlier requests of its own within the last minute |
| Guarantees.TokensLiveAsLongAsTheirSite | services/gateway/internal/token/token.go:135-157 | in every interleaving each token bears the reading of the step that minted it and expires after its site's token lifetime |
| Conservation.EveryRunBalances | services/gateway/internal/api/server.go:71-337 | after every run store, counters and history balance |
| Conservation.ChallengesAreConserved | services/gateway/internal/api/server.go:176-235 | challenges put = live + consumed + struck out after three failures + expired, the last past their expiry |
| Conservation.DecisionsAreConserved | services/gateway/internal/api/server.go:123-174 | challenges counter = allow + pow + interactive + block; tokens = allows + consumed; challenges put = pow + interactive; failed draws make the exact difference |
| Conservation.SuccessesAreConserved | services/gateway/internal/api/server.go:237-337 | successes + failures = site verifications, replays are failures, successes = distinct tokens spent (plus repeats past expiry), at most the tokens minted when each check takes one reading |
| Conservation.RequestsAreTheCalls | services/gateway/internal/api/server.go:71-238 | the request counter is the number of requests handled |
| Atomicity.AtomicRunsInterleave | services/gateway/internal/api/server.go:71-337 | every run of whole handlers is matched by an interleaved run with the same store and tokens, whose issues, solves and successes are those very requests |
| ServerRuns.SuccessesAnswerIssues | services/gateway/internal/api/server.go:71-337 | each request counted as a success answers an earlier issuing request: same site, action, host, binding, score and kind; its token had the site's lifetime; the challenge with that request's draw was solved in between, from its session, within the site's challenge lifetime and with the work of 14, 16 or 17 bits and the hold; two answers to one request only past expiry |
| ServerRuns.OneSuccessPerIssue | services/gateway/internal/api/server.go:71-337 | when each check takes one reading, different successes answer different issuing requests |
| Token.NewSignerWithKeys | services/gateway/internal/token/token.go:29-38 | the ring has every previous key under its own id, and the active key is never shadowed |
| Token.ClaimsPassExactlyWhen | services/gateway/internal/token/token.go:101-113 | claims pass if and only if they are complete and iat - 30 <= now < exp in whole seconds |
| Token.SignedVerifiesExactlyWhen | services/gateway/internal/token/token.go:48-114 | a signed token verifies to its claims if and only if the later ring maps its id to the same secret and the claims pass |
| Token.MintedVerifiesAcrossRotation | services/gateway/internal/token/token.go:29-157 | the same for a minted token from issue to verification across a change of keys |
| Token.AcceptedCarriesATag | services/gateway/internal/token/token.go:63-114 | nothing is accepted without a ring key's tag on its first two parts; if a signer wrote those for some claims, those claims come out |
| Base64Url.RoundTrip | services/gateway/internal/token/token.go:17-17 | decoding undoes encoding, and encoded text has no dot |
| Base64Url.GroupsAreTheSameNumbers | services/gateway/internal/token/token.go:17-17 | each three bytes are the same number as their four characters, and the rest but for two or four bits; no padding |
| Base64Url.ValueIsThePlace | services/gateway/internal/token/token.go:17-17 | a character stands for its place in the URL-safe alphabet |
| Token.KnownKeyLeavesTheTimes | services/gateway/internal/token/token.go:101-113 | once the ring knows the key, a complete signed token is expired, too early or good by its times alone |
| Digests.LeadingZerosUnique | services/gateway/internal/challenge/challenge.go:134-150 | the count is fixed by the digest's value as a number, so implementations cannot differ |
| ServerWork.LeadingZeroBits | services/gateway/internal/challenge/challenge.go:134-150 | the loop counts the leading zero bits: n >= d if and only if the big-endian value is below 2^(8L-d) |
| BrowserWork.LeadingZeroBits | packages/browser-sdk/src/pow.ts:25-38 | the same count |
| HarnessWork.LeadingZeroBits | redteam/runner.py:53-60 | the same count |
| BrowserWork.SolvePow | packages/browser-sdk/src/pow.ts:1-23 | returns the least nonce in range whose message (`WorkMessages.MessageSplits`) does the work, "exhausted" only when there is none, or the step at which the clock ran out |
| HarnessWork.SolveOwnPow | redteam/runner.py:62-67 | returns the least nonce in range whose message does the work, or nothing exactly when there is none |
| WorkMessages.DecimalReadsBack | packages/browser-sdk/src/pow.ts:14-14 | a nonce is written in digits without leading zero and reads back to itself |
| WorkMessages.MessageSplits | services/gateway/internal/challenge/challenge.go:93-93 | the text before the last colon of a message is the seed, the text after it the nonce |
| WorkMessages.MessagesDiffer | redteam/runner.py:65-65 | messages are equal if and only if seed and nonce are: each nonce is a new try |
| WorkMessages.LeastWorkIsUnique | packages/browser-sdk/src/pow.ts:12-16 | two searches that meet the specification return the same nonce |
| Challenges.Verify | services/gateway/internal/challenge/challenge.go:78-132 | the check's answer, error by error, from its two clock readings; what passes is fixed by `Challenges.IssuedProofPassesExactlyWhen` |
| Challenges.IssuedProofPassesExactlyWhen | services/gateway/internal/challenge/challenge.go:48-132 | a proof for an issued challenge passes if and only if it is in time, of its kind, held as asked and does the work of 14, 16 or 17 bits in range |
| Challenges.FoundNoncePasses | services/gateway/internal/challenge/challenge.go:78-132 | the least nonce found for an issued challenge passes the server's work check |
| Challenges.BrowserToServer | packages/browser-sdk/src/pow.ts:1-38 | browser, harness and server on one issued challenge of either kind: the search takes its difficulty, both find the same nonce, and the server accepts it as work |
| RiskModel.NoRoundingTie | services/gateway/internal/risk/scorer.go:100-100 | the weight sum is never halfway between two whole scores |
| RiskModel.TagsAreTheFiredRules | services/gateway/internal/risk/scorer.go:25-110 | the tags of an assessment are those of the fired rules, all of them, in rule order, each once |
| Signals.ScoreIsTheSumOfSignals | services/gateway/internal/risk/scorer.go:25-110 | the score is the sum of the documented points of the signals shown, to the nearest whole number between 0 and 100 |
| Signals.OneSignalMore | services/gateway/internal/risk/scorer.go:30-98 | showing one signal more, all else equal, adds its documented points and its tag |
| Signals.TaggedExactlyWhenShown | services/gateway/internal/risk/scorer.go:30-98 | an assessment has a signal's tag if and only if the signal is shown |
| Signals.PlatformReadsTheFamily | services/gateway/internal/risk/scorer.go:113-129 | the platform read is that of the first family the text mentions in any letter case |
| Signals.PlatformIgnoresDress | services/risk-engine/src/score.rs:99-114 | letter case and surrounding quotes and spaces change nothing |
| Signals.OrdinaryPlatformsInEveryDress | services/risk-engine/src/score.rs:99-114 | Win32, MacIntel, Android, iPhone, iPad and Linux x86_64 are told apart in every casing and quoting |
| RiskModel.AssessmentIsMonotone | services/gateway/internal/risk/scorer.go:30-110 | firing more rules never lowers the score or softens the decision |
| RiskModel.WorseReputationNeverHelps | services/gateway/internal/risk/scorer.go:81-83 | nor does raising the reputation score |
| RiskModel.BehaviourAloneIsHarmless | services/gateway/internal/risk/scorer.go:69-79 | behaviour rules alone score at most 23 and let the visitor through under default thresholds |
| RiskModel.NoRuleAddsMoreThan48 | services/gateway/internal/risk/scorer.go:30-98 | with reputation at most 100 no single rule adds more than 48 |
| LocalScorer.Score | services/gateway/internal/risk/scorer.go:19-111 | clamping, then rounding, then removing repeated tags gives the exact assessment, which `Signals.ScoreIsTheSumOfSignals` and `Signals.TaggedExactlyWhenShown` describe |
| LocalScorer.Unique | services/gateway/internal/risk/scorer.go:131-141 | keeps first occurrences in order |
| RiskEngine.Score | services/risk-engine/src/score.rs:3-97 | rounding, then clamping, with tags kept single on the way, gives the same assessment |
| RiskEngine.ScoreHandler | services/risk-engine/src/main.rs:25-34 | answers with that assessment exactly when the request decodes and the thresholds pass the guard |
| RiskEngine.ValidatedSitesPassTheGuard | services/risk-engine/src/main.rs:26-32 | the guard never turns down a validated site |
| RemoteScorer.Score | services/gateway/internal/risk/remote.go:33-66 | whichever exchange fails, the result is the local one |
| RemoteScorer.AvailabilityIsInvisible | services/gateway/internal/risk/remote.go:33-66 | local scorer, and remote scorer over the engine, up or down, agree on score, decision and tags |
| Sites.ValidateSites | services/gateway/internal/config/config.go:201-236 | accepts exactly the acceptable lists and otherwise names the first faulty site and its fault |
| Sites.AcceptedExactlyWhen | services/gateway/internal/config/config.go:201-236 | a list is accepted if and only if each site is sound (in production with no secret that spells "change_me" in any case) and keys and secrets are pairwise different |
| Sites.AcceptedAreDistinct | services/gateway/internal/config/config.go:217-233 | accepted sites have pairwise different keys and secrets and sound limits |
| Sites.ConstantTimeStringEqual | services/gateway/internal/config/config.go:62-71 | the accumulated difference is zero exactly on equal strings |
| Sites.Registry.GetBySecret | services/gateway/internal/config/config.go:51-60 | finds a site with the secret, or nothing only if none has it, in any map order |
| Sites.SecretLookupFindsTheOwner | services/gateway/internal/config/config.go:36-60 | in an accepted list that site is the unique owner and is what key lookup finds too |
| Hostnames.SettledAreTheFixedPoints | services/gateway/internal/config/config.go:259-270 | normalisation leaves a spelling alone if and only if it is settled |
| Hostnames.NormalFormIsSettled | services/gateway/internal/config/config.go:259-270 | hosts in normal form are their own normal form |
| Hostnames.TwiceIsOnceExactlyWhen | services/gateway/internal/config/config.go:259-270 | normalising twice agrees with normalising once if and only if the written text, without port and outer brackets, ends in no second dot and, once its dot is gone, has no outer space or bracket and is no host:port |
| Hostnames.EntryAdmitsItsSpelling | services/gateway/internal/config/config.go:272-288 | an entry without wildcard admits a host written like itself, settled or not |
| Api.SameSpellingMismatchesExactlyWhen | services/gateway/internal/api/server.go:294-300 | with all else in order, the spelling a token was issued for is a mismatch at site verification exactly when that condition on its text fails |
| Hostnames.RepeatedDotsAreNotSettled | services/gateway/internal/config/config.go:264-268 | of two dots at the end one is left |
| Hostnames.NestedPortsAreNotSettled | services/gateway/internal/config/config.go:264-268 | of two nested ports one is left |
| Hostnames.SpellingsCollapse | services/gateway/internal/config/config.go:259-270 | letter case, surrounding space, trailing dot, port and brackets all normalise away |
| Hostnames.WrittenSpellingsCollapse | services/gateway/internal/config/config.go:259-270 | the same with the letters written out: two texts equal but for the case of letters normalise alike |
| Hostnames.AllowsHostname | services/gateway/internal/config/config.go:272-288 | admits a host exactly when some entry admits its normal form |
| Hostnames.WildcardAdmitsExactlySubdomains | services/gateway/internal/config/config.go:276-281 | `*.d` admits exactly the hosts longer than d that end in ".d" |
| Hostnames.ExactEntryAdmitsItself | services/gateway/internal/config/config.go:283-285 | an entry in normal form admits exactly itself |
| Hostnames.AcceptedAtIssueAcceptedAtVerification | services/gateway/internal/api/server.go:294-300 | a spelling accepted at issue and any other spelling at site verification name one host |
| Hold.Dialog.Dispatch | packages/browser-sdk/src/interactive.ts:56-122 | the handlers and the timer update the dialog as the step function says |
| Hold.EveryRunKeeps | packages/browser-sdk/src/interactive.ts:56-122 | over every event sequence at most one timer is pending, that of the hold in progress, and a resolved proof is within the limits |
| Hold.SettledExactlyWhen | packages/browser-sdk/src/interactive.ts:85-122 | only an event that ends a hold in progress settles the dialog; it times out exactly when the rounded hold exceeds the maximum |
| Hold.OnlySpaceAndEnterHold | packages/browser-sdk/src/interactive.ts:114-122 | of all keys, the space bar and Enter begin and end a hold, and any other key changes nothing |
| Hold.ResolvedProofCounts | packages/browser-sdk/src/interactive.ts:85-105 | over a run the resolved proof reports two events for each hold, the key events and at most eight pointer events |
| Hold.MinimumUndercutExactlyWhen | packages/browser-sdk/src/interactive.ts:85-105 | some run of the dialog resolves below its minimum if and only if the minimum is positive and rounds down, to no more than the maximum |
| Hold.ResolvedProofsSatisfyTheServer | services/gateway/internal/challenge/challenge.go:99-116 | the server's range and event-count checks accept every proof the dialog resolves for an issued challenge |
| Mixer.Mix32 | crates/probe-wasm/src/lib.rs:6-12 | the result of the assignments determines the argument: the inverse takes it back |
| Mixer.MixIsAPermutation | crates/probe-wasm/src/lib.rs:6-12 | an exhibited inverse undoes the mixer from both sides |
| Mixer.ProgramComputesMix | crates/probe-wasm/probe.wat:4-25 | the stack program never underflows, over any stack below, and pushes exactly the mixed word |
| Mixer.Interpret | crates/probe-wasm/probe.wat:4-25 | running the program instruction by instruction ends with the mixed word alone |
| Reputations.ProviderResult.Normalized | services/reputation/berry_reputation/models.py:18-21 | brings both scores into 0..100 in place and changes nothing else |
| Reputations.Aggregate | services/reputation/berry_reputation/models.py:41-69 | the aggregate of the answers as given, even when one object is listed twice; its score is described by `Reputations.ScoreByRanks` |
| Reputations.ScoreByRanks | services/reputation/berry_reputation/models.py:50-53 | eight times the score is nearest to six times the top plus twice the mean of second and third (twice the second when there are two, nothing for one), halves to even, with ranks defined by counting |
| Reputations.UnanimousScore | services/reputation/berry_reputation/models.py:50-53 | providers that all say x give x, and one alone three quarters of it |
| Reputations.NamesComeInOrder | services/reputation/berry_reputation/models.py:43-67 | two lists of answers put together are listed and warned of one after the other, and the first list's country and network come before the second's |
| Reputations.NamesOfOne | services/reputation/berry_reputation/models.py:43-67 | one answer alone is listed with its country and network, or warned of with its warning |
| Reputations.ClampIsNearest | services/reputation/berry_reputation/models.py:18-21 | a clamped score is the nearest one between 0 and 100 |
| Reputations.CompletionOrderIsInvisible | services/reputation/berry_reputation/models.py:41-69 | permuting the answers changes neither score, flags nor abuse score |
| Reputations.WarnedProvidersAreIgnored | services/reputation/berry_reputation/models.py:43-46 | dropping the providers that warned changes only the warnings |
| Reputations.ScoreIsNearTheTop | services/reputation/berry_reputation/models.py:50-53 | the score is between 0.75 of the best, rounded half to even, and the best |
| Reputations.RaisingScoresNeverLowers | services/reputation/berry_reputation/models.py:50-53 | raising the scores of any providers never lowers the aggregate |
| Reputations.AggregateIsSound | services/reputation/berry_reputation/models.py:55-64 | a flag is set exactly when some provider that did not warn sets it, and the abuse score is the highest of theirs, or 0 without any |
| TtlCache.Cache.Get | services/reputation/berry_reputation/cache.py:19-28 | returns only the latest value put for the key and only before its expiry, and drops an expired entry |
| TtlCache.Cache.Put | services/reputation/berry_reputation/cache.py:30-39 | keeps the size within capacity and keys and order consistent; fails exactly when the capacity is not positive |
| TtlCache.Cache.PurgeExpired | services/reputation/berry_reputation/cache.py:34-36 | leaves exactly the unexpired entries, in order |
| TtlCache.RoomIsMade | services/reputation/berry_reputation/cache.py:33-38 | afterwards there is room for one more entry, exactly when the capacity is positive |
| TtlCache.EvictedOnlyWhenFull | services/reputation/berry_reputation/cache.py:33-38 | a live entry is evicted only as the oldest of a full cache in which nothing has expired |

## Left out

- HTTP routing, headers, CORS, body limits, form and JSON parsing, logging and panic recovery. An unreadable body is an absent request; the error code for several JSON values in one body is folded into "invalid-json".
- SHA-256, HMAC, JSON text and random bytes beyond the assumptions above.
- Tokens signed under previous keys by an earlier process: in a protocol run every token comes from the running signer. Rotation is covered by `Token.MintedVerifiesAcrossRotation`.
- Reading addresses and computing network prefixes (util/ip.go): an abstract prefix function with a tag per prefix. `Guarantees.BoundTokensStayInTheirPrefix` assumes that tags differ when prefixes do; the code truncates a hash.
- Letters outside ASCII: Go lower-cases and trims by Unicode, Rust lower-cases by ASCII, and the two scorers then differ. Text is ASCII throughout; secrets are bytes.
- Go's `net.SplitHostPort` is not part of the repository; `Hostnames.SplitHostPort` follows its documented behaviour.
- Saturation of Go's `time.Duration` and of 64-bit Unix times.
- Floating point in the scorers and in the aggregate: weights are whole hundredths and scores whole eighths, both exact. The tie that rounding could meet is shown not to occur.
- Mixer words are integers below 2^32 with wrap-around written out.
- A browser report with infinite or undefined variance does not encode as JSON, and a nil language list encodes as null; both reach the scorer as a failed exchange, which falls back to the local result.
- `RiskModel.Rules` is one table that both scorers are proved against; lower-casing and platform names are shared between them, and `Signals` says what they recognise.
- In the protocol scores and tags are arbitrary and the decision is the threshold cascade on the score, which both scorers are proved to apply. In `Ledger` the decision is arbitrary too, and may be none of the four.
- The counters while handlers overlap: `Conservation` runs each handler as one step, with all its clock readings.
- Challenge parameters of another type than the ones issued: reading a missing one gives zero, as in the code, but a fractional one is not modelled.
- `Hold` takes the summary of the behaviour monitor as given. Its pointer variance is not bounded by the browser, so the server can still refuse a resolved proof for an irregular summary, or for arriving too soon after the challenge.
- Texts, styling and focus of the dialog, and its removal from the page.
- The yielding of the nonce search every 256 steps; the clock it reads there is modelled.
- `applySiteDefaults`, configuration from the environment, behaviour statistics, `timing_summary`, reputation providers with their thread pool, the reputation cache key, metrics, command-line tools: nothing in them is as hard as what is here.
