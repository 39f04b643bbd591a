# A verified model of the latte-rs licensing SDK

`latte-rs` keeps a signed activation token in a cache file, verifies it offline, and renews it on
background threads. This project models five parts of it and proves what they promise.

**The renewal protocol** (`src/http.rs`) is a transition system, `Protocol`. Any number of threads run
`check`, `activate`, `renew`, `deactivate` and detached background renewals; every lock request,
cache read, clock read, flag store, cache write and lock release is a step of its own. The clock, the
server's answers, failed spawns and failed file operations arrive as the choices of a run, so a theorem
about every sequence of events is one about every behaviour of these. `LockDiscipline`, `CacheSafety`,
`Answers`, `Ownership`, `Spacing` and `Progress` hold the invariants, `StaleMark` and `LateSave` the runs on
which the code does not keep what its documentation says; `CriticalSections`, `Atomicity`, `Calls` and
`SharedSdk` relate the fine steps to whole critical sections, to whole calls and to the methods of the shared
object.

**The verification pipeline** (`src/jwt.rs`, `src/verify.rs`, `src/validate.rs`, `src/lib.rs`) is modelled
branch by branch in `Jwt`, `Verify`, `Validate` and `Pipeline`. Ed25519, base64url, hex and JSON enter as
arbitrary functions (`Jwt.Lib`). `Trust` says what an accepted chain proves, `Pipeline` at which instants
it is accepted, `Verdicts` which error it gets otherwise, `Formats` that the two token formats agree,
`EarlyClock` what happens before 1970. `PipelineSdk` puts the pipeline into the protocol.

**RFC 3339 parsing** (`parse_rfc3339`) is modelled on bytes, character boundaries included (`Rfc3339`),
and measured against a grammar and a day-by-day calendar (`Calendar`, `Timestamps`).

**Cache saves** (`src/storage.rs`) are steps over names and inodes, with interleaved savers, readers,
clears and crashes (`Storage`, `StorageSafety`, `TempNames`), and methods that run them in order
(`CacheDir`).

**The key checksum** (`src/key.rs`) is in `Key`.

Time is an integer number of nanoseconds since 1970, possibly negative; durations are not.

## What the proofs show about the code

- `renew` reads the clock before it takes the lock (src/http.rs:393). A call held up between the two
  puts an old time on record, although the clock never goes back. Then two background renewals can start
  at the same instant (`StaleMark.TwoRenewalsAtOnce`), and a background renewal can start at the instant of
  another manual attempt (`StaleMark.BackgroundStartsBesideAManualAttempt`), against the five minutes the
  documentation states. `Spacing.NextStartIsSpacedIff` says, for any point of any run, exactly when the next
  background start is certain to come five minutes after every earlier attempt of either kind, and
  `Spacing.StartsAreSpaced` gives the whole promise back for runs in which no such old reading is written.
  With a `check` that is held up as well, two background renewals with the same start can even be live
  together (`StaleMark.TwoLiveRenewals`), where otherwise ten minutes lie between them;
  `Spacing.NextRenewalIsFarApartIff` says when the next one is certain to keep these.
- The documentation of `deactivate` says that `check` finds no activation from then on until the next
  `activate` (src/http.rs:414-416). A manual `renew` that already has its answer saves it after the
  deactivation (`LateSave.SavedAfterTheDeactivation`), and a removal that fails keeps the token
  (`LateSave.KeptByAFailedRemoval`). `LateSave.DeactivatedIff` has the exact condition: the removal works and
  no later step is a save by `activate` or a manual `renew`.
- The documentation of `renew` says a call that fails to reach the server sets the flag behind
  `in_grace_period`. The code does so exactly when the cache also holds the renewed activation
  (src/http.rs:653-658): `Calls.RenewEffect` has the condition, `Calls.UnreachableWithoutTheActivation` a run
  that fails to set it, and `CacheSafety.FlagTellsTheLastOutcome` what the flag means in every run.
- `parse_rfc3339` takes more than RFC 3339. `Timestamps.AcceptedBeyondTheGrammarIff` says exactly what: days
  past the end of their month, second 60 at any time, and offsets past 23:59. (The grammar is taken without
  leap seconds, which RFC 3339 allows at their own dates.)
  `Timestamps.AFebruary30IsRead` is one such string, and `Timestamps.LateDaysRollOver` says what the extra days
  mean.
- The age limit of 365 days never decides anything in the full pipeline
  (`Pipeline.LicenseTooOldNeverArises`); `Validate.TooOldIsPossibleIff` says when it would in `validate_at`
  alone.
- For a clock before 1970 certificates are checked as if it showed 1970 (src/jwt.rs:138-141), so a licence
  can then be accepted before its daily certificate was issued (`EarlyClock.AcceptedBeforeTheDailyCert`),
  exactly when no certificate claims an `iat` or `nbf` after 1970 (`EarlyClock.AcceptedTooEarlyIff`).

## Model

| member | source | states |
|---|---|---|
| LockDiscipline.MoveDiscipline | src/http.rs:567-570 | One step of any operation takes or gives back the lock for its own thread only, and changes the renewal record, the flag or the cache only while that thread holds it |
| LockDiscipline.MutualExclusion | src/http.rs:567-690 | In every state of every run the thread inside a critical section is the one the lock names; nobody waits for a lock it holds |
| LockDiscipline.NothingSlipsIn | src/http.rs:660-662 | Between two steps of the lock's holder, any events of others leave record, flag and cache exactly as they were |
| CacheSafety.NextKeepsCacheInv | src/http.rs:612-690 | Every step of every operation keeps the invariant that ties flag, cache, history and each thread's knowledge together |
| CacheSafety.FlagTellsTheLastOutcome | src/http.rs:646-658 | At every state, the flag is true exactly when the last recorded outcome, save or clear was a network failure whose activation was held, and then the cache still holds that very record, which verified for the activation being renewed at a reading the clock has shown |
| CacheSafety.CacheProvenance | src/http.rs:364-634 | The cache is always empty, its initial record, or a record that passed the whole pipeline for this machine at a reading the clock has shown |
| CacheSafety.BackgroundWritesAreConditional | src/http.rs:612-644 | A background write happens under the lock, by the current renewal, over exactly the record that was read and verified for its activation; it leaves an accepted record or nothing |
| CacheSafety.StaleRenewalsAreInert | src/http.rs:623-626 | A renewal that has been taken over changes neither flag nor cache nor the newer renewal's mark |
| CacheSafety.NoResurrection | src/http.rs:424-434 | From any reachable state with an empty cache, it stays empty and every check that looks answers NotActivated, until a step in which activate or a manual renew saves a record |
| CacheSafety.EmptyExactlyUntilAManualSave | src/http.rs:424-434 | A run from such a state finds the cache empty throughout if and only if none of its steps is such a save |
| LateSave.SavedAfterTheDeactivation | src/http.rs:386-434 | For any accepted record there is a run in which a manual renew saves it after deactivate has emptied the cache, without any call of activate, and check would hand out its licence |
| LateSave.KeptByAFailedRemoval | src/http.rs:424-434 | Wherever the cached licence is accepted, a deactivate that the server answers but whose removal fails leaves it to be handed out by check |
| LateSave.DeactivatedIff | src/http.rs:684-690 | From the removal step on the cache is empty in every state of a run exactly when the removal works, or nothing was there, and no later step is a manual save |
| Answers.ChecksAnswerForTheirLoad | src/http.rs:508-538 | However its steps interleave, a check that loaded a record answers what one undisturbed check would for the record the cache held at its own load, the clock reading it took after that, and the flag as it is when it answers; one that loaded nothing answers NotActivated |
| Answers.AnswerIff | src/http.rs:529-537 | An answer is a licence, in grace or not, exactly when the record is accepted, verifies to that licence, and the grace bit is right: the last renewal failed, the token is over an hour old and its deadline not reached; LicenseExpired exactly when the record verifies, is well formed and past its end |
| Answers.GraceTellsAFailure | src/http.rs:529-533 | In every run, a licence is handed out in grace exactly when, at the answer, the last outcome is a network failure of a held activation with no save or clear since, and the reading the check took lies between the token's first hour and its deadline; the record of that failure is still the cached one |
| Answers.RenewalsAreWarranted | src/http.rs:516-528 | Every background renewal of a run was started by a check, for the activation of the licence that the cache content at that check's load verified to: for this machine, with activation and key, and an hour old at the reading the renewal starts with |
| Ownership.InFlightIsTheLiveRenewal | src/http.rs:246-256 | The mark holds a start time exactly while the renewal with the current number is live and started then; live renewals have distinct numbers |
| Ownership.DropsClearOnlyTheirOwnMark | src/http.rs:264-272 | Dropping a renewal's guard removes its own mark, and leaves a newer renewal's mark alone |
| Ownership.OutcomesAreRecordedInOrder | src/http.rs:623-627 | The numbers of the background renewals whose outcomes are recorded strictly increase |
| Spacing.FewStartsInAWindow | src/http.rs:572-597 | When starts are spaced, a window of T holds at most T / 300 s + 1 of them |
| Spacing.StartsAreSpaced | src/http.rs:578-607 | For any clock, if no manual renew writes a reading older than the one on record: background starts come at least 300 s after every earlier attempt, and two live background renewals started more than 600 s apart |
| Spacing.SpacingWithoutManualRenew | src/http.rs:578-607 | The same without any condition on the clock when the run has no manual renew |
| Spacing.SpacingUnderAForwardClock | src/http.rs:391-394 | The same with manual renews, under a clock that never goes back, when each one's clock read and write are one step |
| Spacing.NextStartIsSpacedIff | src/http.rs:578-597 | At any point of any run, the next background start is certain to come 300 s after every earlier attempt, background or manual, exactly when the time on record is no older than any attempt, or there is none, or the mark in flight holds the next start up long enough |
| Spacing.CurrentRecordsKeepSpacing | src/http.rs:578-597 | While that condition holds, no step of a run breaks the spacing |
| Spacing.NextRenewalIsFarApartIff | src/http.rs:578-597 | At any point of any run, the next background renewal is certain to start more than 600 s after every live one exactly when each of these started more than 600 s before the first reading at which a renewal is due |
| StaleMark.TwoRenewalsAtOnce | src/http.rs:391-394 | A run with a forward clock in which a held-up manual renew lets two background renewals start at the same instant |
| StaleMark.BackgroundStartsBesideAManualAttempt | src/http.rs:391-394 | A run with a forward clock in which a background renewal starts at the instant of a manual attempt, because an older reading hid it |
| StaleMark.TwoLiveRenewals | src/http.rs:578-607 | A run with a forward clock in which two background renewals with the same start are live together, because a stale mark lets a held-up check begin one |
| Progress.OnlyTheLockBlocks | src/http.rs:567-570 | Any unfinished thread can take a step, unless it asks for a lock that is taken |
| Progress.CriticalStepsCountDown | src/http.rs:567-690 | Under every choice of the environment each step inside a critical section brings the release closer |
| Progress.TheLockIsGivenBack | src/http.rs:567-690 | The holder alone gives the lock back within six steps |
| Progress.DeadlockFreedom | src/http.rs:567-690 | While any thread has work left, some thread with work left can take a step |
| Progress.CheckNeverWaits | src/http.rs:508-538 | check can take its next step in every state, each step brings its answer closer, and no other thread sets it back |
| Progress.DueCheckStarts | src/http.rs:578-607 | A check that finds an old enough, renewable record and a due renewal begins it, with the next number and its own clock reading |
| Progress.Recovery | src/http.rs:516-528 | With the lock free and the clock more than 600 s past every time on record, the next undisturbed check starts a new renewal of a renewable cached token, whatever became of earlier ones and whatever the verdict |
| Progress.RecoveryWhileOthersRun | src/http.rs:508-607 | The same under any interleaving: such a check begins a renewal if, when it asks for the lock, this is free and every time on record lies more than 600 s before its reading |
| CriticalSections.StoreSection | src/http.rs:623-643 | Run alone, the locked steps of a background renewal add up to the one change StoreEffect |
| CriticalSections.NoteSection | src/http.rs:398-401 | Run alone, the steps that record a manual renewal's outcome add up to NoteEffect |
| CriticalSections.WriteSection | src/http.rs:673-690 | Run alone, the steps of save_to_cache and clear_cache add up to WriteEffect |
| CriticalSections.StartSection | src/http.rs:584-606 | Run alone, the locked steps of renew_in_background add up to StartEffect, with and without a thread to spawn |
| CriticalSections.DropSection | src/http.rs:264-272 | Run alone, the steps of dropping a guard remove the mark exactly when it is the renewal's own |
| CriticalSections.Found | src/http.rs:661-670 | The activation is held exactly when the cache can be read and its record verifies now and names it; its licence end, deadline and machine have no say |
| Calls.ActivateEffect | src/http.rs:364-368 | An accepted answer replaces the cache and a rejection empties it, if the file operation works and there is a cache path; both clear the flag in any case; anything else changes nothing |
| Calls.DeactivateEffect | src/http.rs:424-434 | Once the server has answered the flag is cleared, and the cache emptied if the removal works; any error leaves everything as it was |
| Calls.RenewEffect | src/http.rs:386-407 | The call goes on record as an attempt; the flag ends up true exactly when the server could not be reached and the activation was held; an accepted answer replaces the cache and a rejection empties it, if the file operation works |
| Calls.RenewalEffect | src/http.rs:612-670 | A background renewal that has been taken over changes nothing; otherwise its mark goes, the flag ends up true exactly when the server could not be reached and the activation was held, and, if held, an accepted answer replaces the cache and NotFound, Expired or WrongProject empties it, if the file operation works; anything else leaves it |
| Calls.UnreachableWithoutTheActivation | src/http.rs:381-401 | A run in which a manual renew cannot reach the server and leaves the flag false |
| Calls.ActivateLooks | src/http.rs:350-355 | A usable cached licence of the same key or alias is returned without a request and without a change; otherwise a request follows |
| Calls.ActivateRuns | src/http.rs:364-368 | The steps of activate after its request add up to ActivateEffect |
| Calls.DeactivateRuns | src/http.rs:424-434 | The steps of deactivate add up to DeactivateEffect |
| Calls.RenewRuns | src/http.rs:386-407 | The steps of a manual renew, three critical sections of them, add up to RenewEffect |
| Calls.RenewalRuns | src/http.rs:612-644 | The steps of a background renewal, from its request to the end of its thread, add up to RenewalEffect |
| Calls.DyingRuns | src/http.rs:260-272 | The steps of one whose thread dies while it waits take back its own mark and change nothing else |
| Calls.ActivateCall | src/http.rs:342-368 | activate as a whole: a key of no or more than 256 characters is refused and a cached licence that serves is returned, both without a request or a change; otherwise a request is made and its answer has ActivateEffect |
| Atomicity.SectionsAreAtomic | src/http.rs:578-690 | Under any interleaving, each of the four critical sections changes record, flag and cache as its effect does in one step at its start, with one of the clock readings shown during the section |
| SharedSdk.SharedState.DropInFlight | src/http.rs:266-271 | The object's new state is the old one with this number's mark finished |
| SharedSdk.SharedState.MarkAttempt | src/http.rs:391-394 | Only the time of the last attempt changes |
| SharedSdk.SharedState.RenewInBackground | src/http.rs:578-607 | The new state is StartEffect when the token is old enough and the lock was free, and the old one otherwise; a thread is started exactly when it can be, the token is an hour old, no mark is set or it is over 600 s old, and no attempt lies less than 300 s back |
| SharedSdk.SharedState.NoteRenewal | src/http.rs:653-670 | The flag is set for a network failure of a held activation and cleared otherwise; the result says whether the activation is held |
| SharedSdk.SharedState.StoreOutcome | src/http.rs:623-643 | The new state is StoreEffect of the old one |
| SharedSdk.SharedState.SaveToCache | src/http.rs:673-681 | The flag is cleared, then the record stored, if the write works |
| SharedSdk.SharedState.ClearCache | src/http.rs:684-690 | The flag is cleared, then the record removed, if the removal works |
| SharedSdk.SharedState.Activate | src/http.rs:364-368 | The methods for the parts of activate, called in its order, have ActivateEffect |
| SharedSdk.SharedState.Deactivate | src/http.rs:424-434 | The same for deactivate and DeactivateEffect |
| SharedSdk.SharedState.Renew | src/http.rs:386-407 | The same for a manual renew and RenewEffect |
| SharedSdk.SharedState.RenewAndStore | src/http.rs:613-644 | The methods for the parts of a background renewal, called in its order, have RenewalEffect |
| SharedSdk.SharedState.Check | src/http.rs:508-538 | check changes neither cache nor flag, its answer depends on the record, the flag and its first clock reading alone, with the grace bit as in AnswerIff, and it starts a renewal exactly when one is due for a renewable record |
| PipelineSdk.TheCacheIsVouchedFor | src/http.rs:364-368 | With the real pipeline: the cache is empty, initial, or holds a record that a trusted master's chain vouches for, for this machine, at an instant of its accepting interval |
| PipelineSdk.LicencesAreVouchedFor | src/http.rs:508-538 | Every licence a check of a run hands out is the one that a trusted master's chain vouches for in the record the cache held at that check's load, at the reading the check took, even if the cache started out forged |
| PipelineSdk.ChecksAnswerByTheWindow | src/http.rs:516-537 | For one record, check hands out the licence at exactly the instants of its accepting interval, and says when it answers LicenseExpired |
| PipelineSdk.ChecksDoNotReturnToOk | src/http.rs:508-538 | For an unchanged record and whatever the flag shows each time, a check that has stopped accepting does not accept at a later reading |
| PipelineSdk.ChecksStayRejected | src/http.rs:508-538 | In any run, while the cache keeps its record and the clock does not go back, once the clock is past the upper end of the record's interval no check that reads its clock later answers with a licence |
| Jwt.ToI64 | src/jwt.rs:162-164 | A numeric claim in range is cut towards zero; beyond the 64-bit range it becomes the nearest end of it |
| Jwt.NumericClaimIff | src/jwt.rs:162-172 | A claim is read as an integer exactly when it is a number, and then as this number cut towards zero, or the nearest end of the 64-bit range |
| Jwt.JoinUndoesSplit | src/jwt.rs:79-86 | Joining the dot-separated parts gives the token back |
| Jwt.SplitUndoesJoin | src/jwt.rs:79-86 | A token made of dot-free parts is split into exactly these |
| Jwt.AcceptedIsSigned | src/jwt.rs:107-118 | An accepted token's signature covers exactly its bytes before the last dot |
| Jwt.AuthenticIffSays | src/jwt.rs:79-123 | Clock aside, parsing yields claims exactly when the token is three parts that decode to an EdDSA header, those claims by the issuer, and a 64-byte signature of the first two |
| Jwt.ErrorsRankFormSignatureIssuer | src/jwt.rs:79-123 | Which error a token gets: malformed exactly when it is not three decodable parts, else a bad signature, else a wrong issuer |
| Jwt.CertWindowIsExact | src/jwt.rs:132-160 | The time claims hold at exactly the instants of one interval, from iat and nbf to the last nanosecond of the second exp, and the error says on which side the clock is |
| Jwt.ParsesIffAuthenticInWindow | src/jwt.rs:71-130 | In each leeway mode, parsing succeeds exactly when the token is authentic and the instant lies in that interval, with claims no clock decides |
| Jwt.KeysAgreeOnClaims | src/jwt.rs:98-130 | Two keys that both verify a token read the same claims |
| Verify.VerifySubmaster | src/verify.rs:107-115 | The loop over the masters yields the first success, or else the last master's error, or InvalidSignature for no masters |
| Verify.CollectMetadata | src/verify.rs:163-170 | The metadata are exactly the entries of pmd whose values are strings |
| Verify.ReadLicense | src/verify.rs:135-170 | The one licence the claims mean: key, alias, activation, project and machine are the texts of sub, alias, aid, pid and mid, the type is named by ltype, the metadata are the texts in pmd; with grc it ends at exp and its deadline is iat plus grc, without it the deadline is exp, if not before iat, and it ends at lex or in 2099 |
| Verify.LicenceIsWhatClaimsMean | src/verify.rs:135-170 | Claims mean exactly one licence, stated claim by claim, and it is the one that is read |
| Verify.CheckLinks | src/verify.rs:172-211 | The cross-checks pass exactly when project, issue time and grace fit the certificates; a wrong project is reported before a missing iat, that before a missing exp, and these before times that do not fit |
| Verify.VerifyActivationAnyAt | src/verify.rs:101-226 | The step-by-step check gives, for every input, what the chain of links gives, errors included; a licence it returns is the one meant by claims that the token says under some key |
| Trust.MasterLoop | src/verify.rs:107-114 | The loop succeeds exactly when some listed master verifies, with the claims any of them gives; otherwise it reports the last error |
| Trust.SomeMasterDecides | src/verify.rs:107-115 | A record verifies exactly when one listed master alone would verify it, with that licence: neither which key matched nor the order matters |
| Trust.MoreMastersKeepAcceptance | src/verify.rs:101-115 | Adding or reordering masters keeps every acceptance and its licence |
| Trust.VerifiesIffTrusted | src/verify.rs:107-211 | Clock aside, verification yields a chain exactly when it is signed from a trusted master down to the token, each link by the key its parent names, and its claims pass the cross-checks |
| Trust.KeyIsTheNamedOne | src/verify.rs:24-39 | The key of a certificate is the point of the 32 bytes whose hex form the claim holds, and there is one exactly when these exist |
| Validate.ValidatesExactlyInWindow | src/validate.rs:14-56 | A licence validates exactly when its fields are in order and the instant is not past the least of its end, its deadline and its 365 days |
| Validate.GraceIsInsideValidity | src/validate.rs:68-79 | The grace bit needs a failed renewal and an hour of age, and holds only strictly before the deadline up to which is_valid holds |
| Validate.TooOldIsPossibleIff | src/validate.rs:47-53 | Some instant makes a licence too old exactly when its fields are in order and both its grace period and its term exceed 365 days |
| Pipeline.VerifiesExactlyInWindow | src/verify.rs:107-134 | A record verifies exactly when its chain is trusted and the instant lies in the interval of its three certificates; the licence does not depend on the instant |
| Pipeline.AcceptsExactlyInTheWindow | src/lib.rs:196-211 | The pipeline accepts at exactly the instants of one interval, from the certificates' iat and nbf to the least of the submaster's and project's exp, the licence end and iat plus grace, and always with the same licence, shown field by field |
| Pipeline.NoReturnToOk | src/lib.rs:196-211 | Once a record is accepted and later rejected, it is rejected at every later instant |
| Pipeline.AcceptedWithinTheDailyCert | src/verify.rs:182-211 | Every accepting instant lies between the daily certificate's iat and its exp plus 90 days; for a clock before 1970 the lower end is that iat is not positive |
| EarlyClock.AcceptedBeforeTheDailyCert | src/jwt.rs:138-148 | A concrete record that is accepted, with the clock before 1970, before its daily certificate was issued |
| EarlyClock.AcceptedTooEarlyIff | src/jwt.rs:138-153 | A record is accepted somewhere before its daily certificate's iat exactly when it is accepted at all and no certificate claims an iat or nbf after 1970 |
| Pipeline.LicenseTooOldNeverArises | src/verify.rs:206-211 | The pipeline never answers LicenseTooOld |
| Verdicts.TokenFaultIff | src/jwt.rs:71-160 | Which error a token gets under a key, and when: malformed if it does not decode, bad signature if it decodes unsigned, wrong issuer if signed with foreign claims, not yet valid or expired if it says its claims before or after their interval; each exactly then |
| Verdicts.LinkFaultIff | src/verify.rs:24-39 | Which error a link gets: a missing key claim, one that is not hex, bytes that are no key, and otherwise exactly the error of the token under the key |
| Verdicts.VerifyFailsWithItsCause | src/verify.rs:101-226 | The pipeline reports a verification error exactly when it is what is wrong with the first link, from the top, at which the chain breaks at that instant: all masters fail, or a link below fails, or the claims disagree |
| Verdicts.ValidateFailsWithItsCause | src/validate.rs:14-56 | It reports a validation error exactly when a trusted chain vouches for the record at that instant and this is what is wrong with its licence: incomplete or reversed fields, another machine, past its end, or past its deadline; never its age |
| Verdicts.AcceptedIffAttestedAndValid | src/lib.rs:196-211 | It hands out a licence exactly when a trusted chain vouches for the record at that instant and the licence is well formed, is_valid, and not past its end |
| Formats.SameLicence | src/verify.rs:143-161 | A token without grc and its rewriting with grc read as the same licence |
| Formats.FormatsAreEquivalent | src/verify.rs:143-161 | Both formats get the same answer, licence or error, at every instant |
| Calendar.FormulaCountsDays | src/http.rs:1039-1045 | The one-line day formula equals the count of days by the leap-year rule and the month lengths, for every year, month and day number |
| Calendar.FormulaIsMonotone | src/http.rs:1039-1045 | The formula is strictly increasing in calendar order, and injective |
| Calendar.FormulaInvertsStepping | src/http.rs:1039-1045 | Stepping any number of days from 1970-01-01 and applying the formula gives that number back |
| Calendar.SteppingInvertsFormula | src/http.rs:1039-1045 | And the other way round, for every valid date |
| Calendar.ExcessDaysRollOver | src/http.rs:1009-1011 | Days 29 to 31 of a short month denote the days that follow its end |
| Rfc3339.StringsAreUtf8 | src/http.rs:990-1049 | The byte sequences the scanner is modelled on include the UTF-8 form of every string |
| Timestamps.UnitsTruncate | src/http.rs:1016-1023 | Cutting a fraction to its first digits rounds its value down, however many digits follow |
| Timestamps.ReadsWhatIsWritten | src/http.rs:990-1049 | The text of every date-time of the grammar, in any of its spellings, parses to exactly the instant it denotes |
| Timestamps.ReadsNothingElse | src/http.rs:990-1049 | Every string the scanner accepts is one of these texts, and is read as the instant it denotes |
| Timestamps.SpellingsAreUnique | src/http.rs:990-1049 | No string spells two date-times |
| Timestamps.AcceptsExactly | src/http.rs:990-1049 | The scanner accepts a string exactly when it is the text of a date-time with the fields in range, days up to 31, seconds up to 60 and offsets of two digits |
| Timestamps.AcceptedBeyondTheGrammarIff | src/http.rs:1009-1038 | It accepts a string outside the RFC 3339 grammar (taken without leap seconds) exactly when that spells a day past the end of its month, a second 60, or an offset past 23:59 |
| Timestamps.LateDaysRollOver | src/http.rs:1009-1045 | A day past the end of its month is read as the day it rolls over to |
| Timestamps.AFebruary30IsRead | src/http.rs:1009-1045 | 2026-02-30T00:00:00Z is outside the grammar and read as the 2nd of March |
| Timestamps.TheExampleIsRead | src/http.rs:987-1049 | 2026-10-21T09:00:00Z is read as 1792573200 s after 1970 |
| Timestamps.OffsetsMoveTheInstant | src/http.rs:1024-1048 | With +hh:mm in place of a final Z any accepted timestamp is read as that much earlier, with -hh:mm as that much later |
| Timestamps.PrintThenParse | src/http.rs:990-1049 | Printing any instant of the years 0000 to 9999 in any offset and parsing it returns the instant |
| TempNames.ValueOfDecimal | src/storage.rs:102-106 | Printed numbers read back as themselves and hold no dot |
| TempNames.TempNamesDiffer | src/storage.rs:99-106 | Temporary names of different (process id, counter) pairs differ |
| TempNames.TempNameIsNotTheTarget | src/storage.rs:99-106 | No temporary name is the cache file's own, whatever that is |
| TempNames.TempNameExtendsTheName | src/storage.rs:99-106 | For a cache file called like stem.json the temporary name is stem.json.pid.counter.tmp, in decimal |
| Storage.FileNamesDiffer | src/storage.rs:99-106 | The names of the model stand for pairwise different file names |
| StorageSafety.NoTornCache | src/storage.rs:81-117 | In every interleaving with crashes: the cache file is absent, initial, or one complete saved record; every load answers one of these or nothing; no two calls under way share a temporary file |
| StorageSafety.LoadsAnswerTheirOpen | src/storage.rs:63-74 | Under every interleaving a load answers nothing, or exactly the record the cache file held when that load opened it |
| StorageSafety.OnlyRenamesAndClears | src/storage.rs:107-128 | The cache file changes only when a save renames its own complete record over it or a clear removes it |
| StorageSafety.NoFilesLeftBehind | src/storage.rs:113-115 | Without crashes and failed removals, no temporary file is left once no save is under way |
| CacheDir.SaveIsAllOrNothing | src/storage.rs:81-117 | A save leaves exactly its bytes in the cache file or leaves it as it was, touches no other name, and removes its temporary file |
| CacheDir.SaveRuns | src/storage.rs:81-117 | Undisturbed, the interleaved steps of a save do what the call does |
| CacheDir.LoadRuns | src/storage.rs:63-74 | Undisturbed, the interleaved steps of a load answer the decoded file |
| CacheDir.ClearRuns | src/storage.rs:122-128 | Undisturbed, the interleaved steps of a clear remove the cache file, or leave it when the removal fails, and touch no other name |
| CacheDir.Folder.Save | src/storage.rs:81-117 | The folder's new state and the result are the call's effect, and the counter moves on by one |
| CacheDir.Folder.Load | src/storage.rs:63-74 | The decoded file, or nothing for a missing, unreadable or foreign one |
| CacheDir.Folder.Clear | src/storage.rs:122-128 | The file is gone, or the removal failed and nothing changed; a missing file is no error |
| CacheDir.SaveThenLoad | src/storage.rs:63-117 | After a save that succeeds a load returns its record; after one that fails, what was there |
| Key.AlphabetIndex | src/key.rs:8-14 | The position of a symbol in the alphabet, or -1 |
| Key.AlphabetIsOrdered | src/key.rs:6-14 | The alphabet is the digits and the capital letters without I, L, O and U, in ascending order |
| Key.SumCountsByTurns | src/key.rs:16-24 | The sum is 0 for no data, doubles the index of the first symbol and of every second one after it, and is additive after an even number of symbols |
| Key.CalculateChecksum | src/key.rs:16-32 | The loops compute the checksum, for any data and length; its first symbol has as index the sum of the data's indices, doubled by turns from the first on, modulo 32 |
| Key.ValidKeysAreDataAndChecksum | src/key.rs:36-43 | A key validates exactly when it is some data with the computed checksum appended |
| Key.CheckSymbolsCountDown | src/key.rs:27-30 | The check symbols step down through the alphabet from the one for the sum |
| Key.SubstitutionSlipsThroughIff | src/key.rs:16-43 | A wrong character in the data is accepted exactly when its index differs by 0 or 32, or by 16 at an even position |
| Key.WrongSymbolSlipsThroughIff | src/key.rs:16-43 | Within the alphabet: exactly at an even position, for indices 16 apart |
| Key.AdjacentSwapIsDetected | src/key.rs:16-43 | Swapping two adjacent distinct symbols of the data is always rejected |
| Key.OneWrongSymbol | src/key.rs:36-43 | A valid key with one symbol replaced, in its data or its checksum, stays valid exactly when the symbol is at an even position of the data and the indices are 16 apart |
| Key.AdjacentSwapInAKeyIff | src/key.rs:36-43 | A valid key with two adjacent distinct symbols swapped anywhere stays valid exactly when its checksum is one symbol, that symbol changed places with the last of the data at an odd position, and the two indices are 16 apart; with two check symbols or more, never |
| Key.Normalize | src/key.rs:70-74 | The loop computes the normal form, which holds no hyphen and no space |
| Key.NormalizesOneByOne | src/key.rs:70-74 | A normal form is made character by character, in order: hyphens and spaces go, small letters become capitals, every other character stays |
| Key.SanitizesOneByOne | src/key.rs:45-64 | The same for a sanitised key, in which O becomes 0, and I and L become 1 |
| Key.LookAlikesAreOneKey | src/key.rs:45-64 | Typing O for 0, or I or L for 1, in either case, gives the same sanitised key |
| Key.NativeKeysStay | src/key.rs:50-52 | Sanitising a key of the native alphabet changes nothing |
| Key.NormalFormsAreStable | src/key.rs:53-74 | Normalising or sanitising again changes nothing, and a sanitised key holds no O, I or L |

## Left out

- HTTP itself (`Http::post`, timeouts, status codes, wire types): a request is one nondeterministic outcome, and the outcome it reports is a choice of the run.
- Ed25519, base64url, hex and JSON internals: arbitrary functions; a JSON number is its floating-point reading, so rounding of long digit strings is outside the model.
- Verify.ReadLicense: keeps the `ent` claim as it stands, because narrowing its values (src/entitlements.rs) decides no verdict.
- Formats.FormatsAreEquivalent: asks that `exp - iat` fits in 64 bits, because the source's subtraction overflows otherwise.
- Overflow of 64-bit seconds, of the attempt number and of the save counter, and the range of `SystemTime`: integers are unbounded.
- The text inside error values, and which `LatteError::Server` message is produced.
- Another process, or another `Sdk::new`, on the same cache path does not share the lock: the protocol theorems speak of one `Sdk` and its clones. The storage theorems cover several processes.
- Protocol runs treat one save, load or clear of the cache file as one step; that a load answers what the file held at one moment, and that the file changes only by whole records, is the subject of `StorageSafety`.
- `check` reads the cache first and the flag later, so the grace bit of one answer may mix two moments; nothing more is claimed of it.
- Mutex poisoning: a background renewal may die while it waits for the server, but no step inside a critical section panics.
- Order between a manual renewal and a background one of the same activation: the later write wins, as in the source, and nothing is claimed about `issued_at`.
- Spacing.StartsAreSpaced: asks that no manual `renew` writes a reading older than the one on record, because without that both parts of the promise are false of the code (`StaleMark.TwoRenewalsAtOnce`, `StaleMark.TwoLiveRenewals`); the gap between two manual attempts is the caller's.
- StorageSafety.NoTornCache: assumes that a rename is atomic and that live processes have distinct ids; a power failure that loses written but unsynced data is outside the model.
- Key.NormalFormsAreStable: ASCII keys only, as in Key.NormalizesOneByOne and Key.SanitizesOneByOne, because Unicode uppercasing is library code.
- Machine ids, app ids, entitlement lookups, machine lists and names, configuration: single-branch accessors and data shapes that would add only easy members.
