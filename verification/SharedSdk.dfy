/** The state that the clones of an `Sdk` share (src/http.rs), and the methods that change it: the critical
    sections, each run by the thread that holds the lock, and the calls made of them. Their effects are
    the ones `CriticalSections` and `Calls` show the interleaved steps to add up to. */
module SharedSdk {
  import opened Wrappers
  import opened Time
  import opened Domain
  import opened Validate
  import opened Protocol
  import opened CriticalSections
  import Calls
  import opened Answers

  class SharedState {
    const sdk: Sdk
    var attempt: nat
    var inFlight: Option<Instant>
    var lastAttempt: Option<Instant>
    var renewalFailed: bool
    var cache: Option<Record>

    constructor (sdk: Sdk, cache: Option<Record>)
      ensures this.sdk == sdk
      ensures forall now :: At(now) == Shared(None, FRESH_RENEWAL, false, cache, now)
    {
      this.sdk, this.attempt, this.inFlight, this.lastAttempt := sdk, 0, None, None;
      this.renewalFailed, this.cache := false, cache;
    }

    // The shared state when the lock is free and the clock reads `now`.
    function At(now: Instant): Shared
      reads this
    {
      Shared(None, Renewal(attempt, inFlight, lastAttempt), renewalFailed, cache, now)
    }

    // `InFlight::drop`.
    method DropInFlight(number: nat)
      modifies this`inFlight
      ensures forall now :: At(now) == old(At(now)).(renewal := Finish(old(At(now)).renewal, number))
    {
      if attempt == number {
        inFlight := None;
      }
    }

    // The first thing a manual `renew` does.
    method MarkAttempt(now: Instant)
      modifies this`lastAttempt
      ensures At(now) == old(At(now)).(renewal := old(At(now)).renewal.(lastAttempt := Some(now)))
    {
      lastAttempt := Some(now);
    }

    method LoadCache(readOk: bool) returns (rec: Option<Record>)
      ensures forall now :: rec == Load(sdk, At(now), readOk)
    {
      rec := None;
      if sdk.cacheOn && readOk {
        rec := cache;
      }
    }

    method StoreCache(rec: Option<Record>, writeOk: bool)
      modifies this`cache
      ensures forall now :: At(now) == Stored(sdk, old(At(now)), rec, writeOk)
    {
      if sdk.cacheOn && writeOk {
        cache := rec;
      }
    }

    // Starts a renewal of `lic` if it is due; `number` is the one it got, if its thread was spawned.
    method RenewInBackground(lic: License, now: Instant, lockFree: bool, spawnOk: bool) returns (number: Option<nat>)
      modifies this`attempt, this`inFlight, this`lastAttempt
      ensures var starts := lockFree && Since(now, lic.issuedAt) >= ONE_HOUR;
              && At(now) == (if starts then StartEffect(old(At(now)), now, spawnOk) else old(At(now)))
              && number == if starts && Due(old(At(now)).renewal, now) && spawnOk then Some(old(attempt) + 1) else None
      ensures number.Some? <==>
              && lockFree && spawnOk && lic.issuedAt + ONE_HOUR <= now
              && (old(inFlight).Some? ==> old(inFlight).value + TEN_MINUTES < now)
              && (old(lastAttempt).Some? ==> old(lastAttempt).value + FIVE_MINUTES <= now)
    {
      number := None;
      if Since(now, lic.issuedAt) < RENEW_AFTER || !lockFree {
        return;
      }
      var running := inFlight.Some? && Since(now, inFlight.value) <= 2 * RENEW_RETRY;
      var retriedRecently := lastAttempt.Some? && Since(now, lastAttempt.value) < RENEW_RETRY;
      if running || retriedRecently {
        return;
      }
      attempt := attempt + 1;
      inFlight := Some(now);
      lastAttempt := Some(now);
      if spawnOk {
        number := Some(attempt);
      } else {
        inFlight := None;
      }
    }

    // Records how a renewal ended; says whether the cache still holds its activation.
    method NoteRenewal(activation: string, noNetwork: bool, now: Instant, readOk: bool) returns (holds: bool)
      modifies this`renewalFailed
      ensures holds <==> Found(sdk, old(At(now)), activation, readOk).Some?
      ensures At(now) == NoteEffect(sdk, old(At(now)), activation, noNetwork, readOk)
    {
      var rec := LoadCache(readOk);
      assert rec == Load(sdk, At(now), readOk);
      holds := rec.Some? && sdk.Names(rec.value, activation, now);
      renewalFailed := noNetwork && holds;
    }

    // The locked part of background renewal number `job.attempt`.
    method StoreOutcome(job: Job, outcome: Outcome, now: Instant, readOk: bool, writeOk: bool)
      modifies this`renewalFailed, this`cache
      ensures At(now) == StoreEffect(sdk, old(At(now)), job, outcome, readOk, writeOk)
    {
      if attempt != job.attempt {
        return;
      }
      var holds := NoteRenewal(job.activation, outcome.NoNetwork?, now, readOk);
      if !holds {
        return;
      }
      match outcome {
        case Fresh(rec, _) => StoreCache(Some(rec), writeOk);
        case Rejected => StoreCache(None, writeOk);
        case _ =>
      }
    }

    method SaveToCache(rec: Record, acceptedAt: Instant, writeOk: bool)
      modifies this`renewalFailed, this`cache
      ensures forall now :: At(now) == WriteEffect(sdk, old(At(now)), Write.Save(rec, acceptedAt), writeOk)
    {
      renewalFailed := false;
      if sdk.cacheOn && writeOk {
        cache := Some(rec);
      }
    }

    method ClearCache(writeOk: bool)
      modifies this`renewalFailed, this`cache
      ensures forall now :: At(now) == WriteEffect(sdk, old(At(now)), Write.Clear, writeOk)
    {
      renewalFailed := false;
      if sdk.cacheOn && writeOk {
        cache := None;
      }
    }

    /******* Whole calls, each reading one time off the clock *******/

    // `activate` from its answer on.
    method Activate(reply: Reply, now: Instant, writeOk: bool)
      modifies this`renewalFailed, this`cache
      ensures At(now) == Calls.ActivateEffect(sdk, old(At(now)), reply, writeOk)
    {
      if Rejects(reply) {
        ClearCache(writeOk);
      } else if reply.Answered? && sdk.Accepts(reply.rec, now) {
        SaveToCache(reply.rec, now, writeOk);
      }
    }

    // `deactivate` from its answer on.
    method Deactivate(reply: Reply, now: Instant, writeOk: bool)
      modifies this`renewalFailed, this`cache
      ensures At(now) == Calls.DeactivateEffect(sdk, old(At(now)), reply, writeOk)
    {
      if reply.Answered? {
        ClearCache(writeOk);
      }
    }

    // A manual `renew`: mark, clear after a rejection, record the outcome, store an accepted answer.
    method Renew(activation: string, reply: Reply, now: Instant, readOk: bool, writeOk: bool)
      modifies this`lastAttempt, this`renewalFailed, this`cache
      ensures At(now) == Calls.RenewEffect(sdk, old(At(now)), activation, reply, readOk, writeOk)
    {
      MarkAttempt(now);
      if Rejects(reply) {
        ClearCache(writeOk);
      }
      var _ := NoteRenewal(activation, reply.Unreachable?, now, readOk);
      if reply.Answered? && sdk.Accepts(reply.rec, now) {
        SaveToCache(reply.rec, now, writeOk);
      }
    }

    // A background renewal from its answer on: accept the answer, store the outcome, drop the mark.
    method RenewAndStore(job: Job, reply: Reply, now: Instant, readOk: bool, writeOk: bool)
      modifies this`inFlight, this`renewalFailed, this`cache
      ensures At(now) == Calls.RenewalEffect(sdk, old(At(now)), job, reply, readOk, writeOk)
    {
      var outcome := Failed;
      if !reply.Answered? {
        outcome := OutcomeOf(reply);
      } else if sdk.Accepts(reply.rec, now) {
        outcome := Fresh(reply.rec, now);
      }
      StoreOutcome(job, outcome, now, readOk, writeOk);
      DropInFlight(job.attempt);
    }

    // `check` as one call: `now` is its first clock reading, `later` the one in `renew_in_background`.
    // It writes neither the cache nor the flag, and its answer does not depend on the renewal.
    method Check(now: Instant, later: Instant, readOk: bool, lockFree: bool, spawnOk: bool)
      returns (answer: Answer, number: Option<nat>)
      modifies this`attempt, this`inFlight, this`lastAttempt
      ensures var rec := Load(sdk, old(At(now)), readOk);
              var lic := Offered(sdk, rec, now);
              var starts := lic.Some? && lockFree && Since(later, lic.value.issuedAt) >= ONE_HOUR;
              && answer == AnswerFor(sdk, rec, old(renewalFailed), now)
              && (forall l, g :: answer == Licensed(l, g) <==>
                    && rec.Some? && sdk.Accepts(rec.value, now) && sdk.verify(rec.value, now) == Some(l)
                    && (g <==> old(renewalFailed) && l.issuedAt + ONE_HOUR < now < l.issuedAt + l.gracePeriod))
              && At(later) == (if starts then StartEffect(old(At(later)), later, spawnOk) else old(At(later)))
              && (number.Some? <==> starts && Due(old(At(later)).renewal, later) && spawnOk)
    {
      number := None;
      var rec := LoadCache(readOk);
      assert rec == Load(sdk, At(now), readOk);
      if rec.None? || sdk.verify(rec.value, now).None? {
        return NotActivated, None;
      }
      var lic := sdk.verify(rec.value, now).value;
      var verdict := ValidateAt(lic, sdk.machineId, now);
      if lic.machineId == sdk.machineId && lic.activationId != "" && lic.key != "" {
        number := RenewInBackground(lic, later, lockFree, spawnOk);
      }
      match verdict {
        case Pass => answer := Licensed(lic, InGracePeriod(lic, now, renewalFailed));
        case Fail(HardExpired) => answer := LicenseExpired;
        case Fail(_) => answer := NotActivated;
      }
    }
  }
}
