/** Offline validation of a chain-verified licence (src/validate.rs). */
module Validate {
  import opened Time
  import opened Domain
  import opened Windows
  import opened Wrappers

  const MAX_AGE: Duration := 365 * DAY
  const MAX_RENEWAL_TIME: Duration := 3600 * SECOND

  datatype ValidateError = InvalidFields | MachineIdMismatch | HardExpired | GraceExpired | LicenseTooOld

  datatype Verdict = Pass | Fail(error: ValidateError)

  function ValidateAt(lic: License, machineId: string, now: Instant): (v: Verdict) {
    if lic.issuedAt == 0 then Fail(InvalidFields)
    else if lic.expiresAt == 0 then Fail(InvalidFields)
    else if lic.gracePeriod == 0 then Fail(InvalidFields)
    else if lic.machineId != machineId then Fail(MachineIdMismatch)
    else if lic.expiresAt < lic.issuedAt then Fail(InvalidFields)
    else if now > lic.expiresAt then Fail(HardExpired)
    else if now > lic.issuedAt + lic.gracePeriod then Fail(GraceExpired)
    else if Since(now, lic.issuedAt) > MAX_AGE then Fail(LicenseTooOld)
    else Pass
  }

  predicate InGracePeriod(lic: License, now: Instant, renewalFailed: bool) {
    && renewalFailed
    && lic.issuedAt <= now
    && MAX_RENEWAL_TIME < now - lic.issuedAt < lic.gracePeriod
  }

  predicate IsValid(lic: License, now: Instant) {
    now < lic.issuedAt || now - lic.issuedAt <= lic.gracePeriod
  }

  /******* How the three freshness checks relate *******/

  // What validation asks of the fields, whatever the time.
  predicate WellFormed(lic: License, machineId: string) {
    lic.issuedAt != 0 && lic.expiresAt != 0 && lic.gracePeriod != 0 && lic.issuedAt <= lic.expiresAt
    && lic.machineId == machineId
  }

  function Deadline(lic: License): Instant {
    lic.issuedAt + lic.gracePeriod
  }

  // The instants at which a licence validates.
  function LicenceWindow(lic: License, machineId: string): Window {
    if WellFormed(lic, machineId) then
      Span(None, Earlier(Some(lic.expiresAt), Earlier(Some(Deadline(lic)), Some(lic.issuedAt + 365 * DAY))))
    else Never
  }

  lemma ValidatesExactlyInWindow(lic: License, machineId: string, now: Instant)
    ensures ValidateAt(lic, machineId, now).Pass? <==> LicenceWindow(lic, machineId).Contains(now)
  {
  }

  // Which error a rejected licence gets: missing fields come first, then the wrong machine, then a
  // licence that ends before it starts; a licence past its end is reported so even in its grace period.
  lemma ErrorsNameTheirCause(lic: License, machineId: string, now: Instant)
    ensures var complete := lic.issuedAt != 0 && lic.expiresAt != 0 && lic.gracePeriod != 0;
            var v := ValidateAt(lic, machineId, now);
            && (v == Fail(MachineIdMismatch) <==> complete && lic.machineId != machineId)
            && (v == Fail(InvalidFields) <==>
                  !complete || (lic.machineId == machineId && lic.expiresAt < lic.issuedAt))
            && (v == Fail(HardExpired) <==> WellFormed(lic, machineId) && lic.expiresAt < now)
            && (v == Fail(GraceExpired) <==> WellFormed(lic, machineId) && Deadline(lic) < now <= lic.expiresAt)
  {
  }

  // `is_valid` is the grace deadline alone: validation adds the fields, the licence end and the age.
  lemma PassingIsBeingValidAndMore(lic: License, machineId: string, now: Instant)
    ensures ValidateAt(lic, machineId, now).Pass? <==>
            WellFormed(lic, machineId) && IsValid(lic, now) && now <= lic.expiresAt && now <= lic.issuedAt + 365 * DAY
  {
  }

  // The advisory grace bit needs a failed renewal, and never outlives `is_valid`: at the deadline
  // itself, and for the first hour, the licence is valid without being in grace.
  lemma GraceIsInsideValidity(lic: License, now: Instant, renewalFailed: bool)
    ensures InGracePeriod(lic, now, renewalFailed) ==> renewalFailed && IsValid(lic, now) && now < Deadline(lic)
    ensures InGracePeriod(lic, now, true) <==>
            IsValid(lic, now) && now != Deadline(lic) && lic.issuedAt + ONE_HOUR < now
  {
  }

  // The age ceiling can be what rejects a licence exactly when both other ends lie beyond it.
  lemma {:induction false} TooOldIsPossibleIff(lic: License, machineId: string)
    ensures (exists now :: ValidateAt(lic, machineId, now) == Fail(LicenseTooOld)) <==>
            WellFormed(lic, machineId) && lic.gracePeriod > 365 * DAY && lic.expiresAt - lic.issuedAt > 365 * DAY
  {
    if WellFormed(lic, machineId) && lic.gracePeriod > 365 * DAY && lic.expiresAt - lic.issuedAt > 365 * DAY {
      assert ValidateAt(lic, machineId, lic.issuedAt + 365 * DAY + 1) == Fail(LicenseTooOld);
    }
  }
}
