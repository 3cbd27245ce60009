/** The one-time-password table: issuing codes, looking up the code a user may
    enter, checking an entered code under an attempt limit, expiring and
    purging old codes. Instants are milliseconds; `now` is the database's
    `NOW()`, which stays the same for the whole of one transaction. */
module OtpRepository {
  import opened Common

  datatype OtpType = Login | Registration | PasswordReset | PhoneVerification

  datatype OtpStatus = Pending | Verified | Expired | Failed

  datatype DeliveryMethod = Sms | Email

  /** One row of `otp_requests`; `None` is NULL. The uuid `otp_id` and the
      serial `id` are one key here. */
  datatype OtpRequest = OtpRequest(
    id: nat,
    userId: Option<string>,
    phoneNumber: Option<string>,
    email: Option<string>,
    countryCode: Option<string>,
    internationalPhone: Option<string>,
    otpCode: string,
    otpType: OtpType,
    status: OtpStatus,
    deliveryMethod: DeliveryMethod,
    attempts: nat,
    maxAttempts: int,
    providerResponse: Option<string>,
    ipAddress: Option<string>,
    userAgent: Option<string>,
    expiresAt: int,
    verifiedAt: Option<int>,
    createdAt: int,
    updatedAt: int)

  /** `value || null`: a missing or empty string is stored as NULL. */
  function OrNull(s: Option<string>): (r: Option<string>)
    ensures r.Some? <==> Truthy(s)
    ensures r.Some? ==> r == s
  {
    if Truthy(s) then s else None
  }

  predicate IdsIncreasing(rs: seq<OtpRequest>) {
    forall i, j :: 0 <= i < j < |rs| ==> rs[i].id < rs[j].id
  }

  /** A pending code has attempts left, and no code has been checked more
      often than its limit allows. */
  predicate WithinLimit(r: OtpRequest) {
    r.attempts <= r.maxAttempts && (r.status == Pending ==> r.attempts < r.maxAttempts)
  }

  predicate AttemptsBounded(rs: seq<OtpRequest>) {
    forall q :: q in rs ==> WithinLimit(q)
  }

  // ---------------------------------------------------------------- lookup

  /** The row `getActiveOTP` may return: the identifier is its phone number,
      e-mail or international phone number (NULL equals nothing), the type
      matches, and it is pending and not yet expired. */
  predicate Eligible(r: OtpRequest, identifier: string, otpType: OtpType, now: int) {
    && (r.phoneNumber == Some(identifier) || r.email == Some(identifier)
        || r.internationalPhone == Some(identifier))
    && r.otpType == otpType
    && r.status == Pending
    && r.expiresAt > now
  }

  /** `getActiveOTP`: the most recently created eligible row, or null when
      there is none. Among rows created at the same instant the later
      inserted one is taken. */
  function ActiveOtp(rs: seq<OtpRequest>, identifier: string, otpType: OtpType, now: int): (r: Option<OtpRequest>)
    ensures r.Some? ==> r.value in rs && Eligible(r.value, identifier, otpType, now)
    ensures r.Some? ==> forall q :: q in rs && Eligible(q, identifier, otpType, now) ==> q.createdAt <= r.value.createdAt
    ensures r.None? <==> forall q :: q in rs ==> !Eligible(q, identifier, otpType, now)
    decreases |rs|
  {
    if rs == [] then None
    else
      var init := rs[..|rs| - 1];
      var last := rs[|rs| - 1];
      assert rs == init + [last];
      var rest := ActiveOtp(init, identifier, otpType, now);
      if !Eligible(last, identifier, otpType, now) then rest
      else if rest.Some? && rest.value.createdAt > last.createdAt then rest
      else Some(last)
  }

  /** The row `verifyOTP` locks: the one with the key that is pending and not
      yet expired. */
  function FindOpen(rs: seq<OtpRequest>, otpId: nat, now: int): (r: Option<nat>)
    ensures r.Some? ==> r.value < |rs| && rs[r.value].id == otpId
                        && rs[r.value].status == Pending && rs[r.value].expiresAt > now
    ensures r.None? ==> forall i :: 0 <= i < |rs| ==>
                          !(rs[i].id == otpId && rs[i].status == Pending && rs[i].expiresAt > now)
    decreases |rs|
  {
    if rs == [] then None
    else if rs[0].id == otpId && rs[0].status == Pending && rs[0].expiresAt > now then Some(0)
    else
      var rest := FindOpen(rs[1..], otpId, now);
      if rest.Some? then Some(rest.value + 1) else None
  }

  // ---------------------------------------------------------- verification

  /** One checked attempt on a locked row: the attempt is counted; a matching
      code verifies the row; a wrong code with no attempt left fails it. */
  function Attempted(r: OtpRequest, code: string, now: int): OtpRequest {
    var counted := r.(attempts := r.attempts + 1, updatedAt := now);
    if r.otpCode == code then counted.(status := Verified, verifiedAt := Some(now), updatedAt := now)
    else if r.attempts + 1 >= r.maxAttempts then counted.(status := Failed, updatedAt := now)
    else counted
  }

  /** What an attempt does to a row: one more attempt, `verified` exactly when
      the code matches, `failed` exactly when it does not and the attempt was
      the last one allowed, `pending` otherwise; the code, its owner, its
      recipients and its life time stay. */
  lemma AttemptOutcome(r: OtpRequest, code: string, now: int)
    requires r.status == Pending
    ensures var a := Attempted(r, code, now);
            && a.attempts == r.attempts + 1 && a.updatedAt == now
            && (a.status == Verified <==> r.otpCode == code)
            && (a.status == Failed <==> r.otpCode != code && r.attempts + 1 >= r.maxAttempts)
            && (a.status == Pending <==> r.otpCode != code && r.attempts + 1 < r.maxAttempts)
            && (a.verifiedAt == (if r.otpCode == code then Some(now) else r.verifiedAt))
            && a.(attempts := r.attempts, status := r.status, verifiedAt := r.verifiedAt, updatedAt := r.updatedAt) == r
  {
  }

  /** The table after `verifyOTP(otpId, code)`. */
  function VerifyStep(rs: seq<OtpRequest>, otpId: nat, code: string, now: int): seq<OtpRequest> {
    var found := FindOpen(rs, otpId, now);
    if found.None? then rs else rs[found.value := Attempted(rs[found.value], code, now)]
  }

  /** Whether `verifyOTP(otpId, code)` reports success. */
  predicate VerifySucceeds(rs: seq<OtpRequest>, otpId: nat, code: string, now: int) {
    var found := FindOpen(rs, otpId, now);
    found.Some? && rs[found.value].otpCode == code
  }

  /** A code verifies exactly when the row with the key is pending, unexpired
      and holds that code. */
  lemma VerifySucceedsIff(rs: seq<OtpRequest>, otpId: nat, code: string, now: int)
    requires IdsIncreasing(rs)
    ensures VerifySucceeds(rs, otpId, code, now) <==>
            exists i :: 0 <= i < |rs| && rs[i].id == otpId && rs[i].status == Pending
                        && rs[i].expiresAt > now && rs[i].otpCode == code
  {
    var found := FindOpen(rs, otpId, now);
    if exists i :: 0 <= i < |rs| && rs[i].id == otpId && rs[i].status == Pending
                   && rs[i].expiresAt > now && rs[i].otpCode == code {
      var i :| 0 <= i < |rs| && rs[i].id == otpId && rs[i].status == Pending
               && rs[i].expiresAt > now && rs[i].otpCode == code;
      assert found.Some?;
      var j := found.value;
      assert i == j;
    }
  }

  /** A call that finds no open row changes nothing; otherwise exactly that
      row takes the attempt. */
  lemma VerifyStepRows(rs: seq<OtpRequest>, otpId: nat, code: string, now: int)
    ensures var after := VerifyStep(rs, otpId, code, now);
            && |after| == |rs|
            && (FindOpen(rs, otpId, now).None? ==> after == rs)
            && (FindOpen(rs, otpId, now).Some? ==>
                  var i := FindOpen(rs, otpId, now).value;
                  && after[i] == Attempted(rs[i], code, now)
                  && forall k :: 0 <= k < |rs| && k != i ==> after[k] == rs[k])
  {
  }

  /** A row that is verified, failed or expired never verifies again, and a
      call on it changes nothing. */
  lemma ClosedNeverVerifies(rs: seq<OtpRequest>, otpId: nat, code: string, now: int)
    requires forall i :: 0 <= i < |rs| && rs[i].id == otpId ==> rs[i].status != Pending
    ensures !VerifySucceeds(rs, otpId, code, now) && VerifyStep(rs, otpId, code, now) == rs
  {
  }

  /** A code verifies at most once: after a success every later call with the
      same key fails, whatever code it gives. */
  lemma {:induction false} VerifiesOnce(rs: seq<OtpRequest>, otpId: nat, code: string, now: int,
                                        code2: string, now2: int)
    requires IdsIncreasing(rs)
    requires VerifySucceeds(rs, otpId, code, now)
    ensures !VerifySucceeds(VerifyStep(rs, otpId, code, now), otpId, code2, now2)
  {
    var i := FindOpen(rs, otpId, now).value;
    var after := VerifyStep(rs, otpId, code, now);
    assert forall k :: 0 <= k < |after| && after[k].id == otpId ==> after[k].status != Pending;
    ClosedNeverVerifies(after, otpId, code2, now2);
  }

  /** Attempts stay within each row's limit: a pending row always has one
      left, so `verifyOTP` never checks a code more often than allowed. */
  lemma VerifyKeepsAttemptsBounded(rs: seq<OtpRequest>, otpId: nat, code: string, now: int)
    requires AttemptsBounded(rs)
    ensures AttemptsBounded(VerifyStep(rs, otpId, code, now))
  {
    var after := VerifyStep(rs, otpId, code, now);
    var found := FindOpen(rs, otpId, now);
    if found.Some? {
      var i := found.value;
      AttemptOutcome(rs[i], code, now);
      assert WithinLimit(rs[i]);
      forall q | q in after ensures WithinLimit(q) {
        var k :| 0 <= k < |after| && after[k] == q;
        if k != i { assert after[k] == rs[k]; }
      }
    }
  }

  /** A wrong code on the last allowed attempt locks the row for good. */
  lemma {:induction false} LastWrongAttemptLocks(rs: seq<OtpRequest>, otpId: nat, code: string, now: int,
                                                 code2: string, now2: int)
    requires IdsIncreasing(rs)
    requires FindOpen(rs, otpId, now).Some?
    requires var r := rs[FindOpen(rs, otpId, now).value]; r.otpCode != code && r.attempts + 1 >= r.maxAttempts
    ensures !VerifySucceeds(VerifyStep(rs, otpId, code, now), otpId, code2, now2)
  {
    var i := FindOpen(rs, otpId, now).value;
    var after := VerifyStep(rs, otpId, code, now);
    AttemptOutcome(rs[i], code, now);
    assert forall k :: 0 <= k < |after| && after[k].id == otpId ==> after[k].status != Pending;
    ClosedNeverVerifies(after, otpId, code2, now2);
  }

  // ------------------------------------------------------ expiry and purge

  function Expire(r: OtpRequest, now: int): OtpRequest {
    if r.status == Pending && r.expiresAt <= now then r.(status := Expired, updatedAt := now) else r
  }

  /** `markExpiredOTPs`: every pending row whose expiry has passed becomes
      expired; no other row changes. */
  function ExpireAll(rs: seq<OtpRequest>, now: int): (r: seq<OtpRequest>)
    ensures |r| == |rs|
    ensures forall i :: 0 <= i < |rs| ==> r[i].status == Pending ==> r[i].expiresAt > now
    ensures forall i :: 0 <= i < |rs| ==>
              if rs[i].status == Pending && rs[i].expiresAt <= now
              then r[i] == rs[i].(status := Expired, updatedAt := now)
              else r[i] == rs[i]
  {
    seq(|rs|, i requires 0 <= i < |rs| => Expire(rs[i], now))
  }

  lemma ExpireAllIdempotent(rs: seq<OtpRequest>, now: int)
    ensures ExpireAll(ExpireAll(rs, now), now) == ExpireAll(rs, now)
  {
  }

  /** Two tables whose rows are eligible at the same positions, and equal
      wherever eligible. */
  predicate SameEligible(a: seq<OtpRequest>, b: seq<OtpRequest>, identifier: string, otpType: OtpType, now: int) {
    && |a| == |b|
    && forall i :: 0 <= i < |a| ==>
         && (Eligible(a[i], identifier, otpType, now) <==> Eligible(b[i], identifier, otpType, now))
         && (Eligible(a[i], identifier, otpType, now) ==> a[i] == b[i])
  }

  /** `getActiveOTP` looks at eligible rows only. */
  lemma {:induction false} ActiveOtpOnlyEligible(a: seq<OtpRequest>, b: seq<OtpRequest>, identifier: string,
                                                 otpType: OtpType, now: int)
    requires SameEligible(a, b, identifier, otpType, now)
    ensures ActiveOtp(a, identifier, otpType, now) == ActiveOtp(b, identifier, otpType, now)
    decreases |a|
  {
    if a != [] {
      var n := |a| - 1;
      assert SameEligible(a[..n], b[..n], identifier, otpType, now);
      ActiveOtpOnlyEligible(a[..n], b[..n], identifier, otpType, now);
    }
  }

  /** Expiring stale rows never changes which code `getActiveOTP` returns at
      the same instant. */
  lemma ExpiryKeepsActive(rs: seq<OtpRequest>, identifier: string, otpType: OtpType, now: int)
    ensures ActiveOtp(ExpireAll(rs, now), identifier, otpType, now) == ActiveOtp(rs, identifier, otpType, now)
  {
    assert SameEligible(ExpireAll(rs, now), rs, identifier, otpType, now);
    ActiveOtpOnlyEligible(ExpireAll(rs, now), rs, identifier, otpType, now);
  }

  /** The rows `cleanOldOTPs` keeps: those created at or after the cut-off. */
  function Retained(rs: seq<OtpRequest>, cutoff: int): (r: seq<OtpRequest>)
    ensures forall q :: q in r <==> q in rs && q.createdAt >= cutoff
    ensures |rs| == |r| + OlderCount(rs, cutoff)
    decreases |rs|
  {
    if rs == [] then []
    else
      var init := rs[..|rs| - 1];
      var last := rs[|rs| - 1];
      assert rs == init + [last];
      var rest := Retained(init, cutoff);
      if last.createdAt >= cutoff then rest + [last] else rest
  }

  /** The number of rows created before the cut-off. */
  function OlderCount(rs: seq<OtpRequest>, cutoff: int): nat
    decreases |rs|
  {
    if rs == [] then 0
    else OlderCount(rs[..|rs| - 1], cutoff) + (if rs[|rs| - 1].createdAt < cutoff then 1 else 0)
  }

  /** Purging keeps the remaining rows in key order. */
  lemma {:induction false} RetainedKeepsOrder(rs: seq<OtpRequest>, cutoff: int)
    requires IdsIncreasing(rs)
    ensures IdsIncreasing(Retained(rs, cutoff))
    decreases |rs|
  {
    if rs != [] {
      var init := rs[..|rs| - 1];
      var last := rs[|rs| - 1];
      var rest := Retained(init, cutoff);
      RetainedKeepsOrder(init, cutoff);
      forall q | q in rest ensures q.id < last.id {
        var k :| 0 <= k < |init| && init[k] == q;
      }
    }
  }

  /** The cut-off of `cleanOldOTPs(olderThanHours)`; the argument defaults to
      24 hours. */
  function CleanCutoff(olderThanHours: Option<int>, now: int): int {
    now - (if olderThanHours.Some? then olderThanHours.value else 24) * MsPerHour
  }

  // ---------------------------------------------------------------- store

  class OtpStore {
    var requests: seq<OtpRequest>
    var nextId: nat
    /** The `max_attempts` a new row receives from the column default. */
    const maxAttempts: int

    ghost predicate Valid()
      reads this
    {
      && IdsIncreasing(requests)
      && (forall i :: 0 <= i < |requests| ==> requests[i].id < nextId)
    }

    constructor (maxAttempts: int)
      ensures Valid() && requests == [] && this.maxAttempts == maxAttempts
    {
      requests := [];
      nextId := 0;
      this.maxAttempts := maxAttempts;
    }

    /** `createOTPRequest`: a new pending row with no attempts; empty optional
        strings are stored as NULL and a falsy provider response as NULL. */
    method CreateOtpRequest(userId: Option<string>, phoneNumber: Option<string>, email: Option<string>,
                            countryCode: Option<string>, internationalPhone: Option<string>,
                            otpCode: string, otpType: OtpType, deliveryMethod: DeliveryMethod,
                            expiresAt: int, providerResponse: Option<string>,
                            ipAddress: Option<string>, userAgent: Option<string>, now: int)
      returns (r: OtpRequest)
      requires Valid()
      modifies this
      ensures Valid() && requests == old(requests) + [r]
      ensures r.id == old(nextId) && r.status == Pending && r.attempts == 0 && r.maxAttempts == maxAttempts
      ensures r.userId == OrNull(userId) && r.phoneNumber == OrNull(phoneNumber) && r.email == OrNull(email)
      ensures r.countryCode == OrNull(countryCode) && r.internationalPhone == OrNull(internationalPhone)
      ensures r.otpCode == otpCode && r.otpType == otpType && r.deliveryMethod == deliveryMethod
      ensures r.providerResponse == OrNull(providerResponse)
      ensures r.ipAddress == OrNull(ipAddress) && r.userAgent == OrNull(userAgent)
      ensures r.expiresAt == expiresAt && r.verifiedAt == None && r.createdAt == now && r.updatedAt == now
    {
      r := OtpRequest(nextId, OrNull(userId), OrNull(phoneNumber), OrNull(email), OrNull(countryCode),
                      OrNull(internationalPhone), otpCode, otpType, Pending, deliveryMethod, 0, maxAttempts,
                      OrNull(providerResponse), OrNull(ipAddress), OrNull(userAgent), expiresAt, None, now, now);
      requests := requests + [r];
      nextId := nextId + 1;
    }

    /** `verifyOTP`: the table becomes `VerifyStep`; the call succeeds as
        `VerifySucceeds` says and then returns the verified row. */
    method VerifyOtp(otpId: nat, code: string, now: int) returns (success: bool, otp: Option<OtpRequest>)
      requires Valid()
      modifies this
      ensures Valid() && nextId == old(nextId)
      ensures requests == VerifyStep(old(requests), otpId, code, now)
      ensures success == VerifySucceeds(old(requests), otpId, code, now)
      ensures success ==> otp == Some(requests[FindOpen(old(requests), otpId, now).value])
      ensures !success ==> otp == None
    {
      var found := FindOpen(requests, otpId, now);
      if found.None? {
        return false, None;
      }
      var i := found.value;
      var row := requests[i];
      requests := requests[i := row.(attempts := row.attempts + 1, updatedAt := now)];
      if row.otpCode == code {
        requests := requests[i := requests[i].(status := Verified, verifiedAt := Some(now), updatedAt := now)];
        return true, Some(requests[i]);
      }
      if row.attempts + 1 >= row.maxAttempts {
        requests := requests[i := requests[i].(status := Failed, updatedAt := now)];
      }
      return false, None;
    }

    /** `markExpiredOTPs`. */
    method MarkExpiredOtps(now: int)
      requires Valid()
      modifies this
      ensures Valid() && nextId == old(nextId)
      ensures requests == ExpireAll(old(requests), now)
    {
      requests := ExpireAll(requests, now);
    }

    /** `cleanOldOTPs`: deletes every row created before the cut-off and
        returns how many there were. */
    method CleanOldOtps(olderThanHours: Option<int>, now: int) returns (count: nat)
      requires Valid()
      modifies this
      ensures Valid() && nextId == old(nextId)
      ensures requests == Retained(old(requests), CleanCutoff(olderThanHours, now))
      ensures count == OlderCount(old(requests), CleanCutoff(olderThanHours, now))
    {
      var cutoff := CleanCutoff(olderThanHours, now);
      var kept := Retained(requests, cutoff);
      count := |requests| - |kept|;
      RetainedKeepsOrder(requests, cutoff);
      assert forall q :: q in kept ==> q in requests;
      requests := kept;
    }
  }

  /** Creating a row with a positive limit, checking codes, expiring and
      purging all keep every row within its attempt limit. */
  lemma CreateKeepsAttemptsBounded(rs: seq<OtpRequest>, r: OtpRequest)
    requires AttemptsBounded(rs) && r.status == Pending && r.attempts == 0 && r.maxAttempts >= 1
    ensures AttemptsBounded(rs + [r])
  {
  }

  lemma ExpireKeepsAttemptsBounded(rs: seq<OtpRequest>, now: int)
    requires AttemptsBounded(rs)
    ensures AttemptsBounded(ExpireAll(rs, now))
  {
    var e := ExpireAll(rs, now);
    forall q | q in e ensures WithinLimit(q) {
      var k :| 0 <= k < |e| && e[k] == q;
      assert WithinLimit(rs[k]);
    }
  }
}
