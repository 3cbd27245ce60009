/** The identity-verification workflow over the verification store: which step
    a user takes next, when a verification is complete, the status messages,
    masking of Aadhaar numbers, paging of the verification history, and the
    gated sequences that generate and check an Aadhaar OTP and record uploaded
    images. The identity provider is a parameter: its answer to one call. */
module VerificationService {
  import opened Common
  import opened VerificationRepository

  /** The service's configuration: `aadhar_otp_expiry_minutes` (10 by
      default) and `max_verification_attempts` (3 by default). */
  datatype Config = Config(otpExpiryMinutes: int, maxAttempts: int)

  const DefaultConfig := Config(10, 3)

  datatype Step =
    | GenerateAadharOtp | VerifyAadharOtp | UploadSelfieImage | VerificationComplete | PendingAdminReview
    | StartVerification

  function StepName(s: Step): string {
    match s
      case GenerateAadharOtp => "generate_aadhar_otp"
      case VerifyAadharOtp => "verify_aadhar_otp"
      case UploadSelfieImage => "upload_selfie_image"
      case VerificationComplete => "verification_complete"
      case PendingAdminReview => "pending_admin_review"
      case StartVerification => "start_verification"
  }

  // ------------------------------------------------------------ pure rules

  /** `isVerificationComplete`: a non-empty verified name, a non-empty selfie,
      a recorded Aadhaar verification and status `verified`. */
  predicate IsVerificationComplete(v: UserVerification) {
    Truthy(v.identity.name) && Truthy(v.selfieUrl) && v.aadharVerifiedAt.Some? && v.status == Verified
  }

  /** `getNextVerificationStep`: the checks in their fixed order, the first
      that fails deciding the step. */
  function NextStep(v: UserVerification): (s: Step)
    ensures s != StartVerification
    ensures s == GenerateAadharOtp <==> !Truthy(v.aadharNumber)
    ensures s == VerifyAadharOtp <==> Truthy(v.aadharNumber) && v.aadharVerifiedAt.None?
    ensures s == UploadSelfieImage <==> Truthy(v.aadharNumber) && v.aadharVerifiedAt.Some? && !Truthy(v.selfieUrl)
    ensures s == VerificationComplete <==>
              Truthy(v.aadharNumber) && v.aadharVerifiedAt.Some? && Truthy(v.selfieUrl) && v.status == Verified
    ensures s == PendingAdminReview <==>
              Truthy(v.aadharNumber) && v.aadharVerifiedAt.Some? && Truthy(v.selfieUrl) && v.status != Verified
  {
    if !Truthy(v.aadharNumber) then GenerateAadharOtp
    else if v.aadharVerifiedAt.None? then VerifyAadharOtp
    else if !Truthy(v.selfieUrl) then UploadSelfieImage
    else if v.status == Verified then VerificationComplete
    else PendingAdminReview
  }

  /** A complete verification with an Aadhaar number has nothing left to do;
      the step can say complete while the record is not, when the verified
      name is missing. */
  lemma CompleteIsLastStep(v: UserVerification)
    ensures IsVerificationComplete(v) && Truthy(v.aadharNumber) ==> NextStep(v) == VerificationComplete
    ensures NextStep(v) == VerificationComplete ==> (IsVerificationComplete(v) <==> Truthy(v.identity.name))
  {
  }

  /** Each update moves the workflow past its own step: after generating an
      OTP for a non-empty number the next step is no longer to generate one;
      after the Aadhaar verification it is neither of the OTP steps; after a
      non-empty selfie on a verified Aadhaar only completion or review
      remain. */
  lemma StepsAdvance(v: UserVerification, n: string, ref: string, a: AadharVerifyResponse, url: string, now: int)
    ensures n != "" ==> NextStep(Apply(v, OtpGenerated(n, ref), now)) == VerifyAadharOtp
                        || NextStep(Apply(v, OtpGenerated(n, ref), now)) == UploadSelfieImage
                        || NextStep(Apply(v, OtpGenerated(n, ref), now)) == PendingAdminReview
    ensures Truthy(v.aadharNumber) ==>
              NextStep(Apply(v, AadharVerified(a), now)) != GenerateAadharOtp
              && NextStep(Apply(v, AadharVerified(a), now)) != VerifyAadharOtp
    ensures Truthy(v.aadharNumber) && v.aadharVerifiedAt.Some? && url != "" ==>
              var s := NextStep(Apply(v, ImageUploaded(Selfie, url), now));
              s == VerificationComplete || s == PendingAdminReview
  {
  }

  /** The Aadhaar verification completes the record exactly when the provider
      gave a non-empty name and a non-empty selfie is already on record. */
  lemma AadharVerifiedCompletes(v: UserVerification, a: AadharVerifyResponse, now: int)
    ensures IsVerificationComplete(Apply(v, AadharVerified(a), now)) <==> Truthy(a.name) && Truthy(v.selfieUrl)
  {
    AadharVerifiedStatus(v, a, now);
  }

  /** `getStatusMessage`; every status is one of the five keys, so the
      `Unknown status` fallback is never taken. */
  function StatusMessage(s: VerificationStatus): string {
    match s
      case Pending => "Verification not started"
      case InProgress => "Verification in progress"
      case Verified => "Verification completed successfully"
      case Rejected => "Verification rejected"
      case Expired => "Verification expired"
  }

  /** Distinct statuses have distinct messages. */
  lemma StatusMessageInjective(s: VerificationStatus, t: VerificationStatus)
    requires s != t
    ensures StatusMessage(s) != StatusMessage(t)
  {
    var m, n := StatusMessage(s), StatusMessage(t);
    if |m| == |n| {
      assert {s, t} == {Pending, InProgress};
      assert m[13] != n[13];
    }
  }

  /** `maskAadharNumber`: a twelve-character number becomes eight `*`
      followed by its last four characters; any other string is returned as
      it is. The length is counted in characters, while JavaScript counts
      UTF-16 code units; the two agree on the digit strings an Aadhaar number
      consists of. The service's own calls of this helper are commented out,
      so no response carries a masked number. */
  function MaskAadhar(s: string): (r: string)
    ensures |r| == |s|
    ensures |s| == 12 ==> r[..8] == "********" && r[8..] == s[8..]
    ensures |s| != 12 ==> r == s
  {
    if |s| != 12 then s else "********" + s[8..]
  }

  /** Masking a masked number changes nothing, and two numbers that end alike
      look alike once masked. */
  lemma MaskIdempotent(s: string)
    ensures MaskAadhar(MaskAadhar(s)) == MaskAadhar(s)
  {
  }

  lemma MaskHidesPrefix(s: string, t: string)
    requires |s| == 12 && |t| == 12 && s[8..] == t[8..]
    ensures MaskAadhar(s) == MaskAadhar(t)
  {
  }

  // -------------------------------------------------------------- history

  /** The `pagination` object of `getVerificationHistory`. */
  datatype Pagination = Pagination(
    page: int,
    limit: int,
    offset: int,
    total: nat,
    totalPages: nat,
    hasNext: bool,
    hasPrevious: bool)

  datatype HistoryError = NegativeLimitOrOffset

  /** `Math.ceil(total / limit)` for a positive limit. */
  function TotalPages(total: nat, limit: int): (n: nat)
    requires limit >= 1
    ensures (n == 0) == (total == 0)
    ensures (n - 1) * limit < total <= n * limit || total == 0
  {
    (total + limit - 1) / limit
  }

  /** `getVerificationHistory`'s arithmetic: page `page || 1`, limit
      `min(limit || 20, 100)`, offset `(page - 1) * limit`. A negative limit or
      offset makes the query fail, and the call with it. */
  function HistoryPagination(page: Option<int>, limit: Option<int>, total: nat): (r: Result<Pagination, HistoryError>)
    ensures r.Success? <==> NumberOr(limit, 20) > 0 && NumberOr(page, 1) >= 1
    ensures r.Success? ==>
              var p := r.value;
              && p.page == NumberOr(page, 1) && p.page >= 1
              && 1 <= p.limit <= 100 && p.limit == (if NumberOr(limit, 20) < 100 then NumberOr(limit, 20) else 100)
              && p.offset == (p.page - 1) * p.limit && p.offset >= 0
              && p.total == total && p.totalPages == TotalPages(total, p.limit)
              && (p.hasNext <==> p.page * p.limit < total)
              && (p.hasPrevious <==> p.page > 1)
  {
    var pg := NumberOr(page, 1);
    var l0 := NumberOr(limit, 20);
    var l := if l0 < 100 then l0 else 100;
    var offset := (pg - 1) * l;
    if l < 0 || offset < 0 then Failure(NegativeLimitOrOffset)
    else
      assert l != 0;
      Success(Pagination(pg, l, offset, total, TotalPages(total, l), pg * l < total, pg > 1))
  }

  lemma MulMonotone(a: int, b: int, l: int)
    requires a <= b && l >= 0
    ensures a * l <= b * l
  {
    assert b * l - a * l == (b - a) * l;
  }

  /** With `n` pages of `l` rows for `total` rows, page `page` is followed by
      more rows exactly when it is not the last page. */
  lemma {:induction false} MoreRowsIffEarlierPage(page: int, l: int, total: nat)
    requires l >= 1
    ensures page * l < total <==> page < TotalPages(total, l)
  {
    var n := TotalPages(total, l);
    if total == 0 {
      assert n == 0;
      if page >= 0 { MulMonotone(0, page, l); } else { MulMonotone(page, 0, l); }
    } else if page < n {
      MulMonotone(page, n - 1, l);
    } else {
      MulMonotone(n, page, l);
    }
  }

  /** `has_next` says exactly that a later page exists. */
  lemma HasNextIffLaterPage(page: Option<int>, limit: Option<int>, total: nat)
    requires HistoryPagination(page, limit, total).Success?
    ensures var p := HistoryPagination(page, limit, total).value;
            p.hasNext <==> p.page < p.totalPages
  {
    var p := HistoryPagination(page, limit, total).value;
    MoreRowsIffEarlierPage(p.page, p.limit, total);
  }

  // ---------------------------------------------------- gated sequences

  /** What the service answers. `isComplete` is `None` for an answer without
      data. */
  datatype VerificationResponse = VerificationResponse(
    verificationId: Option<nat>,
    status: VerificationStatus,
    message: string,
    nextStep: Step,
    isComplete: Option<bool>)

  /** `getVerificationStatus`: for a user without a record, a pending answer
      with an empty id that says to start; otherwise the latest record's
      status, its message, its next step and whether it is complete. */
  function VerificationStatusOf(records: seq<UserVerification>, userId: string): (r: VerificationResponse)
    ensures LatestFor(records, userId).None? ==>
              r == VerificationResponse(None, Pending, "Verification not started", StartVerification, None)
    ensures LatestFor(records, userId).Some? ==>
              var v := LatestFor(records, userId).value;
              && r.verificationId == Some(v.id) && r.status == v.status
              && r.nextStep == NextStep(v) && r.nextStep != StartVerification
              && r.isComplete == Some(IsVerificationComplete(v))
    ensures r.message == StatusMessage(r.status)
  {
    var found := LatestFor(records, userId);
    if found.None? then VerificationResponse(None, Pending, "Verification not started", StartVerification, None)
    else
      var v := found.value;
      VerificationResponse(Some(v.id), v.status, StatusMessage(v.status), NextStep(v), Some(IsVerificationComplete(v)))
  }

  /** What `generateAadharOTP` answers: the record, the provider's reference id
      and the configured life time. */
  datatype OtpGenerationResponse = OtpGenerationResponse(
    verificationId: nat,
    status: VerificationStatus,
    refId: string,
    expiresInMinutes: int,
    nextStep: Step)

  datatype VerifyError =
    | InvalidReference
    | OtpExpired
    | TooManyAttempts
    | ProviderFailed(message: string)

  function ErrorMessage(e: VerifyError): string {
    match e
      case InvalidReference => "Invalid reference ID or user mismatch"
      case OtpExpired => "OTP has expired. Please generate a new OTP."
      case TooManyAttempts => "Maximum OTP verification attempts exceeded."
      case ProviderFailed(m) => m
  }

  const OtpVerificationAttempt: string := "aadhar_otp_verification"

  /** Whether the OTP of a record has run out: only when its generation is
      recorded, and then once `now` is past the configured life time. */
  predicate OtpHasExpired(v: UserVerification, config: Config, now: int) {
    v.otpGeneratedAt.Some? && now > v.otpGeneratedAt.value + config.otpExpiryMinutes * MsPerMinute
  }

  function FailedAttempt(id: nat, refId: string, e: VerifyError, now: int): Attempt {
    Attempt(id, OtpVerificationAttempt, RefIdData(refId), false,
            if ErrorMessage(e) != "" then Some(ErrorMessage(e)) else None, now)
  }

  /** `findById` returns the first record carrying the key. */
  lemma {:induction false} FoundFirst(rs: seq<UserVerification>, k: nat, id: nat)
    requires k < |rs| && rs[k].id == id
    requires forall j :: 0 <= j < k ==> rs[j].id != id
    ensures FindById(rs, id) == Some(rs[k])
    decreases k
  {
    if k > 0 {
      FoundFirst(rs[1..], k - 1, id);
    }
  }

  /** An update of a record keeps the record with its key findable, as the
      updated record. */
  lemma UpdatedFoundAt(rs: seq<UserVerification>, k: nat, u: Update, now: int)
    requires IdsIncreasing(rs) && k < |rs|
    ensures FindById(UpdateRows(rs, rs[k].id, u, now), rs[k].id) == Some(Apply(rs[k], u, now))
  {
    var after := UpdateRows(rs, rs[k].id, u, now);
    assert after[k] == Apply(rs[k], u, now);
    FoundFirst(after, k, rs[k].id);
  }

  lemma UpdatedFound(rs: seq<UserVerification>, v: UserVerification, u: Update, now: int)
    requires IdsIncreasing(rs) && v in rs
    ensures FindById(UpdateRows(rs, v.id, u, now), v.id) == Some(Apply(v, u, now))
  {
    var k :| 0 <= k < |rs| && rs[k] == v;
    UpdatedFoundAt(rs, k, u, now);
  }

  /** Tables that agree row by row on keys and reference ids agree on the key
      of the record `findByRefId` finds. */
  lemma {:induction false} SameRefIdsSameLookup(a: seq<UserVerification>, b: seq<UserVerification>, refId: string)
    requires |a| == |b|
    requires forall i :: 0 <= i < |a| ==> a[i].id == b[i].id && a[i].aadharRefId == b[i].aadharRefId
    ensures var x := FindByRefId(a, refId);
            var y := FindByRefId(b, refId);
            x.Some? == y.Some? && (x.Some? ==> x.value.id == y.value.id)
    decreases |a|
  {
    if a != [] && a[0].aadharRefId != Some(refId) {
      SameRefIdsSameLookup(a[1..], b[1..], refId);
    }
  }

  /** An update that leaves reference ids alone leaves `findByRefId` finding a
      record with the same key. */
  lemma RefIdLookupKept(rs: seq<UserVerification>, id: nat, u: Update, now: int, refId: string)
    requires !u.OtpGenerated?
    ensures var before := FindByRefId(rs, refId);
            var after := FindByRefId(UpdateRows(rs, id, u, now), refId);
            before.Some? == after.Some? && (before.Some? ==> after.value.id == before.value.id)
  {
    var after := UpdateRows(rs, id, u, now);
    assert forall i :: 0 <= i < |rs| ==> rs[i].id == after[i].id && rs[i].aadharRefId == after[i].aadharRefId;
    SameRefIdsSameLookup(rs, after, refId);
  }

  /** The catch block of `verifyAadharOTP`: with the reference id known, one
      failed attempt is logged under the record it names. */
  method LogFailure(store: VerificationStore, refId: string, e: VerifyError, now: int)
    requires store.Valid()
    modifies store
    ensures store.Valid() && store.records == old(store.records) && store.nextId == old(store.nextId)
    ensures FindByRefId(old(store.records), refId).None? ==> store.attempts == old(store.attempts)
    ensures FindByRefId(old(store.records), refId).Some? ==>
              store.attempts == old(store.attempts) + [FailedAttempt(FindByRefId(old(store.records), refId).value.id,
                                                                     refId, e, now)]
  {
    var found := FindByRefId(store.records, refId);
    if found.Some? {
      store.LogAttempt(found.value.id, OtpVerificationAttempt, RefIdData(refId), false, Some(ErrorMessage(e)), now);
    }
  }

  /** `verifyAadharOTP`. The record named by the reference id must exist and
      belong to the user, its OTP must not have expired, and fewer than the
      allowed number of attempts may be on record (otherwise the record is
      rejected); then the provider's answer decides. On success the identity
      is stored and one successful attempt logged; every failure with a known
      reference id logs one failed attempt. */
  method VerifyAadharOtpCall(store: VerificationStore, refId: string, userId: string, config: Config,
                             provider: Result<AadharVerifyResponse, string>, now: int)
    returns (r: Result<VerificationResponse, VerifyError>)
    requires store.Valid()
    modifies store
    ensures store.Valid() && store.nextId == old(store.nextId)
    ensures var found := FindByRefId(old(store.records), refId);
            found.None? ==> r == Failure(InvalidReference) && store.records == old(store.records)
                            && store.attempts == old(store.attempts)
    ensures var found := FindByRefId(old(store.records), refId);
            found.Some? && (found.value.userId != userId || OtpHasExpired(found.value, config, now)) ==>
              && r == Failure(if found.value.userId != userId then InvalidReference else OtpExpired)
              && store.records == old(store.records)
              && store.attempts == old(store.attempts) + [FailedAttempt(found.value.id, refId, r.error, now)]
    ensures var found := FindByRefId(old(store.records), refId);
            found.Some? && found.value.userId == userId && !OtpHasExpired(found.value, config, now)
            && AttemptsCount(old(store.attempts), found.value.id, Some(OtpVerificationAttempt)) >= config.maxAttempts ==>
              && r == Failure(TooManyAttempts)
              && store.records == UpdateRows(old(store.records), found.value.id, StatusSet(Rejected, None, None), now)
              && store.attempts == old(store.attempts) + [FailedAttempt(found.value.id, refId, TooManyAttempts, now)]
    ensures var found := FindByRefId(old(store.records), refId);
            found.Some? && found.value.userId == userId && !OtpHasExpired(found.value, config, now)
            && AttemptsCount(old(store.attempts), found.value.id, Some(OtpVerificationAttempt)) < config.maxAttempts
            && provider.Failure? ==>
              && r == Failure(ProviderFailed(provider.error))
              && store.records == old(store.records)
              && store.attempts == old(store.attempts) + [FailedAttempt(found.value.id, refId, r.error, now)]
    ensures var found := FindByRefId(old(store.records), refId);
            found.Some? && found.value.userId == userId && !OtpHasExpired(found.value, config, now)
            && AttemptsCount(old(store.attempts), found.value.id, Some(OtpVerificationAttempt)) < config.maxAttempts
            && provider.Success? ==>
              var updated := Apply(found.value, AadharVerified(provider.value), now);
              && store.records == UpdateRows(old(store.records), found.value.id, AadharVerified(provider.value), now)
              && store.attempts == old(store.attempts)
                                   + [Attempt(found.value.id, OtpVerificationAttempt, RefIdData(refId), true, None, now)]
              && r == Success(VerificationResponse(Some(found.value.id),
                                                   if IsVerificationComplete(updated) then Verified else InProgress,
                                                   "Aadhar verification successful", NextStep(updated),
                                                   Some(IsVerificationComplete(updated))))
  {
    var found := FindByRefId(store.records, refId);
    if found.None? {
      return Failure(InvalidReference);
    }
    var v := found.value;
    var e: VerifyError;
    if v.userId != userId {
      e := InvalidReference;
    } else if OtpHasExpired(v, config, now) {
      e := OtpExpired;
    } else if AttemptsCount(store.attempts, v.id, Some(OtpVerificationAttempt)) >= config.maxAttempts {
      RefIdLookupKept(store.records, v.id, StatusSet(Rejected, None, None), now, refId);
      store.UpdateStatus(v.id, Rejected, None, None, now);
      e := TooManyAttempts;
    } else if provider.Failure? {
      e := ProviderFailed(provider.error);
    } else {
      UpdatedFound(store.records, v, AadharVerified(provider.value), now);
      store.UpdateAadharVerificationData(v.id, provider.value, now);
      store.LogAttempt(v.id, OtpVerificationAttempt, RefIdData(refId), true, None, now);
      var updated := FindById(store.records, v.id).value;
      var complete := IsVerificationComplete(updated);
      return Success(VerificationResponse(Some(v.id), if complete then Verified else InProgress,
                                          "Aadhar verification successful", NextStep(updated), Some(complete)));
    }
    LogFailure(store, refId, e, now);
    return Failure(e);
  }

  /** The record `getOrCreateVerification` hands back, and the table after it. */
  function Fetched(records: seq<UserVerification>, nextId: nat, userId: string, ipAddress: Option<string>,
                   userAgent: Option<string>, deviceInfo: Option<string>, expiresAt: Option<int>, now: int)
    : UserVerification
  {
    var found := LatestFor(records, userId);
    if found.Some? then found.value else NewVerification(nextId, userId, ipAddress, userAgent, deviceInfo, expiresAt, now)
  }

  function AfterFetch(records: seq<UserVerification>, nextId: nat, userId: string, ipAddress: Option<string>,
                      userAgent: Option<string>, deviceInfo: Option<string>, expiresAt: Option<int>, now: int)
    : seq<UserVerification>
  {
    if LatestFor(records, userId).Some? then records
    else records + [NewVerification(nextId, userId, ipAddress, userAgent, deviceInfo, expiresAt, now)]
  }

  /** `generateAadharOTP`: the user's record is fetched or created first and
      stays created when the provider then fails; with the provider's
      reference id the record takes the number and the reference id and is in
      progress. */
  method GenerateAadharOtpCall(store: VerificationStore, userId: string, aadharNumber: string,
                               ipAddress: Option<string>, userAgent: Option<string>, deviceInfo: Option<string>,
                               expiresAt: Option<int>, config: Config, provider: Result<string, string>, now: int)
    returns (r: Result<OtpGenerationResponse, string>)
    requires store.Valid()
    modifies store
    ensures store.Valid() && store.attempts == old(store.attempts)
    ensures var v := Fetched(old(store.records), old(store.nextId), userId, ipAddress, userAgent, deviceInfo, expiresAt, now);
            var rows := AfterFetch(old(store.records), old(store.nextId), userId, ipAddress, userAgent, deviceInfo,
                                   expiresAt, now);
            && (provider.Failure? ==> r == Failure(provider.error) && store.records == rows)
            && (provider.Success? ==>
                  && store.records == UpdateRows(rows, v.id, OtpGenerated(aadharNumber, provider.value), now)
                  && r == Success(OtpGenerationResponse(v.id, InProgress, provider.value, config.otpExpiryMinutes,
                                                        VerifyAadharOtp)))
  {
    var v := store.GetOrCreateVerification(userId, ipAddress, userAgent, deviceInfo, expiresAt, now);
    if provider.Failure? {
      return Failure(provider.error);
    }
    store.UpdateAadharOtpGeneration(v.id, aadharNumber, provider.value, now);
    return Success(OtpGenerationResponse(v.id, InProgress, provider.value, config.otpExpiryMinutes, VerifyAadharOtp));
  }

  function ImageTypeName(t: ImageType): string {
    match t
      case Selfie => "selfie"
      case AadharImage => "aadhar"
  }

  /** `uploadVerificationImage`: the image is written to the user's record
      (created when missing), one successful `<type>_upload` attempt is
      logged, and the answer reports the updated record. */
  method UploadVerificationImage(store: VerificationStore, userId: string, imageType: ImageType, url: string,
                                 expiresAt: Option<int>, now: int)
    returns (r: VerificationResponse)
    requires store.Valid()
    modifies store
    ensures store.Valid()
    ensures var v := Fetched(old(store.records), old(store.nextId), userId, None, None, None, expiresAt, now);
            var rows := AfterFetch(old(store.records), old(store.nextId), userId, None, None, None, expiresAt, now);
            var updated := Apply(v, ImageUploaded(imageType, url), now);
            && store.records == UpdateRows(rows, v.id, ImageUploaded(imageType, url), now)
            && store.attempts == old(store.attempts)
                                 + [Attempt(v.id, ImageTypeName(imageType) + "_upload", ImageTypeData(imageType),
                                            true, None, now)]
            && r == VerificationResponse(Some(v.id), if IsVerificationComplete(updated) then Verified else InProgress,
                                         ImageTypeName(imageType) + " image uploaded successfully",
                                         NextStep(updated), Some(IsVerificationComplete(updated)))
  {
    var v := store.GetOrCreateVerification(userId, None, None, None, expiresAt, now);
    assert v in store.records;
    UpdatedFound(store.records, v, ImageUploaded(imageType, url), now);
    store.UpdateImageUrl(v.id, imageType, url, now);
    store.LogAttempt(v.id, ImageTypeName(imageType) + "_upload", ImageTypeData(imageType), true, None, now);
    var updated := FindById(store.records, v.id).value;
    var complete := IsVerificationComplete(updated);
    r := VerificationResponse(Some(v.id), if complete then Verified else InProgress,
                              ImageTypeName(imageType) + " image uploaded successfully", NextStep(updated),
                              Some(complete));
  }
}
