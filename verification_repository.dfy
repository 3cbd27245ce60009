/** The identity-verification table and its attempt log: one record per
    verification of a user (Aadhaar OTP, verified identity data, selfie and
    Aadhaar images, a review status), the UPDATE statements that advance it,
    and the query `findAll` builds. Instants are milliseconds; `now` is the
    database's `NOW()`. */
module VerificationRepository {
  import opened Common
  import QrGenerator

  datatype VerificationStatus = Pending | InProgress | Verified | Rejected | Expired

  function StatusName(s: VerificationStatus): string {
    match s
      case Pending => "pending"
      case InProgress => "in_progress"
      case Verified => "verified"
      case Rejected => "rejected"
      case Expired => "expired"
  }

  datatype ImageType = Selfie | AadharImage

  /** What the identity provider returns for a verified Aadhaar OTP; fields the
      provider leaves out are `None`. */
  datatype AadharVerifyResponse = AadharVerifyResponse(
    name: Option<string>,
    dob: Option<string>,
    gender: Option<string>,
    email: Option<string>,
    address: Option<string>,
    careOf: Option<string>,
    pincode: Option<nat>,
    state: Option<string>,
    district: Option<string>,
    yearOfBirth: Option<int>,
    mobileHash: Option<string>,
    shareCode: Option<string>)

  /** The `verified_*` columns and their neighbours; `None` is NULL. */
  datatype Identity = Identity(
    name: Option<string>,
    dob: Option<string>,
    gender: Option<string>,
    email: Option<string>,
    address: Option<string>,
    careOf: Option<string>,
    pincode: Option<string>,
    state: Option<string>,
    district: Option<string>,
    yearOfBirth: Option<int>,
    mobileHash: Option<string>,
    shareCode: Option<string>)

  const NoIdentity := Identity(None, None, None, None, None, None, None, None, None, None, None, None)

  /** `pincode?.toString()`: the decimal text of the pincode, `undefined` when
      there is none. */
  function PincodeText(p: Option<nat>): (t: Option<string>)
    ensures t.Some? <==> p.Some?
    ensures p.Some? ==> QrGenerator.AllDigits(t.value)
    ensures p.Some? ==> QrGenerator.DecimalValue(t.value) == p.value
  {
    if p.None? then None
    else
      QrGenerator.DecimalRoundTrip(p.value);
      Some(QrGenerator.NatToDecimal(p.value))
  }

  /** The identity `updateAadharVerificationData` stores: the response's fields
      as given, the pincode as its decimal text. */
  function IdentityOf(a: AadharVerifyResponse): Identity
  {
    Identity(a.name, a.dob, a.gender, a.email, a.address, a.careOf, PincodeText(a.pincode), a.state, a.district,
             a.yearOfBirth, a.mobileHash, a.shareCode)
  }

  /** One row of `user_verification`. The uuid `verification_id` and the
      serial `id` are one key here. */
  datatype UserVerification = UserVerification(
    id: nat,
    userId: string,
    aadharNumber: Option<string>,
    aadharRefId: Option<string>,
    otpGeneratedAt: Option<int>,
    aadharVerifiedAt: Option<int>,
    identity: Identity,
    selfieUrl: Option<string>,
    aadharImageUrl: Option<string>,
    status: VerificationStatus,
    notes: Option<string>,
    adminRemarks: Option<string>,
    ipAddress: Option<string>,
    userAgent: Option<string>,
    deviceInfo: Option<string>,
    createdAt: int,
    updatedAt: int,
    expiresAt: Option<int>)

  /** What a logged attempt records about its input. */
  datatype AttemptData = RefIdData(refId: string) | ImageTypeData(imageType: ImageType)

  /** One row of `verification_attempts`. */
  datatype Attempt = Attempt(
    verificationId: nat,
    attemptType: string,
    data: AttemptData,
    successful: bool,
    errorMessage: Option<string>,
    attemptedAt: int)

  predicate IdsIncreasing(rs: seq<UserVerification>) {
    forall i, j :: 0 <= i < j < |rs| ==> rs[i].id < rs[j].id
  }

  // -------------------------------------------------------------- lookups

  /** `findByUserId` (and the lookup of `getOrCreateVerification`): the
      user's most recently created record. Among records created at the same
      instant the later inserted one is taken. */
  function LatestFor(rs: seq<UserVerification>, userId: string): (r: Option<UserVerification>)
    ensures r.Some? ==> r.value in rs && r.value.userId == userId
    ensures r.Some? ==> forall q :: q in rs && q.userId == userId ==> q.createdAt <= r.value.createdAt
    ensures r.None? <==> forall q :: q in rs ==> q.userId != userId
    decreases |rs|
  {
    if rs == [] then None
    else
      var init := rs[..|rs| - 1];
      var last := rs[|rs| - 1];
      assert rs == init + [last];
      var rest := LatestFor(init, userId);
      if last.userId != userId then rest
      else if rest.Some? && rest.value.createdAt > last.createdAt then rest
      else Some(last)
  }

  /** A record created for a user without one is that user's latest record, so
      a second `getOrCreateVerification` returns it instead of creating
      another. */
  lemma {:induction false} CreatedIsLatest(rs: seq<UserVerification>, v: UserVerification)
    requires LatestFor(rs, v.userId).None?
    ensures LatestFor(rs + [v], v.userId) == Some(v)
  {
    assert (rs + [v])[..|rs|] == rs;
  }

  /** `findById`. */
  function FindById(rs: seq<UserVerification>, id: nat): (r: Option<UserVerification>)
    ensures r.Some? ==> r.value in rs && r.value.id == id
    ensures r.None? ==> forall q :: q in rs ==> q.id != id
    decreases |rs|
  {
    if rs == [] then None else if rs[0].id == id then Some(rs[0]) else FindById(rs[1..], id)
  }

  /** A record appended under the next key keeps the keys increasing and
      below the key after it. */
  lemma AppendKeepsIdsIncreasing(rs: seq<UserVerification>, v: UserVerification, nextId: nat)
    requires ValidRecords(rs, nextId) && v.id == nextId
    ensures ValidRecords(rs + [v], nextId + 1)
  {
  }

  /** Keys increase in table order and stay below the next serial value. */
  predicate ValidRecords(rs: seq<UserVerification>, nextId: nat) {
    IdsIncreasing(rs) && forall i :: 0 <= i < |rs| ==> rs[i].id < nextId
  }

  /** `findByRefId`: a record whose Aadhaar reference id is the given one. The
      query has no ORDER BY, so which of several such records comes back is
      open; the model takes the first in table order. */
  function FindByRefId(rs: seq<UserVerification>, refId: string): (r: Option<UserVerification>)
    ensures r.Some? ==> r.value in rs && r.value.aadharRefId == Some(refId)
    ensures r.None? ==> forall q :: q in rs ==> q.aadharRefId != Some(refId)
    decreases |rs|
  {
    if rs == [] then None
    else if rs[0].aadharRefId == Some(refId) then Some(rs[0])
    else FindByRefId(rs[1..], refId)
  }

  // -------------------------------------------------------------- updates

  /** The four UPDATE statements, by what they are asked to write. */
  datatype Update =
    | OtpGenerated(aadharNumber: string, refId: string)
    | AadharVerified(response: AadharVerifyResponse)
    | ImageUploaded(imageType: ImageType, url: string)
    | StatusSet(status: VerificationStatus, notes: Option<string>, adminRemarks: Option<string>)

  /** A record after one UPDATE. Every expression of a SET list reads the row
      as it was before the statement. */
  function Apply(r: UserVerification, u: Update, now: int): UserVerification {
    match u
      case OtpGenerated(n, ref) =>
        r.(aadharNumber := Some(n), aadharRefId := Some(ref), otpGeneratedAt := Some(now),
           status := InProgress, updatedAt := now)
      case AadharVerified(a) =>
        r.(aadharVerifiedAt := Some(now), identity := IdentityOf(a),
           status := if r.selfieUrl.Some? then Verified else InProgress, updatedAt := now)
      case ImageUploaded(t, url) =>
        var s := if r.identity.name.Some? && r.selfieUrl.Some? then Verified else r.status;
        var written := if t == Selfie then r.(selfieUrl := Some(url)) else r.(aadharImageUrl := Some(url));
        written.(status := s, updatedAt := now)
      case StatusSet(s, notes, remarks) =>
        r.(status := s, notes := if notes.Some? then notes else r.notes,
           adminRemarks := if remarks.Some? then remarks else r.adminRemarks, updatedAt := now)
  }

  /** `UPDATE ... WHERE verification_id = $n`: the record with the key takes
      the update; no other record changes, and an unknown key changes
      nothing. */
  function UpdateRows(rs: seq<UserVerification>, id: nat, u: Update, now: int): (r: seq<UserVerification>)
    ensures |r| == |rs|
    ensures forall i :: 0 <= i < |rs| ==> r[i].id == rs[i].id && r[i].userId == rs[i].userId
    ensures forall i :: 0 <= i < |rs| && rs[i].id != id ==> r[i] == rs[i]
    ensures (forall q :: q in rs ==> q.id != id) ==> r == rs
  {
    seq(|rs|, i requires 0 <= i < |rs| => if rs[i].id == id then Apply(rs[i], u, now) else rs[i])
  }

  /** `updateAadharOTPGeneration` records the number, the reference id and the
      moment, and puts the verification in progress; nothing else changes. */
  lemma OtpGenerationRecords(r: UserVerification, aadharNumber: string, refId: string, now: int)
    ensures var a := Apply(r, OtpGenerated(aadharNumber, refId), now);
            && a.aadharNumber == Some(aadharNumber) && a.aadharRefId == Some(refId)
            && a.otpGeneratedAt == Some(now) && a.status == InProgress
            && a.(aadharNumber := r.aadharNumber, aadharRefId := r.aadharRefId, otpGeneratedAt := r.otpGeneratedAt,
                  status := r.status, updatedAt := r.updatedAt) == r
  {
  }

  /** `updateAadharVerificationData` stores the identity and the moment; the
      verification is verified exactly when a selfie is already on record,
      and in progress otherwise. */
  lemma AadharVerifiedStatus(r: UserVerification, a: AadharVerifyResponse, now: int)
    ensures var v := Apply(r, AadharVerified(a), now);
            && v.identity == IdentityOf(a) && v.aadharVerifiedAt == Some(now)
            && (v.status == Verified <==> r.selfieUrl.Some?)
            && (v.status != Verified ==> v.status == InProgress)
            && v.selfieUrl == r.selfieUrl && v.aadharNumber == r.aadharNumber && v.aadharRefId == r.aadharRefId
  {
  }

  /** `updateImageUrl` writes the selfie column for a selfie and the Aadhaar
      image column otherwise; the status becomes verified when the row
      already had a verified name and a selfie, and is kept otherwise. */
  lemma ImageUploadWrites(r: UserVerification, t: ImageType, url: string, now: int)
    ensures var v := Apply(r, ImageUploaded(t, url), now);
            && (t == Selfie ==> v.selfieUrl == Some(url) && v.aadharImageUrl == r.aadharImageUrl)
            && (t == AadharImage ==> v.aadharImageUrl == Some(url) && v.selfieUrl == r.selfieUrl)
            && (v.status == Verified <==> (r.identity.name.Some? && r.selfieUrl.Some?) || r.status == Verified)
            && (!(r.identity.name.Some? && r.selfieUrl.Some?) ==> v.status == r.status)
            && v.identity == r.identity
  {
  }

  /** Uploading the first selfie never promotes the verification, even when
      the identity is already verified: the CASE reads the row from before the
      upload, in which the selfie is NULL. A later upload of either image
      promotes it. */
  lemma FirstSelfieNotPromoted(r: UserVerification, url: string, t: ImageType, url2: string, now: int, now2: int)
    requires r.selfieUrl.None? && r.identity.name.Some? && r.status == InProgress
    ensures Apply(r, ImageUploaded(Selfie, url), now).status == InProgress
    ensures Apply(Apply(r, ImageUploaded(Selfie, url), now), ImageUploaded(t, url2), now2).status == Verified
  {
  }

  /** `updateStatus` always sets the status; notes and remarks are replaced
      only by given values (`COALESCE`). */
  lemma StatusSetCoalesces(r: UserVerification, s: VerificationStatus, notes: Option<string>,
                           remarks: Option<string>, now: int)
    ensures var v := Apply(r, StatusSet(s, notes, remarks), now);
            && v.status == s
            && (notes.Some? ==> v.notes == notes) && (notes.None? ==> v.notes == r.notes)
            && (remarks.Some? ==> v.adminRemarks == remarks) && (remarks.None? ==> v.adminRemarks == r.adminRemarks)
            && v.(status := r.status, notes := r.notes, adminRemarks := r.adminRemarks, updatedAt := r.updatedAt) == r
  {
  }

  // --------------------------------------------------------------- attempts

  /** `getAttemptsCount`: the attempts of the verification, of the given type
      when a non-empty one is given. */
  function AttemptsCount(attempts: seq<Attempt>, verificationId: nat, attemptType: Option<string>): (n: nat)
    ensures n <= |attempts|
    decreases |attempts|
  {
    if attempts == [] then 0
    else
      var last := attempts[|attempts| - 1];
      var counted := last.verificationId == verificationId
                     && (!Truthy(attemptType) || last.attemptType == attemptType.value);
      AttemptsCount(attempts[..|attempts| - 1], verificationId, attemptType) + (if counted then 1 else 0)
  }

  /** Logging an attempt adds one to exactly the counts it matches. */
  lemma AttemptsCountAppend(attempts: seq<Attempt>, a: Attempt, verificationId: nat, attemptType: Option<string>)
    ensures AttemptsCount(attempts + [a], verificationId, attemptType)
            == AttemptsCount(attempts, verificationId, attemptType)
               + (if a.verificationId == verificationId && (!Truthy(attemptType) || a.attemptType == attemptType.value)
                  then 1 else 0)
  {
    assert (attempts + [a])[..|attempts|] == attempts;
  }

  /** Restricting the count to one type never counts more. */
  lemma {:induction false} AttemptsCountOfType(attempts: seq<Attempt>, verificationId: nat, attemptType: string)
    ensures AttemptsCount(attempts, verificationId, Some(attemptType)) <= AttemptsCount(attempts, verificationId, None)
    decreases |attempts|
  {
    if attempts != [] {
      AttemptsCountOfType(attempts[..|attempts| - 1], verificationId, attemptType);
    }
  }

  // ---------------------------------------------------------------- expiry

  predicate Stale(r: UserVerification, now: int) {
    (r.status == Pending || r.status == InProgress) && r.expiresAt.Some? && r.expiresAt.value < now
  }

  /** `cleanupExpired`: every pending or in-progress record whose expiry has
      passed becomes expired; a record without an expiry never does, and no
      other record changes. */
  function ExpireStale(rs: seq<UserVerification>, now: int): (r: seq<UserVerification>)
    ensures |r| == |rs|
    ensures forall i :: 0 <= i < |rs| ==> !Stale(r[i], now)
    ensures forall i :: 0 <= i < |rs| ==> if Stale(rs[i], now) then r[i] == rs[i].(status := Expired) else r[i] == rs[i]
  {
    seq(|rs|, i requires 0 <= i < |rs| => if Stale(rs[i], now) then rs[i].(status := Expired) else rs[i])
  }

  /** The number of stale records. */
  function StaleCount(rs: seq<UserVerification>, now: int): (n: nat)
    ensures n <= |rs|
    decreases |rs|
  {
    if rs == [] then 0
    else StaleCount(rs[..|rs| - 1], now) + (if Stale(rs[|rs| - 1], now) then 1 else 0)
  }

  lemma {:induction false} NoneStaleCount(rs: seq<UserVerification>, now: int)
    requires forall i :: 0 <= i < |rs| ==> !Stale(rs[i], now)
    ensures StaleCount(rs, now) == 0
    decreases |rs|
  {
    if rs != [] {
      NoneStaleCount(rs[..|rs| - 1], now);
    }
  }

  /** A second cleanup at the same instant finds nothing to expire. */
  lemma CleanupIdempotent(rs: seq<UserVerification>, now: int)
    ensures StaleCount(ExpireStale(rs, now), now) == 0
    ensures ExpireStale(ExpireStale(rs, now), now) == ExpireStale(rs, now)
  {
    NoneStaleCount(ExpireStale(rs, now), now);
  }

  // ------------------------------------------------------------- findAll

  datatype FilterColumn = StatusFilter | UserFilter

  /** `AND v.<column> = $<placeholder>`. */
  datatype Condition = Condition(column: FilterColumn, placeholder: nat)

  datatype Param = PText(s: string) | PInt(i: int)

  /** The filters `findAll` is given; `None` is undefined. */
  datatype FindAllOptions = FindAllOptions(
    status: Option<VerificationStatus>,
    userId: Option<string>,
    limit: Option<int>,
    offset: Option<int>,
    sortBy: Option<string>,
    descending: Option<bool>)

  /** The statement `findAll` sends: its conditions after `WHERE 1=1`, the
      ordering, the placeholders of LIMIT and OFFSET, and the bound values. */
  datatype FindAllQuery = FindAllQuery(
    conditions: seq<Condition>,
    sortBy: string,
    descending: bool,
    limitPlaceholder: nat,
    offsetPlaceholder: nat,
    values: seq<Param>)

  /** The filters in the order `findAll` tests them, with their values. */
  function Filters(o: FindAllOptions): seq<(FilterColumn, Param)> {
    (if o.status.Some? then [(StatusFilter, PText(StatusName(o.status.value)))] else [])
    + (if Truthy(o.userId) then [(UserFilter, PText(o.userId.value))] else [])
  }

  /** `options.x || fallback` on a number. */
  function NumberOr(n: Option<int>, fallback: int): int {
    if n.Some? && n.value != 0 then n.value else fallback
  }

  /** The filter blocks of `findAll`: the k-th filter present takes
      placeholder `$k` and the k-th value, and `paramIndex` ends one past
      the last placeholder taken. */
  method BuildConditions(o: FindAllOptions) returns (conditions: seq<Condition>, values: seq<Param>, paramIndex: nat)
    ensures var f := Filters(o);
            && |conditions| == |f| && |values| == |f| && paramIndex == |f| + 1
            && forall i :: 0 <= i < |f| ==> conditions[i] == Condition(f[i].0, i + 1) && values[i] == f[i].1
  {
    conditions, values, paramIndex := [], [], 1;
    if o.status.Some? {
      conditions := conditions + [Condition(StatusFilter, paramIndex)];
      values := values + [PText(StatusName(o.status.value))];
      paramIndex := paramIndex + 1;
    }
    if Truthy(o.userId) {
      conditions := conditions + [Condition(UserFilter, paramIndex)];
      values := values + [PText(o.userId.value)];
      paramIndex := paramIndex + 1;
    }
  }

  /** The where-clause builder of `findAll`: the k-th filter present takes
      placeholder `$k` and the k-th value; LIMIT and OFFSET take the next two
      placeholders and the last two values, 50 and 0 by default. The result
      ordering defaults to `created_at` descending. */
  method BuildFindAll(o: FindAllOptions) returns (q: FindAllQuery)
    ensures var f := Filters(o);
            && |q.conditions| == |f| && |q.values| == |f| + 2
            && (forall i :: 0 <= i < |f| ==>
                  q.conditions[i] == Condition(f[i].0, i + 1) && q.values[q.conditions[i].placeholder - 1] == f[i].1)
            && q.limitPlaceholder == |f| + 1 && q.offsetPlaceholder == |f| + 2
            && q.values[q.limitPlaceholder - 1] == PInt(NumberOr(o.limit, 50))
            && q.values[q.offsetPlaceholder - 1] == PInt(NumberOr(o.offset, 0))
    ensures q.sortBy == (if Truthy(o.sortBy) then o.sortBy.value else "created_at")
    ensures q.descending == (if o.descending.Some? then o.descending.value else true)
  {
    var conditions, values, paramIndex := BuildConditions(o);
    var sortBy := if Truthy(o.sortBy) then o.sortBy.value else "created_at";
    var descending := if o.descending.Some? then o.descending.value else true;
    var limit := NumberOr(o.limit, 50);
    var offset := NumberOr(o.offset, 0);
    values := values + [PInt(limit), PInt(offset)];
    q := FindAllQuery(conditions, sortBy, descending, paramIndex, paramIndex + 1, values);
  }

  /** Whether a record passes `findAll`'s filters. */
  predicate PassesFilters(r: UserVerification, o: FindAllOptions) {
    (o.status.Some? ==> r.status == o.status.value) && (Truthy(o.userId) ==> r.userId == o.userId.value)
  }

  /** The `total` of `findAll`: the number of records passing its filters. */
  function FindAllTotal(rs: seq<UserVerification>, o: FindAllOptions): (n: nat)
    ensures n <= |rs|
    ensures n == 0 <==> forall i :: 0 <= i < |rs| ==> !PassesFilters(rs[i], o)
    decreases |rs|
  {
    if rs == [] then 0
    else FindAllTotal(rs[..|rs| - 1], o) + (if PassesFilters(rs[|rs| - 1], o) then 1 else 0)
  }

  // ---------------------------------------------------------------- store

  /** The record `getOrCreateVerification` inserts: pending, with nothing
      verified yet and the request's metadata (empty strings stored as NULL).
      `expiresAt` is the column default of a new record. */
  function NewVerification(id: nat, userId: string, ipAddress: Option<string>, userAgent: Option<string>,
                           deviceInfo: Option<string>, expiresAt: Option<int>, now: int): (v: UserVerification)
    ensures v.id == id && v.userId == userId && v.status == Pending && v.identity == NoIdentity
    ensures v.aadharNumber == None && v.aadharRefId == None && v.selfieUrl == None && v.aadharImageUrl == None
    ensures v.otpGeneratedAt == None && v.aadharVerifiedAt == None && v.notes == None && v.adminRemarks == None
    ensures v.ipAddress == (if Truthy(ipAddress) then ipAddress else None)
    ensures v.userAgent == (if Truthy(userAgent) then userAgent else None)
    ensures Truthy(v.ipAddress) == Truthy(ipAddress) && Truthy(v.userAgent) == Truthy(userAgent)
    ensures v.deviceInfo == deviceInfo && v.createdAt == now == v.updatedAt && v.expiresAt == expiresAt
  {
    UserVerification(id, userId, None, None, None, None, NoIdentity, None, None, Pending,
                     None, None, if Truthy(ipAddress) then ipAddress else None,
                     if Truthy(userAgent) then userAgent else None, deviceInfo, now, now, expiresAt)
  }

  class VerificationStore {
    var records: seq<UserVerification>
    var attempts: seq<Attempt>
    var nextId: nat

    ghost predicate Valid()
      reads this
    {
      ValidRecords(records, nextId)
    }

    constructor ()
      ensures Valid() && records == [] && attempts == []
    {
      records := [];
      attempts := [];
      nextId := 0;
    }

    /** `getOrCreateVerification`: the user's latest record when there is one,
        and then nothing changes; otherwise a new pending record with the
        request's metadata (empty strings stored as NULL). `expiresAt` is the
        column default of a new record. */
    method GetOrCreateVerification(userId: string, ipAddress: Option<string>, userAgent: Option<string>,
                                   deviceInfo: Option<string>, expiresAt: Option<int>, now: int)
      returns (v: UserVerification)
      requires Valid()
      modifies this
      ensures Valid() && attempts == old(attempts)
      ensures LatestFor(old(records), userId).Some? ==>
                records == old(records) && v == LatestFor(old(records), userId).value
      ensures LatestFor(old(records), userId).None? ==>
                && records == old(records) + [v]
                && v == NewVerification(old(nextId), userId, ipAddress, userAgent, deviceInfo, expiresAt, now)
      ensures LatestFor(records, userId) == Some(v)
    {
      var found := LatestFor(records, userId);
      if found.Some? {
        return found.value;
      }
      v := NewVerification(nextId, userId, ipAddress, userAgent, deviceInfo, expiresAt, now);
      CreatedIsLatest(records, v);
      Insert(v);
    }

    /** The INSERT of a record under the next key. */
    method Insert(v: UserVerification)
      requires Valid() && v.id == nextId
      modifies this
      ensures Valid() && attempts == old(attempts)
      ensures records == old(records) + [v] && nextId == old(nextId) + 1
    {
      AppendKeepsIdsIncreasing(records, v, nextId);
      records := records + [v];
      nextId := nextId + 1;
    }

    /** One UPDATE statement on the record with the key. */
    method ApplyUpdate(id: nat, u: Update, now: int)
      requires Valid()
      modifies this
      ensures Valid() && attempts == old(attempts) && nextId == old(nextId)
      ensures records == UpdateRows(old(records), id, u, now)
    {
      records := UpdateRows(records, id, u, now);
    }

    /** `updateAadharOTPGeneration`. */
    method UpdateAadharOtpGeneration(id: nat, aadharNumber: string, refId: string, now: int)
      requires Valid()
      modifies this
      ensures Valid() && attempts == old(attempts) && nextId == old(nextId)
      ensures records == UpdateRows(old(records), id, OtpGenerated(aadharNumber, refId), now)
    {
      ApplyUpdate(id, OtpGenerated(aadharNumber, refId), now);
    }

    /** `updateAadharVerificationData`. */
    method UpdateAadharVerificationData(id: nat, response: AadharVerifyResponse, now: int)
      requires Valid()
      modifies this
      ensures Valid() && attempts == old(attempts) && nextId == old(nextId)
      ensures records == UpdateRows(old(records), id, AadharVerified(response), now)
    {
      ApplyUpdate(id, AadharVerified(response), now);
    }

    /** `updateImageUrl`. */
    method UpdateImageUrl(id: nat, imageType: ImageType, url: string, now: int)
      requires Valid()
      modifies this
      ensures Valid() && attempts == old(attempts) && nextId == old(nextId)
      ensures records == UpdateRows(old(records), id, ImageUploaded(imageType, url), now)
    {
      ApplyUpdate(id, ImageUploaded(imageType, url), now);
    }

    /** `updateStatus`. */
    method UpdateStatus(id: nat, status: VerificationStatus, notes: Option<string>, adminRemarks: Option<string>,
                        now: int)
      requires Valid()
      modifies this
      ensures Valid() && attempts == old(attempts) && nextId == old(nextId)
      ensures records == UpdateRows(old(records), id, StatusSet(status, notes, adminRemarks), now)
    {
      ApplyUpdate(id, StatusSet(status, notes, adminRemarks), now);
    }

    /** `logAttempt`: appends one attempt; an empty error message is stored as
        NULL. */
    method LogAttempt(verificationId: nat, attemptType: string, data: AttemptData, successful: bool,
                      errorMessage: Option<string>, now: int)
      requires Valid()
      modifies this
      ensures Valid() && records == old(records) && nextId == old(nextId)
      ensures attempts == old(attempts) + [Attempt(verificationId, attemptType, data, successful,
                                                   if Truthy(errorMessage) then errorMessage else None, now)]
    {
      attempts := attempts + [Attempt(verificationId, attemptType, data, successful,
                                      if Truthy(errorMessage) then errorMessage else None, now)];
    }

    /** `cleanupExpired`: expires the stale records and returns how many there
        were. */
    method CleanupExpired(now: int) returns (count: nat)
      requires Valid()
      modifies this
      ensures Valid() && attempts == old(attempts) && nextId == old(nextId)
      ensures records == ExpireStale(old(records), now)
      ensures count == StaleCount(old(records), now)
    {
      count := StaleCount(records, now);
      records := ExpireStale(records, now);
    }
  }
}
