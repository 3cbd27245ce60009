/** Reservations: creating a pending booking together with its access code,
    confirming it, and cancelling it with its access codes revoked. */
module BookingService {
  import opened Common
  import opened Validation
  import opened QrGenerator
  import opened PodService

  datatype BookingStatus = Pending | Confirmed | Cancelled

  /** A row of `bookings`; instants are milliseconds and the price is in minor
      units. The serial `id` and the public `booking_id` are one key here. */
  datatype Booking = Booking(
    id: nat,
    userId: nat,
    podId: nat,
    status: BookingStatus,
    checkIn: int,
    checkOut: int,
    totalPrice: int)

  datatype AccessStatus = Active | Revoked

  /** A row of `access_code`: the payload rendered into the QR code, the PIN and
      the validity window. */
  datatype AccessCode = AccessCode(
    bookingId: nat,
    qrData: AccessPayload,
    accessPin: string,
    validFrom: int,
    validUntil: int,
    status: AccessStatus)

  datatype BookingError =
    | InvalidDateRange
    | PodNotAvailable
    | AlreadyBooked
    | StoreFailure
    | NotFoundOrProcessed
    | NotFoundOrUnauthorized

  /** The first pod with the key whose status is `available`: the row the
      availability query returns first. */
  function FindAvailablePod(pods: seq<Pod>, podId: nat): (r: Option<Pod>)
    ensures r.Some? ==> r.value in pods && r.value.id == podId && r.value.status == Available
    ensures r.Some? ==> exists i :: 0 <= i < |pods| && pods[i] == r.value
                          && forall j :: 0 <= j < i ==> !(pods[j].id == podId && pods[j].status == Available)
    ensures r.None? ==> forall i :: 0 <= i < |pods| ==> !(pods[i].id == podId && pods[i].status == Available)
  {
    if pods == [] then None
    else if pods[0].id == podId && pods[0].status == Available then Some(pods[0])
    else
      var r := FindAvailablePod(pods[1..], podId);
      assert r.Some? ==> exists i :: 0 < i < |pods| && pods[i] == r.value
                          && forall j :: 0 <= j < i ==> !(pods[j].id == podId && pods[j].status == Available) by {
        if r.Some? {
          var k :| 0 <= k < |pods[1..]| && pods[1..][k] == r.value
                   && forall j :: 0 <= j < k ==> !(pods[1..][j].id == podId && pods[1..][j].status == Available);
          assert pods[k + 1] == r.value;
          assert forall j :: 0 < j < k + 1 ==> pods[j] == pods[1..][j - 1];
        }
      }
      r
  }

  /** The three cases of the conflict query for a booking `b` against the
      requested window: it covers the check-in, it covers the check-out, or it
      lies inside the window. */
  predicate SlotCases(b: Booking, checkIn: int, checkOut: int) {
    || (b.checkIn <= checkIn && b.checkOut > checkIn)
    || (b.checkIn < checkOut && b.checkOut >= checkOut)
    || (b.checkIn >= checkIn && b.checkOut <= checkOut)
  }

  /** A row the conflict query selects: a confirmed booking of the same pod
      matching one of the three cases. */
  predicate Conflicts(b: Booking, podId: nat, checkIn: int, checkOut: int) {
    b.podId == podId && b.status == Confirmed && SlotCases(b, checkIn, checkOut)
  }

  predicate HasConflict(bookings: seq<Booking>, podId: nat, checkIn: int, checkOut: int) {
    exists i :: 0 <= i < |bookings| && Conflicts(bookings[i], podId, checkIn, checkOut)
  }

  /** For non-empty windows the three cases are exactly the overlap of the
      half-open intervals [checkIn, checkOut). */
  lemma SlotCasesAreOverlap(b: Booking, checkIn: int, checkOut: int)
    requires b.checkIn < b.checkOut && checkIn < checkOut
    ensures SlotCases(b, checkIn, checkOut) <==> (b.checkIn < checkOut && b.checkOut > checkIn)
  {
  }

  /** Bookings that are not confirmed never block a slot: adding one changes
      no conflict test. */
  lemma {:induction false} UnconfirmedNeverBlocks(bookings: seq<Booking>, b: Booking, podId: nat,
                                                 checkIn: int, checkOut: int)
    requires b.status != Confirmed
    ensures HasConflict(bookings + [b], podId, checkIn, checkOut) <==> HasConflict(bookings, podId, checkIn, checkOut)
  {
    var s := bookings + [b];
    if HasConflict(s, podId, checkIn, checkOut) {
      var i :| 0 <= i < |s| && Conflicts(s[i], podId, checkIn, checkOut);
      assert i < |bookings| && s[i] == bookings[i];
    }
    if HasConflict(bookings, podId, checkIn, checkOut) {
      var i :| 0 <= i < |bookings| && Conflicts(bookings[i], podId, checkIn, checkOut);
      assert s[i] == bookings[i];
    }
  }

  /** `Math.ceil(duration / 3600000)` for a positive duration in milliseconds:
      the least number of whole hours covering it. */
  function BilledHours(durationMs: int): (h: int)
    requires durationMs > 0
    ensures h >= 1
    ensures (h - 1) * MsPerHour < durationMs <= h * MsPerHour
  {
    (durationMs + MsPerHour - 1) / MsPerHour
  }

  /** The billed hours are determined by the duration and never decrease as it
      grows. */
  lemma BilledHoursMonotone(d1: int, d2: int)
    requires 0 < d1 <= d2
    ensures BilledHours(d1) <= BilledHours(d2)
  {
  }

  /** Whole hours are billed exactly. */
  lemma BilledWholeHours(n: int)
    requires n >= 1
    ensures BilledHours(n * MsPerHour) == n
  {
  }

  /** The result of a successful `createBooking`: the booking and its access
      code. */
  datatype Created = Created(booking: Booking, access: AccessCode)

  class BookingStore {
    /** The pods the availability check reads; bookings never change them. */
    var pods: seq<Pod>
    var bookings: seq<Booking>
    /** `codes[i]` is the access code inserted with `bookings[i]`. */
    var codes: seq<AccessCode>
    var nextId: nat

    /** Keys are distinct and below the next serial value; every booking window
        is non-empty; each booking has its own access code with the same
        window, active exactly while the booking is not cancelled. */
    ghost predicate Valid()
      reads this
    {
      && |codes| == |bookings|
      && (forall i :: 0 <= i < |bookings| ==> bookings[i].id < nextId)
      && (forall i, j :: 0 <= i < j < |bookings| ==> bookings[i].id != bookings[j].id)
      && (forall i :: 0 <= i < |bookings| ==> bookings[i].checkIn < bookings[i].checkOut)
      && (forall i :: 0 <= i < |codes| ==> CodeMatches(codes[i], bookings[i]))
    }

    constructor (pods: seq<Pod>)
      ensures Valid() && this.pods == pods && bookings == [] && codes == []
    {
      this.pods, bookings, codes, nextId := pods, [], [], 0;
    }

    /** A booking has exactly one access code. */
    lemma ExactlyOneCode(i: nat)
      requires Valid() && i < |bookings|
      ensures forall j :: 0 <= j < |codes| ==> (codes[j].bookingId == bookings[i].id <==> j == i)
      ensures codes[i].status == Active <==> bookings[i].status != Cancelled
    {
      assert forall j :: 0 <= j < |codes| ==> codes[j].bookingId == bookings[j].id;
    }

    /** `createBooking`. The clock reading `now`, the draw behind the access PIN
        and whether the access-code insert fails are parameters. An invalid date
        range is rejected before anything is read. Inside the transaction the
        pod must exist with status `available`, and no confirmed booking of the
        pod may match the conflict test; the price is the billed hours times the
        pod's hourly price. The booking is inserted as `pending`, then its
        access code as `active` over the booking window. A failing access-code
        insert rolls both inserts back; the serial value drawn for the booking
        is not returned, as a database sequence does not roll back. */
    method CreateBooking(userId: nat, podId: nat, checkIn: Instant, checkOut: Instant,
                         now: int, draw: nat, accessInsertFails: bool)
      returns (r: Result<Created, BookingError>)
      requires Valid() && draw < 900000
      modifies this
      ensures Valid() && pods == old(pods)
      ensures !IsValidDateRange(checkIn, checkOut, now) ==>
                r == Failure(BookingError.InvalidDateRange) && unchanged(this)
      ensures IsValidDateRange(checkIn, checkOut, now) && FindAvailablePod(pods, podId).None? ==>
                r == Failure(PodNotAvailable) && unchanged(this)
      ensures IsValidDateRange(checkIn, checkOut, now) && FindAvailablePod(pods, podId).Some?
              && HasConflict(old(bookings), podId, checkIn.ms, checkOut.ms) ==>
                r == Failure(AlreadyBooked) && unchanged(this)
      ensures IsValidDateRange(checkIn, checkOut, now) && FindAvailablePod(pods, podId).Some?
              && !HasConflict(old(bookings), podId, checkIn.ms, checkOut.ms) && accessInsertFails ==>
                && r == Failure(StoreFailure)
                && bookings == old(bookings) && codes == old(codes) && nextId == old(nextId) + 1
      ensures r.Success? ==>
                && IsValidDateRange(checkIn, checkOut, now) && !accessInsertFails
                && !HasConflict(old(bookings), podId, checkIn.ms, checkOut.ms)
                && var b := r.value.booking;
                   var pod := FindAvailablePod(pods, podId).value;
                   && b == Booking(old(nextId), userId, podId, Pending, checkIn.ms, checkOut.ms,
                                   BilledHours(checkOut.ms - checkIn.ms) * pod.pricePerHour)
                   && r.value.access.bookingId == b.id && r.value.access.status == Active
                   && r.value.access.validFrom == checkIn.ms && r.value.access.validUntil == checkOut.ms
                   && r.value.access.accessPin == GenerateAccessPin(draw)
                   && r.value.access.qrData
                      == GenerateAccessQRData(b.id, GenerateAccessPin(draw), checkIn.ms, checkOut.ms, now)
                   && bookings == old(bookings) + [b] && codes == old(codes) + [r.value.access]
                   && nextId == old(nextId) + 1
      ensures IsValidDateRange(checkIn, checkOut, now) && FindAvailablePod(pods, podId).Some?
              && !HasConflict(old(bookings), podId, checkIn.ms, checkOut.ms) && !accessInsertFails ==>
                r.Success?
    {
      if !IsValidDateRange(checkIn, checkOut, now) {
        return Failure(BookingError.InvalidDateRange);
      }
      var found := FindAvailablePod(pods, podId);
      if found.None? {
        return Failure(PodNotAvailable);
      }
      var pod := found.value;
      if HasConflict(bookings, podId, checkIn.ms, checkOut.ms) {
        return Failure(AlreadyBooked);
      }
      var hours := BilledHours(checkOut.ms - checkIn.ms);
      var totalPrice := hours * pod.pricePerHour;
      var savedBookings := bookings;
      var booking := Booking(nextId, userId, podId, Pending, checkIn.ms, checkOut.ms, totalPrice);
      bookings := bookings + [booking];
      nextId := nextId + 1;
      var accessPin := GenerateAccessPin(draw);
      var qrData := GenerateAccessQRData(booking.id, accessPin, checkIn.ms, checkOut.ms, now);
      if accessInsertFails {
        bookings := savedBookings;
        return Failure(StoreFailure);
      }
      var access := AccessCode(booking.id, qrData, accessPin, checkIn.ms, checkOut.ms, Active);
      codes := codes + [access];
      return Success(Created(booking, access));
    }

    /** `confirmBooking`: only a pending booking is confirmed; any other key or
        status fails with `Booking not found or already processed` and changes
        nothing. */
    method ConfirmBooking(bookingId: nat) returns (r: Result<Booking, BookingError>)
      requires Valid()
      modifies this
      ensures Valid() && pods == old(pods) && codes == old(codes) && nextId == old(nextId)
      ensures IndexWhere(old(bookings), bookingId, None, true).None? ==>
                r == Failure(NotFoundOrProcessed) && bookings == old(bookings)
      ensures IndexWhere(old(bookings), bookingId, None, true).Some? ==>
                var i := IndexWhere(old(bookings), bookingId, None, true).value;
                && old(bookings)[i].status == Pending
                && bookings == old(bookings)[i := old(bookings)[i].(status := Confirmed)]
                && r == Success(bookings[i])
    {
      var found := IndexWhere(bookings, bookingId, None, true);
      if found.None? {
        return Failure(NotFoundOrProcessed);
      }
      var i := found.value;
      var b := bookings[i].(status := Confirmed);
      StatusChangeKeeps(bookings, codes, nextId, i, Confirmed);
      bookings := bookings[i := b];
      return Success(b);
    }

    /** `cancelBooking`: the booking must have the key and belong to the user,
        otherwise the call fails with `Booking not found or unauthorized` and
        changes nothing. The booking becomes `cancelled`, whatever its status,
        and every access code of the booking is revoked. */
    method CancelBooking(bookingId: nat, userId: nat) returns (r: Result<Booking, BookingError>)
      requires Valid()
      modifies this
      ensures Valid() && pods == old(pods) && nextId == old(nextId)
      ensures IndexWhere(old(bookings), bookingId, Some(userId), false).None? ==>
                r == Failure(NotFoundOrUnauthorized) && bookings == old(bookings) && codes == old(codes)
      ensures IndexWhere(old(bookings), bookingId, Some(userId), false).Some? ==>
                var i := IndexWhere(old(bookings), bookingId, Some(userId), false).value;
                && bookings == old(bookings)[i := old(bookings)[i].(status := Cancelled)]
                && codes == RevokeFor(old(codes), bookingId)
                && r == Success(bookings[i])
    {
      var found := IndexWhere(bookings, bookingId, Some(userId), false);
      if found.None? {
        return Failure(NotFoundOrUnauthorized);
      }
      var i := found.value;
      var b := bookings[i].(status := Cancelled);
      StatusChangeKeeps(bookings, codes, nextId, i, Cancelled);
      CancelKeepsCodes(bookings, codes, i);
      bookings := bookings[i := b];
      codes := RevokeFor(codes, b.id);
      return Success(b);
    }
  }

  /** An access code belongs to the booking, shares its window, and is active
      exactly while the booking is not cancelled. */
  predicate CodeMatches(c: AccessCode, b: Booking) {
    c.bookingId == b.id && c.validFrom == b.checkIn && c.validUntil == b.checkOut
    && (c.status == Active <==> b.status != Cancelled)
  }

  /** The first booking with the key, owned by `owner` when one is given, and
      pending when `pendingOnly` holds: the row an UPDATE with those conditions
      changes, keys being distinct. */
  function IndexWhere(bookings: seq<Booking>, id: nat, owner: Option<nat>, pendingOnly: bool): (r: Option<nat>)
    ensures r.Some? ==>
              && r.value < |bookings| && bookings[r.value].id == id
              && (owner.Some? ==> bookings[r.value].userId == owner.value)
              && (pendingOnly ==> bookings[r.value].status == Pending)
    ensures r.None? ==>
              forall i :: 0 <= i < |bookings| ==>
                !(bookings[i].id == id && (owner.Some? ==> bookings[i].userId == owner.value)
                  && (pendingOnly ==> bookings[i].status == Pending))
  {
    if bookings == [] then None
    else if bookings[0].id == id && (owner.Some? ==> bookings[0].userId == owner.value)
            && (pendingOnly ==> bookings[0].status == Pending) then Some(0)
    else match IndexWhere(bookings[1..], id, owner, pendingOnly)
      case None => None
      case Some(k) => Some(k + 1)
  }

  /** `UPDATE access_code SET status = 'revoked' WHERE booking_id = $1`. */
  function RevokeFor(codes: seq<AccessCode>, bookingId: nat): (r: seq<AccessCode>)
    ensures |r| == |codes|
    ensures forall i :: 0 <= i < |codes| ==>
              r[i] == if codes[i].bookingId == bookingId then codes[i].(status := Revoked) else codes[i]
  {
    if codes == [] then []
    else [if codes[0].bookingId == bookingId then codes[0].(status := Revoked) else codes[0]]
         + RevokeFor(codes[1..], bookingId)
  }

  /** Revoking twice is revoking once. */
  lemma RevokeIdempotent(codes: seq<AccessCode>, bookingId: nat)
    ensures RevokeFor(RevokeFor(codes, bookingId), bookingId) == RevokeFor(codes, bookingId)
  {
  }

  /** Changing a booking's status keeps keys and windows. */
  lemma StatusChangeKeeps(bookings: seq<Booking>, codes: seq<AccessCode>, nextId: nat, i: nat,
                          s: BookingStatus)
    requires i < |bookings|
    requires forall k :: 0 <= k < |bookings| ==> bookings[k].id < nextId
    requires forall k, j :: 0 <= k < j < |bookings| ==> bookings[k].id != bookings[j].id
    requires forall k :: 0 <= k < |bookings| ==> bookings[k].checkIn < bookings[k].checkOut
    ensures var bs := bookings[i := bookings[i].(status := s)];
            && (forall k :: 0 <= k < |bs| ==> bs[k].id < nextId)
            && (forall k, j :: 0 <= k < j < |bs| ==> bs[k].id != bs[j].id)
            && (forall k :: 0 <= k < |bs| ==> bs[k].checkIn < bs[k].checkOut)
  {
    var bs := bookings[i := bookings[i].(status := s)];
    assert forall k :: 0 <= k < |bs| ==> bs[k].id == bookings[k].id && bs[k].checkIn == bookings[k].checkIn
                                         && bs[k].checkOut == bookings[k].checkOut;
  }

  /** Cancelling booking `i` and revoking its codes keeps every code matching
      its booking; since keys are distinct, only code `i` is revoked. */
  lemma CancelKeepsCodes(bookings: seq<Booking>, codes: seq<AccessCode>, i: nat)
    requires i < |bookings| == |codes|
    requires forall k, j :: 0 <= k < j < |bookings| ==> bookings[k].id != bookings[j].id
    requires forall k :: 0 <= k < |codes| ==> CodeMatches(codes[k], bookings[k])
    ensures var bs := bookings[i := bookings[i].(status := Cancelled)];
            var cs := RevokeFor(codes, bookings[i].id);
            forall k :: 0 <= k < |cs| ==> CodeMatches(cs[k], bs[k])
  {
    var bs := bookings[i := bookings[i].(status := Cancelled)];
    var cs := RevokeFor(codes, bookings[i].id);
    forall k | 0 <= k < |cs|
      ensures CodeMatches(cs[k], bs[k])
    {
      if k != i {
        assert bookings[k].id != bookings[i].id by {
          if k < i {
          } else {
          }
        }
        assert cs[k] == codes[k] && bs[k] == bookings[k];
      }
    }
  }
}
