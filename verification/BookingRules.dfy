/**
  The booking service's calls as functions on the tables and the fake provider
  (backend/internal/bookings/service.go), one atomic step each.  `Complete` and the
  student no-show can also stop between the capture and the status write.
*/
module BookingRules {
  import opened Options
  import opened UtcClock
  import opened Projection
  import opened Slots
  import opened SlotTheorems
  import opened Tables
  import opened Webhooks
  import opened Money
  import opened Payouts
  import Text

  /** Which later write fails: the no-show flag, or the status (for a teacher no-show, the cancellation). */
  datatype Fault = NoFault | NoShowWriteFails | StatusWriteFails

  datatype CreateInput = CreateInput(teacher: Id, startAt: int, durationMinutes: int, isTrial: bool)

  predicate Clash(b: Booking, s: int, e: int) {
    Live(b) && s < b.endAt && b.startAt < e
  }

  /** The teacher-side and student-side exclusion constraints would reject [s, e). */
  predicate TeacherBusy(db: Db, teacher: Id, s: int, e: int) {
    exists id :: id in db.bookings && db.bookings[id].teacher == teacher && Clash(db.bookings[id], s, e)
  }

  predicate StudentBusy(db: Db, student: Id, s: int, e: int) {
    exists id :: id in db.bookings && db.bookings[id].student == student && Clash(db.bookings[id], s, e)
  }

  /** The account owning the booking's teacher profile. */
  function OwnerOf(db: Db, b: Booking): Id {
    if b.teacher in db.teachers then db.teachers[b.teacher].owner else NIL_ID
  }

  predicate Participant(db: Db, b: Booking, caller: Id) {
    b.student == caller || (OwnerOf(db, b) != NIL_ID && OwnerOf(db, b) == caller)
  }

  predicate OwnsLesson(db: Db, b: Booking, caller: Id) {
    OwnerOf(db, b) != NIL_ID && OwnerOf(db, b) == caller
  }

  function CancellerFor(b: Booking, caller: Id): Canceller {
    if b.student == caller then ByStudent else ByTeacher
  }

  function LessonMinutes(input: CreateInput): int {
    if input.isTrial then 30 else input.durationMinutes
  }

  /** The price `Create` charges: the trial price, or the hourly rate for the length. */
  function PriceOf(t: Teacher, input: CreateInput): Option<nat> {
    if input.isTrial then t.trialPrice
    else if AllowedDuration(input.durationMinutes) then Some(HourlyPrice(t.pricePerHour, input.durationMinutes))
    else None
  }

  function SetBooking(db: Db, id: Id, b: Booking): Db {
    db.(bookings := db.bookings[id := b])
  }

  lemma RewriteSame(db: Db, id: Id)
    requires id in db.bookings
    ensures SetBooking(db, id, db.bookings[id]) == db
  {
  }

  lemma RewriteTwice(db: Db, id: Id, first: Booking, second: Booking)
    ensures SetBooking(SetBooking(db, id, first), id, second) == SetBooking(db, id, second)
  {
  }

  // --- create ----------------------------------------------------------------------

  /** Everything `Create` checks before it writes, in the source's order. */
  ghost function CreateVerdict(db: Db, now: int, student: Id, input: CreateInput): Result<nat, Error> {
    if input.teacher !in db.teachers then Err(TeacherNotFound)
    else
      var t := db.teachers[input.teacher];
      var s, e := input.startAt, input.startAt + LessonMinutes(input) * MINUTE;
      if t.owner != NIL_ID && t.owner == student then Err(CannotBookSelf)
      else if !input.isTrial && !AllowedDuration(input.durationMinutes) then Err(Invalid)
      else if s <= now then Err(Invalid)
      else if PriceOf(t, input).None? then Err(Invalid)
      else if !Accepts(t.spans, [], s, e - s, now) || TeacherBusy(db, input.teacher, s, e) then Err(SlotUnavailable)
      else if StudentBusy(db, student, s, e) then Err(SlotTaken)
      else Ok(PriceOf(t, input).value)
  }

  function NewBooking(student: Id, input: CreateInput, price: nat): Booking {
    Booking(input.teacher, student, input.startAt, input.startAt + LessonMinutes(input) * MINUTE,
            input.isTrial, price, PendingPayment, NotCancelled, NobodyMissed)
  }

  /** `Create`: a failed intent is logged and leaves a booking without one. */
  ghost function Create(w: World, now: int, student: Id, input: CreateInput, id: Id, intentFails: bool)
    : (World, Result<Id, Error>)
  {
    match CreateVerdict(w.db, now, student, input)
    case Err(error) => (w, Err(error))
    case Ok(price) =>
      var inserted := SetBooking(w.db, id, NewBooking(student, input, price));
      (w.(db := if intentFails then inserted else OpenIntent(inserted, id, price)), Ok(id))
  }

  // --- pay, complete, cancel, no-show --------------------------------------------------

  function Pay(w: World, clearingDays: nat, now: int, caller: Id, id: Id, token: string): (World, Option<Error>) {
    if id !in w.db.bookings then (w, Some(BookingNotFound))
    else
      var b := w.db.bookings[id];
      if b.student != caller then (w, Some(NotStudent))
      else
        match b.status
        case Confirmed => (w, Some(AlreadyPaid))
        case Completed => (w, Some(AlreadyPaid))
        case Cancelled => (w, Some(InvalidTransition))
        case PendingPayment =>
          var (w', err) := Authorize(w, clearingDays, now, id, Text.TrimSpace(token));
          (w', if err.Some? then Some(Translate(err.value)) else None)
  }

  /** Flip to completed, unless that write fails. */
  function FinishLesson(w: World, id: Id, noShow: NoShowParty, fault: Fault): (World, Option<Error>)
    requires id in w.db.bookings
  {
    var b := w.db.bookings[id];
    if noShow != NobodyMissed && fault == NoShowWriteFails then (w, Some(WriteFailed))
    else
      var marked := if noShow == NobodyMissed then b else b.(noShow := noShow);
      if fault == StatusWriteFails then (w.(db := SetBooking(w.db, id, marked)), Some(WriteFailed))
      else (w.(db := SetBooking(w.db, id, marked.(status := Completed))), None)
  }

  /** Capture first, then the booking: the shared money path of complete and student no-show. */
  function CaptureAndFinish(w: World, clearingDays: nat, now: int, id: Id, noShow: NoShowParty, fault: Fault)
    : (r: (World, Option<Error>))
    requires id in w.db.bookings
    ensures r.0.db.bookings.Keys == w.db.bookings.Keys && w.db.events.Keys <= r.0.db.events.Keys
  {
    var (w', err) := Capture(w, clearingDays, now, id);
    if err.Some? then (w', Some(Translate(err.value))) else FinishLesson(w', id, noShow, fault)
  }

  function Complete(w: World, clearingDays: nat, now: int, caller: Id, id: Id, fault: Fault): (World, Option<Error>) {
    if id !in w.db.bookings then (w, Some(BookingNotFound))
    else
      var b := w.db.bookings[id];
      if !OwnsLesson(w.db, b, caller) then (w, Some(NotTeacherOwner))
      else if b.status != Confirmed then (w, Some(InvalidTransition))
      else if now <= b.endAt then (w, Some(TooEarly))
      else CaptureAndFinish(w, clearingDays, now, id, NobodyMissed, fault)
  }

  /** `doCancel`: the cancellation is written first; a refund that fails is only logged. */
  function DoCancel(w: World, clearingDays: nat, now: int, id: Id, who: Canceller, refund: bool): (v: World)
    requires id in w.db.bookings
    ensures v.db.bookings.Keys == w.db.bookings.Keys && w.db.events.Keys <= v.db.events.Keys
    ensures v.db.teachers == w.db.teachers
  {
    var cancelled := w.(db := SetBooking(w.db, id, w.db.bookings[id].(status := Cancelled, cancelledBy := who)));
    if refund then Refund(cancelled, clearingDays, now, id).0 else cancelled
  }

  predicate Cancellable(b: Booking) {
    b.status == PendingPayment || b.status == Confirmed
  }

  function Cancel(w: World, clearingDays: nat, now: int, caller: Id, id: Id): (World, Option<Error>) {
    if id !in w.db.bookings then (w, Some(BookingNotFound))
    else
      var b := w.db.bookings[id];
      if !Participant(w.db, b, caller) then (w, Some(Forbidden))
      else if !Cancellable(b) then (w, Some(InvalidTransition))
      else (DoCancel(w, clearingDays, now, id, CancellerFor(b, caller), true), None)
  }

  function ForceCancel(w: World, clearingDays: nat, now: int, id: Id, refund: bool): (World, Option<Error>) {
    if id !in w.db.bookings then (w, Some(BookingNotFound))
    else if !Cancellable(w.db.bookings[id]) then (w, Some(InvalidTransition))
    else (DoCancel(w, clearingDays, now, id, ByAdmin, refund), None)
  }

  function AdminRefund(w: World, clearingDays: nat, now: int, id: Id): (World, Option<Error>) {
    if id !in w.db.bookings then (w, Some(BookingNotFound))
    else
      var (v, err) := Refund(w, clearingDays, now, id);
      (v, if err.Some? then Some(Translate(err.value)) else None)
  }

  function NoShow(w: World, clearingDays: nat, now: int, caller: Id, id: Id, party: NoShowParty, fault: Fault)
    : (World, Option<Error>)
  {
    if party == NobodyMissed then (w, Some(Invalid))
    else if id !in w.db.bookings then (w, Some(BookingNotFound))
    else
      var b := w.db.bookings[id];
      if !OwnsLesson(w.db, b, caller) then (w, Some(NotTeacherOwner))
      else if b.status != Confirmed then (w, Some(InvalidTransition))
      else if now <= b.startAt then (w, Some(LessonNotStarted))
      else if party == StudentMissed then CaptureAndFinish(w, clearingDays, now, id, StudentMissed, fault)
      else if fault == NoShowWriteFails then (w, Some(WriteFailed))
      else
        var marked := w.(db := SetBooking(w.db, id, b.(noShow := TeacherMissed)));
        if fault == StatusWriteFails then (marked, Some(WriteFailed))
        else (DoCancel(marked, clearingDays, now, id, ByTeacher, true), None)
  }

  // --- runs --------------------------------------------------------------------------

  /** One call, with the caller, the clock reading and any injected write failure. */
  datatype Call =
    | CallCreate(student: Id, input: CreateInput, id: Id, intentFails: bool)
    | CallPay(caller: Id, id: Id, token: string)
    | CallComplete(caller: Id, id: Id, fault: Fault)
    | CallCancel(caller: Id, id: Id)
    | CallForceCancel(id: Id, refund: bool)
    | CallAdminRefund(id: Id)
    | CallNoShow(caller: Id, id: Id, party: NoShowParty, fault: Fault)
    | CallPayout(admin: Id, batch: Id)
    | SetTeacher(id: Id, teacher: Teacher)

  /** Generated ids are fresh; a call that names a used one cannot happen. */
  predicate Possible(w: World, c: Call) {
    match c
    case CallCreate(_, _, id, _) => id !in w.db.bookings && id != NIL_ID
    case CallPayout(_, batch) => batch !in w.db.batches
    case SetTeacher(_, t) => ValidSpans(t.spans)
    case _ => true
  }

  ghost function Next(w: World, clearingDays: nat, now: int, c: Call): World {
    match c
    case CallCreate(student, input, id, fails) => Create(w, now, student, input, id, fails).0
    case CallPay(caller, id, token) => Pay(w, clearingDays, now, caller, id, token).0
    case CallComplete(caller, id, fault) => Complete(w, clearingDays, now, caller, id, fault).0
    case CallCancel(caller, id) => Cancel(w, clearingDays, now, caller, id).0
    case CallForceCancel(id, refund) => ForceCancel(w, clearingDays, now, id, refund).0
    case CallAdminRefund(id) => AdminRefund(w, clearingDays, now, id).0
    case CallNoShow(caller, id, party, fault) => NoShow(w, clearingDays, now, caller, id, party, fault).0
    case CallPayout(admin, batch) => w.(db := SoloRun(w.db, admin, batch, now))
    case SetTeacher(id, t) => w.(db := w.db.(teachers := w.db.teachers[id := t]))
  }

  datatype Timed = Timed(now: int, call: Call)

  /** A run of calls; impossible ones are skipped. */
  ghost function RunCalls(w: World, clearingDays: nat, calls: seq<Timed>): World
    decreases |calls|
  {
    if calls == [] then w
    else
      var c := calls[0];
      RunCalls(if Possible(w, c.call) then Next(w, clearingDays, c.now, c.call) else w, clearingDays, calls[1..])
  }

  const EMPTY_WORLD: World :=
    World(Db(map[], map[], map[], map[], map[], map[]), Provider(0, map[], map[], {}))
}
