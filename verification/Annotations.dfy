/**
  The `can_review` and `can_raise_dispute` flags on a booking
  (backend/internal/bookings/dto.go, handler.go), and why they say exactly what the
  write paths will do in every reachable state.
*/
module Annotations {
  import opened Options
  import opened Tables
  import opened Money
  import opened BookingRules
  import opened Lifecycle
  import opened LifecycleRuns
  import opened Ratings
  import opened Disputes

  // --- the lookups ---------------------------------------------------------------------

  ghost predicate IsReviewOf(reviews: map<Id, Review>, booking: Id, r: Option<Review>) {
    match r
    case None => !Reviewed(reviews, booking)
    case Some(v) => exists id :: id in reviews && reviews[id] == v && v.booking == Some(booking)
  }

  ghost predicate IsOpenDisputeOf(disputes: map<Id, Dispute>, booking: Id, d: Option<Dispute>) {
    match d
    case None => !HasOpen(disputes, booking)
    case Some(v) => exists id :: id in disputes && disputes[id] == v && v.booking == booking && v.status == Open
  }

  method ReviewFor(reviews: map<Id, Review>, booking: Id) returns (r: Option<Review>)
    ensures IsReviewOf(reviews, booking, r)
  {
    if Reviewed(reviews, booking) {
      var id :| id in reviews && reviews[id].booking == Some(booking);
      return Some(reviews[id]);
    }
    return None;
  }

  method OpenDisputeFor(disputes: map<Id, Dispute>, booking: Id) returns (d: Option<Dispute>)
    ensures IsOpenDisputeOf(disputes, booking, d)
  {
    if HasOpen(disputes, booking) {
      var id :| id in disputes && disputes[id].booking == booking && disputes[id].status == Open;
      return Some(disputes[id]);
    }
    return None;
  }

  // --- the read model --------------------------------------------------------------------

  datatype Flags = Flags(canReview: bool, review: Option<Review>, canRaiseDispute: bool, openDispute: Option<Dispute>)

  function WithReview(dto: Flags, b: Booking, viewer: Id, review: Option<Review>): Flags {
    dto.(review := if review.Some? then review else dto.review,
         canReview := b.student == viewer && b.status == Completed && review.None?)
  }

  function WithDispute(dto: Flags, db: Db, b: Booking, viewer: Id, open: Option<Dispute>): Flags {
    dto.(openDispute := if open.Some? then open else dto.openDispute,
         canRaiseDispute := Participant(db, b, viewer) && Disputable(b) && open.None?)
  }

  const BARE: Flags := Flags(false, None, false, None)

  /** The flags computed from both lookups, whatever the status. */
  function FlagsFrom(db: Db, b: Booking, viewer: Id, review: Option<Review>, open: Option<Dispute>): Flags {
    WithDispute(WithReview(BARE, b, viewer, review), db, b, viewer, open)
  }

  /** Flags that result from some answers the lookups may give. */
  ghost predicate FullFlags(s: Site, booking: Id, viewer: Id, f: Flags)
    requires booking in s.world.db.bookings
  {
    exists review, open ::
      && IsReviewOf(s.board.reviews, booking, review) && IsOpenDisputeOf(s.disputes, booking, open)
      && f == FlagsFrom(s.world.db, s.world.db.bookings[booking], viewer, review, open)
  }

  datatype Site = Site(world: World, board: Board, disputes: map<Id, Dispute>)

  /** Flags that result when a status that rules an extra out skips its lookup. */
  ghost predicate SkippingFlags(s: Site, booking: Id, viewer: Id, f: Flags)
    requires booking in s.world.db.bookings
  {
    exists review, open ::
      && ReviewLookedUp(s, booking, review) && DisputeLookedUp(s, booking, open)
      && f == FlagsFrom(s.world.db, s.world.db.bookings[booking], viewer, review, open)
  }

  ghost predicate ReviewLookedUp(s: Site, booking: Id, review: Option<Review>)
    requires booking in s.world.db.bookings
  {
    if s.world.db.bookings[booking].status == Completed then IsReviewOf(s.board.reviews, booking, review) else review == None
  }

  ghost predicate DisputeLookedUp(s: Site, booking: Id, open: Option<Dispute>)
    requires booking in s.world.db.bookings
  {
    if s.world.db.bookings[booking].status != PendingPayment then IsOpenDisputeOf(s.disputes, booking, open) else open == None
  }

  /** `annotate`: only the lookups the status allows. */
  method Annotate(s: Site, booking: Id, viewer: Id) returns (f: Flags)
    requires booking in s.world.db.bookings
    ensures SkippingFlags(s, booking, viewer, f)
  {
    var b := s.world.db.bookings[booking];
    var review: Option<Review> := None;
    if b.status == Completed {
      review := ReviewFor(s.board.reviews, booking);
    }
    var open: Option<Dispute> := None;
    if b.status != PendingPayment {
      open := OpenDisputeFor(s.disputes, booking);
    }
    assert ReviewLookedUp(s, booking, review) && DisputeLookedUp(s, booking, open);
    f := FlagsFrom(s.world.db, b, viewer, review, open);
  }

  /** `List`: fill the two slices in one loop, skipping lookups, then map them in another. */
  method AnnotateAll(s: Site, bookings: seq<Id>, viewer: Id) returns (out: seq<Flags>)
    requires forall i :: 0 <= i < |bookings| ==> bookings[i] in s.world.db.bookings
    ensures |out| == |bookings|
    ensures forall i :: 0 <= i < |bookings| ==> SkippingFlags(s, bookings[i], viewer, out[i])
  {
    hide SkippingFlags, IsReviewOf, IsOpenDisputeOf, FlagsFrom;
    var n := |bookings|;
    var reviews := new Option<Review>[n](_ => None);
    var disputes := new Option<Dispute>[n](_ => None);
    for i := 0 to n
      invariant forall j :: 0 <= j < i ==> ReviewLookedUp(s, bookings[j], reviews[j])
      invariant forall j :: 0 <= j < i ==> DisputeLookedUp(s, bookings[j], disputes[j])
      invariant forall j :: i <= j < n ==> reviews[j] == None && disputes[j] == None
    {
      var b := s.world.db.bookings[bookings[i]];
      if b.status == Completed {
        reviews[i] := ReviewFor(s.board.reviews, bookings[i]);
      }
      if b.status != PendingPayment {
        disputes[i] := OpenDisputeFor(s.disputes, bookings[i]);
      }
    }
    out := [];
    for i := 0 to n
      invariant |out| == i
      invariant forall j :: 0 <= j < n ==> ReviewLookedUp(s, bookings[j], reviews[j])
      invariant forall j :: 0 <= j < n ==> DisputeLookedUp(s, bookings[j], disputes[j])
      invariant forall j :: 0 <= j < i ==> SkippingFlags(s, bookings[j], viewer, out[j])
    {
      var b := s.world.db.bookings[bookings[i]];
      LookedUpFlags(s, bookings[i], viewer, reviews[i], disputes[i]);
      out := out + [FlagsFrom(s.world.db, b, viewer, reviews[i], disputes[i])];
    }
  }

  lemma LookedUpFlags(s: Site, booking: Id, viewer: Id, review: Option<Review>, open: Option<Dispute>)
    requires booking in s.world.db.bookings
    requires ReviewLookedUp(s, booking, review) && DisputeLookedUp(s, booking, open)
    ensures SkippingFlags(s, booking, viewer, FlagsFrom(s.world.db, s.world.db.bookings[booking], viewer, review, open))
  {
  }

  // --- what every reachable state keeps ----------------------------------------------------

  /** A review belongs to its booking, which is completed and its student's. */
  ghost predicate ReviewsFit(db: Db, reviews: map<Id, Review>) {
    forall id :: id in reviews && reviews[id].booking.Some? ==> ReviewFits(db, reviews[id])
  }

  predicate ReviewFits(db: Db, r: Review)
    requires r.booking.Some?
  {
    var b := r.booking.value;
    && b in db.bookings && db.bookings[b].status == Completed
    && r.student == db.bookings[b].student && r.teacher == db.bookings[b].teacher
  }

  /** A dispute is about a booking that has left pending_payment. */
  ghost predicate DisputesFit(db: Db, disputes: map<Id, Dispute>) {
    forall id :: id in disputes ==> DisputeFits(db, disputes[id])
  }

  predicate DisputeFits(db: Db, d: Dispute) {
    d.booking in db.bookings && db.bookings[d.booking].status != PendingPayment
  }

  ghost predicate OneOpenPerBooking(disputes: map<Id, Dispute>) {
    forall i, j :: i in disputes && j in disputes && i != j && disputes[i].status == Open && disputes[j].status == Open ==>
      disputes[i].booking != disputes[j].booking
  }

  ghost predicate SiteSound(s: Site) {
    && Joint(s.world)
    && ReviewsFit(s.world.db, s.board.reviews) && OnePerBooking(s.board.reviews)
    && DisputesFit(s.world.db, s.disputes) && OneOpenPerBooking(s.disputes)
  }

  /** Skipping is harmless: an uncompleted booking has no review and a pending one no dispute. */
  lemma SkippedLookupsFindNothing(s: Site, booking: Id)
    requires SiteSound(s) && booking in s.world.db.bookings
    ensures s.world.db.bookings[booking].status != Completed ==> IsReviewOf(s.board.reviews, booking, None)
    ensures s.world.db.bookings[booking].status == PendingPayment ==> IsOpenDisputeOf(s.disputes, booking, None)
  {
  }

  // --- flags against write paths -------------------------------------------------------------

  /** The lookups have one answer each. */
  lemma LookupsAreUnique(s: Site, booking: Id, r: Option<Review>, r': Option<Review>, d: Option<Dispute>, d': Option<Dispute>)
    requires SiteSound(s)
    ensures IsReviewOf(s.board.reviews, booking, r) && IsReviewOf(s.board.reviews, booking, r') ==> r == r'
    ensures IsOpenDisputeOf(s.disputes, booking, d) && IsOpenDisputeOf(s.disputes, booking, d') ==> d == d'
  {
  }

  /** Flags from both lookups promise exactly what the two writes will do, for any acceptable input. */
  lemma FlagsEqualWritePaths(s: Site, booking: Id, viewer: Id, f: Flags, reason: string, disputeId: Id,
                             rating: int, comment: string, reviewId: Id)
    requires booking in s.world.db.bookings
    requires FullFlags(s, booking, viewer, f)
    requires ValidNote(reason) && ValidReviewInput(rating, comment)
    ensures f.canRaiseDispute <==> RaiseDispute(s.world.db, s.disputes, viewer, booking, reason, disputeId).1 == None
    ensures f.canReview <==> WriteReview(s.world.db, s.board, viewer, booking, rating, comment, reviewId).1 == None
    ensures IsReviewOf(s.board.reviews, booking, f.review) && IsOpenDisputeOf(s.disputes, booking, f.openDispute)
  {
  }

  // --- runs over bookings, reviews and disputes ------------------------------------------------

  datatype SiteCall =
    | OnBooking(call: Call)
    | OnReview(caller: Id, booking: Id, rating: int, comment: string, id: Id)
    | Moderate(op: Op)
    | OnRaise(caller: Id, booking: Id, reason: string, id: Id)
    | OnResolve(admin: Id, id: Id, outcome: string, note: string, refund: bool)

  /**
    Generated ids are fresh; moderation only hides, unhides and removes; an operator refund
    without a cancellation happens only when a dispute is resolved.
  */
  predicate Feasible(s: Site, c: SiteCall) {
    match c
    case OnBooking(call) => Possible(s.world, call) && !call.CallAdminRefund?
    case OnReview(_, _, _, _, id) => id !in s.board.reviews
    case Moderate(op) => !op.OpCreate?
    case OnRaise(_, _, _, id) => id !in s.disputes
    case OnResolve(_, _, _, _, _) => true
  }

  ghost function SiteNext(s: Site, clearingDays: nat, now: int, c: SiteCall): Site {
    match c
    case OnBooking(call) => s.(world := BookingRules.Next(s.world, clearingDays, now, call))
    case OnReview(caller, booking, rating, comment, id) =>
      s.(board := WriteReview(s.world.db, s.board, caller, booking, rating, comment, id).0)
    case Moderate(op) => s.(board := Apply(s.board, op))
    case OnRaise(caller, booking, reason, id) =>
      s.(disputes := RaiseDispute(s.world.db, s.disputes, caller, booking, reason, id).0)
    case OnResolve(admin, id, outcome, note, refund) =>
      var (w, ds, _) := ResolveDispute(s.world, s.disputes, clearingDays, now, admin, id, outcome, note, refund);
      s.(world := w, disputes := ds)
  }

  datatype TimedCall = TimedCall(now: int, call: SiteCall)

  ghost function RunSite(s: Site, clearingDays: nat, calls: seq<TimedCall>): Site
    decreases |calls|
  {
    if calls == [] then s
    else
      var c := calls[0];
      RunSite(if Feasible(s, c.call) then SiteNext(s, clearingDays, c.now, c.call) else s, clearingDays, calls[1..])
  }

  lemma AdvanceKeepsFits(before: Db, after: Db, reviews: map<Id, Review>, disputes: map<Id, Dispute>)
    requires BookingsAdvance(before, after)
    requires ReviewsFit(before, reviews) && DisputesFit(before, disputes)
    ensures ReviewsFit(after, reviews) && DisputesFit(after, disputes)
  {
  }

  lemma ReviewKeepsSite(s: Site, caller: Id, booking: Id, rating: int, comment: string, id: Id)
    requires SiteSound(s) && id !in s.board.reviews
    ensures SiteSound(s.(board := WriteReview(s.world.db, s.board, caller, booking, rating, comment, id).0))
  {
    hide Joint, Defined, Text.TrimSpace;
    var verdict := ReviewVerdict(s.world.db, s.board.reviews, caller, booking, rating, comment);
    if verdict.Ok? {
      assert Insert(s.board, id, verdict.value).0.reviews == s.board.reviews[id := verdict.value];
    }
  }

  lemma ModerationKeepsSite(s: Site, op: Op)
    requires SiteSound(s) && !op.OpCreate?
    ensures SiteSound(s.(board := Apply(s.board, op)))
  {
    hide Joint, Defined;
    var after := Apply(s.board, op).reviews;
    forall k | k in after ensures k in s.board.reviews && after[k].(hidden := false) == s.board.reviews[k].(hidden := false) {
    }
    forall k | k in after && after[k].booking.Some? ensures ReviewFits(s.world.db, after[k]) {
      assert ReviewFits(s.world.db, s.board.reviews[k]);
    }
  }

  lemma RaiseKeepsSite(s: Site, caller: Id, booking: Id, reason: string, id: Id)
    requires SiteSound(s) && id !in s.disputes
    ensures SiteSound(s.(disputes := RaiseDispute(s.world.db, s.disputes, caller, booking, reason, id).0))
  {
    hide Joint, Text.TrimSpace;
  }

  lemma ResolveKeepsSite(s: Site, clearingDays: nat, now: int, admin: Id, id: Id, outcome: string, note: string, refund: bool)
    requires SiteSound(s)
    ensures var (w, ds, _) := ResolveDispute(s.world, s.disputes, clearingDays, now, admin, id, outcome, note, refund);
            SiteSound(s.(world := w, disputes := ds))
  {
    hide Joint, Text.TrimSpace, AdminRefund;
    var (w, ds, _) := ResolveDispute(s.world, s.disputes, clearingDays, now, admin, id, outcome, note, refund);
    if id in s.disputes {
      var b := s.disputes[id].booking;
      assert DisputeFits(s.world.db, s.disputes[id]);
      RefundIsMoneyOnly(s.world, clearingDays, now, b);
    }
    forall k | k in ds ensures DisputeFits(s.world.db, ds[k]) {
      assert DisputeFits(s.world.db, s.disputes[k]);
    }
  }

  /** A dispute's refund moves money and leaves every booking row alone. */
  lemma RefundIsMoneyOnly(w: World, clearingDays: nat, now: int, b: Id)
    requires Joint(w) && b in w.db.bookings
    ensures var (v, err) := AdminRefund(w, clearingDays, now, b);
            err == None && Joint(v) && v.db.bookings == w.db.bookings
  {
    hide Joint, Refund;
    RefundKeeps(w, clearingDays, now, b);
  }

  lemma SiteCallKeeps(s: Site, clearingDays: nat, now: int, c: SiteCall)
    requires SiteSound(s) && Feasible(s, c)
    ensures SiteSound(SiteNext(s, clearingDays, now, c))
  {
    match c
    case OnBooking(call) => BookingCallKeepsSite(s, clearingDays, now, call);
    case OnReview(caller, booking, rating, comment, id) => ReviewKeepsSite(s, caller, booking, rating, comment, id);
    case Moderate(op) => ModerationKeepsSite(s, op);
    case OnRaise(caller, booking, reason, id) => RaiseKeepsSite(s, caller, booking, reason, id);
    case OnResolve(admin, id, outcome, note, refund) => ResolveKeepsSite(s, clearingDays, now, admin, id, outcome, note, refund);
  }

  lemma BookingCallKeepsSite(s: Site, clearingDays: nat, now: int, call: Call)
    requires SiteSound(s) && Possible(s.world, call)
    ensures SiteSound(s.(world := BookingRules.Next(s.world, clearingDays, now, call)))
  {
    hide Joint, BookingRules.Next;
    CallKeeps(s.world, clearingDays, now, call);
    AdvanceKeepsFits(s.world.db, BookingRules.Next(s.world, clearingDays, now, call).db, s.board.reviews, s.disputes);
  }

  /** Every run of booking, review, moderation and dispute calls keeps the site sound. */
  lemma {:induction false} RunSiteSound(s: Site, clearingDays: nat, calls: seq<TimedCall>)
    requires SiteSound(s)
    ensures SiteSound(RunSite(s, clearingDays, calls))
    decreases |calls|
  {
    hide SiteSound, SiteNext;
    if calls != [] {
      var c := calls[0];
      if Feasible(s, c.call) { SiteCallKeeps(s, clearingDays, c.now, c.call); }
      RunSiteSound(if Feasible(s, c.call) then SiteNext(s, clearingDays, c.now, c.call) else s, clearingDays, calls[1..]);
    }
  }

  /** In a sound site, skipping lookups shows exactly what making all of them would. */
  lemma SkippingIsHarmless(s: Site, booking: Id, viewer: Id, f: Flags)
    requires SiteSound(s) && booking in s.world.db.bookings
    ensures SkippingFlags(s, booking, viewer, f) <==> FullFlags(s, booking, viewer, f)
  {
    hide SiteSound, IsReviewOf, IsOpenDisputeOf, FlagsFrom;
    SkippedLookupsFindNothing(s, booking);
    if SkippingFlags(s, booking, viewer, f) {
      var review, open :| ReviewLookedUp(s, booking, review) && DisputeLookedUp(s, booking, open)
                          && f == FlagsFrom(s.world.db, s.world.db.bookings[booking], viewer, review, open);
      assert IsReviewOf(s.board.reviews, booking, review) && IsOpenDisputeOf(s.disputes, booking, open);
    }
    if FullFlags(s, booking, viewer, f) {
      var review, open :| IsReviewOf(s.board.reviews, booking, review) && IsOpenDisputeOf(s.disputes, booking, open)
                          && f == FlagsFrom(s.world.db, s.world.db.bookings[booking], viewer, review, open);
      LookupsAreUnique(s, booking, review, None, open, None);
      assert ReviewLookedUp(s, booking, review) && DisputeLookedUp(s, booking, open);
    }
  }

  /**
    From empty tables, in every reachable state and for every viewer, the annotation made
    with skipped lookups is the one made with all of them, and its flags equal the write
    paths; it shows the booking's review and open dispute whenever there is one.
  */
  lemma FlagsAlwaysTellTheTruth(standings: map<Id, Standing>, clearingDays: nat, calls: seq<TimedCall>, booking: Id,
                                viewer: Id, f: Flags, reason: string, disputeId: Id, rating: int, comment: string, reviewId: Id)
    requires var s := RunSite(Site(EMPTY_WORLD, Board(map[], standings), map[]), clearingDays, calls);
             booking in s.world.db.bookings && SkippingFlags(s, booking, viewer, f)
    requires ValidNote(reason) && ValidReviewInput(rating, comment)
    ensures var s := RunSite(Site(EMPTY_WORLD, Board(map[], standings), map[]), clearingDays, calls);
            && FullFlags(s, booking, viewer, f)
            && (f.canRaiseDispute <==> RaiseDispute(s.world.db, s.disputes, viewer, booking, reason, disputeId).1 == None)
            && (f.canReview <==> WriteReview(s.world.db, s.board, viewer, booking, rating, comment, reviewId).1 == None)
            && IsReviewOf(s.board.reviews, booking, f.review) && IsOpenDisputeOf(s.disputes, booking, f.openDispute)
  {
    hide IsReviewOf, IsOpenDisputeOf, SkippingFlags, FullFlags, RunSite, RaiseDispute, WriteReview, ValidNote, ValidReviewInput;
    var start := Site(EMPTY_WORLD, Board(map[], standings), map[]);
    EmptyWorldJoint();
    assert SiteSound(start);
    RunSiteSound(start, clearingDays, calls);
    var s := RunSite(start, clearingDays, calls);
    SkippingIsHarmless(s, booking, viewer, f);
    FlagsEqualWritePaths(s, booking, viewer, f, reason, disputeId, rating, comment, reviewId);
  }
}
