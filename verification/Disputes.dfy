/**
  Reviews and disputes over a booking: the guarded writes of
  backend/internal/reviews/service.go and backend/internal/disputes, as functions on the
  tables and as the services that perform them.
*/
module Disputes {
  import opened Options
  import opened Tables
  import opened Money
  import opened BookingRules
  import opened Ratings
  import opened Repository
  import opened Bookings
  import Text

  datatype DisputeStatus = Open | Resolved | Rejected

  datatype Dispute = Dispute(
    booking: Id, raisedBy: Id, reason: string, status: DisputeStatus, resolution: string, resolvedBy: Option<Id>)

  datatype SiteError =
    | BadInput | NoSuchBooking | NotTheStudent | NotCompleted | AlreadyReviewed
    | NotParticipant | NotDisputable | DisputeExists | NoSuchDispute | AlreadyResolved

  /** Longest comment, reason and resolution, in characters. */
  const MAX_TEXT: nat := 2000

  // --- reviewing ---------------------------------------------------------------------

  predicate ValidReviewInput(rating: int, comment: string) {
    1 <= rating <= 5 && |Text.TrimSpace(comment)| <= MAX_TEXT
  }

  /** What `Create` checks, in order, and the review it would insert. */
  function ReviewVerdict(db: Db, reviews: map<Id, Review>, caller: Id, booking: Id, rating: int, comment: string)
    : Result<Review, SiteError>
  {
    if !ValidReviewInput(rating, comment) then Err(BadInput)
    else if booking !in db.bookings then Err(NoSuchBooking)
    else
      var b := db.bookings[booking];
      if b.student != caller then Err(NotTheStudent)
      else if b.status != Completed then Err(NotCompleted)
      else if Reviewed(reviews, booking) then Err(AlreadyReviewed)
      else Ok(Review(b.teacher, b.student, Some(booking), rating, Text.TrimSpace(comment), false))
  }

  ghost function WriteReview(db: Db, board: Board, caller: Id, booking: Id, rating: int, comment: string, id: Id)
    : (Board, Option<SiteError>)
  {
    match ReviewVerdict(db, board.reviews, caller, booking, rating, comment)
    case Err(e) => (board, Some(e))
    case Ok(r) => (Insert(board, id, r).0, None)
  }

  class ReviewService {
    const repo: ReviewRepository
    const store: Store

    constructor (repo: ReviewRepository, store: Store)
      ensures this.repo == repo && this.store == store
    {
      this.repo := repo;
      this.store := store;
    }

    /** `Create`: one review per booking, by its student, once completed. */
    method Create(caller: Id, booking: Id, rating: int, comment: string, id: Id) returns (err: Option<SiteError>)
      requires id !in repo.reviews
      modifies repo
      ensures (repo.Contents(), err) == WriteReview(store.Tables(), old(repo.Contents()), caller, booking, rating, comment, id)
    {
      var text := Text.TrimSpace(comment);
      if rating < 1 || rating > 5 {
        return Some(BadInput);
      }
      if |text| > MAX_TEXT {
        return Some(BadInput);
      }
      if booking !in store.bookings {
        return Some(NoSuchBooking);
      }
      var b := store.bookings[booking];
      if b.student != caller {
        return Some(NotTheStudent);
      }
      if b.status != Completed {
        return Some(NotCompleted);
      }
      var inserted := repo.CreateReview(id, Review(b.teacher, b.student, Some(booking), rating, text, false));
      if !inserted {
        return Some(AlreadyReviewed);
      }
      return None;
    }
  }

  // --- disputing -----------------------------------------------------------------------

  predicate HasOpen(disputes: map<Id, Dispute>, booking: Id) {
    exists id :: id in disputes && disputes[id].booking == booking && disputes[id].status == Open
  }

  predicate ValidNote(note: string) {
    var trimmed := Text.TrimSpace(note);
    trimmed != "" && |trimmed| <= MAX_TEXT
  }

  predicate Disputable(b: Booking) {
    b.status == Confirmed || b.status == Completed
  }

  /** What `Raise` checks, in order, and the dispute it would insert. */
  function RaiseVerdict(db: Db, disputes: map<Id, Dispute>, caller: Id, booking: Id, reason: string)
    : Result<Dispute, SiteError>
  {
    if !ValidNote(reason) then Err(BadInput)
    else if booking !in db.bookings then Err(NoSuchBooking)
    else
      var b := db.bookings[booking];
      if !Participant(db, b, caller) then Err(NotParticipant)
      else if !Disputable(b) then Err(NotDisputable)
      else if HasOpen(disputes, booking) then Err(DisputeExists)
      else Ok(Dispute(booking, caller, Text.TrimSpace(reason), Open, "", None))
  }

  function RaiseDispute(db: Db, disputes: map<Id, Dispute>, caller: Id, booking: Id, reason: string, id: Id)
    : (map<Id, Dispute>, Option<SiteError>)
  {
    match RaiseVerdict(db, disputes, caller, booking, reason)
    case Err(e) => (disputes, Some(e))
    case Ok(d) => (disputes[id := d], None)
  }

  function OutcomeOf(outcome: string): Option<DisputeStatus> {
    var trimmed := Text.TrimSpace(outcome);
    if trimmed == "resolved" then Some(Resolved) else if trimmed == "rejected" then Some(Rejected) else None
  }

  /** The status-guarded update, told apart from an unknown id by a second read. */
  function Close(disputes: map<Id, Dispute>, id: Id, status: DisputeStatus, note: string, admin: Id)
    : (map<Id, Dispute>, Option<SiteError>)
  {
    if id !in disputes then (disputes, Some(NoSuchDispute))
    else if disputes[id].status != Open then (disputes, Some(AlreadyResolved))
    else (disputes[id := disputes[id].(status := status, resolution := note, resolvedBy := Some(admin))], None)
  }

  /** `Resolve`: close, then refund if the outcome asks for it; a failing refund is only logged. */
  function ResolveDispute(w: World, disputes: map<Id, Dispute>, clearingDays: nat, now: int, admin: Id, id: Id,
                   outcome: string, note: string, refund: bool): (World, map<Id, Dispute>, Option<SiteError>)
  {
    var status := OutcomeOf(outcome);
    if status.None? || !ValidNote(note) then (w, disputes, Some(BadInput))
    else
      var (closed, err) := Close(disputes, id, status.value, Text.TrimSpace(note), admin);
      if err.Some? then (w, disputes, err)
      else if status.value == Resolved && refund
      then (AdminRefund(w, clearingDays, now, closed[id].booking).0, closed, None)
      else (w, closed, None)
  }

  /** The disputes table and its two writes. */
  class DisputeRepository {
    var disputes: map<Id, Dispute>

    constructor ()
      ensures disputes == map[]
    {
      disputes := map[];
    }

    /** InsertDispute: the partial unique index allows one open dispute per booking. */
    method Create(id: Id, d: Dispute) returns (inserted: bool)
      requires id !in disputes && d.status == Open
      modifies this
      ensures inserted == !HasOpen(old(disputes), d.booking)
      ensures disputes == if inserted then old(disputes)[id := d] else old(disputes)
    {
      if HasOpen(disputes, d.booking) {
        return false;
      }
      disputes := disputes[id := d];
      return true;
    }

    method Resolve(id: Id, status: DisputeStatus, note: string, admin: Id) returns (err: Option<SiteError>)
      modifies this
      ensures (disputes, err) == Close(old(disputes), id, status, note, admin)
    {
      if id in disputes && disputes[id].status == Open {
        disputes := disputes[id := disputes[id].(status := status, resolution := note, resolvedBy := Some(admin))];
        return None;
      }
      if id !in disputes {
        return Some(NoSuchDispute);
      }
      return Some(AlreadyResolved);
    }
  }

  class DisputeService {
    const repo: DisputeRepository
    const bookings: BookingService

    constructor (repo: DisputeRepository, bookings: BookingService)
      ensures this.repo == repo && this.bookings == bookings
    {
      this.repo := repo;
      this.bookings := bookings;
    }

    method Raise(caller: Id, booking: Id, reason: string, id: Id) returns (err: Option<SiteError>)
      requires bookings.Wired() && id !in repo.disputes
      modifies repo
      ensures (repo.disputes, err) == RaiseDispute(bookings.store.Tables(), old(repo.disputes), caller, booking, reason, id)
    {
      var text := Text.TrimSpace(reason);
      if text == "" {
        return Some(BadInput);
      }
      if |text| > MAX_TEXT {
        return Some(BadInput);
      }
      var store := bookings.store;
      if booking !in store.bookings {
        return Some(NoSuchBooking);
      }
      var b := store.bookings[booking];
      var owner := if b.teacher in store.teachers then store.teachers[b.teacher].owner else NIL_ID;
      if !(b.student == caller || (owner != NIL_ID && owner == caller)) {
        return Some(NotParticipant);
      }
      if b.status != Confirmed && b.status != Completed {
        return Some(NotDisputable);
      }
      var inserted := repo.Create(id, Dispute(booking, caller, text, Open, "", None));
      if !inserted {
        return Some(DisputeExists);
      }
      return None;
    }

    method Resolve(now: int, admin: Id, id: Id, outcome: string, note: string, refund: bool) returns (err: Option<SiteError>)
      requires bookings.Wired()
      modifies repo, bookings.payments.provider, bookings.store
      ensures (bookings.World(), repo.disputes, err)
           == ResolveDispute(old(bookings.World()), old(repo.disputes), bookings.clearingDays, now, admin, id, outcome, note, refund)
    {
      var status := OutcomeOf(outcome);
      if status.None? {
        return Some(BadInput);
      }
      var text := Text.TrimSpace(note);
      if text == "" || |text| > MAX_TEXT {
        return Some(BadInput);
      }
      var failure := repo.Resolve(id, status.value, text, admin);
      if failure.Some? {
        return failure;
      }
      if status.value == Resolved && refund {
        var logged := bookings.AdminRefund(now, repo.disputes[id].booking);
      }
      return None;
    }
  }
}
