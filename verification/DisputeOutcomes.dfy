/**
  Exactly when reviewing, raising and resolving succeed, and what each leaves behind
  (backend/internal/reviews/service.go, backend/internal/disputes/service.go).
*/
module DisputeOutcomes {
  import opened Options
  import opened Tables
  import opened Money
  import opened BookingRules
  import opened Lifecycle
  import opened CallOutcomes
  import opened Ratings
  import opened Disputes
  import opened Annotations
  import opened Refusals
  import Text

  /**
    A review is accepted exactly from the student of a completed, unreviewed booking with
    valid input; then it stands once, visible, and counts for the teacher.
  */
  lemma ReviewOutcome(db: Db, board: Board, caller: Id, booking: Id, rating: int, comment: string, id: Id)
    requires id !in board.reviews
    ensures var (after, err) := WriteReview(db, board, caller, booking, rating, comment, id);
            && (err == None <==>
                  && ValidReviewInput(rating, comment)
                  && booking in db.bookings && db.bookings[booking].student == caller && db.bookings[booking].status == Completed
                  && forall k :: k in board.reviews ==> board.reviews[k].booking != Some(booking))
            && (err == None ==>
                  var t := db.bookings[booking].teacher;
                  && after.reviews == board.reviews[id := Review(t, caller, Some(booking), rating, Text.TrimSpace(comment), false)]
                  && id in Counted(after.reviews, t)
                  && after.standings.Keys == board.standings.Keys
                  && (forall k :: k in board.standings && k != t ==> after.standings[k] == board.standings[k])
                  && (t in board.standings ==> after.standings[t] == Defined(after.reviews, t, board.standings[t])))
            && (err != None ==> after == board)
  {
    hide Defined, Text.TrimSpace;
  }

  /**
    A dispute is raised exactly by a participant of a confirmed or completed booking without
    an open one, with a valid reason; then it is the booking's open dispute.
  */
  lemma RaiseOutcome(db: Db, disputes: map<Id, Dispute>, caller: Id, booking: Id, reason: string, id: Id)
    requires id !in disputes
    ensures var (after, err) := RaiseDispute(db, disputes, caller, booking, reason, id);
            && (err == None <==>
                  && ValidNote(reason) && booking in db.bookings
                  && (db.bookings[booking].student == caller || OwnsLesson(db, db.bookings[booking], caller))
                  && db.bookings[booking].status in {Confirmed, Completed}
                  && forall k :: k in disputes && disputes[k].booking == booking ==> disputes[k].status != Open)
            && (err == None ==>
                  && after == disputes[id := Dispute(booking, caller, Text.TrimSpace(reason), Open, "", None)]
                  && HasOpen(after, booking)
                  && (OneOpenPerBooking(disputes) ==> OneOpenPerBooking(after)))
            && (err != None ==> after == disputes)
  {
    hide ValidNote, Text.TrimSpace;
    var (after, err) := RaiseDispute(db, disputes, caller, booking, reason, id);
    if err == None {
      assert id in after && after[id].booking == booking && after[id].status == Open;
    }
  }

  /**
    A dispute is resolved exactly once, with a known outcome and a note.  The decision is
    recorded whatever the refund does; a refund happens only for a resolved outcome that
    asks for it, returns the money and leaves every booking row alone; and the booking can
    be disputed again.
  */
  lemma ResolveOutcome(s: Site, clearingDays: nat, now: int, admin: Id, id: Id, outcome: string, note: string, refund: bool)
    requires SiteSound(s)
    ensures var (w, after, err) := ResolveDispute(s.world, s.disputes, clearingDays, now, admin, id, outcome, note, refund);
            && (err == None <==>
                  && Text.TrimSpace(outcome) in {"resolved", "rejected"} && ValidNote(note)
                  && id in s.disputes && s.disputes[id].status == Open)
            && (err == None ==>
                  && after == s.disputes[id := s.disputes[id].(
                       status := if Text.TrimSpace(outcome) == "resolved" then Resolved else Rejected,
                       resolution := Text.TrimSpace(note), resolvedBy := Some(admin))]
                  && !HasOpen(after, s.disputes[id].booking)
                  && w.db.bookings == s.world.db.bookings
                  && (if refund && Text.TrimSpace(outcome) == "resolved"
                      then MoneyReturned(s.world.db, w.db, s.disputes[id].booking) else w == s.world))
            && (err != None ==> w == s.world && after == s.disputes)
  {
    hide Joint, AdminRefund, MoneyReturned, ValidNote, Text.TrimSpace;
    if id in s.disputes {
      var d := s.disputes[id];
      assert DisputeFits(s.world.db, d);
      AdminRefundOutcome(s.world, clearingDays, now, d.booking);
      assert d.status == Open ==>
        forall k :: k in s.disputes && k != id && s.disputes[k].status == Open ==> s.disputes[k].booking != d.booking;
    }
  }

  // --- refusals ------------------------------------------------------------------------------------

  /** Why a review is refused, in order. */
  lemma ReviewRefusals(db: Db, board: Board, caller: Id, booking: Id, rating: int, comment: string, id: Id)
    ensures WriteReview(db, board, caller, booking, rating, comment, id).1
         == (if rating !in {1, 2, 3, 4, 5} || |Text.TrimSpace(comment)| > 2000 then Some(BadInput)
             else if booking !in db.bookings then Some(NoSuchBooking)
             else if db.bookings[booking].student != caller then Some(NotTheStudent)
             else if db.bookings[booking].status in {PendingPayment, Confirmed, Cancelled} then Some(NotCompleted)
             else if exists k :: k in board.reviews && board.reviews[k].booking == Some(booking) then Some(AlreadyReviewed)
             else None)
  {
    hide Defined, Text.TrimSpace;
  }

  /** Why a dispute is refused, in order. */
  lemma RaiseRefusals(db: Db, disputes: map<Id, Dispute>, caller: Id, booking: Id, reason: string, id: Id)
    ensures RaiseDispute(db, disputes, caller, booking, reason, id).1
         == (if !(1 <= |Text.TrimSpace(reason)| <= 2000) then Some(BadInput)
             else if booking !in db.bookings then Some(NoSuchBooking)
             else if db.bookings[booking].student != caller && !Teaches(db, db.bookings[booking], caller) then Some(NotParticipant)
             else if db.bookings[booking].status in {PendingPayment, Cancelled} then Some(NotDisputable)
             else if exists k :: k in disputes && disputes[k].booking == booking && disputes[k].status == Open then Some(DisputeExists)
             else None)
  {
    hide Text.TrimSpace;
  }

  /** Why a resolution is refused, in order. */
  lemma ResolveRefusals(w: World, disputes: map<Id, Dispute>, clearingDays: nat, now: int, admin: Id, id: Id,
                        outcome: string, note: string, refund: bool)
    ensures ResolveDispute(w, disputes, clearingDays, now, admin, id, outcome, note, refund).2
         == (if Text.TrimSpace(outcome) !in {"resolved", "rejected"} || !(1 <= |Text.TrimSpace(note)| <= 2000) then Some(BadInput)
             else if id !in disputes then Some(NoSuchDispute)
             else if disputes[id].status in {Resolved, Rejected} then Some(AlreadyResolved)
             else None)
  {
    hide Text.TrimSpace, AdminRefund;
  }
}
