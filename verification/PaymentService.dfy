/**
  The payments service and the in-memory provider behind it
  (backend/internal/payments/service.go, fake_provider.go).  The provider's sink is the
  service's own webhook entry, so every provider call runs the exactly-once path.
*/
module Payments {
  import opened Options
  import opened Tables
  import opened Webhooks
  import opened Money
  import opened Repository

  /** `HandleWebhook` and `Emit`. */
  class WebhookEntry {
    const store: Store
    const clearingDays: nat

    constructor (store: Store, clearingDays: nat)
      ensures this.store == store && this.clearingDays == clearingDays
    {
      this.store := store;
      this.clearingDays := clearingDays;
    }

    method HandleWebhook(now: int, e: Event) returns (err: Option<Error>)
      modifies store
      ensures (store.Tables(), err) == Money.HandleWebhook(old(store.Tables()), clearingDays, now, e)
    {
      if e.id == Text("") {
        return Some(WebhookRefused);
      }
      if e.kind == EvUnknown {
        return Some(WebhookRefused);
      }
      if e.payment == NIL_ID {
        return Some(WebhookRefused);
      }
      var outcome := store.ApplyEvent(clearingDays, now, e);
      return if outcome == UnknownPayment then Some(PaymentNotFound) else None;
    }
  }

  /** The deterministic provider: numbered references, each remembering its token and payment. */
  class FakeProvider {
    const sink: WebhookEntry
    var seqNo: nat
    var tokenByRef: map<ProviderRef, string>
    var paymentByRef: map<ProviderRef, Id>
    var captureTried: set<ProviderRef>

    function Memory(): Provider
      reads this
    {
      Provider(seqNo, tokenByRef, paymentByRef, captureTried)
    }

    function World(): World
      reads this, sink.store
    {
      Money.World(sink.store.Tables(), Memory())
    }

    constructor (sink: WebhookEntry)
      ensures this.sink == sink && Memory() == Provider(0, map[], map[], {})
    {
      this.sink := sink;
      seqNo, tokenByRef, paymentByRef, captureTried := 0, map[], map[], {};
    }

    method NextRef() returns (ref: ProviderRef)
      modifies this`seqNo
      ensures seqNo == old(seqNo) + 1 && ref == Fake(seqNo)
    {
      seqNo := seqNo + 1;
      return Fake(seqNo);
    }

    method Authorize(now: int, payment: Id, token: string) returns (r: Result<ProviderRef, Error>)
      modifies this, sink.store
      ensures (World(), r) == ProviderAuthorize(old(World()), sink.clearingDays, now, payment, token)
    {
      if token == PM_DECLINE {
        var err := sink.HandleWebhook(now, DeclineEvent(payment));
        if err.Some? {
          return Err(err.value);
        }
        return Err(Declined);
      }
      var ref := NextRef();
      tokenByRef := tokenByRef[ref := token];
      paymentByRef := paymentByRef[ref := payment];
      var err := sink.HandleWebhook(now, RefEvent(ref.seqNo, EvAuthorized, payment));
      if err.Some? {
        return Err(err.value);
      }
      return Ok(ref);
    }

    method Capture(now: int, ref: ProviderRef) returns (err: Option<Error>)
      modifies this, sink.store
      ensures (World(), err) == ProviderCapture(old(World()), sink.clearingDays, now, ref)
    {
      var firstTry := ref !in captureTried;
      captureTried := captureTried + {ref};
      if ref !in tokenByRef || ref !in paymentByRef || !ref.Fake? {
        return Some(ProviderFailure);
      }
      if tokenByRef[ref] == PM_CAPTURE_FAIL && firstTry {
        return Some(ProviderFailure);
      }
      err := sink.HandleWebhook(now, RefEvent(ref.seqNo, EvCaptured, paymentByRef[ref]));
    }

    method Refund(now: int, ref: ProviderRef) returns (err: Option<Error>)
      modifies this, sink.store
      ensures (World(), err) == ProviderRefund(old(World()), sink.clearingDays, now, ref)
    {
      if ref !in tokenByRef || ref !in paymentByRef || !ref.Fake? {
        return Some(ProviderFailure);
      }
      err := sink.HandleWebhook(now, RefEvent(ref.seqNo, EvRefunded, paymentByRef[ref]));
    }
  }

  /** The money rules: each call reads the status, drives the provider and leaves the rows it changed. */
  class PaymentService {
    const provider: FakeProvider
    const webhooks: WebhookEntry
    const store: Store

    ghost predicate Wired() {
      provider.sink == webhooks && webhooks.store == store
    }

    function World(): World
      reads provider, provider.sink.store
    {
      provider.World()
    }

    constructor (provider: FakeProvider)
      ensures Wired() && this.provider == provider && webhooks == provider.sink && store == provider.sink.store
    {
      this.provider := provider;
      webhooks := provider.sink;
      store := provider.sink.store;
    }

    method Authorize(now: int, booking: Id, token: string) returns (err: Option<Error>)
      requires Wired()
      modifies provider, store
      ensures (World(), err) == Money.Authorize(old(World()), webhooks.clearingDays, now, booking, token)
    {
      if booking !in store.payments {
        return Some(PaymentNotFound);
      }
      match store.payments[booking].status {
        case Authorized => return Some(AlreadyPaid);
        case Captured => return Some(AlreadyPaid);
        case Refunded => return Some(NotPayable);
        case RequiresPayment =>
        case Failed =>
      }
      var r := provider.Authorize(now, booking, token);
      if r.Err? {
        return Some(r.error);
      }
      return None;
    }

    method Capture(now: int, booking: Id) returns (err: Option<Error>)
      requires Wired()
      modifies provider, store
      ensures (World(), err) == Money.Capture(old(World()), webhooks.clearingDays, now, booking)
    {
      if booking !in store.payments {
        return Some(PaymentNotFound);
      }
      var p := store.payments[booking];
      if p.status == Captured {
        return None;
      }
      if p.status != Authorized {
        return Some(NotPayable);
      }
      var failure := provider.Capture(now, p.ref);
      if failure.Some? {
        return Some(CaptureFailed);
      }
      return None;
    }

    method Refund(now: int, booking: Id) returns (err: Option<Error>)
      requires Wired()
      modifies provider, store
      ensures (World(), err) == Money.Refund(old(World()), webhooks.clearingDays, now, booking)
    {
      if booking !in store.payments {
        return None;
      }
      var p := store.payments[booking];
      match p.status {
        case Refunded => return None;
        case RequiresPayment => err := webhooks.HandleWebhook(now, VoidEvent(booking));
        case Failed => err := webhooks.HandleWebhook(now, VoidEvent(booking));
        case Authorized => err := provider.Refund(now, p.ref);
        case Captured => err := provider.Refund(now, p.ref);
      }
    }
  }
}
