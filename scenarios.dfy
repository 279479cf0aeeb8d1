/** Sequences of handler calls on one store, and what they add up to. */
module Scenarios {
  import opened Wrappers
  import opened Pricing
  import opened Resi
  import opened Records
  import opened Settlement

  /** Cancelling a freshly created shipment refunds exactly what creating
      it charged: the caller's account is back where it started and the
      shipment is `canceled`. */
  method CreateThenCancel(s: Store, caller: nat, form: ShipmentForm, uploads: Uploads, timestamp: string, random: nat)
    returns (created: Result<Created, Failure>, refunded: Option<Result<real, Failure>>)
    requires s.Valid() && caller in s.users && random < 1000
    modifies s
    ensures s.Valid()
    ensures created.Err? ==> refunded.None? && s.Snapshot() == old(s.Snapshot())
    ensures created.Ok? ==>
      && refunded == Some(Ok(created.value.total))
      && caller in s.users && s.users[caller] == old(s.users[caller])
      && created.value.id in s.transactions && s.transactions[created.value.id].status == Canceled
      && LatestStatus(s.tracking, created.value.id) == Some(Canceled)
  {
    ghost var before := s.Snapshot();
    created := s.CreateTransaction(caller, form, uploads, timestamp, random);
    if created.Err? {
      return created, None;
    }
    ghost var resi := GenerateResi(timestamp, random);
    ghost var a := Admission(before, caller, form, resi);
    RefundUndoesDebit(before, NewShipment(caller, resi, form, a.value, uploads));
    var r := s.Cancel(created.value.id);
    refunded := Some(r);
  }

  /** A second cancellation of the same shipment is refused and changes nothing. */
  method CancelTwice(s: Store, id: nat) returns (first: Result<real, Failure>, second: Result<real, Failure>)
    requires s.Valid()
    modifies s
    ensures s.Valid()
    ensures first.Ok? ==> second == Err(InvalidStatus)
    ensures second.Err?
  {
    first := s.Cancel(id);
    second := s.Cancel(id);
  }

  /** The manual status route accepts `pending` for a canceled shipment, and
      the cancel route then refunds its total a second time. */
  method RequeueRefundsAgain(s: Store, id: nat) returns (first: Result<real, Failure>, second: Option<Result<real, Failure>>)
    requires s.Valid()
    modifies s
    ensures s.Valid()
    ensures first.Ok? ==>
      && id in old(s.transactions)
      && var t := old(s.transactions)[id];
      && second == Some(Ok(t.total))
      && t.owner in s.users
      && s.users[t.owner].balance == old(s.users[t.owner].balance) + 2.0 * t.total
      && id in s.transactions && s.transactions[id].status == Canceled
  {
    first := s.Cancel(id);
    if first.Err? {
      return first, None;
    }
    var requeued := s.SetStatus(id, Pending);
    var r := s.Cancel(id);
    second := Some(r);
  }

  /** Approving the same top-up twice credits its amount twice. */
  method ApproveTwice(s: Store, topupId: nat) returns (first: Result<(), Failure>, second: Result<(), Failure>)
    requires s.Valid()
    modifies s
    ensures s.Valid()
    ensures topupId in old(s.topups) <==> first.Ok?
    ensures first.Ok? ==>
      && second.Ok?
      && var t := old(s.topups)[topupId];
      && topupId in s.topups && s.topups[topupId].status == Approved
      && (t.userId in old(s.users) ==> t.userId in s.users && s.users[t.userId].balance == old(s.users[t.userId].balance) + 2.0 * t.amount)
  {
    first := s.SetTopupStatus(topupId, Approved, "");
    second := s.SetTopupStatus(topupId, Approved, "");
  }

  /** An admin subtraction undoes an addition of the same amount. */
  method AddThenSubtract(s: Store, userId: nat, amount: real) returns (added: Result<(), Failure>, subtracted: Result<(), Failure>)
    requires s.Valid() && amount != 0.0
    modifies s
    ensures s.Valid()
    ensures userId in old(s.users) <==> added.Ok?
    ensures added.Ok? ==> subtracted.Ok? && s.Snapshot() == old(s.Snapshot())
    ensures added.Err? ==> added == Err(NotFound) && subtracted == Err(NotFound)
  {
    added := s.AdjustBalance(userId, Number(amount), "add");
    subtracted := s.AdjustBalance(userId, Number(amount), "subtract");
  }

  /** Nothing stops an admin subtraction from taking a balance below zero. */
  method Overdraw(s: Store, userId: nat, amount: real) returns (r: Result<(), Failure>)
    requires s.Valid() && userId in s.users && 0.0 <= s.users[userId].balance < amount
    modifies s
    ensures s.Valid()
    ensures r.Ok? && userId in s.users && s.users[userId].balance < 0.0
  {
    r := s.AdjustBalance(userId, Number(amount), "subtract");
  }

  /** Editing a pending shipment reprices it at its stored unit rates
      without touching the owner's balance, so a later cancellation
      refunds the new total rather than the amount debited at creation. */
  method EditThenCancel(s: Store, id: nat, form: ShipmentForm, uploads: Uploads)
    returns (edited: Result<(), Failure>, refunded: Option<Result<real, Failure>>)
    requires s.Valid()
    modifies s
    ensures s.Valid()
    ensures edited.Ok? <==> FormComplete(form) && id in old(s.transactions)
    ensures edited.Ok? && old(s.transactions)[id].status == Pending ==>
      var t, d := old(s.transactions)[id], DimensionsOf(form);
      var total := ChargeFor(d.weight, VolumetricWeight(d), t.perKg, t.perVolume);
      && refunded == Some(Ok(total))
      && t.owner in s.users
      && s.users[t.owner].balance == old(s.users[t.owner].balance) + total
  {
    edited := s.EditTransaction(id, form, uploads);
    if edited.Err? {
      return edited, None;
    }
    var r := s.Cancel(id);
    refunded := Some(r);
  }
}
