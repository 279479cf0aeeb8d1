/** The settlement workflow: the route handlers that change the store.
    Each handler either writes nothing or commits all of its writes, in a
    single statement or in one database transaction, so every method here
    leaves the store exactly as it was when it returns `Err`, and applies
    all of its writes when it returns `Ok`. */
module Settlement {
  import opened Wrappers
  import opened Pricing
  import opened Resi
  import opened Records

  /** All tables at once, to state what a handler leaves unchanged. */
  datatype Tables = Tables(
    users: map<nat, User>,
    prices: map<nat, Price>,
    tiers: map<nat, seq<Tier>>,
    topups: map<nat, Topup>,
    transactions: map<nat, Shipment>,
    tracking: seq<TrackingEntry>,
    nextPriceId: nat,
    nextTxId: nat,
    nextEntryId: nat)

  /** `balance + amount` */
  function Credit(u: User, amount: real): User {
    u.(balance := u.balance + amount)
  }

  /** Locate the price of a complete request and charge it: "Price not
      available" when there is no row for (destination, category), "No
      pricing tier found" when the tiered query finds nothing. */
  function ChargeForForm(prices: map<nat, Price>, tiers: map<nat, seq<Tier>>, role: Role, f: ShipmentForm)
    : (r: Result<Charge, Failure>)
    requires UniquePriceKeys(prices) && prices.Keys <= tiers.Keys && FormComplete(f)
    ensures r == Err(PriceNotAvailable) <==> LookupPrice(prices, f.party.destination, f.party.category).None?
    ensures r.Err? ==> r.error == PriceNotAvailable || r.error == NoPricingTierFound
    ensures r == Err(NoPricingTierFound) <==>
      var pid := LookupPrice(prices, f.party.destination, f.party.category);
      pid.Some? && Quote(prices[pid.value], tiers[pid.value], role, DimensionsOf(f)).None?
    ensures r.Ok? ==>
      var pid := LookupPrice(prices, f.party.destination, f.party.category).value;
      Quote(prices[pid], tiers[pid], role, DimensionsOf(f)) == Some(r.value)
  {
    match LookupPrice(prices, f.party.destination, f.party.category)
    case None => Err(PriceNotAvailable)
    case Some(pid) =>
      match Quote(prices[pid], tiers[pid], role, DimensionsOf(f))
      case None => Err(NoPricingTierFound)
      case Some(c) => Ok(c)
  }

  /** The keys and foreign keys the schema enforces: unique (country,
      category) and resi, ids below their AUTO_INCREMENT counters, distinct
      tracking ids, and every owner and tracked shipment present. */
  ghost predicate Consistent(t: Tables) {
    && UniquePriceKeys(t.prices)
    && t.prices.Keys == t.tiers.Keys
    && (forall id :: id in t.prices ==> id < t.nextPriceId)
    && (forall id :: id in t.transactions ==> id < t.nextTxId)
    && UniqueResi(t.transactions)
    && (forall id :: id in t.transactions ==> t.transactions[id].owner in t.users)
    && DistinctEntryIds(t.tracking)
    && (forall i :: 0 <= i < |t.tracking| ==> t.tracking[i].id < t.nextEntryId && t.tracking[i].txId in t.transactions)
  }

  /** The record the create handler inserts: the request's parcel data,
      the charge, the uploaded file names, status `pending` and no carrier. */
  function NewShipment(caller: nat, resi: string, form: ShipmentForm, charge: Charge, uploads: Uploads): Shipment
    requires FormComplete(form)
  {
    Shipment(caller, resi, form.party, DimensionsOf(form), charge.volume, charge.perKg, charge.perVolume,
      charge.total, uploads, Pending, None, "")
  }

  /** The tables after the create handler's database transaction commits:
      the shipment under the next id, its owner debited by its total, and
      its first tracking entry under the next entry id. */
  function Inserted(t: Tables, s: Shipment): Tables
    requires s.owner in t.users
  {
    t.(transactions := t.transactions[t.nextTxId := s],
       users := t.users[s.owner := Credit(t.users[s.owner], -s.total)],
       tracking := t.tracking + [TrackingEntry(t.nextEntryId, t.nextTxId, Pending, RegisteredNote)],
       nextTxId := t.nextTxId + 1,
       nextEntryId := t.nextEntryId + 1)
  }

  /** Inserting a shipment whose resi is not in use keeps the keys. */
  lemma InsertedConsistent(t: Tables, s: Shipment)
    requires Consistent(t) && s.owner in t.users
    requires forall id :: id in t.transactions ==> t.transactions[id].resi != s.resi
    ensures Consistent(Inserted(t, s))
  {
  }

  /** A shipment row rewritten and one tracking entry for it appended under
      the next entry id, as the expedition, tracking and cancel handlers do. */
  function Logged(t: Tables, id: nat, s: Shipment, status: string, note: string): Tables {
    t.(transactions := t.transactions[id := s],
       tracking := t.tracking + [TrackingEntry(t.nextEntryId, id, status, note)],
       nextEntryId := t.nextEntryId + 1)
  }

  /** Rewriting a shipment without touching its owner or resi, and logging
      it, keeps the keys. */
  lemma LoggedConsistent(t: Tables, id: nat, s: Shipment, status: string, note: string)
    requires Consistent(t) && id in t.transactions
    requires s.owner == t.transactions[id].owner && s.resi == t.transactions[id].resi
    ensures Consistent(Logged(t, id, s, status, note))
    ensures LatestStatus(Logged(t, id, s, status, note).tracking, id) == Some(status)
  {
    LatestAfterAppend(t.tracking, TrackingEntry(t.nextEntryId, id, status, note), id);
  }

  /** The tables after the cancel handler's database transaction commits:
      the shipment `canceled`, its owner credited its stored total, and a
      `canceled` entry appended to the log. */
  function Refunded(t: Tables, id: nat): Tables
    requires id in t.transactions && t.transactions[id].owner in t.users
  {
    var s := t.transactions[id];
    Logged(t, id, s.(status := Canceled), Canceled, CanceledNote).(
      users := t.users[s.owner := Credit(t.users[s.owner], s.total)])
  }

  /** Cancelling keeps the keys: no key field changes and the new entry's
      id is the next one. */
  lemma RefundedConsistent(t: Tables, id: nat)
    requires Consistent(t) && id in t.transactions
    ensures t.transactions[id].owner in t.users
    ensures Consistent(Refunded(t, id))
    ensures LatestStatus(Refunded(t, id).tracking, id) == Some(Canceled)
  {
    LoggedConsistent(t, id, t.transactions[id].(status := Canceled), Canceled, CanceledNote);
  }

  /** Cancelling the shipment just inserted gives every account back the
      balance it had before the insert, and leaves the shipment `canceled`
      as the newest status in the log. */
  lemma RefundUndoesDebit(t: Tables, s: Shipment)
    requires s.owner in t.users
    ensures t.nextTxId in Inserted(t, s).transactions
    ensures Refunded(Inserted(t, s), t.nextTxId).users == t.users
    ensures LatestStatus(Refunded(Inserted(t, s), t.nextTxId).tracking, t.nextTxId) == Some(Canceled)
  {
    var after := Refunded(Inserted(t, s), t.nextTxId);
    var u := t.users[s.owner];
    assert Credit(Credit(u, -s.total), s.total) == u;
    assert after.users == t.users;
    LatestAfterAppend(Inserted(t, s).tracking, after.tracking[|after.tracking| - 1], t.nextTxId);
  }

  /** The tables with price `id` set to row `p` and tier list `ts`, as the
      price create and update handlers leave them. */
  function Priced(t: Tables, id: nat, p: Price, ts: seq<Tier>): Tables {
    t.(prices := t.prices[id := p], tiers := t.tiers[id := ts])
  }

  /** Storing a price row whose (country, category) no other row holds keeps the keys. */
  lemma PricedConsistent(t: Tables, id: nat, p: Price, ts: seq<Tier>)
    requires Consistent(t) && (id in t.prices || id == t.nextPriceId)
    requires forall other :: other in t.prices && other != id ==> !HasKey(t.prices[other], p.country, p.category)
    ensures Consistent(Priced(t, id, p, ts).(nextPriceId := if id == t.nextPriceId then id + 1 else t.nextPriceId))
  {
  }

  /** The checks of the create handler, in its order, before anything is
      written: required fields, price row, tier, balance, and the storage's
      refusal of a resi already in use. `Ok` carries the charge. */
  function Admission(t: Tables, caller: nat, form: ShipmentForm, resi: string): (r: Result<Charge, Failure>)
    requires Consistent(t) && caller in t.users
    ensures !FormComplete(form) ==> r == Err(ValidationError)
    ensures FormComplete(form) ==>
      var c := ChargeForForm(t.prices, t.tiers, t.users[caller].role, form);
      && (c.Err? ==> r == Err(c.error))
      && (c.Ok? && t.users[caller].balance < c.value.total ==> r == Err(InsufficientBalance))
      && (c.Ok? && t.users[caller].balance >= c.value.total && FindByResi(t.transactions, resi).Some?
          ==> r == Err(DuplicateResi))
      && (c.Ok? && t.users[caller].balance >= c.value.total && FindByResi(t.transactions, resi).None?
          ==> r == c)
    ensures r.Ok? ==> t.users[caller].balance - r.value.total >= 0.0
  {
    if !FormComplete(form) then Err(ValidationError)
    else
      var user := t.users[caller];
      match ChargeForForm(t.prices, t.tiers, user.role, form)
      case Err(e) => Err(e)
      case Ok(charge) =>
        if user.balance < charge.total then Err(InsufficientBalance)
        else if FindByResi(t.transactions, resi).Some? then Err(DuplicateResi)
        else Ok(charge)
  }

  class Store {
    var users: map<nat, User>
    var prices: map<nat, Price>
    var tiers: map<nat, seq<Tier>>
    var topups: map<nat, Topup>
    var transactions: map<nat, Shipment>
    /** tracking_updates in insertion order */
    var tracking: seq<TrackingEntry>
    /** the next AUTO_INCREMENT ids */
    var nextPriceId: nat
    var nextTxId: nat
    var nextEntryId: nat

    function Snapshot(): Tables
      reads this
    {
      Tables(users, prices, tiers, topups, transactions, tracking, nextPriceId, nextTxId, nextEntryId)
    }

    /** The keys and foreign keys the schema enforces. */
    ghost predicate Valid()
      reads this
    {
      Consistent(Snapshot())
    }

    /** A store holding the given accounts and top-up requests and nothing else. */
    constructor (accounts: map<nat, User>, requests: map<nat, Topup>)
      ensures Valid()
      ensures Snapshot() == Tables(accounts, map[], map[], requests, map[], [], 0, 0, 0)
    {
      users, topups := accounts, requests;
      prices, tiers, transactions, tracking := map[], map[], map[], [];
      nextPriceId, nextTxId, nextEntryId := 0, 0, 0;
    }

    /** POST /api/transactions: price the parcel, check the balance, then
        insert the shipment, debit the caller and seed its tracking log. */
    method CreateTransaction(caller: nat, form: ShipmentForm, uploads: Uploads, timestamp: string, random: nat)
      returns (r: Result<Created, Failure>)
      requires Valid() && caller in users && random < 1000
      modifies this
      ensures Valid()
      ensures
        var resi := GenerateResi(timestamp, random);
        var a := Admission(old(Snapshot()), caller, form, resi);
        && (a.Err? ==> r == Err(a.error) && Snapshot() == old(Snapshot()))
        && (a.Ok? ==>
          && r == Ok(Created(old(nextTxId), resi, a.value.total))
          && Snapshot() == Inserted(old(Snapshot()), NewShipment(caller, resi, form, a.value, uploads)))
      ensures r.Ok? ==> r.value.id !in old(transactions) && users[caller].balance >= 0.0
      ensures r.Ok? ==> LatestStatus(tracking, r.value.id) == Some(Pending)
    {
      var resi := GenerateResi(timestamp, random);
      var a := Admission(Snapshot(), caller, form, resi);
      if a.Err? {
        return Err(a.error);
      }
      var charge := a.value;
      var id := nextTxId;
      Settle(NewShipment(caller, resi, form, charge, uploads));
      r := Ok(Created(id, resi, charge.total));
    }

    /** The body of the create handler's database transaction: insert the
        shipment, debit its owner by its total and log it as registered. */
    method Settle(s: Shipment)
      requires Valid() && s.owner in users && s.status == Pending
      requires forall id :: id in transactions ==> transactions[id].resi != s.resi
      modifies this
      ensures Valid()
      ensures Snapshot() == Inserted(old(Snapshot()), s)
      ensures LatestStatus(tracking, old(nextTxId)) == Some(Pending)
    {
      ghost var before := Snapshot();
      InsertedConsistent(before, s);
      var id := nextTxId;
      var entry := TrackingEntry(nextEntryId, id, Pending, RegisteredNote);
      transactions := transactions[id := s];
      users := users[s.owner := Credit(users[s.owner], -s.total)];
      tracking := tracking + [entry];
      nextTxId := nextTxId + 1;
      nextEntryId := nextEntryId + 1;
      assert Snapshot() == Inserted(before, s);
      LatestAfterAppend(before.tracking, entry, id);
    }

    /** PUT /api/transactions/:id/expedition: link the carrier, mark the
        shipment `dikirim` and log it, whatever its status was. */
    method AssignExpedition(id: nat, expeditionId: Option<nat>, expeditionResi: string)
      returns (r: Result<(), Failure>)
      requires Valid()
      modifies this
      ensures Valid()
      ensures expeditionId.None? || expeditionId == Some(0) || expeditionResi == "" ==> r == Err(ValidationError)
      ensures expeditionId.Some? && expeditionId.value != 0 && expeditionResi != "" && id !in old(transactions) ==>
        r == Err(NotFound)
      ensures expeditionId.Some? && expeditionId.value != 0 && expeditionResi != "" && id in old(transactions) ==> r.Ok?
      ensures r.Err? ==> Snapshot() == old(Snapshot())
      ensures r.Ok? ==>
        && id in old(transactions)
        && Snapshot() == Logged(old(Snapshot()), id, old(transactions)[id].(
          expeditionId := expeditionId, expeditionResi := expeditionResi, status := Shipped), Shipped, HandedOverNote)
      ensures r.Ok? ==> LatestStatus(tracking, id) == Some(transactions[id].status)
    {
      if expeditionId.None? || expeditionId.value == 0 || expeditionResi == "" {
        return Err(ValidationError);
      }
      if id !in transactions {
        return Err(NotFound);
      }
      ghost var before := Snapshot();
      var t := transactions[id].(expeditionId := expeditionId, expeditionResi := expeditionResi, status := Shipped);
      LoggedConsistent(before, id, t, Shipped, HandedOverNote);
      transactions := transactions[id := t];
      tracking := tracking + [TrackingEntry(nextEntryId, id, Shipped, HandedOverNote)];
      nextEntryId := nextEntryId + 1;
      assert Snapshot() == Logged(before, id, t, Shipped, HandedOverNote);
      r := Ok(());
    }

    /** PUT /api/transactions/:id/status: any of `pending`, `dikirim`,
        `sukses`, from any status, with no tracking entry. */
    method SetStatus(id: nat, status: string) returns (r: Result<(), Failure>)
      requires Valid()
      modifies this
      ensures Valid()
      ensures status != Pending && status != Shipped && status != Delivered ==> r == Err(ValidationError)
      ensures (status == Pending || status == Shipped || status == Delivered) && id !in old(transactions) ==>
        r == Err(NotFound)
      ensures (status == Pending || status == Shipped || status == Delivered) && id in old(transactions) ==> r.Ok?
      ensures r.Err? ==> Snapshot() == old(Snapshot())
      ensures r.Ok? ==>
        && id in old(transactions)
        && Snapshot() == old(Snapshot()).(
          transactions := old(transactions)[id := old(transactions)[id].(status := status)])
    {
      if status != Pending && status != Shipped && status != Delivered {
        return Err(ValidationError);
      }
      if id !in transactions {
        return Err(NotFound);
      }
      transactions := transactions[id := transactions[id].(status := status)];
      r := Ok(());
    }

    /** PUT /api/transactions/:id: rewrite the parcel data, recompute volume
        and total from the stored unit rates; status, owner, resi, carrier
        link and the owner's balance are untouched. */
    method EditTransaction(id: nat, form: ShipmentForm, uploads: Uploads) returns (r: Result<(), Failure>)
      requires Valid()
      modifies this
      ensures Valid()
      ensures !FormComplete(form) ==> r == Err(ValidationError)
      ensures FormComplete(form) && id !in old(transactions) ==> r == Err(NotFound)
      ensures FormComplete(form) && id in old(transactions) ==> r.Ok?
      ensures r.Err? ==> Snapshot() == old(Snapshot())
      ensures r.Ok? ==>
        && FormComplete(form) && id in old(transactions)
        && var t, d := old(transactions)[id], DimensionsOf(form);
        && var volume := VolumetricWeight(d);
        && Snapshot() == old(Snapshot()).(
          transactions := old(transactions)[id := t.(
            party := form.party, dims := d, volume := volume,
            total := ChargeFor(d.weight, volume, t.perKg, t.perVolume),
            uploads := MergeUploads(uploads, t.uploads))])
    {
      if !FormComplete(form) {
        return Err(ValidationError);
      }
      if id !in transactions {
        return Err(NotFound);
      }
      var t := transactions[id];
      var d := DimensionsOf(form);
      var volume := VolumetricWeight(d);
      transactions := transactions[id := t.(
        party := form.party, dims := d, volume := volume,
        total := ChargeFor(d.weight, volume, t.perKg, t.perVolume),
        uploads := MergeUploads(uploads, t.uploads))];
      r := Ok(());
    }

    /** PUT /api/transactions/:id/cancel: a pending shipment becomes
        `canceled`, its owner is credited its stored total, and the log
        says so; the refunded amount is returned. */
    method Cancel(id: nat) returns (r: Result<real, Failure>)
      requires Valid()
      modifies this
      ensures Valid()
      ensures id !in old(transactions) ==> r == Err(NotFound)
      ensures id in old(transactions) && old(transactions)[id].status != Pending ==> r == Err(InvalidStatus)
      ensures id in old(transactions) && old(transactions)[id].status == Pending ==> r.Ok?
      ensures r.Err? ==> Snapshot() == old(Snapshot())
      ensures r.Ok? ==>
        && id in old(transactions)
        && var t := old(transactions)[id];
        && t.status == Pending
        && r.value == t.total
        && t.owner in old(users)
        && Snapshot() == Refunded(old(Snapshot()), id)
      ensures r.Ok? ==> LatestStatus(tracking, id) == Some(Canceled)
    {
      if id !in transactions {
        return Err(NotFound);
      }
      var t := transactions[id];
      if t.status != Pending {
        return Err(InvalidStatus);
      }
      ghost var before := Snapshot();
      RefundedConsistent(before, id);
      transactions := transactions[id := t.(status := Canceled)];
      users := users[t.owner := Credit(users[t.owner], t.total)];
      tracking := tracking + [TrackingEntry(nextEntryId, id, Canceled, CanceledNote)];
      nextEntryId := nextEntryId + 1;
      assert Snapshot() == Refunded(before, id);
      r := Ok(t.total);
    }

    /** POST /api/tracking/:resi: append an entry and copy its status onto the shipment. */
    method AddTracking(resi: string, status: string, description: string) returns (r: Result<(), Failure>)
      requires Valid()
      modifies this
      ensures Valid()
      ensures status == "" || description == "" ==> r == Err(ValidationError)
      ensures status != "" && description != "" && FindByResi(old(transactions), resi).None? ==> r == Err(NotFound)
      ensures status != "" && description != "" && FindByResi(old(transactions), resi).Some? ==> r.Ok?
      ensures r.Err? ==> Snapshot() == old(Snapshot())
      ensures r.Ok? ==>
        && status != "" && description != ""
        && FindByResi(old(transactions), resi).Some?
        && var id := FindByResi(old(transactions), resi).value;
        && Snapshot() == Logged(old(Snapshot()), id, old(transactions)[id].(status := status), status, description)
        && LatestStatus(tracking, id) == Some(transactions[id].status)
    {
      if status == "" || description == "" {
        return Err(ValidationError);
      }
      var found := FindByResi(transactions, resi);
      if found.None? {
        return Err(NotFound);
      }
      var id := found.value;
      ghost var before := Snapshot();
      var t := transactions[id].(status := status);
      LoggedConsistent(before, id, t, status, description);
      tracking := tracking + [TrackingEntry(nextEntryId, id, status, description)];
      nextEntryId := nextEntryId + 1;
      transactions := transactions[id := t];
      assert Snapshot() == Logged(before, id, t, status, description);
      r := Ok(());
    }

    /** PUT /api/tracking/updates/:id: rewrite an entry in place. */
    method EditTrackingEntry(entryId: nat, status: string, description: string) returns (r: Result<(), Failure>)
      requires Valid()
      modifies this
      ensures Valid()
      ensures status == "" || description == "" ==> r == Err(ValidationError)
      ensures status != "" && description != "" && EntryIndex(old(tracking), entryId).None? ==> r == Err(NotFound)
      ensures status != "" && description != "" && EntryIndex(old(tracking), entryId).Some? ==> r.Ok?
      ensures r.Err? ==> Snapshot() == old(Snapshot())
      ensures r.Ok? ==>
        && EntryIndex(old(tracking), entryId).Some?
        && var i := EntryIndex(old(tracking), entryId).value;
        && Snapshot() == old(Snapshot()).(
          tracking := old(tracking)[i := old(tracking)[i].(status := status, description := description)])
    {
      if status == "" || description == "" {
        return Err(ValidationError);
      }
      var found := EntryIndex(tracking, entryId);
      if found.None? {
        return Err(NotFound);
      }
      var i := found.value;
      tracking := tracking[i := tracking[i].(status := status, description := description)];
      r := Ok(());
    }

    /** DELETE /api/tracking/updates/:id: remove an entry from the log. */
    method DeleteTrackingEntry(entryId: nat) returns (r: Result<(), Failure>)
      requires Valid()
      modifies this
      ensures Valid()
      ensures EntryIndex(old(tracking), entryId).None? <==> r == Err(NotFound)
      ensures r.Err? ==> Snapshot() == old(Snapshot())
      ensures r.Ok? ==>
        && EntryIndex(old(tracking), entryId).Some?
        && var i := EntryIndex(old(tracking), entryId).value;
        && Snapshot() == old(Snapshot()).(tracking := old(tracking)[..i] + old(tracking)[i + 1..])
    {
      var found := EntryIndex(tracking, entryId);
      if found.None? {
        return Err(NotFound);
      }
      var i := found.value;
      tracking := tracking[..i] + tracking[i + 1..];
      r := Ok(());
    }

    /** PUT /api/topups/:id/status: record the decision; an approval credits
        the requester by the amount asked, whatever the previous status. */
    method SetTopupStatus(topupId: nat, status: string, notes: string) returns (r: Result<(), Failure>)
      requires Valid()
      modifies this
      ensures Valid()
      ensures status != Approved && status != Rejected ==> r == Err(ValidationError)
      ensures (status == Approved || status == Rejected) && topupId !in old(topups) ==> r == Err(NotFound)
      ensures (status == Approved || status == Rejected) && topupId in old(topups) ==> r.Ok?
      ensures r.Err? ==> Snapshot() == old(Snapshot())
      ensures r.Ok? ==>
        && topupId in old(topups)
        && var t := old(topups)[topupId];
        && Snapshot() == old(Snapshot()).(
          topups := old(topups)[topupId := t.(status := status, notes := notes)],
          users := if status == Approved && t.userId in old(users)
                   then old(users)[t.userId := Credit(old(users)[t.userId], t.amount)]
                   else old(users))
    {
      if status != Approved && status != Rejected {
        return Err(ValidationError);
      }
      if topupId !in topups {
        return Err(NotFound);
      }
      var t := topups[topupId];
      topups := topups[topupId := t.(status := status, notes := notes)];
      if status == Approved && t.userId in users {
        users := users[t.userId := Credit(users[t.userId], t.amount)];
      }
      r := Ok(());
    }

    /** PUT /api/users/:id/balance: add or subtract a truthy amount (a
        non-zero number or a non-empty string, so "0" passes), with no lower
        bound on the result. */
    method AdjustBalance(userId: nat, amount: NumField, kind: string) returns (r: Result<(), Failure>)
      requires Valid()
      modifies this
      ensures Valid()
      ensures !Present(amount) || (kind != "add" && kind != "subtract") ==> r == Err(ValidationError)
      ensures Present(amount) && (kind == "add" || kind == "subtract") && userId !in old(users) ==> r == Err(NotFound)
      ensures Present(amount) && (kind == "add" || kind == "subtract") && userId in old(users) ==> r.Ok?
      ensures r.Err? ==> Snapshot() == old(Snapshot())
      ensures r.Ok? ==>
        && Present(amount) && userId in old(users)
        && (kind == "add" || kind == "subtract")
        && var delta := if kind == "add" then amount.n else -amount.n;
        && Snapshot() == old(Snapshot()).(users := old(users)[userId := Credit(old(users)[userId], delta)])
    {
      if !Present(amount) || (kind != "add" && kind != "subtract") {
        return Err(ValidationError);
      }
      if userId !in users {
        return Err(NotFound);
      }
      var delta := if kind == "add" then amount.n else -amount.n;
      users := users[userId := Credit(users[userId], delta)];
      r := Ok(());
    }

    /** POST /api/prices: insert a price row and, when tiered, its tiers. */
    method CreatePrice(form: PriceForm) returns (r: Result<nat, Failure>)
      requires Valid()
      modifies this
      ensures Valid()
      ensures CreatePriceCheck(form).Some? ==> r == Err(ValidationError)
      ensures CreatePriceCheck(form).None? && LookupPrice(old(prices), form.country, form.category).Some? ==>
        r == Err(DuplicatePrice)
      ensures CreatePriceCheck(form).None? && LookupPrice(old(prices), form.country, form.category).None? ==> r.Ok?
      ensures r.Err? ==> Snapshot() == old(Snapshot())
      ensures r.Ok? ==>
        && CreatePriceCheck(form).None?
        && LookupPrice(old(prices), form.country, form.category).None?
        && r.value == old(nextPriceId) && r.value !in old(prices)
        && Snapshot() == Priced(old(Snapshot()), r.value, PriceRow(form), StoredTiers(form)).(nextPriceId := r.value + 1)
    {
      var e := CreatePriceCheck(form);
      if e.Some? {
        return Err(e.value);
      }
      if LookupPrice(prices, form.country, form.category).Some? {
        return Err(DuplicatePrice);
      }
      var id := nextPriceId;
      ghost var before := Snapshot();
      PricedConsistent(before, id, PriceRow(form), StoredTiers(form));
      prices := prices[id := PriceRow(form)];
      tiers := tiers[id := StoredTiers(form)];
      nextPriceId := nextPriceId + 1;
      assert Snapshot() == Priced(before, id, PriceRow(form), StoredTiers(form)).(nextPriceId := id + 1);
      r := Ok(id);
    }

    /** PUT /api/prices/:id: overwrite the row and replace all of its tiers
        (with none when not tiered). No rate or tier checks are made here,
        and stored shipments keep the rates they were charged at. */
    method UpdatePrice(id: nat, form: PriceForm) returns (r: Result<(), Failure>)
      requires Valid()
      modifies this
      ensures Valid()
      ensures form.country == "" || form.category == "" ==> r == Err(ValidationError)
      ensures form.country != "" && form.category != "" && id !in old(prices) ==> r == Err(NotFound)
      ensures form.country != "" && form.category != "" && id in old(prices)
        && (exists other :: other in old(prices) && other != id && HasKey(old(prices)[other], form.country, form.category))
        ==> r == Err(DuplicatePrice)
      ensures form.country != "" && form.category != "" && id in old(prices)
        && (forall other :: other in old(prices) && other != id ==> !HasKey(old(prices)[other], form.country, form.category))
        ==> r.Ok?
      ensures r.Err? ==> Snapshot() == old(Snapshot())
      ensures r.Ok? ==>
        && id in old(prices)
        && Snapshot() == Priced(old(Snapshot()), id, PriceRow(form), StoredTiers(form))
    {
      if form.country == "" || form.category == "" {
        return Err(ValidationError);
      }
      if id !in prices {
        return Err(NotFound);
      }
      var holder := LookupPrice(prices, form.country, form.category);
      if holder.Some? && holder.value != id {
        return Err(DuplicatePrice);
      }
      ghost var before := Snapshot();
      PricedConsistent(before, id, PriceRow(form), StoredTiers(form));
      prices := prices[id := PriceRow(form)];
      tiers := tiers[id := StoredTiers(form)];
      assert Snapshot() == Priced(before, id, PriceRow(form), StoredTiers(form));
      r := Ok(());
    }
  }
}
