/** The rows the settlement handlers read and write: users with their
    wallet balance, shipment ("transaction") records, tracking entries,
    top-up requests, the request bodies, and the lookups the handlers' SELECT
    queries perform. */
module Records {
  import opened Wrappers
  import opened Pricing

  const Pending: string := "pending"
  const Shipped: string := "dikirim"
  const Delivered: string := "sukses"
  const Canceled: string := "canceled"
  const Approved: string := "approved"
  const Rejected: string := "rejected"

  const RegisteredNote: string := "Paket telah terdaftar dan menunggu diproses"
  const HandedOverNote: string := "Paket telah diserahkan ke ekspedisi untuk pengiriman"
  const CanceledNote: string := "Pesanan dibatalkan oleh admin. Saldo telah dikembalikan ke akun pelanggan."

  /** The error responses of the handlers, by kind. */
  datatype Failure =
    | ValidationError     // 400: a required field is missing or a value is not allowed
    | PriceNotAvailable   // 400: no price row for (destination, category)
    | NoPricingTierFound  // 400: tiered price and no tier covers the effective weight
    | InsufficientBalance // 400: balance below the total
    | NotFound            // 404: no such row
    | InvalidStatus       // 400: only pending transactions can be cancelled
    | DuplicatePrice      // 400: ER_DUP_ENTRY on (country, category)
    | DuplicateResi       // 500: the insert clashes with an existing resi

  datatype User = User(role: Role, balance: real)

  /** The text fields of a shipment; an empty optional field is stored as NULL. */
  datatype Party = Party(
    senderName: string, senderPhone: string, senderAddress: string,
    destination: string, receiverName: string, receiverPhone: string, receiverAddress: string,
    category: string, contents: string,
    postalCode: string, receiverIdNumber: string, receiverEmail: string)

  /** A create or edit request body, multipart (numeric fields as strings)
      or JSON (numeric fields as numbers). */
  datatype ShipmentForm = ShipmentForm(
    party: Party, weight: NumField, length: NumField, width: NumField, height: NumField)

  /** Names of the uploaded address photo and identity-card sides. */
  datatype Uploads = Uploads(addressPhoto: Option<string>, idFront: Option<string>, idBack: Option<string>)

  datatype Shipment = Shipment(
    owner: nat, resi: string, party: Party, dims: Dimensions,
    volume: real, perKg: real, perVolume: real, total: real,
    uploads: Uploads, status: string, expeditionId: Option<nat>, expeditionResi: string)

  datatype TrackingEntry = TrackingEntry(id: nat, txId: nat, status: string, description: string)

  datatype Topup = Topup(userId: nat, amount: real, status: string, notes: string)

  /** A numeric field of a JSON body: absent (or null), a JSON number, or a
      string as form inputs send it, with the number `Number` (or the
      database) reads the string as. */
  datatype NumField = Absent | Number(n: real) | Text(text: string, n: real)

  /** A price create or update body. */
  datatype PriceForm = PriceForm(
    country: string, category: string,
    perKg: NumField, perVolume: NumField, perKgMitra: NumField, perVolumeMitra: NumField,
    isIdentity: bool, tiered: bool, tiers: seq<Tier>)

  /** What a successful create answers with: id, resi and total_price. */
  datatype Created = Created(id: nat, resi: string, total: real)

  /** The thirteen required fields of the create and edit handlers are truthy. */
  predicate FormComplete(f: ShipmentForm) {
    var p := f.party;
    && p.senderName != "" && p.senderPhone != "" && p.senderAddress != ""
    && p.destination != "" && p.receiverName != "" && p.receiverPhone != ""
    && p.receiverAddress != "" && p.category != "" && p.contents != ""
    && Present(f.weight) && Present(f.length) && Present(f.width) && Present(f.height)
  }

  function DimensionsOf(f: ShipmentForm): Dimensions
    requires FormComplete(f)
  {
    Dimensions(f.weight.n, f.length.n, f.width.n, f.height.n)
  }

  /** The edit handler keeps a stored file unless a new one is uploaded. */
  function MergeUploads(uploaded: Uploads, stored: Uploads): Uploads {
    Uploads(
      if uploaded.addressPhoto.Some? then uploaded.addressPhoto else stored.addressPhoto,
      if uploaded.idFront.Some? then uploaded.idFront else stored.idFront,
      if uploaded.idBack.Some? then uploaded.idBack else stored.idBack)
  }

  /** JavaScript truthiness of a body field: a number unless it is 0, a
      string unless it is empty, so the string "0" passes. */
  predicate Present(f: NumField) {
    match f
    case Absent => false
    case Number(n) => n != 0.0
    case Text(text, _) => text != ""
  }

  /** `x || 0`, as the database stores it. */
  function OrZero(f: NumField): real {
    if Present(f) then f.n else 0.0
  }

  /** The checks the create handler makes before any write. */
  function CreatePriceCheck(f: PriceForm): (e: Option<Failure>)
    ensures e.None? <==>
      && f.country != "" && f.category != ""
      && (f.tiered ==> |f.tiers| > 0)
      && (!f.tiered ==> Present(f.perKg) && Present(f.perVolume) && Present(f.perKgMitra) && Present(f.perVolumeMitra))
    ensures e.Some? ==> e.value == ValidationError
  {
    if f.country == "" || f.category == "" then Some(ValidationError)
    else if !f.tiered && !(Present(f.perKg) && Present(f.perVolume) && Present(f.perKgMitra) && Present(f.perVolumeMitra)) then
      Some(ValidationError)
    else if f.tiered && |f.tiers| == 0 then Some(ValidationError)
    else None
  }

  /** The price row written by create and update: absent rates become 0. */
  function PriceRow(f: PriceForm): Price {
    Price(f.country, f.category,
      Rates(OrZero(f.perKg), OrZero(f.perVolume), OrZero(f.perKgMitra), OrZero(f.perVolumeMitra)),
      f.isIdentity, f.tiered)
  }

  /** The tier rows written by create and update: the supplied list when
      tiered, none otherwise. */
  function StoredTiers(f: PriceForm): (ts: seq<Tier>)
    ensures f.tiered ==> ts == f.tiers
    ensures !f.tiered ==> ts == []
  {
    if f.tiered && |f.tiers| > 0 then f.tiers else []
  }

  predicate HasKey(p: Price, country: string, category: string) {
    p.country == country && p.category == category
  }

  /** The unique key (country, category) of the prices table. */
  predicate UniquePriceKeys(prices: map<nat, Price>) {
    forall a, b :: a in prices && b in prices && a != b ==>
      !HasKey(prices[b], prices[a].country, prices[a].category)
  }

  /** SELECT * FROM prices WHERE country = ? AND category = ? */
  function LookupPrice(prices: map<nat, Price>, country: string, category: string): (r: Option<nat>)
    requires UniquePriceKeys(prices)
    ensures r.None? <==> forall id :: id in prices ==> !HasKey(prices[id], country, category)
    ensures r.Some? ==> r.value in prices && HasKey(prices[r.value], country, category)
  {
    if exists id :: id in prices && HasKey(prices[id], country, category) then
      var id :| id in prices && HasKey(prices[id], country, category);
      Some(id)
    else None
  }

  predicate UniqueResi(transactions: map<nat, Shipment>) {
    forall a, b :: a in transactions && b in transactions && a != b ==>
      transactions[a].resi != transactions[b].resi
  }

  /** SELECT id FROM transactions WHERE resi = ? */
  function FindByResi(transactions: map<nat, Shipment>, resi: string): (r: Option<nat>)
    requires UniqueResi(transactions)
    ensures r.None? <==> forall id :: id in transactions ==> transactions[id].resi != resi
    ensures r.Some? ==> r.value in transactions && transactions[r.value].resi == resi
  {
    if exists id :: id in transactions && transactions[id].resi == resi then
      var id :| id in transactions && transactions[id].resi == resi;
      Some(id)
    else None
  }

  predicate DistinctEntryIds(log: seq<TrackingEntry>) {
    forall i, j :: 0 <= i < j < |log| ==> log[i].id != log[j].id
  }

  /** The position of tracking entry `id` in the log. */
  function EntryIndex(log: seq<TrackingEntry>, id: nat): (r: Option<nat>)
    requires DistinctEntryIds(log)
    ensures r.None? <==> forall i :: 0 <= i < |log| ==> log[i].id != id
    ensures r.Some? ==> r.value < |log| && log[r.value].id == id
  {
    if exists i :: 0 <= i < |log| && log[i].id == id then
      var i :| 0 <= i < |log| && log[i].id == id;
      Some(i)
    else None
  }

  /** Status of the newest tracking entry of shipment `txId`: the one
      inserted last, which is the one with the highest entry id. The readers'
      `ORDER BY created_at DESC` has no tie-breaker, so two entries written
      in the same second may be listed in either order; the model takes
      insertion order. */
  function LatestStatus(log: seq<TrackingEntry>, txId: nat): Option<string> {
    if log == [] then None
    else if log[|log| - 1].txId == txId then Some(log[|log| - 1].status)
    else LatestStatus(log[..|log| - 1], txId)
  }

  /** `i` is the position of the last entry of shipment `txId` in the log. */
  predicate IsLastOf(log: seq<TrackingEntry>, txId: nat, i: int) {
    0 <= i < |log| && log[i].txId == txId && forall j :: i < j < |log| ==> log[j].txId != txId
  }

  /** The newest status of a shipment is the status of its last entry in the log. */
  lemma {:induction false} LatestIsLastEntry(log: seq<TrackingEntry>, txId: nat, i: int)
    requires IsLastOf(log, txId, i)
    ensures LatestStatus(log, txId) == Some(log[i].status)
  {
    var n := |log| - 1;
    if i < n {
      assert log[n].txId != txId;
      assert IsLastOf(log[..n], txId, i);
      LatestIsLastEntry(log[..n], txId, i);
    }
  }

  /** A shipment has no newest status exactly when the log holds none of its entries. */
  lemma {:induction false} LatestAbsentIffNoEntry(log: seq<TrackingEntry>, txId: nat)
    ensures LatestStatus(log, txId).None? <==> forall i :: 0 <= i < |log| ==> log[i].txId != txId
  {
    if log != [] {
      var n := |log| - 1;
      LatestAbsentIffNoEntry(log[..n], txId);
      assert forall i :: 0 <= i < n ==> log[..n][i] == log[i];
    }
  }

  /** Appending an entry makes it the newest of its shipment and leaves the
      newest entry of every other shipment as it was. */
  lemma {:induction false} LatestAfterAppend(log: seq<TrackingEntry>, e: TrackingEntry, txId: nat)
    ensures LatestStatus(log + [e], txId) ==
      if txId == e.txId then Some(e.status) else LatestStatus(log, txId)
  {
    assert (log + [e])[..|log|] == log;
  }
}
