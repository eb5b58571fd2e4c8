/** The vendor's view (components/VendorView.tsx): the marketplace search,
    the purchase history and the transaction built when payment succeeds. */
module VendorView {
  import opened Wrappers
  import opened Types
  import opened Seqs
  import opened Text

  const MsPerDay: int := 86400000

  /** The platform's delivery fee, added for AGRICONNECT delivery only. */
  function DeliveryFee(mode: DeliveryMode): (fee: real)
    ensures fee >= 0.0
    ensures fee > 0.0 <==> mode == AgriConnect
  {
    if mode == AgriConnect then 150.0 else 0.0
  }

  /** Days until the estimated arrival: 3 with AGRICONNECT, otherwise 1. */
  function ArrivalDays(mode: DeliveryMode): (days: int)
    ensures 1 <= days <= 3
    ensures days == 3 <==> mode == AgriConnect
    ensures mode == SelfTransport ==> days == 1
  {
    if mode == AgriConnect then 3 else 1
  }

  /** The record `handlePaymentSuccess` passes to `onPurchase`, for the
      selected crop. `suffix` stands for the random part of the id and `now`
      for the clock. */
  function NewTransaction(buyer: User, crop: Crop, mode: DeliveryMode, now: int, suffix: string): (tx: Transaction)
    ensures tx.id == "TX-" + suffix
    ensures tx.status == EscrowPaid
    ensures tx.buyerId == buyer.dbId && tx.sellerId == crop.farmerId && tx.cropId == crop.id
    ensures tx.amount == crop.price * 10.0 + DeliveryFee(mode)
    ensures tx.deliveryMode == mode
    ensures tx.deliveryAddress == Some(if Truthy(buyer.location) then buyer.location.value else "Default Delivery Point")
    ensures tx.estimatedArrival == Some(now + ArrivalDays(mode) * MsPerDay) && tx.date == now
    ensures tx.trackingInfo.None?
  {
    Transaction(
      "TX-" + suffix, buyer.dbId, crop.farmerId, crop.id,
      crop.price * 10.0 + DeliveryFee(mode),
      EscrowPaid, mode, None,
      Some(if Truthy(buyer.location) then buyer.location.value else "Default Delivery Point"),
      Some(now + ArrivalDays(mode) * MsPerDay), now)
  }

  /** `handlePaymentSuccess`: no transaction without a selected crop. */
  function PaymentSuccess(buyer: User, selected: Option<Crop>, mode: DeliveryMode, now: int, suffix: string)
    : (r: Option<Transaction>)
    ensures r.None? <==> selected.None?
    ensures r.Some? ==> r.value == NewTransaction(buyer, selected.value, mode, now, suffix)
  {
    match selected
    case None => None
    case Some(crop) => Some(NewTransaction(buyer, crop, mode, now, suffix))
  }

  /** A ₹50 crop costs 650 delivered by the platform and 500 self-collected. */
  lemma AmountExample(buyer: User, crop: Crop, now: int, suffix: string)
    requires crop.price == 50.0
    ensures NewTransaction(buyer, crop, AgriConnect, now, suffix).amount == 650.0
    ensures NewTransaction(buyer, crop, SelfTransport, now, suffix).amount == 500.0
  {
  }

  /** The search filter keeps a crop when its name matches the term and, if a
      location is searched, its farmer's location matches it. */
  predicate MatchesSearch(crop: Crop, searchTerm: string, locationSearch: string) {
    && Contains(Lower(crop.name), Lower(searchTerm))
    && (locationSearch == [] ||
        (crop.farmerLocation.Some? && Contains(Lower(crop.farmerLocation.value), Lower(locationSearch))))
  }

  /** `filteredCrops`. */
  function FilteredCrops(crops: seq<Crop>, searchTerm: string, locationSearch: string): (r: seq<Crop>)
    ensures forall c :: c in r <==> c in crops && MatchesSearch(c, searchTerm, locationSearch)
    ensures locationSearch != [] ==> forall c :: c in r ==> c.farmerLocation.Some?
  {
    Filter(crops, (c: Crop) => MatchesSearch(c, searchTerm, locationSearch))
  }

  /** The filter keeps the marketplace's order: filtering two listings one
      after the other is filtering each and concatenating. */
  lemma FilteredCropsAppend(a: seq<Crop>, b: seq<Crop>, searchTerm: string, locationSearch: string)
    ensures FilteredCrops(a + b, searchTerm, locationSearch)
         == FilteredCrops(a, searchTerm, locationSearch) + FilteredCrops(b, searchTerm, locationSearch)
  {
    FilterAppend(a, b, (c: Crop) => MatchesSearch(c, searchTerm, locationSearch));
  }

  /** With both search boxes empty every crop is listed, sold ones included. */
  lemma EmptySearchKeepsAll(crops: seq<Crop>)
    ensures FilteredCrops(crops, "", "") == crops
  {
    forall c | c in crops ensures MatchesSearch(c, "", "") {
      ContainsEmpty(Lower(c.name));
    }
    FilterKeepsAll(crops, (c: Crop) => MatchesSearch(c, "", ""));
  }

  /** `vendorTransactions`: the user's purchases, newest first. */
  function VendorTransactions(txs: seq<Transaction>, user: User): (r: seq<Transaction>)
    ensures forall tx :: tx in r <==> tx in txs && tx.buyerId == user.dbId
  {
    var mine := Filter(txs, (tx: Transaction) => tx.buyerId == user.dbId);
    var r := Reverse(mine);
    assert forall tx :: tx in r <==> tx in mine by {
      forall tx ensures tx in r <==> tx in mine {
        if tx in mine { var i :| 0 <= i < |mine| && mine[i] == tx; assert r[|mine| - 1 - i] == tx; }
      }
    }
    r
  }

  /** `totalSpent`: the sum of the amounts of the user's purchases. */
  function TotalSpent(txs: seq<Transaction>, user: User): real {
    Sum(VendorTransactions(txs, user), (tx: Transaction) => tx.amount)
  }

  /** A purchase by the user goes to the head of the history and adds its
      amount to the total spent; a purchase by someone else changes neither. */
  lemma {:induction false} HistoryAfterPurchase(txs: seq<Transaction>, user: User, tx: Transaction)
    ensures tx.buyerId == user.dbId ==>
              VendorTransactions(txs + [tx], user) == [tx] + VendorTransactions(txs, user)
              && TotalSpent(txs + [tx], user) == TotalSpent(txs, user) + tx.amount
    ensures tx.buyerId != user.dbId ==>
              VendorTransactions(txs + [tx], user) == VendorTransactions(txs, user)
  {
    var mine := (t: Transaction) => t.buyerId == user.dbId;
    var amount := (t: Transaction) => t.amount;
    FilterAppend(txs, [tx], mine);
    assert Filter([tx], mine) == (if mine(tx) then [tx] else []) by {
      assert [tx][1..] == [];
    }
    var old_ := Filter(txs, mine);
    if mine(tx) {
      assert Reverse(old_ + [tx]) == [tx] + Reverse(old_);
      SumAppend([tx], Reverse(old_), amount);
      assert Sum([tx], amount) == tx.amount by { assert [tx][..0] == []; }
    } else {
      assert old_ + [] == old_;
    }
  }

  /** The total spent is the sum over the user's purchases in store order. */
  lemma TotalSpentInStoreOrder(txs: seq<Transaction>, user: User)
    ensures TotalSpent(txs, user) == Sum(Filter(txs, (tx: Transaction) => tx.buyerId == user.dbId), (tx: Transaction) => tx.amount)
  {
    SumReverse(Filter(txs, (tx: Transaction) => tx.buyerId == user.dbId), (tx: Transaction) => tx.amount);
  }

  /** "Mark as Received" is offered only for a transaction in transit and asks
      for exactly `{ status: 'DELIVERED' }`. */
  function ReceivedAction(tx: Transaction): (r: Option<TxUpdate>)
    ensures r.Some? <==> tx.status == InTransit
    ensures r.Some? ==> r.value == StatusUpdate(Delivered)
  {
    if tx.status == InTransit then Some(StatusUpdate(Delivered)) else None
  }
}
