/** The farmer's view (components/FarmerView.tsx): own listings and sales,
    disbursed earnings, the trust rating, the crop a farmer lists, the
    verification request, active orders and the order progress bar. */
module FarmerView {
  import opened Wrappers
  import opened Types
  import opened Seqs

  /** `farmerCrops`: the crops listed under the user's `_id`. */
  function FarmerCrops(crops: seq<Crop>, user: User): (r: seq<Crop>)
    ensures forall c :: c in r <==> c in crops && c.farmerId == user.dbId
  {
    Filter(crops, (c: Crop) => c.farmerId == user.dbId)
  }

  /** `farmerTransactions`: the sales whose seller is the user's `_id`. */
  function FarmerTransactions(txs: seq<Transaction>, user: User): (r: seq<Transaction>)
    ensures forall tx :: tx in r <==> tx in txs && tx.sellerId == user.dbId
  {
    Filter(txs, (tx: Transaction) => tx.sellerId == user.dbId)
  }

  predicate IsDisbursed(tx: Transaction) {
    tx.status == Disbursed
  }

  function AmountOf(tx: Transaction): real {
    tx.amount
  }

  /** `totalEarnings`: the amounts of the user's DISBURSED sales. */
  function TotalEarnings(txs: seq<Transaction>, user: User): real {
    Sum(Filter(FarmerTransactions(txs, user), IsDisbursed), AmountOf)
  }

  /** Only disbursed sales count: with non-negative amounts the earnings never
      exceed the value of all the farmer's sales, and equal it once every
      sale is disbursed. */
  lemma EarningsAtMostSales(txs: seq<Transaction>, user: User)
    requires forall tx :: tx in txs ==> tx.amount >= 0.0
    ensures 0.0 <= TotalEarnings(txs, user) <= Sum(FarmerTransactions(txs, user), AmountOf)
    ensures (forall tx :: tx in txs ==> tx.status == Disbursed) ==>
              TotalEarnings(txs, user) == Sum(FarmerTransactions(txs, user), AmountOf)
  {
    var mine := FarmerTransactions(txs, user);
    SumFilterAtMost(mine, IsDisbursed, AmountOf);
    SumNonNegative(Filter(mine, IsDisbursed));
    if forall tx :: tx in txs ==> tx.status == Disbursed {
      FilterKeepsAll(mine, IsDisbursed);
    }
  }

  lemma {:induction false} SumNonNegative(s: seq<Transaction>)
    requires forall tx :: tx in s ==> tx.amount >= 0.0
    ensures Sum(s, AmountOf) >= 0.0
  {
    if s != [] {
      assert s[..|s| - 1] <= s;
      SumNonNegative(s[..|s| - 1]);
    }
  }

  /** The trust rating `min(5, 3 + (earnings / 2000) * 0.1 + orders * 0.2)`,
      before its rounding to one decimal for display. */
  function Rating(earnings: real, orders: nat): (r: real)
    ensures r <= 5.0
    ensures earnings >= 0.0 ==> r >= 3.0
    ensures r == 5.0 <==> earnings / 20000.0 + 0.2 * orders as real >= 2.0
    ensures earnings / 20000.0 + 0.2 * orders as real < 2.0 ==>
              r == 3.0 + earnings / 20000.0 + 0.2 * orders as real
  {
    var raw := 3.0 + (earnings / 2000.0) * 0.1 + orders as real * 0.2;
    if raw < 5.0 then raw else 5.0
  }

  /** More earnings or more orders never lower the rating. */
  lemma RatingMonotone(e1: real, e2: real, o1: nat, o2: nat)
    requires e1 <= e2 && o1 <= o2
    ensures Rating(e1, o1) <= Rating(e2, o2)
  {
  }

  /** The rating shown to the farmer: from disbursed earnings and the count of
      all their sales. */
  function FarmerRating(txs: seq<Transaction>, user: User): real {
    Rating(TotalEarnings(txs, user), |FarmerTransactions(txs, user)|)
  }

  /** A new sale never lowers the farmer's rating: one of the farmer's own
      adds an order, and its amount once disbursed; anyone else's changes
      nothing. */
  lemma {:induction false} FarmerRatingAfterSale(txs: seq<Transaction>, user: User, tx: Transaction)
    requires tx.amount >= 0.0
    ensures FarmerRating(txs, user) <= FarmerRating(txs + [tx], user)
    ensures |FarmerTransactions(txs + [tx], user)| ==
              |FarmerTransactions(txs, user)| + (if tx.sellerId == user.dbId then 1 else 0)
    ensures TotalEarnings(txs + [tx], user) ==
              TotalEarnings(txs, user) + (if tx.sellerId == user.dbId && tx.status == Disbursed then tx.amount else 0.0)
  {
    var sold := (t: Transaction) => t.sellerId == user.dbId;
    FilterAppend(txs, [tx], sold);
    assert Filter([tx], sold) == (if sold(tx) then [tx] else []) by {
      assert [tx][1..] == [];
    }
    var mine := FarmerTransactions(txs, user);
    var extra := Filter([tx], sold);
    FilterAppend(mine, extra, IsDisbursed);
    var paid := Filter(extra, IsDisbursed);
    assert paid == (if sold(tx) && IsDisbursed(tx) then [tx] else []) by {
      assert [tx][1..] == [];
    }
    SumAppend(Filter(mine, IsDisbursed), paid, AmountOf);
    assert Sum(paid, AmountOf) == (if sold(tx) && IsDisbursed(tx) then tx.amount else 0.0) by {
      assert [tx][..0] == [];
    }
    RatingMonotone(TotalEarnings(txs, user), TotalEarnings(txs + [tx], user),
                   |mine|, |FarmerTransactions(txs + [tx], user)|);
  }

  /** The add-crop form's state (`Partial<Crop>`); the quantity is typed as
      free text. */
  datatype CropDraft = CropDraft(
    name: Option<string>,
    price: Option<real>,
    quantity: Option<string>,
    category: Option<string>,
    portfolioUrl: Option<string>)

  /** The crop `handleAddCrop` lists. `id` stands for the random id,
      `description` for the generated description (empty when none came
      back) and `image` for the uploaded preview (empty when none). */
  function FarmerCrop(user: User, draft: CropDraft, id: string, description: string, image: string): (c: Crop)
    ensures c.farmerId == user.dbId
    ensures !c.verified && !c.verificationRequested && !c.isSold
    ensures c.price == (if draft.price.Some? then draft.price.value else 0.0)
    ensures c.name == draft.name.GetOr("") && c.description == description
    ensures c.farmerName == Some(user.name) && c.farmerPhone == Some(user.phone) && c.farmerLocation == user.location
    ensures c.id == id && c.image == Some(image) && c.unit.None?
    ensures c.category == (if Truthy(draft.category) then draft.category.value else "Other")
    ensures c.quantity == Label(if Truthy(draft.quantity) then draft.quantity.value else "")
    ensures c.portfolioUrl == Some(if Truthy(draft.portfolioUrl) then draft.portfolioUrl.value else "")
  {
    Crop(
      id, user.dbId, Some(user.name), user.location, Some(user.phone),
      if Truthy(draft.name) then draft.name.value else "",
      if draft.price.Some? && draft.price.value != 0.0 then draft.price.value else 0.0,
      Label(if Truthy(draft.quantity) then draft.quantity.value else ""),
      None, description, Some(image),
      Some(if Truthy(draft.portfolioUrl) then draft.portfolioUrl.value else ""),
      if Truthy(draft.category) then draft.category.value else "Other",
      false, false, false)
  }

  /** A newly listed crop appears among the farmer's own crops. */
  lemma ListedCropIsOwn(crops: seq<Crop>, user: User, draft: CropDraft, id: string, description: string, image: string)
    ensures FarmerCrop(user, draft, id, description, image) in FarmerCrops(crops + [FarmerCrop(user, draft, id, description, image)], user)
  {
    var c := FarmerCrop(user, draft, id, description, image);
    assert c in crops + [c];
  }

  /** `handleRequestVerification`: the user with a pending request, every
      other field unchanged. */
  function RequestVerification(user: User): (u: User)
    ensures u.verificationRequested
    ensures u.(verificationRequested := user.verificationRequested) == user
  {
    user.(verificationRequested := true)
  }

  predicate IsActive(tx: Transaction) {
    tx.status != Disbursed
  }

  /** The "Active Orders" tab: the farmer's sales not yet DISBURSED. */
  function ActiveOrders(txs: seq<Transaction>, user: User): (r: seq<Transaction>)
    ensures forall tx :: tx in r <==> tx in txs && tx.sellerId == user.dbId && tx.status != Disbursed
  {
    Filter(FarmerTransactions(txs, user), IsActive)
  }

  /** Every sale is either active or counted in the earnings, never both. */
  lemma {:induction false} ActiveOrDisbursed(txs: seq<Transaction>, user: User)
    ensures |ActiveOrders(txs, user)| + |Filter(FarmerTransactions(txs, user), IsDisbursed)|
         == |FarmerTransactions(txs, user)|
  {
    PartitionCount(FarmerTransactions(txs, user));
  }

  lemma {:induction false} PartitionCount(s: seq<Transaction>)
    ensures |Filter(s, IsActive)| + |Filter(s, IsDisbursed)| == |s|
  {
    if s != [] {
      PartitionCount(s[1..]);
    }
  }

  /** "Mark as Shipped" is offered only for a sale in ESCROW_PAID and asks
      for exactly `{ status: 'IN_TRANSIT' }`. */
  function ShippedAction(tx: Transaction): (r: Option<TxUpdate>)
    ensures r.Some? <==> tx.status == EscrowPaid
    ensures r.Some? ==> r.value == StatusUpdate(InTransit)
  {
    if tx.status == EscrowPaid then Some(StatusUpdate(InTransit)) else None
  }

  /** The three segments of an order's progress bar, as the view writes
      them: each tests `indexOf` in its own literal list, the second and the
      third lists starting one and two statuses further along. */
  function ProgressAsWritten(s: Status): (lit: (bool, bool, bool))
    ensures lit.0 <==> s in {EscrowPaid, InTransit, Delivered, Disbursed}
    ensures lit.1 <==> s in {Delivered, Disbursed}
  {
    (IndexOf([EscrowPaid, InTransit, Delivered, Disbursed], s) >= 0,
     IndexOf([InTransit, Delivered, Disbursed], s) >= 1,
     IndexOf([Delivered, Disbursed], s) >= 2)
  }

  /** The third segment is never lit, and the second is dark while the order
      is in transit. */
  lemma ThirdSegmentNeverLit(s: Status)
    ensures !ProgressAsWritten(s).2
    ensures !ProgressAsWritten(InTransit).1
  {
    assert IndexOf([Delivered, Disbursed], s) < 2;
  }

  /** The lifecycle a sale walks through, in order. */
  const Lifecycle: seq<Status> := [EscrowPaid, InTransit, Delivered, Disbursed]

  /** The progress bar as evidently intended: segment `k` is lit once the
      order has reached the `k`-th lifecycle status. */
  function Progress(s: Status): (lit: (bool, bool, bool))
    ensures lit.0 <==> s in Lifecycle
    ensures lit.1 <==> s in {InTransit, Delivered, Disbursed}
    ensures lit.2 <==> s in {Delivered, Disbursed}
  {
    var k := IndexOf(Lifecycle, s);
    (k >= 0, k >= 1, k >= 2)
  }

  /** An order further along the lifecycle lights every segment an earlier
      one lights. */
  lemma ProgressMonotone(i: nat, j: nat)
    requires i <= j < |Lifecycle|
    ensures var p, q := Progress(Lifecycle[i]), Progress(Lifecycle[j]);
            (p.0 ==> q.0) && (p.1 ==> q.1) && (p.2 ==> q.2)
  {
    assert IndexOf(Lifecycle, Lifecycle[i]) == i;
    assert IndexOf(Lifecycle, Lifecycle[j]) == j;
  }
}
