/** The record store that App.tsx keeps as component state: users, crops and
    transactions, each replaced wholesale by every handler, plus the 3000 ms
    timer that releases escrow after delivery, modelled as a queue of
    transaction ids awaiting disbursement. */
module App {
  import opened Wrappers
  import opened Types
  import opened Seqs

  /** The delay of the disbursement timer, in milliseconds (App.tsx:121).
      Documentation only: the store's `pending` queue abstracts the delay
      away, so no operation refers to it. */
  const DisbursementDelayMs: nat := 3000

  /** The one user the store starts with when nothing was saved (App.tsx:27). */
  const SeedFarmer := User(None, "", "f1", "Ramesh Singh", "9876543210", Some("password123"), None,
                           Farmer, Some("Punjab"), None, None, true, false)

  /** `crops.map((c: Crop) => c.id === cropId ? { ...c, isSold: true } : c)`. */
  function MarkSold(crops: seq<Crop>, cropId: string): (r: seq<Crop>)
    ensures |r| == |crops|
    ensures forall i :: 0 <= i < |r| ==> r[i].isSold == (crops[i].isSold || crops[i].id == cropId)
    ensures forall i :: 0 <= i < |r| ==> r[i].(isSold := crops[i].isSold) == crops[i]
  {
    MapIf(crops, (c: Crop) => c.id == cropId, (c: Crop) => c.(isSold := true))
  }

  /** `crops.map((c: Crop) => c.id === cropId ? { ...c, verificationRequested: true } : c)`;
      a verified crop is not exempt. */
  function CropsAfterVerificationRequest(crops: seq<Crop>, cropId: string): (r: seq<Crop>)
    ensures |r| == |crops|
    ensures forall i :: 0 <= i < |r| ==>
      r[i].verificationRequested == (crops[i].verificationRequested || crops[i].id == cropId)
    ensures forall i :: 0 <= i < |r| ==> r[i].(verificationRequested := crops[i].verificationRequested) == crops[i]
  {
    MapIf(crops, (c: Crop) => c.id == cropId, (c: Crop) => c.(verificationRequested := true))
  }

  /** The crops with id `cropId` become verified with no pending request. */
  function CropsAfterVerify(crops: seq<Crop>, cropId: string): (r: seq<Crop>)
    ensures |r| == |crops|
    ensures forall i :: 0 <= i < |r| && crops[i].id == cropId ==> r[i].verified && !r[i].verificationRequested
    ensures forall i :: 0 <= i < |r| && crops[i].id != cropId ==> r[i] == crops[i]
    ensures forall i :: 0 <= i < |r| ==>
      r[i].(verified := crops[i].verified, verificationRequested := crops[i].verificationRequested) == crops[i]
  {
    MapIf(crops, (c: Crop) => c.id == cropId, (c: Crop) => c.(verified := true, verificationRequested := false))
  }

  /** Verifying a crop twice leaves the same collection as verifying it once. */
  lemma VerifyCropIdempotent(crops: seq<Crop>, cropId: string)
    ensures CropsAfterVerify(CropsAfterVerify(crops, cropId), cropId) == CropsAfterVerify(crops, cropId)
  {
    var once := CropsAfterVerify(crops, cropId);
    var twice := CropsAfterVerify(once, cropId);
    assert forall i :: 0 <= i < |once| ==> twice[i] == once[i];
  }

  /** `onVerify`: the users whose `id` is `userId` become verified. */
  function UsersAfterVerify(users: seq<User>, userId: string): (r: seq<User>)
    ensures |r| == |users|
    ensures forall i :: 0 <= i < |r| ==> r[i].verified == (users[i].verified || users[i].id == userId)
    ensures forall i :: 0 <= i < |r| ==> r[i].(verified := users[i].verified) == users[i]
  {
    MapIf(users, (u: User) => u.id == userId, (u: User) => u.(verified := true))
  }

  /** `handleProfileComplete`: the users sharing the updated user's `id` are
      replaced by it, every other user is kept. */
  function ReplaceProfile(users: seq<User>, updated: User): (r: seq<User>)
    ensures |r| == |users|
    ensures forall i :: 0 <= i < |r| && users[i].id == updated.id ==> r[i] == updated
    ensures forall i :: 0 <= i < |r| && users[i].id != updated.id ==> r[i] == users[i]
  {
    MapIf(users, (u: User) => u.id == updated.id, (_: User) => updated)
  }

  /** A completed profile whose `id` no stored user has is dropped: the
      collection is unchanged. */
  lemma ReplaceProfileUnknown(users: seq<User>, updated: User)
    requires forall u :: u in users ==> u.id != updated.id
    ensures ReplaceProfile(users, updated) == users
  {
    var r := ReplaceProfile(users, updated);
    forall i | 0 <= i < |users| ensures r[i] == users[i] {
      assert users[i] in users;
    }
  }

  /** `{ ...tx, ...updates }`: each field the update carries wins. */
  function Overlay(tx: Transaction, u: TxUpdate): (r: Transaction)
    ensures u.status.Some? ==> r.status == u.status.value
    ensures u.status.None? ==> r.status == tx.status
    ensures u.id.Some? ==> r.id == u.id.value
    ensures u.id.None? ==> r.id == tx.id
    ensures u.buyerId.Some? ==> r.buyerId == u.buyerId.value
    ensures u.buyerId.None? ==> r.buyerId == tx.buyerId
    ensures u.sellerId.Some? ==> r.sellerId == u.sellerId.value
    ensures u.sellerId.None? ==> r.sellerId == tx.sellerId
    ensures u.cropId.Some? ==> r.cropId == u.cropId.value
    ensures u.cropId.None? ==> r.cropId == tx.cropId
    ensures u.amount.Some? ==> r.amount == u.amount.value
    ensures u.amount.None? ==> r.amount == tx.amount
    ensures u.deliveryMode.Some? ==> r.deliveryMode == u.deliveryMode.value
    ensures u.deliveryMode.None? ==> r.deliveryMode == tx.deliveryMode
    ensures u.trackingInfo.Some? ==> r.trackingInfo == u.trackingInfo
    ensures u.trackingInfo.None? ==> r.trackingInfo == tx.trackingInfo
    ensures u.deliveryAddress.Some? ==> r.deliveryAddress == u.deliveryAddress
    ensures u.deliveryAddress.None? ==> r.deliveryAddress == tx.deliveryAddress
    ensures u.estimatedArrival.Some? ==> r.estimatedArrival == u.estimatedArrival
    ensures u.estimatedArrival.None? ==> r.estimatedArrival == tx.estimatedArrival
    ensures u.date.Some? ==> r.date == u.date.value
    ensures u.date.None? ==> r.date == tx.date
    ensures u == StatusUpdate(r.status) ==> r == tx.(status := r.status)
  {
    Transaction(
      u.id.GetOr(tx.id), u.buyerId.GetOr(tx.buyerId), u.sellerId.GetOr(tx.sellerId),
      u.cropId.GetOr(tx.cropId), u.amount.GetOr(tx.amount), u.status.GetOr(tx.status),
      u.deliveryMode.GetOr(tx.deliveryMode),
      if u.trackingInfo.Some? then u.trackingInfo else tx.trackingInfo,
      if u.deliveryAddress.Some? then u.deliveryAddress else tx.deliveryAddress,
      if u.estimatedArrival.Some? then u.estimatedArrival else tx.estimatedArrival,
      u.date.GetOr(tx.date))
  }

  /** The new collection of `handleUpdateTransaction`: the transactions with
      id `id` get the update overlaid, whatever their status was. */
  function ApplyUpdate(txs: seq<Transaction>, id: string, u: TxUpdate): (r: seq<Transaction>)
    ensures |r| == |txs|
    ensures forall i :: 0 <= i < |r| && txs[i].id == id ==> r[i] == Overlay(txs[i], u)
    ensures forall i :: 0 <= i < |r| && txs[i].id != id ==> r[i] == txs[i]
  {
    MapIf(txs, (tx: Transaction) => tx.id == id, (tx: Transaction) => Overlay(tx, u))
  }

  /** The timers `handleUpdateTransaction` starts: one per transaction with id
      `id`, and only when the update sets status `DELIVERED`. */
  function DisbursementTimers(txs: seq<Transaction>, id: string, u: TxUpdate): (r: seq<string>)
    ensures u.status != Some(Delivered) ==> r == []
    ensures u.status == Some(Delivered) ==> |r| == |Filter(txs, (tx: Transaction) => tx.id == id)|
    ensures forall k :: 0 <= k < |r| ==> r[k] == id
  {
    if u.status == Some(Delivered) then seq(|Filter(txs, (tx: Transaction) => tx.id == id)|, _ => id) else []
  }

  /** An id no transaction carries starts no timer. */
  lemma NoTimerForUnknownId(txs: seq<Transaction>, id: string, u: TxUpdate)
    requires forall tx :: tx in txs ==> tx.id != id
    ensures DisbursementTimers(txs, id, u) == []
  {
    FilterKeepsNone(txs, (tx: Transaction) => tx.id == id);
  }

  /** An update to DELIVERED on an id some transaction carries starts a timer. */
  lemma TimerForDelivery(txs: seq<Transaction>, k: nat)
    requires k < |txs|
    ensures DisbursementTimers(txs, txs[k].id, StatusUpdate(Delivered)) != []
  {
    var keep := (tx: Transaction) => tx.id == txs[k].id;
    assert txs[k] in Filter(txs, keep);
  }

  /** The timer's callback, run against the collection current when it
      fires: the transactions with id `id` become DISBURSED. */
  function Disburse(txs: seq<Transaction>, id: string): (r: seq<Transaction>)
    ensures |r| == |txs|
    ensures forall i :: 0 <= i < |r| ==> r[i].status == (if txs[i].id == id then Disbursed else txs[i].status)
    ensures forall i :: 0 <= i < |r| ==> r[i].(status := txs[i].status) == txs[i]
  {
    MapIf(txs, (tx: Transaction) => tx.id == id, (tx: Transaction) => tx.(status := Disbursed))
  }

  /** A timer whose transaction is gone changes nothing. */
  lemma DisburseUnknown(txs: seq<Transaction>, id: string)
    requires forall tx :: tx in txs ==> tx.id != id
    ensures Disburse(txs, id) == txs
  {
    var r := Disburse(txs, id);
    forall i | 0 <= i < |txs| ensures r[i] == txs[i] {
      assert txs[i] in txs;
    }
  }

  /** No status order is enforced: an update can write any status, an earlier
      one included, to every transaction with the id. */
  lemma AnyStatusWritable(txs: seq<Transaction>, k: nat, s: Status)
    requires k < |txs|
    ensures ApplyUpdate(txs, txs[k].id, StatusUpdate(s))[k] == txs[k].(status := s)
  {
  }

  /** A transaction in transit that the buyer marks received is DISBURSED once
      its timer fires; transactions with other ids are not touched. */
  lemma {:induction false} AutoDisbursement(txs: seq<Transaction>, k: nat)
    requires k < |txs| && txs[k].status == InTransit
    ensures var id := txs[k].id;
            var delivered := ApplyUpdate(txs, id, StatusUpdate(Delivered));
            && delivered[k].status == Delivered
            && DisbursementTimers(txs, id, StatusUpdate(Delivered)) != []
            && Disburse(delivered, id)[k] == txs[k].(status := Disbursed)
            && forall j :: 0 <= j < |txs| && txs[j].id != id ==> Disburse(delivered, id)[j] == txs[j]
  {
    TimerForDelivery(txs, k);
  }

  /** Nothing stops a second purchase of a sold crop: two purchases of one
      crop leave two more transactions referring to it. */
  lemma {:induction false} SecondPurchaseNotRejected(txs: seq<Transaction>, t1: Transaction, t2: Transaction)
    requires t1.cropId == t2.cropId
    ensures var refers := (tx: Transaction) => tx.cropId == t1.cropId;
            |Filter(txs + [t1] + [t2], refers)| == |Filter(txs, refers)| + 2
  {
    var refers := (tx: Transaction) => tx.cropId == t1.cropId;
    FilterAppend(txs + [t1], [t2], refers);
    FilterAppend(txs, [t1], refers);
  }

  /** The store. Every handler replaces the collections it touches and leaves
      the others as they were. */
  class Store {
    var users: seq<User>
    var crops: seq<Crop>
    var transactions: seq<Transaction>
    /** The ids whose 3000 ms disbursement timers have not yet fired, in the
        order they were started (equal delays fire in that order). */
    var pending: seq<string>
    var currentUser: Option<User>

    /** Each collection is what was saved, or its default when nothing was. */
    constructor (savedUsers: Option<seq<User>>, savedCrops: Option<seq<Crop>>, savedTxs: Option<seq<Transaction>>)
      ensures users == savedUsers.GetOr([SeedFarmer])
      ensures crops == savedCrops.GetOr([])
      ensures transactions == savedTxs.GetOr([])
      ensures pending == [] && currentUser == None
    {
      users := savedUsers.GetOr([SeedFarmer]);
      crops := savedCrops.GetOr([]);
      transactions := savedTxs.GetOr([]);
      pending := [];
      currentUser := None;
    }

    /** `handleProfileComplete`. */
    method CompleteProfile(updated: User)
      modifies this
      ensures currentUser == Some(updated)
      ensures users == ReplaceProfile(old(users), updated)
      ensures crops == old(crops) && transactions == old(transactions) && pending == old(pending)
    {
      currentUser := Some(updated);
      users := ReplaceProfile(users, updated);
    }

    /** `onUpdateUser`, wired to `setCurrentUser`: the users collection is not
        touched. */
    method UpdateCurrentUser(u: User)
      modifies this
      ensures currentUser == Some(u)
      ensures users == old(users) && crops == old(crops)
      ensures transactions == old(transactions) && pending == old(pending)
    {
      currentUser := Some(u);
    }

    /** `handlePurchase`: appends the transaction and marks its crop sold,
        without checking that the crop was unsold. */
    method Purchase(tx: Transaction)
      modifies this
      ensures transactions == old(transactions) + [tx]
      ensures crops == MarkSold(old(crops), tx.cropId)
      ensures users == old(users) && pending == old(pending) && currentUser == old(currentUser)
    {
      transactions := transactions + [tx];
      crops := MarkSold(crops, tx.cropId);
    }

    /** `handleUpdateTransaction`: overlays the update on every transaction
        with the id and, when the update sets DELIVERED, starts one
        disbursement timer per such transaction. */
    method UpdateTransaction(id: string, u: TxUpdate)
      modifies this
      ensures transactions == ApplyUpdate(old(transactions), id, u)
      ensures pending == old(pending) + DisbursementTimers(old(transactions), id, u)
      ensures users == old(users) && crops == old(crops) && currentUser == old(currentUser)
    {
      pending := pending + DisbursementTimers(transactions, id, u);
      transactions := ApplyUpdate(transactions, id, u);
    }

    /** The oldest disbursement timer fires against the current collection. */
    method FireDisbursement()
      requires pending != []
      modifies this
      ensures transactions == Disburse(old(transactions), old(pending)[0])
      ensures pending == old(pending)[1..]
      ensures users == old(users) && crops == old(crops) && currentUser == old(currentUser)
    {
      transactions := Disburse(transactions, pending[0]);
      pending := pending[1..];
    }

    /** `handleRequestCropVerification`. */
    method RequestCropVerification(cropId: string)
      modifies this
      ensures crops == CropsAfterVerificationRequest(old(crops), cropId)
      ensures users == old(users) && transactions == old(transactions)
      ensures pending == old(pending) && currentUser == old(currentUser)
    {
      crops := CropsAfterVerificationRequest(crops, cropId);
    }

    /** `handleVerifyCrop`. */
    method VerifyCrop(cropId: string)
      modifies this
      ensures crops == CropsAfterVerify(old(crops), cropId)
      ensures users == old(users) && transactions == old(transactions)
      ensures pending == old(pending) && currentUser == old(currentUser)
    {
      crops := CropsAfterVerify(crops, cropId);
    }

    /** `onVerify`. */
    method VerifyUser(userId: string)
      modifies this
      ensures users == UsersAfterVerify(old(users), userId)
      ensures crops == old(crops) && transactions == old(transactions)
      ensures pending == old(pending) && currentUser == old(currentUser)
    {
      users := UsersAfterVerify(users, userId);
    }

    /** `onProxyRegister`: appends the enrolled user. */
    method ProxyRegister(u: User)
      modifies this
      ensures users == old(users) + [u]
      ensures crops == old(crops) && transactions == old(transactions)
      ensures pending == old(pending) && currentUser == old(currentUser)
    {
      users := users + [u];
    }

    /** `addCrop`, from the farmer's and from the community agent's view:
        appends the crop. */
    method AddCrop(c: Crop)
      modifies this
      ensures crops == old(crops) + [c]
      ensures users == old(users) && transactions == old(transactions)
      ensures pending == old(pending) && currentUser == old(currentUser)
    {
      crops := crops + [c];
    }
  }
}
