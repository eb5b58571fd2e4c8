/** The marketplace's record shapes (types.ts). A field the source marks
    optional is an `Option`, except the boolean flags, whose absence every
    reader treats as `false`, and `_id`, whose absence every reader treats
    like the empty string. */
module Types {
  import opened Wrappers

  /** `'FARMER' | 'VENDOR' | 'COMMUNITY' | null`; `Unset` is `null`. */
  datatype Role = Farmer | Vendor | Community | Unset

  /** The transaction status union, in the order it is declared. */
  datatype Status = Pending | Paid | EscrowPaid | InTransit | Delivered | Disbursed

  datatype DeliveryMode = AgriConnect | SelfTransport

  datatype Coords = Coords(lat: real, lng: real)

  /** A user record. `dbId` is the server's `_id`, `id` the client-side id;
      the views match on different ones. */
  datatype User = User(
    coords: Option<Coords>,
    dbId: string,
    id: string,
    name: string,
    phone: string,
    password: Option<string>,
    email: Option<string>,
    role: Role,
    location: Option<string>,
    bankAccount: Option<string>,
    ifsc: Option<string>,
    verified: bool,
    verificationRequested: bool)

  /** The farmer's form keeps the quantity as free text ("500kg"); the
      community agent's form keeps a number. */
  datatype Quantity = Amount(n: real) | Label(text: string)

  datatype Crop = Crop(
    id: string,
    farmerId: string,
    farmerName: Option<string>,
    farmerLocation: Option<string>,
    farmerPhone: Option<string>,
    name: string,
    price: real,
    quantity: Quantity,
    unit: Option<string>,
    description: string,
    image: Option<string>,
    portfolioUrl: Option<string>,
    category: string,
    verified: bool,
    verificationRequested: bool,
    isSold: bool)

  /** Timestamps (`date`, `estimatedArrival`) are milliseconds since the
      epoch; the source stores their ISO-8601 rendering. */
  datatype Transaction = Transaction(
    id: string,
    buyerId: string,
    sellerId: string,
    cropId: string,
    amount: real,
    status: Status,
    deliveryMode: DeliveryMode,
    trackingInfo: Option<string>,
    deliveryAddress: Option<string>,
    estimatedArrival: Option<int>,
    date: int)

  /** `Partial<Transaction>`: a field is `Some` when the update carries that key. */
  datatype TxUpdate = TxUpdate(
    id: Option<string>,
    buyerId: Option<string>,
    sellerId: Option<string>,
    cropId: Option<string>,
    amount: Option<real>,
    status: Option<Status>,
    deliveryMode: Option<DeliveryMode>,
    trackingInfo: Option<string>,
    deliveryAddress: Option<string>,
    estimatedArrival: Option<int>,
    date: Option<int>)

  /** The update `{ status: s }` that both views send. */
  function StatusUpdate(s: Status): (u: TxUpdate)
    ensures u.status == Some(s)
    ensures u.id.None? && u.amount.None? && u.cropId.None?
  {
    TxUpdate(None, None, None, None, None, Some(s), None, None, None, None, None)
  }

  /** JavaScript truthiness of an optional string: present and non-empty. */
  predicate Truthy(s: Option<string>) {
    s.Some? && s.value != ""
  }
}
