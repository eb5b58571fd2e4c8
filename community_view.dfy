/** The community agent's view (components/CommunityView.tsx): regional
    matching, the verification queues, the farmer directory and its rating,
    proxy enrolment of farmers and proxy listing of their crops. */
module CommunityView {
  import opened Wrappers
  import opened Types
  import opened Seqs
  import opened Text

  /** A location as compared: trimmed and lower-cased. */
  function Clean(loc: string): string {
    Trim(Lower(loc))
  }

  /** `isRegional(otherLoc)` for an agent at `agentLoc`: false when either
      location is missing or empty, otherwise whether either cleaned location
      contains the other. */
  function IsRegional(agentLoc: Option<string>, otherLoc: Option<string>): (r: bool)
    ensures !Truthy(agentLoc) || !Truthy(otherLoc) ==> !r
    ensures Truthy(agentLoc) && Truthy(otherLoc) ==>
              (r <==> (Contains(Clean(otherLoc.value), Clean(agentLoc.value))
                       || Contains(Clean(agentLoc.value), Clean(otherLoc.value))))
  {
    if !Truthy(agentLoc) || !Truthy(otherLoc) then false
    else
      var mine := Clean(agentLoc.value);
      var theirs := Clean(otherLoc.value);
      Contains(theirs, mine) || Contains(mine, theirs)
  }

  /** The match does not depend on which side is the agent. */
  lemma IsRegionalSymmetric(a: Option<string>, b: Option<string>)
    ensures IsRegional(a, b) == IsRegional(b, a)
  {
  }

  /** Every non-empty location matches itself, even one of white space only. */
  lemma IsRegionalReflexive(a: Option<string>)
    requires Truthy(a)
    ensures IsRegional(a, a)
  {
    ContainsSelf(Clean(a.value));
  }

  /** An agent whose location is white space only matches every farmer with
      a non-empty location, since the empty string is contained in any. */
  lemma BlankAgentMatchesEveryone(agentLoc: string, other: Option<string>)
    requires agentLoc != [] && forall i :: 0 <= i < |agentLoc| ==> IsSpace(agentLoc[i])
    requires Truthy(other)
    ensures IsRegional(Some(agentLoc), other)
  {
    assert forall i :: 0 <= i < |Lower(agentLoc)| ==> IsSpace(Lower(agentLoc)[i]) by {
      forall i | 0 <= i < |Lower(agentLoc)| ensures IsSpace(Lower(agentLoc)[i]) {
        assert Lower(agentLoc)[i] == LowerChar(agentLoc[i]);
      }
    }
    TrimBlank(Lower(agentLoc));
    ContainsEmpty(Clean(other.value));
  }

  /** A location that lower-cases to `t`, where `t` has no white space at
      either end, is compared as `t`. */
  lemma CleanAs(s: string, t: string)
    requires Lower(s) == t
    requires t == [] || (!IsSpace(t[0]) && !IsSpace(t[|t| - 1]))
    ensures Clean(s) == t
  {
    TrimPlain(t);
  }

  /** A location with no upper-case letter and no white space at either end
      is compared as it is. */
  lemma CleanPlain(s: string)
    requires forall i :: 0 <= i < |s| ==> !('A' <= s[i] <= 'Z')
    requires s == [] || (!IsSpace(s[0]) && !IsSpace(s[|s| - 1]))
    ensures Clean(s) == s
  {
    assert Lower(s) == s;
    TrimPlain(s);
  }

  lemma CleanPunjab()
    ensures Clean("Punjab") == "punjab"
  {
    CleanAs("Punjab", "punjab");
  }

  lemma CleanPunjabIndia()
    ensures Clean("punjab, india") == "punjab, india"
  {
    var s := "punjab, india";
    assert forall i :: 0 <= i < |s| ==> s[i] in "punjab, india";
    CleanPlain(s);
  }

  lemma PunjabInIndia()
    ensures Clean("Punjab") == "punjab" && Clean("punjab, india") == "punjab, india"
    ensures Contains("punjab, india", "punjab")
  {
    CleanPunjab();
    CleanPunjabIndia();
    assert "punjab" <= "punjab, india"[0..];
  }

  lemma CleanKerala()
    ensures Clean("Kerala") == "kerala"
  {
    CleanAs("Kerala", "kerala");
  }

  lemma PunjabNotKerala()
    ensures Clean("Punjab") == "punjab" && Clean("Kerala") == "kerala"
    ensures !Contains("kerala", "punjab") && !Contains("punjab", "kerala")
  {
    CleanPunjab();
    CleanKerala();
    ContainsSameLength("kerala", "punjab");
    ContainsSameLength("punjab", "kerala");
    assert "kerala"[0] != "punjab"[0];
  }

  /** "Punjab" matches "punjab, india" but not "Kerala"; an empty location
      matches nothing. */
  lemma RegionalExamples()
    ensures IsRegional(Some("Punjab"), Some("punjab, india"))
    ensures !IsRegional(Some("Punjab"), Some("Kerala"))
    ensures !IsRegional(Some(""), Some("Punjab"))
  {
    PunjabInIndia();
    PunjabNotKerala();
  }

  /** `regionalFarmers`: farmers that carry coordinates or are regional. */
  function RegionalFarmers(users: seq<User>, agentLoc: Option<string>): (r: seq<User>)
    ensures forall u :: u in r <==> u in users && u.role == Farmer && (u.coords.Some? || IsRegional(agentLoc, u.location))
  {
    Filter(users, (u: User) => u.role == Farmer && (u.coords.Some? || IsRegional(agentLoc, u.location)))
  }

  /** `verifiedRegionalFarmers`: the directory of verified regional farmers. */
  function VerifiedRegionalFarmers(users: seq<User>, agentLoc: Option<string>): (r: seq<User>)
    ensures forall u :: u in r <==> u in RegionalFarmers(users, agentLoc) && u.verified
  {
    Filter(RegionalFarmers(users, agentLoc), (u: User) => u.verified)
  }

  /** `unverifiedRegionalUserRequests`. */
  function UnverifiedRegionalUserRequests(users: seq<User>, agentLoc: Option<string>): (r: seq<User>)
    ensures forall u :: u in r <==>
      u in users && u.role == Farmer && !u.verified && u.verificationRequested && IsRegional(agentLoc, u.location)
  {
    Filter(users, (u: User) => u.role == Farmer && !u.verified && u.verificationRequested && IsRegional(agentLoc, u.location))
  }

  /** A crop awaits this agent when it has a pending request, is not yet
      verified, and the first user whose `id` is its `farmerId` is regional. */
  predicate AwaitsAgent(users: seq<User>, agentLoc: Option<string>, c: Crop) {
    if !c.verificationRequested || c.verified then false
    else
      var farmer := Find(users, (u: User) => u.id == c.farmerId);
      farmer.Some? && IsRegional(agentLoc, farmer.value.location)
  }

  /** `regionalCropRequests`. */
  function RegionalCropRequests(crops: seq<Crop>, users: seq<User>, agentLoc: Option<string>): (r: seq<Crop>)
    ensures forall c :: c in r ==> c in crops && c.verificationRequested && !c.verified
    ensures forall c :: c in r ==> exists u :: u in users && u.id == c.farmerId && IsRegional(agentLoc, u.location)
    ensures forall c :: c in r <==> c in crops && AwaitsAgent(users, agentLoc, c)
  {
    Filter(crops, (c: Crop) => AwaitsAgent(users, agentLoc, c))
  }

  /** A crop whose farmer is matched on `_id` only (its `farmerId` is no
      user's `id`) never reaches the agent's queue. */
  lemma CropOfUnknownFarmerNotQueued(crops: seq<Crop>, users: seq<User>, agentLoc: Option<string>, c: Crop)
    requires forall u :: u in users ==> u.id != c.farmerId
    ensures c !in RegionalCropRequests(crops, users, agentLoc)
  {
  }

  /** `calculateRating`: `min(5, 3 + 0.2 * orders)` over the sales whose
      seller is `farmerId`, before rounding for display. */
  function CommunityRating(txs: seq<Transaction>, farmerId: string): (r: real)
    ensures 3.0 <= r <= 5.0
    ensures r == 5.0 <==> |Filter(txs, (tx: Transaction) => tx.sellerId == farmerId)| >= 10
  {
    var orders := |Filter(txs, (tx: Transaction) => tx.sellerId == farmerId)|;
    var raw := 3.0 + orders as real * 0.2;
    if raw < 5.0 then raw else 5.0
  }

  /** The same rating in tenths of a star: `min(50, 30 + 2 * orders)`. */
  lemma RatingInTenths(txs: seq<Transaction>, farmerId: string)
    ensures var orders := |Filter(txs, (tx: Transaction) => tx.sellerId == farmerId)|;
            CommunityRating(txs, farmerId) * 10.0 == (if 30 + 2 * orders < 50 then 30 + 2 * orders else 50) as real
  {
  }

  /** The proxy crop form's state (`Partial<Crop>`); the number inputs hold
      numbers. */
  datatype ProxyDraft = ProxyDraft(
    name: Option<string>,
    price: Option<real>,
    quantity: Option<real>,
    description: Option<string>,
    category: Option<string>,
    image: Option<string>)

  /** The fields `handleAddProxyCrop` insists on, each tested for truthiness:
      a zero price or quantity counts as missing. */
  predicate DraftComplete(d: ProxyDraft) {
    && Truthy(d.name)
    && d.price.Some? && d.price.value != 0.0
    && d.quantity.Some? && d.quantity.value != 0.0
    && Truthy(d.description)
  }

  /** `handleAddProxyCrop`: nothing without a selected farmer or with an
      incomplete draft; otherwise a crop listed pre-verified on the farmer's
      behalf. `suffix` stands for the random part of the id. */
  function ProxyCrop(farmer: Option<User>, d: ProxyDraft, suffix: string): (r: Option<Crop>)
    ensures r.Some? <==> farmer.Some? && DraftComplete(d)
    ensures r.Some? ==> var c := r.value;
      && c.id == "PROXY-CROP-" + suffix
      && c.verified && !c.verificationRequested && !c.isSold
      && c.unit == Some("kg")
      && c.farmerId == (if farmer.value.dbId != "" then farmer.value.dbId else farmer.value.id)
      && c.farmerLocation == farmer.value.location
      && c.farmerName == Some(farmer.value.name) && c.farmerPhone == Some(farmer.value.phone)
      && c.description == d.description.value && c.image == d.image
      && c.category == (if Truthy(d.category) then d.category.value else "Vegetables")
      && c.name == d.name.value && c.price == d.price.value && c.quantity == Amount(d.quantity.value)
      && c.price != 0.0
  {
    if farmer.None? then None
    else if !Truthy(d.name) || !(d.price.Some? && d.price.value != 0.0)
         || !(d.quantity.Some? && d.quantity.value != 0.0) || !Truthy(d.description) then None
    else
      var f := farmer.value;
      Some(Crop(
        "PROXY-CROP-" + suffix,
        if f.dbId != "" then f.dbId else f.id,
        Some(f.name), f.location, Some(f.phone),
        d.name.value, d.price.value, Amount(d.quantity.value), Some("kg"),
        d.description.value, d.image, None,
        if Truthy(d.category) then d.category.value else "Vegetables",
        true, false, false))
  }

  /** A proxy-listed crop never enters any agent's verification queue. */
  lemma ProxyCropNeverQueued(crops: seq<Crop>, users: seq<User>, agentLoc: Option<string>,
                             farmer: Option<User>, d: ProxyDraft, suffix: string)
    requires ProxyCrop(farmer, d, suffix).Some?
    ensures ProxyCrop(farmer, d, suffix).value !in RegionalCropRequests(crops + [ProxyCrop(farmer, d, suffix).value], users, agentLoc)
  {
  }

  /** The enrolment form's state: name, phone and the agent's own location. */
  datatype ProxyForm = ProxyForm(name: string, phone: string, location: Option<string>)

  /** The user `onProxyRegister` receives: a verified farmer with fixed
      coordinates and no `_id`. `suffix` stands for the random part of the id. */
  function ProxyFarmer(form: ProxyForm, suffix: string): (u: User)
    ensures u.role == Farmer && u.verified && !u.verificationRequested
    ensures u.id == "F-" + suffix && u.dbId == ""
    ensures u.coords == Some(Coords(30.9, 75.8))
    ensures u.name == form.name && u.phone == form.phone && u.location == form.location
  {
    User(Some(Coords(30.9, 75.8)), "", "F-" + suffix, form.name, form.phone, None, None,
         Farmer, form.location, None, None, true, false)
  }

  /** An enrolled farmer is in every agent's directory, whatever the
      locations, and never in a verification queue. */
  lemma ProxyFarmerListed(users: seq<User>, agentLoc: Option<string>, form: ProxyForm, suffix: string)
    ensures ProxyFarmer(form, suffix) in VerifiedRegionalFarmers(users + [ProxyFarmer(form, suffix)], agentLoc)
    ensures ProxyFarmer(form, suffix) !in UnverifiedRegionalUserRequests(users + [ProxyFarmer(form, suffix)], agentLoc)
  {
    var u := ProxyFarmer(form, suffix);
    assert u in users + [u];
  }
}
