/** POST /api/check_license (src/app/api/check_license/route.ts): the verification endpoint that
    third-party software calls. It reads the store and never writes it, so it is a function of a
    store snapshot, the configured secret and the current time. */
module CheckLicense {
  import opened Common
  import opened Seqs
  import opened Models
  import Http

  /** The decoded JSON body; a field that is absent or not a string is `None`. */
  datatype CheckRequest = CheckRequest(licenseKey: Option<string>, productName: Option<string>, accountNumber: Option<string>)

  datatype InvalidReason = LicenseNotFound | InvalidProduct | LicenseDeactivated | LicenseExpired

  /** The `{ status: 'valid' | 'invalid', ... }` body of a 200 reply. */
  datatype Verdict = Valid(product: string, expires: Option<int>, active: bool) | Invalid(reason: InvalidReason)

  /** The `x-api-secret` header must be present, non-empty and equal to the configured
      `API_SECRET` (which may itself be unset). */
  predicate SecretAccepted(header: Option<string>, configured: Option<string>)
  {
    Truthy(header) && configured == header
  }

  predicate FieldsPresent(q: CheckRequest)
  {
    Truthy(q.licenseKey) && Truthy(q.productName) && Truthy(q.accountNumber)
  }

  /** Expiry is strict: a license that expires exactly now is still good. */
  predicate Expired(l: License, now: int)
  {
    l.expires.Some? && l.expires.value < now
  }

  /** Where the three lookups of the handler stop. */
  datatype Lookup = NoConsumer | NoProduct | NoLicense | Found(license: License)

  /** `Consumer.findOne({ accountNumber })`: the first consumer of any owner with that number. */
  function FirstWithAccount(cs: seq<Consumer>, acct: string): (r: Option<nat>)
    ensures r.Some? ==> r.value < |cs| && cs[r.value].accountNumber == acct
    ensures r.Some? ==> forall k :: 0 <= k < r.value ==> cs[k].accountNumber != acct
    ensures r.None? <==> forall c :: c in cs ==> c.accountNumber != acct
  {
    FindFirst(cs, (c: Consumer) => c.accountNumber == acct)
  }

  /** `Product.findOne({ name })`: the first product of any owner with that name. */
  function FirstNamed(ps: seq<Product>, name: string): (r: Option<nat>)
    ensures r.Some? ==> r.value < |ps| && ps[r.value].name == name
    ensures r.Some? ==> forall k :: 0 <= k < r.value ==> ps[k].name != name
    ensures r.None? <==> forall p :: p in ps ==> p.name != name
  {
    FindFirst(ps, (p: Product) => p.name == name)
  }

  /** `Consumer.findOne({ accountNumber })`, then `Product.findOne({ name })`, then
      `License.findOne({ licenseKey, consumerId, productId })`. None of them is scoped to an
      owner, and the first two may match documents of several owners: each picks the first
      match in natural order, and the license is looked up for those two documents only. */
  function Resolve(db: Db, key: string, name: string, acct: string): (r: Lookup)
    ensures r == NoConsumer <==> forall c :: c in db.consumers ==> c.accountNumber != acct
    ensures r == NoProduct <==>
      (exists c :: c in db.consumers && c.accountNumber == acct)
      && forall p :: p in db.products ==> p.name != name
    ensures FirstWithAccount(db.consumers, acct).Some? && FirstNamed(db.products, name).Some? ==>
      var cid := db.consumers[FirstWithAccount(db.consumers, acct).value].id;
      var pid := db.products[FirstNamed(db.products, name).value].id;
      && (r == NoLicense <==>
            forall l :: l in db.licenses ==> !(l.licenseKey == key && l.consumerId == cid && l.productId == pid))
      && (r.Found? ==> r.license.consumerId == cid && r.license.productId == pid)
    ensures r.Found? ==>
      && r.license in db.licenses
      && r.license.licenseKey == key
      && (exists c :: c in db.consumers && c.id == r.license.consumerId && c.accountNumber == acct)
      && (exists p :: p in db.products && p.id == r.license.productId && p.name == name)
  {
    match FirstWithAccount(db.consumers, acct)
    case None => NoConsumer
    case Some(ci) =>
      assert db.consumers[ci] in db.consumers;
      match FirstNamed(db.products, name)
      case None => NoProduct
      case Some(pi) =>
        assert db.products[pi] in db.products;
        var cid, pid := db.consumers[ci].id, db.products[pi].id;
        match FindFirst(db.licenses, (l: License) => l.licenseKey == key && l.consumerId == cid && l.productId == pid)
        case None => NoLicense
        case Some(li) =>
          assert db.licenses[li] in db.licenses;
          Found(db.licenses[li])
  }

  /** The state checks come after the identity checks, and `active` is checked before expiry. */
  function Classify(look: Lookup, name: string, now: int): (v: Verdict)
    ensures v == Invalid(LicenseNotFound) <==> look == NoConsumer || look == NoLicense
    ensures v == Invalid(InvalidProduct) <==> look == NoProduct
    ensures v == Invalid(LicenseDeactivated) <==> look.Found? && !look.license.active
    ensures v == Invalid(LicenseExpired) <==> look.Found? && look.license.active && Expired(look.license, now)
    ensures v.Valid? <==> look.Found? && look.license.active && !Expired(look.license, now)
    ensures v.Valid? ==> v.product == name && v.expires == look.license.expires && v.active
  {
    match look
    case NoConsumer => Invalid(LicenseNotFound)
    case NoProduct => Invalid(InvalidProduct)
    case NoLicense => Invalid(LicenseNotFound)
    case Found(l) =>
      if !l.active then Invalid(LicenseDeactivated)
      else if Expired(l, now) then Invalid(LicenseExpired)
      else Valid(name, l.expires, true)
  }

  /** The handler. `body` is `None` when the request body is not JSON. */
  function Check(header: Option<string>, configured: Option<string>, body: Option<CheckRequest>, now: int, db: Db)
    : (r: Http.Response<Verdict>)
    ensures !SecretAccepted(header, configured) <==> r == Http.Err(401, Http.Unauthorized)
    ensures r == Http.Err(400, Http.InvalidJson) <==> SecretAccepted(header, configured) && body.None?
    ensures r == Http.Err(400, Http.MissingRequiredFields) <==>
      SecretAccepted(header, configured) && body.Some? && !FieldsPresent(body.value)
    ensures r.Ok? <==> SecretAccepted(header, configured) && body.Some? && FieldsPresent(body.value)
    ensures r.Ok? ==>
      var q := body.value;
      && r.status == 200
      && r.value == Classify(Resolve(db, q.licenseKey.value, q.productName.value, q.accountNumber.value), q.productName.value, now)
  {
    if !SecretAccepted(header, configured) then Http.Err(401, Http.Unauthorized)
    else if body.None? then Http.Err(400, Http.InvalidJson)
    else
      var q := body.value;
      if !FieldsPresent(q) then Http.Err(400, Http.MissingRequiredFields)
      else
        var look := Resolve(db, q.licenseKey.value, q.productName.value, q.accountNumber.value);
        Http.Ok(200, Classify(look, q.productName.value, now))
  }

  /** The license a caller means by (key, product name, account number). */
  ghost predicate Intended(db: Db, l: License, key: string, name: string, acct: string)
  {
    && l in db.licenses
    && l.licenseKey == key
    && (exists c :: c in db.consumers && c.id == l.consumerId && c.accountNumber == acct)
    && (exists p :: p in db.products && p.id == l.productId && p.name == name)
  }

  ghost predicate AtMostOneConsumerWithAccount(cs: seq<Consumer>, acct: string)
  {
    forall i, j :: 0 <= i < |cs| && 0 <= j < |cs| && cs[i].accountNumber == acct && cs[j].accountNumber == acct ==> i == j
  }

  ghost predicate AtMostOneProductNamed(ps: seq<Product>, name: string)
  {
    forall i, j :: 0 <= i < |ps| && 0 <= j < |ps| && ps[i].name == name && ps[j].name == name ==> i == j
  }

  /** When the account number and the product name each belong to one document in the whole
      store, the first-match lookups reach every license the caller can mean. */
  lemma {:induction false} IntendedIsFound(db: Db, key: string, name: string, acct: string, l: License)
    requires Unique(db.licenses, LicenseKeyOf)
    requires AtMostOneConsumerWithAccount(db.consumers, acct)
    requires AtMostOneProductNamed(db.products, name)
    requires Intended(db, l, key, name, acct)
    ensures Resolve(db, key, name, acct) == Found(l)
  {
    var c :| c in db.consumers && c.id == l.consumerId && c.accountNumber == acct;
    var p :| p in db.products && p.id == l.productId && p.name == name;
    var li :| 0 <= li < |db.licenses| && db.licenses[li] == l;
    var k :| 0 <= k < |db.consumers| && db.consumers[k] == c;
    var m :| 0 <= m < |db.products| && db.products[m] == p;
    assert FirstWithAccount(db.consumers, acct) == Some(k);
    assert FirstNamed(db.products, name) == Some(m);
    var cid, pid := c.id, p.id;
    var found := FindFirst(db.licenses, (x: License) => x.licenseKey == key && x.consumerId == cid && x.productId == pid);
    assert found.Some?;
    assert LicenseKeyOf(db.licenses[found.value]) == LicenseKeyOf(db.licenses[li]);
  }

  /** ... so that the verdict is valid exactly when some license with that key was issued for
      that product to that consumer and is active and unexpired. */
  lemma ValidExactlyForIntendedLicense(db: Db, key: string, name: string, acct: string, now: int)
    requires WellFormed(db)
    requires AtMostOneConsumerWithAccount(db.consumers, acct)
    requires AtMostOneProductNamed(db.products, name)
    ensures Classify(Resolve(db, key, name, acct), name, now).Valid? <==>
      exists l :: Intended(db, l, key, name, acct) && l.active && !Expired(l, now)
  {
    var look := Resolve(db, key, name, acct);
    if look.Found? {
      assert Intended(db, look.license, key, name, acct);
    }
    if l :| Intended(db, l, key, name, acct) && l.active && !Expired(l, now) {
      IntendedIsFound(db, key, name, acct, l);
    }
  }

  /** Owner B has an active, unexpired license for "Widget" and account "ACC-1"; owner A,
      whose consumer came first, has a consumer with the same account number. */
  function CrossOwnerStore(): Db
  {
    Db([Product("p1", "Widget", None, "B", 0)],
       [Consumer("c0", "Ann", "ann@a", None, None, "ACC-1", "A", 0, 0),
        Consumer("c1", "Bob", "bob@b", None, None, "ACC-1", "B", 0, 0)],
       [License("l1", "KEY", "p1", "c1", Trial, None, true, "B", 0)])
  }

  lemma CrossOwnerStoreWellFormed()
    ensures WellFormed(CrossOwnerStore())
  {
    var cs := CrossOwnerStore().consumers;
    assert cs[0].id != cs[1].id && cs[0].createdBy != cs[1].createdBy;
    assert ConsumerEmailKey(cs[0]) != ConsumerEmailKey(cs[1]);
    assert ConsumerAccountKey(cs[0]) != ConsumerAccountKey(cs[1]);
  }

  /** Product names and account numbers are unique per owner only, so the first-match lookups
      can pick another owner's document: in a store that satisfies every index, B's license is
      the one the request means, and yet the endpoint answers "License not found" because A's
      consumer with the same account number comes first. */
  lemma AccountLookupCrossesOwners()
    ensures WellFormed(CrossOwnerStore())
    ensures Intended(CrossOwnerStore(), CrossOwnerStore().licenses[0], "KEY", "Widget", "ACC-1")
    ensures Check(Some("s"), Some("s"), Some(CheckRequest(Some("KEY"), Some("Widget"), Some("ACC-1"))), 0, CrossOwnerStore())
      == Http.Ok(200, Invalid(LicenseNotFound))
  {
    var db := CrossOwnerStore();
    CrossOwnerStoreWellFormed();
    assert db.consumers[1] in db.consumers;
    assert db.products[0] in db.products;
    assert FirstWithAccount(db.consumers, "ACC-1") == Some(0);
    assert db.licenses[0].consumerId != db.consumers[0].id;
    assert Resolve(db, "KEY", "Widget", "ACC-1") == NoLicense;
  }
}
