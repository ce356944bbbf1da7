/** The owner-scoped license endpoints of src/app/api/licenses/route.ts: listing (GET),
    issuance (POST), deletion (DELETE) and the trial-to-full upgrade (PUT).

    Each handler that writes is given twice: a pure function from a store snapshot to the reply
    and the new license collection, which the lemmas below are about, and a method that performs
    the same steps on a `Database.Store` and is proved to agree with it. `session` is the signed-in
    user's id (`None` when there is no session), `validId` is `mongoose.Types.ObjectId.isValid`,
    and the fresh `_id`, the uuid license key and the clock are parameters. */
module Licenses {
  import opened Common
  import opened Seqs
  import opened Models
  import Http
  import Database

  // ---------------------------------------------------------------- GET

  /** `populate('productId', 'name')`. */
  datatype ProductRef = ProductRef(id: Id, name: string)

  /** `populate('consumerId', 'name email accountNumber')`. */
  datatype ConsumerRef = ConsumerRef(id: Id, name: string, email: string, accountNumber: string)

  /** One element of the listing. `expires` is `None` for a license without expiry; a reference
      whose document no longer exists populates to `None`, and so does its id field. */
  datatype LicenseView = LicenseView(
    id: Id, licenseKey: string, productId: Option<Id>, consumerId: Option<Id>,
    licenseType: LicenseType, expires: Option<int>, active: bool, createdAt: int,
    product: Option<ProductRef>, consumer: Option<ConsumerRef>)

  /** Population looks the reference up by id alone, in the whole collection. */
  function PopulateProduct(ps: seq<Product>, id: Id): (r: Option<ProductRef>)
    ensures r.None? <==> forall p :: p in ps ==> p.id != id
    ensures r.Some? ==> r.value.id == id && exists p :: p in ps && p.id == id && p.name == r.value.name
  {
    match FindFirst(ps, (p: Product) => p.id == id)
    case None => None
    case Some(i) =>
      assert ps[i] in ps;
      Some(ProductRef(ps[i].id, ps[i].name))
  }

  function PopulateConsumer(cs: seq<Consumer>, id: Id): (r: Option<ConsumerRef>)
    ensures r.None? <==> forall c :: c in cs ==> c.id != id
    ensures r.Some? ==> r.value.id == id
    ensures r.Some? ==> exists c :: c in cs && c.id == id && r.value == ConsumerRef(c.id, c.name, c.email, c.accountNumber)
  {
    match FindFirst(cs, (c: Consumer) => c.id == id)
    case None => None
    case Some(i) =>
      assert cs[i] in cs;
      Some(ConsumerRef(cs[i].id, cs[i].name, cs[i].email, cs[i].accountNumber))
  }

  function ViewOf(db: Db, l: License): LicenseView
  {
    var product := PopulateProduct(db.products, l.productId);
    var consumer := PopulateConsumer(db.consumers, l.consumerId);
    LicenseView(
      l.id, l.licenseKey,
      if product.Some? then Some(l.productId) else None,
      if consumer.Some? then Some(l.consumerId) else None,
      l.licenseType, l.expires, l.active, l.createdAt, product, consumer)
  }

  function ViewCreatedAt(v: LicenseView): int { v.createdAt }

  /** `License.find({ createdBy: u }).sort({ createdAt: -1 })`: the caller's licenses, each as
      often as it is stored and no other, newest first. */
  function Listed(ls: seq<License>, u: UserId): (r: seq<License>)
    ensures forall l :: multiset(r)[l] == if l.createdBy == u then multiset(ls)[l] else 0
    ensures Descending(r, CreatedAt)
  {
    SortDescending(Filter(ls, (l: License) => l.createdBy == u), CreatedAt)
  }

  /** GET /api/licenses. */
  function List(db: Db, session: Option<UserId>): (r: Http.Response<seq<LicenseView>>)
    ensures session.None? <==> r == Http.Err(401, Http.Unauthorized)
    ensures session.Some? ==> r.Ok? && r.status == 200
    ensures r.Ok? ==>
      var listed := Listed(db.licenses, session.value);
      && |r.value| == |listed|
      && (forall k :: 0 <= k < |listed| ==> r.value[k] == ViewOf(db, listed[k]))
      && Descending(r.value, ViewCreatedAt)
  {
    match session
    case None => Http.Err(401, Http.Unauthorized)
    case Some(u) =>
      var listed := Listed(db.licenses, u);
      Http.Ok(200, seq(|listed|, k requires 0 <= k < |listed| => ViewOf(db, listed[k])))
  }

  /** The listing shows every license of the caller and only those: a license appears in it
      exactly when it is stored and was created by the caller. */
  lemma {:induction false} ListShowsExactlyOwnLicenses(db: Db, u: UserId, l: License)
    ensures ViewOf(db, l) in List(db, Some(u)).value <== l in db.licenses && l.createdBy == u
    ensures l in Listed(db.licenses, u) <==> l in db.licenses && l.createdBy == u
  {
    var listed := Listed(db.licenses, u);
    assert l in listed <==> multiset(listed)[l] > 0;
    if l in db.licenses && l.createdBy == u {
      var k :| 0 <= k < |listed| && listed[k] == l;
      assert List(db, Some(u)).value[k] == ViewOf(db, l);
    }
  }

  /** Every license in the listing belongs to the caller. */
  lemma ListShowsNoOtherOwner(db: Db, u: UserId, k: nat)
    requires k < |Listed(db.licenses, u)|
    ensures Listed(db.licenses, u)[k].createdBy == u && Listed(db.licenses, u)[k] in db.licenses
  {
    var listed := Listed(db.licenses, u);
    assert listed[k] in multiset(listed);
  }

  // ---------------------------------------------------------------- POST

  /** The decoded JSON body of an issuance; a field that is absent or not a string is `None`.
      `expires` is the parsed date, `None` when the field is absent or falsy. */
  datatype IssueRequest = IssueRequest(
    productId: Option<string>, consumerId: Option<string>, licenseType: Option<string>, expires: Option<int>)

  predicate IssueFieldsPresent(q: IssueRequest)
  {
    Truthy(q.productId) && Truthy(q.consumerId) && Truthy(q.licenseType)
  }

  /** Every check the handler makes before it saves: both ids well formed, and both the product
      and the consumer exist and belong to the caller. */
  predicate IssueAdmitted(db: Db, u: UserId, q: IssueRequest, validId: Id -> bool)
  {
    && IssueFieldsPresent(q)
    && validId(q.productId.value) && validId(q.consumerId.value)
    && OwnedProduct(db.products, q.productId.value, u).Some?
    && OwnedConsumer(db.consumers, q.consumerId.value, u).Some?
  }

  /** `new License({ licenseKey: uuidv4(), productId, consumerId, licenseType, expires, createdBy })`. */
  function IssueDraft(q: IssueRequest, u: UserId, key: string): LicenseDraft
    requires IssueFieldsPresent(q)
  {
    LicenseDraft(key, q.productId.value, q.consumerId.value, q.licenseType.value, q.expires, u)
  }

  /** POST /api/licenses: the checks in the handler's order, then the save. */
  function Issue(db: Db, session: Option<UserId>, body: Option<IssueRequest>, validId: Id -> bool,
                 id: Id, key: string, now: int): (r: Http.Outcome<License, License>)
    ensures session.None? <==> r.reply == Http.Err(401, Http.Unauthorized)
    ensures r.reply == Http.Err(500, Http.UnreadableBody) <==> session.Some? && body.None?
    ensures r.reply == Http.Err(400, Http.MissingRequiredFields) <==>
      session.Some? && body.Some? && !IssueFieldsPresent(body.value)
    ensures r.reply == Http.Err(400, Http.InvalidProductId) <==>
      session.Some? && body.Some? && IssueFieldsPresent(body.value) && !validId(body.value.productId.value)
    ensures r.reply == Http.Err(400, Http.InvalidConsumerId) <==>
      session.Some? && body.Some? && IssueFieldsPresent(body.value) && validId(body.value.productId.value)
      && !validId(body.value.consumerId.value)
    ensures r.reply == Http.Err(404, Http.ProductNotFound) <==>
      session.Some? && body.Some? && IssueFieldsPresent(body.value)
      && validId(body.value.productId.value) && validId(body.value.consumerId.value)
      && OwnedProduct(db.products, body.value.productId.value, session.value).None?
    ensures r.reply == Http.Err(404, Http.ConsumerNotFound) <==>
      session.Some? && body.Some? && IssueFieldsPresent(body.value)
      && validId(body.value.productId.value) && validId(body.value.consumerId.value)
      && OwnedProduct(db.products, body.value.productId.value, session.value).Some?
      && OwnedConsumer(db.consumers, body.value.consumerId.value, session.value).None?
    ensures session.Some? && body.Some? && IssueAdmitted(db, session.value, body.value, validId) ==>
      var saved := LicenseInsert(db.licenses, IssueDraft(body.value, session.value, key), id, now);
      r.reply == if saved.Success? then Http.Ok(201, saved.value) else Http.Err(500, Http.ServerError(saved.error))
    ensures r.reply.Ok? ==>
      && r.reply.status == 201
      && r.after == db.licenses + [r.reply.value]
      && r.reply.value.createdBy == session.value
      && r.reply.value.licenseKey == key && r.reply.value.active
      && OwnedProduct(db.products, r.reply.value.productId, session.value).Some?
      && OwnedConsumer(db.consumers, r.reply.value.consumerId, session.value).Some?
    ensures r.reply.Err? ==> r.after == db.licenses
  {
    if session.None? then Http.Outcome(Http.Err(401, Http.Unauthorized), db.licenses)
    else if body.None? then Http.Outcome(Http.Err(500, Http.UnreadableBody), db.licenses)
    else
      var u, q := session.value, body.value;
      if !IssueFieldsPresent(q) then Http.Outcome(Http.Err(400, Http.MissingRequiredFields), db.licenses)
      else if !validId(q.productId.value) then Http.Outcome(Http.Err(400, Http.InvalidProductId), db.licenses)
      else if !validId(q.consumerId.value) then Http.Outcome(Http.Err(400, Http.InvalidConsumerId), db.licenses)
      else if OwnedProduct(db.products, q.productId.value, u).None? then Http.Outcome(Http.Err(404, Http.ProductNotFound), db.licenses)
      else if OwnedConsumer(db.consumers, q.consumerId.value, u).None? then Http.Outcome(Http.Err(404, Http.ConsumerNotFound), db.licenses)
      else match LicenseInsert(db.licenses, IssueDraft(q, u, key), id, now)
        case Failure(e) => Http.Outcome(Http.Err(500, Http.ServerError(e)), db.licenses)
        case Success(l) => Http.Outcome(Http.Ok(201, l), db.licenses + [l])
  }

  /** Issuance keeps every index of the collection and one license per (product, consumer, owner). */
  lemma IssueKeepsInvariants(db: Db, session: Option<UserId>, body: Option<IssueRequest>, validId: Id -> bool,
                             id: Id, key: string, now: int)
    requires LicensesWellFormed(db.licenses)
    ensures LicensesWellFormed(Issue(db, session, body, validId, id, key, now).after)
    ensures OnePerTriple(db.licenses) ==> OnePerTriple(Issue(db, session, body, validId, id, key, now).after)
  {
    if session.Some? && body.Some? && IssueAdmitted(db, session.value, body.value, validId) {
      var d := IssueDraft(body.value, session.value, key);
      if LicenseInsert(db.licenses, d, id, now).Success? {
        LicenseInsertPreserves(db.licenses, d, id, now);
      }
    }
  }

  /** Once a license is issued for a product and a consumer, any later issuance for the same
      pair by the same owner is refused by the pre-save hook, whatever license type it asks
      for: a trial cannot be followed by a separately issued full license. Nothing is stored. */
  lemma {:induction false} SecondIssueRefused(db: Db, u: UserId, q: IssueRequest, q': IssueRequest, validId: Id -> bool,
                                              id: Id, key: string, now: int, id': Id, key': string, now': int)
    requires Issue(db, Some(u), Some(q), validId, id, key, now).reply.Ok?
    requires q'.productId == q.productId && q'.consumerId == q.consumerId
    requires q'.licenseType == Some("full") || q'.licenseType == Some("trial")
    requires key' != ""
    ensures
      var after := db.(licenses := Issue(db, Some(u), Some(q), validId, id, key, now).after);
      Issue(after, Some(u), Some(q'), validId, id', key', now')
        == Http.Outcome(Http.Err(500, Http.ServerError(DuplicateLicense)), after.licenses)
  {
    var first := Issue(db, Some(u), Some(q), validId, id, key, now);
    var after := db.(licenses := first.after);
    assert IssueAdmitted(after, u, q', validId);
    var d' := IssueDraft(q', u, key');
    var n := |db.licenses|;
    assert LicenseTripleKey(after.licenses[n]) == (d'.productId, d'.consumerId, d'.createdBy);
    assert Taken(after.licenses, LicenseTripleKey, (d'.productId, d'.consumerId, d'.createdBy));
  }

  // ---------------------------------------------------------------- DELETE

  /** The `{ licenseId }` body of DELETE; absent or not a string is `None`. */
  datatype DeleteRequest = DeleteRequest(licenseId: Option<string>)

  /** DELETE /api/licenses: removes the caller's license with that id. */
  function Delete(db: Db, session: Option<UserId>, body: Option<DeleteRequest>, validId: Id -> bool)
    : (r: Http.Outcome<(), License>)
    ensures session.None? <==> r.reply == Http.Err(401, Http.Unauthorized)
    ensures r.reply == Http.Err(500, Http.UnreadableBody) <==> session.Some? && body.None?
    ensures r.reply == Http.Err(400, Http.InvalidLicenseId) <==>
      session.Some? && body.Some? && !(Truthy(body.value.licenseId) && validId(body.value.licenseId.value))
    ensures r.reply == Http.Err(404, Http.LicenseNotFound) <==>
      session.Some? && body.Some? && Truthy(body.value.licenseId) && validId(body.value.licenseId.value)
      && OwnedLicense(db.licenses, body.value.licenseId.value, session.value).None?
    ensures r.reply.Ok? <==>
      session.Some? && body.Some? && Truthy(body.value.licenseId) && validId(body.value.licenseId.value)
      && OwnedLicense(db.licenses, body.value.licenseId.value, session.value).Some?
    ensures r.reply.Ok? ==>
      && r.reply.status == 200
      && r.after == RemoveAt(db.licenses, OwnedLicense(db.licenses, body.value.licenseId.value, session.value).value)
    ensures r.reply.Err? ==> r.after == db.licenses
  {
    if session.None? then Http.Outcome(Http.Err(401, Http.Unauthorized), db.licenses)
    else if body.None? then Http.Outcome(Http.Err(500, Http.UnreadableBody), db.licenses)
    else
      var u, q := session.value, body.value;
      if !Truthy(q.licenseId) || !validId(q.licenseId.value) then Http.Outcome(Http.Err(400, Http.InvalidLicenseId), db.licenses)
      else match OwnedLicense(db.licenses, q.licenseId.value, u)
        case None => Http.Outcome(Http.Err(404, Http.LicenseNotFound), db.licenses)
        case Some(i) => Http.Outcome(Http.Ok(200, ()), RemoveAt(db.licenses, i))
  }

  lemma DeleteKeepsInvariants(db: Db, session: Option<UserId>, body: Option<DeleteRequest>, validId: Id -> bool)
    requires LicensesWellFormed(db.licenses)
    ensures LicensesWellFormed(Delete(db, session, body, validId).after)
    ensures OnePerTriple(db.licenses) ==> OnePerTriple(Delete(db, session, body, validId).after)
  {
    var r := Delete(db, session, body, validId);
    if r.reply.Ok? {
      LicenseRemovePreserves(db.licenses, OwnedLicense(db.licenses, body.value.licenseId.value, session.value).value);
    }
  }

  /** A delete removes exactly the caller's license with the given id: every other license,
      and in particular every license of another owner, stays. */
  lemma {:induction false} DeleteRemovesOnlyThatLicense(db: Db, u: UserId, body: Option<DeleteRequest>,
                                                        validId: Id -> bool, l: License)
    requires Unique(db.licenses, LicenseIdOf)
    ensures var r := Delete(db, Some(u), body, validId);
      l in r.after <==> l in db.licenses && !(r.reply.Ok? && l.id == body.value.licenseId.value)
  {
    var r := Delete(db, Some(u), body, validId);
    if r.reply.Ok? {
      var id := body.value.licenseId.value;
      var i := OwnedLicense(db.licenses, id, u).value;
      RemoveAtKeepsOthers(db.licenses, i, l);
      if l in db.licenses && l.id != id {
        var k :| 0 <= k < |db.licenses| && db.licenses[k] == l;
        assert k != i;
      }
      if l in r.after {
        var k :| 0 <= k < |db.licenses| && k != i && db.licenses[k] == l;
        assert LicenseIdOf(db.licenses[k]) != LicenseIdOf(db.licenses[i]);
      }
    }
  }

  /** The caller's own stored license, named by a well-formed id, is deleted: the reply is 200
      and exactly that document leaves the collection. */
  lemma DeleteOfOwnLicenseSucceeds(db: Db, u: UserId, k: nat, validId: Id -> bool)
    requires Unique(db.licenses, LicenseIdOf) && k < |db.licenses|
    requires db.licenses[k].createdBy == u && db.licenses[k].id != "" && validId(db.licenses[k].id)
    ensures Delete(db, Some(u), Some(DeleteRequest(Some(db.licenses[k].id))), validId)
      == Http.Outcome(Http.Ok(200, ()), RemoveAt(db.licenses, k))
  {
    OwnedLicenseIsTheLicenseWithThatId(db.licenses, k, u);
  }

  /** Deleting the same license again answers 404 and changes nothing. */
  lemma DeleteTwiceNotFound(db: Db, u: UserId, body: Option<DeleteRequest>, validId: Id -> bool)
    requires Unique(db.licenses, LicenseIdOf)
    requires Delete(db, Some(u), body, validId).reply.Ok?
    ensures var after := db.(licenses := Delete(db, Some(u), body, validId).after);
      Delete(after, Some(u), body, validId) == Http.Outcome(Http.Err(404, Http.LicenseNotFound), after.licenses)
  {
    var after := db.(licenses := Delete(db, Some(u), body, validId).after);
    var id := body.value.licenseId.value;
    forall k | 0 <= k < |after.licenses|
      ensures !(after.licenses[k].id == id && after.licenses[k].createdBy == u)
    {
      DeleteRemovesOnlyThatLicense(db, u, body, validId, after.licenses[k]);
    }
  }

  // ---------------------------------------------------------------- PUT

  /** The `{ licenseId, licenseType }` body of PUT. */
  datatype ToFullRequest = ToFullRequest(licenseId: Option<string>, licenseType: Option<string>)

  /** PUT /api/licenses: turns the caller's trial license into a full one. */
  function Upgrade(db: Db, session: Option<UserId>, body: Option<ToFullRequest>, validId: Id -> bool)
    : (r: Http.Outcome<License, License>)
    ensures session.None? <==> r.reply == Http.Err(401, Http.Unauthorized)
    ensures r.reply == Http.Err(500, Http.UnreadableBody) <==> session.Some? && body.None?
    ensures r.reply == Http.Err(400, Http.InvalidLicenseId) <==>
      session.Some? && body.Some? && !(Truthy(body.value.licenseId) && validId(body.value.licenseId.value))
    ensures r.reply == Http.Err(400, Http.OnlyUpgradeToFull) <==>
      session.Some? && body.Some? && Truthy(body.value.licenseId) && validId(body.value.licenseId.value)
      && body.value.licenseType != Some("full")
    ensures r.reply == Http.Err(404, Http.LicenseNotFound) <==>
      session.Some? && body.Some? && Truthy(body.value.licenseId) && validId(body.value.licenseId.value)
      && body.value.licenseType == Some("full")
      && OwnedLicense(db.licenses, body.value.licenseId.value, session.value).None?
    ensures r.reply == Http.Err(400, Http.LicenseAlreadyFull) <==>
      session.Some? && body.Some? && Truthy(body.value.licenseId) && validId(body.value.licenseId.value)
      && body.value.licenseType == Some("full")
      && OwnedLicense(db.licenses, body.value.licenseId.value, session.value).Some?
      && db.licenses[OwnedLicense(db.licenses, body.value.licenseId.value, session.value).value].licenseType == Full
    ensures r.reply.Ok? <==>
      session.Some? && body.Some? && Truthy(body.value.licenseId) && validId(body.value.licenseId.value)
      && body.value.licenseType == Some("full")
      && OwnedLicense(db.licenses, body.value.licenseId.value, session.value).Some?
      && var i := OwnedLicense(db.licenses, body.value.licenseId.value, session.value).value;
      && db.licenses[i].licenseType == Trial
      && LicenseFieldsOk(db.licenses[i])
      && LicenseIndexClash(db.licenses, i, db.licenses[i].(licenseType := Full)).None?
    ensures r.reply.Ok? ==>
      var i := OwnedLicense(db.licenses, body.value.licenseId.value, session.value).value;
      && r.reply.status == 200
      && db.licenses[i].licenseType == Trial
      && r.reply.value == db.licenses[i].(licenseType := Full)
      && r.after == db.licenses[i := r.reply.value]
    ensures r.reply.Err? ==> r.after == db.licenses
  {
    if session.None? then Http.Outcome(Http.Err(401, Http.Unauthorized), db.licenses)
    else if body.None? then Http.Outcome(Http.Err(500, Http.UnreadableBody), db.licenses)
    else
      var u, q := session.value, body.value;
      if !Truthy(q.licenseId) || !validId(q.licenseId.value) then Http.Outcome(Http.Err(400, Http.InvalidLicenseId), db.licenses)
      else if q.licenseType != Some("full") then Http.Outcome(Http.Err(400, Http.OnlyUpgradeToFull), db.licenses)
      else match OwnedLicense(db.licenses, q.licenseId.value, u)
        case None => Http.Outcome(Http.Err(404, Http.LicenseNotFound), db.licenses)
        case Some(i) =>
          if db.licenses[i].licenseType == Full then Http.Outcome(Http.Err(400, Http.LicenseAlreadyFull), db.licenses)
          else
            var doc := db.licenses[i].(licenseType := Full);
            match LicenseUpdate(db.licenses, i, doc)
            case Failure(e) => Http.Outcome(Http.Err(500, Http.ServerError(e)), db.licenses)
            case Success(l) => Http.Outcome(Http.Ok(200, l), db.licenses[i := l])
  }

  lemma UpgradeKeepsInvariants(db: Db, session: Option<UserId>, body: Option<ToFullRequest>, validId: Id -> bool)
    requires LicensesWellFormed(db.licenses)
    ensures LicensesWellFormed(Upgrade(db, session, body, validId).after)
    ensures OnePerTriple(db.licenses) ==> OnePerTriple(Upgrade(db, session, body, validId).after)
  {
    var r := Upgrade(db, session, body, validId);
    if r.reply.Ok? {
      var i := OwnedLicense(db.licenses, body.value.licenseId.value, session.value).value;
      LicenseUpdatePreserves(db.licenses, i, r.reply.value);
    }
  }

  /** A full license beside the caller's trial for the same product, consumer and owner (which the
      compound index admits, but the insert hook does not) makes the save of the upgrade clash on the
      compound index: the reply is 500 and nothing changes. */
  lemma UpgradeBesideFullSiblingFails(db: Db, u: UserId, k: nat, j: nat, validId: Id -> bool)
    requires LicensesWellFormed(db.licenses)
    requires k < |db.licenses| && db.licenses[k].createdBy == u && db.licenses[k].licenseType == Trial
    requires validId(db.licenses[k].id) && db.licenses[k].id != ""
    requires j < |db.licenses| && j != k
    requires db.licenses[j].licenseType == Full && LicenseTripleKey(db.licenses[j]) == LicenseTripleKey(db.licenses[k])
    ensures Upgrade(db, Some(u), Some(ToFullRequest(Some(db.licenses[k].id), Some("full"))), validId)
      == Http.Outcome(Http.Err(500, Http.ServerError(DuplicateKey(LicenseComboPattern))), db.licenses)
  {
    var ls := db.licenses;
    OwnedLicenseIsTheLicenseWithThatId(ls, k, u);
    var doc := ls[k].(licenseType := Full);
    assert LicenseComboKey(ls[j]) == LicenseComboKey(doc);
    assert !TakenElsewhere(ls, k, LicenseIdOf, doc.id) by {
      forall i | 0 <= i < |ls| && i != k
        ensures LicenseIdOf(ls[i]) != doc.id
      {
        assert LicenseIdOf(ls[i]) != LicenseIdOf(ls[k]);
      }
    }
    assert !TakenElsewhere(ls, k, LicenseKeyOf, doc.licenseKey) by {
      forall i | 0 <= i < |ls| && i != k
        ensures LicenseKeyOf(ls[i]) != doc.licenseKey
      {
        assert LicenseKeyOf(ls[i]) != LicenseKeyOf(ls[k]);
      }
    }
  }

  /** With one license per (product, consumer, owner), the save of an upgrade never clashes with
      an index: the caller's own trial license is always upgraded. */
  lemma {:induction false} UpgradeOfOwnTrialSucceeds(db: Db, u: UserId, k: nat, validId: Id -> bool)
    requires LicensesWellFormed(db.licenses) && OnePerTriple(db.licenses)
    requires k < |db.licenses| && db.licenses[k].createdBy == u && db.licenses[k].licenseType == Trial
    requires validId(db.licenses[k].id) && db.licenses[k].id != ""
    ensures Upgrade(db, Some(u), Some(ToFullRequest(Some(db.licenses[k].id), Some("full"))), validId).reply
      == Http.Ok(200, db.licenses[k].(licenseType := Full))
  {
    var ls := db.licenses;
    OwnedLicenseIsTheLicenseWithThatId(ls, k, u);
    var doc := ls[k].(licenseType := Full);
    assert !TakenElsewhere(ls, k, LicenseComboKey, LicenseComboKey(doc)) by {
      forall j | 0 <= j < |ls| && j != k
        ensures LicenseComboKey(ls[j]) != LicenseComboKey(doc)
      {
        assert LicenseTripleKey(ls[j]) != LicenseTripleKey(ls[k]);
      }
    }
    assert !TakenElsewhere(ls, k, LicenseIdOf, doc.id) by {
      forall j | 0 <= j < |ls| && j != k
        ensures LicenseIdOf(ls[j]) != doc.id
      {
        assert LicenseIdOf(ls[j]) != LicenseIdOf(ls[k]);
      }
    }
    assert !TakenElsewhere(ls, k, LicenseKeyOf, doc.licenseKey) by {
      forall j | 0 <= j < |ls| && j != k
        ensures LicenseKeyOf(ls[j]) != doc.licenseKey
      {
        assert LicenseKeyOf(ls[j]) != LicenseKeyOf(ls[k]);
      }
    }
  }

  /** The upgrade is one way and happens once: repeating it answers "already full" and changes
      nothing. */
  lemma UpgradeIsTerminal(db: Db, u: UserId, body: Option<ToFullRequest>, validId: Id -> bool)
    requires Upgrade(db, Some(u), body, validId).reply.Ok?
    ensures var after := db.(licenses := Upgrade(db, Some(u), body, validId).after);
      Upgrade(after, Some(u), body, validId) == Http.Outcome(Http.Err(400, Http.LicenseAlreadyFull), after.licenses)
  {
    var r := Upgrade(db, Some(u), body, validId);
    var id := body.value.licenseId.value;
    var i := OwnedLicense(db.licenses, id, u).value;
    OwnedLicenseAfterUpdate(db.licenses, i, r.reply.value, id, u);
  }

  // ---------------------------------------------------------------- handlers on the store

  method Post(store: Database.Store, session: Option<UserId>, body: Option<IssueRequest>, validId: Id -> bool,
              id: Id, key: string, now: int) returns (reply: Http.Response<License>)
    requires store.Valid()
    modifies store`licenses
    ensures store.Valid()
    ensures Http.Outcome(reply, store.licenses) == Issue(old(store.Snapshot()), session, body, validId, id, key, now)
  {
    if session.None? {
      return Http.Err(401, Http.Unauthorized);
    }
    if body.None? {
      return Http.Err(500, Http.UnreadableBody);
    }
    var u, q := session.value, body.value;
    if !IssueFieldsPresent(q) {
      return Http.Err(400, Http.MissingRequiredFields);
    }
    if !validId(q.productId.value) {
      return Http.Err(400, Http.InvalidProductId);
    }
    if !validId(q.consumerId.value) {
      return Http.Err(400, Http.InvalidConsumerId);
    }
    var product := OwnedProduct(store.products, q.productId.value, u);
    if product.None? {
      return Http.Err(404, Http.ProductNotFound);
    }
    var consumer := OwnedConsumer(store.consumers, q.consumerId.value, u);
    if consumer.None? {
      return Http.Err(404, Http.ConsumerNotFound);
    }
    var saved := store.SaveNewLicense(IssueDraft(q, u, key), id, now);
    match saved {
      case Failure(e) => reply := Http.Err(500, Http.ServerError(e));
      case Success(l) => reply := Http.Ok(201, l);
    }
  }

  method Remove(store: Database.Store, session: Option<UserId>, body: Option<DeleteRequest>, validId: Id -> bool)
    returns (reply: Http.Response<()>)
    requires store.Valid()
    modifies store`licenses
    ensures store.Valid()
    ensures Http.Outcome(reply, store.licenses) == Delete(old(store.Snapshot()), session, body, validId)
  {
    if session.None? {
      return Http.Err(401, Http.Unauthorized);
    }
    if body.None? {
      return Http.Err(500, Http.UnreadableBody);
    }
    var u, q := session.value, body.value;
    if !Truthy(q.licenseId) || !validId(q.licenseId.value) {
      return Http.Err(400, Http.InvalidLicenseId);
    }
    var deleted := store.FindOneAndDeleteLicense(q.licenseId.value, u);
    if deleted.None? {
      return Http.Err(404, Http.LicenseNotFound);
    }
    reply := Http.Ok(200, ());
  }

  method Put(store: Database.Store, session: Option<UserId>, body: Option<ToFullRequest>, validId: Id -> bool)
    returns (reply: Http.Response<License>)
    requires store.Valid()
    modifies store`licenses
    ensures store.Valid()
    ensures Http.Outcome(reply, store.licenses) == Upgrade(old(store.Snapshot()), session, body, validId)
  {
    if session.None? {
      return Http.Err(401, Http.Unauthorized);
    }
    if body.None? {
      return Http.Err(500, Http.UnreadableBody);
    }
    var u, q := session.value, body.value;
    if !Truthy(q.licenseId) || !validId(q.licenseId.value) {
      return Http.Err(400, Http.InvalidLicenseId);
    }
    if q.licenseType != Some("full") {
      return Http.Err(400, Http.OnlyUpgradeToFull);
    }
    var found := OwnedLicense(store.licenses, q.licenseId.value, u);
    if found.None? {
      return Http.Err(404, Http.LicenseNotFound);
    }
    var i := found.value;
    var license := store.licenses[i];
    if license.licenseType == Full {
      return Http.Err(400, Http.LicenseAlreadyFull);
    }
    var saved := store.SaveLicense(i, license.(licenseType := Full));
    match saved {
      case Failure(e) => reply := Http.Err(500, Http.ServerError(e));
      case Success(l) => reply := Http.Ok(200, l);
    }
  }
}
