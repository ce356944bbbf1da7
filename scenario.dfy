/** An end-to-end run through the handlers: an owner issues a trial license for their own
    product and consumer, third-party software verifies it, the owner deactivates it, and the
    verification changes its answer. */
module Scenario {
  import opened Common
  import opened Models
  import Http
  import opened CheckLicense
  import opened Licenses
  import opened LicensesToggle

  /** Issuance into a store holding just the caller's product and consumer. */
  lemma {:induction false} IssueIntoFreshStore(
    validId: Id -> bool, u: UserId, p: Product, c: Consumer, id: Id, key: string, e: int, now: int)
    requires p.createdBy == u && c.createdBy == u
    requires validId(p.id) && validId(c.id) && p.id != "" && c.id != "" && key != ""
    ensures Issue(Db([p], [c], []), Some(u), Some(IssueRequest(Some(p.id), Some(c.id), Some("trial"), Some(e))), validId, id, key, now)
      == Http.Outcome(Http.Ok(201, License(id, key, p.id, c.id, Trial, Some(e), true, u, now)),
                 [License(id, key, p.id, c.id, Trial, Some(e), true, u, now)])
  {
    var db := Db([p], [c], []);
    assert OwnedProduct(db.products, p.id, u) == Some(0);
    assert OwnedConsumer(db.consumers, c.id, u) == Some(0);
  }

  /** With one product, one consumer and one license between them, the verification reaches
      the license and judges it. */
  lemma {:induction false} VerifySingleLicense(p: Product, c: Consumer, l: License, secret: string, now: int)
    requires l.productId == p.id && l.consumerId == c.id
    requires l.licenseKey != "" && p.name != "" && c.accountNumber != "" && secret != ""
    ensures Check(Some(secret), Some(secret), Some(CheckRequest(Some(l.licenseKey), Some(p.name), Some(c.accountNumber))), now, Db([p], [c], [l]))
      == Http.Ok(200, Classify(Found(l), p.name, now))
  {
    assert Resolve(Db([p], [c], [l]), l.licenseKey, p.name, c.accountNumber) == Found(l);
  }

  /** The owner switches their single license off. */
  lemma {:induction false} DeactivateSingleLicense(db: Db, u: UserId, l: License, validId: Id -> bool)
    requires db.licenses == [l] && l.createdBy == u && l.licenseKey != "" && l.id != "" && validId(l.id)
    ensures Toggle(db, Some(u), Some(ToggleRequest(Some(l.id), Some(false))), validId).after == [l.(active := false)]
  {
    assert LicensesWellFormed([l]);
    ToggleOfOwnLicenseSucceeds(db, u, 0, false, validId);
  }

  lemma {:induction false} IssueVerifyDeactivate(
    validId: Id -> bool, u: UserId, p: Product, c: Consumer, id: Id, key: string,
    secret: string, e: int, t0: int, t1: int)
    requires p.createdBy == u && c.createdBy == u && ProductFieldsOk(p) && ConsumerFieldsOk(c)
    requires validId(p.id) && validId(c.id) && validId(id)
    requires p.id != "" && c.id != "" && id != "" && key != "" && secret != ""
    requires t0 <= e < t1
    ensures Issue(Db([p], [c], []), Some(u), Some(IssueRequest(Some(p.id), Some(c.id), Some("trial"), Some(e))), validId, id, key, t0)
      == Http.Outcome(Http.Ok(201, License(id, key, p.id, c.id, Trial, Some(e), true, u, t0)),
                 [License(id, key, p.id, c.id, Trial, Some(e), true, u, t0)])
    ensures Check(Some(secret), Some(secret), Some(CheckRequest(Some(key), Some(p.name), Some(c.accountNumber))), t0,
                  Db([p], [c], [License(id, key, p.id, c.id, Trial, Some(e), true, u, t0)]))
      == Http.Ok(200, Valid(p.name, Some(e), true))
    ensures Check(Some(secret), Some(secret), Some(CheckRequest(Some(key), Some(p.name), Some(c.accountNumber))), t1,
                  Db([p], [c], [License(id, key, p.id, c.id, Trial, Some(e), true, u, t0)]))
      == Http.Ok(200, Invalid(LicenseExpired))
    ensures Toggle(Db([p], [c], [License(id, key, p.id, c.id, Trial, Some(e), true, u, t0)]), Some(u),
                   Some(ToggleRequest(Some(id), Some(false))), validId).after
      == [License(id, key, p.id, c.id, Trial, Some(e), false, u, t0)]
    ensures Check(Some(secret), Some(secret), Some(CheckRequest(Some(key), Some(p.name), Some(c.accountNumber))), t0,
                  Db([p], [c], [License(id, key, p.id, c.id, Trial, Some(e), false, u, t0)]))
      == Http.Ok(200, Invalid(LicenseDeactivated))
  {
    var l := License(id, key, p.id, c.id, Trial, Some(e), true, u, t0);
    IssueIntoFreshStore(validId, u, p, c, id, key, e, t0);
    VerifySingleLicense(p, c, l, secret, t0);
    VerifySingleLicense(p, c, l, secret, t1);
    VerifySingleLicense(p, c, l.(active := false), secret, t0);
    DeactivateSingleLicense(Db([p], [c], [l]), u, l, validId);
  }
}
