/** POST /api/licenses/toggle (src/app/api/licenses/toggle/route.ts): sets the `active` flag of
    one of the caller's licenses. The handler fetches the document, assigns the field and saves it
    back; the pure function `Toggle` states the outcome and `SetActive` performs it on the store. */
module LicensesToggle {
  import opened Common
  import opened Seqs
  import opened Models
  import Http
  import Database
  import opened Licenses

  /** The `{ licenseId, active }` body; `active` is `None` unless it is a JSON boolean. */
  datatype ToggleRequest = ToggleRequest(licenseId: Option<string>, active: Option<bool>)

  predicate ToggleFieldsPresent(q: ToggleRequest)
  {
    Truthy(q.licenseId) && q.active.Some?
  }

  /** There is no ObjectId pre-check: a malformed id makes the `findOne` itself throw a cast
      error, which the handler's catch turns into a 500. */
  function Toggle(db: Db, session: Option<UserId>, body: Option<ToggleRequest>, validId: Id -> bool)
    : (r: Http.Outcome<License, License>)
    ensures session.None? <==> r.reply == Http.Err(401, Http.Unauthorized)
    ensures r.reply == Http.Err(500, Http.UnreadableBody) <==> session.Some? && body.None?
    ensures r.reply == Http.Err(400, Http.MissingOrInvalidFields) <==>
      session.Some? && body.Some? && !ToggleFieldsPresent(body.value)
    ensures r.reply == Http.Err(500, Http.ServerError(CastError)) <==>
      session.Some? && body.Some? && ToggleFieldsPresent(body.value) && !validId(body.value.licenseId.value)
    ensures r.reply == Http.Err(404, Http.LicenseNotFound) <==>
      session.Some? && body.Some? && ToggleFieldsPresent(body.value) && validId(body.value.licenseId.value)
      && OwnedLicense(db.licenses, body.value.licenseId.value, session.value).None?
    ensures r.reply.Ok? ==>
      var i := OwnedLicense(db.licenses, body.value.licenseId.value, session.value).value;
      && r.reply.status == 200
      && r.reply.value == db.licenses[i].(active := body.value.active.value)
      && r.after == db.licenses[i := r.reply.value]
    ensures r.reply.Err? ==> r.after == db.licenses
  {
    if session.None? then Http.Outcome(Http.Err(401, Http.Unauthorized), db.licenses)
    else if body.None? then Http.Outcome(Http.Err(500, Http.UnreadableBody), db.licenses)
    else
      var u, q := session.value, body.value;
      if !ToggleFieldsPresent(q) then Http.Outcome(Http.Err(400, Http.MissingOrInvalidFields), db.licenses)
      else if !validId(q.licenseId.value) then Http.Outcome(Http.Err(500, Http.ServerError(CastError)), db.licenses)
      else match OwnedLicense(db.licenses, q.licenseId.value, u)
        case None => Http.Outcome(Http.Err(404, Http.LicenseNotFound), db.licenses)
        case Some(i) =>
          var doc := db.licenses[i].(active := q.active.value);
          match LicenseUpdate(db.licenses, i, doc)
          case Failure(e) => Http.Outcome(Http.Err(500, Http.ServerError(e)), db.licenses)
          case Success(l) => Http.Outcome(Http.Ok(200, l), db.licenses[i := l])
  }

  lemma ToggleKeepsInvariants(db: Db, session: Option<UserId>, body: Option<ToggleRequest>, validId: Id -> bool)
    requires LicensesWellFormed(db.licenses)
    ensures LicensesWellFormed(Toggle(db, session, body, validId).after)
    ensures OnePerTriple(db.licenses) ==> OnePerTriple(Toggle(db, session, body, validId).after)
  {
    var r := Toggle(db, session, body, validId);
    if r.reply.Ok? {
      var i := OwnedLicense(db.licenses, body.value.licenseId.value, session.value).value;
      LicenseUpdatePreserves(db.licenses, i, r.reply.value);
    }
  }

  /** Writing back a document whose index keys are unchanged never clashes with an index. */
  lemma {:induction false} SameKeysNeverClash(ls: seq<License>, k: nat, doc: License)
    requires LicensesWellFormed(ls) && k < |ls|
    requires doc.id == ls[k].id && doc.licenseKey == ls[k].licenseKey
    requires LicenseComboKey(doc) == LicenseComboKey(ls[k]) && doc.licenseKey != ""
    ensures LicenseUpdate(ls, k, doc) == Success(doc)
  {
    forall j | 0 <= j < |ls| && j != k
      ensures LicenseIdOf(ls[j]) != doc.id && LicenseKeyOf(ls[j]) != doc.licenseKey
      ensures LicenseComboKey(ls[j]) != LicenseComboKey(doc)
    {
      assert LicenseIdOf(ls[j]) != LicenseIdOf(ls[k]);
      assert LicenseKeyOf(ls[j]) != LicenseKeyOf(ls[k]);
      assert LicenseComboKey(ls[j]) != LicenseComboKey(ls[k]);
    }
  }

  /** On a well-formed store the caller's own license is always toggled: the save of an
      existing document skips the pre-save hook and changes no index key. */
  lemma ToggleOfOwnLicenseSucceeds(db: Db, u: UserId, k: nat, a: bool, validId: Id -> bool)
    requires LicensesWellFormed(db.licenses)
    requires k < |db.licenses| && db.licenses[k].createdBy == u
    requires validId(db.licenses[k].id) && db.licenses[k].id != ""
    ensures Toggle(db, Some(u), Some(ToggleRequest(Some(db.licenses[k].id), Some(a))), validId)
      == Http.Outcome(Http.Ok(200, db.licenses[k].(active := a)), db.licenses[k := db.licenses[k].(active := a)])
  {
    OwnedLicenseIsTheLicenseWithThatId(db.licenses, k, u);
    SameKeysNeverClash(db.licenses, k, db.licenses[k].(active := a));
  }

  /** Repeating a toggle request gives the same reply and leaves the licenses as the first
      request left them. */
  lemma ToggleIsIdempotent(db: Db, u: UserId, body: Option<ToggleRequest>, validId: Id -> bool)
    requires LicensesWellFormed(db.licenses)
    ensures var first := Toggle(db, Some(u), body, validId);
      var again := Toggle(db.(licenses := first.after), Some(u), body, validId);
      again.after == first.after && (first.reply.Ok? ==> again.reply == first.reply)
  {
    var first := Toggle(db, Some(u), body, validId);
    if first.reply.Ok? {
      var q := body.value;
      var i := OwnedLicense(db.licenses, q.licenseId.value, u).value;
      var doc := first.reply.value;
      OwnedLicenseAfterUpdate(db.licenses, i, doc, q.licenseId.value, u);
      ToggleKeepsInvariants(db, Some(u), body, validId);
      assert doc.(active := q.active.value) == doc;
      SameKeysNeverClash(first.after, i, doc);
      assert first.after[i := doc] == first.after;
    }
  }

  method SetActive(store: Database.Store, session: Option<UserId>, body: Option<ToggleRequest>, validId: Id -> bool)
    returns (reply: Http.Response<License>)
    requires store.Valid()
    modifies store`licenses
    ensures store.Valid()
    ensures Http.Outcome(reply, store.licenses) == Toggle(old(store.Snapshot()), session, body, validId)
  {
    if session.None? {
      return Http.Err(401, Http.Unauthorized);
    }
    if body.None? {
      return Http.Err(500, Http.UnreadableBody);
    }
    var u, q := session.value, body.value;
    if !ToggleFieldsPresent(q) {
      return Http.Err(400, Http.MissingOrInvalidFields);
    }
    if !validId(q.licenseId.value) {
      // `License.findOne` throws when `_id` cannot be cast to an ObjectId.
      return Http.Err(500, Http.ServerError(CastError));
    }
    var found := OwnedLicense(store.licenses, q.licenseId.value, u);
    if found.None? {
      return Http.Err(404, Http.LicenseNotFound);
    }
    var i := found.value;
    var license := store.licenses[i];
    license := license.(active := q.active.value);
    var saved := store.SaveLicense(i, license);
    match saved {
      case Failure(e) => reply := Http.Err(500, Http.ServerError(e));
      case Success(l) => reply := Http.Ok(200, l);
    }
  }
}
