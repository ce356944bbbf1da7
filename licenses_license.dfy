/** src/app/api/licenses/license/route.ts repeats the issuance and deletion handlers of
    src/app/api/licenses/route.ts statement for statement, so both of its handlers are proved
    against the same specification functions. */
module LicensesLicense {
  import opened Common
  import opened Models
  import Http
  import Database
  import opened Licenses

  method Post(store: Database.Store, session: Option<UserId>, body: Option<IssueRequest>, validId: Id -> bool,
              id: Id, key: string, now: int) returns (reply: Http.Response<License>)
    requires store.Valid()
    modifies store`licenses
    ensures store.Valid()
    ensures Http.Outcome(reply, store.licenses) == Issue(old(store.Snapshot()), session, body, validId, id, key, now)
  {
    reply := Licenses.Post(store, session, body, validId, id, key, now);
  }

  method Remove(store: Database.Store, session: Option<UserId>, body: Option<DeleteRequest>, validId: Id -> bool)
    returns (reply: Http.Response<()>)
    requires store.Valid()
    modifies store`licenses
    ensures store.Valid()
    ensures Http.Outcome(reply, store.licenses) == Delete(old(store.Snapshot()), session, body, validId)
  {
    reply := Licenses.Remove(store, session, body, validId);
  }
}
