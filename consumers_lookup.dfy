/** POST /api/consumers/lookup (src/app/api/consumers/lookup/route.ts): finds a consumer by
    email and/or account number and returns its profile and all licenses issued to it. There is
    no session check and no owner filter. */
module ConsumersLookup {
  import opened Common
  import opened Seqs
  import opened Models
  import Http
  import Database

  /** The decoded `{ email, accountNumber }` body. */
  datatype LookupRequest = LookupRequest(email: Option<string>, accountNumber: Option<string>)

  /** The `query` object of the handler: a field is present only when it was set. */
  datatype Query = Query(email: Option<string>, accountNumber: Option<string>)

  /** A consumer matches a query when it agrees with every field the query has. */
  predicate Matches(query: Query, c: Consumer)
  {
    (query.email.Some? ==> c.email == query.email.value)
    && (query.accountNumber.Some? ==> c.accountNumber == query.accountNumber.value)
  }

  /** The query of a request, as a value. */
  function QueryOf(q: LookupRequest): (query: Query)
    ensures query.email.Some? <==> Truthy(q.email)
    ensures query.accountNumber.Some? <==> Truthy(q.accountNumber)
    ensures forall c :: Matches(query, c) <==>
      (Truthy(q.email) ==> c.email == q.email.value) && (Truthy(q.accountNumber) ==> c.accountNumber == q.accountNumber.value)
  {
    Query(if Truthy(q.email) then q.email else None, if Truthy(q.accountNumber) then q.accountNumber else None)
  }

  /** The handler fills the empty query object one field at a time. */
  method BuildQuery(q: LookupRequest) returns (query: Query)
    ensures query == QueryOf(q)
  {
    query := Query(None, None);
    if Truthy(q.email) {
      query := query.(email := q.email);
    }
    if Truthy(q.accountNumber) {
      query := query.(accountNumber := q.accountNumber);
    }
  }

  /** `populate('productId', 'name description')`. */
  datatype ProductSummary = ProductSummary(id: Id, name: string, description: Option<string>)

  /** The consumer fields the reply shows; `createdBy` and the timestamps are not among them. */
  datatype Profile = Profile(name: string, email: string, phone: Option<string>, country: Option<string>, accountNumber: string)

  datatype LicenseEntry = LicenseEntry(
    id: Id, licenseKey: string, product: Option<ProductSummary>, licenseType: LicenseType,
    expires: Option<int>, active: bool, createdAt: int)

  datatype LookupReply = LookupReply(consumer: Profile, licenses: seq<LicenseEntry>)

  function ProfileOf(c: Consumer): Profile
  {
    Profile(c.name, c.email, c.phone, c.country, c.accountNumber)
  }

  function SummaryOf(ps: seq<Product>, id: Id): (r: Option<ProductSummary>)
    ensures r.None? <==> forall p :: p in ps ==> p.id != id
    ensures r.Some? ==> exists p :: p in ps && p.id == id && r.value == ProductSummary(p.id, p.name, p.description)
  {
    match FindFirst(ps, (p: Product) => p.id == id)
    case None => None
    case Some(i) =>
      assert ps[i] in ps;
      Some(ProductSummary(ps[i].id, ps[i].name, ps[i].description))
  }

  function EntryOf(db: Db, l: License): LicenseEntry
  {
    LicenseEntry(l.id, l.licenseKey, SummaryOf(db.products, l.productId), l.licenseType, l.expires, l.active, l.createdAt)
  }

  /** `License.find({ consumerId }).sort({ createdAt: -1 })`: every license issued to that
      consumer, whoever issued it, and no other, newest first. */
  function IssuedTo(ls: seq<License>, cid: Id): (r: seq<License>)
    ensures forall l :: multiset(r)[l] == if l.consumerId == cid then multiset(ls)[l] else 0
    ensures Descending(r, CreatedAt)
  {
    SortDescending(Filter(ls, (l: License) => l.consumerId == cid), CreatedAt)
  }

  /** `Consumer.findOne(query)`: the first consumer of any owner that matches. */
  function FindConsumer(cs: seq<Consumer>, query: Query): (r: Option<nat>)
    ensures r.Some? ==> r.value < |cs| && Matches(query, cs[r.value])
    ensures r.None? <==> forall c :: c in cs ==> !Matches(query, c)
  {
    FindFirst(cs, (c: Consumer) => Matches(query, c))
  }

  /** The handler. `body` is `None` when the request body is not JSON. */
  function Lookup(db: Db, body: Option<LookupRequest>): (r: Http.Response<LookupReply>)
    ensures r == Http.Err(500, Http.UnreadableBody) <==> body.None?
    ensures r == Http.Err(400, Http.EmailOrAccountRequired) <==>
      body.Some? && !Truthy(body.value.email) && !Truthy(body.value.accountNumber)
    ensures r == Http.Err(404, Http.ConsumerNotFound) <==>
      body.Some? && (Truthy(body.value.email) || Truthy(body.value.accountNumber))
      && forall c :: c in db.consumers ==> !Matches(QueryOf(body.value), c)
    ensures r.Ok? <==>
      body.Some? && (Truthy(body.value.email) || Truthy(body.value.accountNumber))
      && exists c :: c in db.consumers && Matches(QueryOf(body.value), c)
    ensures r.Ok? ==>
      var c := db.consumers[FindConsumer(db.consumers, QueryOf(body.value)).value];
      var issued := IssuedTo(db.licenses, c.id);
      && r.status == 200
      && Matches(QueryOf(body.value), c)
      && r.value.consumer == ProfileOf(c)
      && |r.value.licenses| == |issued|
      && forall k :: 0 <= k < |issued| ==> r.value.licenses[k] == EntryOf(db, issued[k])
  {
    if body.None? then Http.Err(500, Http.UnreadableBody)
    else
      var q := body.value;
      if !Truthy(q.email) && !Truthy(q.accountNumber) then Http.Err(400, Http.EmailOrAccountRequired)
      else match FindConsumer(db.consumers, QueryOf(q))
        case None => Http.Err(404, Http.ConsumerNotFound)
        case Some(i) =>
          var c := db.consumers[i];
          var issued := IssuedTo(db.licenses, c.id);
          Http.Ok(200, LookupReply(ProfileOf(c), seq(|issued|, k requires 0 <= k < |issued| => EntryOf(db, issued[k]))))
  }

  /** With both fields given, a consumer is found only when one consumer has both that email and
      that account number. */
  lemma {:induction false} BothFieldsMustMatch(db: Db, email: string, acct: string)
    requires email != "" && acct != ""
    ensures Lookup(db, Some(LookupRequest(Some(email), Some(acct)))).Ok? <==>
      exists c :: c in db.consumers && c.email == email && c.accountNumber == acct
  {
    var query := QueryOf(LookupRequest(Some(email), Some(acct)));
    if c :| c in db.consumers && c.email == email && c.accountNumber == acct {
      assert Matches(query, c);
    }
    if Lookup(db, Some(LookupRequest(Some(email), Some(acct)))).Ok? {
      var c := db.consumers[FindConsumer(db.consumers, query).value];
      assert c in db.consumers;
    }
  }

  /** Every license issued to the consumer found is listed, whoever issued it (that nothing
      else is listed is the contract of `IssuedTo`). */
  lemma {:induction false} LookupListsEveryLicenseIssuedToIt(db: Db, body: Option<LookupRequest>, l: License)
    requires Lookup(db, body).Ok?
    ensures var c := db.consumers[FindConsumer(db.consumers, QueryOf(body.value)).value];
      EntryOf(db, l) in Lookup(db, body).value.licenses <== l in db.licenses && l.consumerId == c.id
  {
    var c := db.consumers[FindConsumer(db.consumers, QueryOf(body.value)).value];
    var issued := IssuedTo(db.licenses, c.id);
    if l in db.licenses && l.consumerId == c.id {
      assert multiset(issued)[l] > 0;
      var k :| 0 <= k < |issued| && issued[k] == l;
      assert Lookup(db, body).value.licenses[k] == EntryOf(db, l);
    }
  }

  /** The handler on the store: it builds the query in place, then only reads. */
  method Handle(store: Database.Store, body: Option<LookupRequest>) returns (reply: Http.Response<LookupReply>)
    ensures reply == Lookup(store.Snapshot(), body)
  {
    if body.None? {
      return Http.Err(500, Http.UnreadableBody);
    }
    var q := body.value;
    if !Truthy(q.email) && !Truthy(q.accountNumber) {
      return Http.Err(400, Http.EmailOrAccountRequired);
    }
    var query := BuildQuery(q);
    var found := FindConsumer(store.consumers, query);
    if found.None? {
      return Http.Err(404, Http.ConsumerNotFound);
    }
    var c := store.consumers[found.value];
    var issued := IssuedTo(store.licenses, c.id);
    var db := store.Snapshot();
    reply := Http.Ok(200, LookupReply(ProfileOf(c), seq(|issued|, k requires 0 <= k < |issued| => EntryOf(db, issued[k]))));
  }
}
