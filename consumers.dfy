/** GET and POST /api/consumers (src/app/api/consumers/route.ts): the unscoped listing of every
    consumer and the creation of one. */
module Consumers {
  import opened Common
  import opened Seqs
  import opened Models
  import Http
  import Database

  function ConsumerCreatedAt(c: Consumer): int { c.createdAt }

  /** GET: `Consumer.find({}).sort({ createdAt: -1 })`. There is no owner filter: every caller
      with a session sees every consumer of every owner. */
  function ListAll(db: Db, session: Option<UserId>): (r: Http.Response<seq<Consumer>>)
    ensures session.None? <==> r == Http.Err(401, Http.Unauthorized)
    ensures session.Some? ==> r.Ok? && r.status == 200
    ensures r.Ok? ==> multiset(r.value) == multiset(db.consumers) && Descending(r.value, ConsumerCreatedAt)
  {
    if session.None? then Http.Err(401, Http.Unauthorized)
    else Http.Ok(200, SortDescending(db.consumers, ConsumerCreatedAt))
  }

  /** Any signed-in caller is shown every consumer, including those other owners created. */
  lemma {:induction false} ListAllShowsEveryOwner(db: Db, u: UserId, c: Consumer)
    requires c in db.consumers
    ensures c in ListAll(db, Some(u)).value
  {
    assert c in multiset(db.consumers);
  }

  /** The decoded JSON body of POST; a field that is absent or not a string is `None`. */
  datatype CreateRequest = CreateRequest(
    name: Option<string>, email: Option<string>, phone: Option<string>, country: Option<string>,
    accountNumber: Option<string>)

  predicate CreateFieldsPresent(q: CreateRequest)
  {
    Truthy(q.name) && Truthy(q.email) && Truthy(q.accountNumber)
  }

  /** The catch block: a duplicate-key error (code 11000) is reported by the first field of its
      key pattern that the handler looks for, anything else is a 500. */
  function ClassifySaveError(e: DbError): (r: (int, Http.Error))
    ensures r.0 == 400 <==> e.DuplicateKey?
    ensures r.1 == Http.EmailExists <==> e.DuplicateKey? && "email" in e.keyPattern
    ensures r.1 == Http.AccountNumberExists <==>
      e.DuplicateKey? && "email" !in e.keyPattern && "accountNumber" in e.keyPattern
    ensures r.1 == Http.DuplicateEntry <==>
      e.DuplicateKey? && "email" !in e.keyPattern && "accountNumber" !in e.keyPattern
    ensures !e.DuplicateKey? ==> r == (500, Http.ServerError(e))
  {
    match e
    case DuplicateKey(pattern) =>
      if "email" in pattern then (400, Http.EmailExists)
      else if "accountNumber" in pattern then (400, Http.AccountNumberExists)
      else (400, Http.DuplicateEntry)
    case _ => (500, Http.ServerError(e))
  }

  /** Each unique index of the Consumer collection is reported by its own message: the email
      index as "Email already exists", the account-number index as "Account number already
      exists", and the `_id` index as "Duplicate entry". */
  lemma {:induction false} EachConsumerIndexHasItsMessage(cs: seq<Consumer>, d: ConsumerDraft, id: Id, now: int)
    requires ConsumerInsert(cs, d, id, now).Failure?
    requires ConsumerInsert(cs, d, id, now).error != ValidationError
    ensures var doc := Consumer(id, d.name, d.email, d.phone, d.country, d.accountNumber, d.createdBy.value, now, now);
      var msg := ClassifySaveError(ConsumerInsert(cs, d, id, now).error).1;
      && (msg == Http.DuplicateEntry <==> Taken(cs, ConsumerIdOf, id))
      && (msg == Http.EmailExists <==> !Taken(cs, ConsumerIdOf, id) && Taken(cs, ConsumerEmailKey, ConsumerEmailKey(doc)))
      && (msg == Http.AccountNumberExists <==>
            !Taken(cs, ConsumerIdOf, id) && !Taken(cs, ConsumerEmailKey, ConsumerEmailKey(doc)))
  {
    var doc := Consumer(id, d.name, d.email, d.phone, d.country, d.accountNumber, d.createdBy.value, now, now);
    assert ConsumerInsert(cs, d, id, now).error == DuplicateKey(ConsumerIndexClash(cs, doc).value);
    assert "email" in ConsumerEmailPattern && "email" !in ConsumerAccountPattern && "email" !in IdPattern;
    assert "accountNumber" in ConsumerAccountPattern && "accountNumber" !in IdPattern;
  }

  /** `new Consumer({ name, email, phone, country, accountNumber })`: the handler passes no
      `createdBy`. */
  function CreateDraft(q: CreateRequest): ConsumerDraft
    requires CreateFieldsPresent(q)
  {
    ConsumerDraft(q.name.value, q.email.value, q.phone, q.country, q.accountNumber.value, None)
  }

  /** POST /api/consumers. */
  function Create(db: Db, session: Option<UserId>, body: Option<CreateRequest>, id: Id, now: int)
    : (r: Http.Outcome<Consumer, Consumer>)
    ensures session.None? <==> r.reply == Http.Err(401, Http.Unauthorized)
    ensures r.reply == Http.Err(500, Http.UnreadableBody) <==> session.Some? && body.None?
    ensures r.reply == Http.Err(400, Http.ConsumerFieldsRequired) <==>
      session.Some? && body.Some? && !CreateFieldsPresent(body.value)
    ensures session.Some? && body.Some? && CreateFieldsPresent(body.value) ==>
      var saved := ConsumerInsert(db.consumers, CreateDraft(body.value), id, now);
      r.reply == if saved.Success? then Http.Ok(201, saved.value)
                 else Http.Err(ClassifySaveError(saved.error).0, ClassifySaveError(saved.error).1)
    ensures r.reply.Ok? ==> r.after == db.consumers + [r.reply.value]
    ensures r.reply.Err? ==> r.after == db.consumers
  {
    if session.None? then Http.Outcome(Http.Err(401, Http.Unauthorized), db.consumers)
    else if body.None? then Http.Outcome(Http.Err(500, Http.UnreadableBody), db.consumers)
    else if !CreateFieldsPresent(body.value) then Http.Outcome(Http.Err(400, Http.ConsumerFieldsRequired), db.consumers)
    else match ConsumerInsert(db.consumers, CreateDraft(body.value), id, now)
      case Failure(e) =>
        var (status, error) := ClassifySaveError(e);
        Http.Outcome(Http.Err(status, error), db.consumers)
      case Success(c) => Http.Outcome(Http.Ok(201, c), db.consumers + [c])
  }

  /** Because the draft carries no `createdBy`, which the schema requires, every request that
      passes the field check fails validation with a 500: the handler never stores a consumer,
      and its duplicate-key messages are never produced. */
  lemma CreateNeverStores(db: Db, session: Option<UserId>, body: Option<CreateRequest>, id: Id, now: int)
    ensures Create(db, session, body, id, now).after == db.consumers
    ensures session.Some? && body.Some? && CreateFieldsPresent(body.value) ==>
      Create(db, session, body, id, now).reply == Http.Err(500, Http.ServerError(ValidationError))
  {
  }

  method Post(store: Database.Store, session: Option<UserId>, body: Option<CreateRequest>, id: Id, now: int)
    returns (reply: Http.Response<Consumer>)
    requires store.Valid()
    modifies store`consumers
    ensures store.Valid()
    ensures Http.Outcome(reply, store.consumers) == Create(old(store.Snapshot()), session, body, id, now)
  {
    if session.None? {
      return Http.Err(401, Http.Unauthorized);
    }
    if body.None? {
      return Http.Err(500, Http.UnreadableBody);
    }
    var q := body.value;
    if !CreateFieldsPresent(q) {
      return Http.Err(400, Http.ConsumerFieldsRequired);
    }
    var saved := store.SaveNewConsumer(CreateDraft(q), id, now);
    match saved {
      case Failure(e) =>
        var (status, error) := ClassifySaveError(e);
        reply := Http.Err(status, error);
      case Success(c) => reply := Http.Ok(201, c);
    }
  }
}
