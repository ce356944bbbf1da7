/** POST /api/products/create (src/app/api/products/create/route.ts): creates a product after
    a required-name check and a duplicate-name check over the whole collection. There is no
    session check. */
module ProductsCreate {
  import opened Common
  import opened Seqs
  import opened Models
  import Http
  import Database

  /** The decoded `{ name, description }` body. */
  datatype CreateRequest = CreateRequest(name: Option<string>, description: Option<string>)

  /** `ProductModel.findOne({ name })`: any owner's product counts. */
  predicate NameInUse(ps: seq<Product>, name: string)
  {
    exists p :: p in ps && p.name == name
  }

  /** `ProductModel.create({ name, description })`: the handler passes no `createdBy`. */
  function CreateDraft(q: CreateRequest): ProductDraft
    requires Truthy(q.name)
  {
    ProductDraft(q.name.value, q.description, None)
  }

  function Create(db: Db, body: Option<CreateRequest>, id: Id, now: int): (r: Http.Outcome<Product, Product>)
    ensures r.reply == Http.Err(500, Http.UnreadableBody) <==> body.None?
    ensures r.reply == Http.Err(400, Http.NameRequired) <==> body.Some? && !Truthy(body.value.name)
    ensures r.reply == Http.Err(400, Http.ProductExists) <==>
      body.Some? && Truthy(body.value.name) && NameInUse(db.products, body.value.name.value)
    ensures body.Some? && Truthy(body.value.name) && !NameInUse(db.products, body.value.name.value) ==>
      var saved := ProductInsert(db.products, CreateDraft(body.value), id, now);
      r.reply == if saved.Success? then Http.Ok(200, saved.value) else Http.Err(500, Http.ServerError(saved.error))
    ensures r.reply.Ok? ==> r.after == db.products + [r.reply.value]
    ensures r.reply.Err? ==> r.after == db.products
  {
    if body.None? then Http.Outcome(Http.Err(500, Http.UnreadableBody), db.products)
    else
      var q := body.value;
      if !Truthy(q.name) then Http.Outcome(Http.Err(400, Http.NameRequired), db.products)
      else if NameInUse(db.products, q.name.value) then Http.Outcome(Http.Err(400, Http.ProductExists), db.products)
      else match ProductInsert(db.products, CreateDraft(q), id, now)
        case Failure(e) => Http.Outcome(Http.Err(500, Http.ServerError(e)), db.products)
        case Success(p) => Http.Outcome(Http.Ok(200, p), db.products + [p])
  }

  /** The schema requires `createdBy` and the handler never sets it, so every request that gets
      past the two checks fails validation: the handler never stores a product. */
  lemma CreateNeverStores(db: Db, body: Option<CreateRequest>, id: Id, now: int)
    ensures Create(db, body, id, now).after == db.products
    ensures body.Some? && Truthy(body.value.name) && !NameInUse(db.products, body.value.name.value) ==>
      Create(db, body, id, now).reply == Http.Err(500, Http.ServerError(ValidationError))
  {
  }

  /** The duplicate check is global while the unique index is per owner: a name that only
      another owner uses is refused with "Product already exists", although an insert of it
      for this owner would satisfy every index. */
  lemma {:induction false} OtherOwnersNameRefused(db: Db, k: nat, u: UserId, id: Id, now: int)
    requires ProductsWellFormed(db.products) && k < |db.products|
    requires !Taken(db.products, ProductNameKey, (db.products[k].name, u)) && !Taken(db.products, ProductIdOf, id)
    ensures Create(db, Some(CreateRequest(Some(db.products[k].name), None)), id, now).reply
      == Http.Err(400, Http.ProductExists)
    ensures ProductInsert(db.products, ProductDraft(db.products[k].name, None, Some(u)), id, now).Success?
  {
    assert db.products[k] in db.products;
    assert ProductFieldsOk(db.products[k]);
  }

  method Post(store: Database.Store, body: Option<CreateRequest>, id: Id, now: int) returns (reply: Http.Response<Product>)
    requires store.Valid()
    modifies store`products
    ensures store.Valid()
    ensures Http.Outcome(reply, store.products) == Create(old(store.Snapshot()), body, id, now)
  {
    if body.None? {
      return Http.Err(500, Http.UnreadableBody);
    }
    var q := body.value;
    if !Truthy(q.name) {
      return Http.Err(400, Http.NameRequired);
    }
    var existing := FindFirst(store.products, (p: Product) => p.name == q.name.value);
    if existing.Some? {
      assert store.products[existing.value] in store.products;
      return Http.Err(400, Http.ProductExists);
    }
    var saved := store.CreateProduct(CreateDraft(q), id, now);
    match saved {
      case Failure(e) => reply := Http.Err(500, Http.ServerError(e));
      case Success(p) => reply := Http.Ok(200, p);
    }
  }
}
