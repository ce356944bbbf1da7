/** The three collections of the document store (src/models/Product.ts, Consumer.ts, License.ts):
    their documents, their unique indexes and required fields as invariants, and what mongoose's
    `save()` of a document does to a collection: validation, the schema's pre-save hooks, then the
    unique indexes. */
module Models {
  import opened Common
  import opened Seqs

  /** An ObjectId, in its string form. Which strings are well-formed ObjectIds is not modelled:
      handlers receive that test as a parameter. */
  type Id = string
  type UserId = Id

  datatype LicenseType = Full | Trial

  /** The `enum: ['full', 'trial']` validator of `licenseType`. */
  function ParseLicenseType(s: string): (r: Option<LicenseType>)
    ensures r.Some? <==> s == "full" || s == "trial"
    ensures r == Some(Full) <==> s == "full"
  {
    if s == "full" then Some(Full) else if s == "trial" then Some(Trial) else None
  }

  datatype Product = Product(
    id: Id, name: string, description: Option<string>, createdBy: UserId, createdAt: int)

  datatype Consumer = Consumer(
    id: Id, name: string, email: string, phone: Option<string>, country: Option<string>,
    accountNumber: string, createdBy: UserId, createdAt: int, updatedAt: int)

  /** `expires` is absent when the license never expires. */
  datatype License = License(
    id: Id, licenseKey: string, productId: Id, consumerId: Id, licenseType: LicenseType,
    expires: Option<int>, active: bool, createdBy: UserId, createdAt: int)

  /** A snapshot of the store, each collection in natural order. */
  datatype Db = Db(products: seq<Product>, consumers: seq<Consumer>, licenses: seq<License>)

  // Keys of the unique indexes.
  function ProductIdOf(p: Product): Id { p.id }
  function ProductNameKey(p: Product): (string, UserId) { (p.name, p.createdBy) }
  function ConsumerIdOf(c: Consumer): Id { c.id }
  function ConsumerEmailKey(c: Consumer): (string, UserId) { (c.email, c.createdBy) }
  function ConsumerAccountKey(c: Consumer): (string, UserId) { (c.accountNumber, c.createdBy) }
  function LicenseIdOf(l: License): Id { l.id }
  function LicenseKeyOf(l: License): string { l.licenseKey }
  function LicenseComboKey(l: License): (LicenseType, Id, Id, UserId)
  {
    (l.licenseType, l.productId, l.consumerId, l.createdBy)
  }
  /** The key the License pre-save hook looks up: one license per (product, consumer, owner). */
  function LicenseTripleKey(l: License): (Id, Id, UserId) { (l.productId, l.consumerId, l.createdBy) }

  // Key patterns of the unique indexes, as a duplicate-key error (code 11000) reports them.
  const IdPattern: set<string> := {"_id"}
  const LicenseKeyPattern: set<string> := {"licenseKey"}
  const LicenseComboPattern: set<string> := {"licenseType", "productId", "consumerId", "createdBy"}
  const ConsumerEmailPattern: set<string> := {"email", "createdBy"}
  const ConsumerAccountPattern: set<string> := {"accountNumber", "createdBy"}
  const ProductNamePattern: set<string> := {"name", "createdBy"}

  /** The sort key of `.sort({ createdAt: -1 })` on licenses. */
  function CreatedAt(l: License): int { l.createdAt }

  // Required string fields (mongoose's `required` refuses the empty string).
  predicate ProductFieldsOk(p: Product) { p.name != "" }
  predicate ConsumerFieldsOk(c: Consumer) { c.name != "" && c.email != "" && c.accountNumber != "" }
  predicate LicenseFieldsOk(l: License) { l.licenseKey != "" }

  ghost predicate ProductsWellFormed(ps: seq<Product>)
  {
    && Unique(ps, ProductIdOf)
    && Unique(ps, ProductNameKey)
    && forall i :: 0 <= i < |ps| ==> ProductFieldsOk(ps[i])
  }

  ghost predicate ConsumersWellFormed(cs: seq<Consumer>)
  {
    && Unique(cs, ConsumerIdOf)
    && Unique(cs, ConsumerEmailKey)
    && Unique(cs, ConsumerAccountKey)
    && forall i :: 0 <= i < |cs| ==> ConsumerFieldsOk(cs[i])
  }

  ghost predicate LicensesWellFormed(ls: seq<License>)
  {
    && Unique(ls, LicenseIdOf)
    && Unique(ls, LicenseKeyOf)
    && Unique(ls, LicenseComboKey)
    && forall i :: 0 <= i < |ls| ==> LicenseFieldsOk(ls[i])
  }

  /** What the schemas and the database's unique indexes guarantee of every stored document. */
  ghost predicate WellFormed(db: Db)
  {
    ProductsWellFormed(db.products) && ConsumersWellFormed(db.consumers) && LicensesWellFormed(db.licenses)
  }

  /** What the License pre-save hook guarantees when every license was inserted through it. */
  ghost predicate OnePerTriple(ls: seq<License>)
  {
    Unique(ls, LicenseTripleKey)
  }

  /** The hook is stricter than the compound unique index. */
  lemma OnePerTripleGivesComboIndex(ls: seq<License>)
    requires OnePerTriple(ls)
    ensures Unique(ls, LicenseComboKey)
  {
    forall i, j | 0 <= i < |ls| && 0 <= j < |ls| && i != j
      ensures LicenseComboKey(ls[i]) != LicenseComboKey(ls[j])
    {
      assert LicenseTripleKey(ls[i]) != LicenseTripleKey(ls[j]);
    }
  }

  /** ... and strictly so: a trial and a full license for one (product, consumer, owner) satisfy
      the unique index but not the hook. */
  lemma ComboIndexAdmitsTrialBesideFull(trial: License)
    requires trial.licenseType == Trial
    ensures var ls := [trial, trial.(id := trial.id + "'", licenseKey := trial.licenseKey + "'", licenseType := Full)];
      Unique(ls, LicenseComboKey) && Unique(ls, LicenseIdOf) && Unique(ls, LicenseKeyOf) && !OnePerTriple(ls)
  {
    var ls := [trial, trial.(id := trial.id + "'", licenseKey := trial.licenseKey + "'", licenseType := Full)];
    assert |ls[1].id| != |ls[0].id|;
    assert |ls[1].licenseKey| != |ls[0].licenseKey|;
    assert LicenseTripleKey(ls[0]) == LicenseTripleKey(ls[1]);
  }

  /** Why a `save()` or a query fails; the handlers catch every one of them. */
  datatype DbError =
    | CastError                           // a filter value that is not an ObjectId
    | ValidationError                     // a required field missing or an enum value refused
    | DuplicateLicense                    // the License pre-save hook aborted the insert
    | DuplicateKey(keyPattern: set<string>) // a unique index refused the write (code 11000)

  /** The arguments of `new License({...})`, before validation and defaults. */
  datatype LicenseDraft = LicenseDraft(
    licenseKey: string, productId: Id, consumerId: Id, licenseType: string,
    expires: Option<int>, createdBy: UserId)

  /** The arguments of `new Consumer({...})`; `createdBy` is absent when the caller omits it. */
  datatype ConsumerDraft = ConsumerDraft(
    name: string, email: string, phone: Option<string>, country: Option<string>,
    accountNumber: string, createdBy: Option<UserId>)

  /** The arguments of `Product.create({...})`. */
  datatype ProductDraft = ProductDraft(name: string, description: Option<string>, createdBy: Option<UserId>)

  /** The first unique index of the License collection that `doc` would violate, ignoring the
      document at position `except` (pass `|ls|` for an insert). The `_id` index comes first,
      the others in declaration order. */
  function LicenseIndexClash(ls: seq<License>, except: nat, doc: License): (r: Option<set<string>>)
    ensures r.None? <==>
      && !TakenElsewhere(ls, except, LicenseIdOf, doc.id)
      && !TakenElsewhere(ls, except, LicenseKeyOf, doc.licenseKey)
      && !TakenElsewhere(ls, except, LicenseComboKey, LicenseComboKey(doc))
  {
    if TakenElsewhere(ls, except, LicenseIdOf, doc.id) then Some(IdPattern)
    else if TakenElsewhere(ls, except, LicenseKeyOf, doc.licenseKey) then Some(LicenseKeyPattern)
    else if TakenElsewhere(ls, except, LicenseComboKey, LicenseComboKey(doc)) then Some(LicenseComboPattern)
    else None
  }

  lemma TakenElsewhereAtEnd<T, K>(s: seq<T>, key: T -> K, k: K)
    ensures TakenElsewhere(s, |s|, key, k) <==> Taken(s, key, k)
  {
  }

  /** `save()` of a new License: validation, then the pre-save hook (which refuses a second
      license for the same product, consumer and owner, whatever its type), then the unique
      indexes. On success the document takes the defaults `active = true` and `createdAt = now`. */
  function LicenseInsert(ls: seq<License>, d: LicenseDraft, id: Id, now: int): (r: Result<License, DbError>)
    ensures r == Failure(ValidationError) <==> ParseLicenseType(d.licenseType).None? || d.licenseKey == ""
    ensures r == Failure(DuplicateLicense) <==>
      ParseLicenseType(d.licenseType).Some? && d.licenseKey != ""
      && Taken(ls, LicenseTripleKey, (d.productId, d.consumerId, d.createdBy))
    ensures r.Success? ==>
      r.value == License(id, d.licenseKey, d.productId, d.consumerId,
                         ParseLicenseType(d.licenseType).value, d.expires, true, d.createdBy, now)
    ensures r.Success? <==>
      ParseLicenseType(d.licenseType).Some? && d.licenseKey != ""
      && !Taken(ls, LicenseTripleKey, (d.productId, d.consumerId, d.createdBy))
      && !Taken(ls, LicenseIdOf, id) && !Taken(ls, LicenseKeyOf, d.licenseKey)
  {
    match ParseLicenseType(d.licenseType)
    case None => Failure(ValidationError)
    case Some(t) =>
      if d.licenseKey == "" then Failure(ValidationError)
      else if Taken(ls, LicenseTripleKey, (d.productId, d.consumerId, d.createdBy)) then Failure(DuplicateLicense)
      else
        var doc := License(id, d.licenseKey, d.productId, d.consumerId, t, d.expires, true, d.createdBy, now);
        TakenElsewhereAtEnd(ls, LicenseIdOf, doc.id);
        TakenElsewhereAtEnd(ls, LicenseKeyOf, doc.licenseKey);
        TakenElsewhereAtEnd(ls, LicenseComboKey, LicenseComboKey(doc));
        assert Taken(ls, LicenseComboKey, LicenseComboKey(doc)) ==> Taken(ls, LicenseTripleKey, LicenseTripleKey(doc));
        match LicenseIndexClash(ls, |ls|, doc)
        case Some(pattern) => Failure(DuplicateKey(pattern))
        case None => Success(doc)
  }

  /** An insert through the hook keeps the indexes, the required fields and one license per
      (product, consumer, owner). */
  lemma LicenseInsertPreserves(ls: seq<License>, d: LicenseDraft, id: Id, now: int)
    requires LicensesWellFormed(ls)
    requires LicenseInsert(ls, d, id, now).Success?
    ensures LicensesWellFormed(ls + [LicenseInsert(ls, d, id, now).value])
    ensures OnePerTriple(ls) ==> OnePerTriple(ls + [LicenseInsert(ls, d, id, now).value])
  {
    var doc := LicenseInsert(ls, d, id, now).value;
    UniqueAppend(ls, LicenseIdOf, doc);
    UniqueAppend(ls, LicenseKeyOf, doc);
    UniqueAppend(ls, LicenseComboKey, doc);
    if OnePerTriple(ls) {
      UniqueAppend(ls, LicenseTripleKey, doc);
    }
  }

  /** `save()` of a License read from the store and then changed: validation and the unique
      indexes apply, the pre-save hook does not (`this.isNew` is false). */
  function LicenseUpdate(ls: seq<License>, i: nat, doc: License): (r: Result<License, DbError>)
    requires i < |ls|
    ensures r.Success? ==> r.value == doc
    ensures r.Success? <==> LicenseFieldsOk(doc) && LicenseIndexClash(ls, i, doc).None?
    ensures r.Failure? ==> r.error != DuplicateLicense
  {
    if !LicenseFieldsOk(doc) then Failure(ValidationError)
    else match LicenseIndexClash(ls, i, doc)
      case Some(pattern) => Failure(DuplicateKey(pattern))
      case None => Success(doc)
  }

  lemma LicenseUpdatePreserves(ls: seq<License>, i: nat, doc: License)
    requires LicensesWellFormed(ls) && i < |ls|
    requires LicenseUpdate(ls, i, doc).Success?
    requires LicenseTripleKey(doc) == LicenseTripleKey(ls[i])
    ensures LicensesWellFormed(ls[i := doc])
    ensures OnePerTriple(ls) ==> OnePerTriple(ls[i := doc])
  {
    UniqueUpdate(ls, LicenseIdOf, i, doc);
    UniqueUpdate(ls, LicenseKeyOf, i, doc);
    UniqueUpdate(ls, LicenseComboKey, i, doc);
    if OnePerTriple(ls) {
      assert !TakenElsewhere(ls, i, LicenseTripleKey, LicenseTripleKey(doc));
      UniqueUpdate(ls, LicenseTripleKey, i, doc);
    }
  }

  /** Removing a license keeps every invariant of the collection. */
  lemma LicenseRemovePreserves(ls: seq<License>, i: nat)
    requires LicensesWellFormed(ls) && i < |ls|
    ensures LicensesWellFormed(RemoveAt(ls, i))
    ensures OnePerTriple(ls) ==> OnePerTriple(RemoveAt(ls, i))
  {
    UniqueRemoveAt(ls, LicenseIdOf, i);
    UniqueRemoveAt(ls, LicenseKeyOf, i);
    UniqueRemoveAt(ls, LicenseComboKey, i);
    if OnePerTriple(ls) {
      UniqueRemoveAt(ls, LicenseTripleKey, i);
    }
  }

  function ConsumerIndexClash(cs: seq<Consumer>, doc: Consumer): (r: Option<set<string>>)
    ensures r.None? <==>
      && !Taken(cs, ConsumerIdOf, doc.id)
      && !Taken(cs, ConsumerEmailKey, ConsumerEmailKey(doc))
      && !Taken(cs, ConsumerAccountKey, ConsumerAccountKey(doc))
  {
    if Taken(cs, ConsumerIdOf, doc.id) then Some(IdPattern)
    else if Taken(cs, ConsumerEmailKey, ConsumerEmailKey(doc)) then Some(ConsumerEmailPattern)
    else if Taken(cs, ConsumerAccountKey, ConsumerAccountKey(doc)) then Some(ConsumerAccountPattern)
    else None
  }

  /** `save()` of a new Consumer: validation of the required fields, then the pre-save hook that
      stamps `updatedAt`, then the unique indexes. `createdAt` defaults to the same instant. */
  function ConsumerInsert(cs: seq<Consumer>, d: ConsumerDraft, id: Id, now: int): (r: Result<Consumer, DbError>)
    ensures r == Failure(ValidationError) <==>
      d.name == "" || d.email == "" || d.accountNumber == "" || d.createdBy.None?
    ensures r.Success? ==>
      r.value == Consumer(id, d.name, d.email, d.phone, d.country, d.accountNumber, d.createdBy.value, now, now)
    ensures r.Success? <==>
      d.name != "" && d.email != "" && d.accountNumber != "" && d.createdBy.Some?
      && !Taken(cs, ConsumerIdOf, id)
      && !Taken(cs, ConsumerEmailKey, (d.email, d.createdBy.value))
      && !Taken(cs, ConsumerAccountKey, (d.accountNumber, d.createdBy.value))
    ensures r.Failure? && r.error != ValidationError ==>
      r.error.DuplicateKey? && r.error.keyPattern in {IdPattern, ConsumerEmailPattern, ConsumerAccountPattern}
  {
    if d.name == "" || d.email == "" || d.accountNumber == "" || d.createdBy.None? then Failure(ValidationError)
    else
      var doc := Consumer(id, d.name, d.email, d.phone, d.country, d.accountNumber, d.createdBy.value, now, now);
      match ConsumerIndexClash(cs, doc)
      case Some(pattern) => Failure(DuplicateKey(pattern))
      case None => Success(doc)
  }

  lemma ConsumerInsertPreserves(cs: seq<Consumer>, d: ConsumerDraft, id: Id, now: int)
    requires ConsumersWellFormed(cs)
    requires ConsumerInsert(cs, d, id, now).Success?
    ensures ConsumersWellFormed(cs + [ConsumerInsert(cs, d, id, now).value])
  {
    var doc := ConsumerInsert(cs, d, id, now).value;
    UniqueAppend(cs, ConsumerIdOf, doc);
    UniqueAppend(cs, ConsumerEmailKey, doc);
    UniqueAppend(cs, ConsumerAccountKey, doc);
  }

  /** The email and account-number indexes are per owner: a new owner may reuse any email and
      account number that consumers of other owners already have. */
  lemma OtherOwnersEmailAndAccountAccepted(cs: seq<Consumer>, d: ConsumerDraft, id: Id, now: int)
    requires d.name != "" && d.email != "" && d.accountNumber != "" && d.createdBy.Some?
    requires forall k :: 0 <= k < |cs| ==> cs[k].createdBy != d.createdBy.value && cs[k].id != id
    ensures ConsumerInsert(cs, d, id, now).Success?
  {
    forall k | 0 <= k < |cs|
      ensures ConsumerEmailKey(cs[k]) != (d.email, d.createdBy.value)
      ensures ConsumerAccountKey(cs[k]) != (d.accountNumber, d.createdBy.value)
    {
    }
  }

  function ProductIndexClash(ps: seq<Product>, doc: Product): (r: Option<set<string>>)
    ensures r.None? <==> !Taken(ps, ProductIdOf, doc.id) && !Taken(ps, ProductNameKey, ProductNameKey(doc))
  {
    if Taken(ps, ProductIdOf, doc.id) then Some(IdPattern)
    else if Taken(ps, ProductNameKey, ProductNameKey(doc)) then Some(ProductNamePattern)
    else None
  }

  /** `Product.create(...)`: validation of the required fields, then the unique indexes;
      `createdAt` defaults to now. */
  function ProductInsert(ps: seq<Product>, d: ProductDraft, id: Id, now: int): (r: Result<Product, DbError>)
    ensures r == Failure(ValidationError) <==> d.name == "" || d.createdBy.None?
    ensures r.Success? ==> r.value == Product(id, d.name, d.description, d.createdBy.value, now)
    ensures r.Success? <==>
      d.name != "" && d.createdBy.Some?
      && !Taken(ps, ProductIdOf, id) && !Taken(ps, ProductNameKey, (d.name, d.createdBy.value))
  {
    if d.name == "" || d.createdBy.None? then Failure(ValidationError)
    else
      var doc := Product(id, d.name, d.description, d.createdBy.value, now);
      match ProductIndexClash(ps, doc)
      case Some(pattern) => Failure(DuplicateKey(pattern))
      case None => Success(doc)
  }

  lemma ProductInsertPreserves(ps: seq<Product>, d: ProductDraft, id: Id, now: int)
    requires ProductsWellFormed(ps)
    requires ProductInsert(ps, d, id, now).Success?
    ensures ProductsWellFormed(ps + [ProductInsert(ps, d, id, now).value])
  {
    var doc := ProductInsert(ps, d, id, now).value;
    UniqueAppend(ps, ProductIdOf, doc);
    UniqueAppend(ps, ProductNameKey, doc);
  }

  // The ownership filter `{ _id, createdBy: <caller> }` that every owner-scoped handler applies.

  function OwnedProduct(ps: seq<Product>, id: Id, u: UserId): (r: Option<nat>)
    ensures r.Some? ==> r.value < |ps| && ps[r.value].id == id && ps[r.value].createdBy == u
    ensures r.None? <==> forall k :: 0 <= k < |ps| ==> !(ps[k].id == id && ps[k].createdBy == u)
  {
    FindFirst(ps, (p: Product) => p.id == id && p.createdBy == u)
  }

  function OwnedConsumer(cs: seq<Consumer>, id: Id, u: UserId): (r: Option<nat>)
    ensures r.Some? ==> r.value < |cs| && cs[r.value].id == id && cs[r.value].createdBy == u
    ensures r.None? <==> forall k :: 0 <= k < |cs| ==> !(cs[k].id == id && cs[k].createdBy == u)
  {
    FindFirst(cs, (c: Consumer) => c.id == id && c.createdBy == u)
  }

  function OwnedLicense(ls: seq<License>, id: Id, u: UserId): (r: Option<nat>)
    ensures r.Some? ==> r.value < |ls| && ls[r.value].id == id && ls[r.value].createdBy == u
    ensures r.None? <==> forall k :: 0 <= k < |ls| ==> !(ls[k].id == id && ls[k].createdBy == u)
  {
    FindFirst(ls, (l: License) => l.id == id && l.createdBy == u)
  }

  /** A license that exists but belongs to another user is not found, exactly as if it did not
      exist, and the caller's own license with that id is the only one the filter can return. */
  lemma {:induction false} OwnedLicenseIsTheLicenseWithThatId(ls: seq<License>, k: nat, u: UserId)
    requires Unique(ls, LicenseIdOf) && k < |ls|
    ensures ls[k].createdBy != u ==> OwnedLicense(ls, ls[k].id, u).None?
    ensures ls[k].createdBy == u ==> OwnedLicense(ls, ls[k].id, u) == Some(k)
  {
    var r := OwnedLicense(ls, ls[k].id, u);
    if r.Some? {
      assert LicenseIdOf(ls[r.value]) == LicenseIdOf(ls[k]);
    }
  }

  /** Changing a license's `active` flag or type leaves it where the ownership filter finds it. */
  lemma OwnedLicenseAfterUpdate(ls: seq<License>, i: nat, doc: License, id: Id, u: UserId)
    requires i < |ls| && doc.id == ls[i].id && doc.createdBy == ls[i].createdBy
    ensures OwnedLicense(ls[i := doc], id, u) == OwnedLicense(ls, id, u)
  {
    FindFirstAfterUpdate(ls, (l: License) => l.id == id && l.createdBy == u, i, doc);
  }
}
