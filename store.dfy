/** The document store as one object whose three collections the handlers change in place.
    Each method is one database call of the source (`save()`, `Model.create`,
    `findOneAndDelete`) and is specified by the pure description of that call in Models. */
module Database {
  import opened Common
  import opened Seqs
  import opened Models

  class Store {
    var products: seq<Product>
    var consumers: seq<Consumer>
    var licenses: seq<License>

    function Snapshot(): Db
      reads this
    {
      Db(products, consumers, licenses)
    }

    ghost predicate Valid()
      reads this
    {
      WellFormed(Snapshot())
    }

    constructor ()
      ensures Valid()
      ensures products == [] && consumers == [] && licenses == []
    {
      products, consumers, licenses := [], [], [];
    }

    /** `license.save()` of a new License document. */
    method SaveNewLicense(d: LicenseDraft, id: Id, now: int) returns (r: Result<License, DbError>)
      requires Valid()
      modifies this`licenses
      ensures Valid()
      ensures r == LicenseInsert(old(licenses), d, id, now)
      ensures licenses == if r.Success? then old(licenses) + [r.value] else old(licenses)
      ensures OnePerTriple(old(licenses)) ==> OnePerTriple(licenses)
    {
      var t := ParseLicenseType(d.licenseType);
      if t.None? || d.licenseKey == "" {
        return Failure(ValidationError);
      }
      // The pre-save hook, for new documents only: look for any license of this product,
      // consumer and owner, and abort the save if there is one.
      var existing := FindFirst(licenses, (l: License) => LicenseTripleKey(l) == (d.productId, d.consumerId, d.createdBy));
      if existing.Some? {
        return Failure(DuplicateLicense);
      }
      var doc := License(id, d.licenseKey, d.productId, d.consumerId, t.value, d.expires, true, d.createdBy, now);
      var clash := LicenseIndexClash(licenses, |licenses|, doc);
      if clash.Some? {
        return Failure(DuplicateKey(clash.value));
      }
      LicenseInsertPreserves(licenses, d, id, now);
      licenses := licenses + [doc];
      r := Success(doc);
    }

    /** `license.save()` of the document at position `i`, read from the store and changed. */
    method SaveLicense(i: nat, doc: License) returns (r: Result<License, DbError>)
      requires Valid() && i < |licenses|
      requires LicenseTripleKey(doc) == LicenseTripleKey(licenses[i])
      modifies this`licenses
      ensures Valid()
      ensures r == LicenseUpdate(old(licenses), i, doc)
      ensures licenses == if r.Success? then old(licenses)[i := doc] else old(licenses)
      ensures OnePerTriple(old(licenses)) ==> OnePerTriple(licenses)
    {
      if !LicenseFieldsOk(doc) {
        return Failure(ValidationError);
      }
      var clash := LicenseIndexClash(licenses, i, doc);
      if clash.Some? {
        return Failure(DuplicateKey(clash.value));
      }
      LicenseUpdatePreserves(licenses, i, doc);
      licenses := licenses[i := doc];
      r := Success(doc);
    }

    /** `License.findOneAndDelete({ _id: id, createdBy: u })`: removes the first match and
        returns it. */
    method FindOneAndDeleteLicense(id: Id, u: UserId) returns (deleted: Option<License>)
      requires Valid()
      modifies this`licenses
      ensures Valid()
      ensures OwnedLicense(old(licenses), id, u).None? ==> deleted.None? && licenses == old(licenses)
      ensures OwnedLicense(old(licenses), id, u).Some? ==>
        var i := OwnedLicense(old(licenses), id, u).value;
        deleted == Some(old(licenses)[i]) && licenses == RemoveAt(old(licenses), i)
      ensures OnePerTriple(old(licenses)) ==> OnePerTriple(licenses)
    {
      var found := OwnedLicense(licenses, id, u);
      if found.None? {
        return None;
      }
      var i := found.value;
      deleted := Some(licenses[i]);
      LicenseRemovePreserves(licenses, i);
      licenses := RemoveAt(licenses, i);
    }

    /** `consumer.save()` of a new Consumer document. */
    method SaveNewConsumer(d: ConsumerDraft, id: Id, now: int) returns (r: Result<Consumer, DbError>)
      requires Valid()
      modifies this`consumers
      ensures Valid()
      ensures r == ConsumerInsert(old(consumers), d, id, now)
      ensures consumers == if r.Success? then old(consumers) + [r.value] else old(consumers)
    {
      if d.name == "" || d.email == "" || d.accountNumber == "" || d.createdBy.None? {
        return Failure(ValidationError);
      }
      var doc := Consumer(id, d.name, d.email, d.phone, d.country, d.accountNumber, d.createdBy.value, now, now);
      // The pre-save hook stamps the time of the save.
      doc := doc.(updatedAt := now);
      var clash := ConsumerIndexClash(consumers, doc);
      if clash.Some? {
        return Failure(DuplicateKey(clash.value));
      }
      ConsumerInsertPreserves(consumers, d, id, now);
      consumers := consumers + [doc];
      r := Success(doc);
    }

    /** `Product.create(fields)`. */
    method CreateProduct(d: ProductDraft, id: Id, now: int) returns (r: Result<Product, DbError>)
      requires Valid()
      modifies this`products
      ensures Valid()
      ensures r == ProductInsert(old(products), d, id, now)
      ensures products == if r.Success? then old(products) + [r.value] else old(products)
    {
      if d.name == "" || d.createdBy.None? {
        return Failure(ValidationError);
      }
      var doc := Product(id, d.name, d.description, d.createdBy.value, now);
      var clash := ProductIndexClash(products, doc);
      if clash.Some? {
        return Failure(DuplicateKey(clash.value));
      }
      ProductInsertPreserves(products, d, id, now);
      products := products + [doc];
      r := Success(doc);
    }
  }
}
