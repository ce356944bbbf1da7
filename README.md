# License manager backend, modelled in Dafny

This project models the server core of a license manager. Software vendors use it to keep
products and consumers and to issue licenses to them. Third-party software then calls an
endpoint to check whether a license is valid. Every product, consumer and license belongs to
the user who created it (`createdBy`).

The model covers these parts of the source:

- **Store and schemas** (`models.dfy`, `store.dfy`). The store holds three collections of
  documents as sequences in natural (insertion) order. `findOne` returns the first match in
  that order. The schemas become predicates and invariants:
  - required fields and enum values;
  - unique indexes, global or per owner;
  - the defaults of `active`, `createdAt` and `updatedAt`;
  - the License pre-save hook, which refuses a second license for the same product, consumer
    and owner.
  `Database.Store` is the store as an object. Each of its methods is one `save()`,
  `create` or `findOneAndDelete`, proved equal to a pure description in `Models`.
- **License verification** (`check_license.dfy`). The secret gate, the field check, the three
  lookups and the active and expiry checks. It is read-only, so it is a pure function.
- **License lifecycle** (`licenses.dfy`, `licenses_toggle.dfy`, `licenses_license.dfy`).
  Listing, issuance, deletion, the one-way trial-to-full upgrade and the activation toggle, all
  scoped to the caller. Each handler that writes has two forms: a pure function from a store
  snapshot to the reply and the new collection, which the lemmas are about, and a method that
  takes the same steps on a `Database.Store` and is proved to agree with it.
- **Consumer and product handlers** (`consumers.dfy`, `consumers_lookup.dfy`,
  `products_create.dfy`). The consumer listing and creation, the duplicate-key error messages,
  the lookup by email and/or account number with its field-by-field query builder, and product
  creation.
- **Client preference cache** (`local_storage.dfy`). `LocalStorageManager` is a class whose
  `items` map stands for the browser's `localStorage`.
- **A run through the handlers** (`scenario.dfy`). Issue a trial license, verify it, let it
  expire, deactivate it.

The environment becomes parameters:

- the session is `Option<UserId>`;
- the clock is an integer `now`;
- `mongoose.Types.ObjectId.isValid` is a function parameter `validId`;
- the fresh `_id` and the `uuidv4()` key are parameters. A collision with a stored value is not
  excluded: it fails the save on the unique index, as the database would;
- a request body that is not JSON is `None`.

Replies are `Http.Response`: a status with either a payload or an error tag that stands for
the message.

The model follows the code as written, including where parts of the code point in different
directions:

- **One license per product, consumer and owner.** The compound unique index at
  src/models/License.ts:23 includes `licenseType`, so on its own it would allow a trial and a
  full license side by side for the same product, consumer and owner. The pre-save hook at
  src/models/License.ts:25-36 refuses any second license for the same (product, consumer,
  owner) whatever its type. The model follows both: the hook guards inserts, the index guards
  every save.
  - `ComboIndexAdmitsTrialBesideFull` and `OnePerTripleGivesComboIndex` state the gap between
    the hook and the index.
  - `SecondIssueRefused` shows that an issuance of either type after the first is refused.
  - Documents written past the hook (by a bulk update, for example) can still hold a trial
    beside a full license. `UpgradeBesideFullSiblingFails` shows that upgrading such a trial
    clashes on the compound index and answers 500.
- **Consumer listing and lookup are not scoped to the owner.** The consumer indexes at
  src/models/Consumer.ts:20-22 are unique per owner, so consumers belong to an owner. Yet the
  listing shows every owner's consumers, and the lookup has no session check.
- **Consumer creation and product creation never store anything.** Neither handler sets
  `createdBy`, which both schemas require, so validation always fails with a 500. The
  duplicate-key messages of consumer creation are therefore never produced. See
  `CreateNeverStores` in both modules.
- **Verification can pick another owner's documents.** The verification endpoint looks up
  consumers and products globally, and account numbers and product names are unique only per
  owner. The lookup can stop at another owner's consumer and answer "License not found" for a
  license that exists: see `AccountLookupCrossesOwners`. When the account number and the
  product name are each unique in the whole store, the answer is exact: see
  `ValidExactlyForIntendedLicense`.
- **The toggle handler does not pre-check the id.** It has no ObjectId check, so a malformed
  id reaches `findOne`, whose cast error becomes a 500.

## Model

| member | source | states |
|---|---|---|
| Models.ParseLicenseType | src/models/License.ts:14 | only "full" and "trial" are license types |
| Models.OnePerTripleGivesComboIndex | src/models/License.ts:23-36 | where the hook admitted every license, the compound unique index holds too |
| Models.ComboIndexAdmitsTrialBesideFull | src/models/License.ts:23-36 | a trial and a full license for one (product, consumer, owner) satisfy every unique index but not the hook |
| Models.LicenseIndexClash | src/models/License.ts:11-23 | the save is refused by an index exactly when another document has the same `_id`, the same license key, or the same (type, product, consumer, owner) |
| Models.LicenseInsert | src/models/License.ts:10-37 | a new license fails validation iff the type is not full/trial or the key is empty; otherwise the hook refuses it iff a license for the same (product, consumer, owner) exists; it is stored iff additionally `_id` and key are unused, with `active` true and `createdAt` now |
| Models.LicenseInsertPreserves | src/models/License.ts:10-37 | an insert keeps every unique index, the required key, and at most one license per (product, consumer, owner) |
| Models.LicenseUpdate | src/models/License.ts:25-27 | a save of an existing license skips the hook, so it is never refused as a duplicate license; it succeeds iff the key is non-empty and no index clashes |
| Models.LicenseUpdatePreserves | src/models/License.ts:10-23 | a successful save that keeps product, consumer and owner keeps every invariant |
| Models.LicenseRemovePreserves | src/models/License.ts:10-23 | removing a license keeps every invariant |
| Models.ConsumerIndexClash | src/models/Consumer.ts:21-22 | a new consumer clashes iff its `_id`, its (email, owner) or its (account number, owner) is taken |
| Models.ConsumerInsert | src/models/Consumer.ts:9-28 | validation fails iff name, email or account number is empty or the owner is missing; the insert succeeds iff, beyond that, the id is fresh and the owner has no consumer with that email and none with that account number; a stored consumer has `createdAt` and `updatedAt` equal to now; any other failure is a duplicate key on one of the three indexes |
| Models.OtherOwnersEmailAndAccountAccepted | src/models/Consumer.ts:20-22 | the email and account-number indexes are per owner: a consumer whose email and account number other owners already use is accepted for a new owner |
| Models.ConsumerInsertPreserves | src/models/Consumer.ts:9-22 | an insert keeps the consumer indexes and required fields |
| Models.ProductIndexClash | src/models/Product.ts:17 | a new product clashes iff its `_id` or its (name, owner) is taken |
| Models.ProductInsert | src/models/Product.ts:9-17 | validation fails iff the name is empty or the owner is missing; the product is stored iff neither `_id` nor (name, owner) is taken, with `createdAt` now |
| Models.ProductInsertPreserves | src/models/Product.ts:9-17 | an insert keeps the product indexes and required name |
| Models.OwnedProduct | src/app/api/licenses/route.ts:81-84 | the ownership filter finds a product with that id created by the caller, and finds nothing iff there is none |
| Models.OwnedConsumer | src/app/api/licenses/route.ts:90-93 | the same for consumers |
| Models.OwnedLicense | src/app/api/licenses/route.ts:170-173 | the same for licenses |
| Models.OwnedLicenseIsTheLicenseWithThatId | src/app/api/licenses/route.ts:170-177 | with unique ids, another owner's license is not found, exactly as if it did not exist, and the caller's own license is the one found |
| Models.OwnedLicenseAfterUpdate | src/app/api/licenses/toggle/route.ts:24-34 | changing a license's fields other than id and owner does not move what the filter finds |
| Database.Store.SaveNewLicense | src/models/License.ts:25-37 | the save of a new license returns exactly `LicenseInsert`, appends the license on success, changes nothing on failure, and keeps the invariants |
| Database.Store.SaveLicense | src/app/api/licenses/route.ts:184-185 | the save of a changed license returns `LicenseUpdate` and writes the document back in place on success |
| Database.Store.FindOneAndDeleteLicense | src/app/api/licenses/route.ts:132-135 | removes the first license with that id and owner and returns it, or changes nothing when there is none |
| Database.Store.SaveNewConsumer | src/models/Consumer.ts:25-28 | the save of a new consumer runs the hook that stamps `updatedAt`, returns `ConsumerInsert` and appends on success |
| Database.Store.CreateProduct | src/app/api/products/create/route.ts:16 | `create` returns `ProductInsert` and appends on success |
| CheckLicense.FirstWithAccount | src/app/api/check_license/route.ts:60 | the first consumer of any owner with that account number; none iff no consumer has it |
| CheckLicense.FirstNamed | src/app/api/check_license/route.ts:71 | the first product of any owner with that name; none iff no product has it |
| CheckLicense.Resolve | src/app/api/check_license/route.ts:59-92 | no consumer iff no consumer has the account number; no product iff a consumer exists but no product has the name; once both are found, no license iff no license has the key for the first such consumer and the first such product, and a found license references exactly those two documents |
| CheckLicense.Classify | src/app/api/check_license/route.ts:94-116 | "not found" iff no consumer or no license; "invalid product" iff no product; "deactivated" iff found and inactive, even if expired; "expired" iff active and `expires < now`; valid otherwise, with the requested product name, the license's expiry and `active` true |
| CheckLicense.Check | src/app/api/check_license/route.ts:22-118 | 401 iff the secret is missing, empty or different; then 400 for a body that is not JSON; then 400 iff a field is missing; otherwise 200 with the classification of the lookups |
| CheckLicense.IntendedIsFound | src/app/api/check_license/route.ts:59-92 | when account number and product name each belong to one document, the lookups find the license the request means |
| CheckLicense.ValidExactlyForIntendedLicense | src/app/api/check_license/route.ts:59-118 | when account number and product name are each unique in the store, the answer is valid exactly when a license with that key for that product and consumer is active and unexpired |
| CheckLicense.AccountLookupCrossesOwners | src/app/api/check_license/route.ts:60-92 | a well-formed store where an existing, active license is reported "not found" because another owner's consumer shares the account number |
| Licenses.PopulateProduct | src/app/api/licenses/route.ts:27 | the populated product is the one with that id, or none iff no product has it |
| Licenses.PopulateConsumer | src/app/api/licenses/route.ts:28 | the populated consumer is the one with that id, projected to name, email and account number, or none iff no consumer has it |
| Licenses.Listed | src/app/api/licenses/route.ts:24-29 | the listed licenses are exactly the caller's, each as often as stored, newest first |
| Licenses.List | src/app/api/licenses/route.ts:13-44 | 401 iff there is no session; otherwise 200 with one view per listed license, in the same order, newest first |
| Licenses.ListShowsExactlyOwnLicenses | src/app/api/licenses/route.ts:24-42 | a license is listed iff it is stored and the caller created it, and each of the caller's licenses appears in the reply |
| Licenses.ListShowsNoOtherOwner | src/app/api/licenses/route.ts:24-26 | every listed license is stored and belongs to the caller |
| Licenses.Issue | src/app/api/licenses/route.ts:54-113 | 401, unreadable body, missing fields, bad product id, bad consumer id, product not the caller's (404), consumer not the caller's (404), each iff every earlier check passed; then the save's result: 201 with a new license of the caller for their own product and consumer, appended, or 500 with the save's error; nothing changes on any error |
| Licenses.IssueKeepsInvariants | src/app/api/licenses/route.ts:98-107 | issuance keeps every index and at most one license per (product, consumer, owner) |
| Licenses.SecondIssueRefused | src/models/License.ts:25-36 | after a successful issuance, issuing again for the same product and consumer, of either type, is refused as a duplicate license and stores nothing |
| Licenses.Delete | src/app/api/licenses/route.ts:117-146 | 401, unreadable body, 400 for a missing or malformed id, 404 iff the caller has no license with that id; 200 iff the caller has a license with that well-formed id, and then exactly that license is removed; nothing changes on any error |
| Licenses.DeleteKeepsInvariants | src/app/api/licenses/route.ts:132-135 | a delete keeps every invariant |
| Licenses.DeleteRemovesOnlyThatLicense | src/app/api/licenses/route.ts:131-141 | after a delete every license stays except the one with the given id, and only when the delete succeeded |
| Licenses.DeleteOfOwnLicenseSucceeds | src/app/api/licenses/route.ts:132-146 | the caller's own stored license, named by a well-formed id, is deleted with 200 and is the only document removed |
| Licenses.DeleteTwiceNotFound | src/app/api/licenses/route.ts:132-139 | deleting the same license again answers 404 and changes nothing |
| Licenses.Upgrade | src/app/api/licenses/route.ts:148-192 | 401, unreadable body, 400 bad id, 400 iff the requested type is not "full" (before any lookup), 404, 400 iff the license is already full, each iff every earlier check passed; 200 iff the caller owns a trial with that id whose upgraded document clashes with no unique index, and then only the type changes, from trial to full; every failure leaves the store unchanged |
| Licenses.UpgradeBesideFullSiblingFails | src/app/api/licenses/route.ts:183-191 | a full license for the same product, consumer and owner as the caller's trial makes the upgrade's save clash on the compound index of src/models/License.ts:23: 500, nothing changes |
| Licenses.UpgradeKeepsInvariants | src/app/api/licenses/route.ts:183-185 | an upgrade keeps every invariant |
| Licenses.UpgradeOfOwnTrialSucceeds | src/app/api/licenses/route.ts:179-187 | with one license per (product, consumer, owner), the caller's trial license is always upgraded |
| Licenses.UpgradeIsTerminal | src/app/api/licenses/route.ts:179-187 | repeating a successful upgrade answers "already full" and changes nothing |
| Licenses.Post | src/app/api/licenses/route.ts:54-113 | the handler on the store does what `Issue` states and keeps the store's invariants |
| Licenses.Remove | src/app/api/licenses/route.ts:117-146 | the handler on the store does what `Delete` states |
| Licenses.Put | src/app/api/licenses/route.ts:148-192 | the handler on the store does what `Upgrade` states |
| LicensesToggle.Toggle | src/app/api/licenses/toggle/route.ts:7-40 | 401, unreadable body, 400 iff the id is missing or `active` is not a boolean, 500 cast error iff the id is malformed, 404 iff the caller has no license with that id; on success only `active` changes, to the value given |
| LicensesToggle.ToggleKeepsInvariants | src/app/api/licenses/toggle/route.ts:33-34 | a toggle keeps every invariant |
| LicensesToggle.SameKeysNeverClash | src/models/License.ts:23-27 | writing back a license with unchanged keys always succeeds on a well-formed collection |
| LicensesToggle.ToggleOfOwnLicenseSucceeds | src/app/api/licenses/toggle/route.ts:24-35 | the caller's own license is always toggled, to exactly the value given |
| LicensesToggle.ToggleIsIdempotent | src/app/api/licenses/toggle/route.ts:33-35 | repeating a toggle gives the same reply and leaves the licenses as they were after the first |
| LicensesToggle.SetActive | src/app/api/licenses/toggle/route.ts:7-40 | the handler on the store does what `Toggle` states |
| LicensesLicense.Post | src/app/api/licenses/license/route.ts:12-71 | the duplicate issuance handler meets the contract of `Issue` |
| LicensesLicense.Remove | src/app/api/licenses/license/route.ts:74-103 | the duplicate deletion handler meets the contract of `Delete` |
| Consumers.ListAll | src/app/api/consumers/route.ts:8-22 | 401 iff there is no session; otherwise every consumer of every owner, newest first |
| Consumers.ListAllShowsEveryOwner | src/app/api/consumers/route.ts:16 | any caller with a session sees every stored consumer, whoever created it |
| Consumers.ClassifySaveError | src/app/api/consumers/route.ts:50-61 | 400 iff a duplicate key; "Email already exists" iff the key pattern has email; "Account number already exists" iff it has the account number but not email; "Duplicate entry" iff neither; 500 for anything else |
| Consumers.EachConsumerIndexHasItsMessage | src/app/api/consumers/route.ts:52-60 | the `_id` index is reported as "Duplicate entry", the email index as "Email already exists", the account-number index as "Account number already exists" |
| Consumers.Create | src/app/api/consumers/route.ts:24-63 | 401, unreadable body, 400 iff name, email or account number is missing; otherwise the save's result with its error classified; nothing stored on any error |
| Consumers.CreateNeverStores | src/app/api/consumers/route.ts:40-48 | the handler never stores a consumer: a request that passes the field check fails validation with 500 |
| Consumers.Post | src/app/api/consumers/route.ts:24-63 | the handler on the store does what `Create` states |
| ConsumersLookup.QueryOf | src/app/api/consumers/lookup/route.ts:17-19 | the query has the email iff an email was given and the account number iff one was given; a consumer matches iff it agrees with every given field |
| ConsumersLookup.BuildQuery | src/app/api/consumers/lookup/route.ts:17-19 | filling the query field by field yields `QueryOf` |
| ConsumersLookup.SummaryOf | src/app/api/consumers/lookup/route.ts:28 | the populated product is the one with that id, with name and description, or none iff no product has it |
| ConsumersLookup.IssuedTo | src/app/api/consumers/lookup/route.ts:27-30 | exactly the licenses issued to that consumer, by any owner, each as often as stored, newest first |
| ConsumersLookup.FindConsumer | src/app/api/consumers/lookup/route.ts:21 | the consumer found matches the query, and none is found iff no consumer of any owner matches |
| ConsumersLookup.Lookup | src/app/api/consumers/lookup/route.ts:6-56 | unreadable body 500; 400 iff neither email nor account number is given; 404 iff no consumer matches; 200 iff at least one field is given and some consumer of any owner matches every given field, with the matching consumer's five public fields and its licenses, newest first |
| ConsumersLookup.BothFieldsMustMatch | src/app/api/consumers/lookup/route.ts:17-24 | with both fields given, a consumer is found iff one consumer has both that email and that account number |
| ConsumersLookup.LookupListsEveryLicenseIssuedToIt | src/app/api/consumers/lookup/route.ts:27-48 | every license issued to the consumer found appears in the reply |
| ConsumersLookup.Handle | src/app/api/consumers/lookup/route.ts:6-56 | the handler on the store gives the reply `Lookup` states |
| ProductsCreate.Create | src/app/api/products/create/route.ts:5-22 | unreadable body 500; 400 iff the name is missing; 400 iff any owner has a product with that name; otherwise the result of `create`; nothing stored on any error |
| ProductsCreate.CreateNeverStores | src/app/api/products/create/route.ts:12-16 | the handler never stores a product: a request that passes both checks fails validation with 500 |
| ProductsCreate.OtherOwnersNameRefused | src/app/api/products/create/route.ts:12-15 | a name used only by another owner is refused, although an insert of it for this owner would satisfy the per-owner index |
| ProductsCreate.Post | src/app/api/products/create/route.ts:5-22 | the handler on the store does what `Create` states |
| LocalStorage.Merge | src/lib/localStorage.ts:18-20 | every field the patch has overrides, every other field is kept |
| LocalStorage.MergeIsIdempotent | src/lib/localStorage.ts:18-20 | saving the same preferences twice is saving them once |
| LocalStorage.MergeComposes | src/lib/localStorage.ts:14-24 | two saves are one save of the combined patch, the later winning |
| LocalStorage.Recall | src/lib/localStorage.ts:50-53 | an email is recalled iff `rememberMe` is true and the email is non-empty, and it is the stored email |
| LocalStorage.RecallAfterRemember | src/lib/localStorage.ts:40-53 | after remembering a non-empty email, that email is recalled |
| LocalStorage.RecallAfterClear | src/lib/localStorage.ts:45-53 | after clearing, nothing is recalled, and theme and last page are kept |
| LocalStorage.ReadPrefs | src/lib/localStorage.ts:27-37 | without a window, with nothing stored or with text that does not parse, the empty preferences; otherwise what is stored |
| LocalStorage.ReadSession | src/lib/localStorage.ts:71-87 | without a window, with nothing stored or with text that does not parse, null; otherwise what is stored |
| LocalStorage.EntriesAreIndependent | src/lib/localStorage.ts:10-11 | writing the preferences never changes the session metadata read back, and conversely |
| LocalStorage.LocalStorageManager.GetUserPreferences | src/lib/localStorage.ts:27-37 | returns `ReadPrefs` of the storage |
| LocalStorage.LocalStorageManager.SaveUserPreferences | src/lib/localStorage.ts:14-24 | without a window nothing changes; otherwise the stored preferences become the merge of the old ones with the patch, and the session metadata is unchanged |
| LocalStorage.LocalStorageManager.RememberLoginEmail | src/lib/localStorage.ts:40-42 | writes only the preferences entry, merging `{ email, rememberMe: true }` over the stored preferences; every other entry stays as it was, and afterwards the remembered email is the one given, if non-empty |
| LocalStorage.LocalStorageManager.ClearRememberedEmail | src/lib/localStorage.ts:45-47 | writes only the preferences entry, merging `{ email: undefined, rememberMe: false }` over the stored preferences; every other entry stays as it was, and afterwards no email is remembered |
| LocalStorage.LocalStorageManager.GetRememberedEmail | src/lib/localStorage.ts:50-53 | returns `Recall` of the stored preferences |
| LocalStorage.LocalStorageManager.SaveSessionMetadata | src/lib/localStorage.ts:56-68 | the session record is replaced as a whole, not merged; the preferences are unchanged |
| LocalStorage.LocalStorageManager.GetSessionMetadata | src/lib/localStorage.ts:71-87 | returns `ReadSession` of the storage |
| LocalStorage.LocalStorageManager.ClearAllData | src/lib/localStorage.ts:90-95 | afterwards the preferences read back empty and the session metadata as null |
| LocalStorage.LocalStorageManager.UpdateLastActivity | src/lib/localStorage.ts:98-100 | with a window, the session entry is replaced by a record holding only the new last activity, so a stored login time is lost; without one nothing changes; the preferences entry is untouched |
| Scenario.IssueIntoFreshStore | src/app/api/licenses/route.ts:98-108 | issuing into a store with just the caller's product and consumer stores and returns one active trial license |
| Scenario.VerifySingleLicense | src/app/api/check_license/route.ts:59-92 | with one product, one consumer and one license between them, verification reaches that license |
| Scenario.DeactivateSingleLicense | src/app/api/licenses/toggle/route.ts:24-35 | the owner's single license is switched off in place |
| Scenario.IssueVerifyDeactivate | src/app/api/check_license/route.ts:94-118 | an issued trial license verifies as valid until its expiry, as expired after it, and as deactivated once toggled off |

## Left out

- HTTP and JSON plumbing are not modelled. Request bodies are already-decoded values; a field
  that is absent or has the wrong JSON type is `None`. The source only tests fields for
  truthiness, so a truthy value that is not a string reaches the query: a number is cast to a
  string, and an object such as `{"$ne": ""}` acts as a query operator. The model answers 400
  for such a field instead. A body that decodes to something other
  than an object, such as `null`, makes the source throw while destructuring; that case is not
  modelled.
- Authentication is not part of this model. The session is an input, and the handlers'
  different tests (`!session` or `!session?.user`) both become "no user". The source reads the
  user id as `(session.user as any).id`; the model assumes that id is present.
- The database connection bootstrap is not part of this model, and neither are failures of the
  database itself. Errors that the catch blocks report come only from validation, the hook, the
  unique indexes and a cast error.
- Concurrency is left out. Requests run one at a time, so the race between two concurrent
  issuances, which the unique indexes arbitrate, is not modelled.
- Dates are integer instants. Date parsing, ISO formatting and falsy values of `expires` other
  than absence are not modelled.
- `Licenses.List`: the source writes `productId` and `consumerId` in the listing as the string
  form of the populated document, not as its id. The model gives the id when the document
  exists, and `None` otherwise.
- `findOne` always returns the first match in natural order. The database does not promise any
  order. The lemmas that matter, `ValidExactlyForIntendedLicense` and
  `OwnedLicenseIsTheLicenseWithThatId`, assume one match at most, so they hold for any choice.
- `LocalStorage`: failures of `setItem`, such as a full quota, are not modelled; the source
  catches them and logs them. Preference text that parses to a non-object is treated as text
  that does not parse. So is session text that parses to a non-null primitive such as a number:
  `ReadSession` gives `null` for it, where the source returns a record with both dates
  undefined.
- The following routes and files are not part of this model: products/[id], consumers/[id],
  products/route.ts (one unscoped `find`), debug-session, the auth routes, the migration
  script, the React pages and hooks.
