# Customer store and customer service, in Dafny

This project models the core of a CRUD backend for customer records:

- the in-memory customer store `CustomerListDataAccessService`, a seeded list behind
  the nine-operation `CustomerDao` contract;
- the customer service `CustomerService`: existence checks, the duplicate-email check,
  partial updates, and profile images kept in an object store.

The store's queries (`selectCustomerById`, `existsCustomerById`,
`existsCustomerWithEmail`, `selectUserByEmail`) are stream expressions. They are
modelled as functions of the stored sequence in module `CustomerList`. The mutators
change the stored list in place. They are methods of the class
`CustomerList.CustomerListDataAccessService`, whose field `customers` is the list.
Deletion and setting the image id are also given as functions (`DeleteById`,
`SetProfileImageById`), and the methods are proved against them.

Two behaviours of the store are modelled as the code has them:

- `updateCustomer` appends the record, just as `insertCustomer` does. No stored
  customer is replaced, although the `CustomerDao` operation name reads like a
  replacement. Lookups find the first match, so in this value model a lookup after an
  update still returns the earlier record (`AppendKeepsLookup`;
  `Service.CustomerService.UpdateCustomer` states it in its last `ensures`). In the
  source the service edits the very object the lookup returned, so that lookup sees the
  edited fields, and the same object also sits at the end of the list (see "Aliasing"
  under "## Left out").
- Each id comparison is `c.getId().equals(id)`. It throws when a stored customer has no
  id, and the service inserts new customers without an id. Streams are lazy, so a search
  throws only if it reaches such a customer before it finds a match. `Checked<T>` records
  that outcome, and `Search` characterises exactly where a search stops. The service
  reports the exception as `Error.NullPointer`.

The service's own source is not part of this model. Its behaviour follows the assertions
of `CustomerServiceTest.java`. The service is a class over the list store, an object
store and a ghost `log` of every call it makes to them. Each method's `ensures` gives the
exact calls it appends to the log. A test's "never called" assertion is then the absence
of that call there.

The tests name the duplicate-email error `DuplicateResourceException`, with the
message "email already taken"; the model calls it `Error.DuplicateResource`.

Parameters stand in for the collaborators:

- the password encoder is the function `encode`;
- the user name and roles the DTO mapper derives are the functions `usernameOf` and
  `rolesOf`;
- the bucket name is the value `bucket`;
- the generated image id (a random UUID in the source) is an argument of the upload.

## Model

| member | source | states |
|---|---|---|
| `CustomerList.CustomerListDataAccessService.constructor` | backend/src/main/java/com/aryancodes/customer/CustomerListDataAccessService.java:18-38 | the store starts with exactly Alex (id 1, "alex@gmail.com", age 21, MALE) and then Jamila (id 2, "jamila@gmail.com", age 19, MALE) |
| `CustomerList.SeedLookups` | backend/src/main/java/com/aryancodes/customer/CustomerListDataAccessService.java:18-50 | in the seeded list, id 1 finds Alex, id 2 finds Jamila, and every other id finds nothing |
| `CustomerList.CustomerListDataAccessService.SelectAllCustomers` | backend/src/main/java/com/aryancodes/customer/CustomerListDataAccessService.java:41-43 | returns the stored list itself, in stored order, and changes nothing |
| `CustomerList.SearchFrom` | backend/src/main/java/com/aryancodes/customer/CustomerListDataAccessService.java:47-49 | the lazy filter from a position stops at a match or at a customer without id, after passing only customers that have an id different from the one sought, or else passes them all |
| `CustomerList.Search` | backend/src/main/java/com/aryancodes/customer/CustomerListDataAccessService.java:47-49 | the search stops at the first match exactly when one is reachable, faults exactly when a customer without id comes first, and is exhausted exactly when every customer has a different id |
| `CustomerList.SearchStopsFirst` | backend/src/main/java/com/aryancodes/customer/CustomerListDataAccessService.java:47-49 | a reachable first match or a reachable missing id forces the search to stop there |
| `CustomerList.SelectCustomerById` | backend/src/main/java/com/aryancodes/customer/CustomerListDataAccessService.java:46-50 | returns the first customer with the id; empty exactly when no customer has it; faults exactly when a customer without id comes before any match |
| `CustomerList.ExistsCustomerById` | backend/src/main/java/com/aryancodes/customer/CustomerListDataAccessService.java:63-67 | true exactly when a match is reachable, false exactly when every customer has a different id, a fault otherwise |
| `CustomerList.ExistsIffSelectFinds` | backend/src/main/java/com/aryancodes/customer/CustomerListDataAccessService.java:46-67 | `existsCustomerById` is true exactly when `selectCustomerById` is present, false exactly when it is empty, and both fault on the same lists |
| `CustomerList.NoFaultWithIds` | backend/src/main/java/com/aryancodes/customer/CustomerListDataAccessService.java:46-67 | when every stored customer has an id, neither id query faults |
| `CustomerList.ExistsCustomerWithEmail` | backend/src/main/java/com/aryancodes/customer/CustomerListDataAccessService.java:57-61 | true exactly when some stored customer has that email |
| `CustomerList.SelectUserByEmail` | backend/src/main/java/com/aryancodes/customer/CustomerListDataAccessService.java:82-87 | returns the first customer whose user name equals the argument; empty exactly when none does |
| `CustomerList.CustomerListDataAccessService.InsertCustomer` | backend/src/main/java/com/aryancodes/customer/CustomerListDataAccessService.java:52-55 | the new list is the old list plus the customer at the end, with no check of id or email |
| `CustomerList.CustomerListDataAccessService.UpdateCustomer` | backend/src/main/java/com/aryancodes/customer/CustomerListDataAccessService.java:77-80 | the new list is the old list plus the customer at the end; the length grows by one and the old list is an unchanged prefix |
| `CustomerList.AppendKeepsLookup` | backend/src/main/java/com/aryancodes/customer/CustomerListDataAccessService.java:77-80 | after an append, a lookup that found a customer still finds that same customer |
| `CustomerList.AppendedEmailExists` | backend/src/main/java/com/aryancodes/customer/CustomerListDataAccessService.java:52-61 | after an insert, the inserted customer's email exists |
| `CustomerList.RemoveAt` | backend/src/main/java/com/aryancodes/customer/CustomerListDataAccessService.java:74 | removing one element keeps the others in order, shortens the list by one and removes exactly that element from the multiset |
| `CustomerList.DeleteById` | backend/src/main/java/com/aryancodes/customer/CustomerListDataAccessService.java:69-75 | removes exactly the first customer with the id; leaves the list as it was when none has it; faults exactly where the lookup faults |
| `CustomerList.CustomerListDataAccessService.DeleteCustomerById` | backend/src/main/java/com/aryancodes/customer/CustomerListDataAccessService.java:69-75 | the new list is `DeleteById` of the old one, or the old list when the search faults |
| `CustomerList.SetProfileImageById` | backend/src/main/java/com/aryancodes/customer/CustomerListDataAccessService.java:89-95 | sets the image id of the first customer with the id and of no other; the length, the other fields and the other customers stay; no change when none has the id; faults exactly where the lookup faults |
| `CustomerList.CustomerListDataAccessService.UpdateCustomerProfileImageId` | backend/src/main/java/com/aryancodes/customer/CustomerListDataAccessService.java:89-95 | the new list is `SetProfileImageById` of the old one, or the old list when the search faults |
| `CustomerList.SetProfileImageThenSelect` | backend/src/main/java/com/aryancodes/customer/CustomerListDataAccessService.java:46-50 | after setting the image id of the customer a lookup finds, the same lookup returns that customer carrying the new image id |
| `Formatting.DigitChar` | backend/src/test/java/com/aryancodes/customer/CustomerServiceTest.java:110 | the digit character is a decimal digit and encodes the digit's value |
| `Formatting.Decimal` | backend/src/test/java/com/aryancodes/customer/CustomerServiceTest.java:110 | the numeral of an id in a message read back (most significant digit first) is the id; it is nonempty, all digits, one digit exactly below 10, with no leading zero |
| `Formatting.DecimalInjective` | backend/src/test/java/com/aryancodes/customer/CustomerServiceTest.java:435 | distinct numbers have distinct numerals |
| `Formatting.LongToString` | backend/src/test/java/com/aryancodes/customer/CustomerServiceTest.java:435 | the rendering of an id read back (optional minus sign, then digits) is the id; it contains no '/' and starts with '-' exactly for negative ids |
| `Formatting.LongToStringInjective` | backend/src/test/java/com/aryancodes/customer/CustomerServiceTest.java:435 | distinct ids render differently |
| `Formatting.SplitAtSeparator` | backend/src/test/java/com/aryancodes/customer/CustomerServiceTest.java:435 | splitting at a separator that the left parts lack recovers both parts |
| `Service.MissingImageMessageDiffers` | backend/src/test/java/com/aryancodes/customer/CustomerServiceTest.java:445-484 | "profile image not found" and "not found" messages for the same id differ |
| `Service.KeyParts` | backend/src/test/java/com/aryancodes/customer/CustomerServiceTest.java:433-436 | after a common prefix, a part without '/' followed by '/' and a tail determines both the part and the tail |
| `Service.ProfileImageKeyInjective` | backend/src/test/java/com/aryancodes/customer/CustomerServiceTest.java:433-436 | the key `profile-images/{id}/{imageId}` determines both the customer id and the image id |
| `Service.Merge` | backend/src/test/java/com/aryancodes/customer/CustomerServiceTest.java:188-284 | the written record takes each field the request gives and keeps each field it leaves null; id, password, gender and image id are untouched |
| `Service.NoChangesIffMergeIsIdentity` | backend/src/test/java/com/aryancodes/customer/CustomerServiceTest.java:306-326 | a request has no changes exactly when merging it leaves the record as it was |
| `Service.CustomerService.constructor` | backend/src/test/java/com/aryancodes/customer/CustomerServiceTest.java:51-60 | the service holds the store, the object store, the encoder, the bucket and the mapper's derivations, and has made no call yet |
| `Service.CustomerService.GetAllCustomers` | backend/src/test/java/com/aryancodes/customer/CustomerServiceTest.java:62-81 | one DTO per stored customer, in order, each the mapping of that customer; one `selectAllCustomers` call |
| `Service.CustomerService.GetCustomer` | backend/src/test/java/com/aryancodes/customer/CustomerServiceTest.java:83-111 | returns the mapping of the first stored customer with the id, otherwise NotFound "customer with id [id] not found"; one lookup call |
| `Service.CustomerService.AddCustomer` | backend/src/test/java/com/aryancodes/customer/CustomerServiceTest.java:113-157 | a taken email gives DuplicateResource "email already taken" with no insert; otherwise exactly one insert of a customer without id, with the request's name, email, age and gender and the encoder's output as password, after which the email exists |
| `Service.CustomerService.DeleteCustomerById` | backend/src/test/java/com/aryancodes/customer/CustomerServiceTest.java:159-186 | a missing id gives NotFound with no delete; an existing id gives exactly one delete of that id, which removes exactly the first match |
| `Service.CustomerService.UpdateCustomer` | backend/src/test/java/com/aryancodes/customer/CustomerServiceTest.java:188-326 | NotFound for a missing id; a different, taken email gives DuplicateResource with no write; no difference gives RequestValidation "no data changes found" with no write; otherwise one write of the merged record; email queried only for a different email |
| `Service.CustomerService.UploadCustomerProfileImage` | backend/src/test/java/com/aryancodes/customer/CustomerServiceTest.java:328-412 | a missing customer gives NotFound and an unreadable file gives "failed to upload profile image", both with no put and no image-id write; otherwise one put of the bytes under `profile-images/{id}/{imageId}` in the customer bucket and one image-id write for the same customer id |
| `Service.CustomerService.GetCustomerProfileImage` | backend/src/test/java/com/aryancodes/customer/CustomerServiceTest.java:414-484 | a missing customer gives NotFound "customer with id [id] not found" with no existence query and no fetch; no image id gives NotFound "... profile image not found" with no fetch; otherwise one fetch under the derived key, returning exactly the stored bytes |
| `Service.UploadThenDownload` | backend/src/test/java/com/aryancodes/customer/CustomerServiceTest.java:328-443 | uploading bytes for a stored customer and then fetching the image returns exactly those bytes |
| `ObjectStorage.ObjectStore.PutObject` | backend/src/test/java/com/aryancodes/customer/CustomerServiceTest.java:342-346 | the bytes are stored under the bucket and key, replacing what was there |
| `ObjectStorage.ObjectStore.GetObject` | backend/src/test/java/com/aryancodes/customer/CustomerServiceTest.java:433-436 | returns the bytes stored under the bucket and key, and nothing when nothing is stored there |

## Left out

- Aliasing: the source stores references to mutable `Customer` objects. `selectAllCustomers` hands out the live list, and the service edits the very object it looked up before it writes it back. The model holds customers as values, so an edit is visible only through the list operation that makes it. In particular, after a successful update the source's list holds the edited object both at its old position and at the end, while the model's list keeps the earlier record at the old position.
- `Service.CustomerService.UpdateCustomer`: its last `ensures` (a lookup after a successful update returns what it returned before) holds for the value model only; in the source the record returned is the same object, now carrying the edited fields.
- `CustomerList.DeleteById`: `customers::remove` removes the first element that `Customer.equals` the one found. `Customer` is not part of this model. The model removes the element found, which is the same element when equal customers have equal ids.
- Null emails and null request fields other than the update's partial fields are not modelled. `getEmail().equals(...)` would throw on a stored customer without email.
- `Customer.getUsername` and the DTO mapper are not part of this model. The user name and the roles are the abstract functions `usernameOf` and `rolesOf`. `ToDTO` copies the other fields and drops the password.
- The service source is not part of this model. The order of its internal steps is taken from the tests. Every call to the customer store and to the object store is logged; the password encoder and the bucket getter are not.
- `Service.CustomerService.GetCustomerProfileImage`: a missing image id is only the absent value. Whether the service also treats an empty string as missing is not known.
- Password hashing, UUID generation and the object store are not modelled. The first two are parameters. The object store is a map from bucket and key to bytes. Its failures other than a missing object are not modelled, and neither is the client's configuration.
- The static list is shared by the whole process. The model gives one store object the same role.
- Concurrency and check-then-act races between requests are not modelled. The source has no synchronisation.
- HTTP routing, multipart parsing and token issuance in `CustomerController.java` are not modelled. Neither is the database-backed store (`CustomerRepository.java` and its tests), whose behaviour lies in the ORM and the database.
