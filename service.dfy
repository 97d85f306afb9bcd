/** The customer service: validation in front of the store, partial updates, and
    profile images in the object store.

    The service is observed through what it asks of its collaborators. A ghost log
    records every call it makes to the customer store and the object store, so "the
    service never inserts" is a statement about the calls a method appends to the log.

    Here the store is the in-memory `CustomerListDataAccessService`; the password
    encoder, the user-name and role derivation of the mapper and the bucket name are
    parameters of the service, and the generated image id is a parameter of the upload. */
module Service {
  import opened Wrappers
  import opened Customers
  import opened Formatting
  import opened ObjectStorage
  import CustomerList

  /** The exceptions the service raises. */
  datatype Error =
    | NotFound(message: string)           // ResourceNotFoundException
    | DuplicateResource(message: string)  // DuplicateResourceException
    | RequestValidation(message: string)  // RequestValidationException
    | UploadFailed(message: string)       // RuntimeException after a failed read of the file
    | NullPointer                         // the store compared a stored customer without id
    | ObjectMissing                       // the object store holds nothing under the key

  datatype Outcome<T> = Success(value: T) | Failure(error: Error)

  datatype RegistrationRequest = RegistrationRequest(
    name: string, email: string, password: string, age: Int32, gender: Gender)

  /** A partial update: an absent field (null in the request) means "keep". */
  datatype UpdateRequest = UpdateRequest(
    name: Option<string>, email: Option<string>, age: Option<Int32>)

  /** The uploaded file: its bytes, or a read that throws. */
  datatype UploadedFile = Readable(bytes: seq<Byte>) | Unreadable

  datatype CustomerDTO = CustomerDTO(
    id: Option<Long>, name: string, email: string, gender: Gender, age: Int32,
    roles: seq<string>, username: string, profileImageId: Option<string>)

  /** A call of the service to one of its collaborators. */
  datatype Call =
    | SelectAll
    | SelectById(id: Long)
    | ExistsEmail(email: string)
    | ExistsId(id: Long)
    | Insert(customer: Customer)
    | Update(customer: Customer)
    | Delete(id: Long)
    | SetProfileImage(imageId: string, id: Long)
    | Put(bucket: string, key: string, bytes: seq<Byte>)
    | Get(bucket: string, key: string)

  function CustomerNotFound(id: Long): string {
    "customer with id [" + LongToString(id) + "] not found"
  }

  function ProfileImageNotFound(id: Long): string {
    "customer with id [" + LongToString(id) + "] profile image not found"
  }

  const EmailTaken: string := "email already taken"
  const NoDataChanges: string := "no data changes found"
  const UploadFailedMessage: string := "failed to upload profile image"

  /** A missing image and a missing customer are reported with different messages. */
  lemma MissingImageMessageDiffers(id: Long)
    ensures CustomerNotFound(id) != ProfileImageNotFound(id)
  {
    assert |ProfileImageNotFound(id)| == |CustomerNotFound(id)| + |"profile image "|;
  }

  /** The object-store key of a customer's profile image. */
  function ProfileImageKey(customerId: Long, imageId: string): string {
    "profile-images/" + LongToString(customerId) + "/" + imageId
  }

  /** A prefix, a separator-free part, the separator and a tail split back into the
      part and the tail. */
  lemma {:induction false} KeyParts(prefix: string, part1: string, tail1: string, part2: string, tail2: string)
    requires '/' !in part1 && '/' !in part2
    requires prefix + part1 + "/" + tail1 == prefix + part2 + "/" + tail2
    ensures part1 == part2 && tail1 == tail2
  {
    var rest1 := part1 + ['/'] + tail1;
    var rest2 := part2 + ['/'] + tail2;
    assert prefix + part1 + "/" + tail1 == prefix + rest1;
    assert prefix + part2 + "/" + tail2 == prefix + rest2;
    assert rest1 == (prefix + rest1)[|prefix|..];
    assert rest2 == (prefix + rest2)[|prefix|..];
    SplitAtSeparator(part1, tail1, part2, tail2, '/');
  }

  /** Each key names one image of one customer: the key determines both ids. */
  lemma {:induction false} ProfileImageKeyInjective(id1: Long, image1: string, id2: Long, image2: string)
    requires ProfileImageKey(id1, image1) == ProfileImageKey(id2, image2)
    ensures id1 == id2 && image1 == image2
  {
    KeyParts("profile-images/", LongToString(id1), image1, LongToString(id2), image2);
    LongToStringInjective(id1, id2);
  }

  /** The request gives a name different from the current one. */
  predicate NameChanges(c: Customer, req: UpdateRequest) {
    req.name.Some? && req.name.value != c.name
  }

  predicate EmailChanges(c: Customer, req: UpdateRequest) {
    req.email.Some? && req.email.value != c.email
  }

  predicate AgeChanges(c: Customer, req: UpdateRequest) {
    req.age.Some? && req.age.value != c.age
  }

  predicate HasChanges(c: Customer, req: UpdateRequest) {
    NameChanges(c, req) || EmailChanges(c, req) || AgeChanges(c, req)
  }

  /** The record the service writes: each field is set only when the request gives a
      different value. In effect every given field is taken and every absent field kept,
      and nothing but name, email and age is touched. */
  function Merge(c: Customer, req: UpdateRequest): (m: Customer)
    ensures m.name == (if req.name.Some? then req.name.value else c.name)
    ensures m.email == (if req.email.Some? then req.email.value else c.email)
    ensures m.age == (if req.age.Some? then req.age.value else c.age)
    ensures m.id == c.id && m.password == c.password && m.gender == c.gender
    ensures m.profileImageId == c.profileImageId
  {
    c.(name := if NameChanges(c, req) then req.name.value else c.name,
       email := if EmailChanges(c, req) then req.email.value else c.email,
       age := if AgeChanges(c, req) then req.age.value else c.age)
  }

  /** A request is rejected as making no change exactly when merging it changes nothing. */
  lemma NoChangesIffMergeIsIdentity(c: Customer, req: UpdateRequest)
    ensures !HasChanges(c, req) <==> Merge(c, req) == c
  {
    if Merge(c, req) == c {
      assert Merge(c, req).name == c.name && Merge(c, req).email == c.email && Merge(c, req).age == c.age;
    }
  }

  /** The email query the update makes: only for a given email that differs. */
  ghost function EmailCheck(c: Customer, req: UpdateRequest): seq<Call> {
    if EmailChanges(c, req) then [ExistsEmail(req.email.value)] else []
  }

  class CustomerService {
    const dao: CustomerList.CustomerListDataAccessService
    const s3: ObjectStore
    /** `PasswordEncoder.encode`. */
    const encode: string -> string
    /** `S3Buckets.getCustomer()`. */
    const bucket: string
    /** The user name and the roles the DTO mapper derives from a customer. */
    const usernameOf: Customer -> string
    const rolesOf: Customer -> seq<string>
    /** Every call made to the store and the object store, oldest first. */
    ghost var log: seq<Call>

    constructor (dao: CustomerList.CustomerListDataAccessService, s3: ObjectStore,
                 encode: string -> string, bucket: string,
                 usernameOf: Customer -> string, rolesOf: Customer -> seq<string>)
      ensures this.dao == dao && this.s3 == s3 && this.bucket == bucket
      ensures this.encode == encode && this.usernameOf == usernameOf && this.rolesOf == rolesOf
      ensures log == []
    {
      this.dao := dao;
      this.s3 := s3;
      this.encode := encode;
      this.bucket := bucket;
      this.usernameOf := usernameOf;
      this.rolesOf := rolesOf;
      log := [];
    }

    /** The DTO mapper: the customer without its password. */
    function ToDTO(c: Customer): CustomerDTO {
      CustomerDTO(c.id, c.name, c.email, c.gender, c.age, rolesOf(c), usernameOf(c), c.profileImageId)
    }

    /** `getAllCustomers`: one DTO per stored customer, in stored order. */
    method GetAllCustomers() returns (r: seq<CustomerDTO>)
      modifies this
      ensures |r| == |dao.customers|
      ensures forall i :: 0 <= i < |r| ==> r[i] == ToDTO(dao.customers[i])
      ensures log == old(log) + [SelectAll]
    {
      var all := dao.SelectAllCustomers();
      log := log + [SelectAll];
      r := seq(|all|, i requires 0 <= i < |all| => ToDTO(all[i]));
    }

    /** `getCustomer`: the DTO of the stored customer, or NotFound. */
    method GetCustomer(id: Long) returns (r: Outcome<CustomerDTO>)
      modifies this
      ensures log == old(log) + [SelectById(id)]
      ensures forall k :: CustomerList.IsFirstMatch(dao.customers, id, k) ==>
                r == Success(ToDTO(dao.customers[k]))
      ensures CustomerList.PassesAll(dao.customers, id, 0, |dao.customers|) ==>
                r == Failure(NotFound(CustomerNotFound(id)))
      ensures CustomerList.SelectCustomerById(dao.customers, id).NullIdFault? ==>
                r == Failure(NullPointer)
    {
      var found := CustomerList.SelectCustomerById(dao.customers, id);
      log := log + [SelectById(id)];
      match found
      case Ok(Some(c)) => r := Success(ToDTO(c));
      case Ok(None) => r := Failure(NotFound(CustomerNotFound(id)));
      case NullIdFault => r := Failure(NullPointer);
    }

    /** `addCustomer`: reject a taken email; otherwise insert, once, a customer without
        id holding the request's fields and the encoded password. */
    method AddCustomer(req: RegistrationRequest) returns (r: Outcome<()>)
      modifies this, dao
      ensures var taken := CustomerList.ExistsCustomerWithEmail(old(dao.customers), req.email);
        if taken then
          r == Failure(DuplicateResource(EmailTaken)) &&
          dao.customers == old(dao.customers) &&
          log == old(log) + [ExistsEmail(req.email)]
        else
          r == Success(()) &&
          |dao.customers| == |old(dao.customers)| + 1 &&
          dao.customers[..|old(dao.customers)|] == old(dao.customers) &&
          var c := dao.customers[|old(dao.customers)|];
          c.id.None? && c.name == req.name && c.email == req.email && c.age == req.age &&
          c.gender == req.gender && c.password == encode(req.password) &&
          c.profileImageId.None? &&
          log == old(log) + [ExistsEmail(req.email), Insert(c)]
      ensures r.Success? ==> CustomerList.ExistsCustomerWithEmail(dao.customers, req.email)
    {
      var taken := CustomerList.ExistsCustomerWithEmail(dao.customers, req.email);
      log := log + [ExistsEmail(req.email)];
      if taken {
        r := Failure(DuplicateResource(EmailTaken));
        return;
      }
      var c := Customer(None, req.name, req.email, encode(req.password), req.age, req.gender, None);
      CustomerList.AppendedEmailExists(dao.customers, c);
      dao.InsertCustomer(c);
      log := log + [Insert(c)];
      r := Success(());
    }

    /** `deleteCustomerById`: NotFound unless the customer exists; then one delete. */
    method DeleteCustomerById(id: Long) returns (r: Outcome<()>)
      modifies this, dao
      ensures var exists_ := CustomerList.ExistsCustomerById(old(dao.customers), id);
        (exists_ == CustomerList.Ok(true) ==>
           r == Success(()) &&
           dao.customers == CustomerList.DeleteById(old(dao.customers), id).value &&
           |dao.customers| == |old(dao.customers)| - 1 &&
           log == old(log) + [ExistsId(id), Delete(id)]) &&
        (exists_ == CustomerList.Ok(false) ==>
           r == Failure(NotFound(CustomerNotFound(id))) &&
           dao.customers == old(dao.customers) && log == old(log) + [ExistsId(id)]) &&
        (exists_.NullIdFault? ==>
           r == Failure(NullPointer) &&
           dao.customers == old(dao.customers) && log == old(log) + [ExistsId(id)])
    {
      var exists_ := CustomerList.ExistsCustomerById(dao.customers, id);
      log := log + [ExistsId(id)];
      match exists_
      case NullIdFault =>
        r := Failure(NullPointer);
      case Ok(false) =>
        r := Failure(NotFound(CustomerNotFound(id)));
      case Ok(true) =>
        var d := dao.DeleteCustomerById(id);
        log := log + [Delete(id)];
        r := Success(());
    }

    /** `updateCustomer`: NotFound for a missing customer; for a given, different email
        that is taken, DuplicateResource; when nothing differs, RequestValidation; else
        one write of the merged record. Customers are values here and the list store's
        write appends, so a later lookup of the id still finds the earlier record; in the
        source the service has edited that same stored object, which this model does not
        capture. */
    method UpdateCustomer(id: Long, req: UpdateRequest) returns (r: Outcome<()>)
      modifies this, dao
      ensures var found := CustomerList.SelectCustomerById(old(dao.customers), id);
        match found
        case NullIdFault =>
          r == Failure(NullPointer) && dao.customers == old(dao.customers) &&
          log == old(log) + [SelectById(id)]
        case Ok(None) =>
          r == Failure(NotFound(CustomerNotFound(id))) && dao.customers == old(dao.customers) &&
          log == old(log) + [SelectById(id)]
        case Ok(Some(c)) =>
          var queried := old(log) + [SelectById(id)] + EmailCheck(c, req);
          if EmailChanges(c, req) &&
             CustomerList.ExistsCustomerWithEmail(old(dao.customers), req.email.value) then
            r == Failure(DuplicateResource(EmailTaken)) &&
            dao.customers == old(dao.customers) && log == queried
          else if !HasChanges(c, req) then
            r == Failure(RequestValidation(NoDataChanges)) &&
            dao.customers == old(dao.customers) && log == queried
          else
            r == Success(()) &&
            dao.customers == old(dao.customers) + [Merge(c, req)] &&
            log == queried + [Update(Merge(c, req))]
      ensures r.Success? ==>
        CustomerList.SelectCustomerById(dao.customers, id) ==
        CustomerList.SelectCustomerById(old(dao.customers), id)
    {
      var found := CustomerList.SelectCustomerById(dao.customers, id);
      log := log + [SelectById(id)];
      match found
      case NullIdFault =>
        r := Failure(NullPointer);
      case Ok(None) =>
        r := Failure(NotFound(CustomerNotFound(id)));
      case Ok(Some(c)) =>
        if EmailChanges(c, req) {
          var taken := CustomerList.ExistsCustomerWithEmail(dao.customers, req.email.value);
          log := log + [ExistsEmail(req.email.value)];
          if taken {
            r := Failure(DuplicateResource(EmailTaken));
            return;
          }
        }
        if !HasChanges(c, req) {
          r := Failure(RequestValidation(NoDataChanges));
          return;
        }
        var merged := Merge(c, req);
        CustomerList.AppendKeepsLookup(dao.customers, merged, id, c);
        dao.UpdateCustomer(merged);
        log := log + [Update(merged)];
        r := Success(());
    }

    /** `uploadCustomerProfileImage`: NotFound for a missing customer; a failed read of
        the file fails the upload; otherwise the bytes go to the object store under the
        customer's key and the new image id is recorded for the customer. */
    method UploadCustomerProfileImage(id: Long, file: UploadedFile, imageId: string) returns (r: Outcome<()>)
      modifies this, dao, s3
      ensures var exists_ := CustomerList.ExistsCustomerById(old(dao.customers), id);
        (exists_.NullIdFault? ==>
           r == Failure(NullPointer) && log == old(log) + [ExistsId(id)]) &&
        (exists_ == CustomerList.Ok(false) ==>
           r == Failure(NotFound(CustomerNotFound(id))) && log == old(log) + [ExistsId(id)]) &&
        (exists_ == CustomerList.Ok(true) && file.Unreadable? ==>
           r == Failure(UploadFailed(UploadFailedMessage)) && log == old(log) + [ExistsId(id)]) &&
        (exists_ == CustomerList.Ok(true) && file.Readable? ==>
           var key := ProfileImageKey(id, imageId);
           r == Success(()) &&
           s3.objects == old(s3.objects)[ObjectRef(bucket, key) := file.bytes] &&
           dao.customers == CustomerList.SetProfileImageById(old(dao.customers), imageId, id).value &&
           log == old(log) + [ExistsId(id), Put(bucket, key, file.bytes), SetProfileImage(imageId, id)])
      ensures r.Failure? ==> dao.customers == old(dao.customers) && s3.objects == old(s3.objects)
    {
      var exists_ := CustomerList.ExistsCustomerById(dao.customers, id);
      log := log + [ExistsId(id)];
      match exists_
      case NullIdFault =>
        r := Failure(NullPointer);
      case Ok(false) =>
        r := Failure(NotFound(CustomerNotFound(id)));
      case Ok(true) =>
        match file
        case Unreadable =>
          r := Failure(UploadFailed(UploadFailedMessage));
        case Readable(bytes) =>
          var key := ProfileImageKey(id, imageId);
          s3.PutObject(bucket, key, bytes);
          log := log + [Put(bucket, key, bytes)];
          var u := dao.UpdateCustomerProfileImageId(imageId, id);
          log := log + [SetProfileImage(imageId, id)];
          r := Success(());
    }

    /** `getCustomerProfileImage`: NotFound for a missing customer (found by lookup, not
        by an existence query), NotFound with its own message when no image was recorded,
        else the bytes stored under the customer's key. */
    method GetCustomerProfileImage(id: Long) returns (r: Outcome<seq<Byte>>)
      modifies this
      ensures var found := CustomerList.SelectCustomerById(dao.customers, id);
        match found
        case NullIdFault =>
          r == Failure(NullPointer) && log == old(log) + [SelectById(id)]
        case Ok(None) =>
          r == Failure(NotFound(CustomerNotFound(id))) && log == old(log) + [SelectById(id)]
        case Ok(Some(c)) =>
          match c.profileImageId
          case None =>
            r == Failure(NotFound(ProfileImageNotFound(id))) && log == old(log) + [SelectById(id)]
          case Some(imageId) =>
            var at := ObjectRef(bucket, ProfileImageKey(id, imageId));
            log == old(log) + [SelectById(id), Get(bucket, at.key)] &&
            r == if at in s3.objects then Success(s3.objects[at]) else Failure(ObjectMissing)
    {
      var found := CustomerList.SelectCustomerById(dao.customers, id);
      log := log + [SelectById(id)];
      match found
      case NullIdFault =>
        r := Failure(NullPointer);
      case Ok(None) =>
        r := Failure(NotFound(CustomerNotFound(id)));
      case Ok(Some(c)) =>
        match c.profileImageId
        case None =>
          r := Failure(NotFound(ProfileImageNotFound(id)));
        case Some(imageId) =>
          var key := ProfileImageKey(id, imageId);
          var bytes := s3.GetObject(bucket, key);
          log := log + [Get(bucket, key)];
          r := if bytes.Some? then Success(bytes.value) else Failure(ObjectMissing);
    }
  }

  /** Uploading an image for a stored customer and then fetching it returns exactly the
      uploaded bytes. */
  method UploadThenDownload(svc: CustomerService, id: Long, bytes: seq<Byte>, imageId: string)
    returns (got: Outcome<seq<Byte>>)
    requires CustomerList.ExistsCustomerById(svc.dao.customers, id) == CustomerList.Ok(true)
    modifies svc, svc.dao, svc.s3
    ensures got == Success(bytes)
  {
    CustomerList.ExistsIffSelectFinds(svc.dao.customers, id);
    ghost var before := svc.dao.customers;
    ghost var c := CustomerList.SelectCustomerById(before, id).value.value;
    CustomerList.SetProfileImageThenSelect(before, imageId, id, c);
    var up := svc.UploadCustomerProfileImage(id, Readable(bytes), imageId);
    got := svc.GetCustomerProfileImage(id);
  }
}
