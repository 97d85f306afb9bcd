/** The in-memory customer store `CustomerListDataAccessService`: a seeded list of
    customers and the nine `CustomerDao` operations over it.

    The queries are stream expressions over the list and are modelled as functions of
    the stored sequence; the mutators change the list in place and are methods of the
    class below.

    Every id comparison in the source is `c.getId().equals(id)`, which throws when the
    stored customer `c` has no id. Streams are lazy, so a search throws only if it
    reaches such a customer before it finds a match: `Checked` records that outcome. */
module CustomerList {
  import opened Wrappers
  import opened Customers

  /** The result of an operation that compares stored ids: its value, or the
      exception raised by comparing a stored customer whose id is null. */
  datatype Checked<T> = Ok(value: T) | NullIdFault

  /** Where a left-to-right search for an id stops. */
  datatype Stop = Match(index: nat) | NullIdAt(index: nat) | Exhausted

  /** The search passes every customer in `cs[lo..hi]`: each has an id, and none has `id`. */
  predicate PassesAll(cs: seq<Customer>, id: Long, lo: int, hi: int)
    requires 0 <= lo <= hi <= |cs|
  {
    forall j :: lo <= j < hi ==> cs[j].id.Some? && cs[j].id.value != id
  }

  /** `k` is the first position holding `id`, and the search reaches it without a fault. */
  predicate IsFirstMatch(cs: seq<Customer>, id: Long, k: int) {
    0 <= k < |cs| && cs[k].id == Some(id) && PassesAll(cs, id, 0, k)
  }

  /** `k` is a position without an id that the search reaches before any match. */
  predicate IsFaultPoint(cs: seq<Customer>, id: Long, k: int) {
    0 <= k < |cs| && cs[k].id.None? && PassesAll(cs, id, 0, k)
  }

  /** The search from position `i` on: `filter(c -> c.getId().equals(id))` as far as
      `findFirst` or `anyMatch` pulls it. */
  function SearchFrom(cs: seq<Customer>, id: Long, i: nat): (r: Stop)
    requires i <= |cs|
    ensures r.Match? ==> i <= r.index < |cs| && cs[r.index].id == Some(id)
    ensures r.NullIdAt? ==> i <= r.index < |cs| && cs[r.index].id.None?
    ensures r.Match? || r.NullIdAt? ==> PassesAll(cs, id, i, r.index)
    ensures r.Exhausted? ==> PassesAll(cs, id, i, |cs|)
    decreases |cs| - i
  {
    if i == |cs| then Exhausted
    else match cs[i].id
      case None => NullIdAt(i)
      case Some(x) => if x == id then Match(i) else SearchFrom(cs, id, i + 1)
  }

  /** The search over the whole list, characterised completely by where it stops. */
  function Search(cs: seq<Customer>, id: Long): (r: Stop)
    ensures r.Match? <==> exists k :: IsFirstMatch(cs, id, k)
    ensures r.Match? ==> IsFirstMatch(cs, id, r.index)
    ensures r.NullIdAt? <==> exists k :: IsFaultPoint(cs, id, k)
    ensures r.NullIdAt? ==> IsFaultPoint(cs, id, r.index)
    ensures r.Exhausted? <==> PassesAll(cs, id, 0, |cs|)
  {
    SearchStopsFirst(cs, id);
    var r := SearchFrom(cs, id, 0);
    assert r.Match? ==> IsFirstMatch(cs, id, r.index);
    assert r.NullIdAt? ==> IsFaultPoint(cs, id, r.index);
    r
  }

  /** A first match and a reachable missing id exclude each other and the search
      passing the whole list, so the search from the start stops at whichever exists. */
  lemma SearchStopsFirst(cs: seq<Customer>, id: Long)
    ensures (exists k :: IsFirstMatch(cs, id, k)) ==> SearchFrom(cs, id, 0).Match?
    ensures (exists k :: IsFaultPoint(cs, id, k)) ==> SearchFrom(cs, id, 0).NullIdAt?
  {
    var r := SearchFrom(cs, id, 0);
    forall k | IsFirstMatch(cs, id, k) || IsFaultPoint(cs, id, k)
      ensures if IsFirstMatch(cs, id, k) then r.Match? else r.NullIdAt?
    {
    }
  }

  /** `selectCustomerById`: the first customer with that id; empty exactly when the
      whole list has been passed. */
  function SelectCustomerById(cs: seq<Customer>, id: Long): (r: Checked<Option<Customer>>)
    ensures r == Ok(None) <==> PassesAll(cs, id, 0, |cs|)
    ensures r.Ok? && r.value.Some? <==> exists k :: IsFirstMatch(cs, id, k)
    ensures forall k :: IsFirstMatch(cs, id, k) ==> r == Ok(Some(cs[k]))
    ensures r.NullIdFault? <==> exists k :: IsFaultPoint(cs, id, k)
  {
    match Search(cs, id)
    case Match(k) => Ok(Some(cs[k]))
    case NullIdAt(_) => NullIdFault
    case Exhausted => Ok(None)
  }

  /** `existsCustomerById`: `anyMatch` of the same comparison. */
  function ExistsCustomerById(cs: seq<Customer>, id: Long): (r: Checked<bool>)
    ensures r == Ok(true) <==> exists k :: IsFirstMatch(cs, id, k)
    ensures r == Ok(false) <==> PassesAll(cs, id, 0, |cs|)
    ensures r.NullIdFault? <==> exists k :: IsFaultPoint(cs, id, k)
  {
    match Search(cs, id)
    case Match(_) => Ok(true)
    case NullIdAt(_) => NullIdFault
    case Exhausted => Ok(false)
  }

  /** The two id queries agree: a customer exists exactly when the lookup finds one,
      and they fault on the same lists. */
  lemma ExistsIffSelectFinds(cs: seq<Customer>, id: Long)
    ensures ExistsCustomerById(cs, id) == Ok(true) <==>
            SelectCustomerById(cs, id).Ok? && SelectCustomerById(cs, id).value.Some?
    ensures ExistsCustomerById(cs, id) == Ok(false) <==> SelectCustomerById(cs, id) == Ok(None)
    ensures ExistsCustomerById(cs, id).NullIdFault? <==> SelectCustomerById(cs, id).NullIdFault?
  {
  }

  /** Every stored customer has an id. */
  predicate AllIdsPresent(cs: seq<Customer>) {
    forall j :: 0 <= j < |cs| ==> cs[j].id.Some?
  }

  /** The lookups never fault on a list in which every customer has an id. */
  lemma NoFaultWithIds(cs: seq<Customer>, id: Long)
    requires AllIdsPresent(cs)
    ensures SelectCustomerById(cs, id).Ok?
    ensures ExistsCustomerById(cs, id).Ok?
  {
  }

  /** `existsCustomerWithEmail`: `anyMatch(c -> c.getEmail().equals(email))`. */
  function ExistsCustomerWithEmail(cs: seq<Customer>, email: string): (r: bool)
    ensures r <==> exists j :: 0 <= j < |cs| && cs[j].email == email
  {
    if cs == [] then false
    else if cs[0].email == email then true
    else
      var rest := ExistsCustomerWithEmail(cs[1..], email);
      assert forall j :: 1 <= j < |cs| ==> cs[j] == cs[1..][j - 1];
      rest
  }

  /** `selectUserByEmail`: the first customer whose user name equals `email`.
      The user name of a customer is not part of this model; `usernameOf` stands for it. */
  function SelectUserByEmail(cs: seq<Customer>, email: string, usernameOf: Customer -> string): (r: Option<Customer>)
    ensures r.None? <==> forall j :: 0 <= j < |cs| ==> usernameOf(cs[j]) != email
    ensures r.Some? ==> exists k :: 0 <= k < |cs| && r.value == cs[k] && usernameOf(cs[k]) == email &&
                          forall j :: 0 <= j < k ==> usernameOf(cs[j]) != email
  {
    if cs == [] then None
    else if usernameOf(cs[0]) == email then Some(cs[0])
    else
      var rest := SelectUserByEmail(cs[1..], email, usernameOf);
      assert forall j :: 1 <= j < |cs| ==> cs[j] == cs[1..][j - 1];
      rest
  }

  /** The list without its element at `k`, the others kept in order. */
  function RemoveAt(s: seq<Customer>, k: nat): (r: seq<Customer>)
    requires k < |s|
    ensures |r| == |s| - 1
    ensures forall j :: 0 <= j < k ==> r[j] == s[j]
    ensures forall j :: k <= j < |r| ==> r[j] == s[j + 1]
    ensures multiset(r) + multiset{s[k]} == multiset(s)
  {
    assert s == s[..k] + [s[k]] + s[k + 1..];
    s[..k] + s[k + 1..]
  }

  /** `deleteCustomerById`: remove the first customer with that id (the `remove` of the
      element `findFirst` returned). Nothing is removed when no customer matches. */
  function DeleteById(cs: seq<Customer>, id: Long): (r: Checked<seq<Customer>>)
    ensures r.NullIdFault? <==> SelectCustomerById(cs, id).NullIdFault?
    ensures SelectCustomerById(cs, id) == Ok(None) ==> r == Ok(cs)
    ensures forall k :: IsFirstMatch(cs, id, k) ==> r == Ok(RemoveAt(cs, k))
  {
    match Search(cs, id)
    case Match(k) => Ok(RemoveAt(cs, k))
    case NullIdAt(_) => NullIdFault
    case Exhausted => Ok(cs)
  }

  /** `updateCustomerProfileImageId`: set the image id of the first customer with that id;
      every other field and every other customer stay as they were. */
  function SetProfileImageById(cs: seq<Customer>, imageId: string, id: Long): (r: Checked<seq<Customer>>)
    ensures r.NullIdFault? <==> SelectCustomerById(cs, id).NullIdFault?
    ensures SelectCustomerById(cs, id) == Ok(None) ==> r == Ok(cs)
    ensures forall k :: IsFirstMatch(cs, id, k) ==>
              r.Ok? && |r.value| == |cs| &&
              r.value[k] == cs[k].(profileImageId := Some(imageId)) &&
              forall j :: 0 <= j < |cs| && j != k ==> r.value[j] == cs[j]
  {
    match Search(cs, id)
    case Match(k) => Ok(cs[k := cs[k].(profileImageId := Some(imageId))])
    case NullIdAt(_) => NullIdFault
    case Exhausted => Ok(cs)
  }

  /** Appending a customer (as `insertCustomer` and `updateCustomer` both do) leaves
      every successful id lookup as it was: the earlier match still comes first. */
  lemma {:induction false} AppendKeepsLookup(cs: seq<Customer>, c: Customer, id: Long, found: Customer)
    requires SelectCustomerById(cs, id) == Ok(Some(found))
    ensures SelectCustomerById(cs + [c], id) == Ok(Some(found))
  {
    var k :| IsFirstMatch(cs, id, k);
    assert cs[k] == found;
    assert forall j :: 0 <= j < |cs| ==> (cs + [c])[j] == cs[j];
    assert IsFirstMatch(cs + [c], id, k);
  }

  /** After an append, the appended customer's email exists. */
  lemma {:induction false} AppendedEmailExists(cs: seq<Customer>, c: Customer)
    ensures ExistsCustomerWithEmail(cs + [c], c.email)
  {
    assert (cs + [c])[|cs|] == c;
  }

  /** Setting the image id of the customer that a lookup finds makes the same lookup
      return that customer with the new image id. */
  lemma {:induction false} SetProfileImageThenSelect(cs: seq<Customer>, imageId: string, id: Long, found: Customer)
    requires SelectCustomerById(cs, id) == Ok(Some(found))
    ensures SetProfileImageById(cs, imageId, id).Ok?
    ensures SelectCustomerById(SetProfileImageById(cs, imageId, id).value, id) ==
            Ok(Some(found.(profileImageId := Some(imageId))))
  {
    var k :| IsFirstMatch(cs, id, k);
    var after := SetProfileImageById(cs, imageId, id).value;
    assert forall j :: 0 <= j < k ==> after[j] == cs[j];
    assert IsFirstMatch(after, id, k);
  }

  /** Alex and Jamila, the two customers the store is seeded with. */
  const Alex := Customer(Some(1), "Alex", "alex@gmail.com", "password", 21, Male, None)
  const Jamila := Customer(Some(2), "Jamila", "jamila@gmail.com", "password", 19, Male, None)

  /** The seeded list answers lookups of its two ids with its two customers. */
  lemma SeedLookups()
    ensures SelectCustomerById([Alex, Jamila], 1) == Ok(Some(Alex))
    ensures SelectCustomerById([Alex, Jamila], 2) == Ok(Some(Jamila))
    ensures forall id: Long :: id != 1 && id != 2 ==> SelectCustomerById([Alex, Jamila], id) == Ok(None)
  {
    assert IsFirstMatch([Alex, Jamila], 1, 0);
    assert IsFirstMatch([Alex, Jamila], 2, 1);
  }

  /** The in-memory store. The source keeps the list in a static field, seeded once; an
      instance of this class stands for that one list. */
  class CustomerListDataAccessService {
    var customers: seq<Customer>

    /** The static initialiser: Alex, then Jamila. */
    constructor ()
      ensures customers == [Alex, Jamila]
    {
      customers := [Alex, Jamila];
    }

    /** `selectAllCustomers`: the stored list itself, in stored order. */
    method SelectAllCustomers() returns (r: seq<Customer>)
      ensures r == customers
    {
      r := customers;
    }

    /** `insertCustomer`: append, with no check of id or email. */
    method InsertCustomer(c: Customer)
      modifies this
      ensures customers == old(customers) + [c]
    {
      customers := customers + [c];
    }

    /** `updateCustomer`: appends as well; no stored customer is replaced. */
    method UpdateCustomer(c: Customer)
      modifies this
      ensures customers == old(customers) + [c]
      ensures |customers| == |old(customers)| + 1
      ensures customers[..|old(customers)|] == old(customers)
    {
      customers := customers + [c];
    }

    /** `deleteCustomerById`: remove the first match; the list is left as it was when
        the search faults or finds nothing. */
    method DeleteCustomerById(id: Long) returns (r: Checked<()>)
      modifies this
      ensures r.NullIdFault? <==> DeleteById(old(customers), id).NullIdFault?
      ensures customers == if r.Ok? then DeleteById(old(customers), id).value else old(customers)
    {
      var d := DeleteById(customers, id);
      match d
      case Ok(rest) =>
        customers := rest;
        r := Ok(());
      case NullIdFault =>
        r := NullIdFault;
    }

    /** `updateCustomerProfileImageId`: set the image id of the first match. */
    method UpdateCustomerProfileImageId(imageId: string, id: Long) returns (r: Checked<()>)
      modifies this
      ensures r.NullIdFault? <==> SetProfileImageById(old(customers), imageId, id).NullIdFault?
      ensures customers == if r.Ok? then SetProfileImageById(old(customers), imageId, id).value else old(customers)
    {
      var u := SetProfileImageById(customers, imageId, id);
      match u
      case Ok(updated) =>
        customers := updated;
        r := Ok(());
      case NullIdFault =>
        r := NullIdFault;
    }
  }
}
