/**
 * The customer and address handlers of server.js (lines 55-150), each a
 * single SQL statement against the two tables.
 *
 * Each writing statement is a function from the database before to a
 * `Step`: the handler's answer and the database after. The class `Store`
 * keeps the two tables as fields and its methods change them in place as the
 * statements do; the reading statements are functions of `Store.State()`.
 */
module CustomerStore {
  import opened Records
  import opened Search

  /** The body of `POST /customers`: each field may be missing. */
  datatype CustomerInput = CustomerInput(
    firstName: Option<string>,
    lastName: Option<string>,
    phoneNumber: Option<string>,
    city: Option<string>,
    state: Option<string>,
    pinCode: Option<string>)

  /** No column of the INSERT would be NULL. */
  predicate Complete(input: CustomerInput) {
    && input.firstName.Some? && input.lastName.Some? && input.phoneNumber.Some?
    && input.city.Some? && input.state.Some? && input.pinCode.Some?
  }

  function ToCustomer(input: CustomerInput): Customer
    requires Complete(input)
  {
    Customer(input.firstName.value, input.lastName.value, input.phoneNumber.value,
             input.city.value, input.state.value, input.pinCode.value)
  }

  /** What a statement answers, and the database it leaves behind. */
  datatype Step<T> = Step(response: Response<T>, db: Database)

  // ---------------------------------------------------------------------
  // Writing statements
  // ---------------------------------------------------------------------

  /**
   * `INSERT INTO Customers (...) VALUES ($1, ..., $6) RETURNING *`
   * (server.js:58-63). `newId` is the key `gen_random_uuid()` produces.
   */
  function CreateEffect(db: Database, newId: Uuid, input: CustomerInput): (s: Step<Row<Customer>>)
    ensures s.response.Ok? <==> Complete(input) && newId !in db.customers
    ensures s.response.Failed? <==> !s.response.Ok?
    ensures !Complete(input) ==> s.response == Failed(NotNullViolation)
    ensures s.response.Failed? ==> s.db == db
    ensures s.response.Ok? ==>
      && s.response.value == Row(newId, ToCustomer(input))
      && s.db.customers.Keys == db.customers.Keys + {newId}
      && s.db.customers[newId] == ToCustomer(input)
      && (forall id :: id in db.customers ==> s.db.customers[id] == db.customers[id])
      && s.db.addresses == db.addresses
    ensures ForeignKeyHolds(db) ==> ForeignKeyHolds(s.db)
  {
    if !Complete(input) then Step(Failed(NotNullViolation), db)
    else if newId in db.customers then Step(Failed(UniqueViolation), db)
    else
      var c := ToCustomer(input);
      Step(Ok(Row(newId, c)), Database(db.customers[newId := c], db.addresses))
  }

  /**
   * `UPDATE Customers SET FirstName = $1, LastName = $2, PhoneNumber = $3
   * WHERE CustomerID = $4 RETURNING *` (server.js:89-93). No matching row
   * answers `Ok(None)`: the handler sends `rows[0]`, which is undefined.
   */
  function UpdateCustomerEffect(db: Database, id: Uuid, firstName: Option<string>, lastName: Option<string>,
                                phoneNumber: Option<string>): (s: Step<Option<Row<Customer>>>)
    ensures s.response == Ok(None) <==> id !in db.customers
    ensures s.response.Failed? <==> id in db.customers && (firstName.None? || lastName.None? || phoneNumber.None?)
    ensures !s.response.NotFound?
    ensures s.response.Failed? ==> s.response.error == NotNullViolation
    ensures !(s.response.Ok? && s.response.value.Some?) ==> s.db == db
    ensures s.response.Ok? && s.response.value.Some? ==>
      var old_ := db.customers[id];
      var new_ := s.response.value.value.data;
      && s.response.value.value.id == id
      && new_ == Customer(firstName.value, lastName.value, phoneNumber.value, old_.city, old_.state, old_.pinCode)
      && s.db == Database(db.customers[id := new_], db.addresses)
    ensures ForeignKeyHolds(db) ==> ForeignKeyHolds(s.db)
  {
    if id !in db.customers then Step(Ok(None), db)
    else if firstName.None? || lastName.None? || phoneNumber.None? then Step(Failed(NotNullViolation), db)
    else
      var c := db.customers[id].(firstName := firstName.value, lastName := lastName.value,
                                 phoneNumber := phoneNumber.value);
      Step(Ok(Some(Row(id, c))), Database(db.customers[id := c], db.addresses))
  }

  /**
   * `DELETE FROM Customers WHERE CustomerID = $1` (server.js:103-106). The
   * foreign key of server.js:37 has no ON DELETE action, so the store refuses
   * to delete a customer row that an address still refers to. It checks only
   * rows the statement actually deletes.
   */
  function DeleteCustomerEffect(db: Database, id: Uuid): (s: Step<()>)
    ensures s.response.Failed? <==> id in db.customers && Referenced(db, id)
    ensures s.response.Failed? ==> s.response.error == ForeignKeyViolation && s.db == db
    ensures s.response.Ok? <==> !(id in db.customers && Referenced(db, id))
    ensures s.response.Ok? ==> s.db.customers == db.customers - {id} && s.db.addresses == db.addresses
    ensures ForeignKeyHolds(db) ==> ForeignKeyHolds(s.db)
  {
    if id in db.customers && Referenced(db, id) then Step(Failed(ForeignKeyViolation), db)
    else Step(Ok(()), Database(db.customers - {id}, db.addresses))
  }

  /**
   * `UPDATE Addresses SET AddressLine = $1, City = $2, State = $3,
   * PinCode = $4 WHERE AddressID = $5 RETURNING *` (server.js:126-130).
   */
  function UpdateAddressEffect(db: Database, id: Uuid, addressLine: Option<string>, city: Option<string>,
                               state: Option<string>, pinCode: Option<string>): (s: Step<Option<Row<Address>>>)
    ensures s.response == Ok(None) <==> id !in db.addresses
    ensures s.response.Failed? <==>
      id in db.addresses && (addressLine.None? || city.None? || state.None? || pinCode.None?)
    ensures !s.response.NotFound?
    ensures s.response.Failed? ==> s.response.error == NotNullViolation
    ensures !(s.response.Ok? && s.response.value.Some?) ==> s.db == db
    ensures s.response.Ok? && s.response.value.Some? ==>
      var new_ := s.response.value.value.data;
      && s.response.value.value.id == id
      && new_ == Address(db.addresses[id].customerId, addressLine.value, city.value, state.value, pinCode.value)
      && s.db == Database(db.customers, db.addresses[id := new_])
    ensures ForeignKeyHolds(db) ==> ForeignKeyHolds(s.db)
  {
    if id !in db.addresses then Step(Ok(None), db)
    else if addressLine.None? || city.None? || state.None? || pinCode.None? then Step(Failed(NotNullViolation), db)
    else
      var a := db.addresses[id].(addressLine := addressLine.value, city := city.value, state := state.value,
                                 pinCode := pinCode.value);
      Step(Ok(Some(Row(id, a))), Database(db.customers, db.addresses[id := a]))
  }

  // ---------------------------------------------------------------------
  // Reading statements
  // ---------------------------------------------------------------------

  /** `SELECT * FROM Customers WHERE CustomerID = $1` (server.js:73-78): the row, or 404. */
  function ReadCustomer(db: Database, id: Uuid): (r: Response<Row<Customer>>)
    ensures r.NotFound? <==> id !in db.customers
    ensures r.Ok? ==> r.value.id == id && r.value.data == db.customers[id]
    ensures !r.Failed?
  {
    if id in db.customers then Ok(Row(id, db.customers[id])) else NotFound
  }

  /** `SELECT * FROM Addresses WHERE CustomerID = $1` (server.js:114-115). */
  function ListAddresses(db: Database, customerId: Uuid): (r: map<Uuid, Address>)
    ensures r.Keys <= db.addresses.Keys
    ensures forall aid :: aid in db.addresses ==> (aid in r <==> db.addresses[aid].customerId == Some(customerId))
    ensures forall aid :: aid in r ==> r[aid] == db.addresses[aid]
  {
    map aid | aid in db.addresses && db.addresses[aid].customerId == Some(customerId) :: db.addresses[aid]
  }

  /** A row of `Customers c LEFT JOIN Addresses a ON c.CustomerID = a.CustomerID`. */
  datatype JoinedRow = JoinedRow(customerId: Uuid, customer: Customer, addressId: Option<Uuid>)

  /**
   * The left join: one row per matching (customer, address) pair, and one
   * row with a NULL AddressID for each customer no address refers to.
   */
  function LeftJoin(db: Database): (j: set<JoinedRow>)
    ensures forall r :: r in j ==>
      && r.customerId in db.customers
      && r.customer == db.customers[r.customerId]
      && (r.addressId.Some? ==>
            r.addressId.value in db.addresses && db.addresses[r.addressId.value].customerId == Some(r.customerId))
      && (r.addressId.None? ==> !Referenced(db, r.customerId))
    ensures forall cid, aid :: cid in db.customers && aid in db.addresses && db.addresses[aid].customerId == Some(cid) ==>
      JoinedRow(cid, db.customers[cid], Some(aid)) in j
    ensures forall cid :: cid in db.customers && !Referenced(db, cid) ==> JoinedRow(cid, db.customers[cid], None) in j
  {
    (set cid, aid | cid in db.customers && aid in db.addresses && db.addresses[aid].customerId == Some(cid)
       :: JoinedRow(cid, db.customers[cid], Some(aid)))
    + (set cid | cid in db.customers && !Referenced(db, cid) :: JoinedRow(cid, db.customers[cid], None))
  }

  /**
   * `COUNT(a.AddressID)` over the group of customer `cid`: the non-NULL
   * AddressIDs among its joined rows. AddressID is the key of Addresses, so
   * counting the distinct ids counts the rows.
   */
  function CountAddressIds(rows: set<JoinedRow>, cid: Uuid): (n: nat)
    ensures n == 0 <==> forall r :: r in rows && r.customerId == cid ==> r.addressId.None?
  {
    var ids := set r | r in rows && r.customerId == cid && r.addressId.Some? :: r.addressId.value;
    assert (exists r :: r in rows && r.customerId == cid && r.addressId.Some?) ==> ids != {} by {
      if r :| r in rows && r.customerId == cid && r.addressId.Some? {
        assert r.addressId.value in ids;
      }
    }
    |ids|
  }

  /** A row of the one-address query: `c.CustomerID, c.FirstName, c.LastName`. */
  datatype Summary = Summary(customerId: Uuid, firstName: string, lastName: string)

  /**
   * `GROUP BY c.CustomerID, c.FirstName, c.LastName HAVING COUNT(a.AddressID) = 1`
   * over the left join (server.js:139-145). CustomerID is the key, so each
   * group is the set of joined rows of one customer.
   */
  function OneAddressCustomers(db: Database): (result: set<Summary>)
    ensures forall s :: s in result ==>
      && s.customerId in db.customers
      && s.firstName == db.customers[s.customerId].firstName
      && s.lastName == db.customers[s.customerId].lastName
      && Referenced(db, s.customerId)
  {
    var rows := LeftJoin(db);
    set r | r in rows && CountAddressIds(rows, r.customerId) == 1
      :: Summary(r.customerId, r.customer.firstName, r.customer.lastName)
  }

  // ---------------------------------------------------------------------
  // Lemmas
  // ---------------------------------------------------------------------

  /** A customer created by the INSERT reads back as the row the INSERT returned. */
  lemma CreateThenRead(db: Database, newId: Uuid, input: CustomerInput)
    requires CreateEffect(db, newId, input).response.Ok?
    ensures var s := CreateEffect(db, newId, input);
      ReadCustomer(s.db, newId) == Ok(s.response.value)
  {
  }

  /** Creating a customer changes what no other read returns. */
  lemma CreateKeepsOtherReads(db: Database, newId: Uuid, input: CustomerInput, id: Uuid, cid: Uuid)
    requires id != newId
    ensures var s := CreateEffect(db, newId, input);
      && ReadCustomer(s.db, id) == ReadCustomer(db, id)
      && ListAddresses(s.db, cid) == ListAddresses(db, cid)
  {
  }

  /** A key that was never inserted reads as 404. */
  lemma ReadMissingIsNotFound(db: Database, id: Uuid)
    requires id !in db.customers
    ensures ReadCustomer(db, id) == NotFound
  {
  }

  /**
   * The customer update changes FirstName, LastName and PhoneNumber of that
   * one row: its key, City, State and PinCode, every other customer and every
   * address read as before.
   */
  lemma UpdateCustomerScope(db: Database, id: Uuid, firstName: Option<string>, lastName: Option<string>,
                            phoneNumber: Option<string>, other: Uuid, cid: Uuid)
    ensures var s := UpdateCustomerEffect(db, id, firstName, lastName, phoneNumber);
      && (other != id ==> ReadCustomer(s.db, other) == ReadCustomer(db, other))
      && s.db.customers.Keys == db.customers.Keys
      && (id in db.customers ==>
            && s.db.customers[id].city == db.customers[id].city
            && s.db.customers[id].state == db.customers[id].state
            && s.db.customers[id].pinCode == db.customers[id].pinCode)
      && ListAddresses(s.db, cid) == ListAddresses(db, cid)
  {
  }

  /** Deleting a customer that an address refers to fails and changes nothing. */
  lemma DeleteReferencedFails(db: Database, id: Uuid, aid: Uuid)
    requires id in db.customers
    requires aid in db.addresses && db.addresses[aid].customerId == Some(id)
    ensures DeleteCustomerEffect(db, id) == Step(Failed(ForeignKeyViolation), db)
  {
  }

  /** A successful delete removes exactly that customer: it then reads as 404 and every other read is unchanged. */
  lemma DeleteThenRead(db: Database, id: Uuid, other: Uuid)
    requires DeleteCustomerEffect(db, id).response.Ok?
    ensures var s := DeleteCustomerEffect(db, id);
      && ReadCustomer(s.db, id) == NotFound
      && (other != id ==> ReadCustomer(s.db, other) == ReadCustomer(db, other))
  {
  }

  /** Deleting an unknown key succeeds and changes nothing. */
  lemma DeleteMissingIsNoOp(db: Database, id: Uuid)
    requires id !in db.customers
    ensures DeleteCustomerEffect(db, id) == Step(Ok(()), db)
  {
    assert db.customers - {id} == db.customers;
  }

  /** While the foreign key holds, a key not in Customers has no addresses. */
  lemma ListAddressesOfMissing(db: Database, customerId: Uuid)
    requires ForeignKeyHolds(db)
    requires customerId !in db.customers
    ensures ListAddresses(db, customerId) == map[]
  {
  }

  /** A customer is referenced exactly when its address list is not empty. */
  lemma ReferencedIffListed(db: Database, customerId: Uuid)
    ensures Referenced(db, customerId) <==> ListAddresses(db, customerId) != map[]
  {
    if Referenced(db, customerId) {
      var aid :| aid in db.addresses && db.addresses[aid].customerId == Some(customerId);
      assert aid in ListAddresses(db, customerId);
    }
  }

  /** The AddressIDs counted for a customer's group are the keys of its address list. */
  lemma GroupIdsAreListed(db: Database, cid: Uuid)
    requires cid in db.customers
    ensures (set r | r in LeftJoin(db) && r.customerId == cid && r.addressId.Some? :: r.addressId.value)
            == ListAddresses(db, cid).Keys
  {
    var rows := LeftJoin(db);
    var ids := set r | r in rows && r.customerId == cid && r.addressId.Some? :: r.addressId.value;
    var listed := ListAddresses(db, cid);
    forall aid | aid in listed
      ensures aid in ids
    {
      var r := JoinedRow(cid, db.customers[cid], Some(aid));
      assert r in rows;
    }
    forall aid | aid in ids
      ensures aid in listed
    {
      var r :| r in rows && r.customerId == cid && r.addressId.Some? && r.addressId.value == aid;
    }
  }

  /**
   * The one-address query returns (CustomerID, FirstName, LastName) of exactly
   * the customers that exactly one address refers to: a customer with no
   * address (its only joined row has a NULL AddressID) or with two or more
   * is left out.
   */
  lemma OneAddressExactly(db: Database, s: Summary)
    ensures s in OneAddressCustomers(db) <==>
      && s.customerId in db.customers
      && s.firstName == db.customers[s.customerId].firstName
      && s.lastName == db.customers[s.customerId].lastName
      && |ListAddresses(db, s.customerId)| == 1
  {
    var rows := LeftJoin(db);
    var cid := s.customerId;
    if s in OneAddressCustomers(db) {
      var r :| r in rows && CountAddressIds(rows, r.customerId) == 1
        && s == Summary(r.customerId, r.customer.firstName, r.customer.lastName);
      assert r.customerId in db.customers && r.customer == db.customers[r.customerId];
      GroupIdsAreListed(db, cid);
      assert |ListAddresses(db, cid).Keys| == 1;
    }
    if && cid in db.customers
       && s.firstName == db.customers[cid].firstName
       && s.lastName == db.customers[cid].lastName
       && |ListAddresses(db, cid)| == 1
    {
      var listed := ListAddresses(db, cid);
      var aid :| aid in listed;
      var r := JoinedRow(cid, db.customers[cid], Some(aid));
      assert r in rows;
      GroupIdsAreListed(db, cid);
      assert |listed.Keys| == 1;
      assert CountAddressIds(rows, cid) == 1;
    }
  }

  /** Each customer appears at most once in the one-address result. */
  lemma OneAddressUnique(db: Database, s1: Summary, s2: Summary)
    requires s1 in OneAddressCustomers(db) && s2 in OneAddressCustomers(db)
    requires s1.customerId == s2.customerId
    ensures s1 == s2
  {
    OneAddressExactly(db, s1);
    OneAddressExactly(db, s2);
  }

  /**
   * Updating an address keeps its CustomerID, so the one-address result is
   * the same before and after.
   */
  lemma UpdateAddressKeepsOneAddress(db: Database, id: Uuid, addressLine: Option<string>, city: Option<string>,
                                     state: Option<string>, pinCode: Option<string>)
    ensures
      var s := UpdateAddressEffect(db, id, addressLine, city, state, pinCode);
      OneAddressCustomers(s.db) == OneAddressCustomers(db)
  {
    var db' := UpdateAddressEffect(db, id, addressLine, city, state, pinCode).db;
    forall cid | cid in db.customers
      ensures ListAddresses(db', cid).Keys == ListAddresses(db, cid).Keys
    {
    }
    forall s: Summary
      ensures s in OneAddressCustomers(db') <==> s in OneAddressCustomers(db)
    {
      OneAddressExactly(db, s);
      OneAddressExactly(db', s);
      if s.customerId in db.customers {
        assert |ListAddresses(db', s.customerId)| == |ListAddresses(db', s.customerId).Keys|;
      }
    }
  }

  /** A sample request body. */
  const AnnLee: CustomerInput :=
    CustomerInput(Some("Ann"), Some("Lee"), Some("555-0100"), Some("Reno"), Some("NV"), Some("89501"))

  /** A customer created in Nevada is found by a search for State NV and not by one for CA. */
  lemma CreateThenSearchByState(db: Database, newId: Uuid)
    requires newId !in db.customers
    ensures var s := CreateEffect(db, newId, AnnLee);
      && s.response.Ok?
      && newId in SearchCustomers(s.db.customers, None, Some("NV"), None)
      && newId !in SearchCustomers(s.db.customers, None, Some("CA"), None)
  {
    var s := CreateEffect(db, newId, AnnLee);
    assert s.db.customers[newId].state == "NV";
    assert Matches(s.db.customers[newId], None, Some("NV"), None);
  }

  // ---------------------------------------------------------------------
  // The store
  // ---------------------------------------------------------------------

  /** The two tables, changed in place by the writing handlers. */
  class Store {
    var customers: map<Uuid, Customer>
    var addresses: map<Uuid, Address>

    function State(): Database
      reads this
    {
      Database(customers, addresses)
    }

    /** The schema's constraints: NOT NULL is in the row types, the foreign key is here. */
    ghost predicate Valid()
      reads this
    {
      ForeignKeyHolds(State())
    }

    /** The store as the service finds it, with tables already created and filled. */
    constructor (db: Database)
      requires ForeignKeyHolds(db)
      ensures Valid() && State() == db
    {
      customers := db.customers;
      addresses := db.addresses;
    }

    /** `POST /customers` (server.js:55-67). */
    method CreateCustomer(newId: Uuid, input: CustomerInput) returns (r: Response<Row<Customer>>)
      requires Valid()
      modifies this
      ensures Valid()
      ensures r == CreateEffect(old(State()), newId, input).response
      ensures State() == CreateEffect(old(State()), newId, input).db
    {
      if !Complete(input) {
        return Failed(NotNullViolation);
      }
      if newId in customers {
        return Failed(UniqueViolation);
      }
      var c := ToCustomer(input);
      customers := customers[newId := c];
      r := Ok(Row(newId, c));
    }

    /** `PUT /customers/:id` (server.js:85-97). */
    method UpdateCustomer(id: Uuid, firstName: Option<string>, lastName: Option<string>, phoneNumber: Option<string>)
      returns (r: Response<Option<Row<Customer>>>)
      requires Valid()
      modifies this
      ensures Valid()
      ensures r == UpdateCustomerEffect(old(State()), id, firstName, lastName, phoneNumber).response
      ensures State() == UpdateCustomerEffect(old(State()), id, firstName, lastName, phoneNumber).db
    {
      if id !in customers {
        return Ok(None);
      }
      if firstName.None? || lastName.None? || phoneNumber.None? {
        return Failed(NotNullViolation);
      }
      var c := customers[id].(firstName := firstName.value, lastName := lastName.value,
                              phoneNumber := phoneNumber.value);
      customers := customers[id := c];
      r := Ok(Some(Row(id, c)));
    }

    /** `DELETE /customers/:id` (server.js:100-108). */
    method DeleteCustomer(id: Uuid) returns (r: Response<()>)
      requires Valid()
      modifies this
      ensures Valid()
      ensures r == DeleteCustomerEffect(old(State()), id).response
      ensures State() == DeleteCustomerEffect(old(State()), id).db
    {
      if id in customers && Referenced(State(), id) {
        return Failed(ForeignKeyViolation);
      }
      customers := customers - {id};
      r := Ok(());
    }

    /** `PUT /addresses/:id` (server.js:122-134). */
    method UpdateAddress(id: Uuid, addressLine: Option<string>, city: Option<string>, state: Option<string>,
                         pinCode: Option<string>) returns (r: Response<Option<Row<Address>>>)
      requires Valid()
      modifies this
      ensures Valid()
      ensures r == UpdateAddressEffect(old(State()), id, addressLine, city, state, pinCode).response
      ensures State() == UpdateAddressEffect(old(State()), id, addressLine, city, state, pinCode).db
    {
      if id !in addresses {
        return Ok(None);
      }
      if addressLine.None? || city.None? || state.None? || pinCode.None? {
        return Failed(NotNullViolation);
      }
      var a := addresses[id].(addressLine := addressLine.value, city := city.value, state := state.value,
                              pinCode := pinCode.value);
      addresses := addresses[id := a];
      r := Ok(Some(Row(id, a)));
    }

    /**
     * `GET /customers/search` (server.js:153-177): builds the statement and
     * runs it against the Customers table.
     */
    method SearchCustomersByFields(city: Option<string>, state: Option<string>, pinCode: Option<string>)
      returns (rows: map<Uuid, Customer>)
      ensures rows == SearchCustomers(customers, city, state, pinCode)
    {
      var query, params := BuildSearch(city, state, pinCode);
      SearchExecutes(customers, query, params, city, state, pinCode);
      var result := Execute(customers, query, params);
      rows := result.value;
    }
  }
}
