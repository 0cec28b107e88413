/**
 * The two tables the service creates at startup (server.js:20-43), as values.
 *
 * NOT NULL columns are `string`; a column without NOT NULL is an `Option`.
 * Request values arrive as `Option<string>`: `None` stands for a field the
 * client left out (JavaScript `undefined`, which the driver binds as NULL).
 */
module Records {

  datatype Option<+T> = None | Some(value: T)

  /** A UUID key value; the store only ever compares keys for equality. */
  type Uuid = string

  /** A Customers row without its key: six NOT NULL text columns. */
  datatype Customer = Customer(
    firstName: string,
    lastName: string,
    phoneNumber: string,
    city: string,
    state: string,
    pinCode: string)

  /** An Addresses row without its key. CustomerID has no NOT NULL constraint. */
  datatype Address = Address(
    customerId: Option<Uuid>,
    addressLine: string,
    city: string,
    state: string,
    pinCode: string)

  /** A row as a statement returns it: the key together with the other columns. */
  datatype Row<T> = Row(id: Uuid, data: T)

  /** Both tables, each keyed by its UUID primary key. */
  datatype Database = Database(customers: map<Uuid, Customer>, addresses: map<Uuid, Address>)

  /** `CustomerID UUID REFERENCES Customers(CustomerID)`: a non-null reference names a customer. */
  predicate ForeignKeyHolds(db: Database) {
    forall aid :: aid in db.addresses && db.addresses[aid].customerId.Some? ==>
      db.addresses[aid].customerId.value in db.customers
  }

  /** Some address row refers to customer `id`. */
  predicate Referenced(db: Database, id: Uuid) {
    exists aid :: aid in db.addresses && db.addresses[aid].customerId == Some(id)
  }

  /** The constraint a statement breaks when the store rejects it. */
  datatype DbError = NotNullViolation | UniqueViolation | ForeignKeyViolation

  /**
   * What a handler answers: a value (status 200 or 201), `NotFound` (404),
   * or a store error (500).
   */
  datatype Response<T> = Ok(value: T) | NotFound | Failed(error: DbError)
}
