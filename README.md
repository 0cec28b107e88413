# Customer records service: a Dafny model

The service keeps customers and their addresses in two relational tables,
`Customers` and `Addresses`, and exposes them over HTTP (`server.js`). Each
handler runs one SQL statement. This project models what those statements do
to the two tables and proves it:

- `records.dfy` (module `Records`): the two tables as values. A Customers row
  has six NOT NULL text columns and a UUID key. An Addresses row has four
  NOT NULL text columns, a UUID key and a nullable `CustomerID` that
  references Customers (server.js:20-43). NOT NULL is carried by the row
  types. The foreign key is the predicate `ForeignKeyHolds`. A handler's
  answer is a `Response`: `Ok` for status 200/201, `NotFound` for 404, and
  `Failed` with the constraint the store enforced for 500.
- `search.dfy` (module `Search`): the search handler (server.js:153-177).
  `BuildSearch` builds the statement the way the handler does. It starts from
  `SELECT * FROM Customers WHERE 1=1` and an empty parameter list. For each
  truthy field among City, State and PinCode, in that order, it pushes the
  value and appends ` AND <Field> = $n`, where `n` is the new length of the
  list. The statement is a sequence of fragments: fixed text, or a
  placeholder number. `Execute` gives what the store does with such a
  statement: `$n` reads the n-th parameter and the rows must meet every
  condition. `SearchCustomers` is what the search means: the customers whose
  City, State and PinCode equal every supplied value.
- `store.dfy` (module `CustomerStore`): each writing statement is a function
  from the database before to the answer and the database after
  (`CreateEffect`, `UpdateCustomerEffect`, `DeleteCustomerEffect`,
  `UpdateAddressEffect`). The reading statements are functions of the
  database (`ReadCustomer`, `ListAddresses`, `OneAddressCustomers`).
  `OneAddressCustomers` is written as the query is: a left join, grouping by
  customer, then `COUNT(a.AddressID) = 1`. The class `Store` holds the two
  tables as map fields. Its methods change them in place, and each method's
  contract ties the new state and the answer to the matching effect function.

Request values are `Option<string>`. `None` is a field the client left out.
JavaScript passes it as `undefined`, and the driver binds that as NULL. For
the search, a field counts as supplied when it is truthy: present and not
`""`.

Some behaviours of the handlers are easy to misread; the model follows the code:

- An update of a key that is not in the table is not an error. The statement
  touches no row and the handler answers `rows[0]`, which is undefined. This
  is `Ok(None)`, with nothing changed.
- A delete of a key that is not in the table still answers "Customer deleted
  successfully". This is `Ok(())`, with nothing changed.
- The code does no validation of its own. A missing field fails only where
  the store's NOT NULL constraint fails: on an insert, or on an update that
  matches a row. An update that matches no row cannot violate it.
- `Addresses.CustomerID` has no NOT NULL in the table definition, so an
  address may refer to no customer. Such an address is in no customer's list
  and in no join group.
- Several statements in server.js are written without the backticks of a
  template literal (lines 73, 90, 103, 114, 127, 156). The model uses the SQL
  text they evidently mean.

## Model

| member | source | states |
|---|---|---|
| `Search.BuildSearch` | server.js:156-170 | The built statement is aligned with the truthy fields: base text first, then the k-th condition's column text and placeholder `$k`, with `params[k-1]` holding that field's value. Every text fragment is one of four fixed strings, so no request value reaches the SQL text. With no truthy field the statement is the base text and the parameter list is empty. |
| `Search.Filters` | server.js:159-170 | Each condition the three `if`s add is on a truthy field and carries that field's value; there are at most three. |
| `Search.FiltersExactly` | server.js:159-170 | The conditions added are exactly the truthy fields, each with its own value, each once, in the order City, State, PinCode. |
| `Search.AlignedExtend` | server.js:159-170 | Pushing a value and appending a condition on placeholder `$(length of the list)` keeps a statement aligned. |
| `Search.AlignedTexts` | server.js:160-169 | In an aligned statement every text fragment is the base text or a fixed condition text. Values appear only as parameters. |
| `Search.ConditionsAligned` | server.js:172 | The store reads an aligned statement's conditions as exactly the intended (column, value) filters. Each placeholder `$k` resolves to the value pushed k-th. |
| `Search.Execute` | server.js:172 | The store rejects a statement that does not start with the base text. Any rows it returns are rows of the Customers table, unchanged. |
| `Search.ExecuteAligned` | server.js:172 | Running an aligned statement returns the customers that meet all of its filters. |
| `Search.FiltersMeaning` | server.js:159-170 | A customer meets the built conditions if and only if it equals every supplied field. |
| `Search.SelectFilters` | server.js:156-173 | Selecting by the built conditions returns exactly the customers the search means. |
| `Search.SearchExecutes` | server.js:156-173 | Running the statement the handler builds returns exactly the customers whose City, State and PinCode equal every supplied value. |
| `Search.SearchCustomers` | server.js:172-173 | The search result is a part of the Customers table: every returned row is the stored row. |
| `Search.SearchWithoutFilters` | server.js:156-157 | With no field supplied the search returns every customer. |
| `Search.SearchNarrows` | server.js:159-170 | Supplying one more field never adds a customer to the result. |
| `Search.DecimalText` | server.js:161 | The placeholder number is written as a non-empty string of decimal digits that denotes exactly that number, with no leading zero. |
| `Search.RenderConditions` | server.js:159-170 | A run of conditions whose placeholders are numbered from `first` renders as ` AND <Field> = $k` for each condition in turn, with k counting up from `first`. |
| `Search.RenderAligned` | server.js:156-170 | The text the driver receives for an aligned statement is the base text followed by ` AND <Field> = $k` for the k-th condition. |
| `Search.RenderAllThree` | server.js:156-170 | With all three fields supplied the text the driver receives is `SELECT * FROM Customers WHERE 1=1 AND City = $1 AND State = $2 AND PinCode = $3`. |
| `Search.RenderBase` | server.js:156 | With nothing supplied the text the driver receives is exactly `SELECT * FROM Customers WHERE 1=1`. |
| `Search.AlignedAllThree` | server.js:159-170 | With all three fields supplied the statement is `... AND City = $1 AND State = $2 AND PinCode = $3` and the parameters are City, State, PinCode in that order. |
| `Search.AlignedStateOnly` | server.js:163-165 | With State alone supplied its condition uses `$1` and the only parameter is State. The placeholder position is never fixed per field. |
| `CustomerStore.CreateEffect` | server.js:58-63 | The insert succeeds if and only if all six fields are present and the new key is unused. On success it adds exactly one row, with that key and the six given values, and returns it. Existing customers and all addresses are unchanged. A missing field fails with a NOT NULL violation and changes nothing. The foreign key is preserved. |
| `CustomerStore.ReadCustomer` | server.js:73-78 | Reading a key returns that customer's stored row if the key is in the table, and 404 otherwise. It never fails. |
| `CustomerStore.UpdateCustomerEffect` | server.js:89-93 | A key not in the table answers no row and changes nothing. A matched row with a missing field fails with a NOT NULL violation and changes nothing. Otherwise only FirstName, LastName and PhoneNumber of that row change. Its key, City, State and PinCode, the other customers and all addresses are unchanged. The answer is the updated row. |
| `CustomerStore.DeleteCustomerEffect` | server.js:103-106 | The delete fails with a foreign-key violation, changing nothing, if and only if the customer row exists and some address refers to it (the constraint of server.js:37). Otherwise it removes only that key and leaves the addresses as they were. The foreign key is preserved. |
| `CustomerStore.ListAddresses` | server.js:114-115 | The address list of a customer holds exactly the address rows whose CustomerID is that customer, unchanged. |
| `CustomerStore.UpdateAddressEffect` | server.js:126-130 | A key not in Addresses answers no row and changes nothing. A matched row with a missing field fails with a NOT NULL violation. Otherwise only the four fields of that address change, its CustomerID is kept, and Customers and the other addresses are unchanged. The foreign key is preserved. |
| `CustomerStore.LeftJoin` | server.js:141-142 | Every joined row pairs a stored customer with an address that refers to it, or with NULL when no address does. Every matching (customer, address) pair is present, and so is a NULL row for every customer with no address. |
| `CustomerStore.CountAddressIds` | server.js:144 | `COUNT(a.AddressID)` of a group is 0 if and only if every joined row of that customer has a NULL AddressID. |
| `CustomerStore.OneAddressCustomers` | server.js:139-145 | Each returned (CustomerID, FirstName, LastName) is a stored customer with its stored names, and some address refers to it. |
| `CustomerStore.CreateThenRead` | server.js:58-78 | After a successful create, reading the new key returns exactly the row the create returned. |
| `CustomerStore.CreateKeepsOtherReads` | server.js:58-61 | A create changes no other customer's read and no address list. |
| `CustomerStore.ReadMissingIsNotFound` | server.js:74-77 | A key that is not in Customers reads as 404. |
| `CustomerStore.UpdateCustomerScope` | server.js:89-91 | The customer update changes no other customer, no key set, no City, State or PinCode, and no address list. |
| `CustomerStore.DeleteReferencedFails` | server.js:103-106 | Deleting a stored customer that an address refers to fails with a foreign-key violation and leaves the database unchanged. |
| `CustomerStore.DeleteThenRead` | server.js:103 | After a successful delete the key reads as 404 and every other customer reads as before. |
| `CustomerStore.DeleteMissingIsNoOp` | server.js:103-104 | Deleting an unknown key answers success and changes nothing. |
| `CustomerStore.ListAddressesOfMissing` | server.js:114 | While the foreign key holds, a key not in Customers has an empty address list. |
| `CustomerStore.ReferencedIffListed` | server.js:37 | An address refers to a customer if and only if the customer's address list is not empty. |
| `CustomerStore.GroupIdsAreListed` | server.js:142-144 | The AddressIDs counted in a customer's join group are exactly the keys of its address list. |
| `CustomerStore.OneAddressExactly` | server.js:139-145 | The one-address query returns (CustomerID, FirstName, LastName) for exactly the customers with exactly one address. Customers with zero addresses (their one joined row has a NULL AddressID) and those with two or more are excluded. |
| `CustomerStore.OneAddressUnique` | server.js:143 | A customer appears at most once in the one-address result. |
| `CustomerStore.UpdateAddressKeepsOneAddress` | server.js:126-145 | An address update leaves the one-address result unchanged, since it keeps the address's CustomerID. |
| `CustomerStore.CreateThenSearchByState` | server.js:153-173 | A customer created with State NV is found by a search for State NV and not by one for State CA. |
| `CustomerStore.Store.constructor` | server.js:20-43 | The store starts from any pair of tables that satisfy the foreign key. |
| `CustomerStore.Store.CreateCustomer` | server.js:55-67 | The method answers what `CreateEffect` answers, changes the tables to `CreateEffect`'s result, and keeps the foreign key. |
| `CustomerStore.Store.UpdateCustomer` | server.js:85-97 | The method answers what `UpdateCustomerEffect` answers, changes the tables to its result, and keeps the foreign key. |
| `CustomerStore.Store.DeleteCustomer` | server.js:100-108 | The method answers what `DeleteCustomerEffect` answers, changes the tables to its result, and keeps the foreign key. |
| `CustomerStore.Store.UpdateAddress` | server.js:122-134 | The method answers what `UpdateAddressEffect` answers, changes the tables to its result, and keeps the foreign key. |
| `CustomerStore.Store.SearchCustomersByFields` | server.js:153-177 | Building the statement and running it on the Customers table returns exactly `SearchCustomers`: the customers equal to every supplied field. |

## Left out

- The Express application, its middleware, routing and `app.listen` (server.js:5-9, 184-186) are framework wiring. Route precedence is not modelled either: `/customers/:id` is registered before `/customers/one-address` and `/customers/search`.
- The `pg` pool, dotenv and the SSL settings (server.js:2-3, 12-17) are foreign I/O. A lost connection or any other store failure besides the constraints is not modelled, so the reads and the search never answer 500 here.
- `createTables` (server.js:20-52) runs once at startup. Only its constraints are kept: NOT NULL as row types, the foreign key as `ForeignKeyHolds`, and the primary key as the map key.
- `gen_random_uuid()` is random, so the new key is a parameter of `CreateCustomer`. A key already in use fails as the primary key would.
- The UUID type of the key columns is not modelled. The store parses key text, so a path id that is not a valid UUID makes it fail, and different spellings of one UUID (upper case, braces, no hyphens) name the same row. Here every id is an opaque key, and keys are compared as plain strings.
- Express query values that are arrays (a repeated query parameter) are not modelled. Query and body fields are optional strings.
- Request concurrency and async/await are left out. Each handler is one atomic statement.
- HTTP status codes and JSON bodies are reduced to `Ok`, `NotFound` and `Failed`. Rows are returned as maps from key to row, because SQL gives no order.
- The textual SQL of the statements is not parsed. The search statement is a sequence of fixed-text and placeholder fragments, and `Render` gives its text.
- No handler inserts an address, so the model has no address insert. Addresses come from the tables the store starts with.
- Pagination and clearing filters (server.js:179-181) exist only as comments.
