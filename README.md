# Invoice controller (`factura`) — a verified model

This project models the invoice controller of an Express/MySQL back end. The
controller has four request handlers:

- `obtenerFacturas` lists every invoice.
- `obtenerFacturaPorNumero` returns the first invoice with a given number, or 404.
- `crearFactura` checks the request body in order: a valid e-mail, a non-empty product list, then a registered e-mail. If all three pass, it inserts one row.
- `eliminarFactura` deletes every invoice with a given number. It answers 404 when no row was removed.

The database is replaced by an in-memory store, the class
`FacturaController.FacturaStore`. It holds the `factura` table as a sequence of
rows and the `usuarios` table as the set of registered e-mail addresses. Each
SQL statement the controller issues becomes its effect on that store:

- `INSERT` appends one row.
- `SELECT ... WHERE numeroFactura = ?` is the filter `FacturaTable.Select`.
- `DELETE ... WHERE numeroFactura = ?` is the filter `FacturaTable.DeleteWhere`.

Wherever the source branches on a query's `err`, the model takes a failure
parameter instead:

- `dbFails: bool` for the three single-query handlers.
- `CreateFailure` for `crearFactura`. It names the failing step: the connection, the user lookup or the insert.

A response is modelled as its kind: `Listed`, `Found`, `Created`, `Deleted`,
`BadRequest`, `NotFound` or `ServerError`. Each kind carries the reason the
source's error text gives, and `StatusCode` maps each kind to its HTTP status.

Modules:

- `JsValue` (js_value.dfy) models the JSON values of a request body. It covers JavaScript truthiness, `v || null`, `Array.isArray(v) && v.length`, and an abstract `JSON.stringify` text.
- `FacturaTable` (factura_table.dfy) holds the row type, the two SQL filters and the lemmas about them. These cover first match, partition, order, and independence of other numbers.
- `FacturaController` (factura_controller.dfy) holds the request body, the responses and `CrearDecision`, the pure decision procedure of `crearFactura`. It also holds the `FacturaStore` class with one method per handler, lemmas relating the handlers to each other (among them the idempotence of the delete), and two client scenarios.

The code has no line-item table and no transaction. It does not check that
invoice numbers are unique, and its update handler is not modelled (see
"## Left out"). This model follows the code:

- The product list is one JSON-text column of the invoice row.
- Each write is a single statement.
- Duplicate invoice numbers are allowed. The lookup returns the first one; the delete removes them all.
- There is no conflict outcome.

## Model

| member | source | states |
|---|---|---|
| JsValue.OrNull | controller/factura.controller.js:77 | `token_devolucion \|\| null`: a truthy value is kept, every falsy value (undefined, null, false, 0, "") becomes null, never undefined |
| JsValue.IsNonEmptyArray | controller/factura.controller.js:39 | definition, no contract: `Array.isArray(productos)` and a length other than 0 |
| FacturaTable.HasNumero | controller/factura.controller.js:17 | definition, no contract: the WHERE comparison `numeroFactura = ?` of the lookup and of the DELETE (:116), as equality of the stored value with the string parameter |
| FacturaTable.Select | controller/factura.controller.js:17-18 | the rows selected by `numeroFactura = ?` are exactly the table's rows with that number, and no more rows than the table holds |
| FacturaTable.DeleteWhere | controller/factura.controller.js:116-117 | the rows left by the DELETE are exactly the table's rows whose number differs |
| FacturaTable.SelectHeadIsFirstMatch | controller/factura.controller.js:23-27 | the selection is empty iff no row has the number; otherwise `results[0]` is the row at the first index with that number |
| FacturaTable.PartitionByNumero | controller/factura.controller.js:116-122 | the SELECT and the DELETE with the same WHERE split the table as multisets, so `affectedRows` is the number of matching rows |
| FacturaTable.SelectConcat | controller/factura.controller.js:17-24 | the SELECT keeps table order: it distributes over concatenation |
| FacturaTable.DeleteWhereConcat | controller/factura.controller.js:116 | the DELETE keeps the surviving rows in table order: it distributes over concatenation |
| FacturaTable.DeleteWhereNoMatch | controller/factura.controller.js:116-123 | a DELETE whose WHERE matches no row leaves the table unchanged |
| FacturaTable.DeleteWhereOtherNumber | controller/factura.controller.js:116 | deleting one invoice number does not change what a lookup of any other number selects |
| FacturaController.StatusCode | controller/factura.controller.js:8-10 | the HTTP status of each response kind: the listing, the found row, the creation and the deletion are 2xx (`res.json` at :10, :24, :125 and 201 at :84), a bad request or a missing invoice is 4xx with 404 exactly for the missing invoice (:26, :36, :40, :66, :123), and every store error is 500 (:8, :21, :54, :62, :81, :120) |
| FacturaController.CorreoValido | controller/factura.controller.js:35 | the e-mail gate `!correo \|\| !correo.includes('@')` negated: an accepted address is present and, holding an '@', never the empty string |
| FacturaController.Registrado | controller/factura.controller.js:58-65 | definition, no contract: the `usuarios` lookup by e-mail returns a row, i.e. `userResult.length !== 0`, as membership of the address in the set of registered e-mails |
| FacturaController.CrearDecision | controller/factura.controller.js:31-85 | the gates in order: a missing or '@'-less e-mail is rejected first, then a non-array or empty product list, both before any store access. A connection or lookup error then wins over the registration check, and an unregistered e-mail is a 400. A row is inserted iff every gate passes and no step fails. The row carries the submitted fields, the stringified products, and a null token when the submitted one is falsy |
| FacturaController.CreateResponse | controller/factura.controller.js:36-84 | the answer of crearFactura for a decision: 201 exactly for an insert (:84), 400 exactly for a rejection with its reason (:36, :40, :66), 500 exactly for a database error with the failing step (:54, :62, :81) |
| FacturaController.CreateRows | controller/factura.controller.js:70-77 | the table after crearFactura: the INSERT appends exactly one row, the submitted one, behind the unchanged earlier rows; any other outcome leaves the table's length and rows as they were |
| FacturaController.CreatedInvoiceIsFound | controller/factura.controller.js:70-77 | after a successful create under a number no earlier row has, a lookup of that number selects exactly the new row |
| FacturaController.CreateThenDeleteRestores | controller/factura.controller.js:70-77 | creating an invoice under a fresh number and then deleting that number gives back the original table |
| FacturaController.DeleteIsIdempotent | controller/factura.controller.js:113-123 | after a DELETE no row has the number, so a second DELETE matches nothing (404) and changes nothing |
| FacturaController.FacturaStore.ObtenerFacturas | controller/factura.controller.js:3-11 | a store error gives a 500; otherwise the answer is every row in table order, with status 200 exactly when the store answered. The table is not modified |
| FacturaController.FacturaStore.ObtenerFacturaPorNumero | controller/factura.controller.js:14-28 | a store error gives a 500; 404 iff no row has the number; otherwise the first row in table order with that number; the status is 404 exactly when the store answered and selected nothing. The table is not modified |
| FacturaController.FacturaStore.CrearFactura | controller/factura.controller.js:31-89 | the response and the new table are those of `CrearDecision`. The table grows by exactly one appended row iff the answer is 201 (earlier rows unchanged); every 400 or 500 leaves it as it was |
| FacturaController.FacturaStore.EliminarFactura | controller/factura.controller.js:113-127 | a store error gives a 500 and removes nothing. Otherwise exactly the rows with the number are removed, the others keep their order, and the answer is 404 iff no row had the number, else 200 |

## Left out

- `actualizarFactura` (controller/factura.controller.js:92-111) is not modelled. Its SQL has no value after `token_devolucion =` and its parameter array has a hole and no key, so its behaviour is whatever MySQL's parser does with it.
- routes/image.routes.js is HTTP routing for image upload into an image controller that is not part of this model.
- The `conexion` module, `db.query` / `req.getConnection` callbacks, `console.error` logging and `res.status().json()` encoding are I/O. They are replaced by the store, the failure parameters and the `Response` kinds.
- `JSON.stringify` is an abstract total function (`Stringified`). Its `catch` branch (controller/factura.controller.js:43-49) only fires on values a parsed JSON body cannot hold, such as cyclic structures or BigInt.
- `result.insertId` in the 201 body (controller/factura.controller.js:84) is chosen by the database's auto-increment. `Created` does not carry it. The auto-increment `id` column it implies is not a field of `Factura` either, so the rows that `SELECT *` returns in `Listed` and `Found` (:4, :17) omit it.
- FacturaBody: `correo` is modelled as an optional string. A non-string `correo` (number, boolean, object or array) is not modelled: on those, `.includes` either throws or is `Array.prototype.includes`, and the outcome then depends on Express and the MySQL driver.
- FacturaTable.HasNumero: the WHERE comparison is exact equality of the stored value with the string parameter. MySQL collation (case and trailing-space insensitivity) and type coercion between a numeric column and a string are not modelled. The same holds for the e-mail lookup in `usuarios`, modelled as set membership.
- The MySQL driver's conversion of JavaScript values into SQL literals (undefined to NULL, booleans, nested arrays and objects) and the column types of the unseen schema are not modelled: a row stores the submitted values as they are.
- `SELECT` without `ORDER BY` has no order guaranteed by SQL. The model returns rows in table (insertion) order.
- Uniqueness of `numeroFactura`, transactions, a line-item table and concurrent requests do not exist in the code and are not modelled. A failed single statement is taken to change nothing.
