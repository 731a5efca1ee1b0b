/** The invoice controller: the four request handlers over the `factura` table
    and the registered e-mails of `usuarios`. The database is the in-memory
    store below; every place where the source branches on a query's `err`
    takes a failure flag instead. */
module FacturaController {
  import opened JsValue
  import opened FacturaTable

  /** The fields of `req.body` that crearFactura reads. `correo` is the only one
      the handler treats as a string: `None` stands for an absent or null field. */
  datatype FacturaBody = FacturaBody(
    nombre: Value,
    correo: Option<string>,
    telefono: Value,
    numeroFactura: Value,
    productos: Value,
    total: Value,
    metodoPago: Value,
    tokenDevolucion: Value)

  datatype Option<T> = None | Some(value: T)

  datatype BadRequestReason =
    | InvalidCorreo       // 'Correo inválido o ausente'
    | EmptyProductos      // 'La lista de productos no puede estar vacía'
    | UnregisteredCorreo  // 'El correo no está registrado. ...'

  datatype ServerErrorReason =
    | ListFailed          // 'Error al obtener las facturas'
    | FindFailed          // 'Error al buscar la factura'
    | ConnectionFailed    // 'Error de conexión a la base de datos'
    | LookupFailed        // 'Error en la validación del correo'
    | InsertFailed        // 'Error al guardar la factura'
    | DeleteFailed        // 'Error al eliminar la factura'

  /** What a handler sends back: the body's kind, from which the status follows. */
  datatype Response =
    | Listed(facturas: seq<Factura>)
    | Found(factura: Factura)
    | Created
    | Deleted
    | BadRequest(reason: BadRequestReason)
    | NotFound
    | ServerError(failure: ServerErrorReason)

  /** The HTTP status each kind is sent with: `res.json` answers 200, the
      handlers set 201, 400, 404 and 500 explicitly. */
  function StatusCode(r: Response): (code: int)
    ensures code / 100 == 2 <==> r.Listed? || r.Found? || r.Created? || r.Deleted?
    ensures code / 100 == 4 <==> r.BadRequest? || r.NotFound?
    ensures code == 404 <==> r.NotFound?
    ensures code / 100 == 5 <==> r.ServerError?
  {
    match r
    case Listed(_) => 200
    case Found(_) => 200
    case Created => 201
    case Deleted => 200
    case BadRequest(_) => 400
    case NotFound => 404
    case ServerError(_) => 500
  }

  /** Which database step of crearFactura reports an error, if any. */
  datatype CreateFailure = NoFailure | ConnectionFails | LookupFails | InsertFails

  /** `correo && correo.includes('@')`: a valid address is present and, since it
      holds an '@', never the falsy empty string. */
  predicate CorreoValido(correo: Option<string>)
    ensures CorreoValido(correo) ==> correo.Some? && correo.value != ""
  {
    correo.Some? && '@' in correo.value
  }

  /** Both input gates of crearFactura pass. */
  predicate EntradaValida(body: FacturaBody) {
    CorreoValido(body.correo) && IsNonEmptyArray(body.productos)
  }

  /** `SELECT * FROM usuarios WHERE correo = ?` returns at least one row. */
  predicate Registrado(usuarios: set<string>, correo: Option<string>) {
    correo.Some? && correo.value in usuarios
  }

  /** How crearFactura ends: rejected, aborted by a database error, or inserting one row. */
  datatype CreateDecision =
    | Reject(reason: BadRequestReason)
    | Abort(failure: ServerErrorReason)
    | Insert(row: Factura)

  /** The decision procedure of crearFactura, gate by gate. */
  function CrearDecision(usuarios: set<string>, body: FacturaBody, fail: CreateFailure): (d: CreateDecision)
    // the e-mail gate comes first and sees neither the store nor its failures
    ensures !CorreoValido(body.correo) ==> d == Reject(InvalidCorreo)
    // the product gate comes second, also before any store access
    ensures CorreoValido(body.correo) && !IsNonEmptyArray(body.productos) ==> d == Reject(EmptyProductos)
    // a connection or lookup error wins over the registration check
    ensures EntradaValida(body) && fail == ConnectionFails ==> d == Abort(ConnectionFailed)
    ensures EntradaValida(body) && fail == LookupFails ==> d == Abort(LookupFailed)
    ensures d == Reject(UnregisteredCorreo) <==>
      EntradaValida(body) && !Registrado(usuarios, body.correo) && fail != ConnectionFails && fail != LookupFails
    ensures d == Abort(InsertFailed) <==>
      EntradaValida(body) && Registrado(usuarios, body.correo) && fail == InsertFails
    // a row is inserted exactly when every gate passes and no step fails
    ensures d.Insert? <==> EntradaValida(body) && Registrado(usuarios, body.correo) && fail == NoFailure
    // the inserted row carries the submitted fields
    ensures d.Insert? ==>
      && d.row.nombre == body.nombre
      && Some(d.row.correo) == body.correo
      && d.row.telefono == body.telefono
      && d.row.numeroFactura == body.numeroFactura
      && d.row.productos == Stringified(body.productos)
      && d.row.total == body.total
      && d.row.metodoPago == body.metodoPago
    ensures d.Insert? && Truthy(body.tokenDevolucion) ==> d.row.tokenDevolucion == body.tokenDevolucion
    ensures d.Insert? && !Truthy(body.tokenDevolucion) ==> d.row.tokenDevolucion == Null
  {
    if !CorreoValido(body.correo) then Reject(InvalidCorreo)
    else if !IsNonEmptyArray(body.productos) then Reject(EmptyProductos)
    else if fail == ConnectionFails then Abort(ConnectionFailed)
    else if fail == LookupFails then Abort(LookupFailed)
    else if body.correo.value !in usuarios then Reject(UnregisteredCorreo)
    else if fail == InsertFails then Abort(InsertFailed)
    else assert fail.NoFailure?; Insert(Factura(body.nombre, body.correo.value, body.telefono, body.numeroFactura,
                        Stringified(body.productos), body.total, body.metodoPago,
                        OrNull(body.tokenDevolucion)))
  }

  /** The response crearFactura sends for a decision: 201 for an insert, 400 for
      a rejection, 500 for a database error, with the decision's reason. */
  function CreateResponse(d: CreateDecision): (r: Response)
    ensures StatusCode(r) == 201 <==> d.Insert?
    ensures StatusCode(r) == 400 <==> d.Reject?
    ensures StatusCode(r) == 500 <==> d.Abort?
    ensures d.Reject? ==> r.BadRequest? && r.reason == d.reason
    ensures d.Abort? ==> r.ServerError? && r.failure == d.failure
  {
    match d
    case Reject(reason) => BadRequest(reason)
    case Abort(failure) => ServerError(failure)
    case Insert(_) => Created
  }

  /** The `factura` table after a decision: the INSERT appends one row behind
      the unchanged earlier rows; a rejection or an error leaves the table alone. */
  function CreateRows(rows: seq<Factura>, d: CreateDecision): (after: seq<Factura>)
    ensures d.Insert? ==> |after| == |rows| + 1 && after[|rows|] == d.row
    ensures !d.Insert? ==> |after| == |rows|
    ensures after[..|rows|] == rows
  {
    if d.Insert? then rows + [d.row] else rows
  }

  /** An invoice that was just created under a number no earlier row has is
      exactly what a lookup of that number finds. */
  lemma CreatedInvoiceIsFound(rows: seq<Factura>, usuarios: set<string>, body: FacturaBody, numero: string)
    requires CrearDecision(usuarios, body, NoFailure).Insert?
    requires body.numeroFactura == Str(numero)
    requires Select(rows, numero) == []
    ensures Select(CreateRows(rows, CrearDecision(usuarios, body, NoFailure)), numero)
            == [CrearDecision(usuarios, body, NoFailure).row]
  {
    var row := CrearDecision(usuarios, body, NoFailure).row;
    SelectConcat(rows, [row], numero);
  }

  /** Creating an invoice under a fresh number and then deleting that number
      gives back the table as it was. */
  lemma CreateThenDeleteRestores(rows: seq<Factura>, usuarios: set<string>, body: FacturaBody, numero: string)
    requires CrearDecision(usuarios, body, NoFailure).Insert?
    requires body.numeroFactura == Str(numero)
    requires Select(rows, numero) == []
    ensures DeleteWhere(CreateRows(rows, CrearDecision(usuarios, body, NoFailure)), numero) == rows
  {
    var row := CrearDecision(usuarios, body, NoFailure).row;
    DeleteWhereConcat(rows, [row], numero);
    DeleteWhereNoMatch(rows, numero);
  }

  /** eliminarFactura is idempotent: after a successful DELETE nothing matches
      the number any more, so a second DELETE removes nothing. */
  lemma {:induction false} DeleteIsIdempotent(rows: seq<Factura>, numero: string)
    ensures Select(DeleteWhere(rows, numero), numero) == []
    ensures DeleteWhere(DeleteWhere(rows, numero), numero) == DeleteWhere(rows, numero)
  {
    var rest := DeleteWhere(rows, numero);
    if Select(rest, numero) != [] {
      assert Select(rest, numero)[0] in Select(rest, numero);
    }
    DeleteWhereNoMatch(rest, numero);
  }

  /** The in-memory stand-in for the database the controller talks to. */
  class FacturaStore {
    var rows: seq<Factura>
    var usuarios: set<string>

    constructor (usuarios: set<string>, rows: seq<Factura>)
      ensures this.rows == rows && this.usuarios == usuarios
    {
      this.rows := rows;
      this.usuarios := usuarios;
    }

    /** obtenerFacturas: `SELECT * FROM factura`, answered with every row in table order. */
    method ObtenerFacturas(dbFails: bool) returns (r: Response)
      ensures dbFails ==> r == ServerError(ListFailed)
      ensures !dbFails ==> r == Listed(rows)
      ensures StatusCode(r) == 200 <==> !dbFails
    {
      if dbFails {
        return ServerError(ListFailed);
      }
      var results := rows;
      r := Listed(results);
    }

    /** obtenerFacturaPorNumero: the first row with the number, or 404. */
    method ObtenerFacturaPorNumero(numeroFactura: string, dbFails: bool) returns (r: Response)
      ensures dbFails ==> r == ServerError(FindFailed)
      ensures !dbFails ==>
        (r == NotFound <==> forall i :: 0 <= i < |rows| ==> !HasNumero(rows[i], numeroFactura))
      ensures !dbFails && r != NotFound ==>
        r.Found? && exists i :: IsFirstMatch(rows, numeroFactura, i) && r.factura == rows[i]
      ensures StatusCode(r) == 404 <==> !dbFails && Select(rows, numeroFactura) == []
    {
      if dbFails {
        return ServerError(FindFailed);
      }
      var results := Select(rows, numeroFactura);
      SelectHeadIsFirstMatch(rows, numeroFactura);
      if |results| > 0 {
        r := Found(results[0]);
      } else {
        r := NotFound;
      }
    }

    /** crearFactura: the input gates, the user lookup, then a single INSERT. */
    method CrearFactura(body: FacturaBody, fail: CreateFailure) returns (r: Response)
      modifies this`rows
      ensures r == CreateResponse(CrearDecision(usuarios, body, fail))
      ensures rows == CreateRows(old(rows), CrearDecision(usuarios, body, fail))
      ensures r == Created <==> |rows| == |old(rows)| + 1
      ensures r != Created ==> rows == old(rows)
    {
      if !CorreoValido(body.correo) {
        return BadRequest(InvalidCorreo);
      }
      if !IsNonEmptyArray(body.productos) {
        return BadRequest(EmptyProductos);
      }
      var productoJson := Stringified(body.productos);
      if fail == ConnectionFails {
        return ServerError(ConnectionFailed);
      }
      if fail == LookupFails {
        return ServerError(LookupFailed);
      }
      var correo := body.correo.value;
      if correo !in usuarios {
        return BadRequest(UnregisteredCorreo);
      }
      if fail == InsertFails {
        return ServerError(InsertFailed);
      }
      rows := rows + [Factura(body.nombre, correo, body.telefono, body.numeroFactura,
                              productoJson, body.total, body.metodoPago,
                              OrNull(body.tokenDevolucion))];
      r := Created;
    }

    /** eliminarFactura: `DELETE FROM factura WHERE numeroFactura = ?`, 404 when
        `affectedRows` is 0. A failed statement removes nothing. */
    method EliminarFactura(id: string, dbFails: bool) returns (r: Response)
      modifies this`rows
      ensures dbFails ==> r == ServerError(DeleteFailed) && rows == old(rows)
      ensures !dbFails ==> rows == DeleteWhere(old(rows), id)
      ensures !dbFails ==> multiset(rows) == multiset(old(rows)) - multiset(Select(old(rows), id))
      ensures !dbFails ==> (r == NotFound <==> Select(old(rows), id) == [])
      ensures !dbFails && r != NotFound ==> r == Deleted
      ensures StatusCode(r) == 404 <==> !dbFails && Select(old(rows), id) == []
    {
      if dbFails {
        return ServerError(DeleteFailed);
      }
      var remaining := DeleteWhere(rows, id);
      PartitionByNumero(rows, id);
      var affectedRows := |rows| - |remaining|;
      rows := remaining;
      if affectedRows == 0 {
        r := NotFound;
      } else {
        r := Deleted;
      }
    }
  }

  /** A client of the store: a malformed address is refused, invoice F-100 is
      created for a registered address and found by its number. */
  method CreateScenario(nombre: Value, producto: Value)
  {
    var store := new FacturaStore({"a@b.com"}, []);
    var body := FacturaBody(nombre, Some("a@b.com"), Str("555"), Str("F-100"),
                            Arr([producto]), Num(20.0), Str("efectivo"), Str(""));
    assert "a@b.com"[1] == '@';

    var bad := store.CrearFactura(body.(correo := Some("not-an-email")), NoFailure);
    assert bad == BadRequest(InvalidCorreo);
    assert store.rows == [];

    var created := store.CrearFactura(body, NoFailure);
    assert created == Created;
    assert |store.rows| == 1 && store.rows[0].tokenDevolucion == Null;

    var found := store.ObtenerFacturaPorNumero("F-100", false);
    assert HasNumero(store.rows[0], "F-100");
    assert found == Found(store.rows[0]);
  }

  /** A client of the store: deleting a number nobody has reports 404, deleting
      F-100 empties the table, and deleting it again reports 404. */
  method DeleteScenario(f: Factura)
    requires f.numeroFactura == Str("F-100")
  {
    var store := new FacturaStore({}, [f]);
    var missing := store.EliminarFactura("F-999", false);
    assert missing == NotFound;
    assert store.rows == [f];

    var deleted := store.EliminarFactura("F-100", false);
    assert deleted == Deleted && store.rows == [];
    var again := store.EliminarFactura("F-100", false);
    assert again == NotFound;
  }
}
