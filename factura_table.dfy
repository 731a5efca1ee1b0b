/** The `factura` table as the controller's SQL statements see it: an ordered
    sequence of rows, with `SELECT ... WHERE numeroFactura = ?` and
    `DELETE ... WHERE numeroFactura = ?` as filters over it. */
module FacturaTable {
  import opened JsValue

  /** One row of `factura`, with the columns the INSERT of crearFactura names. */
  datatype Factura = Factura(
    nombre: Value,
    correo: string,
    telefono: Value,
    numeroFactura: Value,
    productos: JsonText,
    total: Value,
    metodoPago: Value,
    tokenDevolucion: Value)

  /** The WHERE clause `numeroFactura = ?` with a string parameter. */
  predicate HasNumero(f: Factura, numero: string) {
    f.numeroFactura == Str(numero)
  }

  /** `SELECT * FROM factura WHERE numeroFactura = ?`: the matching rows, in table order. */
  function Select(rows: seq<Factura>, numero: string): (sel: seq<Factura>)
    ensures |sel| <= |rows|
    ensures forall f :: f in sel <==> f in rows && HasNumero(f, numero)
  {
    if rows == [] then []
    else if HasNumero(rows[0], numero) then [rows[0]] + Select(rows[1..], numero)
    else Select(rows[1..], numero)
  }

  /** The table after `DELETE FROM factura WHERE numeroFactura = ?`. */
  function DeleteWhere(rows: seq<Factura>, numero: string): (rest: seq<Factura>)
    ensures |rest| <= |rows|
    ensures forall f :: f in rest <==> f in rows && !HasNumero(f, numero)
  {
    if rows == [] then []
    else if HasNumero(rows[0], numero) then DeleteWhere(rows[1..], numero)
    else [rows[0]] + DeleteWhere(rows[1..], numero)
  }

  /** Index `i` holds the first row whose number is `numero`. */
  ghost predicate IsFirstMatch(rows: seq<Factura>, numero: string, i: int) {
    && 0 <= i < |rows|
    && HasNumero(rows[i], numero)
    && forall j :: 0 <= j < i ==> !HasNumero(rows[j], numero)
  }

  /** The first selected row is the first matching row of the table, and the
      selection is empty exactly when no row matches. */
  lemma {:induction false} SelectHeadIsFirstMatch(rows: seq<Factura>, numero: string)
    ensures Select(rows, numero) == [] <==> forall i :: 0 <= i < |rows| ==> !HasNumero(rows[i], numero)
    ensures Select(rows, numero) != [] ==>
      exists i :: IsFirstMatch(rows, numero, i) && Select(rows, numero)[0] == rows[i]
  {
    if rows != [] {
      SelectHeadIsFirstMatch(rows[1..], numero);
      if HasNumero(rows[0], numero) {
        assert IsFirstMatch(rows, numero, 0);
      } else if Select(rows, numero) != [] {
        var i :| IsFirstMatch(rows[1..], numero, i) && Select(rows[1..], numero)[0] == rows[1..][i];
        assert IsFirstMatch(rows, numero, i + 1);
      } else {
        forall i | 0 <= i < |rows| ensures !HasNumero(rows[i], numero) {
          if i > 0 { assert rows[i] == rows[1..][i - 1]; }
        }
      }
    }
  }

  /** SELECT and DELETE with the same WHERE split the table: every row goes to
      exactly one side, so the rows removed are exactly the rows selected and
      `affectedRows` of the DELETE is the length of the SELECT. */
  lemma {:induction false} PartitionByNumero(rows: seq<Factura>, numero: string)
    ensures multiset(Select(rows, numero)) + multiset(DeleteWhere(rows, numero)) == multiset(rows)
    ensures |Select(rows, numero)| + |DeleteWhere(rows, numero)| == |rows|
  {
    if rows != [] {
      PartitionByNumero(rows[1..], numero);
      assert rows == [rows[0]] + rows[1..];
    }
  }

  /** SELECT keeps table order: it distributes over concatenation. */
  lemma {:induction false} SelectConcat(a: seq<Factura>, b: seq<Factura>, numero: string)
    ensures Select(a + b, numero) == Select(a, numero) + Select(b, numero)
  {
    if a == [] {
      assert a + b == b;
    } else {
      var ab := a + b;
      assert ab[0] == a[0] && ab[1..] == a[1..] + b;
      SelectConcat(a[1..], b, numero);
      if HasNumero(a[0], numero) {
        assert Select(ab, numero) == [a[0]] + Select(a[1..] + b, numero);
      } else {
        assert Select(ab, numero) == Select(a[1..] + b, numero);
      }
    }
  }

  /** DELETE keeps the surviving rows in table order: it distributes over concatenation. */
  lemma {:induction false} DeleteWhereConcat(a: seq<Factura>, b: seq<Factura>, numero: string)
    ensures DeleteWhere(a + b, numero) == DeleteWhere(a, numero) + DeleteWhere(b, numero)
  {
    if a == [] {
      assert a + b == b;
    } else {
      var ab := a + b;
      assert ab[0] == a[0] && ab[1..] == a[1..] + b;
      DeleteWhereConcat(a[1..], b, numero);
      if !HasNumero(a[0], numero) {
        assert DeleteWhere(ab, numero) == [a[0]] + DeleteWhere(a[1..] + b, numero);
      } else {
        assert DeleteWhere(ab, numero) == DeleteWhere(a[1..] + b, numero);
      }
    }
  }

  /** A DELETE that matches nothing leaves the table exactly as it was. */
  lemma {:induction false} DeleteWhereNoMatch(rows: seq<Factura>, numero: string)
    requires Select(rows, numero) == []
    ensures DeleteWhere(rows, numero) == rows
  {
    if rows != [] {
      assert rows[0] in rows;
      DeleteWhereNoMatch(rows[1..], numero);
    }
  }

  /** Deleting one invoice number does not change what a lookup of another number finds. */
  lemma {:induction false} DeleteWhereOtherNumber(rows: seq<Factura>, deleted: string, looked: string)
    requires deleted != looked
    ensures Select(DeleteWhere(rows, deleted), looked) == Select(rows, looked)
  {
    if rows != [] {
      DeleteWhereOtherNumber(rows[1..], deleted, looked);
    }
  }
}
