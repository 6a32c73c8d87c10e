/**
 The tables of the cash desk and the queries the service runs over them.

 Amounts are whole cents. The uuid of a row in `turnos`, `transacciones` and `pendientes` is the
 position of the row in its table: rows are appended and never deleted.
 */
module Tablas {
  import opened Comun

  type CuentaId = string
  type SedeId = string

  /** One cent: what splitting a total into parts may leave over. */
  const TOLERANCIA := 1

  datatype Metodo = EFECTIVO | TARJETA | YAPE | PLIN | TRANSFERENCIA

  const METODOS: seq<Metodo> := [EFECTIVO, TARJETA, YAPE, PLIN, TRANSFERENCIA]

  datatype TipoMovimiento = APERTURA | VENTA | INGRESO | EGRESO | AJUSTE

  datatype EstadoCuenta = ABIERTA | CERRADA | CANCELADA

  datatype EstadoPago = PENDIENTE | PROCESANDO | PROCESADO | FALLIDO

  /** Free text, or the label "Pago combinado indice/de" followed by the text of the command. */
  datatype Nota = Libre(texto: Option<string>) | Etiqueta(indice: nat, de: nat, texto: Option<string>)

  /** The body of POST /caja/pagos; `Valido` is what the validation pipe lets through. */
  datatype DatosPago = DatosPago(cuenta: CuentaId, monto: int, metodo: Metodo,
                                 descuento: Option<int>, propina: Option<int>, notas: Nota)
  {
    predicate Valido()
    {
      && monto >= 1
      && (descuento.Some? ==> descuento.value >= 0)
      && (propina.Some? ==> propina.value >= 0)
    }
  }

  type ComandoPago = c: DatosPago | c.Valido() witness DatosPago("", 1, EFECTIVO, None, None, Libre(None))

  /** An amount as a combined command may bring it: whole cents, rounded down, and whether digits
      beyond the second decimal were cut off. */
  datatype Importe = Importe(centimos: int, fino: bool)
  {
    predicate Positivo() { centimos > 0 || (centimos == 0 && fino) }

    predicate Negativo() { centimos < 0 }
  }

  const CERO := Importe(0, false)

  datatype Tramo = Tramo(metodo: Metodo, monto: Importe, propina: Option<Importe>)

  datatype ComandoCombinado = ComandoCombinado(cuenta: CuentaId, pagos: seq<Tramo>,
                                               descuento: Option<Importe>, notas: Option<string>)

  /** What servicio-cuentas answers; `sede` already defaults to the main one. */
  datatype CuentaRemota = CuentaRemota(sede: SedeId, total: int, estado: EstadoCuenta)

  datatype Cierre = Cierre(montoEsperado: int, montoReal: int, diferencia: int)

  /** `cierre` is the row of cierres_caja; a shift is ABIERTA exactly while it has none. */
  datatype Turno = Turno(sede: SedeId, fondoInicial: int, abierto: bool, cierre: Option<Cierre>)

  datatype Transaccion = Transaccion(cuenta: CuentaId, sede: SedeId, turno: nat, monto: int,
                                     descuento: int, metodo: Metodo, notas: Nota, creada: int)

  datatype Movimiento = Movimiento(turno: nat, tipo: TipoMovimiento, cuenta: Option<CuentaId>,
                                   transaccion: Option<nat>, metodo: Metodo, monto: int,
                                   descuento: int, propina: int, motivo: Nota)

  /** A row of cuentas_abiertas, the local projection of an account. */
  datatype Cuenta = Cuenta(sede: SedeId, total: int, estado: EstadoCuenta)

  datatype PagoPendiente = PagoPendiente(sede: SedeId, comando: ComandoPago, estado: EstadoPago,
                                         transaccion: Option<nat>)

  datatype Evento =
    | TurnoCajaAbierto(turno: nat, sede: SedeId)
    | TurnoCajaCerrado(turno: nat, sede: SedeId)
    | PagoRegistrado(transaccion: nat, cuenta: CuentaId, monto: int, metodo: Metodo, pendiente: int)

  datatype Caja = Caja(turnos: seq<Turno>, transacciones: seq<Transaccion>,
                       movimientos: seq<Movimiento>, cuentas: map<CuentaId, Cuenta>,
                       pendientes: seq<PagoPendiente>, outbox: seq<Evento>)

  const CAJA_VACIA := Caja([], [], [], map[], [], [])

  /* Queries over transacciones. They recurse on the last row, so appending a row unfolds them once. */

  /** `_sum.monto` of an account. */
  function Pagado(txs: seq<Transaccion>, c: CuentaId): int
  {
    if |txs| == 0 then 0
    else
      var t := txs[|txs| - 1];
      Pagado(txs[..|txs| - 1], c) + if t.cuenta == c then t.monto else 0
  }

  /** `_min.descuento` of an account. */
  function MinDescuento(txs: seq<Transaccion>, c: CuentaId): Option<int>
  {
    if |txs| == 0 then None
    else
      var t, resto := txs[|txs| - 1], MinDescuento(txs[..|txs| - 1], c);
      if t.cuenta != c then resto
      else if resto.None? || t.descuento < resto.value then Some(t.descuento)
      else resto
  }

  /** `_max.descuento` of an account. */
  function MaxDescuento(txs: seq<Transaccion>, c: CuentaId): Option<int>
  {
    if |txs| == 0 then None
    else
      var t, resto := txs[|txs| - 1], MaxDescuento(txs[..|txs| - 1], c);
      if t.cuenta != c then resto
      else if resto.None? || t.descuento > resto.value then Some(t.descuento)
      else resto
  }

  /** `_max.createdAt` of an account. */
  function UltimoPago(txs: seq<Transaccion>, c: CuentaId): Option<int>
  {
    if |txs| == 0 then None
    else
      var t, resto := txs[|txs| - 1], UltimoPago(txs[..|txs| - 1], c);
      if t.cuenta != c then resto
      else if resto.None? || t.creada > resto.value then Some(t.creada)
      else resto
  }

  ghost predicate TienePagos(txs: seq<Transaccion>, c: CuentaId)
  {
    exists i :: 0 <= i < |txs| && txs[i].cuenta == c
  }

  ghost predicate MontosPositivos(txs: seq<Transaccion>)
  {
    forall i :: 0 <= i < |txs| ==> txs[i].monto > 0
  }

  /** Every payment of the account carries this discount. */
  ghost predicate TodosConDescuento(txs: seq<Transaccion>, c: CuentaId, descuento: int)
  {
    forall i :: 0 <= i < |txs| && txs[i].cuenta == c ==> txs[i].descuento == descuento
  }

  /** The findFirst of an open shift of a branch, latest first. */
  function TurnoAbierto(turnos: seq<Turno>, sede: SedeId): Option<nat>
  {
    if |turnos| == 0 then None
    else if turnos[|turnos| - 1].abierto && turnos[|turnos| - 1].sede == sede then Some(|turnos| - 1)
    else TurnoAbierto(turnos[..|turnos| - 1], sede)
  }

  lemma {:induction false} TurnoAbiertoEsAbierto(turnos: seq<Turno>, sede: SedeId)
    ensures TurnoAbierto(turnos, sede).Some? ==>
              var t := TurnoAbierto(turnos, sede).value;
              t < |turnos| && turnos[t].abierto && turnos[t].sede == sede
    ensures TurnoAbierto(turnos, sede).None? ==>
              forall t :: 0 <= t < |turnos| ==> !(turnos[t].abierto && turnos[t].sede == sede)
  {
    if |turnos| != 0 && !(turnos[|turnos| - 1].abierto && turnos[|turnos| - 1].sede == sede) {
      TurnoAbiertoEsAbierto(turnos[..|turnos| - 1], sede);
    }
  }

  lemma {:induction false} SinPagosNadaPagado(txs: seq<Transaccion>, c: CuentaId)
    requires MontosPositivos(txs)
    ensures Pagado(txs, c) >= 0
    ensures Pagado(txs, c) == 0 <==> !TienePagos(txs, c)
  {
    if |txs| != 0 {
      var n := |txs| - 1;
      SinPagosNadaPagado(txs[..n], c);
      if txs[n].cuenta == c {
        assert TienePagos(txs, c);
      } else if TienePagos(txs, c) {
        var i :| 0 <= i < |txs| && txs[i].cuenta == c;
        assert txs[..n][i].cuenta == c;
      } else {
        forall i | 0 <= i < n ensures txs[..n][i].cuenta != c { assert txs[i].cuenta != c; }
      }
    }
  }

  lemma {:induction false} PagadoAgrega(txs: seq<Transaccion>, t: Transaccion, c: CuentaId)
    ensures Pagado(txs + [t], c) == Pagado(txs, c) + if t.cuenta == c then t.monto else 0
  {
    assert (txs + [t])[..|txs|] == txs;
  }
}
