/**
 Sales as the drawer sees them (VENTA movements) and as the audit sees them (transacciones): the
 one-to-one agreement between the two tables, and what the shift summary owes to it.
 */
module Ventas {
  import opened Comun
  import opened Tablas

  datatype Campo = MONTO | PROPINA | MONTO_Y_PROPINA

  /** A sum over the movements of a shift; `None` means any kind or any method. */
  datatype Consulta = Consulta(turno: nat, tipo: Option<TipoMovimiento>, metodo: Option<Metodo>, campo: Campo)

  function Aporte(m: Movimiento, q: Consulta): int
  {
    if m.turno != q.turno || (q.tipo.Some? && m.tipo != q.tipo.value) || (q.metodo.Some? && m.metodo != q.metodo.value)
    then 0
    else match q.campo
      case MONTO => m.monto
      case PROPINA => m.propina
      case MONTO_Y_PROPINA => m.monto + m.propina
  }

  function Suma(movs: seq<Movimiento>, q: Consulta): int
  {
    if |movs| == 0 then 0 else Suma(movs[..|movs| - 1], q) + Aporte(movs[|movs| - 1], q)
  }

  /** computeEfectivoEsperado of a shift. */
  function EfectivoEsperado(movs: seq<Movimiento>, turno: nat): int
  {
    Suma(movs, Consulta(turno, None, Some(EFECTIVO), MONTO_Y_PROPINA))
  }

  /** The tips of a shift, whatever the method. */
  function Propinas(movs: seq<Movimiento>, turno: nat): int
  {
    Suma(movs, Consulta(turno, None, None, PROPINA))
  }

  function TotalVentas(movs: seq<Movimiento>, turno: nat, metodo: Option<Metodo>): int
  {
    Suma(movs, Consulta(turno, Some(VENTA), metodo, MONTO))
  }

  function TotalTransacciones(txs: seq<Transaccion>, turno: nat, metodo: Option<Metodo>): int
  {
    if |txs| == 0 then 0
    else
      var t := txs[|txs| - 1];
      TotalTransacciones(txs[..|txs| - 1], turno, metodo)
      + if t.turno == turno && (metodo.Some? ==> t.metodo == metodo.value) then t.monto else 0
  }

  /** The accounts named by the sales of a shift. */
  function CuentasVendidas(movs: seq<Movimiento>, turno: nat): set<CuentaId>
  {
    if |movs| == 0 then {}
    else
      var m := movs[|movs| - 1];
      CuentasVendidas(movs[..|movs| - 1], turno)
      + if m.turno == turno && m.tipo == VENTA && m.cuenta.Some? then {m.cuenta.value} else {}
  }

  function VentasSinCuenta(movs: seq<Movimiento>, turno: nat): nat
  {
    if |movs| == 0 then 0
    else
      var m := movs[|movs| - 1];
      VentasSinCuenta(movs[..|movs| - 1], turno)
      + if m.turno == turno && m.tipo == VENTA && m.cuenta.None? then 1 else 0
  }

  function SoloVentas(movs: seq<Movimiento>): seq<Movimiento>
  {
    if |movs| == 0 then []
    else SoloVentas(movs[..|movs| - 1]) + if movs[|movs| - 1].tipo == VENTA then [movs[|movs| - 1]] else []
  }

  ghost predicate Vinculada(v: Movimiento, id: nat, t: Transaccion)
  {
    && v.transaccion == Some(id)
    && v.cuenta == Some(t.cuenta)
    && v.turno == t.turno
    && v.monto == t.monto
    && v.metodo == t.metodo
  }

  /** The k-th sale is the movement of the k-th Transaccion, and no other movement names one. */
  ghost predicate Concuerdan(movs: seq<Movimiento>, txs: seq<Transaccion>)
  {
    && |SoloVentas(movs)| == |txs|
    && (forall i :: 0 <= i < |txs| ==> Vinculada(SoloVentas(movs)[i], i, txs[i]))
    && (forall k :: 0 <= k < |movs| && movs[k].tipo != VENTA ==> movs[k].transaccion.None?)
  }

  lemma ConcuerdanAlCobrar(movs: seq<Movimiento>, txs: seq<Transaccion>, m: Movimiento, t: Transaccion)
    requires Concuerdan(movs, txs) && m.tipo == VENTA && Vinculada(m, |txs|, t)
    ensures Concuerdan(movs + [m], txs + [t])
  {
    assert (movs + [m])[..|movs|] == movs;
  }

  lemma ConcuerdanSinVenta(movs: seq<Movimiento>, txs: seq<Transaccion>, m: Movimiento)
    requires Concuerdan(movs, txs) && m.tipo != VENTA && m.transaccion.None?
    ensures Concuerdan(movs + [m], txs)
  {
    assert (movs + [m])[..|movs|] == movs;
  }

  /** Taking the last movement away, together with its Transaccion when it is a sale. */
  lemma ConcuerdanSinUltimo(movs: seq<Movimiento>, txs: seq<Transaccion>)
    requires Concuerdan(movs, txs) && |movs| > 0
    ensures var n := |movs| - 1;
            if movs[n].tipo == VENTA
            then |txs| > 0 && Vinculada(movs[n], |txs| - 1, txs[|txs| - 1]) && Concuerdan(movs[..n], txs[..|txs| - 1])
            else Concuerdan(movs[..n], txs)
  {
    var n := |movs| - 1;
    if movs[n].tipo == VENTA {
      assert SoloVentas(movs)[..|txs| - 1] == SoloVentas(movs[..n]);
      assert Vinculada(SoloVentas(movs)[|txs| - 1], |txs| - 1, txs[|txs| - 1]);
      forall i | 0 <= i < |txs| - 1
        ensures Vinculada(SoloVentas(movs[..n])[i], i, txs[..|txs| - 1][i])
      {
        assert Vinculada(SoloVentas(movs)[i], i, txs[i]);
      }
    } else {
      assert SoloVentas(movs) == SoloVentas(movs[..n]);
    }
  }

  ghost predicate VentaDe(m: Movimiento, turno: nat)
  {
    m.turno == turno && m.tipo == VENTA
  }

  /** The accounts the sales of a shift name, and the places of its sales that name none. */
  ghost function CuentasDeVentas(movs: seq<Movimiento>, turno: nat): set<CuentaId>
  {
    set k: nat | k < |movs| && VentaDe(movs[k], turno) && movs[k].cuenta.Some? :: movs[k].cuenta.value
  }

  ghost function VentasSueltas(movs: seq<Movimiento>, turno: nat): set<nat>
  {
    set k: nat | k < |movs| && VentaDe(movs[k], turno) && movs[k].cuenta.None?
  }

  lemma {:induction false} CadaCuentaUnaVez(movs: seq<Movimiento>, turno: nat)
    ensures CuentasVendidas(movs, turno) == CuentasDeVentas(movs, turno)
  {
    if |movs| != 0 {
      var n := |movs| - 1;
      CadaCuentaUnaVez(movs[..n], turno);
      forall c | c in CuentasDeVentas(movs, turno) ensures c in CuentasVendidas(movs, turno) {
        var k: nat :| k < |movs| && VentaDe(movs[k], turno) && movs[k].cuenta == Some(c);
        if k < n { assert VentaDe(movs[..n][k], turno) && movs[..n][k].cuenta == Some(c); }
      }
      forall c | c in CuentasDeVentas(movs[..n], turno) ensures c in CuentasDeVentas(movs, turno) {
        var k: nat :| k < n && VentaDe(movs[..n][k], turno) && movs[..n][k].cuenta == Some(c);
        assert VentaDe(movs[k], turno);
      }
    }
  }

  lemma {:induction false} CadaSueltaUnaVez(movs: seq<Movimiento>, turno: nat)
    ensures VentasSinCuenta(movs, turno) == |VentasSueltas(movs, turno)|
  {
    if |movs| != 0 {
      var n := |movs| - 1;
      CadaSueltaUnaVez(movs[..n], turno);
      assert VentasSueltas(movs, turno)
          == VentasSueltas(movs[..n], turno) + if VentaDe(movs[n], turno) && movs[n].cuenta.None? then {n} else {};
    }
  }

  /** What the summary adds up from movements is what the shift's transacciones add up to. */
  lemma {:induction false} ResumenCuadra(movs: seq<Movimiento>, txs: seq<Transaccion>, turno: nat,
                                         metodo: Option<Metodo>)
    requires Concuerdan(movs, txs)
    ensures TotalVentas(movs, turno, metodo) == TotalTransacciones(txs, turno, metodo)
    ensures CuentasVendidas(movs, turno) == set i | 0 <= i < |txs| && txs[i].turno == turno :: txs[i].cuenta
    ensures VentasSinCuenta(movs, turno) == 0
  {
    if |movs| == 0 {
    } else {
      var n := |movs| - 1;
      ConcuerdanSinUltimo(movs, txs);
      if movs[n].tipo == VENTA {
        var previas := txs[..|txs| - 1];
        ResumenCuadra(movs[..n], previas, turno, metodo);
        var cuentas := set i | 0 <= i < |txs| && txs[i].turno == turno :: txs[i].cuenta;
        var antes := set i | 0 <= i < |previas| && previas[i].turno == turno :: previas[i].cuenta;
        var t := txs[|txs| - 1];
        forall x | x in antes + if t.turno == turno then {t.cuenta} else {}
          ensures x in cuentas
        {
          if x in antes {
            var i :| 0 <= i < |previas| && previas[i].turno == turno && previas[i].cuenta == x;
            assert txs[i].turno == turno && txs[i].cuenta == x;
          }
        }
        forall x | x in cuentas
          ensures x in antes + if t.turno == turno then {t.cuenta} else {}
        {
          var i :| 0 <= i < |txs| && txs[i].turno == turno && txs[i].cuenta == x;
          if i < |previas| { assert previas[i].turno == turno && previas[i].cuenta == x; }
        }
      } else {
        ResumenCuadra(movs[..n], txs, turno, metodo);
      }
    }
  }

  /** The five methods split any sum of the shift without remainder. */
  lemma {:induction false} LosMetodosParten(movs: seq<Movimiento>, q: Consulta)
    requires q.metodo.None?
    ensures Suma(movs, q) == Suma(movs, q.(metodo := Some(EFECTIVO))) + Suma(movs, q.(metodo := Some(TARJETA)))
                             + Suma(movs, q.(metodo := Some(YAPE))) + Suma(movs, q.(metodo := Some(PLIN)))
                             + Suma(movs, q.(metodo := Some(TRANSFERENCIA)))
  {
    if |movs| != 0 {
      LosMetodosParten(movs[..|movs| - 1], q);
    }
  }

  /** actualizarTransaccion on the movements: every row that names the Transaccion takes the method. */
  function CorregirMovimientos(movs: seq<Movimiento>, id: nat, metodo: Metodo): (r: seq<Movimiento>)
    ensures |r| == |movs|
  {
    if |movs| == 0 then []
    else
      var m := movs[|movs| - 1];
      CorregirMovimientos(movs[..|movs| - 1], id, metodo)
        + [if m.transaccion == Some(id) then m.(metodo := metodo) else m]
  }

  function CorregirTransaccion(txs: seq<Transaccion>, id: nat, metodo: Metodo): seq<Transaccion>
    requires id < |txs|
  {
    txs[id := txs[id].(metodo := metodo)]
  }

  lemma {:induction false} CorregirPorFila(movs: seq<Movimiento>, id: nat, metodo: Metodo)
    ensures forall k :: 0 <= k < |movs| ==>
              CorregirMovimientos(movs, id, metodo)[k]
              == if movs[k].transaccion == Some(id) then movs[k].(metodo := metodo) else movs[k]
  {
    if |movs| != 0 {
      CorregirPorFila(movs[..|movs| - 1], id, metodo);
    }
  }

  lemma CorregirAgrega(movs: seq<Movimiento>, m: Movimiento, id: nat, metodo: Metodo)
    ensures CorregirMovimientos(movs + [m], id, metodo)
            == CorregirMovimientos(movs, id, metodo) + [if m.transaccion == Some(id) then m.(metodo := metodo) else m]
  {
    assert (movs + [m])[..|movs|] == movs;
  }

  lemma SoloVentasAgrega(movs: seq<Movimiento>, m: Movimiento)
    ensures SoloVentas(movs + [m]) == SoloVentas(movs) + if m.tipo == VENTA then [m] else []
  {
    assert (movs + [m])[..|movs|] == movs;
  }

  lemma {:induction false} CorregirConmuta(movs: seq<Movimiento>, id: nat, metodo: Metodo)
    ensures SoloVentas(CorregirMovimientos(movs, id, metodo)) == CorregirMovimientos(SoloVentas(movs), id, metodo)
  {
    if |movs| != 0 {
      var n := |movs| - 1;
      var m := movs[n];
      CorregirConmuta(movs[..n], id, metodo);
      SoloVentasAgrega(CorregirMovimientos(movs[..n], id, metodo),
                       if m.transaccion == Some(id) then m.(metodo := metodo) else m);
      if m.tipo == VENTA {
        CorregirAgrega(SoloVentas(movs[..n]), m, id, metodo);
      } else {
        assert SoloVentas(movs) == SoloVentas(movs[..n]);
      }
    }
  }

  lemma VinculadasAlCorregir(ventas: seq<Movimiento>, txs: seq<Transaccion>, id: nat, metodo: Metodo)
    requires |ventas| == |txs| && id < |txs| && forall i :: 0 <= i < |txs| ==> Vinculada(ventas[i], i, txs[i])
    ensures forall i :: 0 <= i < |txs| ==>
              Vinculada(CorregirMovimientos(ventas, id, metodo)[i], i, CorregirTransaccion(txs, id, metodo)[i])
  {
    CorregirPorFila(ventas, id, metodo);
  }

  lemma SinVentasNadieNombra(movs: seq<Movimiento>, id: nat, metodo: Metodo)
    requires forall k :: 0 <= k < |movs| && movs[k].tipo != VENTA ==> movs[k].transaccion.None?
    ensures var r := CorregirMovimientos(movs, id, metodo);
            forall k :: 0 <= k < |r| && r[k].tipo != VENTA ==> r[k].transaccion.None?
  {
    CorregirPorFila(movs, id, metodo);
  }

  lemma ConcuerdanAlCorregir(movs: seq<Movimiento>, txs: seq<Transaccion>, id: nat, metodo: Metodo)
    requires Concuerdan(movs, txs) && id < |txs|
    ensures Concuerdan(CorregirMovimientos(movs, id, metodo), CorregirTransaccion(txs, id, metodo))
  {
    CorregirConmuta(movs, id, metodo);
    VinculadasAlCorregir(SoloVentas(movs), txs, id, metodo);
    SinVentasNadieNombra(movs, id, metodo);
  }

  lemma {:induction false} NadieNombra(movs: seq<Movimiento>, id: nat, metodo: Metodo)
    requires forall k :: 0 <= k < |movs| ==> movs[k].transaccion != Some(id)
    ensures CorregirMovimientos(movs, id, metodo) == movs
  {
    if |movs| != 0 {
      NadieNombra(movs[..|movs| - 1], id, metodo);
    }
  }

  lemma {:induction false} VentasNombranMenores(movs: seq<Movimiento>, txs: seq<Transaccion>, k: nat)
    requires Concuerdan(movs, txs) && k < |movs| && movs[k].transaccion.Some?
    ensures movs[k].transaccion.value < |txs|
  {
    ConcuerdanSinUltimo(movs, txs);
    var n := |movs| - 1;
    if k < n {
      VentasNombranMenores(movs[..n], if movs[n].tipo == VENTA then txs[..|txs| - 1] else txs, k);
    }
  }

  function EnEfectivo(metodo: Metodo): int { if metodo == EFECTIVO then 1 else 0 }

  /** Correcting a method moves exactly the sale's amount and tip in or out of the expected cash. */
  lemma {:induction false} CorregirMueveMontoYPropina(movs: seq<Movimiento>, txs: seq<Transaccion>, id: nat,
                                                      metodo: Metodo, turno: nat)
    requires Concuerdan(movs, txs) && id < |txs|
    ensures var venta := SoloVentas(movs)[id];
            EfectivoEsperado(CorregirMovimientos(movs, id, metodo), turno) ==
            EfectivoEsperado(movs, turno)
            + if turno == txs[id].turno
              then (venta.monto + venta.propina) * (EnEfectivo(metodo) - EnEfectivo(txs[id].metodo)) else 0
  {
    var n := |movs| - 1;
    ConcuerdanSinUltimo(movs, txs);
    var r := CorregirMovimientos(movs, id, metodo);
    assert r[..n] == CorregirMovimientos(movs[..n], id, metodo);
    if movs[n].tipo == VENTA {
      if id == |txs| - 1 {
        forall k | 0 <= k < n ensures movs[..n][k].transaccion != Some(id) {
          if movs[k].transaccion.Some? { VentasNombranMenores(movs[..n], txs[..|txs| - 1], k); }
        }
        NadieNombra(movs[..n], id, metodo);
      } else {
        CorregirMueveMontoYPropina(movs[..n], txs[..|txs| - 1], id, metodo, turno);
      }
    } else {
      CorregirMueveMontoYPropina(movs[..n], txs, id, metodo, turno);
    }
  }
}
