/**
 The money rules of an account: no payment overcharges the snapshot it was accepted on, one discount
 per account shown once in the drawer, and a faithful `pendiente` in every event.

 `totales[i]` is the gross total of the snapshot on which transaccion `i` was accepted.
 */
module Saldos {
  import opened Comun
  import opened Tablas
  import opened Cobros

  /** The discount column of an account's VENTA movements, added up. */
  function DescuentoEnCascada(movs: seq<Movimiento>, c: CuentaId): int
  {
    if |movs| == 0 then 0
    else
      var m := movs[|movs| - 1];
      DescuentoEnCascada(movs[..|movs| - 1], c) + if m.tipo == VENTA && m.cuenta == Some(c) then m.descuento else 0
  }

  /** The discount of the account's latest payment, 0 before the first one. */
  function DescuentoCobrado(txs: seq<Transaccion>, c: CuentaId): int
  {
    if |txs| == 0 then 0
    else if txs[|txs| - 1].cuenta == c then txs[|txs| - 1].descuento
    else DescuentoCobrado(txs[..|txs| - 1], c)
  }

  function SoloPagos(outbox: seq<Evento>): seq<Evento>
  {
    if |outbox| == 0 then []
    else SoloPagos(outbox[..|outbox| - 1])
         + if outbox[|outbox| - 1].PagoRegistrado? then [outbox[|outbox| - 1]] else []
  }

  /** Once transaccion i is in, its account has not paid more than its snapshot owed, plus a cent. */
  ghost predicate Acotado(txs: seq<Transaccion>, totales: seq<int>, i: nat)
    requires i < |txs| == |totales|
  {
    Pagado(txs[..i + 1], txs[i].cuenta) <= Max0(totales[i] - txs[i].descuento) + TOLERANCIA
  }

  /** The event of transaccion i announces exactly what that payment left owing. */
  ghost predicate EventoFiel(e: Evento, txs: seq<Transaccion>, totales: seq<int>, i: nat)
    requires i < |txs| == |totales|
  {
    && e.PagoRegistrado? && e.transaccion == i && e.cuenta == txs[i].cuenta && e.monto == txs[i].monto
    && e.pendiente == Max0(totales[i] - txs[i].descuento - Pagado(txs[..i + 1], txs[i].cuenta))
  }

  ghost predicate UnDescuentoPorCuenta(txs: seq<Transaccion>)
  {
    forall i :: 0 <= i < |txs| ==> TodosConDescuento(txs, txs[i].cuenta, txs[i].descuento)
  }

  ghost predicate SaldosCuadran(c: Caja, totales: seq<int>)
  {
    var txs, eventos := c.transacciones, SoloPagos(c.outbox);
    && |totales| == |txs| == |eventos|
    && MontosPositivos(txs)
    && UnDescuentoPorCuenta(txs)
    && (forall i :: 0 <= i < |txs| ==> Acotado(txs, totales, i))
    && (forall i :: 0 <= i < |txs| ==> EventoFiel(eventos[i], txs, totales, i))
    && (forall cuenta :: DescuentoEnCascada(c.movimientos, cuenta) == DescuentoCobrado(txs, cuenta))
  }

  lemma {:induction false} DescuentoCobradoEsElDeTodos(txs: seq<Transaccion>, c: CuentaId)
    requires UnDescuentoPorCuenta(txs)
    ensures TienePagos(txs, c) ==> TodosConDescuento(txs, c, DescuentoCobrado(txs, c))
    ensures !TienePagos(txs, c) ==> DescuentoCobrado(txs, c) == 0
  {
    if |txs| != 0 {
      var n := |txs| - 1;
      if txs[n].cuenta == c {
        assert TodosConDescuento(txs, txs[n].cuenta, txs[n].descuento);
      } else {
        forall i | 0 <= i < n ensures TodosConDescuento(txs[..n], txs[..n][i].cuenta, txs[..n][i].descuento) {
          assert TodosConDescuento(txs, txs[i].cuenta, txs[i].descuento);
        }
        DescuentoCobradoEsElDeTodos(txs[..n], c);
        if TienePagos(txs, c) {
          var i :| 0 <= i < |txs| && txs[i].cuenta == c;
          assert txs[..n][i].cuenta == c;
        }
        if TienePagos(txs[..n], c) {
          var i :| 0 <= i < n && txs[..n][i].cuenta == c;
          assert txs[i].cuenta == c;
          forall j | 0 <= j < |txs| && txs[j].cuenta == c ensures txs[j].descuento == DescuentoCobrado(txs, c) {
            assert txs[..n][j].cuenta == c;
          }
        }
      }
    }
  }

  lemma UnDescuentoAlAsentar(txs: seq<Transaccion>, t: Transaccion)
    requires UnDescuentoPorCuenta(txs) && TodosConDescuento(txs, t.cuenta, t.descuento)
    ensures UnDescuentoPorCuenta(txs + [t])
  {
    forall i | 0 <= i < |txs| + 1
      ensures TodosConDescuento(txs + [t], (txs + [t])[i].cuenta, (txs + [t])[i].descuento)
    {
      if i < |txs| { assert TodosConDescuento(txs, txs[i].cuenta, txs[i].descuento); }
    }
  }

  /** What booking one amount needs to keep every money rule. */
  ghost predicate Asentable(c: Caja, ctx: Contexto, p: Parte, descuentoMov: int, pendiente: int)
  {
    var pagado := Pagado(c.transacciones, ctx.cuenta);
    && p.monto > 0
    && TodosConDescuento(c.transacciones, ctx.cuenta, ctx.descuento)
    && pagado + p.monto <= Neto(ctx) + TOLERANCIA
    && descuentoMov == (if pagado == 0 then ctx.descuento else 0)
    && pendiente == Max0(ctx.remota.total - ctx.descuento - pagado - p.monto)
  }

  lemma CascadaAgrega(movs: seq<Movimiento>, m: Movimiento, c: CuentaId)
    ensures DescuentoEnCascada(movs + [m], c)
            == DescuentoEnCascada(movs, c) + if m.tipo == VENTA && m.cuenta == Some(c) then m.descuento else 0
  {
    assert (movs + [m])[..|movs|] == movs;
  }

  lemma CobradoAgrega(txs: seq<Transaccion>, t: Transaccion, c: CuentaId)
    ensures DescuentoCobrado(txs + [t], c) == if t.cuenta == c then t.descuento else DescuentoCobrado(txs, c)
  {
    assert (txs + [t])[..|txs|] == txs;
  }

  /** The first payment of an account shows its discount, the later ones find it shown. */
  lemma DescuentoUnaSolaVez(txs: seq<Transaccion>, c: CuentaId, descuento: int)
    requires MontosPositivos(txs) && UnDescuentoPorCuenta(txs) && TodosConDescuento(txs, c, descuento)
    ensures DescuentoCobrado(txs, c) + (if Pagado(txs, c) == 0 then descuento else 0) == descuento
  {
    SinPagosNadaPagado(txs, c);
    DescuentoCobradoEsElDeTodos(txs, c);
    if TienePagos(txs, c) {
      var i :| 0 <= i < |txs| && txs[i].cuenta == c;
      assert txs[i].descuento == descuento == DescuentoCobrado(txs, c);
    }
  }

  lemma CascadaAlAsentar(c: Caja, ctx: Contexto, p: Parte, descuentoMov: int, pendiente: int, cuenta: CuentaId)
    requires MontosPositivos(c.transacciones) && UnDescuentoPorCuenta(c.transacciones)
    requires Asentable(c, ctx, p, descuentoMov, pendiente)
    requires DescuentoEnCascada(c.movimientos, cuenta) == DescuentoCobrado(c.transacciones, cuenta)
    ensures var r := Asentar(c, ctx, p, descuentoMov, pendiente);
            DescuentoEnCascada(r.movimientos, cuenta) == DescuentoCobrado(r.transacciones, cuenta)
  {
    var r := Asentar(c, ctx, p, descuentoMov, pendiente);
    CascadaAgrega(c.movimientos, r.movimientos[|c.movimientos|], cuenta);
    CobradoAgrega(c.transacciones, r.transacciones[|c.transacciones|], cuenta);
    DescuentoUnaSolaVez(c.transacciones, ctx.cuenta, ctx.descuento);
  }

  lemma FilaSeConserva(txs: seq<Transaccion>, totales: seq<int>, t: Transaccion, total: int, e: Evento, i: nat)
    requires i < |txs| == |totales|
    ensures Acotado(txs + [t], totales + [total], i) == Acotado(txs, totales, i)
    ensures EventoFiel(e, txs + [t], totales + [total], i) == EventoFiel(e, txs, totales, i)
  {
    assert (txs + [t])[..i + 1] == txs[..i + 1];
  }

  lemma FilaNueva(txs: seq<Transaccion>, totales: seq<int>, t: Transaccion, total: int, e: Evento)
    requires |txs| == |totales|
    requires e.PagoRegistrado? && e.transaccion == |txs| && e.cuenta == t.cuenta && e.monto == t.monto
    requires Pagado(txs, t.cuenta) + t.monto <= Max0(total - t.descuento) + TOLERANCIA
    requires e.pendiente == Max0(total - t.descuento - Pagado(txs, t.cuenta) - t.monto)
    ensures Acotado(txs + [t], totales + [total], |txs|)
    ensures EventoFiel(e, txs + [t], totales + [total], |txs|)
  {
    PagadoAgrega(txs, t, t.cuenta);
    assert (txs + [t])[..|txs| + 1] == txs + [t];
  }

  lemma SoloPagosAgrega(outbox: seq<Evento>, e: Evento)
    ensures SoloPagos(outbox + [e]) == SoloPagos(outbox) + if e.PagoRegistrado? then [e] else []
  {
    assert (outbox + [e])[..|outbox|] == outbox;
  }

  lemma PorFilaAlAsentar(c: Caja, totales: seq<int>, ctx: Contexto, p: Parte, descuentoMov: int, pendiente: int)
    requires SaldosCuadran(c, totales) && Asentable(c, ctx, p, descuentoMov, pendiente)
    ensures var r := Asentar(c, ctx, p, descuentoMov, pendiente);
            var nuevos, eventos := totales + [ctx.remota.total], SoloPagos(r.outbox);
            && |eventos| == |r.transacciones|
            && (forall i :: 0 <= i < |r.transacciones| ==> Acotado(r.transacciones, nuevos, i))
            && (forall i :: 0 <= i < |r.transacciones| ==> EventoFiel(eventos[i], r.transacciones, nuevos, i))
  {
    var r := Asentar(c, ctx, p, descuentoMov, pendiente);
    var txs, n := c.transacciones, |c.transacciones|;
    var t, e, total := r.transacciones[n], r.outbox[|c.outbox|], ctx.remota.total;
    SoloPagosAgrega(c.outbox, e);
    FilaNueva(txs, totales, t, total, e);
    forall i | 0 <= i <= n
      ensures Acotado(txs + [t], totales + [total], i)
      ensures EventoFiel(SoloPagos(r.outbox)[i], txs + [t], totales + [total], i)
    {
      if i < n {
        FilaSeConserva(txs, totales, t, total, SoloPagos(c.outbox)[i], i);
        assert Acotado(txs, totales, i) && EventoFiel(SoloPagos(c.outbox)[i], txs, totales, i);
      }
    }
  }

  lemma SaldosAlAsentar(c: Caja, totales: seq<int>, ctx: Contexto, p: Parte, descuentoMov: int, pendiente: int)
    requires SaldosCuadran(c, totales) && Asentable(c, ctx, p, descuentoMov, pendiente)
    ensures SaldosCuadran(Asentar(c, ctx, p, descuentoMov, pendiente), totales + [ctx.remota.total])
  {
    PorFilaAlAsentar(c, totales, ctx, p, descuentoMov, pendiente);
    UnDescuentoAlAsentar(c.transacciones, Asentar(c, ctx, p, descuentoMov, pendiente).transacciones[|c.transacciones|]);
    forall cuenta
      ensures DescuentoEnCascada(Asentar(c, ctx, p, descuentoMov, pendiente).movimientos, cuenta)
              == DescuentoCobrado(Asentar(c, ctx, p, descuentoMov, pendiente).transacciones, cuenta)
    {
      CascadaAlAsentar(c, ctx, p, descuentoMov, pendiente, cuenta);
    }
  }

  function Repetir<T>(x: T, n: nat): (r: seq<T>)
    ensures |r| == n && forall i :: 0 <= i < n ==> r[i] == x
  {
    seq(n, _ => x)
  }

  /** The figures registrarPago would find after the first parts. */
  lemma CifrasDelTramo(c: Caja, ctx: Contexto, primera: bool, partes: seq<Parte>)
    requires MontosPositivos(c.transacciones) && PartesPositivas(partes)
    requires TodosConDescuento(c.transacciones, ctx.cuenta, ctx.descuento)
    ensures var previas := TrasTramos(c, ctx, primera, PendienteAntes(c.transacciones, ctx), partes).transacciones;
            && TodosConDescuento(previas, ctx.cuenta, ctx.descuento)
            && 0 <= Pagado(c.transacciones, ctx.cuenta)
            && Pagado(previas, ctx.cuenta) == Pagado(c.transacciones, ctx.cuenta) + SumaPartes(partes)
            && (if |partes| == 0 then SumaPartes(partes) == 0 else SumaPartes(partes) > 0)
  {
    PendienteTrasTramos(c, ctx, primera, partes);
    DescuentoTrasTramos(c, ctx, primera, PendienteAntes(c.transacciones, ctx), partes);
    SinPagosNadaPagado(c.transacciones, ctx.cuenta);
    if |partes| > 0 { SumaPositiva(partes); }
  }

  /** After the first parts the next one is still bookable, with the values the loop computes for it. */
  lemma TramoAsentable(c: Caja, ctx: Contexto, partes: seq<Parte>)
    requires MontosPositivos(c.transacciones) && PartesPositivas(partes) && |partes| > 0
    requires TodosConDescuento(c.transacciones, ctx.cuenta, ctx.descuento)
    requires PendienteAntes(c.transacciones, ctx) > 0
    requires SumaPartes(partes) <= PendienteAntes(c.transacciones, ctx) + TOLERANCIA
    ensures var antes, primera := PendienteAntes(c.transacciones, ctx), Pagado(c.transacciones, ctx.cuenta) == 0;
            var n := |partes| - 1;
            Asentable(TrasTramos(c, ctx, primera, antes, partes[..n]), ctx, partes[n],
                      if primera && n == 0 then ctx.descuento else 0, PendienteTras(antes, partes))
  {
    var antes, primera := PendienteAntes(c.transacciones, ctx), Pagado(c.transacciones, ctx.cuenta) == 0;
    var n := |partes| - 1;
    CifrasDelTramo(c, ctx, primera, partes[..n]);
    assert PendienteTras(antes, partes) == Max0(antes - SumaPartes(partes[..n]) - partes[n].monto) by {
      BucleAcotado(antes, partes);
    }
  }

  /** The loop of a combined payment keeps the rules after every part. */
  lemma {:induction false} SaldosTrasTramos(c: Caja, totales: seq<int>, ctx: Contexto, partes: seq<Parte>)
    requires SaldosCuadran(c, totales) && PartesPositivas(partes)
    requires TodosConDescuento(c.transacciones, ctx.cuenta, ctx.descuento)
    requires PendienteAntes(c.transacciones, ctx) > 0
    requires SumaPartes(partes) <= PendienteAntes(c.transacciones, ctx) + TOLERANCIA
    ensures SaldosCuadran(TrasTramos(c, ctx, Pagado(c.transacciones, ctx.cuenta) == 0,
                                     PendienteAntes(c.transacciones, ctx), partes),
                          totales + Repetir(ctx.remota.total, |partes|))
  {
    var antes, primera := PendienteAntes(c.transacciones, ctx), Pagado(c.transacciones, ctx.cuenta) == 0;
    if |partes| == 0 {
      assert totales + Repetir(ctx.remota.total, 0) == totales;
    } else {
      var n := |partes| - 1;
      assert SumaPartes(partes[..n]) <= SumaPartes(partes);
      SaldosTrasTramos(c, totales, ctx, partes[..n]);
      TramoAsentable(c, ctx, partes);
      SaldosAlAsentar(TrasTramos(c, ctx, primera, antes, partes[..n]), totales + Repetir(ctx.remota.total, n), ctx,
                      partes[n], if primera && n == 0 then ctx.descuento else 0, PendienteTras(antes, partes));
      assert totales + Repetir(ctx.remota.total, n) + [ctx.remota.total]
             == totales + Repetir(ctx.remota.total, |partes|);
    }
  }

  /** Both transactions keep the rules, whatever the snapshot they were handed. */
  lemma SaldosAlCobrar(c: Caja, totales: seq<int>, ctx: Contexto, partes: seq<Parte>)
    requires SaldosCuadran(c, totales) && PartesPositivas(partes)
    ensures CombinadoTx(c, ctx, partes).Success? ==>
              SaldosCuadran(CombinadoTx(c, ctx, partes).value.caja, totales + Repetir(ctx.remota.total, |partes|))
    ensures |partes| == 1 ==> CombinadoTx(c, ctx, partes) == PagoTx(c, ctx, partes[0])
  {
    DescuentoAceptadoSiiUniforme(c.transacciones, ctx.cuenta, ctx.descuento);
    if CombinadoTx(c, ctx, partes).Success? {
      var base := c.(cuentas := Proyectar(c.cuentas, ctx));
      assert SaldosCuadran(base, totales);
      SaldosTrasTramos(base, totales, ctx, partes);
    }
    if |partes| == 1 {
      UnaParte(c, ctx, partes[0]);
      assert partes == [partes[0]];
    }
  }

  /** A single payment is the combined payment of one part. */
  lemma UnaParte(c: Caja, ctx: Contexto, p: Parte)
    ensures CombinadoTx(c, ctx, [p]) == PagoTx(c, ctx, p)
  {
    var antes, primera := PendienteAntes(c.transacciones, ctx), Pagado(c.transacciones, ctx.cuenta) == 0;
    var base := c.(cuentas := Proyectar(c.cuentas, ctx));
    assert [p][..0] == [];
    assert SumaPartes([p]) == p.monto;
    assert PendienteTras(antes, []) == antes;
    assert PendienteTras(antes, [p]) == Max0(antes - p.monto);
    assert TrasTramos(base, ctx, primera, antes, []) == base;
    assert TrasTramos(base, ctx, primera, antes, [p])
        == Asentar(base, ctx, p, if primera then ctx.descuento else 0, Max0(antes - p.monto));
  }

  /* Correcting a method touches neither amounts nor discounts. */

  lemma {:induction false} PagadoCorregido(txs: seq<Transaccion>, otras: seq<Transaccion>, c: CuentaId)
    requires |txs| == |otras|
    requires forall i :: 0 <= i < |txs| ==>
               otras[i].cuenta == txs[i].cuenta && otras[i].monto == txs[i].monto
                 && otras[i].descuento == txs[i].descuento
    ensures Pagado(otras, c) == Pagado(txs, c)
    ensures DescuentoCobrado(otras, c) == DescuentoCobrado(txs, c)
  {
    if |txs| != 0 {
      PagadoCorregido(txs[..|txs| - 1], otras[..|txs| - 1], c);
    }
  }

  lemma SaldosAlCorregir(c: Caja, otra: Caja, totales: seq<int>)
    requires SaldosCuadran(c, totales) && otra.outbox == c.outbox
    requires |otra.transacciones| == |c.transacciones|
    requires forall i :: 0 <= i < |c.transacciones| ==>
               && otra.transacciones[i].cuenta == c.transacciones[i].cuenta
               && otra.transacciones[i].monto == c.transacciones[i].monto
               && otra.transacciones[i].descuento == c.transacciones[i].descuento
    requires forall cuenta :: DescuentoEnCascada(otra.movimientos, cuenta) == DescuentoEnCascada(c.movimientos, cuenta)
    ensures SaldosCuadran(otra, totales)
  {
    var txs, otras := c.transacciones, otra.transacciones;
    forall i | 0 <= i < |txs|
      ensures Acotado(otras, totales, i) && EventoFiel(SoloPagos(c.outbox)[i], otras, totales, i)
      ensures TodosConDescuento(otras, otras[i].cuenta, otras[i].descuento)
    {
      PagadoCorregido(txs[..i + 1], otras[..i + 1], txs[i].cuenta);
      assert Acotado(txs, totales, i) && EventoFiel(SoloPagos(c.outbox)[i], txs, totales, i);
      assert TodosConDescuento(txs, txs[i].cuenta, txs[i].descuento);
    }
    forall cuenta ensures DescuentoEnCascada(otra.movimientos, cuenta) == DescuentoCobrado(otras, cuenta) {
      PagadoCorregido(txs, otras, cuenta);
    }
  }

  lemma {:induction false} CascadaCorregida(movs: seq<Movimiento>, otros: seq<Movimiento>, c: CuentaId)
    requires |movs| == |otros|
    requires forall k :: 0 <= k < |movs| ==>
               otros[k].tipo == movs[k].tipo && otros[k].cuenta == movs[k].cuenta
                 && otros[k].descuento == movs[k].descuento
    ensures DescuentoEnCascada(otros, c) == DescuentoEnCascada(movs, c)
  {
    if |movs| != 0 {
      CascadaCorregida(movs[..|movs| - 1], otros[..|movs| - 1], c);
    }
  }

  lemma {:induction false} SinMasPagos(txs: seq<Transaccion>, i: nat, c: CuentaId)
    requires i <= |txs| && forall j :: i <= j < |txs| ==> txs[j].cuenta != c
    ensures Pagado(txs, c) == Pagado(txs[..i], c)
    decreases |txs| - i
  {
    if i < |txs| {
      SinMasPagos(txs, i + 1, c);
      assert txs[..i + 1][..i] == txs[..i];
    } else {
      assert txs[..i] == txs;
    }
  }

  /** In every such state an account has paid at most what its latest accepted snapshot owed, plus a cent. */
  lemma NuncaCobraDeMas(c: Caja, totales: seq<int>, i: nat)
    requires SaldosCuadran(c, totales) && i < |c.transacciones|
    requires forall j :: i < j < |c.transacciones| ==> c.transacciones[j].cuenta != c.transacciones[i].cuenta
    ensures Pagado(c.transacciones, c.transacciones[i].cuenta)
            <= Max0(totales[i] - c.transacciones[i].descuento) + TOLERANCIA
  {
    SinMasPagos(c.transacciones, i + 1, c.transacciones[i].cuenta);
    assert Acotado(c.transacciones, totales, i);
  }
}
