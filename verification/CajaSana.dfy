/** The table invariants of the cash desk, and that every database transaction of the service keeps them. */
module CajasSanas {
  import opened Comun
  import opened Tablas
  import opened Cobros
  import opened Ventas
  import opened Saldos
  import opened Turnos
  import opened Proyeccion
  import opened Protocolo

  ghost predicate CajaSana(c: Caja, totales: seq<int>, reabiertas: set<CuentaId>)
  {
    CajonEnOrden(c) && SaldosCuadran(c, totales) && ProyeccionFiel(c, totales, reabiertas)
  }

  ghost predicate OrdenSana(o: Orden)
  {
    |PartesDe(o)| >= 1 && PartesPositivas(PartesDe(o)) && PropinasValidas(PartesDe(o))
  }

  /** Payments are only appended; correcting one never touches its account, amount or discount. */
  ghost predicate HistoriaCrece(txs: seq<Transaccion>, otras: seq<Transaccion>)
  {
    && |txs| <= |otras|
    && (forall i :: 0 <= i < |txs| ==>
          && otras[i].cuenta == txs[i].cuenta && otras[i].monto == txs[i].monto
             && otras[i].descuento == txs[i].descuento)
    && MontosPositivos(otras) && UnDescuentoPorCuenta(otras)
  }

  lemma {:induction false} PagadoNoBaja(txs: seq<Transaccion>, n: nat, c: CuentaId)
    requires MontosPositivos(txs) && n <= |txs|
    ensures Pagado(txs[..n], c) <= Pagado(txs, c)
    decreases |txs| - n
  {
    if n == |txs| {
      assert txs[..n] == txs;
    } else {
      PagadoNoBaja(txs, n + 1, c);
      assert txs[..n + 1][..n] == txs[..n];
    }
  }

  lemma AlCrecer(txs: seq<Transaccion>, otras: seq<Transaccion>, c: CuentaId)
    requires HistoriaCrece(txs, otras) && UnDescuentoPorCuenta(txs) && TienePagos(txs, c)
    ensures TienePagos(otras, c)
    ensures Pagado(txs, c) <= Pagado(otras, c)
    ensures DescuentoCobrado(txs, c) == DescuentoCobrado(otras, c)
  {
    var i :| 0 <= i < |txs| && txs[i].cuenta == c;
    assert otras[i].cuenta == c;
    DescuentoCobradoEsElDeTodos(txs, c);
    DescuentoCobradoEsElDeTodos(otras, c);
    PagadoCorregido(txs, otras[..|txs|], c);
    PagadoNoBaja(otras, |txs|, c);
  }

  lemma CobroEsCombinado(c: Caja, ctx: Contexto, o: Orden)
    ensures CobroTx(c, ctx, o) == CombinadoTx(c, ctx, PartesDe(o))
  {
    if o.Simple? { UnaParte(c, ctx, ParteSimple(o.comando)); }
  }

  lemma {:induction false} UltimoTotalDelBloque(txs: seq<Transaccion>, totales: seq<int>, n: nat, c: CuentaId,
                                                cuenta: CuentaId)
    requires n <= |txs| == |totales|
    requires forall i :: n <= i < |txs| ==> txs[i].cuenta == cuenta && totales[i] == totales[|txs| - 1]
    ensures UltimoTotal(txs, totales, c)
            == if c == cuenta && n < |txs| then totales[|txs| - 1] else UltimoTotal(txs[..n], totales[..n], c)
    decreases |txs|
  {
    if n == |txs| {
      assert txs[..n] == txs && totales[..n] == totales;
    } else if c != cuenta {
      var m := |txs| - 1;
      UltimoTotalDelBloque(txs[..m], totales[..m], n, c, cuenta);
      assert txs[..m][..n] == txs[..n] && totales[..m][..n] == totales[..n];
    }
  }

  lemma BloqueDeCuenta(txs: seq<Transaccion>, otras: seq<Transaccion>, totales: seq<int>, total: int,
                       cuenta: CuentaId, c: CuentaId)
    requires |txs| == |totales| && |txs| < |otras| && otras[..|txs|] == txs
    requires forall i :: |txs| <= i < |otras| ==> otras[i].cuenta == cuenta
    ensures UltimoTotal(otras, totales + Repetir(total, |otras| - |txs|), c)
            == if c == cuenta then total else UltimoTotal(txs, totales, c)
    ensures c != cuenta && TienePagos(otras, c) ==> TienePagos(txs, c)
  {
    var nuevos := totales + Repetir(total, |otras| - |txs|);
    UltimoTotalDelBloque(otras, nuevos, |txs|, c, cuenta);
    assert nuevos[..|txs|] == totales;
    if c != cuenta && TienePagos(otras, c) {
      var i :| 0 <= i < |otras| && otras[i].cuenta == c;
      assert txs[i].cuenta == c;
    }
  }

  lemma ProyeccionTrasBloque(c: Caja, r: Caja, totales: seq<int>, reabiertas: set<CuentaId>, ctx: Contexto)
    requires ProyeccionFiel(c, totales, reabiertas) && r.cuentas == Proyectar(c.cuentas, ctx)
    requires |r.transacciones| > |c.transacciones| && r.transacciones[..|c.transacciones|] == c.transacciones
    requires forall i :: |c.transacciones| <= i < |r.transacciones| ==> r.transacciones[i].cuenta == ctx.cuenta
    ensures ProyeccionFiel(r, totales + Repetir(ctx.remota.total, |r.transacciones| - |c.transacciones|),
                           reabiertas - {ctx.cuenta})
  {
    var nuevos := totales + Repetir(ctx.remota.total, |r.transacciones| - |c.transacciones|);
    forall cuenta | TienePagos(r.transacciones, cuenta)
      ensures cuenta in r.cuentas
      ensures r.cuentas[cuenta].estado == ABIERTA && cuenta !in reabiertas - {ctx.cuenta} ==>
                r.cuentas[cuenta].total == UltimoTotal(r.transacciones, nuevos, cuenta)
    {
      BloqueDeCuenta(c.transacciones, r.transacciones, totales, ctx.remota.total, ctx.cuenta, cuenta);
    }
  }

  /** An accepted command leaves the row ABIERTA with the total it was accepted on. */
  lemma ProyeccionAlCobrar(c: Caja, totales: seq<int>, reabiertas: set<CuentaId>, ctx: Contexto, partes: seq<Parte>)
    requires ProyeccionFiel(c, totales, reabiertas) && |partes| > 0
    requires CombinadoTx(c, ctx, partes).Success?
    ensures ProyeccionFiel(CombinadoTx(c, ctx, partes).value.caja, totales + Repetir(ctx.remota.total, |partes|),
                           reabiertas - {ctx.cuenta})
  {
    var r, base := CombinadoTx(c, ctx, partes).value.caja, c.(cuentas := Proyectar(c.cuentas, ctx));
    var primera, antes := Pagado(c.transacciones, ctx.cuenta) == 0, PendienteAntes(c.transacciones, ctx);
    assert r == TrasTramos(base, ctx, primera, antes, partes);
    TramosAgregan(base, ctx, primera, antes, partes);
    TramosSuman(base, ctx, primera, antes, partes);
    ProyeccionTrasBloque(c, r, totales, reabiertas, ctx);
  }

  lemma CajaAlCobrar(c: Caja, totales: seq<int>, reabiertas: set<CuentaId>, ctx: Contexto, o: Orden)
    requires CajaSana(c, totales, reabiertas) && OrdenSana(o) && ctx.turno < |c.turnos|
    requires CobroTx(c, ctx, o).Success?
    ensures var r := CobroTx(c, ctx, o).value.caja;
            && CajaSana(r, totales + Repetir(ctx.remota.total, |PartesDe(o)|), reabiertas - {ctx.cuenta})
            && HistoriaCrece(c.transacciones, r.transacciones)
            && |r.transacciones| == |c.transacciones| + |PartesDe(o)|
            && r.turnos == c.turnos && r.pendientes == c.pendientes
  {
    var partes := PartesDe(o);
    CobroEsCombinado(c, ctx, o);
    CajonAlCobrar(c, ctx, partes);
    SaldosAlCobrar(c, totales, ctx, partes);
    ProyeccionAlCobrar(c, totales, reabiertas, ctx, partes);
    var base := c.(cuentas := Proyectar(c.cuentas, ctx));
    var primera, antes := Pagado(c.transacciones, ctx.cuenta) == 0, PendienteAntes(c.transacciones, ctx);
    TramosAgregan(base, ctx, primera, antes, partes);
    TramosSuman(base, ctx, primera, antes, partes);
    var r := CobroTx(c, ctx, o).value.caja;
    forall i | 0 <= i < |c.transacciones| ensures r.transacciones[i] == c.transacciones[i] {
      assert r.transacciones[..|c.transacciones|][i] == c.transacciones[i];
    }
  }

  /** Movements and events that are not sales leave every account alone. */
  lemma SaldosSinVenta(c: Caja, otra: Caja, totales: seq<int>)
    requires SaldosCuadran(c, totales) && otra.transacciones == c.transacciones
    requires otra.movimientos == c.movimientos
             || (exists m: Movimiento :: m.tipo != VENTA && otra.movimientos == c.movimientos + [m])
    requires otra.outbox == c.outbox || (exists e: Evento :: !e.PagoRegistrado? && otra.outbox == c.outbox + [e])
    ensures SaldosCuadran(otra, totales)
  {
    assert SoloPagos(otra.outbox) == SoloPagos(c.outbox) by {
      if otra.outbox != c.outbox {
        var e: Evento :| !e.PagoRegistrado? && otra.outbox == c.outbox + [e];
        SoloPagosAgrega(c.outbox, e);
      }
    }
    forall cuenta ensures DescuentoEnCascada(otra.movimientos, cuenta) == DescuentoEnCascada(c.movimientos, cuenta) {
      if otra.movimientos != c.movimientos {
        var m: Movimiento :| m.tipo != VENTA && otra.movimientos == c.movimientos + [m];
        assert (c.movimientos + [m])[..|c.movimientos|] == c.movimientos;
      }
    }
  }

  lemma CajaAlAbrir(c: Caja, totales: seq<int>, reabiertas: set<CuentaId>, sede: SedeId, fondo: int)
    requires CajaSana(c, totales, reabiertas) && AperturaTx(c, sede, fondo).Some?
    ensures CajaSana(AperturaTx(c, sede, fondo).value, totales, reabiertas)
  {
    var r := AperturaTx(c, sede, fondo).value;
    CajonAlAbrir(c, sede, fondo);
    var m, e := r.movimientos[|c.movimientos|], r.outbox[|c.outbox|];
    assert m.tipo != VENTA && r.movimientos == c.movimientos + [m];
    assert !e.PagoRegistrado? && r.outbox == c.outbox + [e];
    SaldosSinVenta(c, r, totales);
  }

  lemma CajaAlCerrar(c: Caja, totales: seq<int>, reabiertas: set<CuentaId>, t: nat, contado: int)
    requires CajaSana(c, totales, reabiertas) && CierreTx(c, t, contado).Success?
    ensures CajaSana(CierreTx(c, t, contado).value, totales, reabiertas)
  {
    var r := CierreTx(c, t, contado).value;
    CajonAlCerrar(c, t, contado);
    var e := r.outbox[|c.outbox|];
    assert !e.PagoRegistrado? && r.outbox == c.outbox + [e];
    SaldosSinVenta(c, r, totales);
  }

  lemma CajaAlMover(c: Caja, totales: seq<int>, reabiertas: set<CuentaId>, m: Movimiento)
    requires CajaSana(c, totales, reabiertas) && MovimientoSano(m) && m.turno < |c.turnos|
    requires m.tipo != APERTURA && m.tipo != VENTA
    ensures CajaSana(c.(movimientos := c.movimientos + [m]), totales, reabiertas)
  {
    CajonAlMover(c, m);
    SaldosSinVenta(c, c.(movimientos := c.movimientos + [m]), totales);
  }

  lemma {:induction false} UltimoTotalCorregido(txs: seq<Transaccion>, otras: seq<Transaccion>, totales: seq<int>,
                                                c: CuentaId)
    requires |txs| == |otras| == |totales| && forall i :: 0 <= i < |txs| ==> otras[i].cuenta == txs[i].cuenta
    ensures UltimoTotal(otras, totales, c) == UltimoTotal(txs, totales, c)
  {
    if |txs| != 0 {
      var n := |txs| - 1;
      UltimoTotalCorregido(txs[..n], otras[..n], totales[..n], c);
    }
  }

  lemma ConcuerdanSinNotas(movs: seq<Movimiento>, txs: seq<Transaccion>, i: nat, notas: Nota)
    requires Concuerdan(movs, txs) && i < |txs|
    ensures Concuerdan(movs, txs[i := txs[i].(notas := notas)])
  {
    var otras := txs[i := txs[i].(notas := notas)];
    forall k | 0 <= k < |txs| ensures Vinculada(SoloVentas(movs)[k], k, otras[k]) {
      assert Vinculada(SoloVentas(movs)[k], k, txs[k]);
    }
  }

  lemma CajonAlCorregir(c: Caja, i: nat, metodo: Option<Metodo>, notas: Option<Nota>)
    requires CajonEnOrden(c) && i < |c.transacciones|
    ensures CajonEnOrden(CorregirTx(c, i, metodo, notas))
  {
    if metodo.Some? {
      ConcuerdanAlCorregir(c.movimientos, c.transacciones, i, metodo.value);
      SanosAlCorregir(c.movimientos, c.turnos, i, metodo.value);
    }
    if notas.Some? {
      var c' := CorregirTx(c, i, metodo, None);
      ConcuerdanSinNotas(c'.movimientos, c'.transacciones, i, notas.value);
    }
  }

  lemma ProyeccionAlCorregir(c: Caja, r: Caja, totales: seq<int>, reabiertas: set<CuentaId>)
    requires ProyeccionFiel(c, totales, reabiertas) && r.cuentas == c.cuentas
    requires |r.transacciones| == |c.transacciones|
    requires forall i :: 0 <= i < |c.transacciones| ==> r.transacciones[i].cuenta == c.transacciones[i].cuenta
    ensures ProyeccionFiel(r, totales, reabiertas)
  {
    forall cuenta | TienePagos(r.transacciones, cuenta)
      ensures TienePagos(c.transacciones, cuenta)
      ensures UltimoTotal(r.transacciones, totales, cuenta) == UltimoTotal(c.transacciones, totales, cuenta)
    {
      UltimoTotalCorregido(c.transacciones, r.transacciones, totales, cuenta);
      var k :| 0 <= k < |r.transacciones| && r.transacciones[k].cuenta == cuenta;
      assert c.transacciones[k].cuenta == cuenta;
    }
  }

  lemma SaldosTrasCorregir(c: Caja, totales: seq<int>, i: nat, metodo: Option<Metodo>, notas: Option<Nota>)
    requires SaldosCuadran(c, totales) && i < |c.transacciones|
    ensures SaldosCuadran(CorregirTx(c, i, metodo, notas), totales)
  {
    var r := CorregirTx(c, i, metodo, notas);
    forall cuenta ensures DescuentoEnCascada(r.movimientos, cuenta) == DescuentoEnCascada(c.movimientos, cuenta) {
      if metodo.Some? {
        CorregirPorFila(c.movimientos, i, metodo.value);
        CascadaCorregida(c.movimientos, r.movimientos, cuenta);
      }
    }
    SaldosAlCorregir(c, r, totales);
  }

  lemma CajaAlCorregir(c: Caja, totales: seq<int>, reabiertas: set<CuentaId>, i: nat, metodo: Option<Metodo>,
                       notas: Option<Nota>)
    requires CajaSana(c, totales, reabiertas) && i < |c.transacciones|
    ensures CajaSana(CorregirTx(c, i, metodo, notas), totales, reabiertas)
    ensures HistoriaCrece(c.transacciones, CorregirTx(c, i, metodo, notas).transacciones)
  {
    CajonAlCorregir(c, i, metodo, notas);
    SaldosTrasCorregir(c, totales, i, metodo, notas);
    ProyeccionAlCorregir(c, CorregirTx(c, i, metodo, notas), totales, reabiertas);
  }

  /** A change of the projection that opens nothing unnoticed and keeps the totals of open rows. */
  lemma CajaAlProyectar(c: Caja, totales: seq<int>, reabiertas: set<CuentaId>,
                        cuentas: map<CuentaId, Cuenta>, otras: set<CuentaId>)
    requires CajaSana(c, totales, reabiertas)
    requires c.cuentas.Keys <= cuentas.Keys && reabiertas <= otras
    requires forall x :: x in c.cuentas && cuentas[x].estado == ABIERTA && x !in otras ==>
               c.cuentas[x].estado == ABIERTA && cuentas[x].total == c.cuentas[x].total
    ensures CajaSana(c.(cuentas := cuentas), totales, otras)
  {
  }

  /** handleCuentaAbierta, late or repeated: only an account that was not open becomes a reopened one. */
  lemma CajaAlAbrirse(c: Caja, totales: seq<int>, reabiertas: set<CuentaId>, cuenta: CuentaId, sede: SedeId)
    requires CajaSana(c, totales, reabiertas)
    ensures CajaSana(c.(cuentas := AlAbrirse(c.cuentas, cuenta, sede)), totales,
                     reabiertas + if NoAbierta(c.cuentas, cuenta) then {cuenta} else {})
  {
    CajaAlProyectar(c, totales, reabiertas, AlAbrirse(c.cuentas, cuenta, sede),
                    reabiertas + if NoAbierta(c.cuentas, cuenta) then {cuenta} else {});
  }
}
