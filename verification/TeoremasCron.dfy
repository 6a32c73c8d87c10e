/**
 The repair cron as the machine runs it: when an account it picks is paid in full, when one it closes
 still is, and which accounts it never reaches.
 */
module TeoremasDelCron {
  import opened Comun
  import opened Tablas
  import opened Cobros
  import opened Saldos
  import opened Proyeccion
  import opened Protocolo
  import opened CajasSanas
  import opened Invariante
  import opened Reconciliacion
  import opened Ventanas
  import opened TotalesFijos

  /** registrarPago would answer "already paid" on the account's latest accepted total. */
  ghost predicate EstaCobrada(s: Sistema, c: CuentaId)
  {
    |s.totales| == |s.caja.transacciones| && RegistrarPagoLaDaPorCobrada(s.caja.transacciones, s.totales, c)
  }

  ghost function NetoDeFila(s: Sistema, c: CuentaId): nat
    requires c in s.caja.cuentas
  {
    Max0(s.caja.cuentas[c].total - DescuentoCobrado(s.caja.transacciones, c))
  }

  /** What the latest accepted payment was accepted on. */
  ghost function UltimoNeto(s: Sistema, c: CuentaId): nat
    requires |s.totales| == |s.caja.transacciones|
  {
    Max0(UltimoTotal(s.caja.transacciones, s.totales, c) - DescuentoCobrado(s.caja.transacciones, c))
  }

  lemma CobradaSii(s: Sistema, c: CuentaId)
    requires Inv(s) && TienePagos(s.caja.transacciones, c)
    ensures |s.totales| == |s.caja.transacciones| && c in s.caja.cuentas
    ensures EstaCobrada(s, c) <==> Pagado(s.caja.transacciones, c) + TOLERANCIA >= UltimoNeto(s, c)
    ensures s.caja.cuentas[c].estado == ABIERTA && c !in s.reabiertas ==> NetoDeFila(s, c) == UltimoNeto(s, c)
  {
    CobradaSiiPagadoAlcanza(s.caja.transacciones, s.totales, c);
  }

  lemma {:induction false} UltimoDeLaCuenta(txs: seq<Transaccion>, totales: seq<int>, i: nat)
    requires i < |txs| == |totales| && forall j :: i < j < |txs| ==> txs[j].cuenta != txs[i].cuenta
    ensures DescuentoCobrado(txs, txs[i].cuenta) == txs[i].descuento
    ensures UltimoTotal(txs, totales, txs[i].cuenta) == totales[i]
  {
    var n := |txs| - 1;
    if i < n { UltimoDeLaCuenta(txs[..n], totales[..n], i); }
  }

  /** What the latest PagoRegistrado of an account announced as pending is registrarPago's verdict. */
  lemma ElUltimoEventoDecide(s: Sistema, i: nat)
    requires Alcanzable(s) && i < |s.caja.transacciones|
    requires forall j :: i < j < |s.caja.transacciones| ==>
               s.caja.transacciones[j].cuenta != s.caja.transacciones[i].cuenta
    ensures var eventos, c := SoloPagos(s.caja.outbox), s.caja.transacciones[i].cuenta;
            && |eventos| == |s.caja.transacciones| && eventos[i].PagoRegistrado? && eventos[i].cuenta == c
            && (EstaCobrada(s, c) <==> eventos[i].pendiente <= TOLERANCIA)
  {
    LoAlcanzableEsSano(s);
    var txs := s.caja.transacciones;
    assert EventoFiel(SoloPagos(s.caja.outbox)[i], txs, s.totales, i);
    UltimoDeLaCuenta(txs, s.totales, i);
    SinMasPagos(txs, i + 1, txs[i].cuenta);
    SinPagosNadaPagado(txs, txs[i].cuenta);
    CobradaSii(s, txs[i].cuenta);
  }

  /* ---- at the pick ---- */

  lemma LoElegido(s: Sistema, pr: Proceso, orden: seq<CuentaId>, k: nat)
    requires Inv(s) && ProcesoSano(s.caja, pr) && pr.CronAgregado? && k < |TrasFiltrar(s.caja, pr, orden).lista|
    ensures var (c, descuento) := TrasFiltrar(s.caja, pr, orden).lista[k];
            && TienePagos(s.caja.transacciones, c) && descuento == DescuentoCobrado(s.caja.transacciones, c)
            && c in s.caja.cuentas && s.caja.cuentas[c].estado == ABIERTA
            && Pagado(s.caja.transacciones, c) + TOLERANCIA >= NetoDeFila(s, c)
  {
    var ids := Primeras(Filtrar(orden, s.caja.cuentas, pr.agregados, pr.corte), LIMITE_POR_TICK);
    assert TrasFiltrar(s.caja, pr, orden).lista[k] == (ids[k], pr.agregados[ids[k]].descuento) by {
      assert ids[k] in Filtrar(orden, s.caja.cuentas, pr.agregados, pr.corte);
      FiltradasSonElegibles(orden, s.caja.cuentas, pr.agregados, pr.corte, ids[k]);
    }
    assert ids[k] in Filtrar(orden, s.caja.cuentas, pr.agregados, pr.corte);
    FiltradasSonElegibles(orden, s.caja.cuentas, pr.agregados, pr.corte, ids[k]);
  }

  /**
   Every account the cron picks, reopened or not: it is paid in full unless its row's net has fallen
   below the net of its latest accepted payment and what it paid lies in the gap. A row that was not
   reopened has that very net.
   */
  lemma AlElegirDecideElNeto(s: Sistema, p: nat, orden: seq<CuentaId>, k: nat)
    requires Alcanzable(s) && p in s.procesos && s.procesos[p].CronAgregado?
    requires k < |TrasFiltrar(s.caja, s.procesos[p], orden).lista|
    ensures var c := TrasFiltrar(s.caja, s.procesos[p], orden).lista[k].0;
            && c in s.caja.cuentas && |s.totales| == |s.caja.transacciones|
            && (NetoDeFila(s, c) >= UltimoNeto(s, c) ==> EstaCobrada(s, c))
            && (!EstaCobrada(s, c) <==>
                  NetoDeFila(s, c) <= Pagado(s.caja.transacciones, c) + TOLERANCIA < UltimoNeto(s, c))
            && (c !in s.reabiertas ==> NetoDeFila(s, c) == UltimoNeto(s, c))
  {
    LoAlcanzableEsSano(s);
    assert ProcesoSano(s.caja, s.procesos[p]);
    LoElegido(s, s.procesos[p], orden, k);
    CobradaSii(s, TrasFiltrar(s.caja, s.procesos[p], orden).lista[k].0);
  }

  /** The cron is about to repair an account that still owes money exactly when it is within its reach and
      what it paid lies between its row's net and the net of its latest accepted payment. */
  lemma ElCronYerraSii(s: Sistema, corte: int, c: CuentaId)
    requires Alcanzable(s)
    ensures |s.totales| == |s.caja.transacciones|
    ensures c in PorCerrar(s.caja, corte) && !EstaCobrada(s, c) <==>
              && c in s.caja.cuentas && s.caja.cuentas[c].estado == ABIERTA && TienePagos(s.caja.transacciones, c)
              && TodosViejos(s.caja.transacciones, corte, c) && |Posteriores(s.caja.transacciones, corte, c)| < 100
              && NetoDeFila(s, c) <= Pagado(s.caja.transacciones, c) + TOLERANCIA < UltimoNeto(s, c)
  {
    LoAlcanzableEsSano(s);
    PorCerrarSii(s.caja, corte, c);
    if TienePagos(s.caja.transacciones, c) { CobradaSii(s, c); }
  }

  /* ---- at the close ---- */

  /**
   By the time the loop reaches an account, payments on other snapshots may have been accepted. It is
   paid in full exactly when the money test passes on what the account has paid by now and its latest
   accepted total; for an open row that was not reopened, that is the filter's own test made again.
   */
  lemma AlCerrarDecideElFiltroDeNuevo(s: Sistema, p: nat, k: nat)
    requires Alcanzable(s) && p in s.procesos && s.procesos[p].CronLista? && k < |s.procesos[p].lista|
    ensures var (c, descuento) := s.procesos[p].lista[k];
            var pagado := Pagado(s.caja.transacciones, c);
            && |s.totales| == |s.caja.transacciones| && c in s.caja.cuentas
            && descuento == DescuentoCobrado(s.caja.transacciones, c)
            && (EstaCobrada(s, c) <==> Alcanza(pagado, UltimoTotal(s.caja.transacciones, s.totales, c), descuento))
            && (s.caja.cuentas[c].estado == ABIERTA && c !in s.reabiertas ==>
                  (EstaCobrada(s, c) <==> Alcanza(pagado, s.caja.cuentas[c].total, descuento)))
  {
    LoAlcanzableEsSano(s);
    assert ProcesoSano(s.caja, s.procesos[p]);
    CobradaSii(s, s.procesos[p].lista[k].0);
  }

  /** An accepted payment of the account after which more than a cent is owed. */
  ghost predicate ReabreDeuda(s: Sistema, paso: Paso, c: CuentaId)
  {
    && paso.Cobrar? && paso.p in s.procesos && s.procesos[paso.p].ConTurno? && CuentaDe(s.procesos[paso.p].orden) == c
    && var cobro := CobroTx(s.caja, ContextoDe(s.procesos[paso.p], s.reloj), s.procesos[paso.p].orden);
       cobro.Success? && cobro.value.pendiente > TOLERANCIA
  }

  /** An account counts as reopened from a CuentaAbierta that finds its row not open to its next accepted
      payment. */
  lemma ReabiertaSii(s: Sistema, paso: Paso, c: CuentaId)
    ensures c in Ejecutar(s, paso).reabiertas <==>
              || (paso.LlegaAbierta? && paso.cuenta == c && c in s.caja.cuentas
                  && s.caja.cuentas[c].estado != ABIERTA)
              || (c in s.reabiertas && !CobraDe(s, paso, c))
  {
  }

  /** An accepted payment of the account. */
  ghost predicate CobraDe(s: Sistema, paso: Paso, c: CuentaId)
  {
    && paso.Cobrar? && paso.p in s.procesos && s.procesos[paso.p].ConTurno? && CuentaDe(s.procesos[paso.p].orden) == c
    && CobroTx(s.caja, ContextoDe(s.procesos[paso.p], s.reloj), s.procesos[paso.p].orden).Success?
  }

  /** An account paid in full stays so through every step but one: an accepted payment on a larger total
      that leaves more than a cent owing. */
  lemma DejaDeEstarCobradaSii(s: Sistema, paso: Paso, c: CuentaId)
    requires Inv(s) && TienePagos(s.caja.transacciones, c) && EstaCobrada(s, c)
    ensures !EstaCobrada(Ejecutar(s, paso), c) <==> ReabreDeuda(s, paso, c)
  {
    InvAlEjecutar(s, paso);
    if !paso.Cobrar? {
      CobradaSinCobrar(s, paso, c);
    } else if paso.p in s.procesos && s.procesos[paso.p].ConTurno? {
      CobradaTrasCobrar(s, paso.p, c);
    }
  }

  lemma CobradaSinCobrar(s: Sistema, paso: Paso, c: CuentaId)
    requires Inv(s) && Inv(Ejecutar(s, paso)) && !paso.Cobrar? && TienePagos(s.caja.transacciones, c)
    ensures EstaCobrada(Ejecutar(s, paso), c) <==> EstaCobrada(s, c)
  {
    var r := Ejecutar(s, paso);
    OtrosPasosNoCobran(s, paso);
    TotalesSinCobrar(s, paso);
    PagadoCorregido(s.caja.transacciones, r.caja.transacciones, c);
    UltimoTotalCorregido(s.caja.transacciones, r.caja.transacciones, s.totales, c);
    TienePagosIgual(s.caja.transacciones, r.caja.transacciones, c);
    CobradaSii(s, c);
    CobradaSii(r, c);
  }

  lemma TienePagosIgual(txs: seq<Transaccion>, otras: seq<Transaccion>, c: CuentaId)
    requires |txs| <= |otras| && forall i :: 0 <= i < |txs| ==> otras[i].cuenta == txs[i].cuenta
    requires TienePagos(txs, c)
    ensures TienePagos(otras, c)
  {
    var i :| 0 <= i < |txs| && txs[i].cuenta == c;
    assert otras[i].cuenta == c;
  }

  /** What an account has paid and was last accepted on. */
  datatype Cifras = Cifras(pagado: int, descuento: int, total: int)

  ghost function CifrasDe(txs: seq<Transaccion>, totales: seq<int>, c: CuentaId): Cifras
    requires |txs| == |totales|
  {
    Cifras(Pagado(txs, c), DescuentoCobrado(txs, c), UltimoTotal(txs, totales, c))
  }

  lemma CobradaPorCifras(s: Sistema, c: CuentaId)
    requires Inv(s) && TienePagos(s.caja.transacciones, c)
    ensures var x := CifrasDe(s.caja.transacciones, s.totales, c);
            EstaCobrada(s, c) <==> Alcanza(x.pagado, x.total, x.descuento)
  {
    CobradaSii(s, c);
  }

  lemma CobradaTrasCobrar(s: Sistema, p: nat, c: CuentaId)
    requires p in s.procesos && s.procesos[p].ConTurno?
    requires Inv(s) && Inv(PasoCobrar(s, p))
    requires TienePagos(s.caja.transacciones, c) && EstaCobrada(s, c)
    ensures !EstaCobrada(PasoCobrar(s, p), c) <==> ReabreDeuda(s, Cobrar(p), c)
  {
    var pr := s.procesos[p];
    var ctx := ContextoDe(pr, s.reloj);
    CobroEsCombinado(s.caja, ctx, pr.orden);
    if CombinadoTx(s.caja, ctx, PartesDe(pr.orden)).Success? {
      assert OrdenSana(pr.orden) by { assert ProcesoSano(s.caja, pr); }
      CobradaTrasAceptar(s, PasoCobrar(s, p), ctx, PartesDe(pr.orden), c);
    }
  }

  lemma CobradaTrasAceptar(s: Sistema, r: Sistema, ctx: Contexto, partes: seq<Parte>, c: CuentaId)
    requires Inv(s) && Inv(r) && TienePagos(s.caja.transacciones, c) && EstaCobrada(s, c)
    requires |partes| > 0 && PartesPositivas(partes) && CombinadoTx(s.caja, ctx, partes).Success?
    requires r.caja.transacciones == CombinadoTx(s.caja, ctx, partes).value.caja.transacciones
    requires r.totales == s.totales + Repetir(ctx.remota.total, |partes|)
    ensures !EstaCobrada(r, c) <==> c == ctx.cuenta && CombinadoTx(s.caja, ctx, partes).value.pendiente > TOLERANCIA
  {
    CifrasTrasCobrar(s.caja, s.totales, ctx, partes, c);
    var antes, despues := CifrasDe(s.caja.transacciones, s.totales, c),
                          CifrasDe(r.caja.transacciones, r.totales, c);
    assert Alcanza(antes.pagado, antes.total, antes.descuento) by { CobradaPorCifras(s, c); }
    assert EstaCobrada(r, c) <==> Alcanza(despues.pagado, despues.total, despues.descuento) by {
      TienePagosTrasCobrar(s.caja, ctx, partes, c);
      CobradaPorCifras(r, c);
    }
    assert antes.pagado >= 0 by { SinPagosNadaPagado(s.caja.transacciones, c); }
    BucleAcotado(PendienteAntes(s.caja.transacciones, ctx), partes);
    PendienteBajoSii(ctx.remota.total, ctx.descuento, Pagado(s.caja.transacciones, c), SumaPartes(partes));
  }

  lemma PendienteBajoSii(total: int, descuento: int, pagado: int, suma: int)
    requires pagado >= 0 && suma >= 0
    ensures Max0(Max0(Max0(total - descuento) - pagado) - suma) <= TOLERANCIA
            <==> Alcanza(pagado + suma, total, descuento)
  {
  }

  lemma TienePagosTrasCobrar(c: Caja, ctx: Contexto, partes: seq<Parte>, cuenta: CuentaId)
    requires CombinadoTx(c, ctx, partes).Success? && TienePagos(c.transacciones, cuenta)
    ensures TienePagos(CombinadoTx(c, ctx, partes).value.caja.transacciones, cuenta)
  {
    TramosAgregan(c.(cuentas := Proyectar(c.cuentas, ctx)), ctx, Pagado(c.transacciones, ctx.cuenta) == 0,
                  PendienteAntes(c.transacciones, ctx), partes);
    var txs := CombinadoTx(c, ctx, partes).value.caja.transacciones;
    var i :| 0 <= i < |c.transacciones| && c.transacciones[i].cuenta == cuenta;
    assert txs[..|c.transacciones|][i] == txs[i];
  }

  /** What an accepted command appends, and what it reports as still owed. */
  lemma LoQueCobraUnCombinado(c: Caja, ctx: Contexto, partes: seq<Parte>)
    requires PartesPositivas(partes) && CombinadoTx(c, ctx, partes).Success?
    ensures var r := CombinadoTx(c, ctx, partes).value;
            var txs := r.caja.transacciones;
            && |txs| == |c.transacciones| + |partes| && txs[..|c.transacciones|] == c.transacciones
            && (forall i :: |c.transacciones| <= i < |txs| ==>
                  txs[i].cuenta == ctx.cuenta && txs[i].descuento == ctx.descuento)
            && Pagado(txs, ctx.cuenta) == Pagado(c.transacciones, ctx.cuenta) + SumaPartes(partes)
            && r.pendiente == Max0(PendienteAntes(c.transacciones, ctx) - SumaPartes(partes))
  {
    var base := c.(cuentas := Proyectar(c.cuentas, ctx));
    var primera, antes := Pagado(c.transacciones, ctx.cuenta) == 0, PendienteAntes(c.transacciones, ctx);
    TramosAgregan(base, ctx, primera, antes, partes);
    TramosSuman(base, ctx, primera, antes, partes);
    BucleAcotado(antes, partes);
  }

  /** The figures of every account after an accepted command. */
  lemma CifrasTrasCobrar(c: Caja, totales: seq<int>, ctx: Contexto, partes: seq<Parte>, cuenta: CuentaId)
    requires |totales| == |c.transacciones| && |partes| > 0 && PartesPositivas(partes)
    requires CombinadoTx(c, ctx, partes).Success?
    ensures var r := CombinadoTx(c, ctx, partes).value;
            var txs, nuevos := r.caja.transacciones, totales + Repetir(ctx.remota.total, |partes|);
            && |txs| == |nuevos|
            && CifrasDe(txs, nuevos, cuenta)
               == (if cuenta == ctx.cuenta
                   then Cifras(Pagado(c.transacciones, cuenta) + SumaPartes(partes), ctx.descuento, ctx.remota.total)
                   else CifrasDe(c.transacciones, totales, cuenta))
            && r.pendiente == Max0(PendienteAntes(c.transacciones, ctx) - SumaPartes(partes))
  {
    LoQueCobraUnCombinado(c, ctx, partes);
    CifrasDelBloque(c.transacciones, CombinadoTx(c, ctx, partes).value.caja.transacciones, totales, ctx, cuenta);
  }

  lemma CifrasDelBloque(txs: seq<Transaccion>, otras: seq<Transaccion>, totales: seq<int>, ctx: Contexto, c: CuentaId)
    requires |txs| == |totales| && |txs| < |otras| && otras[..|txs|] == txs
    requires forall i :: |txs| <= i < |otras| ==> otras[i].cuenta == ctx.cuenta && otras[i].descuento == ctx.descuento
    ensures var nuevos := totales + Repetir(ctx.remota.total, |otras| - |txs|);
            if c == ctx.cuenta
            then DescuentoCobrado(otras, c) == ctx.descuento && UltimoTotal(otras, nuevos, c) == ctx.remota.total
            else CifrasDe(otras, nuevos, c) == CifrasDe(txs, totales, c)
  {
    DescuentoDelBloque(otras, |txs|, ctx.cuenta, ctx.descuento, c);
    BloqueDeCuenta(txs, otras, totales, ctx.remota.total, ctx.cuenta, c);
    if c != ctx.cuenta { SinMasPagos(otras, |txs|, c); }
  }

  /** The latest pick that gave process p its list found the account reopened, or a payment accepted since
      left more than a cent of it owing. */
  ghost predicate DudosaAlCerrar(pasos: seq<Paso>, p: nat, c: CuentaId)
  {
    |pasos| > 0 &&
    var n := |pasos| - 1;
    var antes := Correr(INICIAL, pasos[..n]);
    if pasos[n].CronFiltrar? && pasos[n].p == p && p in antes.procesos && antes.procesos[p].CronAgregado?
    then c in antes.reabiertas else DudosaAlCerrar(pasos[..n], p, c) || ReabreDeuda(antes, pasos[n], c)
  }

  lemma ElegidaSinReabrirEstaCobrada(s: Sistema, paso: Paso, p: nat, x: (CuentaId, int))
    requires Inv(s) && paso.CronFiltrar? && paso.p == p && p in s.procesos && s.procesos[p].CronAgregado?
    requires x in TrasFiltrar(s.caja, s.procesos[p], paso.orden).lista && x.0 !in s.reabiertas
    ensures EstaCobrada(Ejecutar(s, paso), x.0)
  {
    var lista, r := TrasFiltrar(s.caja, s.procesos[p], paso.orden).lista, Ejecutar(s, paso);
    assert EstaCobrada(s, x.0) by {
      var k: nat :| k < |lista| && lista[k] == x;
      assert ProcesoSano(s.caja, s.procesos[p]);
      LoElegido(s, s.procesos[p], paso.orden, k);
      CobradaSii(s, x.0);
    }
    assert r.caja == s.caja && r.totales == s.totales;
  }

  /** Whatever the totals do: an account not reopened when it was picked is paid in full at every moment until
      the cron closes it, unless a payment accepted in between left more than a cent owing. */
  lemma {:induction false} HastaElCierreSigueCobrada(pasos: seq<Paso>, p: nat, x: (CuentaId, int))
    requires p in Correr(INICIAL, pasos).procesos && Correr(INICIAL, pasos).procesos[p].CronLista?
    requires x in Correr(INICIAL, pasos).procesos[p].lista && !DudosaAlCerrar(pasos, p, x.0)
    ensures EstaCobrada(Correr(INICIAL, pasos), x.0)
  {
    if |pasos| > 0 {
      var n := |pasos| - 1;
      var antes, paso := Correr(INICIAL, pasos[..n]), pasos[n];
      InvEnTodaCorrida(pasos[..n]);
      ListaDeDonde(antes, paso, p);
      if paso.CronFiltrar? && paso.p == p && antes.procesos[p].CronAgregado? {
        ElegidaSinReabrirEstaCobrada(antes, paso, p, x);
      } else {
        HastaElCierreSigueCobrada(pasos[..n], p, x);
        assert TienePagos(antes.caja.transacciones, x.0) by { ListadaTienePagos(antes, p, x); }
        DejaDeEstarCobradaSii(antes, paso, x.0);
      }
    }
  }

  lemma ListadaTienePagos(s: Sistema, p: nat, x: (CuentaId, int))
    requires Inv(s) && p in s.procesos && s.procesos[p].CronLista? && x in s.procesos[p].lista
    ensures TienePagos(s.caja.transacciones, x.0)
  {
    assert ProcesoSano(s.caja, s.procesos[p]);
    var k: nat :| k < |s.procesos[p].lista| && s.procesos[p].lista[k] == x;
  }

  /* ---- with fixed totals ---- */

  /** The latest pick that gave process p its list found the account reopened. */
  ghost predicate ElegidaReabierta(pasos: seq<Paso>, p: nat, c: CuentaId)
  {
    |pasos| > 0 &&
    var n := |pasos| - 1;
    var antes := Correr(INICIAL, pasos[..n]);
    if pasos[n].CronFiltrar? && pasos[n].p == p && p in antes.procesos && antes.procesos[p].CronAgregado?
    then c in antes.reabiertas else ElegidaReabierta(pasos[..n], p, c)
  }

  /** Where the list of a cron process comes from. */
  lemma ListaDeDonde(s: Sistema, paso: Paso, p: nat)
    requires p in Ejecutar(s, paso).procesos && Ejecutar(s, paso).procesos[p].CronLista?
    ensures p in s.procesos
    ensures if paso.CronFiltrar? && paso.p == p && s.procesos[p].CronAgregado?
            then Ejecutar(s, paso).procesos[p] == TrasFiltrar(s.caja, s.procesos[p], paso.orden)
            else s.procesos[p].CronLista?
                 && forall x :: x in Ejecutar(s, paso).procesos[p].lista ==> x in s.procesos[p].lista
  {
  }

  lemma SaldadasNoMenguan(s: Sistema, paso: Paso)
    ensures s.saldadas <= Ejecutar(s, paso).saldadas
  {
  }

  ghost predicate ListasSaldadas(pasos: seq<Paso>)
  {
    var s := Correr(INICIAL, pasos);
    forall p, x :: p in s.procesos && s.procesos[p].CronLista? && x in s.procesos[p].lista ==>
      x.0 in s.saldadas || ElegidaReabierta(pasos, p, x.0)
  }

  lemma LoElegidoEstaSaldado(s: Sistema, p: nat, orden: seq<CuentaId>, total: CuentaId -> int, x: (CuentaId, int))
    requires Inv(s) && SaldadasExactas(s, total) && TotalesDeCuenta(s, total)
    requires p in s.procesos && s.procesos[p].CronAgregado? && x in TrasFiltrar(s.caja, s.procesos[p], orden).lista
    requires x.0 !in s.reabiertas
    ensures x.0 in s.saldadas
  {
    var lista := TrasFiltrar(s.caja, s.procesos[p], orden).lista;
    var k: nat :| k < |lista| && lista[k] == x;
    assert ProcesoSano(s.caja, s.procesos[p]);
    LoElegido(s, s.procesos[p], orden, k);
    CobradaSii(s, x.0);
    SaldadaEsCobrada(s, total, x.0);
  }

  lemma {:induction false} ListasSaldadasEnTodaCorrida(pasos: seq<Paso>, total: CuentaId -> int)
    requires CorridaFija(pasos, total)
    ensures ListasSaldadas(pasos)
  {
    if |pasos| > 0 {
      var n := |pasos| - 1;
      var antes, s := Correr(INICIAL, pasos[..n]), Correr(INICIAL, pasos);
      ListasSaldadasEnTodaCorrida(pasos[..n], total);
      InvEnTodaCorrida(pasos[..n]);
      CadaCuentaSeSaldaUnaVez(pasos[..n], total);
      TotalesDeCorridaFija(pasos[..n], total);
      SaldadasNoMenguan(antes, pasos[n]);
      forall p, x | p in s.procesos && s.procesos[p].CronLista? && x in s.procesos[p].lista
        ensures x.0 in s.saldadas || ElegidaReabierta(pasos, p, x.0)
      {
        UnaListaSaldada(antes, s, pasos, total, p, x);
      }
    }
  }

  lemma UnaListaSaldada(antes: Sistema, s: Sistema, pasos: seq<Paso>, total: CuentaId -> int, p: nat,
                        x: (CuentaId, int))
    requires |pasos| > 0 && antes == Correr(INICIAL, pasos[..|pasos| - 1]) && s == Ejecutar(antes, pasos[|pasos| - 1])
    requires Inv(antes) && SaldadasExactas(antes, total) && TotalesDeCuenta(antes, total)
    requires ListasSaldadas(pasos[..|pasos| - 1]) && antes.saldadas <= s.saldadas
    requires p in s.procesos && s.procesos[p].CronLista? && x in s.procesos[p].lista
    ensures x.0 in s.saldadas || ElegidaReabierta(pasos, p, x.0)
  {
    var paso := pasos[|pasos| - 1];
    ListaDeDonde(antes, paso, p);
    if paso.CronFiltrar? && paso.p == p && antes.procesos[p].CronAgregado? {
      if x.0 !in antes.reabiertas { LoElegidoEstaSaldado(antes, p, paso.orden, total, x); }
    } else {
      assert x in antes.procesos[p].lista;
    }
  }

  /**
   With fixed totals, an account that was not reopened when the cron picked it is settled at every moment
   until the cron closes it, whatever happens in between.
   */
  lemma {:induction false} ElCronSoloCierraCobradas(pasos: seq<Paso>, total: CuentaId -> int, p: nat, k: nat)
    requires CorridaFija(pasos, total)
    requires p in Correr(INICIAL, pasos).procesos && Correr(INICIAL, pasos).procesos[p].CronLista?
    requires k < |Correr(INICIAL, pasos).procesos[p].lista|
    ensures var s := Correr(INICIAL, pasos);
            var c := s.procesos[p].lista[k].0;
            !ElegidaReabierta(pasos, p, c) ==> Saldada(s.caja.transacciones, total, c) && EstaCobrada(s, c)
  {
    var s := Correr(INICIAL, pasos);
    ListasSaldadasEnTodaCorrida(pasos, total);
    CadaCuentaSeSaldaUnaVez(pasos, total);
    InvEnTodaCorrida(pasos);
    TotalesDeCorridaFija(pasos, total);
    var x := s.procesos[p].lista[k];
    assert x in s.procesos[p].lista;
    if !ElegidaReabierta(pasos, p, x.0) { SaldadaEsCobrada(s, total, x.0); }
  }

  /* ---- out of reach ---- */

  /** The account is among what a cron process has read or picked. */
  ghost predicate Nombra(pr: Proceso, c: CuentaId)
  {
    match pr
    case CronVentana(_, ids) => c in ids
    case CronAgregado(_, agregados) => c in agregados
    case CronLista(lista) => exists x :: x in lista && x.0 == c
    case _ => false
  }

  /** Process p read its window at or after the n-th step. */
  ghost predicate MiroDesde(pasos: seq<Paso>, n: nat, p: nat)
  {
    |pasos| > n &&
    var m := |pasos| - 1;
    (pasos[m] == CronMirar(p) && p !in Correr(INICIAL, pasos[..m]).procesos) || MiroDesde(pasos[..m], n, p)
  }

  lemma FiltrarNoInventa(c: Caja, pr: Proceso, orden: seq<CuentaId>, cuenta: CuentaId)
    requires pr.CronAgregado? && Nombra(TrasFiltrar(c, pr, orden), cuenta)
    ensures cuenta in pr.agregados
  {
    var ids := Primeras(Filtrar(orden, c.cuentas, pr.agregados, pr.corte), LIMITE_POR_TICK);
    var lista := TrasFiltrar(c, pr, orden).lista;
    var x :| x in lista && x.0 == cuenta;
    var k: nat :| k < |lista| && lista[k] == x;
    assert ids[k] == cuenta && ids[k] in Filtrar(orden, c.cuentas, pr.agregados, pr.corte);
    FiltradasSonElegibles(orden, c.cuentas, pr.agregados, pr.corte, cuenta);
  }

  /** A process names an account because it already did, or because the window it has just read does. */
  lemma NombraDeDonde(s: Sistema, paso: Paso, p: nat, c: CuentaId)
    requires p in Ejecutar(s, paso).procesos && Nombra(Ejecutar(s, paso).procesos[p], c)
    ensures if paso == CronMirar(p) && p !in s.procesos then c in Candidatas(s.caja.transacciones, s.reloj - UMBRAL)
            else p in s.procesos && Nombra(s.procesos[p], c)
  {
    if paso.CronFiltrar? && paso.p == p && p in s.procesos && s.procesos[p].CronAgregado? {
      FiltrarNoInventa(s.caja, s.procesos[p], paso.orden, c);
    }
  }

  /**
   With fixed totals, once a settled account is displaced by 100 others no cron process comes to name it: one
   that does already did then, having read its window before, and no later tick lists it.
   */
  lemma {:induction false} DesplazadaParaSiempre(pasos: seq<Paso>, n: nat, total: CuentaId -> int, c: CuentaId, p: nat)
    requires CorridaFija(pasos, total) && n <= |pasos|
    requires c in Correr(INICIAL, pasos[..n]).saldadas && Desplazada(Correr(INICIAL, pasos[..n]), c)
    ensures FueraDeAlcance(Correr(INICIAL, pasos), c)
    ensures NombraAhora(pasos, p, c) ==> NombraAhora(pasos[..n], p, c) && !MiroDesde(pasos, n, p)
  {
    YaNoEsCandidata(pasos, n, total, c);
    if n < |pasos| {
      var m := |pasos| - 1;
      assert pasos[..m][..n] == pasos[..n];
      DesplazadaParaSiempre(pasos[..m], n, total, c, p);
      if NombraAhora(pasos, p, c) { NombraEnUnPaso(pasos, p, c); }
    } else {
      assert pasos[..n] == pasos;
    }
  }

  lemma NombraEnUnPaso(pasos: seq<Paso>, p: nat, c: CuentaId)
    requires |pasos| > 0 && FueraDeAlcance(Correr(INICIAL, pasos[..|pasos| - 1]), c) && NombraAhora(pasos, p, c)
    ensures var m := |pasos| - 1;
            && NombraAhora(pasos[..m], p, c)
            && !(pasos[m] == CronMirar(p) && p !in Correr(INICIAL, pasos[..m]).procesos)
  {
    NombraDeDonde(Correr(INICIAL, pasos[..|pasos| - 1]), pasos[|pasos| - 1], p, c);
  }

  ghost predicate NombraAhora(pasos: seq<Paso>, p: nat, c: CuentaId)
  {
    p in Correr(INICIAL, pasos).procesos && Nombra(Correr(INICIAL, pasos).procesos[p], c)
  }

  /** Neither the window nor any list of a tick started now has the account. */
  ghost predicate FueraDeAlcance(s: Sistema, c: CuentaId)
  {
    var corte := s.reloj - UMBRAL;
    c !in Candidatas(s.caja.transacciones, corte) && forall orden :: c !in ListaDelTick(s.caja, corte, orden)
  }

  lemma {:induction false} YaNoEsCandidata(pasos: seq<Paso>, n: nat, total: CuentaId -> int, c: CuentaId)
    requires CorridaFija(pasos, total) && n <= |pasos|
    requires c in Correr(INICIAL, pasos[..n]).saldadas && Desplazada(Correr(INICIAL, pasos[..n]), c)
    ensures FueraDeAlcance(Correr(INICIAL, pasos), c)
  {
    var antes, s := Correr(INICIAL, pasos[..n]), Correr(INICIAL, pasos);
    assert SoloOtrosPagan(antes.caja.transacciones, s.caja.transacciones, c) && antes.reloj <= s.reloj by {
      SaldadaNoCobraMas(pasos, n, total, c);
    }
    SigueFueraDeAlcance(antes, s, c);
  }

  lemma SigueFueraDeAlcance(antes: Sistema, s: Sistema, c: CuentaId)
    requires SoloOtrosPagan(antes.caja.transacciones, s.caja.transacciones, c) && antes.reloj <= s.reloj
    requires Desplazada(antes, c)
    ensures FueraDeAlcance(s, c)
  {
    var corte := s.reloj - UMBRAL;
    SigueDesplazada(antes.caja.transacciones, s.caja.transacciones, antes.reloj - UMBRAL, corte, c);
    EnLaVentanaSii(s.caja.transacciones, corte, c);
    forall orden ensures c !in ListaDelTick(s.caja, corte, orden) {
      DesplazadaNadieLaCierra(s.caja, corte, orden, c);
    }
  }

  ghost predicate Desplazada(s: Sistema, c: CuentaId)
  {
    && TodosViejos(s.caja.transacciones, s.reloj - UMBRAL, c)
    && |Posteriores(s.caja.transacciones, s.reloj - UMBRAL, c)| >= 100
  }

  lemma SigueDesplazada(txs: seq<Transaccion>, otras: seq<Transaccion>, corte: int, otro: int, c: CuentaId)
    requires SoloOtrosPagan(txs, otras, c) && corte <= otro
    requires TodosViejos(txs, corte, c) && |Posteriores(txs, corte, c)| >= VENTANA
    ensures |Posteriores(otras, otro, c)| >= VENTANA
  {
    QuienSaleNoVuelve(txs, otras, corte, otro, c);
    SubconjuntoNoMayor(Posteriores(txs, corte, c), Posteriores(otras, otro, c));
  }
}
