/**
 Runs in which servicio-cuentas never changes the total of an account, as the comments of
 registrarPago assume. Snapshots may still be stale about whether the account is open.
 */
module TotalesFijos {
  import opened Comun
  import opened Tablas
  import opened Cobros
  import opened Saldos
  import opened Proyeccion
  import opened Protocolo
  import opened CajasSanas
  import opened Invariante

  /** A snapshot read in this step carries the account's one total. */
  ghost predicate LecturaFija(s: Sistema, paso: Paso, total: CuentaId -> int)
  {
    paso.LeerCuenta? && paso.respuesta.Some? && paso.p in s.procesos && s.procesos[paso.p].Pidiendo? ==>
      paso.respuesta.value.total == total(CuentaDe(s.procesos[paso.p].orden))
  }

  ghost predicate CorridaFija(pasos: seq<Paso>, total: CuentaId -> int)
  {
    |pasos| > 0 ==>
      var n := |pasos| - 1;
      CorridaFija(pasos[..n], total) && LecturaFija(Correr(INICIAL, pasos[..n]), pasos[n], total)
  }

  ghost predicate SnapshotFijo(pr: Proceso, total: CuentaId -> int)
  {
    (pr.ConCuenta? || pr.ConTurno?) ==> pr.remota.total == total(CuentaDe(pr.orden))
  }

  /** At most a cent is owed. */
  ghost predicate Saldada(txs: seq<Transaccion>, total: CuentaId -> int, c: CuentaId)
  {
    TienePagos(txs, c) && Max0(total(c) - DescuentoCobrado(txs, c) - Pagado(txs, c)) <= TOLERANCIA
  }

  ghost predicate SinDuplicados(ids: seq<CuentaId>)
  {
    forall i, j :: 0 <= i < j < |ids| ==> ids[i] != ids[j]
  }

  /** One entry of `saldadas` per settled account, and only for those. */
  ghost predicate SaldadasExactas(s: Sistema, total: CuentaId -> int)
  {
    && (forall p :: p in s.procesos ==> SnapshotFijo(s.procesos[p], total))
    && SinDuplicados(s.saldadas)
    && (forall c :: c in s.saldadas <==> Saldada(s.caja.transacciones, total, c))
  }

  /** A settled account refuses every further amount, whatever state and discount the command believes in. */
  lemma SaldadaRechazaTodo(txs: seq<Transaccion>, total: CuentaId -> int, ctx: Contexto, monto: int)
    requires MontosPositivos(txs) && UnDescuentoPorCuenta(txs)
    requires Saldada(txs, total, ctx.cuenta) && ctx.remota.total == total(ctx.cuenta)
    ensures Rechazo(txs, ctx, monto).Some?
  {
    DescuentoAceptadoSiiUniforme(txs, ctx.cuenta, ctx.descuento);
    DescuentoCobradoEsElDeTodos(txs, ctx.cuenta);
    SinPagosNadaPagado(txs, ctx.cuenta);
    var i :| 0 <= i < |txs| && txs[i].cuenta == ctx.cuenta;
  }

  lemma {:induction false} DescuentoDelBloque(txs: seq<Transaccion>, n: nat, cuenta: CuentaId, descuento: int,
                                              c: CuentaId)
    requires n <= |txs| && forall i :: n <= i < |txs| ==> txs[i].cuenta == cuenta && txs[i].descuento == descuento
    ensures DescuentoCobrado(txs, c) == if c == cuenta && n < |txs| then descuento else DescuentoCobrado(txs[..n], c)
    decreases |txs|
  {
    if n == |txs| {
      assert txs[..n] == txs;
    } else if c != cuenta {
      DescuentoDelBloque(txs[..|txs| - 1], n, cuenta, descuento, c);
      assert txs[..|txs| - 1][..n] == txs[..n];
    }
  }

  lemma OtraCuentaTrasCobrar(txs: seq<Transaccion>, otras: seq<Transaccion>, total: CuentaId -> int,
                             cuenta: CuentaId, descuento: int, c: CuentaId)
    requires |txs| <= |otras| && otras[..|txs|] == txs && c != cuenta
    requires forall i :: |txs| <= i < |otras| ==> otras[i].cuenta == cuenta && otras[i].descuento == descuento
    ensures Saldada(otras, total, c) <==> Saldada(txs, total, c)
  {
    DescuentoDelBloque(otras, |txs|, cuenta, descuento, c);
    SinMasPagos(otras, |txs|, c);
    if TienePagos(otras, c) {
      var i :| 0 <= i < |otras| && otras[i].cuenta == c;
      assert txs[i].cuenta == c;
    }
    if TienePagos(txs, c) {
      var i :| 0 <= i < |txs| && txs[i].cuenta == c;
      assert otras[i].cuenta == c;
    }
  }

  lemma EstaCuentaTrasCobrar(c: Caja, ctx: Contexto, partes: seq<Parte>, total: CuentaId -> int)
    requires MontosPositivos(c.transacciones) && |partes| > 0 && PartesPositivas(partes)
    requires ctx.remota.total == total(ctx.cuenta) && CombinadoTx(c, ctx, partes).Success?
    requires var txs := CombinadoTx(c, ctx, partes).value.caja.transacciones;
             && |txs| > |c.transacciones|
             && forall i :: |c.transacciones| <= i < |txs| ==>
                  txs[i].cuenta == ctx.cuenta && txs[i].descuento == ctx.descuento
    ensures var r := CombinadoTx(c, ctx, partes).value;
            Saldada(r.caja.transacciones, total, ctx.cuenta) <==> r.pendiente <= TOLERANCIA
  {
    var r, antes := CombinadoTx(c, ctx, partes).value, PendienteAntes(c.transacciones, ctx);
    var txs, n := r.caja.transacciones, |c.transacciones|;
    assert DescuentoCobrado(txs, ctx.cuenta) == ctx.descuento by {
      DescuentoDelBloque(txs, n, ctx.cuenta, ctx.descuento, ctx.cuenta);
    }
    assert Pagado(txs, ctx.cuenta) == Pagado(c.transacciones, ctx.cuenta) + SumaPartes(partes) by {
      TramosSuman(c.(cuentas := Proyectar(c.cuentas, ctx)), ctx,
                  Pagado(c.transacciones, ctx.cuenta) == 0, antes, partes);
    }
    assert r.pendiente == Max0(antes - SumaPartes(partes)) by { BucleAcotado(antes, partes); }
    assert antes == total(ctx.cuenta) - ctx.descuento - Pagado(c.transacciones, ctx.cuenta) by {
      SinPagosNadaPagado(c.transacciones, ctx.cuenta);
    }
    assert txs[n].cuenta == ctx.cuenta;
  }

  /** Only the charged account changes, and it owes what the command reported. */
  lemma SaldadaTrasCobrar(c: Caja, ctx: Contexto, partes: seq<Parte>, total: CuentaId -> int, cuenta: CuentaId)
    requires MontosPositivos(c.transacciones) && |partes| > 0 && PartesPositivas(partes)
    requires ctx.remota.total == total(ctx.cuenta) && CombinadoTx(c, ctx, partes).Success?
    ensures var r := CombinadoTx(c, ctx, partes).value;
            Saldada(r.caja.transacciones, total, cuenta)
            <==> if cuenta == ctx.cuenta then r.pendiente <= TOLERANCIA else Saldada(c.transacciones, total, cuenta)
  {
    TramosAgregan(c.(cuentas := Proyectar(c.cuentas, ctx)), ctx, Pagado(c.transacciones, ctx.cuenta) == 0,
                  PendienteAntes(c.transacciones, ctx), partes);
    if cuenta == ctx.cuenta {
      EstaCuentaTrasCobrar(c, ctx, partes, total);
    } else {
      OtraCuentaTrasCobrar(c.transacciones, CombinadoTx(c, ctx, partes).value.caja.transacciones, total,
                           ctx.cuenta, ctx.descuento, cuenta);
    }
  }

  lemma ExactasAlCobrar(s: Sistema, p: nat, total: CuentaId -> int)
    requires Inv(s) && SaldadasExactas(s, total) && p in s.procesos && s.procesos[p].ConTurno?
    ensures SaldadasExactas(PasoCobrar(s, p), total)
  {
    var pr, r := s.procesos[p], PasoCobrar(s, p);
    var ctx := ContextoDe(pr, s.reloj);
    assert ProcesoSano(s.caja, pr) && SnapshotFijo(pr, total);
    if CobroTx(s.caja, ctx, pr.orden).Success? {
      CobroEsCombinado(s.caja, ctx, pr.orden);
      assert ctx.cuenta !in s.saldadas by {
        if ctx.cuenta in s.saldadas {
          SaldadaRechazaTodo(s.caja.transacciones, total, ctx, SumaPartes(PartesDe(pr.orden)));
        }
      }
      forall c ensures c in r.saldadas <==> Saldada(r.caja.transacciones, total, c) {
        SaldadaTrasCobrar(s.caja, ctx, PartesDe(pr.orden), total, c);
      }
    }
  }

  lemma SaldadaCorregida(txs: seq<Transaccion>, otras: seq<Transaccion>, total: CuentaId -> int, c: CuentaId)
    requires |otras| == |txs|
    requires forall i :: 0 <= i < |txs| ==>
               otras[i].cuenta == txs[i].cuenta && otras[i].monto == txs[i].monto
                 && otras[i].descuento == txs[i].descuento
    ensures Saldada(otras, total, c) <==> Saldada(txs, total, c)
  {
    PagadoCorregido(txs, otras, c);
    if TienePagos(txs, c) {
      var i :| 0 <= i < |txs| && txs[i].cuenta == c;
      assert otras[i].cuenta == c;
    }
    if TienePagos(otras, c) {
      var i :| 0 <= i < |txs| && otras[i].cuenta == c;
      assert txs[i].cuenta == c;
    }
  }

  /** Every other step charges nobody. */
  lemma OtrosPasosNoCobran(s: Sistema, paso: Paso)
    requires !paso.Cobrar?
    ensures var r := Ejecutar(s, paso);
            && r.saldadas == s.saldadas && r.reloj >= s.reloj && |r.caja.transacciones| == |s.caja.transacciones|
            && forall i :: 0 <= i < |s.caja.transacciones| ==>
                 && r.caja.transacciones[i].cuenta == s.caja.transacciones[i].cuenta
                 && r.caja.transacciones[i].creada == s.caja.transacciones[i].creada
                 && r.caja.transacciones[i].monto == s.caja.transacciones[i].monto
                 && r.caja.transacciones[i].descuento == s.caja.transacciones[i].descuento
  {
  }

  lemma ProcesosFijos(s: Sistema, paso: Paso, total: CuentaId -> int)
    requires !paso.Cobrar? && LecturaFija(s, paso, total)
    requires forall p :: p in s.procesos ==> SnapshotFijo(s.procesos[p], total)
    ensures forall p :: p in Ejecutar(s, paso).procesos ==> SnapshotFijo(Ejecutar(s, paso).procesos[p], total)
  {
  }

  lemma ExactasAlEjecutar(s: Sistema, paso: Paso, total: CuentaId -> int)
    requires Inv(s) && SaldadasExactas(s, total) && LecturaFija(s, paso, total)
    ensures SaldadasExactas(Ejecutar(s, paso), total)
  {
    if paso.Cobrar? {
      if paso.p in s.procesos && s.procesos[paso.p].ConTurno? { ExactasAlCobrar(s, paso.p, total); }
    } else {
      var r := Ejecutar(s, paso);
      OtrosPasosNoCobran(s, paso);
      ProcesosFijos(s, paso, total);
      forall c ensures c in r.saldadas <==> Saldada(r.caja.transacciones, total, c) {
        SaldadaCorregida(s.caja.transacciones, r.caja.transacciones, total, c);
      }
    }
  }

  /**
   With fixed totals, each account is settled by at most one accepted command, the one after which at
   most a cent is owed; from then on it refuses everything, even a command whose snapshot still says
   ABIERTA.
   */
  lemma {:induction false} CadaCuentaSeSaldaUnaVez(pasos: seq<Paso>, total: CuentaId -> int)
    requires CorridaFija(pasos, total)
    ensures SaldadasExactas(Correr(INICIAL, pasos), total)
    ensures var s := Correr(INICIAL, pasos);
            forall ctx: Contexto, monto: int :: ctx.cuenta in s.saldadas && ctx.remota.total == total(ctx.cuenta) ==>
              Rechazo(s.caja.transacciones, ctx, monto).Some?
  {
    if |pasos| > 0 {
      var n := |pasos| - 1;
      CadaCuentaSeSaldaUnaVez(pasos[..n], total);
      InvEnTodaCorrida(pasos[..n]);
      ExactasAlEjecutar(Correr(INICIAL, pasos[..n]), pasos[n], total);
    }
    var s := Correr(INICIAL, pasos);
    InvEnTodaCorrida(pasos);
    forall ctx: Contexto, monto: int | ctx.cuenta in s.saldadas && ctx.remota.total == total(ctx.cuenta)
      ensures Rechazo(s.caja.transacciones, ctx, monto).Some?
    {
      SaldadaRechazaTodo(s.caja.transacciones, total, ctx, monto);
    }
  }

  /** Every payment was accepted on its account's one total. */
  ghost predicate TotalesDeCuenta(s: Sistema, total: CuentaId -> int)
  {
    && |s.totales| == |s.caja.transacciones|
    && forall i :: 0 <= i < |s.totales| ==> s.totales[i] == total(s.caja.transacciones[i].cuenta)
  }

  lemma TotalesAlCobrar(s: Sistema, p: nat, total: CuentaId -> int)
    requires Inv(s) && TotalesDeCuenta(s, total) && p in s.procesos && s.procesos[p].ConTurno?
    requires SnapshotFijo(s.procesos[p], total)
    ensures TotalesDeCuenta(PasoCobrar(s, p), total)
  {
    var pr := s.procesos[p];
    var ctx := ContextoDe(pr, s.reloj);
    if CobroTx(s.caja, ctx, pr.orden).Success? {
      CobroEsCombinado(s.caja, ctx, pr.orden);
      var r := PasoCobrar(s, p);
      TramosAgregan(s.caja.(cuentas := Proyectar(s.caja.cuentas, ctx)), ctx,
                    Pagado(s.caja.transacciones, ctx.cuenta) == 0,
                    PendienteAntes(s.caja.transacciones, ctx), PartesDe(pr.orden));
      var n := |s.caja.transacciones|;
      forall i | 0 <= i < |r.totales| ensures r.totales[i] == total(r.caja.transacciones[i].cuenta) {
        if i < n { assert r.caja.transacciones[..n][i] == s.caja.transacciones[i]; }
      }
    }
  }

  lemma {:induction false} TotalesDeCorridaFija(pasos: seq<Paso>, total: CuentaId -> int)
    requires CorridaFija(pasos, total)
    ensures TotalesDeCuenta(Correr(INICIAL, pasos), total)
  {
    if |pasos| > 0 {
      var n := |pasos| - 1;
      var antes := Correr(INICIAL, pasos[..n]);
      TotalesDeCorridaFija(pasos[..n], total);
      CadaCuentaSeSaldaUnaVez(pasos[..n], total);
      InvEnTodaCorrida(pasos[..n]);
      if pasos[n].Cobrar? {
        if pasos[n].p in antes.procesos && antes.procesos[pasos[n].p].ConTurno? {
          TotalesAlCobrar(antes, pasos[n].p, total);
        }
      } else {
        OtrosPasosNoCobran(antes, pasos[n]);
        TotalesSinCobrar(antes, pasos[n]);
      }
    }
  }

  lemma TotalesSinCobrar(s: Sistema, paso: Paso)
    requires !paso.Cobrar?
    ensures Ejecutar(s, paso).totales == s.totales
  {
  }

  lemma {:induction false} UltimoTotalFijo(txs: seq<Transaccion>, totales: seq<int>, total: CuentaId -> int,
                                           c: CuentaId)
    requires |totales| == |txs| && TienePagos(txs, c)
    requires forall i :: 0 <= i < |txs| ==> totales[i] == total(txs[i].cuenta)
    ensures UltimoTotal(txs, totales, c) == total(c)
  {
    var n := |txs| - 1;
    if txs[n].cuenta != c {
      var i :| 0 <= i < |txs| && txs[i].cuenta == c;
      assert txs[..n][i].cuenta == c;
      UltimoTotalFijo(txs[..n], totales[..n], total, c);
    }
  }

  /** With fixed totals, settled and "fully paid for registrarPago" are one thing. */
  lemma SaldadaEsCobrada(s: Sistema, total: CuentaId -> int, c: CuentaId)
    requires Inv(s) && TotalesDeCuenta(s, total) && TienePagos(s.caja.transacciones, c)
    ensures Saldada(s.caja.transacciones, total, c) <==> RegistrarPagoLaDaPorCobrada(s.caja.transacciones, s.totales, c)
  {
    CobradaSiiPagadoAlcanza(s.caja.transacciones, s.totales, c);
    UltimoTotalFijo(s.caja.transacciones, s.totales, total, c);
    SinPagosNadaPagado(s.caja.transacciones, c);
  }

  /** The rows of before keep their account and date, and every new one is of another account. */
  ghost predicate SoloOtrosPagan(txs: seq<Transaccion>, otras: seq<Transaccion>, c: CuentaId)
  {
    && |txs| <= |otras|
    && (forall i :: 0 <= i < |txs| ==> otras[i].cuenta == txs[i].cuenta && otras[i].creada == txs[i].creada)
    && (forall i :: |txs| <= i < |otras| ==> otras[i].cuenta != c)
  }

  /** Once an account is settled no payment of it is ever accepted again. */
  lemma {:induction false} SaldadaNoCobraMas(pasos: seq<Paso>, n: nat, total: CuentaId -> int, c: CuentaId)
    requires CorridaFija(pasos, total) && n <= |pasos| && c in Correr(INICIAL, pasos[..n]).saldadas
    ensures SoloOtrosPagan(Correr(INICIAL, pasos[..n]).caja.transacciones, Correr(INICIAL, pasos).caja.transacciones, c)
    ensures c in Correr(INICIAL, pasos).saldadas
    ensures Correr(INICIAL, pasos[..n]).reloj <= Correr(INICIAL, pasos).reloj
  {
    if n == |pasos| {
      assert pasos[..n] == pasos;
    } else {
      var m := |pasos| - 1;
      assert pasos[..m][..n] == pasos[..n];
      SaldadaNoCobraMas(pasos[..m], n, total, c);
      CadaCuentaSeSaldaUnaVez(pasos[..m], total);
      UnPasoSinCobrarle(Correr(INICIAL, pasos[..m]), pasos[m], total, c);
      SoloOtrosSigue(Correr(INICIAL, pasos[..n]).caja.transacciones, Correr(INICIAL, pasos[..m]).caja.transacciones,
                     Correr(INICIAL, pasos).caja.transacciones, c);
    }
  }

  lemma SoloOtrosSigue(a: seq<Transaccion>, b: seq<Transaccion>, d: seq<Transaccion>, c: CuentaId)
    requires SoloOtrosPagan(a, b, c) && SoloOtrosPagan(b, d, c)
    ensures SoloOtrosPagan(a, d, c)
  {
    forall i | |a| <= i < |d| ensures d[i].cuenta != c {
      if i < |b| { assert d[i].cuenta == b[i].cuenta; }
    }
  }

  lemma UnPasoSinCobrarle(s: Sistema, paso: Paso, total: CuentaId -> int, c: CuentaId)
    requires SaldadasExactas(s, total) && c in s.saldadas
    requires forall ctx: Contexto, monto: int :: ctx.cuenta == c && ctx.remota.total == total(c) ==>
               Rechazo(s.caja.transacciones, ctx, monto).Some?
    ensures SoloOtrosPagan(s.caja.transacciones, Ejecutar(s, paso).caja.transacciones, c)
    ensures c in Ejecutar(s, paso).saldadas && s.reloj <= Ejecutar(s, paso).reloj
  {
    if paso.Cobrar? {
      if paso.p in s.procesos && s.procesos[paso.p].ConTurno? { UnCobroSinCobrarle(s, paso.p, total, c); }
    } else {
      OtrosPasosNoCobran(s, paso);
    }
  }

  lemma UnCobroSinCobrarle(s: Sistema, p: nat, total: CuentaId -> int, c: CuentaId)
    requires SaldadasExactas(s, total) && c in s.saldadas && p in s.procesos && s.procesos[p].ConTurno?
    requires forall ctx: Contexto, monto: int :: ctx.cuenta == c && ctx.remota.total == total(c) ==>
               Rechazo(s.caja.transacciones, ctx, monto).Some?
    ensures SoloOtrosPagan(s.caja.transacciones, PasoCobrar(s, p).caja.transacciones, c)
    ensures c in PasoCobrar(s, p).saldadas && s.reloj <= PasoCobrar(s, p).reloj
  {
    var pr := s.procesos[p];
    var ctx := ContextoDe(pr, s.reloj);
    assert SnapshotFijo(pr, total);
    if CobroTx(s.caja, ctx, pr.orden).Success? {
      CobroEsCombinado(s.caja, ctx, pr.orden);
      TramosAgregan(s.caja.(cuentas := Proyectar(s.caja.cuentas, ctx)), ctx,
                    Pagado(s.caja.transacciones, ctx.cuenta) == 0,
                    PendienteAntes(s.caja.transacciones, ctx), PartesDe(pr.orden));
      assert Rechazo(s.caja.transacciones, ctx, SumaPartes(PartesDe(pr.orden))).None?;
      assert ctx.cuenta != c;
      var n, txs := |s.caja.transacciones|, PasoCobrar(s, p).caja.transacciones;
      forall i | 0 <= i < n ensures txs[i] == s.caja.transacciones[i] { assert txs[..n][i] == txs[i]; }
    }
  }

  /** Some run with these fixed totals ends here. */
  ghost predicate AlcanzableFija(s: Sistema, total: CuentaId -> int)
  {
    exists pasos :: CorridaFija(pasos, total) && Correr(INICIAL, pasos) == s
  }

  lemma FijaUnPasoMas(s: Sistema, paso: Paso, total: CuentaId -> int)
    requires AlcanzableFija(s, total) && LecturaFija(s, paso, total)
    ensures AlcanzableFija(Ejecutar(s, paso), total)
  {
    var pasos :| CorridaFija(pasos, total) && Correr(INICIAL, pasos) == s;
    var mas := pasos + [paso];
    assert mas[..|pasos|] == pasos;
    assert CorridaFija(mas, total) && Correr(INICIAL, mas) == Ejecutar(s, paso);
  }

  lemma FijaEsAlcanzable(s: Sistema, total: CuentaId -> int)
    requires AlcanzableFija(s, total)
    ensures Alcanzable(s) && SaldadasExactas(s, total)
  {
    var pasos :| CorridaFija(pasos, total) && Correr(INICIAL, pasos) == s;
    CadaCuentaSeSaldaUnaVez(pasos, total);
  }

  lemma InicialEsFija(total: CuentaId -> int)
    ensures AlcanzableFija(INICIAL, total)
  {
    var nada: seq<Paso> := [];
    assert CorridaFija(nada, total) && Correr(INICIAL, nada) == INICIAL;
  }
}
