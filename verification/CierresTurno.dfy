/**
 A closed shift and what its drawer does afterwards: which steps still move its expected cash, by how
 much, and how far the recorded close can drift from it.
 */
module CierresDeTurno {
  import opened Comun
  import opened Tablas
  import opened Cobros
  import opened Ventas
  import opened Turnos
  import opened Protocolo
  import opened CajasSanas
  import opened Invariante

  /** The cash the parts bring to the drawer. */
  function EnEfectivoDe(partes: seq<Parte>): int
  {
    if |partes| == 0 then 0
    else
      var p := partes[|partes| - 1];
      EnEfectivoDe(partes[..|partes| - 1]) + if p.metodo == EFECTIVO then p.monto + p.propina else 0
  }

  ghost predicate TraeEfectivo(partes: seq<Parte>)
  {
    exists k :: 0 <= k < |partes| && partes[k].metodo == EFECTIVO
  }

  lemma {:induction false} EfectivoTrasTramos(c: Caja, ctx: Contexto, primera: bool, pendiente: nat, partes: seq<Parte>,
                                              t: nat)
    ensures EfectivoEsperado(TrasTramos(c, ctx, primera, pendiente, partes).movimientos, t)
            == EfectivoEsperado(c.movimientos, t) + if ctx.turno == t then EnEfectivoDe(partes) else 0
  {
    if |partes| != 0 {
      var n := |partes| - 1;
      EfectivoTrasTramos(c, ctx, primera, pendiente, partes[..n], t);
      var previos := TrasTramos(c, ctx, primera, pendiente, partes[..n]).movimientos;
      var m := TrasTramos(c, ctx, primera, pendiente, partes).movimientos[|previos|];
      SumaAgrega(previos, m, Consulta(t, None, Some(EFECTIVO), MONTO_Y_PROPINA));
    }
  }

  lemma {:induction false} EfectivoPositivoSii(partes: seq<Parte>)
    requires PartesPositivas(partes) && PropinasValidas(partes)
    ensures EnEfectivoDe(partes) >= 0
    ensures EnEfectivoDe(partes) != 0 <==> TraeEfectivo(partes)
  {
    if |partes| != 0 {
      var n := |partes| - 1;
      EfectivoPositivoSii(partes[..n]);
      if TraeEfectivo(partes[..n]) {
        var k :| 0 <= k < n && partes[..n][k].metodo == EFECTIVO;
        assert partes[k].metodo == EFECTIVO;
      } else if TraeEfectivo(partes) {
        var k :| 0 <= k < |partes| && partes[k].metodo == EFECTIVO;
        assert k < n ==> partes[..n][k].metodo == EFECTIVO;
      }
    }
  }

  /* ---- one step ---- */

  /** A process about to charge on shift t, and whose command will be accepted. */
  ghost predicate CobraEn(s: Sistema, p: nat, t: nat)
  {
    && p in s.procesos && s.procesos[p].ConTurno? && s.procesos[p].turno == t
    && CobroTx(s.caja, ContextoDe(s.procesos[p], s.reloj), s.procesos[p].orden).Success?
  }

  predicate AnotaEn(s: Sistema, x: nat, tipo: TipoMovimiento, t: nat)
  {
    x == t && t < |s.caja.turnos| && tipo != VENTA && tipo != APERTURA
  }

  /** By how much a step moves the expected cash of shift t. */
  ghost function Mueve(s: Sistema, paso: Paso, t: nat): int
    requires Inv(s)
  {
    match paso
    case Cobrar(p) => if CobraEn(s, p, t) then EnEfectivoDe(PartesDe(s.procesos[p].orden)) else 0
    case Corregir(i, metodo, _) =>
      if i < |s.caja.transacciones| && s.caja.transacciones[i].turno == t && metodo.Some? then
        var venta := SoloVentas(s.caja.movimientos)[i];
        (venta.monto + venta.propina) * (EnEfectivo(metodo.value) - EnEfectivo(s.caja.transacciones[i].metodo))
      else 0
    case Mover(x, tipo, monto, _) =>
      if !AnotaEn(s, x, tipo, t) then 0 else if tipo == EGRESO then -Abs(monto) else Abs(monto)
    case _ => 0
  }

  /** An accepted payment on t with a cash part, a correction of a sale of t into or out of cash, or a
      manual movement of t that is not of zero. */
  ghost predicate MueveLaCaja(s: Sistema, paso: Paso, t: nat)
  {
    match paso
    case Cobrar(p) => CobraEn(s, p, t) && TraeEfectivo(PartesDe(s.procesos[p].orden))
    case Corregir(i, metodo, _) =>
      && i < |s.caja.transacciones| && s.caja.transacciones[i].turno == t && metodo.Some?
      && (metodo.value == EFECTIVO) != (s.caja.transacciones[i].metodo == EFECTIVO)
    case Mover(x, tipo, monto, _) => AnotaEn(s, x, tipo, t) && monto != 0
    case _ => false
  }

  lemma MueveAlCobrar(s: Sistema, p: nat, t: nat)
    requires Inv(s) && p in s.procesos && s.procesos[p].ConTurno?
    ensures EfectivoEsperado(PasoCobrar(s, p).caja.movimientos, t)
            == EfectivoEsperado(s.caja.movimientos, t) + Mueve(s, Cobrar(p), t)
  {
    var pr := s.procesos[p];
    var ctx := ContextoDe(pr, s.reloj);
    CobroEsCombinado(s.caja, ctx, pr.orden);
    EfectivoTrasTramos(s.caja.(cuentas := Proyectar(s.caja.cuentas, ctx)), ctx,
                       Pagado(s.caja.transacciones, ctx.cuenta) == 0,
                       PendienteAntes(s.caja.transacciones, ctx), PartesDe(pr.orden), t);
  }

  lemma MueveAlAbrir(s: Sistema, sede: SedeId, fondo: int, t: nat)
    requires t < |s.caja.turnos|
    ensures EfectivoEsperado(Ejecutar(s, Abrir(sede, fondo)).caja.movimientos, t)
            == EfectivoEsperado(s.caja.movimientos, t)
  {
    if AperturaTx(s.caja, sede, fondo).Some? {
      SumaAgrega(s.caja.movimientos, AperturaTx(s.caja, sede, fondo).value.movimientos[|s.caja.movimientos|],
                 Consulta(t, None, Some(EFECTIVO), MONTO_Y_PROPINA));
    }
  }

  lemma ManualEnEfectivo(movs: seq<Movimiento>, x: nat, tipo: TipoMovimiento, monto: int, motivo: Nota, t: nat)
    ensures EfectivoEsperado(movs + [MovimientoManual(x, tipo, monto, motivo)], t)
            == EfectivoEsperado(movs, t) + if x != t then 0 else if tipo == EGRESO then -Abs(monto) else Abs(monto)
  {
    SumaAgrega(movs, MovimientoManual(x, tipo, monto, motivo), Consulta(t, None, Some(EFECTIVO), MONTO_Y_PROPINA));
  }

  lemma MueveAlMover(s: Sistema, x: nat, tipo: TipoMovimiento, monto: int, motivo: Nota, t: nat)
    requires Inv(s)
    ensures EfectivoEsperado(Ejecutar(s, Mover(x, tipo, monto, motivo)).caja.movimientos, t)
            == EfectivoEsperado(s.caja.movimientos, t) + Mueve(s, Mover(x, tipo, monto, motivo), t)
  {
    ManualEnEfectivo(s.caja.movimientos, x, tipo, monto, motivo, t);
  }

  lemma MueveAlCorregir(s: Sistema, paso: Paso, t: nat)
    requires Inv(s) && paso.Corregir?
    ensures EfectivoEsperado(Ejecutar(s, paso).caja.movimientos, t)
            == EfectivoEsperado(s.caja.movimientos, t) + Mueve(s, paso, t)
  {
    if paso.tx < |s.caja.transacciones| && paso.metodo.Some? {
      CorregirMueveMontoYPropina(s.caja.movimientos, s.caja.transacciones, paso.tx, paso.metodo.value, t);
    }
  }

  lemma OtrosNoMueven(s: Sistema, paso: Paso)
    requires !paso.Cobrar? && !paso.Abrir? && !paso.Mover? && !paso.Corregir?
    ensures Ejecutar(s, paso).caja.movimientos == s.caja.movimientos
  {
  }

  lemma PasoMueve(s: Sistema, paso: Paso, t: nat)
    requires Inv(s) && t < |s.caja.turnos|
    ensures EfectivoEsperado(Ejecutar(s, paso).caja.movimientos, t)
            == EfectivoEsperado(s.caja.movimientos, t) + Mueve(s, paso, t)
  {
    match paso
    case Cobrar(p) => if p in s.procesos && s.procesos[p].ConTurno? { MueveAlCobrar(s, p, t); }
    case Abrir(sede, fondo) => MueveAlAbrir(s, sede, fondo, t);
    case Mover(x, tipo, monto, motivo) => MueveAlMover(s, x, tipo, monto, motivo, t);
    case Corregir(_, _, _) => MueveAlCorregir(s, paso, t);
    case _ => OtrosNoMueven(s, paso);
  }

  lemma VentaPositiva(c: Caja, i: nat)
    requires CajonEnOrden(c) && MontosPositivos(c.transacciones) && i < |c.transacciones|
    ensures var v := SoloVentas(c.movimientos)[i]; v.monto > 0 && v.propina >= 0
  {
    assert Vinculada(SoloVentas(c.movimientos)[i], i, c.transacciones[i]);
    VentaEsMovimiento(c.movimientos, i);
    var k :| 0 <= k < |c.movimientos| && c.movimientos[k] == SoloVentas(c.movimientos)[i];
    assert MovimientoSano(c.movimientos[k]);
  }

  lemma {:induction false} VentaEsMovimiento(movs: seq<Movimiento>, i: nat)
    requires i < |SoloVentas(movs)|
    ensures exists k :: 0 <= k < |movs| && movs[k] == SoloVentas(movs)[i]
  {
    var n := |movs| - 1;
    if i < |SoloVentas(movs[..n])| {
      VentaEsMovimiento(movs[..n], i);
      var k :| 0 <= k < n && movs[..n][k] == SoloVentas(movs[..n])[i];
      assert movs[k] == SoloVentas(movs)[i];
    } else {
      assert movs[n] == SoloVentas(movs)[i];
    }
  }

  lemma MueveSii(s: Sistema, paso: Paso, t: nat)
    requires Inv(s)
    ensures Mueve(s, paso, t) != 0 <==> MueveLaCaja(s, paso, t)
  {
    match paso
    case Cobrar(p) =>
      if CobraEn(s, p, t) {
        assert ProcesoSano(s.caja, s.procesos[p]);
        EfectivoPositivoSii(PartesDe(s.procesos[p].orden));
      }
    case Corregir(i, metodo, _) =>
      if i < |s.caja.transacciones| && metodo.Some? {
        VentaPositiva(s.caja, i);
        ProductoNulo(SoloVentas(s.caja.movimientos)[i].monto + SoloVentas(s.caja.movimientos)[i].propina,
                     EnEfectivo(metodo.value) - EnEfectivo(s.caja.transacciones[i].metodo));
      }
    case _ =>
  }

  lemma ProductoNulo(a: int, b: int)
    requires a > 0
    ensures a * b == 0 <==> b == 0
  {
  }

  /** Open or closed, the expected cash of a shift changes in exactly three kinds of steps. */
  lemma LaCajaCambiaSii(s: Sistema, paso: Paso, t: nat)
    requires Alcanzable(s) && t < |s.caja.turnos|
    ensures EfectivoEsperado(Ejecutar(s, paso).caja.movimientos, t) != EfectivoEsperado(s.caja.movimientos, t)
            <==> MueveLaCaja(s, paso, t)
  {
    LoAlcanzableEsSano(s);
    PasoMueve(s, paso, t);
    MueveSii(s, paso, t);
  }

  lemma FilasDelCobro(s: Sistema, p: nat)
    requires Inv(s) && p in s.procesos && s.procesos[p].ConTurno? && CobraEn(s, p, s.procesos[p].turno)
    ensures var t, r, n := s.procesos[p].turno, Ejecutar(s, Cobrar(p)).caja, |s.caja.transacciones|;
            && r.turnos == s.caja.turnos && t < |r.turnos| && n < |r.transacciones|
            && forall i :: n <= i < |r.transacciones| ==> r.transacciones[i].turno == t
  {
    var pr := s.procesos[p];
    var ctx := ContextoDe(pr, s.reloj);
    assert ProcesoSano(s.caja, pr);
    CobroEsCombinado(s.caja, ctx, pr.orden);
    CobrarNoTocaTurnos(s, p);
    TramosAgregan(s.caja.(cuentas := Proyectar(s.caja.cuentas, ctx)), ctx,
                  Pagado(s.caja.transacciones, ctx.cuenta) == 0,
                  PendienteAntes(s.caja.transacciones, ctx), PartesDe(pr.orden));
  }

  /** All rows of an accepted command land on the shift its process holds, closed or not. */
  lemma PagoEnTurnoCerradoSii(s: Sistema, p: nat)
    requires Alcanzable(s) && p in s.procesos && s.procesos[p].ConTurno? && CobraEn(s, p, s.procesos[p].turno)
    ensures var t, r, n := s.procesos[p].turno, Ejecutar(s, Cobrar(p)).caja, |s.caja.transacciones|;
            && t < |s.caja.turnos| && n < |r.transacciones|
            && (forall i :: n <= i < |r.transacciones| ==> r.transacciones[i].turno == t)
            && ((exists i :: n <= i < |r.transacciones| && CaeEnCerrado(r, i)) <==> !s.caja.turnos[t].abierto)
  {
    LoAlcanzableEsSano(s);
    FilasDelCobro(s, p);
    CaeAlguna(Ejecutar(s, Cobrar(p)).caja, |s.caja.transacciones|, s.procesos[p].turno);
  }

  lemma CaeAlguna(r: Caja, n: nat, t: nat)
    requires n < |r.transacciones| && t < |r.turnos|
    requires forall i :: n <= i < |r.transacciones| ==> r.transacciones[i].turno == t
    ensures (exists i :: n <= i < |r.transacciones| && CaeEnCerrado(r, i)) <==> !r.turnos[t].abierto
  {
    if !r.turnos[t].abierto { assert CaeEnCerrado(r, n); }
  }

  ghost predicate CaeEnCerrado(c: Caja, i: nat)
  {
    i < |c.transacciones| && c.transacciones[i].turno < |c.turnos| && !c.turnos[c.transacciones[i].turno].abierto
  }

  /* ---- a whole run ---- */

  ghost predicate Cerrado(s: Sistema, t: nat)
  {
    t < |s.caja.turnos| && !s.caja.turnos[t].abierto
  }

  /** How far a run has moved the expected cash of shift t since it closed. */
  ghost function Deriva(pasos: seq<Paso>, t: nat): int
  {
    if |pasos| == 0 then 0
    else
      var n := |pasos| - 1;
      var antes := Correr(INICIAL, pasos[..n]);
      InvEnTodaCorrida(pasos[..n]);
      if Cerrado(antes, t) then Deriva(pasos[..n], t) + Mueve(antes, pasos[n], t) else 0
  }

  /** No step since the close was of the three kinds. */
  ghost predicate QuietoDesdeElCierre(pasos: seq<Paso>, t: nat)
  {
    |pasos| > 0 ==>
      var n := |pasos| - 1;
      var antes := Correr(INICIAL, pasos[..n]);
      Cerrado(antes, t) ==> QuietoDesdeElCierre(pasos[..n], t) && !MueveLaCaja(antes, pasos[n], t)
  }

  lemma CierreAlEjecutar(s: Sistema, paso: Paso, t: nat)
    requires Inv(s) && Cerrado(Ejecutar(s, paso), t)
    ensures Ejecutar(s, paso).caja.turnos[t].cierre.Some?
    ensures if Cerrado(s, t) then Ejecutar(s, paso).caja.turnos[t] == s.caja.turnos[t]
            else
              && Ejecutar(s, paso).caja.movimientos == s.caja.movimientos
              && Ejecutar(s, paso).caja.turnos[t].cierre.value.montoEsperado == EfectivoEsperado(s.caja.movimientos, t)
  {
    InvAlEjecutar(s, paso);
    SoloCerrarCierra(s, paso);
  }

  /** Shifts change only by being opened at the end of the table, or closed. */
  lemma SoloCerrarCierra(s: Sistema, paso: Paso)
    requires Inv(s)
    ensures var c, r := s.caja, Ejecutar(s, paso).caja;
            match paso
            case Abrir(sede, fondo) => r.turnos == c.turnos || r.turnos == c.turnos + [Turno(sede, fondo, true, None)]
            case Cerrar(t, contado) =>
              && r.movimientos == c.movimientos
              && (r.turnos == c.turnos
                  || (t < |c.turnos| && c.turnos[t].abierto
                      && r.turnos == c.turnos[t := c.turnos[t].(abierto := false, cierre := Some(
                           Cierre(EfectivoEsperado(c.movimientos, t), contado,
                                  contado - EfectivoEsperado(c.movimientos, t))))]))
            case _ => r.turnos == c.turnos
  {
    if paso.Cobrar? && paso.p in s.procesos && s.procesos[paso.p].ConTurno? {
      CobrarNoTocaTurnos(s, paso.p);
    }
  }

  lemma CobrarNoTocaTurnos(s: Sistema, p: nat)
    requires p in s.procesos && s.procesos[p].ConTurno?
    ensures PasoCobrar(s, p).caja.turnos == s.caja.turnos
  {
    var pr := s.procesos[p];
    var ctx := ContextoDe(pr, s.reloj);
    CobroEsCombinado(s.caja, ctx, pr.orden);
    TramosSuman(s.caja.(cuentas := Proyectar(s.caja.cuentas, ctx)), ctx, Pagado(s.caja.transacciones, ctx.cuenta) == 0,
                PendienteAntes(s.caja.transacciones, ctx), PartesDe(pr.orden));
  }

  /** In every run, the expected cash of a closed shift is what its close recorded plus what has moved it
      since; so the two agree exactly when those movements add up to nothing. */
  lemma {:induction false} ElCierreMasLaDeriva(pasos: seq<Paso>, t: nat)
    requires Cerrado(Correr(INICIAL, pasos), t)
    ensures var s := Correr(INICIAL, pasos);
            && s.caja.turnos[t].cierre.Some?
            && EfectivoEsperado(s.caja.movimientos, t) == s.caja.turnos[t].cierre.value.montoEsperado + Deriva(pasos, t)
  {
    if |pasos| > 0 {
      var n := |pasos| - 1;
      var antes := Correr(INICIAL, pasos[..n]);
      InvEnTodaCorrida(pasos[..n]);
      CierreAlEjecutar(antes, pasos[n], t);
      if Cerrado(antes, t) {
        ElCierreMasLaDeriva(pasos[..n], t);
        PasoMueve(antes, pasos[n], t);
      }
    }
  }

  lemma {:induction false} QuietoNoDeriva(pasos: seq<Paso>, t: nat)
    requires QuietoDesdeElCierre(pasos, t)
    ensures Deriva(pasos, t) == 0
  {
    if |pasos| > 0 {
      var n := |pasos| - 1;
      var antes := Correr(INICIAL, pasos[..n]);
      InvEnTodaCorrida(pasos[..n]);
      if Cerrado(antes, t) {
        QuietoNoDeriva(pasos[..n], t);
        MueveSii(antes, pasos[n], t);
      }
    }
  }

  /** With no such step since, the recorded close is the shift's expected cash now. */
  lemma ElCierreSigueVigente(pasos: seq<Paso>, t: nat)
    requires Cerrado(Correr(INICIAL, pasos), t) && QuietoDesdeElCierre(pasos, t)
    ensures var s := Correr(INICIAL, pasos);
            && s.caja.turnos[t].cierre.Some?
            && s.caja.turnos[t].cierre.value.montoEsperado == EfectivoEsperado(s.caja.movimientos, t)
  {
    ElCierreMasLaDeriva(pasos, t);
    QuietoNoDeriva(pasos, t);
  }
}
