/**
 Shifts: opening under the partial unique index, closing, manual movements, and what a closed drawer
 records as its expected cash.
 */
module Turnos {
  import opened Comun
  import opened Tablas
  import opened Cobros
  import opened Ventas

  /** The transaction of abrirTurno; the unique index turns a second open shift of a branch away. */
  function AperturaTx(c: Caja, sede: SedeId, fondoInicial: int): Option<Caja>
  {
    if TurnoAbierto(c.turnos, sede).Some? then None
    else
      var id := |c.turnos|;
      Some(c.(turnos := c.turnos + [Turno(sede, fondoInicial, true, None)],
              movimientos := c.movimientos
                + [Movimiento(id, APERTURA, None, None, EFECTIVO, fondoInicial, 0, 0, Libre(None))],
              outbox := c.outbox + [TurnoCajaAbierto(id, sede)]))
  }

  /** The transaction of cerrarTurno, with the cash that was counted. */
  function CierreTx(c: Caja, t: nat, contado: int): Result<Caja, Motivo>
  {
    if t >= |c.turnos| then Failure(TurnoNoEncontrado)
    else if !c.turnos[t].abierto then Failure(TurnoYaCerrado)
    else
      var esperado := EfectivoEsperado(c.movimientos, t);
      var cierre := Cierre(esperado, contado, contado - esperado);
      Success(c.(turnos := c.turnos[t := c.turnos[t].(abierto := false, cierre := Some(cierre))],
                 outbox := c.outbox + [TurnoCajaCerrado(t, c.turnos[t].sede)]))
  }

  function Abs(x: int): int { if x < 0 then -x else x }

  /** crearMovimiento: always cash, and an EGRESO leaves the drawer whatever its sign. */
  function MovimientoManual(t: nat, tipo: TipoMovimiento, monto: int, motivo: Nota): Movimiento
  {
    Movimiento(t, tipo, None, None, EFECTIVO, if tipo == EGRESO then -Abs(monto) else Abs(monto), 0, 0, motivo)
  }

  /* ---- at most one open shift per branch, and a strictly alternating log ---- */

  function EventosDeSede(outbox: seq<Evento>, sede: SedeId): seq<Evento>
  {
    if |outbox| == 0 then []
    else
      var e := outbox[|outbox| - 1];
      EventosDeSede(outbox[..|outbox| - 1], sede)
      + if !e.PagoRegistrado? && e.sede == sede then [e] else []
  }

  ghost predicate Alternan(eventos: seq<Evento>)
  {
    && (forall k :: 0 <= k < |eventos| && k % 2 == 0 ==> eventos[k].TurnoCajaAbierto?)
    && (forall k :: 0 <= k < |eventos| && k % 2 == 1 ==>
          eventos[k] == TurnoCajaCerrado(eventos[k - 1].turno, eventos[k - 1].sede))
    && (forall k, l :: 0 <= k < l < |eventos| && k % 2 == 0 && l % 2 == 0 ==> eventos[k].turno < eventos[l].turno)
  }

  ghost predicate UnAbiertoPorSede(turnos: seq<Turno>)
  {
    forall i, j :: 0 <= i < j < |turnos| && turnos[i].abierto && turnos[j].abierto ==> turnos[i].sede != turnos[j].sede
  }

  /** The log of a branch alternates and ends in an opening exactly while that shift is open. */
  ghost predicate SedeEnOrden(turnos: seq<Turno>, eventos: seq<Evento>, sede: SedeId)
  {
    && Alternan(eventos)
    && (forall k :: 0 <= k < |eventos| ==>
          && !eventos[k].PagoRegistrado? && eventos[k].sede == sede
          && eventos[k].turno < |turnos| && turnos[eventos[k].turno].sede == sede)
    && TurnoAbierto(turnos, sede) == if |eventos| % 2 == 1 then Some(eventos[|eventos| - 1].turno) else None
  }

  ghost predicate TurnosEnOrden(c: Caja)
  {
    && UnAbiertoPorSede(c.turnos)
    && (forall t :: 0 <= t < |c.turnos| ==> (c.turnos[t].abierto <==> c.turnos[t].cierre.None?))
    && (forall sede :: SedeEnOrden(c.turnos, EventosDeSede(c.outbox, sede), sede))
  }

  lemma EventosAgrega(outbox: seq<Evento>, e: Evento, sede: SedeId)
    ensures EventosDeSede(outbox + [e], sede)
            == EventosDeSede(outbox, sede) + if !e.PagoRegistrado? && e.sede == sede then [e] else []
  {
    assert (outbox + [e])[..|outbox|] == outbox;
  }

  lemma SedeAlAbrir(turnos: seq<Turno>, eventos: seq<Evento>, nuevo: Turno, sede: SedeId)
    requires SedeEnOrden(turnos, eventos, sede) && nuevo.abierto
    requires nuevo.sede == sede ==> TurnoAbierto(turnos, sede).None?
    ensures SedeEnOrden(turnos + [nuevo],
                        eventos + if nuevo.sede == sede then [TurnoCajaAbierto(|turnos|, sede)] else [], sede)
  {
    assert (turnos + [nuevo])[..|turnos|] == turnos;
  }

  lemma SedeAlCerrar(turnos: seq<Turno>, eventos: seq<Evento>, t: nat, cerrado: Turno, sede: SedeId)
    requires SedeEnOrden(turnos, eventos, sede) && UnAbiertoPorSede(turnos)
    requires t < |turnos| && turnos[t].abierto && !cerrado.abierto && cerrado.sede == turnos[t].sede
    ensures SedeEnOrden(turnos[t := cerrado],
                        eventos + if cerrado.sede == sede then [TurnoCajaCerrado(t, sede)] else [], sede)
  {
    AbiertoUnico(turnos, t);
    AbiertoTrasCerrar(turnos, t, cerrado, sede);
  }

  lemma OrdenAlAbrir(c: Caja, sede: SedeId, fondoInicial: int)
    requires TurnosEnOrden(c)
    ensures AperturaTx(c, sede, fondoInicial).Some? ==> TurnosEnOrden(AperturaTx(c, sede, fondoInicial).value)
    ensures AperturaTx(c, sede, fondoInicial).Some? ==>
              TurnoAbierto(AperturaTx(c, sede, fondoInicial).value.turnos, sede) == Some(|c.turnos|)
  {
    TurnoAbiertoEsAbierto(c.turnos, sede);
    if AperturaTx(c, sede, fondoInicial).Some? {
      var r := AperturaTx(c, sede, fondoInicial).value;
      assert r.turnos[..|c.turnos|] == c.turnos;
      forall s ensures SedeEnOrden(r.turnos, EventosDeSede(r.outbox, s), s) {
        EventosAgrega(c.outbox, TurnoCajaAbierto(|c.turnos|, sede), s);
        SedeAlAbrir(c.turnos, EventosDeSede(c.outbox, s), r.turnos[|c.turnos|], s);
      }
    }
  }

  lemma {:induction false} AbiertoUnico(turnos: seq<Turno>, t: nat)
    requires UnAbiertoPorSede(turnos) && t < |turnos| && turnos[t].abierto
    ensures TurnoAbierto(turnos, turnos[t].sede) == Some(t)
  {
    if t < |turnos| - 1 {
      AbiertoUnico(turnos[..|turnos| - 1], t);
    }
  }

  lemma {:induction false} AbiertoTrasCerrar(turnos: seq<Turno>, t: nat, cerrado: Turno, sede: SedeId)
    requires UnAbiertoPorSede(turnos) && t < |turnos| && turnos[t].abierto
    requires !cerrado.abierto
    ensures TurnoAbierto(turnos[t := cerrado], sede)
            == if sede == turnos[t].sede then None else TurnoAbierto(turnos, sede)
  {
    var despues := turnos[t := cerrado];
    TurnoAbiertoEsAbierto(despues, sede);
    TurnoAbiertoEsAbierto(turnos, sede);
    if sede != turnos[t].sede {
      if TurnoAbierto(turnos, sede).Some? {
        AbiertoUnico(despues, TurnoAbierto(turnos, sede).value);
      } else if TurnoAbierto(despues, sede).Some? {
        AbiertoUnico(turnos, TurnoAbierto(despues, sede).value);
      }
    }
  }

  lemma OrdenAlCerrar(c: Caja, t: nat, contado: int)
    requires TurnosEnOrden(c)
    ensures CierreTx(c, t, contado).Success? ==> TurnosEnOrden(CierreTx(c, t, contado).value)
  {
    if CierreTx(c, t, contado).Success? {
      var r := CierreTx(c, t, contado).value;
      forall s ensures SedeEnOrden(r.turnos, EventosDeSede(r.outbox, s), s) {
        EventosAgrega(c.outbox, TurnoCajaCerrado(t, c.turnos[t].sede), s);
        SedeAlCerrar(c.turnos, EventosDeSede(c.outbox, s), t, r.turnos[t], s);
      }
    }
  }

  /* ---- the expected cash of a drawer ---- */

  function EgresosAbsolutos(movs: seq<Movimiento>, t: nat): int
  {
    if |movs| == 0 then 0
    else
      var m := movs[|movs| - 1];
      EgresosAbsolutos(movs[..|movs| - 1], t) + if m.turno == t && m.tipo == EGRESO then Abs(m.monto) else 0
  }

  function DeTipo(movs: seq<Movimiento>, t: nat, tipo: TipoMovimiento): int
  {
    Suma(movs, Consulta(t, Some(tipo), None, MONTO))
  }

  function PropinasEnEfectivo(movs: seq<Movimiento>, t: nat): int
  {
    Suma(movs, Consulta(t, Some(VENTA), Some(EFECTIVO), PROPINA))
  }

  ghost predicate MovimientoSano(m: Movimiento)
  {
    && (m.tipo != VENTA ==> m.metodo == EFECTIVO && m.propina == 0 && m.transaccion.None?)
    && m.propina >= 0
    && (m.tipo == INGRESO || m.tipo == AJUSTE ==> m.monto >= 0)
    && (m.tipo == EGRESO ==> m.monto <= 0)
  }

  ghost predicate MovimientosSanos(movs: seq<Movimiento>, turnos: seq<Turno>)
  {
    && (forall k :: 0 <= k < |movs| ==> MovimientoSano(movs[k]) && movs[k].turno < |turnos|)
    && (forall t :: 0 <= t < |turnos| ==> DeTipo(movs, t, APERTURA) == turnos[t].fondoInicial)
  }

  lemma {:induction false} EfectivoPorPartes(movs: seq<Movimiento>, t: nat)
    requires forall k :: 0 <= k < |movs| ==> MovimientoSano(movs[k])
    ensures EfectivoEsperado(movs, t) ==
            DeTipo(movs, t, APERTURA) + DeTipo(movs, t, INGRESO) + DeTipo(movs, t, AJUSTE) - EgresosAbsolutos(movs, t)
            + TotalVentas(movs, t, Some(EFECTIVO)) + PropinasEnEfectivo(movs, t)
  {
    if |movs| != 0 {
      assert MovimientoSano(movs[|movs| - 1]);
      EfectivoPorPartes(movs[..|movs| - 1], t);
    }
  }

  /** The drawer should hold: the float, what was put in, minus what was taken out, plus the shift's
      cash sales as the audit table has them now, plus their tips. */
  lemma EfectivoCuadra(c: Caja, t: nat)
    requires MovimientosSanos(c.movimientos, c.turnos) && Concuerdan(c.movimientos, c.transacciones)
    requires t < |c.turnos|
    ensures EfectivoEsperado(c.movimientos, t) ==
            c.turnos[t].fondoInicial + DeTipo(c.movimientos, t, INGRESO) + DeTipo(c.movimientos, t, AJUSTE)
            - EgresosAbsolutos(c.movimientos, t)
            + TotalTransacciones(c.transacciones, t, Some(EFECTIVO)) + PropinasEnEfectivo(c.movimientos, t)
  {
    EfectivoPorPartes(c.movimientos, t);
    ResumenCuadra(c.movimientos, c.transacciones, t, Some(EFECTIVO));
  }

  /** What cerrarTurno stores is that figure at closing time and the counted cash minus it. */
  lemma CierreGuardaLoEsperado(c: Caja, t: nat, contado: int)
    requires MovimientosSanos(c.movimientos, c.turnos) && Concuerdan(c.movimientos, c.transacciones)
    requires CierreTx(c, t, contado).Success?
    ensures var r := CierreTx(c, t, contado).value;
            var deberiaHaber := c.turnos[t].fondoInicial
              + DeTipo(r.movimientos, t, INGRESO) + DeTipo(r.movimientos, t, AJUSTE)
              - EgresosAbsolutos(r.movimientos, t)
              + TotalTransacciones(r.transacciones, t, Some(EFECTIVO)) + PropinasEnEfectivo(r.movimientos, t);
            && !r.turnos[t].abierto
            && r.turnos[t].cierre == Some(Cierre(deberiaHaber, contado, contado - deberiaHaber))
            && r.outbox == c.outbox + [TurnoCajaCerrado(t, c.turnos[t].sede)]
  {
    EfectivoCuadra(c, t);
  }

  lemma SumaAgrega(movs: seq<Movimiento>, m: Movimiento, q: Consulta)
    ensures Suma(movs + [m], q) == Suma(movs, q) + Aporte(m, q)
  {
    assert (movs + [m])[..|movs|] == movs;
  }

  /** What one more movement does to each figure of the summary: a sale of any method brings its tip, only
      cash reaches the drawer, and a movement counts for its own shift and kind alone. */
  lemma UnMovimientoMas(movs: seq<Movimiento>, m: Movimiento, t: nat, tipo: TipoMovimiento, metodo: Option<Metodo>)
    ensures var r := movs + [m];
            && EfectivoEsperado(r, t) == EfectivoEsperado(movs, t)
                                         + (if m.turno == t && m.metodo == EFECTIVO then m.monto + m.propina else 0)
            && TotalVentas(r, t, metodo) == TotalVentas(movs, t, metodo)
                                            + (if m.turno == t && m.tipo == VENTA
                                                  && (metodo.None? || metodo.value == m.metodo) then m.monto else 0)
            && DeTipo(r, t, tipo) == DeTipo(movs, t, tipo) + (if m.turno == t && m.tipo == tipo then m.monto else 0)
            && Propinas(r, t) == Propinas(movs, t) + (if m.turno == t then m.propina else 0)
    ensures EfectivoEsperado([], t) == TotalVentas([], t, metodo) == DeTipo([], t, tipo) == Propinas([], t) == 0
  {
    SumaAgrega(movs, m, Consulta(t, None, Some(EFECTIVO), MONTO_Y_PROPINA));
    SumaAgrega(movs, m, Consulta(t, Some(VENTA), metodo, MONTO));
    SumaAgrega(movs, m, Consulta(t, Some(tipo), None, MONTO));
    SumaAgrega(movs, m, Consulta(t, None, None, PROPINA));
  }

  /** A manual movement moves the expected cash of its own shift, and no sale. */
  lemma ManualMueveSuTurno(movs: seq<Movimiento>, m: Movimiento)
    requires m.tipo != VENTA && m.metodo == EFECTIVO && m.propina == 0
    ensures forall x :: EfectivoEsperado(movs + [m], x) == EfectivoEsperado(movs, x)
                                                           + if x != m.turno then 0 else m.monto
    ensures forall x, metodo :: TotalVentas(movs + [m], x, metodo) == TotalVentas(movs, x, metodo)
  {
    forall x, metodo
      ensures EfectivoEsperado(movs + [m], x) == EfectivoEsperado(movs, x) + if x != m.turno then 0 else m.monto
      ensures TotalVentas(movs + [m], x, metodo) == TotalVentas(movs, x, metodo)
    {
      UnMovimientoMas(movs, m, x, VENTA, metodo);
    }
  }

  lemma SanosAlAgregar(movs: seq<Movimiento>, turnos: seq<Turno>, m: Movimiento)
    requires MovimientosSanos(movs, turnos) && MovimientoSano(m) && m.turno < |turnos| && m.tipo != APERTURA
    ensures MovimientosSanos(movs + [m], turnos)
  {
    forall t | 0 <= t < |turnos| ensures DeTipo(movs + [m], t, APERTURA) == turnos[t].fondoInicial {
      SumaAgrega(movs, m, Consulta(t, Some(APERTURA), None, MONTO));
    }
  }

  lemma {:induction false} SinMovimientosSumaCero(movs: seq<Movimiento>, q: Consulta)
    requires forall k :: 0 <= k < |movs| ==> movs[k].turno != q.turno
    ensures Suma(movs, q) == 0
  {
    if |movs| != 0 {
      SinMovimientosSumaCero(movs[..|movs| - 1], q);
    }
  }

  lemma SanosAlAbrir(movs: seq<Movimiento>, turnos: seq<Turno>, turno: Turno, m: Movimiento)
    requires MovimientosSanos(movs, turnos) && MovimientoSano(m)
    requires m.turno == |turnos| && m.tipo == APERTURA && m.monto == turno.fondoInicial
    ensures MovimientosSanos(movs + [m], turnos + [turno])
  {
    forall t | 0 <= t <= |turnos| ensures DeTipo(movs + [m], t, APERTURA) == (turnos + [turno])[t].fondoInicial {
      SumaAgrega(movs, m, Consulta(t, Some(APERTURA), None, MONTO));
      if t == |turnos| { SinMovimientosSumaCero(movs, Consulta(t, Some(APERTURA), None, MONTO)); }
    }
  }

  lemma {:induction false} AperturasCorregidas(movs: seq<Movimiento>, id: nat, metodo: Metodo, t: nat)
    ensures DeTipo(CorregirMovimientos(movs, id, metodo), t, APERTURA) == DeTipo(movs, t, APERTURA)
  {
    if |movs| != 0 {
      AperturasCorregidas(movs[..|movs| - 1], id, metodo, t);
      var m := movs[|movs| - 1];
      SumaAgrega(CorregirMovimientos(movs[..|movs| - 1], id, metodo),
                 if m.transaccion == Some(id) then m.(metodo := metodo) else m,
                 Consulta(t, Some(APERTURA), None, MONTO));
    }
  }

  lemma SanosAlCorregir(movs: seq<Movimiento>, turnos: seq<Turno>, id: nat, metodo: Metodo)
    requires MovimientosSanos(movs, turnos)
    ensures MovimientosSanos(CorregirMovimientos(movs, id, metodo), turnos)
  {
    CorregirPorFila(movs, id, metodo);
    forall t | 0 <= t < |turnos|
      ensures DeTipo(CorregirMovimientos(movs, id, metodo), t, APERTURA) == turnos[t].fondoInicial
    {
      AperturasCorregidas(movs, id, metodo, t);
    }
  }

  /* ---- what booking sales does to all of the above ---- */

  ghost predicate CajonEnOrden(c: Caja)
  {
    Concuerdan(c.movimientos, c.transacciones) && MovimientosSanos(c.movimientos, c.turnos) && TurnosEnOrden(c)
  }

  ghost predicate PropinasValidas(partes: seq<Parte>)
  {
    forall i :: 0 <= i < |partes| ==> partes[i].propina >= 0
  }

  lemma CajonAlAsentar(c: Caja, ctx: Contexto, p: Parte, descuentoMov: int, pendiente: int)
    requires CajonEnOrden(c) && ctx.turno < |c.turnos| && p.propina >= 0
    ensures CajonEnOrden(Asentar(c, ctx, p, descuentoMov, pendiente))
  {
    var r := Asentar(c, ctx, p, descuentoMov, pendiente);
    var m, t, e := r.movimientos[|c.movimientos|], r.transacciones[|c.transacciones|], r.outbox[|c.outbox|];
    assert Concuerdan(r.movimientos, r.transacciones) by { ConcuerdanAlCobrar(c.movimientos, c.transacciones, m, t); }
    assert MovimientosSanos(r.movimientos, r.turnos) by { SanosAlAgregar(c.movimientos, c.turnos, m); }
    assert TurnosEnOrden(r) by {
      forall sede ensures SedeEnOrden(r.turnos, EventosDeSede(r.outbox, sede), sede) {
        EventosAgrega(c.outbox, e, sede);
        assert SedeEnOrden(c.turnos, EventosDeSede(c.outbox, sede), sede);
        assert EventosDeSede(r.outbox, sede) == EventosDeSede(c.outbox, sede);
      }
    }
  }

  lemma {:induction false} CajonTrasTramos(c: Caja, ctx: Contexto, primera: bool, pendiente: nat, partes: seq<Parte>)
    requires CajonEnOrden(c) && ctx.turno < |c.turnos| && PropinasValidas(partes)
    ensures CajonEnOrden(TrasTramos(c, ctx, primera, pendiente, partes))
  {
    if |partes| != 0 {
      var n := |partes| - 1;
      CajonTrasTramos(c, ctx, primera, pendiente, partes[..n]);
      assert TrasTramos(c, ctx, primera, pendiente, partes[..n]).turnos == c.turnos by {
        TramosSuman(c, ctx, primera, pendiente, partes[..n]);
      }
      CajonAlAsentar(TrasTramos(c, ctx, primera, pendiente, partes[..n]), ctx, partes[n],
                      if primera && n == 0 then ctx.descuento else 0, PendienteTras(pendiente, partes));
    }
  }

  lemma CajonAlCobrar(c: Caja, ctx: Contexto, partes: seq<Parte>)
    requires CajonEnOrden(c) && ctx.turno < |c.turnos| && PropinasValidas(partes)
    ensures CombinadoTx(c, ctx, partes).Success? ==> CajonEnOrden(CombinadoTx(c, ctx, partes).value.caja)
  {
    var base := c.(cuentas := Proyectar(c.cuentas, ctx));
    assert CajonEnOrden(base);
    CajonTrasTramos(base, ctx, Pagado(c.transacciones, ctx.cuenta) == 0, PendienteAntes(c.transacciones, ctx), partes);
  }

  lemma CajonAlAbrir(c: Caja, sede: SedeId, fondoInicial: int)
    requires CajonEnOrden(c) && AperturaTx(c, sede, fondoInicial).Some?
    ensures CajonEnOrden(AperturaTx(c, sede, fondoInicial).value)
  {
    var r := AperturaTx(c, sede, fondoInicial).value;
    var m := r.movimientos[|c.movimientos|];
    OrdenAlAbrir(c, sede, fondoInicial);
    ConcuerdanSinVenta(c.movimientos, c.transacciones, m);
    SanosAlAbrir(c.movimientos, c.turnos, r.turnos[|c.turnos|], m);
  }

  lemma CajonAlCerrar(c: Caja, t: nat, contado: int)
    requires CajonEnOrden(c) && CierreTx(c, t, contado).Success?
    ensures CajonEnOrden(CierreTx(c, t, contado).value)
  {
    OrdenAlCerrar(c, t, contado);
  }

  lemma CajonAlMover(c: Caja, m: Movimiento)
    requires CajonEnOrden(c) && MovimientoSano(m) && m.turno < |c.turnos| && m.tipo != APERTURA && m.tipo != VENTA
    ensures CajonEnOrden(c.(movimientos := c.movimientos + [m]))
  {
    ConcuerdanSinVenta(c.movimientos, c.transacciones, m);
    SanosAlAgregar(c.movimientos, c.turnos, m);
  }
}
