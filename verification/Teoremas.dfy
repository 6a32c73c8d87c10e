/** What holds in every state the cash desk can reach, under any interleaving of its processes. */
module Teoremas {
  import opened Comun
  import opened Tablas
  import opened Ventas
  import opened Saldos
  import opened Turnos
  import opened Proyeccion
  import opened Protocolo
  import opened Filas
  import opened Invariante

  /** However stale the snapshots, an account never pays more than its latest accepted one owed, plus a cent. */
  lemma NingunaCuentaSeCobraDeMas(s: Sistema, i: nat)
    requires Alcanzable(s) && i < |s.caja.transacciones|
    requires forall j :: i < j < |s.caja.transacciones| ==>
               s.caja.transacciones[j].cuenta != s.caja.transacciones[i].cuenta
    ensures var t := s.caja.transacciones[i];
            i < |s.totales| && Pagado(s.caja.transacciones, t.cuenta) <= Max0(s.totales[i] - t.descuento) + TOLERANCIA
  {
    LoAlcanzableEsSano(s);
    NuncaCobraDeMas(s.caja, s.totales, i);
  }

  /** Payment number i publishes one event, the i-th, announcing what its own snapshot then still owed. */
  lemma CadaPagoAnunciaSuSaldo(s: Sistema, i: nat)
    requires Alcanzable(s) && i < |s.caja.transacciones|
    ensures var t, eventos := s.caja.transacciones[i], SoloPagos(s.caja.outbox);
            && |eventos| == |s.caja.transacciones| == |s.totales|
            && eventos[i].PagoRegistrado? && eventos[i].transaccion == i
            && eventos[i].cuenta == t.cuenta && eventos[i].monto == t.monto
            && eventos[i].pendiente
               == Max0(s.totales[i] - t.descuento - Pagado(s.caja.transacciones[..i + 1], t.cuenta))
  {
    LoAlcanzableEsSano(s);
    assert EventoFiel(SoloPagos(s.caja.outbox)[i], s.caja.transacciones, s.totales, i);
  }

  /** One discount per account, shown once by the drawer, and the one the cron would close with. */
  lemma UnSoloDescuento(s: Sistema, cuenta: CuentaId)
    requires Alcanzable(s)
    ensures var c := s.caja;
            TienePagos(c.transacciones, cuenta) ==>
              && TodosConDescuento(c.transacciones, cuenta, DescuentoEnCascada(c.movimientos, cuenta))
              && Agregar(c.transacciones, cuenta).descuento == DescuentoEnCascada(c.movimientos, cuenta)
  {
    LoAlcanzableEsSano(s);
    var c := s.caja;
    DescuentoCobradoEsElDeTodos(c.transacciones, cuenta);
    if TienePagos(c.transacciones, cuenta) { MaximoEsElCobrado(c.transacciones, cuenta); }
  }

  /** The transacciones that came from a queue row. */
  ghost predicate VieneDe(s: Sistema, i: nat, f: nat)
  {
    i < |s.origen| && s.origen[i] == Some(f)
  }

  /**
   A queue row is charged at most once, as it was written, whatever drains race for it and wherever
   they die. PROCESADO names the payment; PENDIENTE has none; FALLIDO has one exactly when the write
   of PROCESADO was what failed.
   */
  lemma CadaFilaSeCobraALoMasUnaVez(s: Sistema, f: nat)
    requires Alcanzable(s) && f < |s.caja.pendientes|
    ensures var fila := s.caja.pendientes[f];
            && (forall i: nat, j: nat :: VieneDe(s, i, f) && VieneDe(s, j, f) ==> i == j)
            && (forall i: nat :: VieneDe(s, i, f) ==>
                  && i < |s.caja.transacciones|
                  && s.caja.transacciones[i].cuenta == fila.comando.cuenta
                  && s.caja.transacciones[i].monto == fila.comando.monto
                  && s.caja.transacciones[i].descuento == fila.comando.descuento.GetOr(0))
            && (fila.estado == PROCESADO ==> fila.transaccion.Some? && VieneDe(s, fila.transaccion.value, f))
            && (fila.estado == PENDIENTE ==> forall i: nat :: !VieneDe(s, i, f))
            && (fila.estado == FALLIDO ==> ((exists i: nat :: VieneDe(s, i, f)) <==> f in s.malEscritas))
  {
    LoAlcanzableEsSano(s);
    assert FilaBien(s.caja.pendientes[f], f, s.origen, s.malEscritas);
    forall i: nat | VieneDe(s, i, f)
      ensures OrigenBien(s.caja.transacciones[i], s.origen[i], s.caja.pendientes) && Some(f) in s.origen
    {
    }
    if Some(f) in s.origen {
      var i :| 0 <= i < |s.origen| && s.origen[i] == Some(f);
      assert VieneDe(s, i, f);
    }
  }

  /** The shift summary, the method totals and the audit table always tell one story. */
  lemma ElResumenCuadraSiempre(s: Sistema, turno: nat)
    requires Alcanzable(s)
    ensures var c := s.caja;
            && (forall metodo ::
                TotalVentas(c.movimientos, turno, metodo) == TotalTransacciones(c.transacciones, turno, metodo))
            && TotalVentas(c.movimientos, turno, None) ==
                 TotalVentas(c.movimientos, turno, Some(EFECTIVO)) + TotalVentas(c.movimientos, turno, Some(TARJETA))
                 + TotalVentas(c.movimientos, turno, Some(YAPE)) + TotalVentas(c.movimientos, turno, Some(PLIN))
                 + TotalVentas(c.movimientos, turno, Some(TRANSFERENCIA))
            && |CuentasVendidas(c.movimientos, turno)| + VentasSinCuenta(c.movimientos, turno)
               == |set i | 0 <= i < |c.transacciones| && c.transacciones[i].turno == turno :: c.transacciones[i].cuenta|
  {
    LoAlcanzableEsSano(s);
    var c := s.caja;
    forall metodo
      ensures TotalVentas(c.movimientos, turno, metodo) == TotalTransacciones(c.transacciones, turno, metodo)
    {
      ResumenCuadra(c.movimientos, c.transacciones, turno, metodo);
    }
    ResumenCuadra(c.movimientos, c.transacciones, turno, None);
    LosMetodosParten(c.movimientos, Consulta(turno, Some(VENTA), None, MONTO));
  }

  /** Racing openings included: one open shift per branch at most, and a log that strictly alternates. */
  lemma LosTurnosAlternan(s: Sistema, sede: SedeId)
    requires Alcanzable(s)
    ensures var c := s.caja;
            var eventos := EventosDeSede(c.outbox, sede);
            && (forall i, j :: 0 <= i < j < |c.turnos| && c.turnos[i].abierto && c.turnos[j].abierto ==>
                  c.turnos[i].sede != c.turnos[j].sede)
            && Alternan(eventos)
            && TurnoAbierto(c.turnos, sede) == if |eventos| % 2 == 1 then Some(eventos[|eventos| - 1].turno) else None
  {
    LoAlcanzableEsSano(s);
    var c := s.caja;
    assert SedeEnOrden(c.turnos, EventosDeSede(c.outbox, sede), sede);
  }

  /** The expected cash of any shift at any moment, corrections and late arrivals included. */
  lemma ElEfectivoCuadraSiempre(s: Sistema, t: nat)
    requires Alcanzable(s) && t < |s.caja.turnos|
    ensures var c := s.caja;
            EfectivoEsperado(c.movimientos, t) ==
            c.turnos[t].fondoInicial + DeTipo(c.movimientos, t, INGRESO) + DeTipo(c.movimientos, t, AJUSTE)
            - EgresosAbsolutos(c.movimientos, t)
            + TotalTransacciones(c.transacciones, t, Some(EFECTIVO)) + PropinasEnEfectivo(c.movimientos, t)
  {
    LoAlcanzableEsSano(s);
    EfectivoCuadra(s.caja, t);
  }

  /** Every account the cron picks, unless reopened after its close, is one registrarPago would call
      fully paid at the moment it is picked, and it is listed with the discount it was charged. */
  lemma ElCronSoloEligeCobradas(s: Sistema, p: nat, orden: seq<CuentaId>, k: nat)
    requires Alcanzable(s) && p in s.procesos && s.procesos[p].CronAgregado?
    requires k < |TrasFiltrar(s.caja, s.procesos[p], orden).lista|
    ensures var (cuenta, descuento) := TrasFiltrar(s.caja, s.procesos[p], orden).lista[k];
            && |s.totales| == |s.caja.transacciones|
            && descuento == DescuentoCobrado(s.caja.transacciones, cuenta)
            && (cuenta !in s.reabiertas ==> RegistrarPagoLaDaPorCobrada(s.caja.transacciones, s.totales, cuenta))
  {
    LoAlcanzableEsSano(s);
    var pr := s.procesos[p];
    assert ProcesoSano(s.caja, pr);
    var ids := Primeras(Filtrar(orden, s.caja.cuentas, pr.agregados, pr.corte), LIMITE_POR_TICK);
    var lista := TrasFiltrar(s.caja, pr, orden).lista;
    assert ids[k] in Filtrar(orden, s.caja.cuentas, pr.agregados, pr.corte);
    FiltradasSonElegibles(orden, s.caja.cuentas, pr.agregados, pr.corte, ids[k]);
    assert lista[k] == (ids[k], pr.agregados[ids[k]].descuento);
    if ids[k] !in s.reabiertas {
      ElegibleEstaCobrada(s.caja, s.totales, s.reabiertas, pr.agregados, pr.corte, ids[k]);
    }
  }
}
