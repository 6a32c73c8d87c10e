/**
 The cash desk as a concurrent machine: any number of requests, queue drains and cron ticks, each cut
 into the steps between two awaits, interleaved with shift operations, account events and deaths.

 Every `$transaction` is one step. The answers of servicio-cuentas are parameters of the steps, so a
 snapshot may be arbitrarily stale by the time it is used and a remote close may fail; a failed close
 also stands for a process that dies between the remote close and the update that follows it.
 */
module Protocolo {
  import opened Comun
  import opened Tablas
  import opened Cobros
  import opened Ventas
  import opened Saldos
  import opened Turnos
  import opened Proyeccion

  /** A payment being served; `fila` names the queue row it came from. */
  datatype Orden =
    | Simple(comando: ComandoPago, fila: Option<nat>)
    | Combinado(comando': ComandoCombinado)

  function CuentaDe(o: Orden): CuentaId
  {
    match o
    case Simple(c, _) => c.cuenta
    case Combinado(c) => c.cuenta
  }

  function DescuentoDe(o: Orden): int
  {
    match o
    case Simple(c, _) => c.descuento.GetOr(0)
    case Combinado(c) => c.descuento.GetOr(CERO).centimos
  }

  function FilaDe(o: Orden): Option<nat>
  {
    if o.Simple? then o.fila else None
  }

  function ParteSimple(c: ComandoPago): Parte
  {
    Parte(c.monto, c.metodo, c.propina.GetOr(0), c.notas)
  }

  function ParteDeTramo(c: ComandoCombinado, i: nat): Parte
    requires i < |c.pagos|
  {
    var tramo := c.pagos[i];
    Parte(tramo.monto.centimos, tramo.metodo, tramo.propina.GetOr(CERO).centimos, Etiqueta(i + 1, |c.pagos|, c.notas))
  }

  function PartesCombinadas(c: ComandoCombinado): (r: seq<Parte>)
    ensures |r| == |c.pagos| && forall i :: 0 <= i < |r| ==> r[i] == ParteDeTramo(c, i)
  {
    seq(|c.pagos|, i requires 0 <= i < |c.pagos| => ParteDeTramo(c, i))
  }

  function PartesDe(o: Orden): seq<Parte>
  {
    match o
    case Simple(c, _) => [ParteSimple(c)]
    case Combinado(c) => PartesCombinadas(c)
  }

  /** The checks of registrarPagoCombinado before it reads anything. */
  function RechazoPrevio(c: ComandoCombinado): Option<Motivo>
  {
    if |c.pagos| < 2 then Some(MenosDeDosTramos)
    else if exists i, j :: 0 <= i < j < |c.pagos| && c.pagos[i].metodo == c.pagos[j].metodo then Some(MetodoRepetido)
    else if exists i :: 0 <= i < |c.pagos| && SinSigno(c.pagos[i]) then Some(ImporteInvalido)
    else if exists i :: 0 <= i < |c.pagos| && ConFinos(c.pagos[i]) then Some(DemasiadosDecimales)
    else None
  }

  predicate SinSigno(t: Tramo)
  {
    !t.monto.Positivo() || t.propina.GetOr(CERO).Negativo()
  }

  predicate ConFinos(t: Tramo)
  {
    t.monto.fino || t.propina.GetOr(CERO).fino
  }

  /** The check of a combined command's discount, made once a shift was found. */
  predicate DescuentoAdmisible(c: ComandoCombinado)
  {
    !c.descuento.GetOr(CERO).Negativo() && !c.descuento.GetOr(CERO).fino
  }

  function CobroTx(c: Caja, ctx: Contexto, o: Orden): Result<Cobrado, Motivo>
  {
    match o
    case Simple(cmd, _) => PagoTx(c, ctx, ParteSimple(cmd))
    case Combinado(cmd) => CombinadoTx(c, ctx, PartesCombinadas(cmd))
  }

  datatype Fin = ConTransaccion(tx: nat) | EnCola | ConError

  datatype Proceso =
    | Pidiendo(orden: Orden, usuarioSede: Option<SedeId>)
    | ConCuenta(orden: Orden, remota: CuentaRemota)
    | ConTurno(orden: Orden, remota: CuentaRemota, turno: nat)
    | Comprometido(orden: Orden, tx: nat, neto: nat, pendiente: nat)
    | Terminado(orden: Orden, fin: Fin)
    | CronVentana(corte: int, ids: seq<CuentaId>)
    | CronAgregado(corte: int, agregados: map<CuentaId, Agregado>)
    | CronLista(lista: seq<(CuentaId, int)>)

  /**
   `totales[i]` and `origen[i]` tell, for transaccion i, the snapshot total it was accepted on and the
   queue row it came from. `reabiertas` are the accounts whose CERRADA row a CuentaAbierta set back to
   ABIERTA since their last payment, `malEscritas` the rows whose PROCESADO write failed, and
   `saldadas` one entry per accepted command that left at most a cent owing.
   */
  datatype Sistema = Sistema(caja: Caja, procesos: map<nat, Proceso>, reloj: int,
                             totales: seq<int>, origen: seq<Option<nat>>,
                             reabiertas: set<CuentaId>, malEscritas: set<nat>, saldadas: seq<CuentaId>)

  const INICIAL := Sistema(CAJA_VACIA, map[], 0, [], [], {}, {}, [])

  datatype Paso =
    | RecibirPago(p: nat, comando: ComandoPago, usuarioSede: Option<SedeId>)
    | RecibirCombinado(p: nat, combinado: ComandoCombinado, usuarioSede: Option<SedeId>)
    | Reclamar(p: nat, fila: nat)
    | LeerCuenta(p: nat, respuesta: Option<CuentaRemota>)
    | BuscarTurno(p: nat)
    | Cobrar(p: nat)
    | CerrarCuenta(p: nat, ok: bool)
    | Anotar(p: nat, ok: bool)
    | Morir(p: nat)
    | Abrir(sede: SedeId, fondoInicial: int)
    | Cerrar(turno: nat, contado: int)
    | Mover(turno: nat, tipo: TipoMovimiento, monto: int, motivo: Nota)
    | Corregir(tx: nat, metodo: Option<Metodo>, notas: Option<Nota>)
    | LlegaAbierta(cuenta: CuentaId, sede: SedeId)
    | LlegaCerrada(cuenta: CuentaId, total: int, sedeEvento: Option<SedeId>)
    | CronMirar(p: nat)
    | CronAgrupar(p: nat)
    | CronFiltrar(p: nat, orden: seq<CuentaId>)
    | CronCerrar(p: nat, ok: bool)
    | PasaTiempo(ms: nat)

  /** fetchCuenta came back, and the branch of the account is checked against the user's. */
  function TrasLeer(pr: Proceso, respuesta: Option<CuentaRemota>): Proceso
    requires pr.Pidiendo?
  {
    if respuesta.None? then Terminado(pr.orden, ConError)
    else if pr.usuarioSede.Some? && pr.usuarioSede.value != respuesta.value.sede then Terminado(pr.orden, ConError)
    else ConCuenta(pr.orden, respuesta.value)
  }

  function Encolar(c: Caja, sede: SedeId, comando: ComandoPago): Caja
  {
    c.(pendientes := c.pendientes + [PagoPendiente(sede, comando, PENDIENTE, None)])
  }

  /** The shift lookup: without an open shift a single payment queues and a combined one is refused. */
  function PasoBuscarTurno(s: Sistema, p: nat): Sistema
    requires p in s.procesos && s.procesos[p].ConCuenta?
  {
    var pr := s.procesos[p];
    match TurnoAbierto(s.caja.turnos, pr.remota.sede)
    case Some(t) =>
      if pr.orden.Combinado? && !DescuentoAdmisible(pr.orden.comando')
      then s.(procesos := s.procesos[p := Terminado(pr.orden, ConError)])
      else s.(procesos := s.procesos[p := ConTurno(pr.orden, pr.remota, t)])
    case None =>
      match pr.orden
      case Simple(comando, _) =>
        s.(caja := Encolar(s.caja, pr.remota.sede, comando), procesos := s.procesos[p := Terminado(pr.orden, EnCola)])
      case Combinado(_) => s.(procesos := s.procesos[p := Terminado(pr.orden, ConError)])
  }

  function ContextoDe(pr: Proceso, ahora: int): Contexto
    requires pr.ConTurno?
  {
    Contexto(CuentaDe(pr.orden), DescuentoDe(pr.orden), pr.remota, pr.turno, ahora)
  }

  /** The transaction under the account's lock. */
  function PasoCobrar(s: Sistema, p: nat): Sistema
    requires p in s.procesos && s.procesos[p].ConTurno?
  {
    var pr := s.procesos[p];
    var ctx := ContextoDe(pr, s.reloj);
    var n := |PartesDe(pr.orden)|;
    match CobroTx(s.caja, ctx, pr.orden)
    case Failure(_) => s.(procesos := s.procesos[p := Terminado(pr.orden, ConError)])
    case Success(r) =>
      s.(caja := r.caja,
         procesos := s.procesos[p := Comprometido(pr.orden, |s.caja.transacciones| + Max0(n - 1), Neto(ctx),
                                                  r.pendiente)],
         totales := s.totales + Repetir(pr.remota.total, n),
         origen := s.origen + Repetir(FilaDe(pr.orden), n),
         reabiertas := s.reabiertas - {ctx.cuenta},
         saldadas := if r.pendiente <= TOLERANCIA then s.saldadas + [ctx.cuenta] else s.saldadas)
  }

  /** A payment that settles the account asks for the remote close; its failure is swallowed. */
  function PasoCerrarCuenta(s: Sistema, p: nat, ok: bool): Sistema
    requires p in s.procesos && s.procesos[p].Comprometido?
  {
    var pr := s.procesos[p];
    var cuentas := if pr.pendiente <= TOLERANCIA && ok
                   then MarcarCerrada(s.caja.cuentas, CuentaDe(pr.orden), pr.neto) else s.caja.cuentas;
    s.(caja := s.caja.(cuentas := cuentas), procesos := s.procesos[p := Terminado(pr.orden, ConTransaccion(pr.tx))])
  }

  /** What the drain writes into its row; when the first write fails, the catch writes FALLIDO. */
  function FilaAnotada(fila: PagoPendiente, fin: Fin, ok: bool): PagoPendiente
  {
    match fin
    case ConTransaccion(tx) =>
      if ok then fila.(estado := PROCESADO, transaccion := Some(tx)) else fila.(estado := FALLIDO)
    case EnCola => if ok then fila.(estado := PENDIENTE) else fila.(estado := FALLIDO)
    case ConError => fila.(estado := FALLIDO)
  }

  function PasoAnotar(s: Sistema, p: nat, ok: bool): Sistema
    requires p in s.procesos && s.procesos[p].Terminado?
  {
    var pr := s.procesos[p];
    match FilaDe(pr.orden)
    case None => s.(procesos := s.procesos - {p})
    case Some(f) =>
      if f >= |s.caja.pendientes| then s
      else
        s.(caja := s.caja.(pendientes := s.caja.pendientes[f := FilaAnotada(s.caja.pendientes[f], pr.fin, ok)]),
           procesos := s.procesos - {p},
           malEscritas := if pr.fin.ConTransaccion? && !ok then s.malEscritas + {f} else s.malEscritas)
  }

  function PasoReclamar(s: Sistema, p: nat, f: nat): Sistema
  {
    if p in s.procesos || f >= |s.caja.pendientes| || s.caja.pendientes[f].estado != PENDIENTE then s
    else
      var fila := s.caja.pendientes[f];
      s.(caja := s.caja.(pendientes := s.caja.pendientes[f := fila.(estado := PROCESANDO)]),
         procesos := s.procesos[p := Pidiendo(Simple(fila.comando, Some(f)), Some(fila.sede))])
  }

  function PasoCorregir(s: Sistema, i: nat, metodo: Option<Metodo>, notas: Option<Nota>): Sistema
    requires i < |s.caja.transacciones|
  {
    s.(caja := CorregirTx(s.caja, i, metodo, notas))
  }

  /** The transaction of actualizarTransaccion. */
  function CorregirTx(c: Caja, i: nat, metodo: Option<Metodo>, notas: Option<Nota>): Caja
    requires i < |c.transacciones|
  {
    var conMetodo := if metodo.Some? then CorregirTransaccion(c.transacciones, i, metodo.value) else c.transacciones;
    var txs := if notas.Some? then conMetodo[i := conMetodo[i].(notas := notas.value)] else conMetodo;
    c.(transacciones := txs,
       movimientos := if metodo.Some? then CorregirMovimientos(c.movimientos, i, metodo.value) else c.movimientos)
  }

  function ListaConDescuento(ids: seq<CuentaId>, agregados: map<CuentaId, Agregado>): (r: seq<(CuentaId, int)>)
    ensures |r| == |ids|
    ensures forall k :: 0 <= k < |ids| ==>
              r[k] == (ids[k], if ids[k] in agregados then agregados[ids[k]].descuento else 0)
  {
    seq(|ids|, k requires 0 <= k < |ids| => (ids[k], if ids[k] in agregados then agregados[ids[k]].descuento else 0))
  }

  function TrasFiltrar(c: Caja, pr: Proceso, orden: seq<CuentaId>): Proceso
    requires pr.CronAgregado?
  {
    CronLista(ListaConDescuento(Primeras(Filtrar(orden, c.cuentas, pr.agregados, pr.corte), LIMITE_POR_TICK),
                                pr.agregados))
  }

  /** One remote close of the tick, and the local row when it worked. */
  function PasoCronCerrar(s: Sistema, p: nat, ok: bool): Sistema
    requires p in s.procesos && s.procesos[p].CronLista?
  {
    var lista := s.procesos[p].lista;
    if |lista| == 0 then s.(procesos := s.procesos - {p})
    else
      s.(caja := if ok then s.caja.(cuentas := MarcarReconciliada(s.caja.cuentas, lista[0].0)) else s.caja,
         procesos := s.procesos[p := CronLista(lista[1..])])
  }

  /** One step; a step that is not enabled leaves the state alone. */
  function Ejecutar(s: Sistema, paso: Paso): Sistema
  {
    match paso
    case RecibirPago(p, comando, sede) =>
      if p in s.procesos then s else s.(procesos := s.procesos[p := Pidiendo(Simple(comando, None), sede)])
    case RecibirCombinado(p, comando, sede) =>
      if p in s.procesos || RechazoPrevio(comando).Some? then s
      else s.(procesos := s.procesos[p := Pidiendo(Combinado(comando), sede)])
    case Reclamar(p, f) => PasoReclamar(s, p, f)
    case LeerCuenta(p, respuesta) =>
      if p in s.procesos && s.procesos[p].Pidiendo?
      then s.(procesos := s.procesos[p := TrasLeer(s.procesos[p], respuesta)]) else s
    case BuscarTurno(p) => if p in s.procesos && s.procesos[p].ConCuenta? then PasoBuscarTurno(s, p) else s
    case Cobrar(p) => if p in s.procesos && s.procesos[p].ConTurno? then PasoCobrar(s, p) else s
    case CerrarCuenta(p, ok) => if p in s.procesos && s.procesos[p].Comprometido? then PasoCerrarCuenta(s, p, ok) else s
    case Anotar(p, ok) => if p in s.procesos && s.procesos[p].Terminado? then PasoAnotar(s, p, ok) else s
    case Morir(p) => s.(procesos := s.procesos - {p})
    case Abrir(sede, fondo) =>
      (match AperturaTx(s.caja, sede, fondo) case Some(c) => s.(caja := c) case None => s)
    case Cerrar(t, contado) =>
      (match CierreTx(s.caja, t, contado) case Success(c) => s.(caja := c) case Failure(_) => s)
    case Mover(t, tipo, monto, motivo) =>
      if t < |s.caja.turnos| && tipo != VENTA && tipo != APERTURA
      then s.(caja := s.caja.(movimientos := s.caja.movimientos + [MovimientoManual(t, tipo, monto, motivo)])) else s
    case Corregir(i, metodo, notas) => if i < |s.caja.transacciones| then PasoCorregir(s, i, metodo, notas) else s
    case LlegaAbierta(cuenta, sede) =>
      s.(caja := s.caja.(cuentas := AlAbrirse(s.caja.cuentas, cuenta, sede)),
         reabiertas := s.reabiertas + if NoAbierta(s.caja.cuentas, cuenta) then {cuenta} else {})
    case LlegaCerrada(cuenta, total, sede) =>
      s.(caja := s.caja.(cuentas := AlCerrarse(s.caja.cuentas, cuenta, total, sede)))
    case CronMirar(p) =>
      if p in s.procesos then s
      else s.(procesos := s.procesos[p := CronVentana(s.reloj - UMBRAL,
                                                      Candidatas(s.caja.transacciones, s.reloj - UMBRAL))])
    case CronAgrupar(p) =>
      if p in s.procesos && s.procesos[p].CronVentana?
      then s.(procesos := s.procesos[p := CronAgregado(s.procesos[p].corte,
                                                       AgregarTodas(s.caja.transacciones, s.procesos[p].ids))]) else s
    case CronFiltrar(p, orden) =>
      if p in s.procesos && s.procesos[p].CronAgregado?
      then s.(procesos := s.procesos[p := TrasFiltrar(s.caja, s.procesos[p], orden)]) else s
    case CronCerrar(p, ok) => if p in s.procesos && s.procesos[p].CronLista? then PasoCronCerrar(s, p, ok) else s
    case PasaTiempo(ms) => s.(reloj := s.reloj + ms)
  }

  /** A whole run. */
  function Correr(s: Sistema, pasos: seq<Paso>): Sistema
  {
    if |pasos| == 0 then s else Ejecutar(Correr(s, pasos[..|pasos| - 1]), pasos[|pasos| - 1])
  }
}
