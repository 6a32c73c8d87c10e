/**
 The commands of the service run from start to end with nobody else in between, as functions of the
 tables; what the drain of the queue achieves; and that each such run is a run of the machine.
 */
module Comandos {
  import opened Comun
  import opened Tablas
  import opened Cobros
  import opened Turnos
  import opened Proyeccion
  import opened Protocolo
  import opened Reconciliacion

  /** What fetchCuenta answers. */
  datatype Lectura = Leida(cuenta: CuentaRemota) | NoExiste | Caida

  datatype Salida =
    | EnEspera
    | Registrado(transacciones: seq<nat>, pendiente: nat, cierreCompleta: bool)

  datatype Efecto = Efecto(caja: Caja, salida: Result<Salida, Motivo>)

  function MotivoDeLectura(l: Lectura): Motivo
    requires !l.Leida?
  {
    if l.NoExiste? then CuentaNoEncontrada else CuentasNoDisponible
  }

  /** The remote close of a settled account and the row it marks. */
  function TrasCierre(c: Caja, cuenta: CuentaId, neto: nat, pendiente: nat, cierra: bool): Caja
  {
    if pendiente <= TOLERANCIA && cierra then c.(cuentas := MarcarCerrada(c.cuentas, cuenta, neto)) else c
  }

  function Ids(desde: nat, n: nat): seq<nat>
  {
    seq(n, i requires i >= 0 => desde + i)
  }

  function ConTx(c: Caja, ctx: Contexto, r: Result<Cobrado, Motivo>, cierra: bool): Efecto
  {
    match r
    case Failure(e) => Efecto(c, Failure(e))
    case Success(cobrado) =>
      Efecto(TrasCierre(cobrado.caja, ctx.cuenta, Neto(ctx), cobrado.pendiente, cierra),
             Success(Registrado(Ids(|c.transacciones|, Max0(|cobrado.caja.transacciones| - |c.transacciones|)),
                                cobrado.pendiente, cobrado.pendiente <= TOLERANCIA)))
  }

  function RegistrarPago(c: Caja, comando: ComandoPago, usuarioSede: Option<SedeId>, lectura: Lectura, cierra: bool,
                         ahora: int): Efecto
  {
    if !lectura.Leida? then Efecto(c, Failure(MotivoDeLectura(lectura)))
    else if usuarioSede.Some? && usuarioSede.value != lectura.cuenta.sede then Efecto(c, Failure(OtraSede))
    else match TurnoAbierto(c.turnos, lectura.cuenta.sede)
      case None => Efecto(Encolar(c, lectura.cuenta.sede, comando), Success(EnEspera))
      case Some(t) =>
        var ctx := Contexto(comando.cuenta, comando.descuento.GetOr(0), lectura.cuenta, t, ahora);
        ConTx(c, ctx, PagoTx(c, ctx, ParteSimple(comando)), cierra)
  }

  function RegistrarPagoCombinado(c: Caja, comando: ComandoCombinado, usuarioSede: Option<SedeId>, lectura: Lectura,
                                  cierra: bool, ahora: int): Efecto
  {
    if RechazoPrevio(comando).Some? then Efecto(c, Failure(RechazoPrevio(comando).value))
    else if !lectura.Leida? then Efecto(c, Failure(MotivoDeLectura(lectura)))
    else if usuarioSede.Some? && usuarioSede.value != lectura.cuenta.sede then Efecto(c, Failure(OtraSede))
    else match TurnoAbierto(c.turnos, lectura.cuenta.sede)
      case None => Efecto(c, Failure(SinTurno))
      case Some(t) =>
        if !DescuentoAdmisible(comando) then Efecto(c, Failure(DescuentoInvalido))
        else
          var ctx := Contexto(comando.cuenta, comando.descuento.GetOr(CERO).centimos, lectura.cuenta, t, ahora);
          ConTx(c, ctx, CombinadoTx(c, ctx, PartesCombinadas(comando)), cierra)
  }

  lemma CombinadoCrece(c: Caja, ctx: Contexto, partes: seq<Parte>)
    ensures CombinadoTx(c, ctx, partes).Success? ==>
              |CombinadoTx(c, ctx, partes).value.caja.transacciones| == |c.transacciones| + |partes|
  {
    TramosAgregan(c.(cuentas := Proyectar(c.cuentas, ctx)), ctx, Pagado(c.transacciones, ctx.cuenta) == 0,
                  PendienteAntes(c.transacciones, ctx), partes);
  }

  /* ---- draining the queue ---- */

  function Fila(c: Caja, f: nat, nueva: PagoPendiente): Caja
    requires f < |c.pendientes|
  {
    c.(pendientes := c.pendientes[f := nueva])
  }

  function FinDe(salida: Result<Salida, Motivo>): Fin
  {
    match salida
    case Success(Registrado(ids, _, _)) => if |ids| > 0 then ConTransaccion(ids[|ids| - 1]) else ConError
    case Success(EnEspera) => EnCola
    case Failure(_) => ConError
  }

  /** What a row meets: the account it reads, whether a remote close works, whether the first write of
      its outcome does. */
  datatype Entorno = Entorno(lectura: Lectura, cierra: bool, escribe: bool)

  /** One row of the drain: claim, registrarPago as the row's branch, write the outcome. */
  function DrenarFila(c: Caja, f: nat, e: Entorno, ahora: int): (r: Caja)
    ensures |r.pendientes| >= |c.pendientes|
  {
    if f >= |c.pendientes| || c.pendientes[f].estado != PENDIENTE then c
    else
      var fila := c.pendientes[f].(estado := PROCESANDO);
      var pago := RegistrarPago(Fila(c, f, fila), fila.comando, Some(fila.sede), e.lectura, e.cierra, ahora);
      RegistrarConservaFilas(Fila(c, f, fila), fila.comando, Some(fila.sede), e.lectura, e.cierra, ahora);
      Fila(pago.caja, f, FilaAnotada(pago.caja.pendientes[f], FinDe(pago.salida), e.escribe))
  }

  lemma RegistrarConservaFilas(c: Caja, comando: ComandoPago, usuarioSede: Option<SedeId>, lectura: Lectura,
                               cierra: bool, ahora: int)
    ensures var e := RegistrarPago(c, comando, usuarioSede, lectura, cierra, ahora);
            && c.pendientes <= e.caja.pendientes && e.caja.turnos == c.turnos
            && (e.salida.Success? && e.salida.value.Registrado? ==>
                  e.salida.value.transacciones == [|c.transacciones|]
                    && |e.caja.transacciones| == |c.transacciones| + 1)
            && (e.salida.Failure? ==> e.caja == c)
  {
  }

  function Drenar(c: Caja, filas: seq<nat>, mundo: nat -> Entorno, ahora: int): Caja
  {
    if |filas| == 0 then c
    else
      var f := filas[|filas| - 1];
      DrenarFila(Drenar(c, filas[..|filas| - 1], mundo, ahora), f, mundo(f), ahora)
  }

  /** The rows procesarPagosPendientes reads, oldest first. */
  function FilasEnEspera(pendientes: seq<PagoPendiente>, sede: SedeId): seq<nat>
  {
    if |pendientes| == 0 then []
    else
      var n := |pendientes| - 1;
      FilasEnEspera(pendientes[..n], sede)
      + if EsperaEn(pendientes[n], sede) then [n] else []
  }

  predicate EsperaEn(fila: PagoPendiente, sede: SedeId)
  {
    fila.sede == sede && fila.estado == PENDIENTE
  }

  ghost predicate Espera(pendientes: seq<PagoPendiente>, sede: SedeId, f: nat)
  {
    f < |pendientes| && EsperaEn(pendientes[f], sede)
  }

  lemma {:induction false} FilasEnEsperaExactas(pendientes: seq<PagoPendiente>, sede: SedeId)
    ensures forall f :: f in FilasEnEspera(pendientes, sede) <==> Espera(pendientes, sede, f)
  {
    if |pendientes| != 0 {
      var n := |pendientes| - 1;
      FilasEnEsperaExactas(pendientes[..n], sede);
      forall f ensures f in FilasEnEspera(pendientes, sede) <==> Espera(pendientes, sede, f) {
        assert f in FilasEnEspera(pendientes[..n], sede) <==> Espera(pendientes[..n], sede, f);
      }
    }
  }

  lemma {:induction false} FilasPorLlegada(pendientes: seq<PagoPendiente>, sede: SedeId)
    ensures forall i, j :: 0 <= i < j < |FilasEnEspera(pendientes, sede)| ==>
              FilasEnEspera(pendientes, sede)[i] < FilasEnEspera(pendientes, sede)[j]
  {
    if |pendientes| != 0 {
      var n := |pendientes| - 1;
      FilasPorLlegada(pendientes[..n], sede);
      FilasEnEsperaExactas(pendientes[..n], sede);
      var antes := FilasEnEspera(pendientes[..n], sede);
      forall i | 0 <= i < |antes| ensures antes[i] < n {
        assert antes[i] in antes;
      }
    }
  }

  /** Row f ended PROCESADO with its one new Transaccion or FALLIDO; a FALLIDO row has one too only when
      the write of PROCESADO failed. It was not queued again, and no other row was touched. */
  ghost predicate FilaAtendida(c: Caja, r: Caja, f: nat, escribe: bool)
    requires f < |c.pendientes|
  {
    && |r.pendientes| == |c.pendientes| && r.turnos == c.turnos
    && r.pendientes == c.pendientes[f := r.pendientes[f]]
    && r.pendientes[f].sede == c.pendientes[f].sede && r.pendientes[f].comando == c.pendientes[f].comando
    && match r.pendientes[f].estado
       case PROCESADO =>
         && escribe && |r.transacciones| == |c.transacciones| + 1
         && r.pendientes[f].transaccion == Some(|c.transacciones|)
       case FALLIDO => r.transacciones == c.transacciones || (!escribe && |r.transacciones| == |c.transacciones| + 1)
       case _ => false
  }

  /** With a shift of its branch open. */
  lemma UnaFilaDrenada(c: Caja, f: nat, e: Entorno, ahora: int)
    requires f < |c.pendientes| && c.pendientes[f].estado == PENDIENTE
    requires TurnoAbierto(c.turnos, c.pendientes[f].sede).Some?
    ensures FilaAtendida(c, DrenarFila(c, f, e, ahora), f, e.escribe)
  {
    var fila := c.pendientes[f].(estado := PROCESANDO);
    RegistrarConservaFilas(Fila(c, f, fila), fila.comando, Some(fila.sede), e.lectura, e.cierra, ahora);
  }

  /** Draining a waiting row writes a second one for the same intent exactly when registrarPago reads
      the account and finds no shift of the row's branch open. */
  lemma DrenarDuplicaSii(c: Caja, f: nat, e: Entorno, ahora: int)
    requires f < |c.pendientes| && c.pendientes[f].estado == PENDIENTE
    ensures var r, fila := DrenarFila(c, f, e, ahora), c.pendientes[f];
            && (|r.pendientes| > |c.pendientes| <==>
                  e.lectura.Leida? && e.lectura.cuenta.sede == fila.sede && TurnoAbierto(c.turnos, fila.sede).None?)
            && (|r.pendientes| > |c.pendientes| ==>
                  r.pendientes
                    == c.pendientes[f := r.pendientes[f]] + [PagoPendiente(fila.sede, fila.comando, PENDIENTE, None)]
                  && r.pendientes[f] == fila.(estado := if e.escribe then PENDIENTE else FALLIDO))
  {
  }

  ghost predicate Enumera(filas: seq<nat>, n: nat)
  {
    forall i :: 0 <= i < |filas| ==> filas[i] < n
  }

  ghost function Procesadas(pendientes: seq<PagoPendiente>, filas: seq<nat>): nat
    requires Enumera(filas, |pendientes|)
  {
    if |filas| == 0 then 0
    else
      Procesadas(pendientes, filas[..|filas| - 1])
      + if pendientes[filas[|filas| - 1]].estado == PROCESADO then 1 else 0
  }

  lemma {:induction false} ProcesadasIguales(a: seq<PagoPendiente>, b: seq<PagoPendiente>, filas: seq<nat>)
    requires Enumera(filas, |a|) && Enumera(filas, |b|)
    requires forall i :: 0 <= i < |filas| ==> a[filas[i]] == b[filas[i]]
    ensures Procesadas(a, filas) == Procesadas(b, filas)
  {
    if |filas| != 0 {
      ProcesadasIguales(a, b, filas[..|filas| - 1]);
    }
  }

  /** Each row of the list ends PROCESADO or FALLIDO, the others keep as they were, and at least one
      Transaccion appears per PROCESADO row: exactly one when no write fails. */
  ghost predicate Atendidas(c: Caja, r: Caja, filas: seq<nat>, mundo: nat -> Entorno)
    requires Enumera(filas, |c.pendientes|)
  {
    && |r.pendientes| == |c.pendientes| && r.turnos == c.turnos
    && (forall i :: 0 <= i < |filas| ==>
          r.pendientes[filas[i]].estado == PROCESADO || r.pendientes[filas[i]].estado == FALLIDO)
    && (forall f: nat :: f < |c.pendientes| && f !in filas ==> r.pendientes[f] == c.pendientes[f])
    && |c.transacciones| + Procesadas(r.pendientes, filas) <= |r.transacciones| <= |c.transacciones| + |filas|
    && ((forall f :: f in filas ==> mundo(f).escribe) ==>
          |r.transacciones| == |c.transacciones| + Procesadas(r.pendientes, filas))
  }

  lemma UnaAtendidaMas(c: Caja, antes: Caja, r: Caja, previas: seq<nat>, f: nat, mundo: nat -> Entorno)
    requires Enumera(previas, |c.pendientes|) && f < |c.pendientes| && f !in previas
    requires Atendidas(c, antes, previas, mundo) && FilaAtendida(antes, r, f, mundo(f).escribe)
    ensures Atendidas(c, r, previas + [f], mundo)
  {
    ProcesadasIguales(antes.pendientes, r.pendientes, previas);
    assert (previas + [f])[..|previas|] == previas;
    assert forall g :: g in previas ==> g in previas + [f];
    forall g: nat | g < |c.pendientes| && g !in previas + [f] ensures r.pendientes[g] == c.pendientes[g] {
      assert g != f && g !in previas;
    }
    if forall g :: g in previas + [f] ==> mundo(g).escribe {
      assert f in previas + [f];
    }
  }

  /** Different rows of the queue that wait for a shift of the branch. */
  ghost predicate SonDeEspera(filas: seq<nat>, pendientes: seq<PagoPendiente>, sede: SedeId)
  {
    && Enumera(filas, |pendientes|) && (forall i, j :: 0 <= i < j < |filas| ==> filas[i] != filas[j])
    && forall i :: 0 <= i < |filas| ==> EsperaEn(pendientes[filas[i]], sede)
  }

  lemma SinLaUltima(filas: seq<nat>, pendientes: seq<PagoPendiente>, sede: SedeId)
    requires SonDeEspera(filas, pendientes, sede) && |filas| > 0
    ensures var n := |filas| - 1;
            && SonDeEspera(filas[..n], pendientes, sede) && filas[..n] + [filas[n]] == filas
            && filas[n] !in filas[..n] && filas[n] < |pendientes| && EsperaEn(pendientes[filas[n]], sede)
  {
  }

  /** Opening a shift drains its branch, without queueing anything anew. */
  lemma {:induction false} DrenarAtiendeTodas(c: Caja, sede: SedeId, filas: seq<nat>, mundo: nat -> Entorno, ahora: int)
    requires TurnoAbierto(c.turnos, sede).Some? && SonDeEspera(filas, c.pendientes, sede)
    ensures Atendidas(c, Drenar(c, filas, mundo, ahora), filas, mundo)
  {
    if |filas| != 0 {
      var n := |filas| - 1;
      var f, previas := filas[n], filas[..n];
      SinLaUltima(filas, c.pendientes, sede);
      DrenarAtiendeTodas(c, sede, previas, mundo, ahora);
      var antes := Drenar(c, previas, mundo, ahora);
      assert antes.pendientes[f] == c.pendientes[f];
      UnaFilaDrenada(antes, f, mundo(f), ahora);
      UnaAtendidaMas(c, antes, DrenarFila(antes, f, mundo(f), ahora), previas, f, mundo);
    }
  }

  /** What the drain's list satisfies, in the form DrenarAtiendeTodas asks for. */
  lemma ListaDelDrenado(pendientes: seq<PagoPendiente>, sede: SedeId)
    ensures var filas := FilasEnEspera(pendientes, sede);
            && SonDeEspera(filas, pendientes, sede)
            && (forall f: nat :: f < |pendientes| ==> (f in filas <==> EsperaEn(pendientes[f], sede)))
  {
    FilasEnEsperaExactas(pendientes, sede);
    FilasPorLlegada(pendientes, sede);
    var filas := FilasEnEspera(pendientes, sede);
    forall i | 0 <= i < |filas| ensures Espera(pendientes, sede, filas[i]) {
      assert filas[i] in filas;
    }
    forall f: nat | f < |pendientes| ensures f in filas <==> Espera(pendientes, sede, f) {}
  }

  /** procesarPagosPendientes: no row of the branch is left waiting, and no other branch notices. */
  lemma DrenarVaciaLaSede(c: Caja, sede: SedeId, mundo: nat -> Entorno, ahora: int)
    requires TurnoAbierto(c.turnos, sede).Some?
    ensures var filas := FilasEnEspera(c.pendientes, sede);
            var r := Drenar(c, filas, mundo, ahora);
            && |r.pendientes| == |c.pendientes| && r.turnos == c.turnos
            && Enumera(filas, |r.pendientes|)
            && (forall f: nat :: f < |c.pendientes| ==>
                  if EsperaEn(c.pendientes[f], sede)
                  then r.pendientes[f].estado == PROCESADO || r.pendientes[f].estado == FALLIDO
                  else r.pendientes[f] == c.pendientes[f])
            && |c.transacciones| + Procesadas(r.pendientes, filas) <= |r.transacciones| <= |c.transacciones| + |filas|
  {
    var filas := FilasEnEspera(c.pendientes, sede);
    ListaDelDrenado(c.pendientes, sede);
    DrenarAtiendeTodas(c, sede, filas, mundo, ahora);
    var r := Drenar(c, filas, mundo, ahora);
    forall f: nat | f < |c.pendientes| && f in filas
      ensures r.pendientes[f].estado == PROCESADO || r.pendientes[f].estado == FALLIDO
    {
      var i :| 0 <= i < |filas| && filas[i] == f;
    }
  }

  /* ---- a command run alone is a run of the machine ---- */

  function RespuestaDe(l: Lectura): Option<CuentaRemota>
  {
    match l
    case Leida(r) => Some(r)
    case _ => None
  }

  lemma HastaElTurno(s: Sistema, p: nat, comando: ComandoPago, fila: Option<nat>, usuarioSede: Option<SedeId>,
                     l: Lectura, cierra: bool)
    requires p in s.procesos && s.procesos[p] == Pidiendo(Simple(comando, fila), usuarioSede)
    ensures var r := Ejecutar(Ejecutar(s, LeerCuenta(p, RespuestaDe(l))), BuscarTurno(p));
            var e := RegistrarPago(s.caja, comando, usuarioSede, l, cierra, s.reloj);
            var o := Simple(comando, fila);
            && p in r.procesos && r.reloj == s.reloj
            && if l.Leida? && (usuarioSede.None? || usuarioSede.value == l.cuenta.sede)
                  && TurnoAbierto(s.caja.turnos, l.cuenta.sede).Some?
               then r.caja == s.caja
                 && r.procesos[p] == ConTurno(o, l.cuenta, TurnoAbierto(s.caja.turnos, l.cuenta.sede).value)
               else r.caja == e.caja && r.procesos[p] == Terminado(o, FinDe(e.salida))
  {
    var s1 := Ejecutar(s, LeerCuenta(p, RespuestaDe(l)));
    assert s1.caja == s.caja && p in s1.procesos;
  }

  lemma DesdeElTurno(s: Sistema, p: nat, comando: ComandoPago, fila: Option<nat>, remota: CuentaRemota, t: nat,
                     cierra: bool)
    requires p in s.procesos && s.procesos[p] == ConTurno(Simple(comando, fila), remota, t)
    ensures var r := Ejecutar(Ejecutar(s, Cobrar(p)), CerrarCuenta(p, cierra));
            var ctx := Contexto(comando.cuenta, comando.descuento.GetOr(0), remota, t, s.reloj);
            var e := ConTx(s.caja, ctx, PagoTx(s.caja, ctx, ParteSimple(comando)), cierra);
            && r.caja == e.caja
            && p in r.procesos && r.procesos[p] == Terminado(Simple(comando, fila), FinDe(e.salida))
  {
    var s1 := Ejecutar(s, Cobrar(p));
    assert p in s1.procesos && |PartesDe(Simple(comando, fila))| == 1;
  }

  /** registrarPago is what the machine does when one process takes its steps without interruption. */
  lemma RegistrarPagoEsUnaCorrida(s: Sistema, p: nat, comando: ComandoPago, fila: Option<nat>,
                                  usuarioSede: Option<SedeId>, l: Lectura, cierra: bool)
    requires p in s.procesos && s.procesos[p] == Pidiendo(Simple(comando, fila), usuarioSede)
    ensures var medio := Ejecutar(Ejecutar(s, LeerCuenta(p, RespuestaDe(l))), BuscarTurno(p));
            var r := Ejecutar(Ejecutar(medio, Cobrar(p)), CerrarCuenta(p, cierra));
            var e := RegistrarPago(s.caja, comando, usuarioSede, l, cierra, s.reloj);
            && r.caja == e.caja
            && p in r.procesos && r.procesos[p] == Terminado(Simple(comando, fila), FinDe(e.salida))
  {
    var medio := Ejecutar(Ejecutar(s, LeerCuenta(p, RespuestaDe(l))), BuscarTurno(p));
    HastaElTurno(s, p, comando, fila, usuarioSede, l, cierra);
    if medio.procesos[p].ConTurno? {
      DesdeElTurno(medio, p, comando, fila, l.cuenta, TurnoAbierto(s.caja.turnos, l.cuenta.sede).value, cierra);
    }
  }

  lemma CombinadoHastaElTurno(s: Sistema, p: nat, comando: ComandoCombinado, usuarioSede: Option<SedeId>, l: Lectura,
                              cierra: bool)
    requires p in s.procesos && s.procesos[p] == Pidiendo(Combinado(comando), usuarioSede)
    requires RechazoPrevio(comando).None?
    ensures var r := Ejecutar(Ejecutar(s, LeerCuenta(p, RespuestaDe(l))), BuscarTurno(p));
            var e := RegistrarPagoCombinado(s.caja, comando, usuarioSede, l, cierra, s.reloj);
            var o := Combinado(comando);
            && p in r.procesos && r.reloj == s.reloj && r.caja == s.caja
            && if l.Leida? && (usuarioSede.None? || usuarioSede.value == l.cuenta.sede)
                  && TurnoAbierto(s.caja.turnos, l.cuenta.sede).Some? && DescuentoAdmisible(comando)
               then r.procesos[p] == ConTurno(o, l.cuenta, TurnoAbierto(s.caja.turnos, l.cuenta.sede).value)
               else r.procesos[p] == Terminado(o, FinDe(e.salida)) && e.caja == s.caja
  {
    var s1 := Ejecutar(s, LeerCuenta(p, RespuestaDe(l)));
    assert s1.caja == s.caja && p in s1.procesos;
  }

  lemma CombinadoDesdeElTurno(s: Sistema, p: nat, comando: ComandoCombinado, remota: CuentaRemota, t: nat, cierra: bool)
    requires p in s.procesos && s.procesos[p] == ConTurno(Combinado(comando), remota, t) && |comando.pagos| > 0
    ensures var r := Ejecutar(Ejecutar(s, Cobrar(p)), CerrarCuenta(p, cierra));
            var ctx := Contexto(comando.cuenta, comando.descuento.GetOr(CERO).centimos, remota, t, s.reloj);
            var e := ConTx(s.caja, ctx, CombinadoTx(s.caja, ctx, PartesCombinadas(comando)), cierra);
            && r.caja == e.caja
            && p in r.procesos && r.procesos[p] == Terminado(Combinado(comando), FinDe(e.salida))
  {
    var s1 := Ejecutar(s, Cobrar(p));
    assert p in s1.procesos;
    var ctx := Contexto(comando.cuenta, comando.descuento.GetOr(CERO).centimos, remota, t, s.reloj);
    CombinadoCrece(s.caja, ctx, PartesCombinadas(comando));
  }

  /** And so is registrarPagoCombinado, down to the Transaccion it answers with. */
  lemma CombinadoEsUnaCorrida(s: Sistema, p: nat, comando: ComandoCombinado, usuarioSede: Option<SedeId>, l: Lectura,
                              cierra: bool)
    requires p in s.procesos && s.procesos[p] == Pidiendo(Combinado(comando), usuarioSede)
    requires RechazoPrevio(comando).None?
    ensures var medio := Ejecutar(Ejecutar(s, LeerCuenta(p, RespuestaDe(l))), BuscarTurno(p));
            var r := Ejecutar(Ejecutar(medio, Cobrar(p)), CerrarCuenta(p, cierra));
            var e := RegistrarPagoCombinado(s.caja, comando, usuarioSede, l, cierra, s.reloj);
            && r.caja == e.caja
            && p in r.procesos && r.procesos[p] == Terminado(Combinado(comando), FinDe(e.salida))
  {
    var medio := Ejecutar(Ejecutar(s, LeerCuenta(p, RespuestaDe(l))), BuscarTurno(p));
    CombinadoHastaElTurno(s, p, comando, usuarioSede, l, cierra);
    if medio.procesos[p].ConTurno? {
      CombinadoDesdeElTurno(medio, p, comando, l.cuenta, TurnoAbierto(s.caja.turnos, l.cuenta.sede).value, cierra);
    }
  }

  /** A whole request, from its arrival as a user of some branch to its answer, with nobody in between. */
  lemma PeticionEsUnaCorrida(s: Sistema, p: nat, comando: ComandoPago, usuarioSede: Option<SedeId>, l: Lectura,
                             cierra: bool, ok: bool)
    requires p !in s.procesos
    ensures var recibido := Ejecutar(s, RecibirPago(p, comando, usuarioSede));
            var medio := Ejecutar(Ejecutar(recibido, LeerCuenta(p, RespuestaDe(l))), BuscarTurno(p));
            var hecho := Ejecutar(Ejecutar(medio, Cobrar(p)), CerrarCuenta(p, cierra));
            var e := RegistrarPago(s.caja, comando, usuarioSede, l, cierra, s.reloj);
            && p in hecho.procesos && hecho.procesos[p] == Terminado(Simple(comando, None), FinDe(e.salida))
            && Ejecutar(hecho, Anotar(p, ok)).caja == e.caja && p !in Ejecutar(hecho, Anotar(p, ok)).procesos
  {
    var recibido := Ejecutar(s, RecibirPago(p, comando, usuarioSede));
    assert recibido.caja == s.caja && recibido.reloj == s.reloj;
    RegistrarPagoEsUnaCorrida(recibido, p, comando, None, usuarioSede, l, cierra);
  }

  /** The same of a combined payment; one that is refused before anything is read never becomes a process. */
  lemma PeticionCombinadaEsUnaCorrida(s: Sistema, p: nat, comando: ComandoCombinado, usuarioSede: Option<SedeId>,
                                      l: Lectura, cierra: bool)
    requires p !in s.procesos
    ensures var recibido := Ejecutar(s, RecibirCombinado(p, comando, usuarioSede));
            var medio := Ejecutar(Ejecutar(recibido, LeerCuenta(p, RespuestaDe(l))), BuscarTurno(p));
            var hecho := Ejecutar(Ejecutar(medio, Cobrar(p)), CerrarCuenta(p, cierra));
            var e := RegistrarPagoCombinado(s.caja, comando, usuarioSede, l, cierra, s.reloj);
            && hecho.caja == e.caja
            && if RechazoPrevio(comando).Some? then hecho == s && e.salida == Failure(RechazoPrevio(comando).value)
               else p in hecho.procesos && hecho.procesos[p] == Terminado(Combinado(comando), FinDe(e.salida))
  {
    if RechazoPrevio(comando).None? {
      var recibido := Ejecutar(s, RecibirCombinado(p, comando, usuarioSede));
      assert recibido.caja == s.caja && recibido.reloj == s.reloj;
      CombinadoEsUnaCorrida(recibido, p, comando, usuarioSede, l, cierra);
    }
  }

  /** The machine books a manual movement as the service does, reason included. */
  lemma MoverEsUnPaso(s: Sistema, t: nat, tipo: TipoMovimiento, monto: int, motivo: Nota)
    requires t < |s.caja.turnos| && tipo != VENTA && tipo != APERTURA
    ensures var m := MovimientoManual(t, tipo, monto, motivo);
            && Ejecutar(s, Mover(t, tipo, monto, motivo)).caja.movimientos == s.caja.movimientos + [m]
            && m.turno == t && m.tipo == tipo && m.motivo == motivo
  {
  }

  /** One row of the drain is its claim, those four steps, and the write of the outcome. */
  lemma DrenarFilaEsUnaCorrida(s: Sistema, p: nat, f: nat, e: Entorno)
    requires p !in s.procesos && f < |s.caja.pendientes| && s.caja.pendientes[f].estado == PENDIENTE
    ensures var reclamado := Ejecutar(s, Reclamar(p, f));
            var medio := Ejecutar(Ejecutar(reclamado, LeerCuenta(p, RespuestaDe(e.lectura))), BuscarTurno(p));
            var hecho := Ejecutar(Ejecutar(medio, Cobrar(p)), CerrarCuenta(p, e.cierra));
            Ejecutar(hecho, Anotar(p, e.escribe)).caja == DrenarFila(s.caja, f, e, s.reloj)
  {
    var reclamado := Ejecutar(s, Reclamar(p, f));
    var fila := s.caja.pendientes[f].(estado := PROCESANDO);
    assert reclamado.caja == Fila(s.caja, f, fila) && reclamado.reloj == s.reloj;
    RegistrarPagoEsUnaCorrida(reclamado, p, fila.comando, Some(f), Some(fila.sede), e.lectura, e.cierra);
    RegistrarConservaFilas(reclamado.caja, fila.comando, Some(fila.sede), e.lectura, e.cierra, s.reloj);
    var medio := Ejecutar(Ejecutar(reclamado, LeerCuenta(p, RespuestaDe(e.lectura))), BuscarTurno(p));
    var hecho := Ejecutar(Ejecutar(medio, Cobrar(p)), CerrarCuenta(p, e.cierra));
    var pago := RegistrarPago(reclamado.caja, fila.comando, Some(fila.sede), e.lectura, e.cierra, s.reloj);
    AnotarEscribe(hecho, p, f, FinDe(pago.salida), e.escribe);
  }

  lemma AnotarEscribe(s: Sistema, p: nat, f: nat, fin: Fin, ok: bool)
    requires p in s.procesos && s.procesos[p].Terminado? && s.procesos[p].fin == fin
    requires FilaDe(s.procesos[p].orden) == Some(f) && f < |s.caja.pendientes|
    ensures Ejecutar(s, Anotar(p, ok)).caja == Fila(s.caja, f, FilaAnotada(s.caja.pendientes[f], fin, ok))
  {
  }

  function Cuentas(lista: seq<(CuentaId, int)>): (r: seq<CuentaId>)
    ensures |r| == |lista| && forall i :: 0 <= i < |r| ==> r[i] == lista[i].0
  {
    seq(|lista|, i requires 0 <= i < |lista| => lista[i].0)
  }

  function Cierres(p: nat, ids: seq<CuentaId>, responde: set<CuentaId>): (r: seq<Paso>)
    ensures |r| == |ids| && forall i :: 0 <= i < |r| ==> r[i] == CronCerrar(p, ids[i] in responde)
  {
    seq(|ids|, i requires 0 <= i < |ids| => CronCerrar(p, ids[i] in responde))
  }

  lemma UnCierreDelCron(s: Sistema, p: nat, lista: seq<(CuentaId, int)>, ok: bool)
    requires p in s.procesos && s.procesos[p] == CronLista(lista) && |lista| > 0
    ensures var r := Ejecutar(s, CronCerrar(p, ok));
            && p in r.procesos && r.procesos[p] == CronLista(lista[1..])
            && r.caja == if ok then s.caja.(cuentas := MarcarReconciliada(s.caja.cuentas, lista[0].0)) else s.caja
  {
  }

  lemma {:induction false} CerrarUnasCuantas(s: Sistema, p: nat, lista: seq<(CuentaId, int)>, responde: set<CuentaId>,
                                             k: nat)
    requires p in s.procesos && s.procesos[p] == CronLista(lista) && k <= |lista|
    ensures var r := Correr(s, Cierres(p, Cuentas(lista)[..k], responde));
            && p in r.procesos && r.procesos[p] == CronLista(lista[k..])
            && r.caja == s.caja.(cuentas := TrasCerrar(s.caja.cuentas, Cuentas(lista)[..k], responde))
  {
    var ids := Cuentas(lista);
    if k == 0 {
      assert Correr(s, Cierres(p, ids[..0], responde)) == s;
    } else {
      var pasos, previos := Cierres(p, ids[..k], responde), Cierres(p, ids[..k - 1], responde);
      CerrarUnasCuantas(s, p, lista, responde, k - 1);
      assert pasos[..k - 1] == previos && |pasos| == k;
      assert Correr(s, pasos) == Ejecutar(Correr(s, previos), CronCerrar(p, ids[k - 1] in responde));
      UnCierreDelCron(Correr(s, previos), p, lista[k - 1..], ids[k - 1] in responde);
      assert ids[..k][..k - 1] == ids[..k - 1] && lista[k - 1..][1..] == lista[k..];
    }
  }

  lemma ListaTerminada(s: Sistema, p: nat, ok: bool)
    requires p in s.procesos && s.procesos[p] == CronLista([])
    ensures var fin := Ejecutar(s, CronCerrar(p, ok)); fin.caja == s.caja && p !in fin.procesos
  {
  }

  lemma LasTresLecturas(s: Sistema, p: nat, orden: seq<CuentaId>)
    requires p !in s.procesos
    ensures var leido := Ejecutar(Ejecutar(Ejecutar(s, CronMirar(p)), CronAgrupar(p)), CronFiltrar(p, orden));
            && leido.caja == s.caja && p in leido.procesos && leido.procesos[p].CronLista?
            && Cuentas(leido.procesos[p].lista) == ListaDelTick(s.caja, s.reloj - 300000, orden)
  {
    var agrupado := Ejecutar(Ejecutar(s, CronMirar(p)), CronAgrupar(p));
    var leido := Ejecutar(agrupado, CronFiltrar(p, orden));
    assert leido.procesos[p] == TrasFiltrar(s.caja, agrupado.procesos[p], orden);
  }

  /** A tick of the cron is its three reads and one step per selected account. */
  lemma TickEsUnaCorrida(s: Sistema, p: nat, orden: seq<CuentaId>, responde: set<CuentaId>)
    requires p !in s.procesos
    ensures var leido := Ejecutar(Ejecutar(Ejecutar(s, CronMirar(p)), CronAgrupar(p)), CronFiltrar(p, orden));
            var ids := ListaDelTick(s.caja, s.reloj - 300000, orden);
            var hecho := Correr(leido, Cierres(p, ids, responde));
            && hecho.caja == Tick(s.caja, s.reloj - 300000, orden, responde)
            && forall ok :: var fin := Ejecutar(hecho, CronCerrar(p, ok)); fin.caja == hecho.caja && p !in fin.procesos
  {
    LasTresLecturas(s, p, orden);
    var leido := Ejecutar(Ejecutar(Ejecutar(s, CronMirar(p)), CronAgrupar(p)), CronFiltrar(p, orden));
    var lista, ids := leido.procesos[p].lista, ListaDelTick(s.caja, s.reloj - 300000, orden);
    CerrarUnasCuantas(leido, p, lista, responde, |lista|);
    assert Cuentas(lista)[..|lista|] == ids && lista[|lista|..] == [];
    forall ok { ListaTerminada(Correr(leido, Cierres(p, ids, responde)), p, ok); }
  }
}
