/**
 What the two payment commands promise to whoever calls them, said with the fields of the command, the
 account as it was read and the tables: when each is accepted, which rows it then leaves in every table,
 and what it answers.
 */
module ContratosDePago {
  import opened Comun
  import opened Tablas
  import opened Cobros
  import opened Proyeccion
  import opened Protocolo
  import opened Comandos

  /** The account was read and belongs to the user's branch. */
  predicate Accede(lectura: Lectura, usuarioSede: Option<SedeId>)
  {
    lectura.Leida? && (usuarioSede.None? || usuarioSede.value == lectura.cuenta.sede)
  }

  ghost predicate EstaAbierto(turnos: seq<Turno>, sede: SedeId, t: nat)
  {
    t < |turnos| && turnos[t].abierto && turnos[t].sede == sede
  }

  ghost predicate HayTurno(turnos: seq<Turno>, sede: SedeId)
  {
    exists t: nat :: EstaAbierto(turnos, sede, t)
  }

  /** What is owed on a snapshot total, never below zero. */
  function Falta(txs: seq<Transaccion>, cuenta: CuentaId, total: int, descuento: int): nat
  {
    Max0(Max0(total - descuento) - Pagado(txs, cuenta))
  }

  /** The account's row once it was paid: closed at its net when it is settled and the remote close worked. */
  function CuentaPagada(remota: CuentaRemota, descuento: int, pendiente: nat, cierra: bool): (r: Cuenta)
    ensures r.sede == remota.sede
    ensures r.estado == CERRADA <==> (pendiente <= 1 && cierra) || remota.estado == CERRADA
    ensures r.estado == CERRADA && remota.estado == ABIERTA ==> r.total == Max0(remota.total - descuento)
    ensures r.estado == ABIERTA ==> r.total == remota.total
  {
    if pendiente <= 1 && cierra then Cuenta(remota.sede, Max0(remota.total - descuento), CERRADA)
    else Cuenta(remota.sede, remota.total, remota.estado)
  }

  /** The guards under the lock for an amount: open, one discount, over a cent owed, at most a cent over. */
  ghost predicate Cabe(txs: seq<Transaccion>, cuenta: CuentaId, remota: CuentaRemota, descuento: int, monto: int)
  {
    && remota.estado == ABIERTA && TodosConDescuento(txs, cuenta, descuento)
    && Falta(txs, cuenta, remota.total, descuento) > 1
    && monto <= Falta(txs, cuenta, remota.total, descuento) + 1
  }

  ghost predicate PagoAdmitido(c: Caja, comando: ComandoPago, usuarioSede: Option<SedeId>, lectura: Lectura)
  {
    && Accede(lectura, usuarioSede) && HayTurno(c.turnos, lectura.cuenta.sede)
    && Cabe(c.transacciones, comando.cuenta, lectura.cuenta, comando.descuento.GetOr(0), comando.monto)
  }

  /** What registrarPago leaves behind and answers, outcome by outcome. */
  ghost predicate PagoCumple(c: Caja, comando: ComandoPago, lectura: Lectura, cierra: bool, ahora: int, r: Caja,
                             salida: Result<Salida, Motivo>)
  {
    match salida
    case Failure(_) => r == c
    case Success(EnEspera) =>
      && lectura.Leida?
      && r == c.(pendientes := c.pendientes + [PagoPendiente(lectura.cuenta.sede, comando, PENDIENTE, None)])
    case Success(Registrado(ids, pendiente, completa)) =>
      && lectura.Leida? && TurnoAbierto(c.turnos, lectura.cuenta.sede).Some?
      && var remota, descuento := lectura.cuenta, comando.descuento.GetOr(0);
         var turno := TurnoAbierto(c.turnos, remota.sede).value;
         && ids == [|c.transacciones|]
         && pendiente == Max0(Falta(c.transacciones, comando.cuenta, remota.total, descuento) - comando.monto)
         && completa == (pendiente <= 1)
         && Agrega(c, r, 1)
         && Anotada(c, r, 0,
                    Transaccion(comando.cuenta, remota.sede, turno, comando.monto, descuento, comando.metodo,
                                comando.notas, ahora),
                    if Pagado(c.transacciones, comando.cuenta) == 0 then descuento else 0,
                    comando.propina.GetOr(0), pendiente)
         && r.cuentas == c.cuentas[comando.cuenta := CuentaPagada(remota, descuento, pendiente, cierra)]
  }

  lemma HayTurnoSii(turnos: seq<Turno>, sede: SedeId)
    ensures HayTurno(turnos, sede) <==> TurnoAbierto(turnos, sede).Some?
  {
    TurnoAbiertoEsAbierto(turnos, sede);
    if TurnoAbierto(turnos, sede).Some? { assert EstaAbierto(turnos, sede, TurnoAbierto(turnos, sede).value); }
  }

  lemma PagoTxAnota(c: Caja, ctx: Contexto, p: Parte)
    ensures PagoTx(c, ctx, p).Success? <==> Cabe(c.transacciones, ctx.cuenta, ctx.remota, ctx.descuento, p.monto)
    ensures PagoTx(c, ctx, p).Failure? ==>
              PagoTx(c, ctx, p).error !in {CuentaNoEncontrada, CuentasNoDisponible, OtraSede}
    ensures PagoTx(c, ctx, p).Success? ==>
              var r := PagoTx(c, ctx, p).value;
              && r.pendiente == Max0(Falta(c.transacciones, ctx.cuenta, ctx.remota.total, ctx.descuento) - p.monto)
              && Agrega(c, r.caja, 1) && r.caja.cuentas == Proyectar(c.cuentas, ctx)
              && Anotada(c, r.caja, 0,
                         Transaccion(ctx.cuenta, ctx.remota.sede, ctx.turno, p.monto, ctx.descuento, p.metodo, p.nota,
                                     ctx.ahora),
                         if Pagado(c.transacciones, ctx.cuenta) == 0 then ctx.descuento else 0, p.propina, r.pendiente)
  {
    CadaRechazo(c.transacciones, ctx, p.monto);
  }

  /** What comes after the transaction touches the account's row alone. */
  lemma TrasCierreSoloMarca(c: Caja, ctx: Contexto, cuentas: map<CuentaId, Cuenta>, pendiente: nat, cierra: bool)
    requires c.cuentas == Proyectar(cuentas, ctx)
    ensures TrasCierre(c, ctx.cuenta, Neto(ctx), pendiente, cierra)
            == c.(cuentas := cuentas[ctx.cuenta := CuentaPagada(ctx.remota, ctx.descuento, pendiente, cierra)])
  {
    var r := TrasCierre(c, ctx.cuenta, Neto(ctx), pendiente, cierra);
    assert r.cuentas == cuentas[ctx.cuenta := CuentaPagada(ctx.remota, ctx.descuento, pendiente, cierra)];
  }

  /** registrarPago keeps its promise: accepted exactly when it should be, queued exactly when no shift of
      the account's branch is open, and then with the rows of this very command. */
  lemma RegistrarPagoCumple(c: Caja, comando: ComandoPago, usuarioSede: Option<SedeId>, lectura: Lectura, cierra: bool,
                            ahora: int)
    ensures var e := RegistrarPago(c, comando, usuarioSede, lectura, cierra, ahora);
            && PagoCumple(c, comando, lectura, cierra, ahora, e.caja, e.salida)
            && (e.salida.Success? && e.salida.value.Registrado? <==> PagoAdmitido(c, comando, usuarioSede, lectura))
            && (e.salida == Success(EnEspera) <==>
                  Accede(lectura, usuarioSede) && !HayTurno(c.turnos, lectura.cuenta.sede))
            && (e.salida == Failure(CuentaNoEncontrada) <==> lectura.NoExiste?)
            && (e.salida == Failure(CuentasNoDisponible) <==> lectura.Caida?)
            && (e.salida == Failure(OtraSede) <==> lectura.Leida? && !Accede(lectura, usuarioSede))
  {
    if lectura.Leida? {
      HayTurnoSii(c.turnos, lectura.cuenta.sede);
      if TurnoAbierto(c.turnos, lectura.cuenta.sede).Some? {
        var ctx := Contexto(comando.cuenta, comando.descuento.GetOr(0), lectura.cuenta,
                            TurnoAbierto(c.turnos, lectura.cuenta.sede).value, ahora);
        PagoTxAnota(c, ctx, ParteSimple(comando));
        if PagoTx(c, ctx, ParteSimple(comando)).Success? {
          var cobrado := PagoTx(c, ctx, ParteSimple(comando)).value;
          TrasCierreSoloMarca(cobrado.caja, ctx, c.cuentas, cobrado.pendiente, cierra);
          assert Ids(|c.transacciones|, 1) == [|c.transacciones|];
        }
      }
    }
  }

  /* ---- the combined payment ---- */

  function SumaTramos(pagos: seq<Tramo>): int
  {
    if |pagos| == 0 then 0 else SumaTramos(pagos[..|pagos| - 1]) + pagos[|pagos| - 1].monto.centimos
  }

  /** A part the command may bring: a positive amount and no negative tip, both in whole cents. */
  predicate TramoBien(t: Tramo)
  {
    && t.monto.centimos >= 1 && !t.monto.fino
    && (t.propina.Some? ==> t.propina.value.centimos >= 0 && !t.propina.value.fino)
  }

  /** Not positive, or with a negative tip; the fractions of a cent are another refusal. */
  predicate ImporteMal(t: Tramo)
  {
    || t.monto.centimos < 0 || (t.monto.centimos == 0 && !t.monto.fino)
    || (t.propina.Some? && t.propina.value.centimos < 0)
  }

  ghost predicate MetodosDistintos(pagos: seq<Tramo>)
  {
    forall i, j :: 0 <= i < j < |pagos| ==> pagos[i].metodo != pagos[j].metodo
  }

  /** At least two parts, no method twice, every part in order. */
  ghost predicate PartesBien(pagos: seq<Tramo>)
  {
    && |pagos| >= 2
    && MetodosDistintos(pagos)
    && (forall i :: 0 <= i < |pagos| ==> TramoBien(pagos[i]))
  }

  predicate DescuentoBien(descuento: Option<Importe>)
  {
    descuento.Some? ==> descuento.value.centimos >= 0 && !descuento.value.fino
  }

  ghost predicate CombinadoAdmitido(c: Caja, comando: ComandoCombinado, usuarioSede: Option<SedeId>, lectura: Lectura)
  {
    && PartesBien(comando.pagos) && DescuentoBien(comando.descuento)
    && Accede(lectura, usuarioSede) && HayTurno(c.turnos, lectura.cuenta.sede)
    && Cabe(c.transacciones, comando.cuenta, lectura.cuenta, comando.descuento.GetOr(CERO).centimos,
            SumaTramos(comando.pagos))
  }

  /** Part i of a combined payment, in its place in the three tables. */
  ghost predicate TramoAnotado(c: Caja, comando: ComandoCombinado, remota: CuentaRemota, turno: nat, ahora: int,
                               r: Caja, i: nat)
    requires i < |comando.pagos|
  {
    var tramo, descuento := comando.pagos[i], comando.descuento.GetOr(CERO).centimos;
    Anotada(c, r, i,
            Transaccion(comando.cuenta, remota.sede, turno, tramo.monto.centimos, descuento, tramo.metodo,
                        Etiqueta(i + 1, |comando.pagos|, comando.notas), ahora),
            if i == 0 && Pagado(c.transacciones, comando.cuenta) == 0 then descuento else 0,
            if tramo.propina.Some? then tramo.propina.value.centimos else 0,
            Max0(Falta(c.transacciones, comando.cuenta, remota.total, descuento) - SumaTramos(comando.pagos[..i + 1])))
  }

  ghost predicate CadaUnoAnotado(c: Caja, comando: ComandoCombinado, remota: CuentaRemota, turno: nat, ahora: int,
                                 r: Caja)
  {
    forall i: nat :: i < |comando.pagos| ==> TramoAnotado(c, comando, remota, turno, ahora, r, i)
  }

  /** What registrarPagoCombinado leaves behind and answers, outcome by outcome. */
  ghost predicate CombinadoCumple(c: Caja, comando: ComandoCombinado, lectura: Lectura, cierra: bool, ahora: int,
                                  r: Caja, salida: Result<Salida, Motivo>)
  {
    match salida
    case Failure(_) => r == c
    case Success(EnEspera) => false
    case Success(Registrado(ids, pendiente, completa)) =>
      && lectura.Leida? && TurnoAbierto(c.turnos, lectura.cuenta.sede).Some?
      && var remota, descuento := lectura.cuenta, comando.descuento.GetOr(CERO).centimos;
         var turno, n := TurnoAbierto(c.turnos, remota.sede).value, |comando.pagos|;
         && |ids| == n && (forall i: nat :: i < n ==> ids[i] == |c.transacciones| + i)
         && pendiente == Max0(Falta(c.transacciones, comando.cuenta, remota.total, descuento)
                              - SumaTramos(comando.pagos))
         && completa == (pendiente <= 1)
         && Agrega(c, r, n)
         && CadaUnoAnotado(c, comando, remota, turno, ahora, r)
         && Pagado(r.transacciones, comando.cuenta)
            == Pagado(c.transacciones, comando.cuenta) + SumaTramos(comando.pagos)
         && r.cuentas == c.cuentas[comando.cuenta := CuentaPagada(remota, descuento, pendiente, cierra)]
  }

  /** The checks before anything is read, in their order. */
  lemma RechazoPrevioSii(c: ComandoCombinado)
    ensures RechazoPrevio(c).None? <==> PartesBien(c.pagos)
    ensures RechazoPrevio(c) == Some(MenosDeDosTramos) <==> |c.pagos| < 2
    ensures RechazoPrevio(c) == Some(MetodoRepetido) <==>
              |c.pagos| >= 2 && !MetodosDistintos(c.pagos)
    ensures RechazoPrevio(c) == Some(ImporteInvalido) <==>
              && |c.pagos| >= 2 && MetodosDistintos(c.pagos)
              && exists i :: 0 <= i < |c.pagos| && ImporteMal(c.pagos[i])
    ensures RechazoPrevio(c) == Some(DemasiadosDecimales) <==>
              && |c.pagos| >= 2 && MetodosDistintos(c.pagos) && !PartesBien(c.pagos)
              && forall i :: 0 <= i < |c.pagos| ==> !ImporteMal(c.pagos[i])
    ensures RechazoPrevio(c).Some? ==>
              RechazoPrevio(c).value in {MenosDeDosTramos, MetodoRepetido, ImporteInvalido, DemasiadosDecimales}
  {
    forall i | 0 <= i < |c.pagos|
      ensures TramoBien(c.pagos[i]) <==> !SinSigno(c.pagos[i]) && !ConFinos(c.pagos[i])
      ensures SinSigno(c.pagos[i]) <==> ImporteMal(c.pagos[i])
    {
    }
  }

  /** The parts the command books add up to what the command says. */
  lemma {:induction false} SumaDePartes(comando: ComandoCombinado, n: nat)
    requires n <= |comando.pagos|
    ensures SumaPartes(PartesCombinadas(comando)[..n]) == SumaTramos(comando.pagos[..n])
  {
    if n != 0 {
      SumaDePartes(comando, n - 1);
      assert PartesCombinadas(comando)[..n][..n - 1] == PartesCombinadas(comando)[..n - 1];
      assert comando.pagos[..n][..n - 1] == comando.pagos[..n - 1];
    }
  }

  lemma {:induction false} CombinadoTxAnota(c: Caja, ctx: Contexto, partes: seq<Parte>)
    requires PartesPositivas(partes)
    ensures CombinadoTx(c, ctx, partes).Success?
            <==> Cabe(c.transacciones, ctx.cuenta, ctx.remota, ctx.descuento, SumaPartes(partes))
    ensures CombinadoTx(c, ctx, partes).Success? ==>
              var r := CombinadoTx(c, ctx, partes).value;
              && r.pendiente
                 == Max0(Falta(c.transacciones, ctx.cuenta, ctx.remota.total, ctx.descuento) - SumaPartes(partes))
              && Agrega(c, r.caja, |partes|) && r.caja.cuentas == Proyectar(c.cuentas, ctx)
              && Pagado(r.caja.transacciones, ctx.cuenta) == Pagado(c.transacciones, ctx.cuenta) + SumaPartes(partes)
  {
    CadaRechazo(c.transacciones, ctx, SumaPartes(partes));
    if CombinadoTx(c, ctx, partes).Success? {
      var base, primera := c.(cuentas := Proyectar(c.cuentas, ctx)), Pagado(c.transacciones, ctx.cuenta) == 0;
      var antes := PendienteAntes(c.transacciones, ctx);
      TramosCrecen(base, ctx, primera, antes, partes);
      TramosSuman(base, ctx, primera, antes, partes);
      BucleAcotado(antes, partes);
    }
  }

  lemma {:induction false} UnTramoAnotado(c: Caja, comando: ComandoCombinado, ctx: Contexto,
                                          cuentas: map<CuentaId, Cuenta>, i: nat)
    requires i < |comando.pagos| && PartesPositivas(PartesCombinadas(comando))
    requires ctx.cuenta == comando.cuenta && ctx.descuento == comando.descuento.GetOr(CERO).centimos
    requires CombinadoTx(c, ctx, PartesCombinadas(comando)).Success?
    ensures TramoAnotado(c, comando, ctx.remota, ctx.turno, ctx.ahora,
                         CombinadoTx(c, ctx, PartesCombinadas(comando)).value.caja.(cuentas := cuentas), i)
  {
    var partes := PartesCombinadas(comando);
    var antes := PendienteAntes(c.transacciones, ctx);
    TramoEnSuSitio(c.(cuentas := Proyectar(c.cuentas, ctx)), ctx, Pagado(c.transacciones, ctx.cuenta) == 0, antes,
                   partes, i);
    SumaDePartes(comando, i + 1);
    BucleAcotado(antes, partes[..i + 1]);
  }

  /** registrarPagoCombinado keeps its promise: accepted exactly when it should be, and then part by part
      with the rows of this very command. */
  lemma RegistrarPagoCombinadoCumple(c: Caja, comando: ComandoCombinado, usuarioSede: Option<SedeId>,
                                     lectura: Lectura, cierra: bool, ahora: int)
    ensures var e := RegistrarPagoCombinado(c, comando, usuarioSede, lectura, cierra, ahora);
            && CombinadoCumple(c, comando, lectura, cierra, ahora, e.caja, e.salida)
            && (e.salida.Success? <==> CombinadoAdmitido(c, comando, usuarioSede, lectura))
            && (e.salida == Failure(SinTurno) <==>
                  && PartesBien(comando.pagos) && Accede(lectura, usuarioSede)
                  && !HayTurno(c.turnos, lectura.cuenta.sede))
            && (e.salida == Failure(DescuentoInvalido) <==>
                  && PartesBien(comando.pagos) && Accede(lectura, usuarioSede)
                  && HayTurno(c.turnos, lectura.cuenta.sede) && !DescuentoBien(comando.descuento))
  {
    RechazoPrevioSii(comando);
    if PartesBien(comando.pagos) && Accede(lectura, usuarioSede) {
      HayTurnoSii(c.turnos, lectura.cuenta.sede);
      if TurnoAbierto(c.turnos, lectura.cuenta.sede).Some? && DescuentoBien(comando.descuento) {
        CombinadoEnTurno(c, comando, lectura, TurnoAbierto(c.turnos, lectura.cuenta.sede).value, cierra, ahora);
      }
    }
  }

  lemma SonPositivas(comando: ComandoCombinado)
    requires PartesBien(comando.pagos)
    ensures PartesPositivas(PartesCombinadas(comando))
    ensures SumaPartes(PartesCombinadas(comando)) == SumaTramos(comando.pagos)
  {
    var partes := PartesCombinadas(comando);
    assert partes[..|partes|] == partes && comando.pagos[..|partes|] == comando.pagos;
    SumaDePartes(comando, |partes|);
    forall i | 0 <= i < |partes| ensures partes[i].monto > 0 { assert TramoBien(comando.pagos[i]); }
  }

  lemma CombinadoEnTurno(c: Caja, comando: ComandoCombinado, lectura: Lectura, turno: nat, cierra: bool, ahora: int)
    requires PartesBien(comando.pagos) && lectura.Leida?
    requires TurnoAbierto(c.turnos, lectura.cuenta.sede) == Some(turno)
    ensures var ctx := Contexto(comando.cuenta, comando.descuento.GetOr(CERO).centimos, lectura.cuenta, turno, ahora);
            var e := ConTx(c, ctx, CombinadoTx(c, ctx, PartesCombinadas(comando)), cierra);
            && CombinadoCumple(c, comando, lectura, cierra, ahora, e.caja, e.salida)
            && (e.salida.Success? <==> Cabe(c.transacciones, comando.cuenta, lectura.cuenta, ctx.descuento,
                                            SumaTramos(comando.pagos)))
            && e.salida != Failure(SinTurno) && e.salida != Failure(DescuentoInvalido)
  {
    var ctx := Contexto(comando.cuenta, comando.descuento.GetOr(CERO).centimos, lectura.cuenta, turno, ahora);
    var partes := PartesCombinadas(comando);
    SonPositivas(comando);
    CombinadoTxAnota(c, ctx, partes);
    CadaRechazo(c.transacciones, ctx, SumaPartes(partes));
    if CombinadoTx(c, ctx, partes).Success? {
      var cobrado := CombinadoTx(c, ctx, partes).value;
      var r := TrasCierre(cobrado.caja, ctx.cuenta, Neto(ctx), cobrado.pendiente, cierra);
      TrasCierreSoloMarca(cobrado.caja, ctx, c.cuentas, cobrado.pendiente, cierra);
      assert CadaUnoAnotado(c, comando, ctx.remota, turno, ahora, r) by {
        forall i: nat | i < |partes| ensures TramoAnotado(c, comando, ctx.remota, turno, ahora, r, i) {
          UnTramoAnotado(c, comando, ctx, r.cuentas, i);
        }
      }
    }
  }

  /* ---- the payments of the queue ---- */

  /** The row names a Transaccion of its own command, taken in its branch at that moment. */
  ghost predicate CobroDeLaFila(c: Caja, f: nat, ahora: int)
    requires f < |c.pendientes|
  {
    var fila := c.pendientes[f];
    && fila.transaccion.Some? && fila.transaccion.value < |c.transacciones|
    && var t := c.transacciones[fila.transaccion.value];
       && t.cuenta == fila.comando.cuenta && t.sede == fila.sede && t.monto == fila.comando.monto
       && t.metodo == fila.comando.metodo && t.descuento == fila.comando.descuento.GetOr(0)
       && t.notas == fila.comando.notas && t.creada == ahora
  }

  lemma UnaFilaSuCobro(c: Caja, f: nat, e: Entorno, ahora: int)
    requires f < |c.pendientes| && c.pendientes[f].estado == PENDIENTE
    ensures var r := DrenarFila(c, f, e, ahora);
            && c.transacciones <= r.transacciones && f < |r.pendientes|
            && (r.pendientes[f].estado == PROCESADO ==> CobroDeLaFila(r, f, ahora))
  {
    var fila := c.pendientes[f].(estado := PROCESANDO);
    var reclamada := Fila(c, f, fila);
    RegistrarPagoCumple(reclamada, fila.comando, Some(fila.sede), e.lectura, e.cierra, ahora);
  }

  ghost predicate ConSusCobros(c: Caja, filas: seq<nat>, ahora: int)
  {
    Enumera(filas, |c.pendientes|)
    && forall i :: 0 <= i < |filas| && c.pendientes[filas[i]].estado == PROCESADO ==> CobroDeLaFila(c, filas[i], ahora)
  }

  lemma UnCobroMas(antes: Caja, r: Caja, previas: seq<nat>, f: nat, escribe: bool, ahora: int)
    requires ConSusCobros(antes, previas, ahora) && f < |antes.pendientes| && f !in previas
    requires FilaAtendida(antes, r, f, escribe) && antes.transacciones <= r.transacciones
    requires r.pendientes[f].estado == PROCESADO ==> CobroDeLaFila(r, f, ahora)
    ensures ConSusCobros(r, previas + [f], ahora)
  {
    forall i | 0 <= i < |previas| && r.pendientes[previas[i]].estado == PROCESADO
      ensures CobroDeLaFila(r, previas[i], ahora)
    {
      assert r.pendientes[previas[i]] == antes.pendientes[previas[i]];
      assert CobroDeLaFila(antes, previas[i], ahora);
    }
  }

  /** Every row a drain leaves PROCESADO names the Transaccion of its own command. */
  lemma {:induction false} CadaProcesadaSuCobro(c: Caja, sede: SedeId, filas: seq<nat>, mundo: nat -> Entorno,
                                                ahora: int)
    requires TurnoAbierto(c.turnos, sede).Some? && SonDeEspera(filas, c.pendientes, sede)
    ensures ConSusCobros(Drenar(c, filas, mundo, ahora), filas, ahora)
  {
    if |filas| != 0 {
      var n := |filas| - 1;
      var f, previas := filas[n], filas[..n];
      SinLaUltima(filas, c.pendientes, sede);
      CadaProcesadaSuCobro(c, sede, previas, mundo, ahora);
      var antes := Drenar(c, previas, mundo, ahora);
      assert TurnoAbierto(antes.turnos, sede).Some? && |antes.pendientes| == |c.pendientes|
        && antes.pendientes[f] == c.pendientes[f] by { DrenarAtiendeTodas(c, sede, previas, mundo, ahora); }
      UnaFilaDrenada(antes, f, mundo(f), ahora);
      UnaFilaSuCobro(antes, f, mundo(f), ahora);
      UnCobroMas(antes, DrenarFila(antes, f, mundo(f), ahora), previas, f, mundo(f).escribe, ahora);
    }
  }
}
