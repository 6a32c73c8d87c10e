/**
 The service as an object over its tables: every operation changes the tables the way the functions of
 the other modules say, or leaves them alone and names the refusal. A request runs here from start to
 end; what other requests do in between is the subject of Protocolo.
 */
module ServicioCajas {
  import opened Comun
  import opened Tablas
  import opened Cobros
  import opened Ventas
  import opened Turnos
  import opened Proyeccion
  import opened Protocolo
  import opened CajasSanas
  import opened Comandos
  import opened Reconciliacion
  import opened ContratosDePago

  /** obtenerResumenTurno; `porMetodo` has one entry per method. */
  datatype Resumen = Resumen(totalVentas: int, totalIngresos: int, totalEgresos: int, propinas: int,
                             porMetodo: map<Metodo, int>, efectivoEsperado: int, comprobantes: nat)

  function PorTodos(porMetodo: map<Metodo, int>): int
    requires forall m: Metodo :: m in porMetodo
  {
    porMetodo[EFECTIVO] + porMetodo[TARJETA] + porMetodo[YAPE] + porMetodo[PLIN] + porMetodo[TRANSFERENCIA]
  }

  /** new Set(pagos.map(p => p.metodo)). */
  function Metodos(pagos: seq<Tramo>): set<Metodo>
  {
    set i | 0 <= i < |pagos| :: pagos[i].metodo
  }

  ghost predicate HayRepetido(pagos: seq<Tramo>)
  {
    exists i, j :: 0 <= i < j < |pagos| && pagos[i].metodo == pagos[j].metodo
  }

  lemma MetodosAgrega(pagos: seq<Tramo>)
    requires |pagos| > 0
    ensures Metodos(pagos) == Metodos(pagos[..|pagos| - 1]) + {pagos[|pagos| - 1].metodo}
  {
    var n := |pagos| - 1;
    forall m | m in Metodos(pagos[..n]) ensures m in Metodos(pagos) {
      var i :| 0 <= i < n && pagos[..n][i].metodo == m;
      assert pagos[i].metodo == m;
    }
    forall m | m in Metodos(pagos) ensures m in Metodos(pagos[..n]) + {pagos[n].metodo} {
      var i :| 0 <= i < |pagos| && pagos[i].metodo == m;
      if i < n { assert pagos[..n][i].metodo == m; }
    }
  }

  lemma RepetidoAgrega(pagos: seq<Tramo>)
    requires |pagos| > 0
    ensures HayRepetido(pagos)
            <==> HayRepetido(pagos[..|pagos| - 1]) || pagos[|pagos| - 1].metodo in Metodos(pagos[..|pagos| - 1])
  {
    var n := |pagos| - 1;
    if HayRepetido(pagos[..n]) {
      var i, j :| 0 <= i < j < n && pagos[..n][i].metodo == pagos[..n][j].metodo;
      assert pagos[i].metodo == pagos[j].metodo;
    }
    if pagos[n].metodo in Metodos(pagos[..n]) {
      var i :| 0 <= i < n && pagos[..n][i].metodo == pagos[n].metodo;
      assert pagos[i].metodo == pagos[n].metodo;
    }
    if HayRepetido(pagos) {
      var i, j :| 0 <= i < j < |pagos| && pagos[i].metodo == pagos[j].metodo;
      assert pagos[..n][i].metodo in Metodos(pagos[..n]);
      if j < n { assert pagos[..n][i].metodo == pagos[..n][j].metodo; }
    }
  }

  /** Comparing the size of the set of methods with the number of parts detects exactly a repetition. */
  lemma {:induction false} ConjuntoDetectaRepetidos(pagos: seq<Tramo>)
    ensures |Metodos(pagos)| <= |pagos|
    ensures |Metodos(pagos)| != |pagos| <==> HayRepetido(pagos)
  {
    if |pagos| != 0 {
      ConjuntoDetectaRepetidos(pagos[..|pagos| - 1]);
      MetodosAgrega(pagos);
      RepetidoAgrega(pagos);
    }
  }

  /** What a drawer holds of one denomination; None where Number() is not finite. */
  datatype Pieza = Pieza(valor: Option<int>, cantidad: Option<int>)

  predicate Util(p: Pieza)
  {
    p.valor.Some? && p.cantidad.Some? && p.cantidad.value >= 0
  }

  function Utiles(piezas: seq<Pieza>): seq<Pieza>
  {
    if |piezas| == 0 then []
    else Utiles(piezas[..|piezas| - 1]) + if Util(piezas[|piezas| - 1]) then [piezas[|piezas| - 1]] else []
  }

  function Contado(piezas: seq<Pieza>): int
  {
    if |piezas| == 0 then 0
    else
      var p := piezas[|piezas| - 1];
      Contado(piezas[..|piezas| - 1]) + p.valor.GetOr(0) * p.cantidad.GetOr(0)
  }

  lemma ContadoAgrega(piezas: seq<Pieza>, p: Pieza)
    ensures Contado(piezas + [p]) == Contado(piezas) + p.valor.GetOr(0) * p.cantidad.GetOr(0)
  {
    assert (piezas + [p])[..|piezas|] == piezas;
  }

  /** What one more entry adds to the count: nothing unless both numbers are finite and the count is not
      negative. */
  lemma ContadoDeUna(piezas: seq<Pieza>, p: Pieza)
    ensures Contado(Utiles([])) == 0
    ensures Contado(Utiles(piezas + [p])) == Contado(Utiles(piezas))
                                             + match p
                                               case Pieza(Some(v), Some(n)) => if n >= 0 then v * n else 0
                                               case _ => 0
  {
    assert (piezas + [p])[..|piezas|] == piezas;
    assert Utiles(piezas + [p]) == if Util(p) then Utiles(piezas) + [p] else Utiles(piezas);
    ContadoAgrega(Utiles(piezas), p);
  }

  /** How many remote closes of a tick worked. */
  function Contestadas(ids: seq<CuentaId>, responde: set<CuentaId>): nat
  {
    if |ids| == 0 then 0
    else Contestadas(ids[..|ids| - 1], responde) + if ids[|ids| - 1] in responde then 1 else 0
  }

  lemma {:induction false} ContestadasSonLasQueResponden(ids: seq<CuentaId>, responde: set<CuentaId>)
    requires SinRepetidas(ids)
    ensures Contestadas(ids, responde) == |Conjunto(ids) * responde|
  {
    if |ids| != 0 {
      var n := |ids| - 1;
      ContestadasSonLasQueResponden(ids[..n], responde);
      assert ids[n] !in ids[..n];
      assert Conjunto(ids) * responde
          == Conjunto(ids[..n]) * responde + if ids[n] in responde then {ids[n]} else {} by {
        assert forall c :: c in ids <==> c in ids[..n] || c == ids[n];
      }
    }
  }

  class ServicioCaja {
    var turnos: seq<Turno>
    var transacciones: seq<Transaccion>
    var movimientos: seq<Movimiento>
    var cuentas: map<CuentaId, Cuenta>
    var pendientes: seq<PagoPendiente>
    var outbox: seq<Evento>

    function Estado(): Caja
      reads this
    {
      Caja(turnos, transacciones, movimientos, cuentas, pendientes, outbox)
    }

    constructor ()
      ensures Estado() == CAJA_VACIA
    {
      turnos, transacciones, movimientos := [], [], [];
      cuentas, pendientes, outbox := map[], [], [];
    }

    /* ---- payments ---- */

    method Guardar(ctx: Contexto, p: Parte, descuentoMov: int, pendiente: int) returns (id: nat)
      modifies this
      ensures Estado() == Asentar(old(Estado()), ctx, p, descuentoMov, pendiente)
      ensures id == |old(transacciones)|
    {
      id := |transacciones|;
      transacciones := transacciones
        + [Transaccion(ctx.cuenta, ctx.remota.sede, ctx.turno, p.monto, ctx.descuento, p.metodo, p.nota, ctx.ahora)];
      movimientos := movimientos
        + [Movimiento(ctx.turno, VENTA, Some(ctx.cuenta), Some(id), p.metodo, p.monto, descuentoMov, p.propina,
                      p.nota)];
      outbox := outbox + [PagoRegistrado(id, ctx.cuenta, p.monto, p.metodo, pendiente)];
    }

    /** The guards both payments share: the account, the discount, the balance. */
    method Verificar(ctx: Contexto, monto: int) returns (rechazo: Option<Motivo>, pagado: int, antes: nat)
      requires ctx.cuenta in cuentas && cuentas[ctx.cuenta].estado == ctx.remota.estado
      ensures rechazo == Rechazo(transacciones, ctx, monto)
      ensures pagado == Pagado(transacciones, ctx.cuenta) && antes == PendienteAntes(transacciones, ctx)
    {
      pagado, antes := Pagado(transacciones, ctx.cuenta), PendienteAntes(transacciones, ctx);
      if cuentas[ctx.cuenta].estado != ABIERTA { return Some(CuentaNoAbierta), pagado, antes; }
      rechazo := ValidarDescuento(MinDescuento(transacciones, ctx.cuenta), MaxDescuento(transacciones, ctx.cuenta),
                                  ctx.descuento);
      if rechazo.Some? { return; }
      if antes <= TOLERANCIA { return Some(YaCobrada), pagado, antes; }
      if monto > antes + TOLERANCIA { return Some(SuperaPendiente), pagado, antes; }
    }

    /** The transaction of registrarPago: all of PagoTx, or nothing. */
    method TransaccionPago(ctx: Contexto, p: Parte) returns (r: Result<nat, Motivo>)
      modifies this
      ensures match PagoTx(old(Estado()), ctx, p)
              case Success(cobrado) => Estado() == cobrado.caja && r == Success(cobrado.pendiente)
              case Failure(e) => Estado() == old(Estado()) && r == Failure(e)
    {
      var previas := cuentas;
      cuentas := Proyectar(cuentas, ctx);
      var rechazo, pagado, antes := Verificar(ctx, p.monto);
      if rechazo.Some? {
        cuentas := previas;
        return Failure(rechazo.value);
      }
      var despues := Max0(antes - p.monto);
      var _ := Guardar(ctx, p, if pagado == 0 then ctx.descuento else 0, despues);
      return Success(despues);
    }

    /** The transaction of registrarPagoCombinado: the loop books every part, or nothing is booked. */
    method TransaccionCombinada(ctx: Contexto, partes: seq<Parte>) returns (r: Result<nat, Motivo>)
      modifies this
      ensures match CombinadoTx(old(Estado()), ctx, partes)
              case Success(cobrado) => Estado() == cobrado.caja && r == Success(cobrado.pendiente)
              case Failure(e) => Estado() == old(Estado()) && r == Failure(e)
    {
      var previas := cuentas;
      var total := 0;
      for i := 0 to |partes|
        invariant total == SumaPartes(partes[..i])
      {
        assert partes[..i + 1][..i] == partes[..i];
        total := total + partes[i].monto;
      }
      assert partes[..|partes|] == partes;
      cuentas := Proyectar(cuentas, ctx);
      var rechazo, pagado, antes := Verificar(ctx, total);
      if rechazo.Some? {
        cuentas := previas;
        return Failure(rechazo.value);
      }
      ghost var base := Estado();
      var pendiente := antes;
      for i := 0 to |partes|
        invariant Estado() == TrasTramos(base, ctx, pagado == 0, antes, partes[..i])
        invariant pendiente == PendienteTras(antes, partes[..i])
      {
        assert partes[..i + 1][..i] == partes[..i];
        pendiente := Max0(pendiente - partes[i].monto);
        var _ := Guardar(ctx, partes[i], if pagado == 0 && i == 0 then ctx.descuento else 0, pendiente);
      }
      return Success(pendiente);
    }

    /** What follows the transaction: a settled account asks for its remote close. */
    method CerrarRemota(ctx: Contexto, pendiente: nat, cierra: bool)
      modifies this`cuentas
      ensures Estado() == TrasCierre(old(Estado()), ctx.cuenta, Neto(ctx), pendiente, cierra)
    {
      if pendiente <= TOLERANCIA && cierra {
        cuentas := MarcarCerrada(cuentas, ctx.cuenta, Neto(ctx));
      }
    }

    /** A payment is taken exactly when the account can be read, is of the user's branch, that branch has a
        shift open and the amount fits; what it then writes and answers is PagoCumple. */
    method RegistrarPago(comando: ComandoPago, usuarioSede: Option<SedeId>, lectura: Lectura, cierra: bool, ahora: int)
      returns (salida: Result<Salida, Motivo>)
      modifies this
      ensures PagoCumple(old(Estado()), comando, lectura, cierra, ahora, Estado(), salida)
      ensures salida.Success? && salida.value.Registrado?
              <==> PagoAdmitido(old(Estado()), comando, usuarioSede, lectura)
      ensures salida == Success(EnEspera)
              <==> Accede(lectura, usuarioSede) && !HayTurno(old(turnos), lectura.cuenta.sede)
      ensures var e := Comandos.RegistrarPago(old(Estado()), comando, usuarioSede, lectura, cierra, ahora);
              Estado() == e.caja && salida == e.salida
    {
      RegistrarPagoCumple(Estado(), comando, usuarioSede, lectura, cierra, ahora);
      if lectura.NoExiste? { return Failure(CuentaNoEncontrada); }
      if lectura.Caida? { return Failure(CuentasNoDisponible); }
      var remota := lectura.cuenta;
      if usuarioSede.Some? && usuarioSede.value != remota.sede { return Failure(OtraSede); }
      var turno := TurnoAbierto(turnos, remota.sede);
      if turno.None? {
        pendientes := pendientes + [PagoPendiente(remota.sede, comando, PENDIENTE, None)];
        return Success(EnEspera);
      }
      var ctx := Contexto(comando.cuenta, comando.descuento.GetOr(0), remota, turno.value, ahora);
      var id := |transacciones|;
      var r := TransaccionPago(ctx, ParteSimple(comando));
      if r.Failure? { return Failure(r.error); }
      CerrarRemota(ctx, r.value, cierra);
      assert Ids(id, 1) == [id];
      return Success(Registrado([id], r.value, r.value <= TOLERANCIA));
    }

    method ValidarCombinado(comando: ComandoCombinado) returns (rechazo: Option<Motivo>)
      ensures rechazo == RechazoPrevio(comando)
      ensures rechazo.None? <==> PartesBien(comando.pagos)
    {
      var pagos := comando.pagos;
      RechazoPrevioSii(comando);
      ConjuntoDetectaRepetidos(pagos);
      if |pagos| < 2 { return Some(MenosDeDosTramos); }
      if |Metodos(pagos)| != |pagos| { return Some(MetodoRepetido); }
      for i := 0 to |pagos|
        invariant forall j :: 0 <= j < i ==> !SinSigno(pagos[j])
      {
        if !pagos[i].monto.Positivo() || pagos[i].propina.GetOr(CERO).Negativo() { return Some(ImporteInvalido); }
      }
      for i := 0 to |pagos|
        invariant forall j :: 0 <= j < i ==> !ConFinos(pagos[j])
      {
        if pagos[i].monto.fino || pagos[i].propina.GetOr(CERO).fino { return Some(DemasiadosDecimales); }
      }
      return None;
    }

    /** Every part of an acceptable command is booked, or nothing is; what is written and answered is
        CombinadoCumple. */
    method RegistrarPagoCombinado(comando: ComandoCombinado, usuarioSede: Option<SedeId>, lectura: Lectura,
                                  cierra: bool, ahora: int)
      returns (salida: Result<Salida, Motivo>)
      modifies this
      ensures CombinadoCumple(old(Estado()), comando, lectura, cierra, ahora, Estado(), salida)
      ensures salida.Success? <==> CombinadoAdmitido(old(Estado()), comando, usuarioSede, lectura)
      ensures var e := Comandos.RegistrarPagoCombinado(old(Estado()), comando, usuarioSede, lectura, cierra, ahora);
              Estado() == e.caja && salida == e.salida
    {
      RegistrarPagoCombinadoCumple(Estado(), comando, usuarioSede, lectura, cierra, ahora);
      var previo := ValidarCombinado(comando);
      if previo.Some? { return Failure(previo.value); }
      if lectura.NoExiste? { return Failure(CuentaNoEncontrada); }
      if lectura.Caida? { return Failure(CuentasNoDisponible); }
      var remota := lectura.cuenta;
      if usuarioSede.Some? && usuarioSede.value != remota.sede { return Failure(OtraSede); }
      var turno := TurnoAbierto(turnos, remota.sede);
      if turno.None? { return Failure(SinTurno); }
      var descuento := comando.descuento.GetOr(CERO);
      if descuento.Negativo() || descuento.fino { return Failure(DescuentoInvalido); }
      var ctx := Contexto(comando.cuenta, descuento.centimos, remota, turno.value, ahora);
      var partes := PartesCombinadas(comando);
      var id := |transacciones|;
      CombinadoCrece(Estado(), ctx, partes);
      var r := TransaccionCombinada(ctx, partes);
      if r.Failure? { return Failure(r.error); }
      CerrarRemota(ctx, r.value, cierra);
      return Success(Registrado(Ids(id, |partes|), r.value, r.value <= TOLERANCIA));
    }

    /* ---- shifts ---- */

    /** Claims each waiting row of the branch, tries it, and writes what became of it. */
    method ProcesarPagosPendientes(sede: SedeId, mundo: nat -> Entorno, ahora: int)
      modifies this
      ensures Estado() == Drenar(old(Estado()), FilasEnEspera(old(pendientes), sede), mundo, ahora)
      ensures HayTurno(old(turnos), sede) ==> ConSusCobros(Estado(), FilasEnEspera(old(pendientes), sede), ahora)
    {
      var filas := FilasEnEspera(pendientes, sede);
      if HayTurno(turnos, sede) {
        HayTurnoSii(turnos, sede);
        ListaDelDrenado(pendientes, sede);
        CadaProcesadaSuCobro(Estado(), sede, filas, mundo, ahora);
      }
      ghost var antes := Estado();
      for i := 0 to |filas|
        invariant Estado() == Drenar(antes, filas[..i], mundo, ahora)
      {
        assert filas[..i + 1][..i] == filas[..i];
        AtenderFila(filas[i], mundo(filas[i]), ahora);
      }
      assert filas[..|filas|] == filas;
    }

    /** The claim, the attempt, and the outcome: when its first write fails, the catch writes FALLIDO. */
    method AtenderFila(f: nat, e: Entorno, ahora: int)
      modifies this
      ensures Estado() == DrenarFila(old(Estado()), f, e, ahora)
    {
      if f >= |pendientes| || pendientes[f].estado != PENDIENTE { return; }
      pendientes := pendientes[f := pendientes[f].(estado := PROCESANDO)];
      RegistrarConservaFilas(Estado(), pendientes[f].comando, Some(pendientes[f].sede), e.lectura, e.cierra, ahora);
      var salida := RegistrarPago(pendientes[f].comando, Some(pendientes[f].sede), e.lectura, e.cierra, ahora);
      if salida.Failure? || !e.escribe {
        pendientes := pendientes[f := pendientes[f].(estado := FALLIDO)];
        return;
      }
      match salida.value
      case EnEspera => pendientes := pendientes[f := pendientes[f].(estado := PENDIENTE)];
      case Registrado(ids, _, _) =>
        pendientes := pendientes[f := pendientes[f].(estado := PROCESADO, transaccion := Some(ids[0]))];
    }

    /** The insert of abrirTurno under the partial unique index; false is the violation. */
    method InsertarTurno(sede: SedeId, fondoInicial: int) returns (ok: bool)
      modifies this
      ensures ok == AperturaTx(old(Estado()), sede, fondoInicial).Some?
      ensures Estado() == if ok then AperturaTx(old(Estado()), sede, fondoInicial).value else old(Estado())
      ensures ok <==> forall t :: 0 <= t < |old(turnos)| && old(turnos)[t].sede == sede ==> !old(turnos)[t].abierto
      ensures ok ==>
                && turnos == old(turnos) + [Turno(sede, fondoInicial, true, None)]
                && movimientos == old(movimientos) + [Movimiento(|old(turnos)|, APERTURA, None, None, EFECTIVO,
                                                                 fondoInicial, 0, 0, Libre(None))]
                && outbox == old(outbox) + [TurnoCajaAbierto(|old(turnos)|, sede)]
    {
      TurnoAbiertoEsAbierto(turnos, sede);
      if exists t :: 0 <= t < |turnos| && turnos[t].abierto && turnos[t].sede == sede { return false; }
      var id := |turnos|;
      turnos := turnos + [Turno(sede, fondoInicial, true, None)];
      movimientos := movimientos + [Movimiento(id, APERTURA, None, None, EFECTIVO, fondoInicial, 0, 0, Libre(None))];
      outbox := outbox + [TurnoCajaAbierto(id, sede)];
      return true;
    }

    /**
     abrirTurno after its first lookup came back with `visto`. When the unique index turns the insert
     away, `segunda` is what the second lookup finds; both may be stale, and if the second finds nothing
     the violation is thrown on. Unless a lookup was stale, a shift is open at the end, its own or the
     one that won the race, and no payment of the branch is left waiting.
     */
    method AbrirTurno(sede: SedeId, fondoInicial: int, visto: Option<nat>, segunda: Option<nat>, mundo: nat -> Entorno,
                      ahora: int)
      returns (turno: Result<nat, Motivo>)
      modifies this
      ensures var apertura := AperturaTx(old(Estado()), sede, fondoInicial);
              var base := if visto.None? && apertura.Some? then apertura.value else old(Estado());
              if visto.None? && apertura.None? && segunda.None?
              then turno == Failure(TurnoDuplicado) && Estado() == old(Estado())
              else
                && Estado() == Drenar(base, FilasEnEspera(base.pendientes, sede), mundo, ahora)
                && turno == Success(if visto.Some? then visto.value
                                    else if apertura.Some? then |old(turnos)| else segunda.value)
      ensures var abierto := TurnoAbierto(old(turnos), sede);
              (visto.None? && (abierto.None? || segunda == abierto)) || (visto.Some? && visto == abierto) ==>
                && turno.Success? && turno.value < |turnos|
                && turnos[turno.value].abierto && turnos[turno.value].sede == sede
                && FilasEnEspera(pendientes, sede) == []
    {
      TurnoAbiertoEsAbierto(turnos, sede);
      turno := Failure(TurnoDuplicado);
      if visto.Some? {
        turno := Success(visto.value);
      } else {
        var nuevo := |turnos|;
        var ok := InsertarTurno(sede, fondoInicial);
        if ok {
          turno := Success(nuevo);
        } else if segunda.Some? {
          turno := Success(segunda.value);
        } else {
          return;
        }
      }
      ghost var base := Estado();
      TurnoAbiertoEsAbierto(turnos, sede);
      ProcesarPagosPendientes(sede, mundo, ahora);
      if TurnoAbierto(base.turnos, sede).Some? { NadaEnEsperaTrasDrenar(base, sede, mundo, ahora); }
    }

    /** sumDenominaciones: only entries with finite numbers and no negative count add up. */
    method SumDenominaciones(piezas: seq<Pieza>) returns (total: int)
      ensures total == Contado(Utiles(piezas))
    {
      total := 0;
      for i := 0 to |piezas|
        invariant total == Contado(Utiles(piezas[..i]))
      {
        var p := piezas[i];
        assert piezas[..i + 1][..i] == piezas[..i];
        assert Utiles(piezas[..i + 1]) == if Util(p) then Utiles(piezas[..i]) + [p] else Utiles(piezas[..i]);
        ContadoAgrega(Utiles(piezas[..i]), p);
        if p.valor.Some? && p.cantidad.Some? && p.cantidad.value >= 0 {
          total := total + p.valor.value * p.cantidad.value;
        }
      }
      assert piezas[..|piezas|] == piezas;
    }

    /** A shift closes exactly when it exists, is of the user's branch, is open and no account of it is known
        to be unpaid: when servicio-cuentas does not answer (`abiertas` is None), the close goes on. */
    method CerrarTurno(t: nat, usuarioSede: Option<SedeId>, abiertas: Option<nat>, denominaciones: seq<Pieza>)
      returns (r: Result<Cierre, Motivo>)
      modifies this
      ensures var visible := t < |old(turnos)| && (usuarioSede.None? || old(turnos)[t].sede == usuarioSede.value);
              && (r == Failure(TurnoNoEncontrado) <==> !visible)
              && (r == Failure(TurnoYaCerrado) <==> visible && !old(turnos)[t].abierto)
              && (r == Failure(CuentasSinCobrar) <==>
                    visible && old(turnos)[t].abierto && abiertas.Some? && abiertas.value > 0)
              && (r.Success? <==> visible && old(turnos)[t].abierto && (abiertas.None? || abiertas.value == 0))
      ensures r.Failure? ==> Estado() == old(Estado())
      ensures r.Success? ==>
                && r.value.montoEsperado == EfectivoEsperado(old(movimientos), t)
                && r.value.montoReal == Contado(Utiles(denominaciones))
                && r.value.diferencia == r.value.montoReal - r.value.montoEsperado
                && turnos == old(turnos)[t := Turno(old(turnos)[t].sede, old(turnos)[t].fondoInicial, false,
                                                    Some(r.value))]
                && outbox == old(outbox) + [TurnoCajaCerrado(t, old(turnos)[t].sede)]
                && transacciones == old(transacciones) && movimientos == old(movimientos)
                && cuentas == old(cuentas) && pendientes == old(pendientes)
                && CierreTx(old(Estado()), t, Contado(Utiles(denominaciones))) == Success(Estado())
    {
      if t >= |turnos| || (usuarioSede.Some? && turnos[t].sede != usuarioSede.value) {
        return Failure(TurnoNoEncontrado);
      }
      if !turnos[t].abierto { return Failure(TurnoYaCerrado); }
      if abiertas.Some? && abiertas.value > 0 { return Failure(CuentasSinCobrar); }
      var esperado := Sumar(Consulta(t, None, Some(EFECTIVO), MONTO_Y_PROPINA));
      var contado := SumDenominaciones(denominaciones);
      var cierre := Cierre(esperado, contado, contado - esperado);
      outbox := outbox + [TurnoCajaCerrado(t, turnos[t].sede)];
      turnos := turnos[t := turnos[t].(abierto := false, cierre := Some(cierre))];
      return Success(cierre);
    }

    /** An open shift of the user's branch takes one movement: it lowers the expected cash of that shift,
        and of no other, by the size of an EGRESO, and raises it by that of anything else. */
    method CrearMovimiento(t: nat, usuarioSede: Option<SedeId>, tipo: TipoMovimiento, monto: int, motivo: Nota)
      returns (rechazo: Option<Motivo>)
      requires tipo == INGRESO || tipo == EGRESO || tipo == AJUSTE
      modifies this`movimientos
      ensures rechazo.None?
              <==> t < |turnos| && turnos[t].abierto && (usuarioSede.None? || turnos[t].sede == usuarioSede.value)
      ensures rechazo == Some(TurnoYaCerrado) <==>
                t < |turnos| && !turnos[t].abierto && (usuarioSede.None? || turnos[t].sede == usuarioSede.value)
      ensures rechazo.Some? ==>
                && movimientos == old(movimientos)
                && (rechazo.value == TurnoYaCerrado || rechazo.value == TurnoNoEncontrado)
      ensures rechazo.None? ==>
                && |movimientos| == |old(movimientos)| + 1 && movimientos[..|old(movimientos)|] == old(movimientos)
                && movimientos[|old(movimientos)|].tipo == tipo && movimientos[|old(movimientos)|].motivo == motivo
                && movimientos[|old(movimientos)|] == MovimientoManual(t, tipo, monto, motivo)
                && (forall x :: EfectivoEsperado(movimientos, x) == EfectivoEsperado(old(movimientos), x)
                                + if x != t then 0 else if tipo == EGRESO then -Abs(monto) else Abs(monto))
                && (forall x, m :: TotalVentas(movimientos, x, m) == TotalVentas(old(movimientos), x, m))
      ensures CajonEnOrden(old(Estado())) ==> CajonEnOrden(Estado())
    {
      if t >= |turnos| || (usuarioSede.Some? && turnos[t].sede != usuarioSede.value) { return Some(TurnoNoEncontrado); }
      if !turnos[t].abierto { return Some(TurnoYaCerrado); }
      var absoluto := if monto < 0 then -monto else monto;
      var m := Movimiento(t, tipo, None, None, EFECTIVO, if tipo == EGRESO then -absoluto else absoluto, 0, 0, motivo);
      ManualMueveSuTurno(movimientos, m);
      if CajonEnOrden(Estado()) { CajonAlMover(Estado(), m); }
      movimientos := movimientos + [m];
      return None;
    }

    /** Only method and notes of that Transaccion change, and the method of the movements that name it. */
    method ActualizarTransaccion(id: nat, usuarioSede: Option<SedeId>, metodo: Option<Metodo>, notas: Option<Nota>)
      returns (rechazo: Option<Motivo>)
      modifies this
      ensures var hay := id < |old(transacciones)|
                         && (usuarioSede.None? || old(transacciones)[id].sede == usuarioSede.value);
              rechazo == if hay then None else Some(TransaccionNoEncontrada)
      ensures Estado() == if rechazo.None? then CorregirTx(old(Estado()), id, metodo, notas) else old(Estado())
      ensures rechazo.None? ==>
                && transacciones == old(transacciones)[id := old(transacciones)[id].(
                     metodo := metodo.GetOr(old(transacciones)[id].metodo),
                     notas := notas.GetOr(old(transacciones)[id].notas))]
                && |movimientos| == |old(movimientos)|
                && (forall k :: 0 <= k < |movimientos| ==>
                      var m := old(movimientos)[k];
                      movimientos[k] == if m.transaccion == Some(id) then m.(metodo := metodo.GetOr(m.metodo)) else m)
                && turnos == old(turnos) && cuentas == old(cuentas) && pendientes == old(pendientes)
                && outbox == old(outbox)
    {
      if id >= |transacciones| || (usuarioSede.Some? && transacciones[id].sede != usuarioSede.value) {
        return Some(TransaccionNoEncontrada);
      }
      if metodo.Some? { transacciones := transacciones[id := transacciones[id].(metodo := metodo.value)]; }
      if notas.Some? { transacciones := transacciones[id := transacciones[id].(notas := notas.value)]; }
      if metodo.Some? {
        var filas := movimientos;
        CorregirPorFila(filas, id, metodo.value);
        movimientos := seq(|filas|, k requires 0 <= k < |filas| =>
                             if filas[k].transaccion == Some(id) then filas[k].(metodo := metodo.value) else filas[k]);
        assert movimientos == CorregirMovimientos(filas, id, metodo.value);
      }
      return None;
    }

    /* ---- account events and the repair cron ---- */

    /** The account is open in that branch, with the total its row had; a second delivery changes nothing
        more, and the money rules survive with the account marked as reopened when it was not open. */
    method HandleCuentaAbierta(cuenta: CuentaId, sede: SedeId)
      modifies this`cuentas
      ensures cuentas == AlAbrirse(old(cuentas), cuenta, sede) == AlAbrirse(cuentas, cuenta, sede)
      ensures cuentas.Keys == old(cuentas).Keys + {cuenta}
      ensures cuentas[cuenta].estado == ABIERTA && cuentas[cuenta].sede == sede
      ensures cuentas[cuenta].total == if cuenta in old(cuentas) then old(cuentas)[cuenta].total else 0
      ensures forall otra :: otra in old(cuentas) && otra != cuenta ==> cuentas[otra] == old(cuentas)[otra]
      ensures forall totales, reabiertas :: CajaSana(old(Estado()), totales, reabiertas) ==>
                CajaSana(Estado(), totales, reabiertas + if NoAbierta(old(cuentas), cuenta) then {cuenta} else {})
    {
      ghost var antes := Estado();
      if cuenta in cuentas {
        cuentas := cuentas[cuenta := cuentas[cuenta].(estado := ABIERTA, sede := sede)];
      } else {
        cuentas := cuentas[cuenta := Cuenta(sede, 0, ABIERTA)];
      }
      forall totales, reabiertas | CajaSana(antes, totales, reabiertas)
        ensures CajaSana(Estado(), totales, reabiertas + if NoAbierta(antes.cuentas, cuenta) then {cuenta} else {})
      {
        CajaAlAbrirse(antes, totales, reabiertas, cuenta, sede);
      }
    }

    /** A known account is closed with the event's total; an unknown one is not created. A second delivery
        changes nothing more, and the money rules survive. */
    method HandleCuentaCerrada(cuenta: CuentaId, total: int, sede: Option<SedeId>)
      modifies this`cuentas
      ensures cuentas == AlCerrarse(old(cuentas), cuenta, total, sede) == AlCerrarse(cuentas, cuenta, total, sede)
      ensures cuentas.Keys == old(cuentas).Keys
      ensures cuenta in cuentas ==>
                && cuentas[cuenta].estado == CERRADA && cuentas[cuenta].total == total
                && cuentas[cuenta].sede == sede.GetOr(old(cuentas)[cuenta].sede)
      ensures forall otra :: otra in old(cuentas) && otra != cuenta ==> cuentas[otra] == old(cuentas)[otra]
      ensures forall totales, reabiertas :: CajaSana(old(Estado()), totales, reabiertas) ==>
                CajaSana(Estado(), totales, reabiertas)
    {
      ghost var antes := Estado();
      if cuenta in cuentas {
        cuentas := cuentas[cuenta := cuentas[cuenta].(estado := CERRADA, total := total)];
        if sede.Some? { cuentas := cuentas[cuenta := cuentas[cuenta].(sede := sede.value)]; }
      }
      forall totales, reabiertas | CajaSana(antes, totales, reabiertas)
        ensures CajaSana(Estado(), totales, reabiertas)
      {
        CajaAlProyectar(antes, totales, reabiertas, cuentas, reabiertas);
      }
    }

    /** One tick of the cron; `responde` are the accounts whose remote close works. It counts the accounts
        that needed the repair before and no longer do. */
    method ReconciliarCierresPendientes(corte: int, orden: seq<CuentaId>, responde: set<CuentaId>)
        returns (cerradas: nat)
      modifies this`cuentas
      ensures Estado() == Tick(old(Estado()), corte, orden, responde)
      ensures cerradas == Contestadas(ListaDelTick(old(Estado()), corte, orden), responde) <= 20
      ensures EsConsulta(orden, old(cuentas)) ==>
                cerradas == |PorCerrar(old(Estado()), corte) - PorCerrar(Estado(), corte)|
    {
      if EsConsulta(orden, cuentas) {
        UnTick(Estado(), corte, orden, responde);
        ContestadasSonLasQueResponden(ListaDelTick(Estado(), corte, orden), responde);
        assert PorCerrar(Estado(), corte) - PorCerrar(Tick(Estado(), corte, orden, responde), corte)
            == Conjunto(ListaDelTick(Estado(), corte, orden)) * responde;
      }
      var ids := Candidatas(transacciones, corte);
      var agregados := AgregarTodas(transacciones, ids);
      cerradas := 0;
      if |ids| == 0 {
        SinCandidatasNadie(orden, cuentas, agregados, corte);
        return;
      }
      var lista := Primeras(Filtrar(orden, cuentas, agregados, corte), LIMITE_POR_TICK);
      ghost var antes := cuentas;
      for i := 0 to |lista|
        invariant cuentas == TrasCerrar(antes, lista[..i], responde)
        invariant cerradas == Contestadas(lista[..i], responde) <= i
      {
        assert lista[..i + 1][..i] == lista[..i];
        if lista[i] in responde {
          cuentas := MarcarReconciliada(cuentas, lista[i]);
          cerradas := cerradas + 1;
        }
      }
      assert lista[..|lista|] == lista;
    }

    /* ---- the summary of a shift ---- */

    method Sumar(q: Consulta) returns (total: int)
      ensures total == Suma(movimientos, q)
    {
      total := 0;
      for i := 0 to |movimientos|
        invariant total == Suma(movimientos[..i], q)
      {
        var m := movimientos[i];
        assert movimientos[..i + 1][..i] == movimientos[..i];
        if m.turno == q.turno && (q.tipo.None? || m.tipo == q.tipo.value)
          && (q.metodo.None? || m.metodo == q.metodo.value) {
          total := total + (match q.campo
                            case MONTO => m.monto
                            case PROPINA => m.propina
                            case MONTO_Y_PROPINA => m.monto + m.propina);
        }
      }
      assert movimientos[..|movimientos|] == movimientos;
    }

    method PorMetodo(t: nat) returns (porMetodo: map<Metodo, int>)
      ensures forall m :: m in porMetodo && porMetodo[m] == TotalVentas(movimientos, t, Some(m))
    {
      TodoMetodoEsta();
      porMetodo := map m | m in METODOS :: 0;
      for i := 0 to |movimientos|
        invariant forall m :: m in porMetodo && porMetodo[m] == TotalVentas(movimientos[..i], t, Some(m))
      {
        var m := movimientos[i];
        assert movimientos[..i + 1][..i] == movimientos[..i];
        if m.turno == t && m.tipo == VENTA {
          porMetodo := porMetodo[m.metodo := porMetodo[m.metodo] + m.monto];
        }
      }
      assert movimientos[..|movimientos|] == movimientos;
    }

    method Comprobantes(t: nat) returns (n: nat)
      ensures n == |CuentasVendidas(movimientos, t)| + VentasSinCuenta(movimientos, t)
    {
      var vendidas: set<CuentaId>, sinCuenta := {}, 0;
      for i := 0 to |movimientos|
        invariant vendidas == CuentasVendidas(movimientos[..i], t) && sinCuenta == VentasSinCuenta(movimientos[..i], t)
      {
        var m := movimientos[i];
        assert movimientos[..i + 1][..i] == movimientos[..i];
        if m.turno == t && m.tipo == VENTA {
          if m.cuenta.Some? { vendidas := vendidas + {m.cuenta.value}; } else { sinCuenta := sinCuenta + 1; }
        }
      }
      assert movimientos[..|movimientos|] == movimientos;
      n := |vendidas| + sinCuenta;
    }

    method BuildResumen(t: nat) returns (r: Resumen)
      ensures r.totalIngresos == DeTipo(movimientos, t, INGRESO) && r.totalEgresos == DeTipo(movimientos, t, EGRESO)
      ensures r.propinas == Propinas(movimientos, t)
      ensures r.efectivoEsperado == EfectivoEsperado(movimientos, t)
      ensures r.comprobantes == |CuentasDeVentas(movimientos, t)| + |VentasSueltas(movimientos, t)|
      ensures forall m :: m in r.porMetodo
      ensures r.totalVentas == TotalVentas(movimientos, t, None) == PorTodos(r.porMetodo)
      ensures Concuerdan(movimientos, transacciones) ==>
                && r.totalVentas == TotalTransacciones(transacciones, t, None)
                && (forall m :: r.porMetodo[m] == TotalTransacciones(transacciones, t, Some(m)))
                && r.comprobantes
                   == |set i | 0 <= i < |transacciones| && transacciones[i].turno == t :: transacciones[i].cuenta|
    {
      var ventas := Sumar(Consulta(t, Some(VENTA), None, MONTO));
      var ingresos := Sumar(Consulta(t, Some(INGRESO), None, MONTO));
      var egresos := Sumar(Consulta(t, Some(EGRESO), None, MONTO));
      var propinas := Sumar(Consulta(t, None, None, PROPINA));
      var porMetodo := PorMetodo(t);
      var esperado := Sumar(Consulta(t, None, Some(EFECTIVO), MONTO_Y_PROPINA));
      var comprobantes := Comprobantes(t);
      CadaCuentaUnaVez(movimientos, t);
      CadaSueltaUnaVez(movimientos, t);
      LosMetodosParten(movimientos, Consulta(t, Some(VENTA), None, MONTO));
      if Concuerdan(movimientos, transacciones) { ResumenContraTransacciones(movimientos, transacciones, t); }
      r := Resumen(ventas, ingresos, egresos, propinas, porMetodo, esperado, comprobantes);
    }
  }

  lemma TodoMetodoEsta()
    ensures forall m: Metodo :: m in METODOS
  {
    forall m: Metodo ensures m in METODOS {
      var k := match m case EFECTIVO => 0 case TARJETA => 1 case YAPE => 2 case PLIN => 3 case TRANSFERENCIA => 4;
      assert METODOS[k] == m;
    }
  }

  /** The whole summary read off the transacciones of the shift. */
  lemma ResumenContraTransacciones(movs: seq<Movimiento>, txs: seq<Transaccion>, t: nat)
    requires Concuerdan(movs, txs)
    ensures TotalVentas(movs, t, None) == TotalTransacciones(txs, t, None)
    ensures forall m :: TotalVentas(movs, t, Some(m)) == TotalTransacciones(txs, t, Some(m))
    ensures CuentasVendidas(movs, t) == set i | 0 <= i < |txs| && txs[i].turno == t :: txs[i].cuenta
    ensures VentasSinCuenta(movs, t) == 0
  {
    forall m ensures TotalVentas(movs, t, Some(m)) == TotalTransacciones(txs, t, Some(m)) {
      ResumenCuadra(movs, txs, t, Some(m));
    }
    ResumenCuadra(movs, txs, t, None);
  }

  lemma NadieEspera(pendientes: seq<PagoPendiente>, sede: SedeId)
    requires forall f: nat :: f < |pendientes| ==> !EsperaEn(pendientes[f], sede)
    ensures FilasEnEspera(pendientes, sede) == []
  {
    ListaDelDrenado(pendientes, sede);
  }

  lemma NadaEnEsperaTrasDrenar(c: Caja, sede: SedeId, mundo: nat -> Entorno, ahora: int)
    requires TurnoAbierto(c.turnos, sede).Some?
    ensures var r := Drenar(c, FilasEnEspera(c.pendientes, sede), mundo, ahora);
            r.turnos == c.turnos && FilasEnEspera(r.pendientes, sede) == []
  {
    DrenarVaciaLaSede(c, sede, mundo, ahora);
    NadieEspera(Drenar(c, FilasEnEspera(c.pendientes, sede), mundo, ahora).pendientes, sede);
  }

  lemma SinCandidatasNadie(orden: seq<CuentaId>, cuentas: map<CuentaId, Cuenta>, agregados: map<CuentaId, Agregado>,
                           corte: int)
    requires agregados == map[]
    ensures Filtrar(orden, cuentas, agregados, corte) == []
  {
  }
}
