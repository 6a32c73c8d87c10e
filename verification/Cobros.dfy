/**
 The database transactions of registrarPago and registrarPagoCombinado: the guards they share, the
 rows they append, and the theorem that a combined payment is its parts taken one by one.
 */
module Cobros {
  import opened Comun
  import opened Tablas

  datatype Motivo =
    | CuentaNoEncontrada | CuentasNoDisponible | OtraSede | SinTurno
    | CuentaNoAbierta | DescuentosInconsistentes | DescuentoDistinto | YaCobrada | SuperaPendiente
    | MenosDeDosTramos | MetodoRepetido | ImporteInvalido | DemasiadosDecimales | DescuentoInvalido
    | TurnoNoEncontrado | TurnoYaCerrado | TurnoDuplicado | CuentasSinCobrar | TransaccionNoEncontrada

  /** What a command knows when its transaction starts; `remota` may be arbitrarily stale. */
  datatype Contexto = Contexto(cuenta: CuentaId, descuento: int, remota: CuentaRemota, turno: nat, ahora: int)

  /** One amount to book: a whole single payment, or one method of a combined one. */
  datatype Parte = Parte(monto: int, metodo: Metodo, propina: int, nota: Nota)

  function ValidarDescuento(minimo: Option<int>, maximo: Option<int>, descuento: int): Option<Motivo>
  {
    if minimo.None? && maximo.None? then None
    else
      var descuentoMinimo := if minimo.Some? then minimo.value else maximo.value;
      var descuentoMaximo := if maximo.Some? then maximo.value else minimo.value;
      if descuentoMinimo != descuentoMaximo then Some(DescuentosInconsistentes)
      else if descuentoMinimo != descuento then Some(DescuentoDistinto)
      else None
  }

  function Neto(ctx: Contexto): nat
  {
    Max0(ctx.remota.total - ctx.descuento)
  }

  function PendienteAntes(txs: seq<Transaccion>, ctx: Contexto): nat
  {
    Max0(Neto(ctx) - Pagado(txs, ctx.cuenta))
  }

  function Proyectar(cuentas: map<CuentaId, Cuenta>, ctx: Contexto): map<CuentaId, Cuenta>
  {
    cuentas[ctx.cuenta := Cuenta(ctx.remota.sede, ctx.remota.total, ctx.remota.estado)]
  }

  /** Why a payment of `monto` is refused under the account's lock, or None. */
  function Rechazo(txs: seq<Transaccion>, ctx: Contexto, monto: int): Option<Motivo>
  {
    if ctx.remota.estado != ABIERTA then Some(CuentaNoAbierta)
    else
      var previo := ValidarDescuento(MinDescuento(txs, ctx.cuenta), MaxDescuento(txs, ctx.cuenta), ctx.descuento);
      if previo.Some? then previo
      else if PendienteAntes(txs, ctx) <= TOLERANCIA then Some(YaCobrada)
      else if monto > PendienteAntes(txs, ctx) + TOLERANCIA then Some(SuperaPendiente)
      else None
  }

  /** Books one amount: a Transaccion, its VENTA movement and its PagoRegistrado event. */
  function Asentar(c: Caja, ctx: Contexto, p: Parte, descuentoMov: int, pendiente: int): Caja
  {
    var id := |c.transacciones|;
    c.(transacciones := c.transacciones +
         [Transaccion(ctx.cuenta, ctx.remota.sede, ctx.turno, p.monto, ctx.descuento, p.metodo, p.nota, ctx.ahora)],
       movimientos := c.movimientos +
         [Movimiento(ctx.turno, VENTA, Some(ctx.cuenta), Some(id), p.metodo, p.monto, descuentoMov, p.propina, p.nota)],
       outbox := c.outbox + [PagoRegistrado(id, ctx.cuenta, p.monto, p.metodo, pendiente)])
  }

  datatype Cobrado = Cobrado(caja: Caja, pendiente: nat)

  /** The transaction of registrarPago; a refusal rolls the projection back. */
  function PagoTx(c: Caja, ctx: Contexto, p: Parte): Result<Cobrado, Motivo>
  {
    var rechazo := Rechazo(c.transacciones, ctx, p.monto);
    if rechazo.Some? then Failure(rechazo.value)
    else
      var despues := Max0(PendienteAntes(c.transacciones, ctx) - p.monto);
      var descuentoMov := if Pagado(c.transacciones, ctx.cuenta) == 0 then ctx.descuento else 0;
      Success(Cobrado(Asentar(c.(cuentas := Proyectar(c.cuentas, ctx)), ctx, p, descuentoMov, despues), despues))
  }

  function SumaPartes(partes: seq<Parte>): int
  {
    if |partes| == 0 then 0 else SumaPartes(partes[..|partes| - 1]) + partes[|partes| - 1].monto
  }

  /** The clamped running balance of the loop over the parts. */
  function PendienteTras(pendiente: nat, partes: seq<Parte>): nat
  {
    if |partes| == 0 then pendiente
    else Max0(PendienteTras(pendiente, partes[..|partes| - 1]) - partes[|partes| - 1].monto)
  }

  /** The tables once the loop has booked `partes`. */
  function TrasTramos(c: Caja, ctx: Contexto, primera: bool, pendiente: nat, partes: seq<Parte>): Caja
    decreases |partes|
  {
    if |partes| == 0 then c
    else
      var n := |partes| - 1;
      Asentar(TrasTramos(c, ctx, primera, pendiente, partes[..n]), ctx, partes[n],
              if primera && n == 0 then ctx.descuento else 0, PendienteTras(pendiente, partes))
  }

  /** The transaction of registrarPagoCombinado: the guards once, for the whole sum, then the loop. */
  function CombinadoTx(c: Caja, ctx: Contexto, partes: seq<Parte>): Result<Cobrado, Motivo>
  {
    var rechazo := Rechazo(c.transacciones, ctx, SumaPartes(partes));
    if rechazo.Some? then Failure(rechazo.value)
    else
      var antes := PendienteAntes(c.transacciones, ctx);
      Success(Cobrado(TrasTramos(c.(cuentas := Proyectar(c.cuentas, ctx)), ctx,
                                 Pagado(c.transacciones, ctx.cuenta) == 0, antes, partes),
                      PendienteTras(antes, partes)))
  }

  /** registrarPago called once per part, stopping at the first refusal. */
  function UnoAUno(c: Caja, ctx: Contexto, partes: seq<Parte>): Result<Caja, Motivo>
    decreases |partes|
  {
    if |partes| == 0 then Success(c)
    else
      match UnoAUno(c, ctx, partes[..|partes| - 1])
      case Failure(e) => Failure(e)
      case Success(previa) =>
        match PagoTx(previa, ctx, partes[|partes| - 1])
        case Failure(e) => Failure(e)
        case Success(r) => Success(r.caja)
  }

  ghost predicate PartesPositivas(partes: seq<Parte>)
  {
    forall i :: 0 <= i < |partes| ==> partes[i].monto > 0
  }

  /** The discount check compares only extremes, yet it accepts exactly the uniform histories. */
  lemma DescuentoAceptadoSiiUniforme(txs: seq<Transaccion>, c: CuentaId, descuento: int)
    ensures ValidarDescuento(MinDescuento(txs, c), MaxDescuento(txs, c), descuento).None?
            <==> TodosConDescuento(txs, c, descuento)
  {
    ExtremosAcotan(txs, c);
    if TienePagos(txs, c) {
      var i :| 0 <= i < |txs| && txs[i].cuenta == c;
      if TodosConDescuento(txs, c, descuento) {
        ExtremosAlcanzados(txs, c);
      }
    } else {
      ExtremosAlcanzados(txs, c);
    }
  }

  /** The shared guards of both payments, all at once. */
  lemma RechazoSii(txs: seq<Transaccion>, ctx: Contexto)
    ensures forall suma: int :: Rechazo(txs, ctx, suma).None? <==>
              && ctx.remota.estado == ABIERTA && TodosConDescuento(txs, ctx.cuenta, ctx.descuento)
              && PendienteAntes(txs, ctx) > TOLERANCIA && suma <= PendienteAntes(txs, ctx) + TOLERANCIA
  {
    DescuentoAceptadoSiiUniforme(txs, ctx.cuenta, ctx.descuento);
  }

  /** Which refusal: the first of the four guards that does not hold. */
  lemma CadaRechazo(txs: seq<Transaccion>, ctx: Contexto, monto: int)
    ensures var r := Rechazo(txs, ctx, monto);
            var abierta, falta := ctx.remota.estado == ABIERTA, Max0(Neto(ctx) - Pagado(txs, ctx.cuenta));
            var uniforme := TodosConDescuento(txs, ctx.cuenta, ctx.descuento);
            && (r == Some(CuentaNoAbierta) <==> !abierta)
            && (r == Some(DescuentosInconsistentes) <==>
                  abierta && forall d :: !TodosConDescuento(txs, ctx.cuenta, d))
            && (r == Some(DescuentoDistinto) <==>
                  abierta && !uniforme && exists d :: TodosConDescuento(txs, ctx.cuenta, d))
            && (r == Some(YaCobrada) <==> abierta && uniforme && falta <= 1)
            && (r == Some(SuperaPendiente) <==> abierta && uniforme && falta > 1 && monto > falta + 1)
            && (r.None? <==> abierta && uniforme && falta > 1 && monto <= falta + 1)
  {
    DescuentoAceptadoSiiUniforme(txs, ctx.cuenta, ctx.descuento);
    ExtremosAcotan(txs, ctx.cuenta);
    ExtremosAlcanzados(txs, ctx.cuenta);
    var minimo, maximo := MinDescuento(txs, ctx.cuenta), MaxDescuento(txs, ctx.cuenta);
    if minimo.Some? && minimo == maximo { assert TodosConDescuento(txs, ctx.cuenta, minimo.value); }
  }

  lemma {:induction false} ExtremosAcotan(txs: seq<Transaccion>, c: CuentaId)
    ensures forall i :: 0 <= i < |txs| && txs[i].cuenta == c ==>
              && MinDescuento(txs, c).Some? && MaxDescuento(txs, c).Some?
              && MinDescuento(txs, c).value <= txs[i].descuento <= MaxDescuento(txs, c).value
  {
    if |txs| != 0 {
      ExtremosAcotan(txs[..|txs| - 1], c);
      forall i | 0 <= i < |txs| && txs[i].cuenta == c
        ensures MinDescuento(txs, c).Some? && MaxDescuento(txs, c).Some?
        ensures MinDescuento(txs, c).value <= txs[i].descuento <= MaxDescuento(txs, c).value
      {
        if i < |txs| - 1 { assert txs[..|txs| - 1][i] == txs[i]; }
      }
    }
  }

  lemma {:induction false} ExtremosAlcanzados(txs: seq<Transaccion>, c: CuentaId)
    ensures MinDescuento(txs, c).Some? ==>
              exists i :: 0 <= i < |txs| && txs[i].cuenta == c && txs[i].descuento == MinDescuento(txs, c).value
    ensures MaxDescuento(txs, c).Some? ==>
              exists i :: 0 <= i < |txs| && txs[i].cuenta == c && txs[i].descuento == MaxDescuento(txs, c).value
  {
    if |txs| != 0 {
      var n := |txs| - 1;
      ExtremosAlcanzados(txs[..n], c);
      if MinDescuento(txs, c).Some? {
        if MinDescuento(txs, c) == MinDescuento(txs[..n], c) {
          var i :| 0 <= i < n && txs[..n][i].cuenta == c && txs[..n][i].descuento == MinDescuento(txs, c).value;
          assert txs[i].cuenta == c;
        } else {
          assert txs[n].cuenta == c;
        }
      }
      if MaxDescuento(txs, c).Some? {
        if MaxDescuento(txs, c) == MaxDescuento(txs[..n], c) {
          var i :| 0 <= i < n && txs[..n][i].cuenta == c && txs[..n][i].descuento == MaxDescuento(txs, c).value;
          assert txs[i].cuenta == c;
        } else {
          assert txs[n].cuenta == c;
        }
      }
    }
  }

  /** The clamped loop ends where one subtraction of the whole sum would. */
  lemma {:induction false} BucleAcotado(pendiente: nat, partes: seq<Parte>)
    requires PartesPositivas(partes)
    ensures PendienteTras(pendiente, partes) == Max0(pendiente - SumaPartes(partes))
    ensures SumaPartes(partes) >= 0
  {
    if |partes| != 0 {
      BucleAcotado(pendiente, partes[..|partes| - 1]);
    }
  }

  /** The loop appends one Transaccion per part, all of this account. */
  lemma {:induction false} TramosAgregan(c: Caja, ctx: Contexto, primera: bool, pendiente: nat, partes: seq<Parte>)
    ensures var txs := TrasTramos(c, ctx, primera, pendiente, partes).transacciones;
            && |txs| == |c.transacciones| + |partes|
            && txs[..|c.transacciones|] == c.transacciones
            && forall i :: |c.transacciones| <= i < |txs| ==>
                 && txs[i].cuenta == ctx.cuenta
                 && txs[i].descuento == ctx.descuento
                 && txs[i].turno == ctx.turno
                 && txs[i].creada == ctx.ahora
                 && txs[i].monto == partes[i - |c.transacciones|].monto
                 && txs[i].metodo == partes[i - |c.transacciones|].metodo
  {
    if |partes| != 0 {
      var n := |partes| - 1;
      TramosAgregan(c, ctx, primera, pendiente, partes[..n]);
      var previas := TrasTramos(c, ctx, primera, pendiente, partes[..n]).transacciones;
      var txs := TrasTramos(c, ctx, primera, pendiente, partes).transacciones;
      forall i | |c.transacciones| <= i < |txs|
        ensures txs[i].cuenta == ctx.cuenta
        ensures txs[i].descuento == ctx.descuento && txs[i].turno == ctx.turno && txs[i].creada == ctx.ahora
        ensures txs[i].monto == partes[i - |c.transacciones|].monto
        ensures txs[i].metodo == partes[i - |c.transacciones|].metodo
      {
        if i < |previas| { assert txs[i] == previas[i]; }
      }
    }
  }

  /** A payment with this Transaccion as its k-th: the row, its VENTA movement and its event, each in place
      k after the rows there were. */
  ghost predicate Anotada(antes: Caja, ahora: Caja, k: nat, t: Transaccion, descuentoMov: int, propina: int,
                          pendiente: int)
  {
    var id := |antes.transacciones| + k;
    && id < |ahora.transacciones| && ahora.transacciones[id] == t
    && |antes.movimientos| + k < |ahora.movimientos|
    && ahora.movimientos[|antes.movimientos| + k]
       == Movimiento(t.turno, VENTA, Some(t.cuenta), Some(id), t.metodo, t.monto, descuentoMov, propina, t.notas)
    && |antes.outbox| + k < |ahora.outbox|
    && ahora.outbox[|antes.outbox| + k] == PagoRegistrado(id, t.cuenta, t.monto, t.metodo, pendiente)
  }

  /** Three tables took n rows each and kept the earlier ones; shifts and queue stay. */
  ghost predicate Agrega(antes: Caja, ahora: Caja, n: nat)
  {
    && |ahora.transacciones| == |antes.transacciones| + n && antes.transacciones <= ahora.transacciones
    && |ahora.movimientos| == |antes.movimientos| + n && antes.movimientos <= ahora.movimientos
    && |ahora.outbox| == |antes.outbox| + n && antes.outbox <= ahora.outbox
    && ahora.turnos == antes.turnos && ahora.pendientes == antes.pendientes
  }

  lemma {:induction false} TramosCrecen(c: Caja, ctx: Contexto, primera: bool, pendiente: nat, partes: seq<Parte>)
    ensures Agrega(c, TrasTramos(c, ctx, primera, pendiente, partes), |partes|)
  {
    if |partes| != 0 { TramosCrecen(c, ctx, primera, pendiente, partes[..|partes| - 1]); }
  }

  /** Part i in its place: its own amount, method, tip and note, the discount shown on the first row of a
      first payment only, and the balance the parts up to it leave. */
  lemma {:induction false} TramoEnSuSitio(c: Caja, ctx: Contexto, primera: bool, pendiente: nat, partes: seq<Parte>,
                                          i: nat)
    requires i < |partes|
    ensures Anotada(c, TrasTramos(c, ctx, primera, pendiente, partes), i,
                    Transaccion(ctx.cuenta, ctx.remota.sede, ctx.turno, partes[i].monto, ctx.descuento,
                                partes[i].metodo, partes[i].nota, ctx.ahora),
                    if primera && i == 0 then ctx.descuento else 0, partes[i].propina,
                    PendienteTras(pendiente, partes[..i + 1]))
    decreases |partes|
  {
    var n := |partes| - 1;
    TramosCrecen(c, ctx, primera, pendiente, partes[..n]);
    if i < n {
      TramoEnSuSitio(c, ctx, primera, pendiente, partes[..n], i);
      assert partes[..n][..i + 1] == partes[..i + 1];
    } else {
      assert partes[..i + 1] == partes;
    }
  }

  /** The account's payments grow by the sum of the parts; shifts, projection and queue stay. */
  lemma {:induction false} TramosSuman(c: Caja, ctx: Contexto, primera: bool, pendiente: nat, partes: seq<Parte>)
    ensures var r := TrasTramos(c, ctx, primera, pendiente, partes);
            && Pagado(r.transacciones, ctx.cuenta) == Pagado(c.transacciones, ctx.cuenta) + SumaPartes(partes)
            && r.cuentas == c.cuentas && r.turnos == c.turnos && r.pendientes == c.pendientes
  {
    if |partes| != 0 {
      TramosSuman(c, ctx, primera, pendiente, partes[..|partes| - 1]);
      var previas := TrasTramos(c, ctx, primera, pendiente, partes[..|partes| - 1]).transacciones;
      var txs := TrasTramos(c, ctx, primera, pendiente, partes).transacciones;
      PagadoAgrega(previas, txs[|previas|], ctx.cuenta);
    }
  }

  lemma DescuentoTrasTramos(c: Caja, ctx: Contexto, primera: bool, pendiente: nat, partes: seq<Parte>)
    requires TodosConDescuento(c.transacciones, ctx.cuenta, ctx.descuento)
    ensures TodosConDescuento(TrasTramos(c, ctx, primera, pendiente, partes).transacciones, ctx.cuenta, ctx.descuento)
  {
    TramosAgregan(c, ctx, primera, pendiente, partes);
    var r := TrasTramos(c, ctx, primera, pendiente, partes).transacciones;
    forall i | 0 <= i < |r| && r[i].cuenta == ctx.cuenta
      ensures r[i].descuento == ctx.descuento
    {
      if i < |c.transacciones| { assert r[i] == c.transacciones[i]; }
    }
  }

  /** Once some parts are booked, registrarPago finds the balance the loop carries. */
  lemma PendienteTrasTramos(c: Caja, ctx: Contexto, primera: bool, partes: seq<Parte>)
    requires PartesPositivas(partes)
    ensures var antes := PendienteAntes(c.transacciones, ctx);
            var previas := TrasTramos(c, ctx, primera, antes, partes).transacciones;
            && PendienteAntes(previas, ctx) == PendienteTras(antes, partes) == Max0(antes - SumaPartes(partes))
            && Pagado(previas, ctx.cuenta) == Pagado(c.transacciones, ctx.cuenta) + SumaPartes(partes)
  {
    var antes := PendienteAntes(c.transacciones, ctx);
    TramosSuman(c, ctx, primera, antes, partes);
    BucleAcotado(antes, partes);
  }

  /** The refusals of registrarPago after some parts are booked. */
  lemma RechazoTrasTramos(c: Caja, ctx: Contexto, primera: bool, partes: seq<Parte>, monto: int)
    requires PartesPositivas(partes) && monto > 0
    requires ctx.remota.estado == ABIERTA && TodosConDescuento(c.transacciones, ctx.cuenta, ctx.descuento)
    ensures var antes := PendienteAntes(c.transacciones, ctx);
            Rechazo(TrasTramos(c, ctx, primera, antes, partes).transacciones, ctx, monto).None?
            <==> && antes - SumaPartes(partes) > TOLERANCIA
                 && SumaPartes(partes) + monto <= antes + TOLERANCIA
  {
    var antes := PendienteAntes(c.transacciones, ctx);
    PendienteTrasTramos(c, ctx, primera, partes);
    DescuentoTrasTramos(c, ctx, primera, antes, partes);
    DescuentoAceptadoSiiUniforme(TrasTramos(c, ctx, primera, antes, partes).transacciones, ctx.cuenta, ctx.descuento);
  }

  /** The next registrarPago is accepted exactly when the loop could go on, and books what it would. */
  lemma PasoUnoAUno(c: Caja, ctx: Contexto, partes: seq<Parte>, p: Parte)
    requires MontosPositivos(c.transacciones) && PartesPositivas(partes) && p.monto > 0
    requires c.cuentas == Proyectar(c.cuentas, ctx)
    requires ctx.remota.estado == ABIERTA && TodosConDescuento(c.transacciones, ctx.cuenta, ctx.descuento)
    ensures var antes, primera := PendienteAntes(c.transacciones, ctx), Pagado(c.transacciones, ctx.cuenta) == 0;
            var r := PagoTx(TrasTramos(c, ctx, primera, antes, partes), ctx, p);
            && (r.Success? <==> && antes - SumaPartes(partes) > TOLERANCIA
                                && SumaPartes(partes) + p.monto <= antes + TOLERANCIA)
            && (r.Success? ==> r.value.caja == TrasTramos(c, ctx, primera, antes, partes + [p]))
  {
    var antes, primera := PendienteAntes(c.transacciones, ctx), Pagado(c.transacciones, ctx.cuenta) == 0;
    var previa := TrasTramos(c, ctx, primera, antes, partes);
    RechazoTrasTramos(c, ctx, primera, partes, p.monto);
    assert (partes + [p])[..|partes|] == partes;
    assert previa.cuentas == Proyectar(previa.cuentas, ctx) by { TramosSuman(c, ctx, primera, antes, partes); }
    assert Max0(PendienteAntes(previa.transacciones, ctx) - p.monto) == PendienteTras(antes, partes + [p]) by {
      PendienteTrasTramos(c, ctx, primera, partes);
    }
    assert Pagado(previa.transacciones, ctx.cuenta) == 0 <==> primera && |partes| == 0 by {
      PendienteTrasTramos(c, ctx, primera, partes);
      SinPagosNadaPagado(c.transacciones, ctx.cuenta);
      if |partes| > 0 { SumaPositiva(partes); }
    }
  }

  lemma {:induction false} SumaPositiva(partes: seq<Parte>)
    requires |partes| > 0 && PartesPositivas(partes)
    ensures SumaPartes(partes) > 0
  {
    if |partes| > 1 {
      SumaPositiva(partes[..|partes| - 1]);
    }
  }

  lemma ProyectarAntesNoCambia(c: Caja, ctx: Contexto, p: Parte)
    ensures PagoTx(c.(cuentas := Proyectar(c.cuentas, ctx)), ctx, p) == PagoTx(c, ctx, p)
  {
    assert Proyectar(Proyectar(c.cuentas, ctx), ctx) == Proyectar(c.cuentas, ctx);
  }

  /** The next registrarPago from the tables as they were, when it is the first, or as the loop left them. */
  lemma PrimeraOSiguiente(c: Caja, ctx: Contexto, partes: seq<Parte>, p: Parte)
    requires MontosPositivos(c.transacciones) && PartesPositivas(partes) && p.monto > 0
    requires ctx.remota.estado == ABIERTA && TodosConDescuento(c.transacciones, ctx.cuenta, ctx.descuento)
    ensures var antes, primera := PendienteAntes(c.transacciones, ctx), Pagado(c.transacciones, ctx.cuenta) == 0;
            var base := c.(cuentas := Proyectar(c.cuentas, ctx));
            var r := PagoTx(if |partes| == 0 then c else TrasTramos(base, ctx, primera, antes, partes), ctx, p);
            && (r.Success? <==> && antes - SumaPartes(partes) > TOLERANCIA
                                && SumaPartes(partes) + p.monto <= antes + TOLERANCIA)
            && (r.Success? ==> r.value.caja == TrasTramos(base, ctx, primera, antes, partes + [p]))
  {
    ProyectarAntesNoCambia(c, ctx, p);
    PasoUnoAUno(c.(cuentas := Proyectar(c.cuentas, ctx)), ctx, partes, p);
  }

  /**
   A combined payment against its parts paid one by one with the same snapshot, clock and notes:
   one by one succeeds exactly when the combined payment is accepted and, before the last part,
   more than the tolerance was still owed; and then both leave the very same tables.
   */
  lemma {:induction false} CombinadoFrenteAUnoAUno(c: Caja, ctx: Contexto, partes: seq<Parte>)
    requires MontosPositivos(c.transacciones)
    requires |partes| > 0 && PartesPositivas(partes)
    ensures var uno := UnoAUno(c, ctx, partes);
            var todos := CombinadoTx(c, ctx, partes);
            var faltaba := PendienteAntes(c.transacciones, ctx) - SumaPartes(partes[..|partes| - 1]);
            && (uno.Success? <==> todos.Success? && faltaba > TOLERANCIA)
            && (uno.Success? ==> uno.value == todos.value.caja)
  {
    var n := |partes| - 1;
    var antes, resto := PendienteAntes(c.transacciones, ctx), partes[..n];
    assert partes == resto + [partes[n]];
    assert SumaPartes(resto) >= 0 by { BucleAcotado(antes, resto); }
    if n > 0 {
      CombinadoFrenteAUnoAUno(c, ctx, resto);
      assert SumaPartes(resto[..n - 1]) <= SumaPartes(resto);
    }
    assert n == 0 ==> UnoAUno(c, ctx, resto) == Success(c);
    RechazoSii(c.transacciones, ctx);
    if ctx.remota.estado == ABIERTA && TodosConDescuento(c.transacciones, ctx.cuenta, ctx.descuento) {
      PrimeraOSiguiente(c, ctx, resto, partes[n]);
    }
  }

  /** [9.99, 0.01] on 10.00: accepted together, while one by one the second part is refused. */
  lemma CombinadoAceptaLoQueUnoAUnoRechaza()
    ensures var ctx := Contexto("a", 0, CuentaRemota("s", 1000, ABIERTA), 0, 0);
            var partes := [Parte(999, EFECTIVO, 0, Libre(None)), Parte(1, YAPE, 0, Libre(None))];
            CombinadoTx(CAJA_VACIA, ctx, partes).Success? && UnoAUno(CAJA_VACIA, ctx, partes) == Failure(YaCobrada)
  {
    var ctx := Contexto("a", 0, CuentaRemota("s", 1000, ABIERTA), 0, 0);
    var a, b := Parte(999, EFECTIVO, 0, Libre(None)), Parte(1, YAPE, 0, Libre(None));
    assert [a, b][..1] == [a] && [a][..0] == [];
    assert SumaPartes([a, b]) == SumaPartes([a]) + 1 && SumaPartes([a]) == 999;
    DescuentoAceptadoSiiUniforme([], "a", 0);
    assert UnoAUno(CAJA_VACIA, ctx, []) == Success(CAJA_VACIA);
    var uno := UnoAUno(CAJA_VACIA, ctx, [a]);
    assert uno == Success(PagoTx(CAJA_VACIA, ctx, a).value.caja);
    PagadoAgrega([], uno.value.transacciones[0], "a");
    DescuentoAceptadoSiiUniforme(uno.value.transacciones, "a", 0);
  }
}
