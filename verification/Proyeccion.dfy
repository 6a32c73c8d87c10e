/**
 The local projection of accounts and the three queries of the repair cron, as the steps they are.
 */
module Proyeccion {
  import opened Comun
  import opened Tablas
  import opened Cobros
  import opened Saldos

  const LIMITE_POR_TICK := 20
  const VENTANA := 100
  const UMBRAL := 300000

  /** cuentaAbierta.update after the remote close of a payment. */
  function MarcarCerrada(cuentas: map<CuentaId, Cuenta>, c: CuentaId, total: int): map<CuentaId, Cuenta>
  {
    if c in cuentas then cuentas[c := cuentas[c].(estado := CERRADA, total := total)] else cuentas
  }

  /** cuentaAbierta.update of the cron: the total stays. */
  function MarcarReconciliada(cuentas: map<CuentaId, Cuenta>, c: CuentaId): map<CuentaId, Cuenta>
  {
    if c in cuentas then cuentas[c := cuentas[c].(estado := CERRADA)] else cuentas
  }

  /** handleCuentaAbierta: an upsert that keeps the total of a row it finds. */
  function AlAbrirse(cuentas: map<CuentaId, Cuenta>, c: CuentaId, sede: SedeId): map<CuentaId, Cuenta>
  {
    cuentas[c := if c in cuentas then cuentas[c].(estado := ABIERTA, sede := sede) else Cuenta(sede, 0, ABIERTA)]
  }

  /** handleCuentaCerrada: an update whose failure on a missing row is swallowed. */
  function AlCerrarse(cuentas: map<CuentaId, Cuenta>, c: CuentaId, total: int, sede: Option<SedeId>)
    : map<CuentaId, Cuenta>
  {
    if c in cuentas
    then cuentas[c := Cuenta(if sede.Some? then sede.value else cuentas[c].sede, total, CERRADA)]
    else cuentas
  }

  predicate NoAbierta(cuentas: map<CuentaId, Cuenta>, c: CuentaId)
  {
    c in cuentas && cuentas[c].estado != ABIERTA
  }

  /** Events of different accounts commute. Of the same account, the last to arrive decides whether it is
      open, and a close that comes before the row exists leaves no trace. */
  lemma LlegadasEnCualquierOrden(cuentas: map<CuentaId, Cuenta>, c: CuentaId, sede: SedeId, d: CuentaId, total: int,
                                 sedeCierre: Option<SedeId>)
    ensures var abreYCierra := AlCerrarse(AlAbrirse(cuentas, c, sede), d, total, sedeCierre);
            var cierraYAbre := AlAbrirse(AlCerrarse(cuentas, d, total, sedeCierre), c, sede);
            if c != d then abreYCierra == cierraYAbre
            else
              && abreYCierra[c] == Cuenta(sedeCierre.GetOr(sede), total, CERRADA)
              && cierraYAbre[c] == Cuenta(sede, if c in cuentas then total else 0, ABIERTA)
              && abreYCierra.Keys == cierraYAbre.Keys
  {
    if c != d {
      var uno := AlCerrarse(AlAbrirse(cuentas, c, sede), d, total, sedeCierre);
      var otro := AlAbrirse(AlCerrarse(cuentas, d, total, sedeCierre), c, sede);
      assert uno.Keys == otro.Keys;
      assert forall x :: x in uno ==> uno[x] == otro[x];
    }
  }

  /* ---- the cron's queries ---- */

  datatype Agregado = Agregado(pagado: int, descuento: int, ultimo: int)

  function SinCuenta(ids: seq<CuentaId>, c: CuentaId): seq<CuentaId>
  {
    if |ids| == 0 then []
    else (if ids[0] == c then [] else [ids[0]]) + SinCuenta(ids[1..], c)
  }

  /** The distinct accounts with a payment older than `corte`, latest payment first. */
  function Distintas(txs: seq<Transaccion>, corte: int): seq<CuentaId>
  {
    if |txs| == 0 then []
    else
      var t, resto := txs[|txs| - 1], Distintas(txs[..|txs| - 1], corte);
      if t.creada < corte then [t.cuenta] + SinCuenta(resto, t.cuenta) else resto
  }

  function Candidatas(txs: seq<Transaccion>, corte: int): seq<CuentaId>
  {
    var ids := Distintas(txs, corte);
    if |ids| <= VENTANA then ids else ids[..VENTANA]
  }

  function Agregar(txs: seq<Transaccion>, c: CuentaId): Agregado
  {
    Agregado(Pagado(txs, c), MaxDescuento(txs, c).GetOr(0), UltimoPago(txs, c).GetOr(0))
  }

  function AgregarTodas(txs: seq<Transaccion>, ids: seq<CuentaId>): (r: map<CuentaId, Agregado>)
  {
    map c | c in ids :: Agregar(txs, c)
  }

  /** The money test of the filter: paid in full up to a cent. */
  predicate Alcanza(pagado: int, total: int, descuento: int)
  {
    pagado + TOLERANCIA >= Max0(total - descuento)
  }

  /** The filter over the open rows: all payments old, and paid in full up to a cent. */
  predicate Elegible(cuentas: map<CuentaId, Cuenta>, agregados: map<CuentaId, Agregado>, corte: int, c: CuentaId)
  {
    && c in cuentas && c in agregados && cuentas[c].estado == ABIERTA
    && agregados[c].ultimo < corte
    && Alcanza(agregados[c].pagado, cuentas[c].total, agregados[c].descuento)
  }

  /** The filtered rows, in the order the database chose to return them. */
  function Filtrar(orden: seq<CuentaId>, cuentas: map<CuentaId, Cuenta>, agregados: map<CuentaId, Agregado>,
                   corte: int): seq<CuentaId>
  {
    if |orden| == 0 then []
    else
      var resto := Filtrar(orden[1..], cuentas, agregados, corte);
      if Elegible(cuentas, agregados, corte, orden[0]) then [orden[0]] + resto else resto
  }

  function Primeras(ids: seq<CuentaId>, n: nat): seq<CuentaId>
  {
    if |ids| <= n then ids else ids[..n]
  }

  lemma {:induction false} FiltradasSonElegibles(orden: seq<CuentaId>, cuentas: map<CuentaId, Cuenta>,
                                                 agregados: map<CuentaId, Agregado>, corte: int, c: CuentaId)
    ensures c in Filtrar(orden, cuentas, agregados, corte) <==> c in orden && Elegible(cuentas, agregados, corte, c)
  {
    if |orden| != 0 {
      FiltradasSonElegibles(orden[1..], cuentas, agregados, corte, c);
    }
  }

  /* ---- what the projection remembers of the payments ---- */

  /** The snapshot total of the account's latest accepted payment. */
  function UltimoTotal(txs: seq<Transaccion>, totales: seq<int>, c: CuentaId): int
    requires |txs| == |totales|
  {
    if |txs| == 0 then 0
    else if txs[|txs| - 1].cuenta == c then totales[|txs| - 1]
    else UltimoTotal(txs[..|txs| - 1], totales[..|txs| - 1], c)
  }

  /** An open row with payments holds the gross total of the last one, unless the account was reopened
      by a CuentaAbierta that came after its close. */
  ghost predicate ProyeccionFiel(c: Caja, totales: seq<int>, reabiertas: set<CuentaId>)
  {
    && |totales| == |c.transacciones|
    && (forall cuenta :: TienePagos(c.transacciones, cuenta) ==>
          && cuenta in c.cuentas
          && (c.cuentas[cuenta].estado == ABIERTA && cuenta !in reabiertas ==>
                c.cuentas[cuenta].total == UltimoTotal(c.transacciones, totales, cuenta)))
  }

  /** registrarPago's own verdict, asked with the account's last accepted total and its discount. */
  ghost predicate RegistrarPagoLaDaPorCobrada(txs: seq<Transaccion>, totales: seq<int>, c: CuentaId)
    requires |txs| == |totales|
  {
    var total, descuento := UltimoTotal(txs, totales, c), DescuentoCobrado(txs, c);
    forall sede: SedeId, turno: nat, ahora: int, monto: int ::
      Rechazo(txs, Contexto(c, descuento, CuentaRemota(sede, total, ABIERTA), turno, ahora), monto)
      == Some(YaCobrada)
  }

  lemma CobradaSiiPagadoAlcanza(txs: seq<Transaccion>, totales: seq<int>, c: CuentaId)
    requires |txs| == |totales| && UnDescuentoPorCuenta(txs) && MontosPositivos(txs) && TienePagos(txs, c)
    ensures RegistrarPagoLaDaPorCobrada(txs, totales, c)
            <==> Alcanza(Pagado(txs, c), UltimoTotal(txs, totales, c), DescuentoCobrado(txs, c))
  {
    DescuentoCobradoEsElDeTodos(txs, c);
    DescuentoAceptadoSiiUniforme(txs, c, DescuentoCobrado(txs, c));
    SinPagosNadaPagado(txs, c);
    var ctx := Contexto(c, DescuentoCobrado(txs, c), CuentaRemota("", UltimoTotal(txs, totales, c), ABIERTA), 0, 0);
    assert Rechazo(txs, ctx, 1) == Some(YaCobrada) <==> PendienteAntes(txs, ctx) <= TOLERANCIA;
  }

  /** A stale aggregate still on the safe side: less money than now, and the discount of now. */
  ghost predicate AgregadosDeAntes(txs: seq<Transaccion>, agregados: map<CuentaId, Agregado>)
  {
    forall c :: c in agregados ==>
      TienePagos(txs, c) && agregados[c].pagado <= Pagado(txs, c) && agregados[c].descuento == DescuentoCobrado(txs, c)
  }

  /** Whatever happened between the cron's two reads, an account it selects is fully paid now. */
  lemma ElegibleEstaCobrada(c: Caja, totales: seq<int>, reabiertas: set<CuentaId>,
                            agregados: map<CuentaId, Agregado>, corte: int, cuenta: CuentaId)
    requires SaldosCuadran(c, totales) && ProyeccionFiel(c, totales, reabiertas)
    requires AgregadosDeAntes(c.transacciones, agregados)
    requires Elegible(c.cuentas, agregados, corte, cuenta) && cuenta !in reabiertas
    ensures RegistrarPagoLaDaPorCobrada(c.transacciones, totales, cuenta)
    ensures agregados[cuenta].descuento == DescuentoCobrado(c.transacciones, cuenta)
  {
    CobradaSiiPagadoAlcanza(c.transacciones, totales, cuenta);
  }

  lemma {:induction false} DistintasTienenPagos(txs: seq<Transaccion>, corte: int, c: CuentaId)
    ensures c in Distintas(txs, corte) <==> exists i :: 0 <= i < |txs| && txs[i].cuenta == c && txs[i].creada < corte
  {
    if |txs| != 0 {
      var n := |txs| - 1;
      DistintasTienenPagos(txs[..n], corte, c);
      SinCuentaQuita(Distintas(txs[..n], corte), txs[n].cuenta);
      if c in Distintas(txs[..n], corte) {
        var i :| 0 <= i < n && txs[..n][i].cuenta == c && txs[..n][i].creada < corte;
        assert txs[i].cuenta == c && txs[i].creada < corte;
      } else {
        forall i | 0 <= i < n ensures !(txs[i].cuenta == c && txs[i].creada < corte) {
          assert txs[i] == txs[..n][i];
        }
      }
    }
  }

  lemma {:induction false} SinCuentaQuita(ids: seq<CuentaId>, c: CuentaId)
    ensures forall x :: x in SinCuenta(ids, c) <==> x in ids && x != c
  {
    if |ids| != 0 {
      SinCuentaQuita(ids[1..], c);
    }
  }

  lemma {:induction false} MaximoEsElCobrado(txs: seq<Transaccion>, c: CuentaId)
    requires UnDescuentoPorCuenta(txs) && TienePagos(txs, c)
    ensures MaxDescuento(txs, c) == Some(DescuentoCobrado(txs, c))
  {
    DescuentoCobradoEsElDeTodos(txs, c);
    ExtremosAcotan(txs, c);
    ExtremosAlcanzados(txs, c);
    var i :| 0 <= i < |txs| && txs[i].cuenta == c;
  }

  /** What the cron aggregates at the moment it reads. */
  lemma AgregadosAlLeer(txs: seq<Transaccion>, ids: seq<CuentaId>)
    requires UnDescuentoPorCuenta(txs) && forall c :: c in ids ==> TienePagos(txs, c)
    ensures AgregadosDeAntes(txs, AgregarTodas(txs, ids))
  {
    forall c | c in ids ensures MaxDescuento(txs, c) == Some(DescuentoCobrado(txs, c)) {
      MaximoEsElCobrado(txs, c);
    }
  }

  lemma CandidatasTienenPagos(txs: seq<Transaccion>, corte: int)
    ensures forall c :: c in Candidatas(txs, corte) ==> TienePagos(txs, c)
  {
    forall c | c in Candidatas(txs, corte) ensures TienePagos(txs, c) {
      DistintasTienenPagos(txs, corte, c);
    }
  }
}
