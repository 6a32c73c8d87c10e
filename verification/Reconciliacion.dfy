/** Whole ticks of the repair cron with no one else running: what they close, and how many it takes. */
module Reconciliacion {
  import opened Comun
  import opened Tablas
  import opened Proyeccion

  /** The accounts a tick sends to the remote close, in order. */
  function ListaDelTick(c: Caja, corte: int, orden: seq<CuentaId>): seq<CuentaId>
  {
    Primeras(Filtrar(orden, c.cuentas, AgregarTodas(c.transacciones, Candidatas(c.transacciones, corte)), corte),
             LIMITE_POR_TICK)
  }

  /** The projection after trying each close; `responde` tells which remote closes work. */
  function TrasCerrar(cuentas: map<CuentaId, Cuenta>, ids: seq<CuentaId>, responde: set<CuentaId>)
    : map<CuentaId, Cuenta>
  {
    if |ids| == 0 then cuentas
    else
      var antes := TrasCerrar(cuentas, ids[..|ids| - 1], responde);
      var c := ids[|ids| - 1];
      if c in responde then MarcarReconciliada(antes, c) else antes
  }

  function Tick(c: Caja, corte: int, orden: seq<CuentaId>, responde: set<CuentaId>): Caja
  {
    c.(cuentas := TrasCerrar(c.cuentas, ListaDelTick(c, corte, orden), responde))
  }

  /** The accounts in the cron's window that are open, paid in full and quiet since before `corte`. */
  ghost function PorCerrar(c: Caja, corte: int): set<CuentaId>
  {
    set x | x in c.cuentas
      && Elegible(c.cuentas, AgregarTodas(c.transacciones, Candidatas(c.transacciones, corte)), corte, x)
  }

  ghost predicate SinRepetidas(ids: seq<CuentaId>)
  {
    forall i, j :: 0 <= i < j < |ids| ==> ids[i] != ids[j]
  }

  ghost function Conjunto(ids: seq<CuentaId>): set<CuentaId>
  {
    set x | x in ids
  }

  /** Some order in which the database may return every row once. */
  ghost predicate EsConsulta(orden: seq<CuentaId>, cuentas: map<CuentaId, Cuenta>)
  {
    SinRepetidas(orden) && Conjunto(orden) == cuentas.Keys
  }

  lemma {:induction false} SinRepetidasCuenta(ids: seq<CuentaId>)
    requires SinRepetidas(ids)
    ensures |Conjunto(ids)| == |ids|
  {
    if |ids| != 0 {
      var n := |ids| - 1;
      SinRepetidasCuenta(ids[..n]);
      assert ids[n] !in Conjunto(ids[..n]);
      assert Conjunto(ids) == Conjunto(ids[..n]) + {ids[n]} by {
        forall x | x in Conjunto(ids) ensures x in Conjunto(ids[..n]) + {ids[n]} {
          var i :| 0 <= i < |ids| && ids[i] == x;
          if i < n { assert ids[..n][i] == x; }
        }
      }
    }
  }

  lemma {:induction false} FiltrarNoRepite(orden: seq<CuentaId>, cuentas: map<CuentaId, Cuenta>,
                                          agregados: map<CuentaId, Agregado>, corte: int)
    requires SinRepetidas(orden)
    ensures SinRepetidas(Filtrar(orden, cuentas, agregados, corte))
  {
    if |orden| != 0 {
      FiltrarNoRepite(orden[1..], cuentas, agregados, corte);
      var resto := Filtrar(orden[1..], cuentas, agregados, corte);
      forall i | 0 <= i < |resto| ensures resto[i] != orden[0] {
        FiltradasSonElegibles(orden[1..], cuentas, agregados, corte, resto[i]);
      }
    }
  }

  lemma {:induction false} CerrarSoloCierra(cuentas: map<CuentaId, Cuenta>, ids: seq<CuentaId>, responde: set<CuentaId>)
    ensures var r := TrasCerrar(cuentas, ids, responde);
            && r.Keys == cuentas.Keys
            && forall x :: x in cuentas ==>
                 r[x] == if x in ids && x in responde then cuentas[x].(estado := CERRADA) else cuentas[x]
  {
    if |ids| != 0 {
      var n := |ids| - 1;
      CerrarSoloCierra(cuentas, ids[..n], responde);
      forall x | x in ids ensures x in ids[..n] || x == ids[n] {
        var i :| 0 <= i < |ids| && ids[i] == x;
        if i < n { assert ids[..n][i] == x; }
      }
    }
  }

  /** One tick: it tries min(20, k) of the k accounts to repair, none twice, and exactly those whose
      remote close works stop needing repair. */
  lemma UnTick(c: Caja, corte: int, orden: seq<CuentaId>, responde: set<CuentaId>)
    requires EsConsulta(orden, c.cuentas)
    ensures var lista := ListaDelTick(c, corte, orden);
            && SinRepetidas(lista)
            && Conjunto(lista) <= PorCerrar(c, corte)
            && |lista| == Menor(20, |PorCerrar(c, corte)|)
            && PorCerrar(Tick(c, corte, orden, responde), corte) == PorCerrar(c, corte) - (Conjunto(lista) * responde)
  {
    var agregados := AgregarTodas(c.transacciones, Candidatas(c.transacciones, corte));
    var filtradas, lista := Filtrar(orden, c.cuentas, agregados, corte), ListaDelTick(c, corte, orden);
    FiltrarNoRepite(orden, c.cuentas, agregados, corte);
    forall x ensures x in filtradas <==> x in PorCerrar(c, corte) {
      FiltradasSonElegibles(orden, c.cuentas, agregados, corte, x);
      assert x in Conjunto(orden) <==> x in c.cuentas;
    }
    assert Conjunto(filtradas) == PorCerrar(c, corte);
    SinRepetidasCuenta(filtradas);
    CerrarSoloCierra(c.cuentas, lista, responde);
    var r := Tick(c, corte, orden, responde);
    forall x ensures x in PorCerrar(r, corte) <==> x in PorCerrar(c, corte) - (Conjunto(lista) * responde) {}
  }

  /* ---- several ticks ---- */

  datatype Disparo = Disparo(corte: int, orden: seq<CuentaId>)

  function Ticks(c: Caja, disparos: seq<Disparo>, responde: set<CuentaId>): Caja
  {
    if |disparos| == 0 then c
    else
      var previa := Ticks(c, disparos[..|disparos| - 1], responde);
      Tick(previa, disparos[|disparos| - 1].corte, disparos[|disparos| - 1].orden, responde)
  }

  /** Every account handed to the remote close over the ticks. */
  function Llamadas(c: Caja, disparos: seq<Disparo>, responde: set<CuentaId>): seq<CuentaId>
  {
    if |disparos| == 0 then []
    else
      var n := |disparos| - 1;
      Llamadas(c, disparos[..n], responde)
      + ListaDelTick(Ticks(c, disparos[..n], responde), disparos[n].corte, disparos[n].orden)
  }

  ghost predicate TodasViejas(txs: seq<Transaccion>, corte: int)
  {
    forall i :: 0 <= i < |txs| ==> txs[i].creada < corte
  }

  /** Each tick reads every row once, at a cutoff all payments are older than. */
  ghost predicate DisparosValidos(c: Caja, disparos: seq<Disparo>)
  {
    && (forall k :: 0 <= k < |disparos| ==> EsConsulta(disparos[k].orden, c.cuentas))
    && (forall k :: 0 <= k < |disparos| ==> TodasViejas(c.transacciones, disparos[k].corte))
  }

  lemma {:induction false} CorteIndistinto(txs: seq<Transaccion>, corte: int, otro: int)
    requires TodasViejas(txs, corte) && TodasViejas(txs, otro)
    ensures Distintas(txs, corte) == Distintas(txs, otro)
  {
    if |txs| != 0 {
      CorteIndistinto(txs[..|txs| - 1], corte, otro);
    }
  }

  lemma {:induction false} UltimoPagoAcotado(txs: seq<Transaccion>, c: CuentaId, corte: int)
    requires TodasViejas(txs, corte)
    ensures UltimoPago(txs, c).Some? ==> UltimoPago(txs, c).value < corte
  {
    if |txs| != 0 {
      UltimoPagoAcotado(txs[..|txs| - 1], c, corte);
    }
  }

  lemma {:induction false} UltimoPagoExiste(txs: seq<Transaccion>, c: CuentaId)
    requires TienePagos(txs, c)
    ensures UltimoPago(txs, c).Some?
  {
    if txs[|txs| - 1].cuenta != c {
      var i :| 0 <= i < |txs| && txs[i].cuenta == c;
      assert txs[..|txs| - 1][i].cuenta == c;
      UltimoPagoExiste(txs[..|txs| - 1], c);
    }
  }

  /** Once all payments are old, the cutoff no longer matters. */
  lemma MismasPorCerrar(c: Caja, corte: int, otro: int)
    requires TodasViejas(c.transacciones, corte) && TodasViejas(c.transacciones, otro)
    ensures PorCerrar(c, corte) == PorCerrar(c, otro)
  {
    CorteIndistinto(c.transacciones, corte, otro);
    CandidatasTienenPagos(c.transacciones, corte);
    forall x | x in Candidatas(c.transacciones, corte)
      ensures Agregar(c.transacciones, x).ultimo < corte && Agregar(c.transacciones, x).ultimo < otro
    {
      UltimoPagoExiste(c.transacciones, x);
      UltimoPagoAcotado(c.transacciones, x, corte);
      UltimoPagoAcotado(c.transacciones, x, otro);
    }
  }

  lemma JuntarSinRepetir(a: seq<CuentaId>, b: seq<CuentaId>)
    requires SinRepetidas(a) && SinRepetidas(b) && Conjunto(a) !! Conjunto(b)
    ensures SinRepetidas(a + b) && Conjunto(a + b) == Conjunto(a) + Conjunto(b)
  {
    forall i, j | 0 <= i < j < |a + b| ensures (a + b)[i] != (a + b)[j] {
      if i < |a| <= j { assert a[i] in Conjunto(a) && b[j - |a|] in Conjunto(b); }
    }
  }

  lemma QuitarSubconjunto(k: set<CuentaId>, lista: set<CuentaId>)
    requires lista <= k
    ensures |k - lista| == |k| - |lista|
  {
    assert (k - lista) + lista == k;
  }

  /** A tick seen at another cutoff that all payments are older than. */
  lemma TickVistoDesde(c: Caja, corte: int, d: Disparo, responde: set<CuentaId>)
    requires EsConsulta(d.orden, c.cuentas)
    requires TodasViejas(c.transacciones, corte) && TodasViejas(c.transacciones, d.corte)
    ensures var lista := ListaDelTick(c, d.corte, d.orden);
            && SinRepetidas(lista)
            && Conjunto(lista) <= PorCerrar(c, corte)
            && |lista| == Menor(20, |PorCerrar(c, corte)|)
            && PorCerrar(Tick(c, d.corte, d.orden, responde), corte)
               == PorCerrar(c, corte) - (Conjunto(lista) * responde)
  {
    UnTick(c, d.corte, d.orden, responde);
    MismasPorCerrar(c, corte, d.corte);
    MismasPorCerrar(Tick(c, d.corte, d.orden, responde), corte, d.corte);
  }

  /** One tick with the remote up. */
  lemma TickConTodoArriba(c: Caja, corte: int, d: Disparo, responde: set<CuentaId>)
    requires EsConsulta(d.orden, c.cuentas) && c.cuentas.Keys <= responde
    requires TodasViejas(c.transacciones, corte) && TodasViejas(c.transacciones, d.corte)
    ensures var lista := ListaDelTick(c, d.corte, d.orden);
            var r := Tick(c, d.corte, d.orden, responde);
            && SinRepetidas(lista)
            && Conjunto(lista) <= PorCerrar(c, corte)
            && PorCerrar(r, corte) == PorCerrar(c, corte) - Conjunto(lista)
            && |PorCerrar(r, corte)| == Max0(|PorCerrar(c, corte)| - 20)
  {
    var lista := ListaDelTick(c, d.corte, d.orden);
    TickVistoDesde(c, corte, d, responde);
    assert PorCerrar(c, corte) <= c.cuentas.Keys;
    assert Conjunto(lista) * responde == Conjunto(lista);
    SinRepetidasCuenta(lista);
    QuitarSubconjunto(PorCerrar(c, corte), Conjunto(lista));
  }

  lemma SumarTick(k0: set<CuentaId>, k1: set<CuentaId>, k2: set<CuentaId>, antes: seq<CuentaId>, lista: seq<CuentaId>,
                  n: nat)
    requires SinRepetidas(antes) && Conjunto(antes) <= k0 && k1 == k0 - Conjunto(antes)
    requires SinRepetidas(lista) && Conjunto(lista) <= k1 && k2 == k1 - Conjunto(lista)
    requires |k1| == Max0(|k0| - 20 * n) && |k2| == Max0(|k1| - 20)
    ensures SinRepetidas(antes + lista) && Conjunto(antes + lista) <= k0 && k2 == k0 - Conjunto(antes + lista)
    ensures |k2| == Max0(|k0| - 20 * (n + 1))
  {
    JuntarSinRepetir(antes, lista);
  }

  lemma DisparosAnteriores(c: Caja, disparos: seq<Disparo>)
    requires DisparosValidos(c, disparos) && |disparos| > 0
    ensures DisparosValidos(c, disparos[..|disparos| - 1])
    ensures EsConsulta(disparos[|disparos| - 1].orden, c.cuentas)
    ensures TodasViejas(c.transacciones, disparos[|disparos| - 1].corte)
  {
  }

  /**
   With the remote up and no new payments, n ticks repair min(20 n, k) of the k accounts: after
   ceil(k / 20) none is left, and none was ever sent to the remote close twice.
   */
  lemma {:induction false} TicksVacianLaVentana(c: Caja, disparos: seq<Disparo>, responde: set<CuentaId>, corte: int)
    requires DisparosValidos(c, disparos) && c.cuentas.Keys <= responde
    requires TodasViejas(c.transacciones, corte)
    ensures var r, llamadas := Ticks(c, disparos, responde), Llamadas(c, disparos, responde);
            && SinRepetidas(llamadas)
            && Conjunto(llamadas) <= PorCerrar(c, corte)
            && PorCerrar(r, corte) == PorCerrar(c, corte) - Conjunto(llamadas)
            && |PorCerrar(r, corte)| == Max0(|PorCerrar(c, corte)| - 20 * |disparos|)
    decreases |disparos|
  {
    if |disparos| == 0 {
      assert Conjunto([]) == {};
    } else {
      var n := |disparos| - 1;
      var d, anteriores := disparos[n], disparos[..n];
      var previa, r := Ticks(c, anteriores, responde), Ticks(c, disparos, responde);
      DisparosAnteriores(c, disparos);
      TicksVacianLaVentana(c, anteriores, responde, corte);
      TicksSoloCierran(c, anteriores, responde);
      assert r == Tick(previa, d.corte, d.orden, responde);
      TickConTodoArriba(previa, corte, d, responde);
      SumarTick(PorCerrar(c, corte), PorCerrar(previa, corte), PorCerrar(r, corte),
                Llamadas(c, anteriores, responde), ListaDelTick(previa, d.corte, d.orden), n);
    }
  }

  lemma {:induction false} UltimoPagoDeCuenta(txs: seq<Transaccion>, c: CuentaId, corte: int)
    requires forall i :: 0 <= i < |txs| && txs[i].cuenta == c ==> txs[i].creada < corte
    ensures UltimoPago(txs, c).Some? ==> UltimoPago(txs, c).value < corte
  {
    if |txs| != 0 {
      UltimoPagoDeCuenta(txs[..|txs| - 1], c, corte);
    }
  }

  /** What the ticks did to the rows: those sent to a remote close that works are CERRADA, the rest keep. */
  lemma {:induction false} TicksSoloCierran(c: Caja, disparos: seq<Disparo>, responde: set<CuentaId>)
    ensures var r := Ticks(c, disparos, responde);
            && r.transacciones == c.transacciones && r.cuentas.Keys == c.cuentas.Keys
            && forall x :: x in c.cuentas ==>
                 r.cuentas[x] == if x in Llamadas(c, disparos, responde) && x in responde
                                 then c.cuentas[x].(estado := CERRADA) else c.cuentas[x]
  {
    if |disparos| != 0 {
      var n := |disparos| - 1;
      TicksSoloCierran(c, disparos[..n], responde);
      var previa := Ticks(c, disparos[..n], responde);
      CerrarSoloCierra(previa.cuentas, ListaDelTick(previa, disparos[n].corte, disparos[n].orden), responde);
    }
  }
}
