/** Which accounts the candidate query of the repair cron reaches: exactly, and for how long. */
module Ventanas {
  import opened Tablas
  import opened Saldos
  import opened Proyeccion
  import opened Reconciliacion

  /** Payment j is old and comes after every old payment of c. */
  ghost predicate DespuesDe(txs: seq<Transaccion>, corte: int, c: CuentaId, j: int)
    requires 0 <= j < |txs|
  {
    && txs[j].creada < corte
    && forall i :: j <= i < |txs| && txs[i].cuenta == c ==> txs[i].creada >= corte
  }

  /** The accounts that had an old payment after the last old one of c. */
  ghost function Posteriores(txs: seq<Transaccion>, corte: int, c: CuentaId): set<CuentaId>
  {
    set j | 0 <= j < |txs| && DespuesDe(txs, corte, c, j) :: txs[j].cuenta
  }

  ghost predicate PagoViejo(txs: seq<Transaccion>, corte: int, c: CuentaId)
  {
    exists i :: 0 <= i < |txs| && txs[i].cuenta == c && txs[i].creada < corte
  }

  ghost predicate TodosViejos(txs: seq<Transaccion>, corte: int, c: CuentaId)
  {
    forall i :: 0 <= i < |txs| && txs[i].cuenta == c ==> txs[i].creada < corte
  }

  lemma PosterioresUnaMas(txs: seq<Transaccion>, corte: int, c: CuentaId)
    requires |txs| > 0
    ensures var t, antes := txs[|txs| - 1], Posteriores(txs[..|txs| - 1], corte, c);
            Posteriores(txs, corte, c)
            == if t.creada >= corte then antes else if t.cuenta == c then {} else antes + {t.cuenta}
  {
    var n := |txs| - 1;
    forall j | 0 <= j < n
      ensures DespuesDe(txs, corte, c, j)
              <==> DespuesDe(txs[..n], corte, c, j) && (txs[n].cuenta == c ==> txs[n].creada >= corte)
    {
      assert forall i :: 0 <= i < n ==> txs[..n][i] == txs[i];
    }
    var r := if txs[n].creada >= corte then Posteriores(txs[..n], corte, c)
             else if txs[n].cuenta == c then {} else Posteriores(txs[..n], corte, c) + {txs[n].cuenta};
    forall x | x in Posteriores(txs, corte, c) ensures x in r {
      var j :| 0 <= j < |txs| && DespuesDe(txs, corte, c, j) && txs[j].cuenta == x;
      if j < n { assert DespuesDe(txs[..n], corte, c, j) && txs[..n][j].cuenta == x; }
    }
    forall x | x in r ensures x in Posteriores(txs, corte, c) {
      if x in Posteriores(txs[..n], corte, c) {
        var j :| 0 <= j < n && DespuesDe(txs[..n], corte, c, j) && txs[..n][j].cuenta == x;
        assert DespuesDe(txs, corte, c, j) && txs[j].cuenta == x;
      } else {
        assert DespuesDe(txs, corte, c, n);
      }
    }
  }

  /** What comes before the first c of a list. */
  function Antes(ids: seq<CuentaId>, c: CuentaId): seq<CuentaId>
  {
    if |ids| == 0 || ids[0] == c then [] else [ids[0]] + Antes(ids[1..], c)
  }

  lemma {:induction false} AntesSinOtra(ids: seq<CuentaId>, a: CuentaId, c: CuentaId)
    requires a != c
    ensures Antes(SinCuenta(ids, a), c) == SinCuenta(Antes(ids, c), a)
  {
    if |ids| != 0 {
      AntesSinOtra(ids[1..], a, c);
      assert ([ids[0]] + SinCuenta(ids[1..], a))[1..] == SinCuenta(ids[1..], a);
      assert ([ids[0]] + Antes(ids[1..], c))[1..] == Antes(ids[1..], c);
      assert [] + SinCuenta(ids[1..], a) == SinCuenta(ids[1..], a);
      assert [] + SinCuenta(Antes(ids[1..], c), a) == SinCuenta(Antes(ids[1..], c), a);
    }
  }

  lemma {:induction false} SinCuentaNoRepite(ids: seq<CuentaId>, c: CuentaId)
    requires SinRepetidas(ids)
    ensures SinRepetidas(SinCuenta(ids, c))
  {
    if |ids| != 0 {
      SinCuentaNoRepite(ids[1..], c);
      SinCuentaQuita(ids[1..], c);
      var resto := SinCuenta(ids[1..], c);
      forall i | 0 <= i < |resto| ensures resto[i] != ids[0] {
        assert resto[i] in ids[1..];
      }
    }
  }

  lemma {:induction false} DistintasNoRepiten(txs: seq<Transaccion>, corte: int)
    ensures SinRepetidas(Distintas(txs, corte))
  {
    if |txs| != 0 {
      var n := |txs| - 1;
      DistintasNoRepiten(txs[..n], corte);
      var resto := SinCuenta(Distintas(txs[..n], corte), txs[n].cuenta);
      SinCuentaNoRepite(Distintas(txs[..n], corte), txs[n].cuenta);
      SinCuentaQuita(Distintas(txs[..n], corte), txs[n].cuenta);
      forall i | 0 <= i < |resto| ensures resto[i] != txs[n].cuenta { assert resto[i] in resto; }
    }
  }

  /** The query lists before an account exactly those with an old payment after its last old one. */
  lemma {:induction false} LoQueVaAntes(txs: seq<Transaccion>, corte: int, c: CuentaId)
    ensures Conjunto(Antes(Distintas(txs, corte), c)) == Posteriores(txs, corte, c)
  {
    if |txs| != 0 {
      var n := |txs| - 1;
      var t, previas := txs[n], Distintas(txs[..n], corte);
      LoQueVaAntes(txs[..n], corte, c);
      PosterioresUnaMas(txs, corte, c);
      if t.creada < corte && t.cuenta != c {
        AntesSinOtra(previas, t.cuenta, c);
        SinCuentaQuita(Antes(previas, c), t.cuenta);
        assert ([t.cuenta] + SinCuenta(previas, t.cuenta))[1..] == SinCuenta(previas, t.cuenta);
        assert Antes(Distintas(txs, corte), c) == [t.cuenta] + SinCuenta(Antes(previas, c), t.cuenta);
      }
    }
  }

  lemma {:induction false} EntreLasPrimeras(ids: seq<CuentaId>, c: CuentaId, n: nat)
    ensures SinRepetidas(ids) ==> SinRepetidas(Antes(ids, c))
    ensures forall x :: x in Antes(ids, c) ==> x in ids
    ensures c in Primeras(ids, n) <==> c in ids && |Antes(ids, c)| < n
  {
    if |ids| != 0 && ids[0] != c {
      EntreLasPrimeras(ids[1..], c, if n == 0 then 0 else n - 1);
      if n > 0 && |ids| > n { assert ids[..n] == [ids[0]] + ids[1..][..n - 1]; }
      assert ids == [ids[0]] + ids[1..];
      if SinRepetidas(ids) {
        forall i | 0 <= i < |Antes(ids[1..], c)| ensures Antes(ids[1..], c)[i] != ids[0] {
          assert Antes(ids[1..], c)[i] in ids[1..];
        }
      }
    } else if |ids| != 0 && n > 0 {
      assert Primeras(ids, n)[0] == c;
    }
  }

  /** An account is a candidate exactly when it has an old payment and fewer than 100 other accounts have
      one after its last. */
  lemma EnLaVentanaSii(txs: seq<Transaccion>, corte: int, c: CuentaId)
    ensures c in Candidatas(txs, corte) <==> PagoViejo(txs, corte, c) && |Posteriores(txs, corte, c)| < 100
  {
    var ids := Distintas(txs, corte);
    DistintasTienenPagos(txs, corte, c);
    DistintasNoRepiten(txs, corte);
    EntreLasPrimeras(ids, c, VENTANA);
    SinRepetidasCuenta(Antes(ids, c));
    LoQueVaAntes(txs, corte, c);
    assert Candidatas(txs, corte) == Primeras(ids, VENTANA);
  }

  lemma {:induction false} UltimoPagoEsElMayor(txs: seq<Transaccion>, c: CuentaId)
    ensures forall i :: 0 <= i < |txs| && txs[i].cuenta == c ==>
              UltimoPago(txs, c).Some? && txs[i].creada <= UltimoPago(txs, c).value
  {
    if |txs| != 0 {
      UltimoPagoEsElMayor(txs[..|txs| - 1], c);
      forall i | 0 <= i < |txs| && txs[i].cuenta == c
        ensures UltimoPago(txs, c).Some? && txs[i].creada <= UltimoPago(txs, c).value
      {
        if i < |txs| - 1 { assert txs[..|txs| - 1][i] == txs[i]; }
      }
    }
  }

  /** An open row whose account has paid its total up to a cent. */
  ghost predicate Reparable(c: Caja, cuenta: CuentaId)
  {
    && cuenta in c.cuentas && c.cuentas[cuenta].estado == ABIERTA && TienePagos(c.transacciones, cuenta)
    && Alcanza(Pagado(c.transacciones, cuenta), c.cuentas[cuenta].total, DescuentoCobrado(c.transacciones, cuenta))
  }

  /** The accounts the cron can repair: paid up to a cent on an open row, all payments old, and displaced
      by fewer than 100 others. */
  lemma PorCerrarSii(c: Caja, corte: int, cuenta: CuentaId)
    requires UnDescuentoPorCuenta(c.transacciones)
    ensures cuenta in PorCerrar(c, corte) <==>
              && Reparable(c, cuenta) && TodosViejos(c.transacciones, corte, cuenta)
              && |Posteriores(c.transacciones, corte, cuenta)| < 100
  {
    var txs := c.transacciones;
    EnLaVentanaSii(txs, corte, cuenta);
    UltimoPagoEsElMayor(txs, cuenta);
    if TienePagos(txs, cuenta) {
      var i :| 0 <= i < |txs| && txs[i].cuenta == cuenta;
      MaximoEsElCobrado(txs, cuenta);
      UltimoPagoExiste(txs, cuenta);
      if TodosViejos(txs, corte, cuenta) {
        UltimoPagoDeCuenta(txs, cuenta, corte);
        assert txs[i].creada < corte;
      }
    }
  }

  /** Payments are never deleted, so an account pushed out of the window stays out unless it pays again,
      however far the clock moves on. */
  lemma QuienSaleNoVuelve(txs: seq<Transaccion>, otras: seq<Transaccion>, corte: int, otro: int, c: CuentaId)
    requires |txs| <= |otras| && corte <= otro
    requires forall i :: 0 <= i < |txs| ==> otras[i].cuenta == txs[i].cuenta && otras[i].creada == txs[i].creada
    requires forall i :: |txs| <= i < |otras| ==> otras[i].cuenta != c
    requires TodosViejos(txs, corte, c)
    ensures Posteriores(txs, corte, c) <= Posteriores(otras, otro, c)
    ensures |Posteriores(txs, corte, c)| >= VENTANA ==> c !in Candidatas(otras, otro)
  {
    forall x | x in Posteriores(txs, corte, c) ensures x in Posteriores(otras, otro, c) {
      var j :| 0 <= j < |txs| && DespuesDe(txs, corte, c, j) && txs[j].cuenta == x;
      assert DespuesDe(otras, otro, c, j) && otras[j].cuenta == x;
    }
    SubconjuntoNoMayor(Posteriores(txs, corte, c), Posteriores(otras, otro, c));
    EnLaVentanaSii(otras, otro, c);
  }

  lemma SubconjuntoNoMayor(a: set<CuentaId>, b: set<CuentaId>)
    requires a <= b
    ensures |a| <= |b|
  {
    assert a + (b - a) == b;
  }

  lemma VentanaConHolgura(txs: seq<Transaccion>, corte: int, c: CuentaId)
    requires |Distintas(txs, corte)| <= 100 && PagoViejo(txs, corte, c)
    ensures |Posteriores(txs, corte, c)| < 100
  {
    DistintasTienenPagos(txs, corte, c);
    EnLaVentanaSii(txs, corte, c);
  }

  /** The window misses nothing while at most 100 accounts have an old payment. */
  lemma LaVentanaAlcanza(c: Caja, corte: int, cuenta: CuentaId)
    requires |Distintas(c.transacciones, corte)| <= 100 && UnDescuentoPorCuenta(c.transacciones)
    requires TienePagos(c.transacciones, cuenta) && TodosViejos(c.transacciones, corte, cuenta)
    ensures cuenta in PorCerrar(c, corte) <==> Reparable(c, cuenta)
  {
    PorCerrarSii(c, corte, cuenta);
    var i :| 0 <= i < |c.transacciones| && c.transacciones[i].cuenta == cuenta;
    assert c.transacciones[i].creada < corte;
    VentanaConHolgura(c.transacciones, corte, cuenta);
  }

  /** An account displaced by 100 others is sent to no remote close, whatever it has paid. */
  lemma DesplazadaNadieLaCierra(c: Caja, corte: int, orden: seq<CuentaId>, cuenta: CuentaId)
    requires |Posteriores(c.transacciones, corte, cuenta)| >= 100
    ensures cuenta !in ListaDelTick(c, corte, orden)
  {
    EnLaVentanaSii(c.transacciones, corte, cuenta);
    FiltradasSonElegibles(orden, c.cuentas, AgregarTodas(c.transacciones, Candidatas(c.transacciones, corte)), corte,
                          cuenta);
  }

  /**
   With the remote up, no new payments and at most 100 accounts with payments, all of them old:
   ceil(k / 20) ticks close every open account that has paid in full, k of them, none twice, and touch
   no other row.
   */
  lemma TodasCerradasTrasLosTicks(c: Caja, disparos: seq<Disparo>, responde: set<CuentaId>, corte: int)
    requires DisparosValidos(c, disparos) && c.cuentas.Keys <= responde && TodasViejas(c.transacciones, corte)
    requires |Distintas(c.transacciones, corte)| <= 100 && UnDescuentoPorCuenta(c.transacciones)
    requires |disparos| == (|PorCerrar(c, corte)| + 19) / 20
    ensures var r, llamadas := Ticks(c, disparos, responde), Llamadas(c, disparos, responde);
            && SinRepetidas(llamadas) && |llamadas| == |PorCerrar(c, corte)|
            && (forall x :: x in llamadas <==> Reparable(c, x))
            && r.cuentas.Keys == c.cuentas.Keys
            && forall x :: x in c.cuentas ==>
                 r.cuentas[x] == if Reparable(c, x) then c.cuentas[x].(estado := CERRADA) else c.cuentas[x]
  {
    var r, llamadas := Ticks(c, disparos, responde), Llamadas(c, disparos, responde);
    TicksVacianLaVentana(c, disparos, responde, corte);
    TicksSoloCierran(c, disparos, responde);
    assert PorCerrar(r, corte) == {};
    assert Conjunto(llamadas) == PorCerrar(c, corte);
    SinRepetidasCuenta(llamadas);
    forall x ensures x in llamadas <==> Reparable(c, x) {
      assert x in llamadas <==> x in Conjunto(llamadas);
      if TienePagos(c.transacciones, x) {
        LaVentanaAlcanza(c, corte, x);
      } else {
        PorCerrarSii(c, corte, x);
      }
    }
  }
}
