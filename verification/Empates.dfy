/**
 The candidate query by creation date alone. The query orders by createdAt and takes 100 accounts, so with
 equal dates the database may choose; here a window is any set it may choose, and Candidatas, which breaks
 ties by position in the table, is one of them in every reachable state.
 */
module Empates {
  import opened Comun
  import opened Tablas
  import opened Cobros
  import opened Proyeccion
  import opened Protocolo
  import opened CajasSanas
  import opened Invariante
  import opened Reconciliacion
  import opened Ventanas
  import opened TotalesFijos

  /* ---- the k first of a set by some rank, ties left open ---- */

  /** T may be the first k of D: as many as there are, and nobody left out ranks above anybody taken. */
  ghost predicate EsCima(D: set<CuentaId>, T: set<CuentaId>, k: nat, f: CuentaId -> int)
  {
    && T <= D && |T| == Menor(k, |D|)
    && forall x, y :: x in D && x !in T && y in T ==> f(x) <= f(y)
  }

  ghost function Delante(D: set<CuentaId>, c: CuentaId, f: CuentaId -> int): set<CuentaId>
  {
    set x | x in D && f(x) > f(c)
  }

  ghost function DelanteOIgual(D: set<CuentaId>, c: CuentaId, f: CuentaId -> int): set<CuentaId>
  {
    set x | x in D && x != c && f(x) >= f(c)
  }

  lemma {:induction false} ElMenor(D: set<CuentaId>, f: CuentaId -> int) returns (m: CuentaId)
    requires D != {}
    ensures m in D && forall x :: x in D ==> f(m) <= f(x)
    decreases |D|
  {
    m :| m in D;
    if D != {m} {
      var otro := ElMenor(D - {m}, f);
      if f(otro) < f(m) { m := otro; }
      forall x | x in D ensures f(m) <= f(x) { assert x == m || x in D - {m} || f(m) <= f(x); }
    }
  }

  /** Leaving out one that ranks below everybody left out nobody who matters. */
  lemma CimaSinElMenor(D: set<CuentaId>, m: CuentaId, T: set<CuentaId>, k: nat, f: CuentaId -> int)
    requires m in D && (forall x :: x in D ==> f(m) <= f(x)) && k < |D| && EsCima(D - {m}, T, k, f)
    ensures EsCima(D, T, k, f)
  {
    assert |D - {m}| == |D| - 1;
  }

  lemma {:induction false} HayCima(D: set<CuentaId>, k: nat, f: CuentaId -> int) returns (T: set<CuentaId>)
    ensures EsCima(D, T, k, f)
    decreases |D|
  {
    if |D| <= k {
      T := D;
    } else {
      var m := ElMenor(D, f);
      assert |D - {m}| == |D| - 1;
      T := HayCima(D - {m}, k, f);
      CimaSinElMenor(D, m, T, k, f);
    }
  }

  lemma {:induction false} HayCimaSin(D: set<CuentaId>, c: CuentaId, k: nat, f: CuentaId -> int)
    returns (T: set<CuentaId>)
    requires c in D && |DelanteOIgual(D, c, f)| >= k
    ensures EsCima(D, T, k, f) && c !in T
    decreases |D|
  {
    var m := ElMenor(D, f);
    assert DelanteOIgual(D, c, f) <= D - {c};
    SubconjuntoNoMayor(DelanteOIgual(D, c, f), D - {c});
    assert |D - {c}| == |D| - 1;
    if f(m) == f(c) {
      T := HayCima(D - {c}, k, f);
      CimaSinElMenor(D, c, T, k, f);
    } else {
      assert DelanteOIgual(D - {m}, c, f) == DelanteOIgual(D, c, f);
      assert |D - {m}| == |D| - 1;
      T := HayCimaSin(D - {m}, c, k, f);
      CimaSinElMenor(D, m, T, k, f);
    }
  }

  lemma {:induction false} HayCimaCon(D: set<CuentaId>, c: CuentaId, k: nat, f: CuentaId -> int)
    returns (T: set<CuentaId>)
    requires c in D && |Delante(D, c, f)| < k
    ensures EsCima(D, T, k, f) && c in T
    decreases |D|
  {
    if |D| <= k {
      T := D;
    } else {
      assert |D - {c}| == |D| - 1 >= k > 0;
      assert D - {c} != {};
      var m := ElMenor(D - {c}, f);
      assert f(m) > f(c) ==> Delante(D, c, f) == D - {c};
      assert forall x :: x in D ==> f(m) <= f(x) by {
        forall x | x in D ensures f(m) <= f(x) { assert x == c || x in D - {c}; }
      }
      assert Delante(D - {m}, c, f) == Delante(D, c, f);
      assert |D - {m}| == |D| - 1;
      T := HayCimaCon(D - {m}, c, k, f);
      CimaSinElMenor(D, m, T, k, f);
    }
  }

  /** An element is in every choice exactly when fewer than k others rank at least as high, and in none
      exactly when k others rank higher. */
  lemma SiempreYNunca(D: set<CuentaId>, c: CuentaId, k: nat, f: CuentaId -> int)
    requires c in D
    ensures (forall T :: EsCima(D, T, k, f) ==> c in T) <==> |DelanteOIgual(D, c, f)| < k
    ensures (forall T :: EsCima(D, T, k, f) ==> c !in T) <==> |Delante(D, c, f)| >= k
  {
    if |DelanteOIgual(D, c, f)| >= k {
      var T := HayCimaSin(D, c, k, f);
    } else {
      forall T | EsCima(D, T, k, f) ensures c in T { EntraSiempre(D, T, c, k, f); }
    }
    if |Delante(D, c, f)| < k {
      var T := HayCimaCon(D, c, k, f);
    } else {
      forall T | EsCima(D, T, k, f) ensures c !in T { NoEntraNunca(D, T, c, k, f); }
    }
  }

  lemma EntraSiempre(D: set<CuentaId>, T: set<CuentaId>, c: CuentaId, k: nat, f: CuentaId -> int)
    requires c in D && EsCima(D, T, k, f) && |DelanteOIgual(D, c, f)| < k
    ensures c in T
  {
    assert |D - {c}| == |D| - 1;
    if c !in T {
      SubconjuntoNoMayor(T, DelanteOIgual(D, c, f));
      SubconjuntoNoMayor(T, D - {c});
    }
  }

  lemma NoEntraNunca(D: set<CuentaId>, T: set<CuentaId>, c: CuentaId, k: nat, f: CuentaId -> int)
    requires c in D && EsCima(D, T, k, f) && |Delante(D, c, f)| >= k
    ensures c !in T
  {
    var M := Delante(D, c, f);
    assert |M + {c}| == |M| + 1;
    if c in T { SubconjuntoNoMayor(M + {c}, T); }
  }

  /* ---- the window ---- */

  /** The date of the account's latest old payment. */
  function UltimoViejo(txs: seq<Transaccion>, corte: int, c: CuentaId): Option<int>
  {
    if |txs| == 0 then None
    else
      var t, resto := txs[|txs| - 1], UltimoViejo(txs[..|txs| - 1], corte, c);
      if t.cuenta != c || t.creada >= corte then resto
      else if resto.None? || t.creada > resto.value then Some(t.creada)
      else resto
  }

  function FechaVieja(txs: seq<Transaccion>, corte: int): CuentaId -> int
  {
    (c: CuentaId) => UltimoViejo(txs, corte, c).GetOr(0)
  }

  ghost function ConViejo(txs: seq<Transaccion>, corte: int): set<CuentaId>
  {
    set i | 0 <= i < |txs| && txs[i].creada < corte :: txs[i].cuenta
  }

  /** What the query may answer: 100 accounts, or all there are, with the latest old payments. */
  ghost predicate EsVentana(txs: seq<Transaccion>, corte: int, ids: set<CuentaId>)
  {
    EsCima(ConViejo(txs, corte), ids, VENTANA, FechaVieja(txs, corte))
  }

  lemma {:induction false} UltimoViejoEsElMayor(txs: seq<Transaccion>, corte: int, c: CuentaId)
    ensures UltimoViejo(txs, corte, c).Some? <==> PagoViejo(txs, corte, c)
    ensures UltimoViejo(txs, corte, c).Some? ==>
              exists i :: 0 <= i < |txs| && txs[i].cuenta == c
                && txs[i].creada == UltimoViejo(txs, corte, c).value < corte
    ensures forall i :: 0 <= i < |txs| && txs[i].cuenta == c && txs[i].creada < corte ==>
              UltimoViejo(txs, corte, c).Some? && txs[i].creada <= UltimoViejo(txs, corte, c).value
  {
    if |txs| != 0 {
      var n := |txs| - 1;
      UltimoViejoEsElMayor(txs[..n], corte, c);
      forall i | 0 <= i < |txs| && txs[i].cuenta == c && txs[i].creada < corte
        ensures UltimoViejo(txs, corte, c).Some? && txs[i].creada <= UltimoViejo(txs, corte, c).value
      {
        if i < n { assert txs[..n][i] == txs[i]; }
      }
      if UltimoViejo(txs, corte, c).Some? {
        if UltimoViejo(txs, corte, c) == UltimoViejo(txs[..n], corte, c) {
          var i :| 0 <= i < n && txs[..n][i].cuenta == c && txs[..n][i].creada == UltimoViejo(txs, corte, c).value;
          assert txs[i].cuenta == c;
        } else {
          assert txs[n].cuenta == c && txs[n].creada == UltimoViejo(txs, corte, c).value;
        }
      }
    }
  }

  /** Whatever the database does with equal dates: an account is in the window always exactly when fewer than
      100 others have an old payment no earlier than its last, and never exactly when 100 have a later one. */
  lemma EnTodaVentanaYEnNinguna(txs: seq<Transaccion>, corte: int, c: CuentaId)
    requires PagoViejo(txs, corte, c)
    ensures var todas, fecha := ConViejo(txs, corte), FechaVieja(txs, corte);
            && ((forall ids :: EsVentana(txs, corte, ids) ==> c in ids) <==> |DelanteOIgual(todas, c, fecha)| < 100)
            && ((forall ids :: EsVentana(txs, corte, ids) ==> c !in ids) <==> |Delante(todas, c, fecha)| >= 100)
  {
    var i :| 0 <= i < |txs| && txs[i].cuenta == c && txs[i].creada < corte;
    assert txs[i].cuenta in ConViejo(txs, corte);
    var todas, fecha := ConViejo(txs, corte), FechaVieja(txs, corte);
    SiempreYNunca(todas, c, VENTANA, fecha);
    assert forall ids :: EsVentana(txs, corte, ids) <==> EsCima(todas, ids, VENTANA, fecha);
  }

  /* ---- the model's window is one of them ---- */

  ghost predicate PorFecha(txs: seq<Transaccion>, reloj: int)
  {
    && (forall i, j :: 0 <= i < j < |txs| ==> txs[i].creada <= txs[j].creada)
    && (forall i :: 0 <= i < |txs| ==> txs[i].creada <= reloj)
  }

  lemma PorFechaAlCobrar(s: Sistema, p: nat)
    requires PorFecha(s.caja.transacciones, s.reloj) && p in s.procesos && s.procesos[p].ConTurno?
    ensures PorFecha(PasoCobrar(s, p).caja.transacciones, PasoCobrar(s, p).reloj)
  {
    var pr := s.procesos[p];
    var ctx, n := ContextoDe(pr, s.reloj), |s.caja.transacciones|;
    if CobroTx(s.caja, ctx, pr.orden).Success? {
      CobroEsCombinado(s.caja, ctx, pr.orden);
      TramosAgregan(s.caja.(cuentas := Proyectar(s.caja.cuentas, ctx)), ctx,
                    Pagado(s.caja.transacciones, ctx.cuenta) == 0,
                    PendienteAntes(s.caja.transacciones, ctx), PartesDe(pr.orden));
      var txs := PasoCobrar(s, p).caja.transacciones;
      forall i | 0 <= i < n ensures txs[i] == s.caja.transacciones[i] { assert txs[..n][i] == txs[i]; }
    }
  }

  /** Payments are in the table in the order of their dates. */
  lemma {:induction false} PorFechaEnTodaCorrida(pasos: seq<Paso>)
    ensures PorFecha(Correr(INICIAL, pasos).caja.transacciones, Correr(INICIAL, pasos).reloj)
  {
    if |pasos| > 0 {
      var n := |pasos| - 1;
      var antes := Correr(INICIAL, pasos[..n]);
      PorFechaEnTodaCorrida(pasos[..n]);
      if pasos[n].Cobrar? {
        if pasos[n].p in antes.procesos && antes.procesos[pasos[n].p].ConTurno? { PorFechaAlCobrar(antes, pasos[n].p); }
      } else {
        OtrosPasosNoCobran(antes, pasos[n]);
      }
    }
  }

  /** The account whose last old payment is later in the table has no earlier date and fewer ahead of it. */
  lemma PosicionYFecha(txs: seq<Transaccion>, reloj: int, corte: int, x: CuentaId, y: CuentaId)
    requires PorFecha(txs, reloj) && PagoViejo(txs, corte, x) && PagoViejo(txs, corte, y)
    ensures FechaVieja(txs, corte)(x) <= FechaVieja(txs, corte)(y)
            || Posteriores(txs, corte, x) <= Posteriores(txs, corte, y)
  {
    UltimoViejoEsElMayor(txs, corte, x);
    UltimoViejoEsElMayor(txs, corte, y);
    if FechaVieja(txs, corte)(x) > FechaVieja(txs, corte)(y) {
      var i :| 0 <= i < |txs| && txs[i].cuenta == x && txs[i].creada == UltimoViejo(txs, corte, x).value < corte;
      forall z | z in Posteriores(txs, corte, x) ensures z in Posteriores(txs, corte, y) {
        var j :| 0 <= j < |txs| && DespuesDe(txs, corte, x, j) && txs[j].cuenta == z;
        assert j > i;
        assert DespuesDe(txs, corte, y, j);
      }
    }
  }

  /** In every reachable state the candidates of the model are a window the database may choose. */
  lemma CandidatasEsVentana(s: Sistema, corte: int)
    requires Alcanzable(s)
    ensures EsVentana(s.caja.transacciones, corte, Conjunto(Candidatas(s.caja.transacciones, corte)))
  {
    var txs := s.caja.transacciones;
    var pasos :| Correr(INICIAL, pasos) == s;
    PorFechaEnTodaCorrida(pasos);
    CandidatasSonCima(txs, s.reloj, corte);
  }

  lemma CandidatasSonCima(txs: seq<Transaccion>, reloj: int, corte: int)
    requires PorFecha(txs, reloj)
    ensures EsVentana(txs, corte, Conjunto(Candidatas(txs, corte)))
  {
    var todas, ids := Distintas(txs, corte), Candidatas(txs, corte);
    DistintasNoRepiten(txs, corte);
    SinRepetidasCuenta(todas);
    SinRepetidasCuenta(ids);
    forall c ensures c in ConViejo(txs, corte) <==> c in todas { DistintasTienenPagos(txs, corte, c); }
    assert Conjunto(todas) == ConViejo(txs, corte);
    forall c ensures c in Conjunto(ids) <==> PagoViejo(txs, corte, c) && |Posteriores(txs, corte, c)| < VENTANA {
      EnLaVentanaSii(txs, corte, c);
    }
    forall x, y | x in ConViejo(txs, corte) && x !in Conjunto(ids) && y in Conjunto(ids)
      ensures FechaVieja(txs, corte)(x) <= FechaVieja(txs, corte)(y)
    {
      DistintasTienenPagos(txs, corte, x);
      PosicionYFecha(txs, reloj, corte, x, y);
      if Posteriores(txs, corte, x) <= Posteriores(txs, corte, y) {
        SubconjuntoNoMayor(Posteriores(txs, corte, x), Posteriores(txs, corte, y));
      }
    }
  }
}
