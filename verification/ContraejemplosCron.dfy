/**
 Runs that show what the repair cron does not keep: an account that owes again by the time it is closed,
 and one that 100 later accounts push out of its reach for good.
 */
module ContraejemplosDelCron {
  import opened Comun
  import opened Tablas
  import opened Cobros
  import opened Saldos
  import opened Proyeccion
  import opened Protocolo
  import opened Invariante
  import opened Reconciliacion
  import opened Ventanas
  import opened TotalesFijos
  import opened TeoremasDelCron
  import opened Empates

  /* ---- paying without closing ---- */

  function PagoDe(cuenta: CuentaId, monto: int): ComandoPago
    requires monto >= 1
  {
    DatosPago(cuenta, monto, EFECTIVO, None, None, Libre(None))
  }

  function RemotaDe(total: int): CuentaRemota
  {
    CuentaRemota("s", total, ABIERTA)
  }

  function FilaDePago(cuenta: CuentaId, monto: int, ahora: int): Transaccion
  {
    Transaccion(cuenta, "s", 0, monto, 0, EFECTIVO, Libre(None), ahora)
  }

  /** Some run ends here; with a total function, one in which account totals are fixed. */
  ghost predicate Llega(s: Sistema, fijo: Option<CuentaId -> int>)
  {
    match fijo
    case None => Alcanzable(s)
    case Some(total) => AlcanzableFija(s, total)
  }

  lemma UnPasoMas(s: Sistema, paso: Paso, fijo: Option<CuentaId -> int>) returns (r: Sistema)
    requires Llega(s, fijo) && (fijo.Some? ==> LecturaFija(s, paso, fijo.value))
    ensures r == Ejecutar(s, paso) && Llega(r, fijo)
  {
    r := Ejecutar(s, paso);
    match fijo
    case None => AlcanzableUnPasoMas(s, paso);
    case Some(total) => FijaUnPasoMas(s, paso, total);
  }

  lemma HastaElCobro(s: Sistema, p: nat, cuenta: CuentaId, monto: int, total: int, fijo: Option<CuentaId -> int>)
    returns (r: Sistema)
    requires Llega(s, fijo) && (fijo.Some? ==> fijo.value(cuenta) == total)
    requires p !in s.procesos && monto >= 1 && TurnoAbierto(s.caja.turnos, "s") == Some(0)
    ensures Llega(r, fijo)
    ensures r == s.(procesos := s.procesos[p := ConTurno(Simple(PagoDe(cuenta, monto), None), RemotaDe(total), 0)])
  {
    r := UnPasoMas(s, RecibirPago(p, PagoDe(cuenta, monto), None), fijo);
    assert r.procesos[p] == Pidiendo(Simple(PagoDe(cuenta, monto), None), None);
    r := UnPasoMas(r, LeerCuenta(p, Some(RemotaDe(total))), fijo);
    r := UnPasoMas(r, BuscarTurno(p), fijo);
    var listo := ConTurno(Simple(PagoDe(cuenta, monto), None), RemotaDe(total), 0);
    assert r.procesos == s.procesos[p := listo];
  }

  /** A payment whose process dies before the remote close; what it leaves open depends on the tables. */
  lemma PagarSinCerrar(s: Sistema, p: nat, cuenta: CuentaId, monto: int, total: int, fijo: Option<CuentaId -> int>)
    returns (r: Sistema)
    requires Llega(s, fijo) && (fijo.Some? ==> fijo.value(cuenta) == total)
    requires p !in s.procesos && monto >= 1 && TurnoAbierto(s.caja.turnos, "s") == Some(0)
    requires PagoTx(s.caja, Contexto(cuenta, 0, RemotaDe(total), 0, s.reloj),
                    ParteSimple(PagoDe(cuenta, monto))).Success?
    ensures Llega(r, fijo) && r.procesos == s.procesos && r.reloj == s.reloj && r.totales == s.totales + [total]
    ensures r.reabiertas == s.reabiertas - {cuenta} && r.caja.turnos == s.caja.turnos
    ensures r.caja.cuentas == s.caja.cuentas[cuenta := Cuenta("s", total, ABIERTA)]
    ensures r.caja.transacciones == s.caja.transacciones + [FilaDePago(cuenta, monto, s.reloj)]
  {
    var listo := HastaElCobro(s, p, cuenta, monto, total, fijo);
    var cobrado := UnPasoMas(listo, Cobrar(p), fijo);
    r := UnPasoMas(cobrado, Morir(p), fijo);
    assert r.procesos == s.procesos;
    assert Repetir(total, 1) == [total];
  }

  /** When registrarPago takes a payment without discount: everything paid before had none either. */
  lemma SeAcepta(txs: seq<Transaccion>, cuenta: CuentaId, monto: int, total: int, ahora: int)
    requires monto >= 1 && TodosConDescuento(txs, cuenta, 0)
    requires var debe := total - Pagado(txs, cuenta);
             0 <= Pagado(txs, cuenta) && debe > TOLERANCIA && monto <= debe + TOLERANCIA
    ensures Rechazo(txs, Contexto(cuenta, 0, RemotaDe(total), 0, ahora), monto).None?
  {
    RechazoSii(txs, Contexto(cuenta, 0, RemotaDe(total), 0, ahora));
  }

  lemma ConTurnoAbierto(fijo: Option<CuentaId -> int>) returns (s: Sistema)
    ensures Llega(s, fijo) && s.procesos == map[] && s.reloj == 0 && s.totales == [] && s.reabiertas == {}
    ensures s.caja.turnos == [Turno("s", 0, true, None)] && s.caja.transacciones == [] && s.caja.cuentas == map[]
  {
    InicialEsAlcanzable();
    if fijo.Some? { InicialEsFija(fijo.value); }
    s := UnPasoMas(INICIAL, Abrir("s", 0), fijo);
  }

  /* ---- a payment between the pick and the close ---- */

  const PAGADA := [Transaccion("a", "s", 0, 600, 0, EFECTIVO, Libre(None), 0)]

  lemma ConsultasDeLaPagada()
    ensures Candidatas(PAGADA, 1) == ["a"] && Agregar(PAGADA, "a") == Agregado(600, 0, 0)
    ensures Pagado(PAGADA, "a") == 600 && TodosConDescuento(PAGADA, "a", 0)
  {
    var vacia: seq<Transaccion> := [];
    assert PAGADA[..0] == vacia;
    assert Pagado(vacia, "a") == 0 && MaxDescuento(vacia, "a") == None && UltimoPago(vacia, "a") == None;
    assert Distintas(vacia, 1) == [];
  }

  /** Paid 6.00 of 6.00, not closed, and five minutes later. */
  lemma PagadaSinCerrar() returns (s: Sistema)
    ensures Alcanzable(s) && s.procesos == map[] && s.reloj == UMBRAL + 1 && s.totales == [600] && s.reabiertas == {}
    ensures s.caja.turnos == [Turno("s", 0, true, None)] && s.caja.transacciones == PAGADA
    ensures s.caja.cuentas == map["a" := Cuenta("s", 600, ABIERTA)]
  {
    s := ConTurnoAbierto(None);
    SeAcepta(s.caja.transacciones, "a", 600, 600, 0);
    s := PagarSinCerrar(s, 0, "a", 600, 600, None);
    AlcanzableUnPasoMas(s, PasaTiempo(UMBRAL + 1));
    s := Ejecutar(s, PasaTiempo(UMBRAL + 1));
  }

  lemma PagadaYElegida() returns (s: Sistema)
    ensures Alcanzable(s) && s.procesos == map[1 := CronLista([("a", 0)])] && s.totales == [600] && s.reabiertas == {}
    ensures s.caja.turnos == [Turno("s", 0, true, None)] && s.caja.transacciones == PAGADA
    ensures s.caja.cuentas == map["a" := Cuenta("s", 600, ABIERTA)]
  {
    var base := PagadaSinCerrar();
    ConsultasDeLaPagada();
    var mirada := UnaMirada(base);
    var agrupada := UnAgregado(mirada);
    s := UnaEleccion(agrupada);
  }

  lemma UnaMirada(s: Sistema) returns (r: Sistema)
    requires Alcanzable(s) && s.procesos == map[] && s.reloj == UMBRAL + 1
             && Candidatas(s.caja.transacciones, 1) == ["a"]
    ensures Alcanzable(r) && r == s.(procesos := map[1 := CronVentana(1, ["a"])])
  {
    AlcanzableUnPasoMas(s, CronMirar(1));
    r := Ejecutar(s, CronMirar(1));
  }

  lemma UnAgregado(s: Sistema) returns (r: Sistema)
    requires Alcanzable(s) && s.procesos == map[1 := CronVentana(1, ["a"])]
    requires Agregar(s.caja.transacciones, "a") == Agregado(600, 0, 0)
    ensures Alcanzable(r) && r == s.(procesos := map[1 := CronAgregado(1, map["a" := Agregado(600, 0, 0)])])
  {
    assert AgregarTodas(s.caja.transacciones, ["a"]) == map["a" := Agregado(600, 0, 0)];
    AlcanzableUnPasoMas(s, CronAgrupar(1));
    r := Ejecutar(s, CronAgrupar(1));
  }

  lemma UnaEleccion(s: Sistema) returns (r: Sistema)
    requires Alcanzable(s) && s.procesos == map[1 := CronAgregado(1, map["a" := Agregado(600, 0, 0)])]
    requires s.caja.cuentas == map["a" := Cuenta("s", 600, ABIERTA)]
    ensures Alcanzable(r) && r == s.(procesos := map[1 := CronLista([("a", 0)])])
  {
    AlcanzableUnPasoMas(s, CronFiltrar(1, ["a"]));
    r := Ejecutar(s, CronFiltrar(1, ["a"]));
    EligeA(s.caja, s.procesos[1]);
  }

  lemma EligeA(c: Caja, pr: Proceso)
    requires pr == CronAgregado(1, map["a" := Agregado(600, 0, 0)])
             && c.cuentas == map["a" := Cuenta("s", 600, ABIERTA)]
    ensures TrasFiltrar(c, pr, ["a"]) == CronLista([("a", 0)])
  {
    assert Elegible(c.cuentas, pr.agregados, 1, "a");
    assert ["a"][1..] == [] && Filtrar([], c.cuentas, pr.agregados, 1) == [];
    assert Filtrar(["a"], c.cuentas, pr.agregados, 1) == ["a"];
  }

  lemma DeudaAlCerrar() returns (s: Sistema)
    ensures Alcanzable(s) && s.procesos == map[1 := CronLista([("a", 0)])] && s.reabiertas == {}
    ensures "a" in s.caja.cuentas && |s.totales| == |s.caja.transacciones| && !EstaCobrada(s, "a")
  {
    s := PagadaYElegida();
    ConsultasDeLaPagada();
    SeAcepta(s.caja.transacciones, "a", 100, 1000, s.reloj);
    var antes := s;
    s := PagarSinCerrar(s, 2, "a", 100, 1000, None);
    LoAlcanzableEsSano(s);
    DebeTresSoles(s, antes.reloj);
  }

  lemma DebeTresSoles(s: Sistema, ahora: int)
    requires Inv(s) && s.caja.transacciones == PAGADA + [FilaDePago("a", 100, ahora)] && s.totales == [600, 1000]
    ensures |s.totales| == |s.caja.transacciones| && !EstaCobrada(s, "a")
  {
    ConsultasDeLaPagada();
    PagadoAgrega(PAGADA, FilaDePago("a", 100, ahora), "a");
    assert UltimoTotal(s.caja.transacciones, s.totales, "a") == 1000;
    assert DescuentoCobrado(s.caja.transacciones, "a") == 0;
    assert s.caja.transacciones[1].cuenta == "a";
    CobradaSii(s, "a");
  }

  /** Picked while it owed nothing, charged 1.00 more on a total that grew to 10.00, and closed by the
      cron with 3.00 still owed, without any reopening. */
  lemma PagoEntreEleccionYCierre()
    ensures exists s :: Alcanzable(s) && s.procesos == map[1 := CronLista([("a", 0)])] && s.reabiertas == {}
              && |s.totales| == |s.caja.transacciones| && !EstaCobrada(s, "a")
              && "a" in Ejecutar(s, CronCerrar(1, true)).caja.cuentas
              && Ejecutar(s, CronCerrar(1, true)).caja.cuentas["a"].estado == CERRADA
  {
    var s := DeudaAlCerrar();
    CierraA(s);
  }

  lemma CierraA(s: Sistema)
    requires s.procesos == map[1 := CronLista([("a", 0)])] && "a" in s.caja.cuentas
    ensures "a" in Ejecutar(s, CronCerrar(1, true)).caja.cuentas
    ensures Ejecutar(s, CronCerrar(1, true)).caja.cuentas["a"].estado == CERRADA
  {
  }

  /* ---- 101 accounts paid in full, none closed ---- */

  /** The accounts "x", "xx", "xxx", ... */
  function Nombre(i: nat): (r: CuentaId)
    ensures |r| == i + 1
  {
    seq(i + 1, _ => 'x')
  }

  /** The i-th account pays 1.00 of 1.00 at instant i. */
  function Pagos(n: nat): (r: seq<Transaccion>)
    ensures |r| == n && forall i :: 0 <= i < n ==> r[i] == FilaDePago(Nombre(i), 100, i)
  {
    seq(n, i requires i >= 0 => FilaDePago(Nombre(i), 100, i))
  }

  function CienCadaUna(c: CuentaId): int
  {
    100
  }

  lemma {:induction false} PagadoEnPagos(n: nat, k: nat)
    ensures Pagado(Pagos(n), Nombre(k)) == if k < n then 100 else 0
    ensures TodosConDescuento(Pagos(n), Nombre(k), 0)
  {
    if n != 0 {
      PagadoEnPagos(n - 1, k);
      assert Pagos(n)[..n - 1] == Pagos(n - 1);
    }
  }

  /** The first n accounts have paid in full, one per instant, and none was closed. */
  ghost predicate HanPagado(s: Sistema, n: nat)
  {
    && s.procesos == map[] && s.reabiertas == {} && s.caja.transacciones == Pagos(n)
    && s.caja.turnos == [Turno("s", 0, true, None)]
    && forall i: nat :: i < n ==>
         Nombre(i) in s.caja.cuentas && s.caja.cuentas[Nombre(i)] == Cuenta("s", 100, ABIERTA)
  }

  lemma PasaUnRato(s: Sistema, ms: nat, fijo: Option<CuentaId -> int>) returns (r: Sistema)
    requires Llega(s, fijo)
    ensures Llega(r, fijo) && r == s.(reloj := s.reloj + ms)
  {
    r := UnPasoMas(s, PasaTiempo(ms), fijo);
  }

  lemma UnaPagadaMas(antes: Sistema, n: nat) returns (s: Sistema)
    requires Llega(antes, Some(CienCadaUna)) && HanPagado(antes, n) && antes.reloj == n
    ensures Llega(s, Some(CienCadaUna)) && HanPagado(s, n + 1) && s.reloj == n
  {
    PagadoEnPagos(n, n);
    SeAcepta(antes.caja.transacciones, Nombre(n), 100, 100, n);
    s := PagarSinCerrar(antes, 0, Nombre(n), 100, 100, Some(CienCadaUna));
    assert Pagos(n + 1) == Pagos(n) + [FilaDePago(Nombre(n), 100, n)];
  }

  lemma {:induction false} VariasPagadas(n: nat) returns (s: Sistema)
    ensures Llega(s, Some(CienCadaUna)) && HanPagado(s, n) && s.reloj == n
  {
    if n == 0 {
      s := ConTurnoAbierto(Some(CienCadaUna));
    } else {
      s := VariasPagadas(n - 1);
      s := UnaPagadaMas(s, n - 1);
      s := PasaUnRato(s, 1, Some(CienCadaUna));
    }
  }

  /** The accounts that paid from the first to the n-th instant after Nombre(0). */
  function Siguientes(n: nat): (r: seq<CuentaId>)
    ensures |r| == n && SinRepetidas(r) && forall i :: 0 <= i < n ==> r[i] == Nombre(i + 1)
  {
    var r := seq(n, i requires 0 <= i < n => Nombre(i + 1));
    assert forall i :: 0 <= i < n ==> |r[i]| == i + 2;
    r
  }

  lemma CienPorDelante(corte: int)
    requires corte > 100
    ensures |Posteriores(Pagos(101), corte, Nombre(0))| >= VENTANA
  {
    var otras := Siguientes(100);
    SinRepetidasCuenta(otras);
    forall x | x in Conjunto(otras) ensures x in Posteriores(Pagos(101), corte, Nombre(0)) {
      var i: nat :| i < 100 && otras[i] == x;
      assert forall j :: i + 1 <= j < 101 ==> |Pagos(101)[j].cuenta| == j + 1;
      assert DespuesDe(Pagos(101), corte, Nombre(0), i + 1) && Pagos(101)[i + 1].cuenta == x;
    }
    SubconjuntoNoMayor(Conjunto(otras), Posteriores(Pagos(101), corte, Nombre(0)));
  }

  /** The date of each account's payment, whatever the cutoff after it. */
  lemma FechaEnPagos(corte: int, k: nat)
    requires k < 101 && corte > 100
    ensures FechaVieja(Pagos(101), corte)(Nombre(k)) == k && Nombre(k) in ConViejo(Pagos(101), corte)
  {
    var txs := Pagos(101);
    UltimoViejoEsElMayor(txs, corte, Nombre(k));
    assert txs[k].cuenta == Nombre(k) && txs[k].creada == k;
    assert forall j :: 0 <= j < 101 ==> |txs[j].cuenta| == j + 1;
  }

  /** Not even by an unlucky choice among equal dates: all dates differ. */
  lemma EnNingunaVentana(corte: int, ids: set<CuentaId>)
    requires corte > 100 && EsVentana(Pagos(101), corte, ids)
    ensures Nombre(0) !in ids
  {
    var todas, fecha, otras := ConViejo(Pagos(101), corte), FechaVieja(Pagos(101), corte), Siguientes(100);
    FechaEnPagos(corte, 0);
    SinRepetidasCuenta(otras);
    forall x | x in Conjunto(otras) ensures x in Delante(todas, Nombre(0), fecha) {
      var i: nat :| i < 100 && otras[i] == x;
      FechaEnPagos(corte, i + 1);
    }
    SubconjuntoNoMayor(Conjunto(otras), Delante(todas, Nombre(0), fecha));
    NoEntraNunca(todas, ids, Nombre(0), VENTANA, fecha);
  }

  /** The tables of 101 accounts paid in full at different instants, the first one still open. */
  ghost predicate PrimeraAbierta(s: Sistema)
  {
    && s.reabiertas == {} && s.caja.transacciones == Pagos(101)
    && Nombre(0) in s.caja.cuentas && s.caja.cuentas[Nombre(0)] == Cuenta("s", 100, ABIERTA)
  }

  lemma PrimeraPagada(s: Sistema)
    requires Inv(s) && PrimeraAbierta(s)
    ensures Reparable(s.caja, Nombre(0)) && EstaCobrada(s, Nombre(0))
    ensures TienePagos(s.caja.transacciones, Nombre(0)) && DescuentoCobrado(s.caja.transacciones, Nombre(0)) == 0
    ensures Pagado(s.caja.transacciones, Nombre(0)) == 100
  {
    var c := Nombre(0);
    PagadoEnPagos(101, 0);
    assert s.caja.transacciones[0].cuenta == c;
    DescuentoCobradoEsElDeTodos(s.caja.transacciones, c);
    CobradaSii(s, c);
  }

  /** No tick with the cutoff past the last payment lists the account, and no window has it. */
  ghost predicate SinAlcance(c: Caja, cuenta: CuentaId)
  {
    && (forall i :: 0 <= i < |c.transacciones| ==> c.transacciones[i].creada <= 100)
    && (forall corte, orden :: corte > 100 ==> cuenta !in ListaDelTick(c, corte, orden))
    && (forall corte, ids :: corte > 100 && EsVentana(c.transacciones, corte, ids) ==> cuenta !in ids)
  }

  lemma PrimeraSinAlcance(c: Caja)
    requires c.transacciones == Pagos(101)
    ensures SinAlcance(c, Nombre(0))
  {
    forall corte, orden | corte > 100 ensures Nombre(0) !in ListaDelTick(c, corte, orden) {
      CienPorDelante(corte);
      DesplazadaNadieLaCierra(c, corte, orden, Nombre(0));
    }
    forall corte, ids | corte > 100 && EsVentana(c.transacciones, corte, ids) ensures Nombre(0) !in ids {
      EnNingunaVentana(corte, ids);
    }
  }

  /** A reachable desk in which an open account, paid in full, is on no list of the cron once the last
      payment is old, and in no window whatever the database does with equal dates. */
  lemma LaVentanaDejaFuera()
    ensures exists s, c :: Alcanzable(s) && Reparable(s.caja, c) && EstaCobrada(s, c) && c !in s.reabiertas
              && SinAlcance(s.caja, c)
  {
    var s := VariasPagadas(101);
    FijaEsAlcanzable(s, CienCadaUna);
    LoAlcanzableEsSano(s);
    PrimeraPagada(s);
    PrimeraSinAlcance(s.caja);
  }

  /* ---- a window read one instant before the displacement ---- */

  lemma AunCandidata()
    ensures Nombre(0) in Candidatas(Pagos(101), 100)
  {
    var txs, otras := Pagos(101), Siguientes(99);
    assert txs[0].cuenta == Nombre(0) && txs[0].creada == 0;
    assert PagoViejo(txs, 100, Nombre(0));
    forall x | x in Posteriores(txs, 100, Nombre(0)) ensures x in Conjunto(otras) {
      var j :| 0 <= j < |txs| && DespuesDe(txs, 100, Nombre(0), j) && txs[j].cuenta == x;
      assert 0 < j < 100;
      assert otras[j - 1] == x;
    }
    SubconjuntoNoMayor(Posteriores(txs, 100, Nombre(0)), Conjunto(otras));
    SinRepetidasCuenta(otras);
    EnLaVentanaSii(txs, 100, Nombre(0));
  }

  lemma LeeLaVentana(s: Sistema) returns (r: Sistema)
    requires Llega(s, Some(CienCadaUna)) && s.procesos == map[]
    ensures Llega(r, Some(CienCadaUna))
    ensures var corte := s.reloj - UMBRAL;
            r == s.(procesos := map[1 := CronVentana(corte, Candidatas(s.caja.transacciones, corte))])
  {
    r := UnPasoMas(s, CronMirar(1), Some(CienCadaUna));
  }

  lemma ConVentanaLeida() returns (s: Sistema)
    ensures Llega(s, Some(CienCadaUna)) && s.reloj == UMBRAL + 101 && PrimeraAbierta(s)
    ensures s.procesos == map[1 := CronVentana(100, Candidatas(Pagos(101), 100))]
  {
    s := VariasPagadas(101);
    s := PasaUnRato(s, UMBRAL - 1, Some(CienCadaUna));
    s := LeeLaVentana(s);
    s := PasaUnRato(s, 1, Some(CienCadaUna));
  }

  lemma PrimeraElegible(c: Caja)
    requires c.transacciones == Pagos(101) && UnDescuentoPorCuenta(c.transacciones)
    requires TienePagos(c.transacciones, Nombre(0)) && DescuentoCobrado(c.transacciones, Nombre(0)) == 0
    requires Pagado(c.transacciones, Nombre(0)) == 100
    requires Nombre(0) in c.cuentas && c.cuentas[Nombre(0)] == Cuenta("s", 100, ABIERTA)
    ensures var agregados := AgregarTodas(c.transacciones, Candidatas(Pagos(101), 100));
            TrasFiltrar(c, CronAgregado(100, agregados), [Nombre(0)]) == CronLista([(Nombre(0), 0)])
  {
    var a, txs := Nombre(0), c.transacciones;
    var agregados := AgregarTodas(txs, Candidatas(Pagos(101), 100));
    AunCandidata();
    MaximoEsElCobrado(txs, a);
    UltimoPagoExiste(txs, a);
    assert forall j :: 0 <= j < 101 ==> |txs[j].cuenta| == j + 1;
    UltimoPagoDeCuenta(txs, a, 100);
    assert Elegible(c.cuentas, agregados, 100, a);
    assert [a][1..] == [] && Filtrar([], c.cuentas, agregados, 100) == [];
    assert Filtrar([a], c.cuentas, agregados, 100) == [a];
  }

  lemma AgrupaYElige(s: Sistema, ids: seq<CuentaId>, orden: seq<CuentaId>)
    requires s.procesos == map[1 := CronVentana(100, ids)]
    ensures var r := Ejecutar(Ejecutar(s, CronAgrupar(1)), CronFiltrar(1, orden));
            && 1 in r.procesos
            && r.procesos[1] == TrasFiltrar(s.caja, CronAgregado(100, AgregarTodas(s.caja.transacciones, ids)), orden)
  {
    var medio := Ejecutar(s, CronAgrupar(1));
    assert medio == s.(procesos := map[1 := CronAgregado(100, AgregarTodas(s.caja.transacciones, ids))]);
  }

  lemma YaDesplazada(s: Sistema)
    requires Inv(s) && SaldadasExactas(s, CienCadaUna) && PrimeraAbierta(s) && s.reloj == UMBRAL + 101
    ensures Desplazada(s, Nombre(0)) && Nombre(0) in s.saldadas
  {
    PrimeraPagada(s);
    CienPorDelante(101);
    assert Saldada(s.caja.transacciones, CienCadaUna, Nombre(0));
  }

  /** The exception is real: with fixed totals, a settled account already displaced by 100 others is put on
      the list of a cron process that read its window the instant before. */
  lemma LaQueYaFueMiradaSeCierra()
    ensures exists s, c :: AlcanzableFija(s, CienCadaUna) && c in s.saldadas && Desplazada(s, c)
              && 1 in s.procesos && Nombra(s.procesos[1], c)
              && var r := Ejecutar(Ejecutar(s, CronAgrupar(1)), CronFiltrar(1, [c]));
                 1 in r.procesos && r.procesos[1] == CronLista([(c, 0)])
  {
    var s := ConVentanaLeida();
    FijaEsAlcanzable(s, CienCadaUna);
    LoAlcanzableEsSano(s);
    AunCandidata();
    YaDesplazada(s);
    AgrupaYElige(s, Candidatas(Pagos(101), 100), [Nombre(0)]);
    PrimeraPagada(s);
    PrimeraElegible(s.caja);
    assert Nombra(s.procesos[1], Nombre(0));
  }
}
