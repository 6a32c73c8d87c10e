/**
 Runs that reach states the code does not rule out: a FALLIDO row that was charged, a reopened account
 that the cron closes while money is still owed, a payment on a closed shift, and a duplicated intent.
 */
module Contraejemplos {
  import opened Comun
  import opened Tablas
  import opened Ventas
  import opened Saldos
  import opened Proyeccion
  import opened Protocolo
  import opened Invariante
  import opened Teoremas
  import opened TeoremasDeLaCola

  /* ---- a charged FALLIDO row ---- */

  const PAGO_DE_PRUEBA: ComandoPago := DatosPago("a", 500, EFECTIVO, None, None, Libre(None))
  const CUENTA_DE_PRUEBA := CuentaRemota("s", 500, ABIERTA)

  lemma UnPagoEnCola() returns (s: Sistema)
    ensures Alcanzable(s) && s.procesos == map[] && s.reloj == 0 && s.origen == [] && s.totales == []
    ensures s.caja == CAJA_VACIA.(pendientes := [PagoPendiente("s", PAGO_DE_PRUEBA, PENDIENTE, None)])
  {
    InicialEsAlcanzable();
    AlcanzableUnPasoMas(INICIAL, RecibirPago(0, PAGO_DE_PRUEBA, None));
    s := Ejecutar(INICIAL, RecibirPago(0, PAGO_DE_PRUEBA, None));
    AlcanzableUnPasoMas(s, LeerCuenta(0, Some(CUENTA_DE_PRUEBA)));
    s := Ejecutar(s, LeerCuenta(0, Some(CUENTA_DE_PRUEBA)));
    AlcanzableUnPasoMas(s, BuscarTurno(0));
    s := Ejecutar(s, BuscarTurno(0));
    AlcanzableUnPasoMas(s, Anotar(0, true));
    s := Ejecutar(s, Anotar(0, true));
  }

  lemma ReclamadoConTurno() returns (s: Sistema)
    ensures Alcanzable(s) && s.origen == []
            && s.procesos == map[1 := Pidiendo(Simple(PAGO_DE_PRUEBA, Some(0)), Some("s"))]
    ensures s.caja.turnos == [Turno("s", 0, true, None)] && s.caja.transacciones == []
    ensures s.caja.pendientes == [PagoPendiente("s", PAGO_DE_PRUEBA, PROCESANDO, None)]
  {
    s := UnPagoEnCola();
    AlcanzableUnPasoMas(s, Abrir("s", 0));
    s := Ejecutar(s, Abrir("s", 0));
    AlcanzableUnPasoMas(s, Reclamar(1, 0));
    s := Ejecutar(s, Reclamar(1, 0));
  }

  lemma ReclamadoPorCobrar() returns (s: Sistema)
    ensures Alcanzable(s) && s.origen == [] && s.caja.transacciones == []
    ensures s.procesos == map[1 := ConTurno(Simple(PAGO_DE_PRUEBA, Some(0)), CUENTA_DE_PRUEBA, 0)]
    ensures s.caja.pendientes == [PagoPendiente("s", PAGO_DE_PRUEBA, PROCESANDO, None)]
  {
    s := ReclamadoConTurno();
    AlcanzableUnPasoMas(s, LeerCuenta(1, Some(CUENTA_DE_PRUEBA)));
    s := Ejecutar(s, LeerCuenta(1, Some(CUENTA_DE_PRUEBA)));
    AlcanzableUnPasoMas(s, BuscarTurno(1));
    s := Ejecutar(s, BuscarTurno(1));
  }

  lemma ReclamadoYCobrado() returns (s: Sistema)
    ensures Alcanzable(s) && s.origen == [Some(0)]
    ensures s.procesos == map[1 := Comprometido(Simple(PAGO_DE_PRUEBA, Some(0)), 0, 500, 0)]
    ensures s.caja.pendientes == [PagoPendiente("s", PAGO_DE_PRUEBA, PROCESANDO, None)]
  {
    s := ReclamadoPorCobrar();
    AlcanzableUnPasoMas(s, Cobrar(1));
    s := Ejecutar(s, Cobrar(1));
  }

  /** That last ending exists: claim, charge, and a failing PROCESADO write leave a charged FALLIDO row. */
  lemma FallidoPuedeEstarCobrado()
    ensures exists s ::
            Alcanzable(s) && |s.caja.pendientes| == 1 && s.caja.pendientes[0].estado == FALLIDO && VieneDe(s, 0, 0)
  {
    var s := ReclamadoYCobrado();
    AlcanzableUnPasoMas(s, CerrarCuenta(1, true));
    s := Ejecutar(s, CerrarCuenta(1, true));
    AlcanzableUnPasoMas(s, Anotar(1, false));
    s := Ejecutar(s, Anotar(1, false));
    assert Alcanzable(s) && |s.caja.pendientes| == 1 && s.caja.pendientes[0].estado == FALLIDO && VieneDe(s, 0, 0);
  }

  /* ---- a reopened account closed with debt ---- */

  const PARCIAL: ComandoPago := DatosPago("a", 600, EFECTIVO, Some(200), None, Libre(None))
  const CUENTA_DE_DIEZ := CuentaRemota("s", 1000, ABIERTA)

  lemma ParcialConTurno() returns (s: Sistema)
    ensures Alcanzable(s) && s.procesos == map[0 := ConTurno(Simple(PARCIAL, None), CUENTA_DE_DIEZ, 0)]
    ensures s.totales == [] && s.reloj == 0 && s.caja.cuentas == map[] && s.caja.transacciones == []
    ensures s.caja.turnos == [Turno("s", 0, true, None)]
    ensures s.caja.movimientos == [Movimiento(0, APERTURA, None, None, EFECTIVO, 0, 0, 0, Libre(None))]
  {
    InicialEsAlcanzable();
    AlcanzableUnPasoMas(INICIAL, Abrir("s", 0));
    s := Ejecutar(INICIAL, Abrir("s", 0));
    AlcanzableUnPasoMas(s, RecibirPago(0, PARCIAL, None));
    s := Ejecutar(s, RecibirPago(0, PARCIAL, None));
    AlcanzableUnPasoMas(s, LeerCuenta(0, Some(CUENTA_DE_DIEZ)));
    s := Ejecutar(s, LeerCuenta(0, Some(CUENTA_DE_DIEZ)));
    AlcanzableUnPasoMas(s, BuscarTurno(0));
    s := Ejecutar(s, BuscarTurno(0));
  }

  lemma ParcialCobrado() returns (s: Sistema)
    ensures Alcanzable(s) && s.procesos == map[] && s.totales == [1000] && s.reloj == 0
    ensures s.caja.cuentas == map["a" := Cuenta("s", 1000, ABIERTA)]
    ensures s.caja.transacciones == [Transaccion("a", "s", 0, 600, 200, EFECTIVO, Libre(None), 0)]
  {
    s := ParcialConTurno();
    AlcanzableUnPasoMas(s, Cobrar(0));
    s := Ejecutar(s, Cobrar(0));
    assert |s.totales| == 1 && s.totales[0] == 1000;
    AlcanzableUnPasoMas(s, Morir(0));
    s := Ejecutar(s, Morir(0));
  }

  lemma CerradaPorEvento(s: Sistema) returns (r: Sistema)
    requires Alcanzable(s) && s.caja.cuentas == map["a" := Cuenta("s", 1000, ABIERTA)]
    ensures Alcanzable(r) && r.caja == s.caja.(cuentas := map["a" := Cuenta("s", 800, CERRADA)])
    ensures r.procesos == s.procesos && r.totales == s.totales && r.reloj == s.reloj
  {
    AlcanzableUnPasoMas(s, LlegaCerrada("a", 800, None));
    r := Ejecutar(s, LlegaCerrada("a", 800, None));
    assert r.caja.cuentas == map["a" := Cuenta("s", 800, CERRADA)];
  }

  lemma ReabiertaPorEvento(s: Sistema) returns (r: Sistema)
    requires Alcanzable(s) && s.caja.cuentas == map["a" := Cuenta("s", 800, CERRADA)]
    ensures Alcanzable(r) && "a" in r.reabiertas && r.caja == s.caja.(cuentas := map["a" := Cuenta("s", 800, ABIERTA)])
    ensures r.procesos == s.procesos && r.totales == s.totales && r.reloj == s.reloj
  {
    AlcanzableUnPasoMas(s, LlegaAbierta("a", "s"));
    r := Ejecutar(s, LlegaAbierta("a", "s"));
    assert r.caja.cuentas == map["a" := Cuenta("s", 800, ABIERTA)];
  }

  lemma PasaElUmbral(s: Sistema) returns (r: Sistema)
    requires Alcanzable(s)
    ensures Alcanzable(r) && r == s.(reloj := s.reloj + UMBRAL + 1)
  {
    AlcanzableUnPasoMas(s, PasaTiempo(UMBRAL + 1));
    r := Ejecutar(s, PasaTiempo(UMBRAL + 1));
  }

  lemma ConsultasDelParcial(txs: seq<Transaccion>)
    requires txs == [Transaccion("a", "s", 0, 600, 200, EFECTIVO, Libre(None), 0)]
    ensures Candidatas(txs, 1) == ["a"] && Agregar(txs, "a") == Agregado(600, 200, 0)
    ensures UltimoTotal(txs, [1000], "a") == 1000 && DescuentoCobrado(txs, "a") == 200 && TienePagos(txs, "a")
  {
    assert txs[..0] == [] && txs[0].cuenta == "a";
    assert Pagado(txs[..0], "a") == 0;
    assert MaxDescuento(txs[..0], "a") == None;
    assert UltimoPago(txs[..0], "a") == None;
    assert Distintas(txs[..0], 1) == [];
  }

  lemma ReabiertaConDeuda() returns (s: Sistema)
    ensures Alcanzable(s) && s.procesos == map[] && s.reloj == UMBRAL + 1 && |s.totales| == |s.caja.transacciones|
    ensures s.caja.cuentas == map["a" := Cuenta("s", 800, ABIERTA)]
    ensures s.caja.transacciones == [Transaccion("a", "s", 0, 600, 200, EFECTIVO, Libre(None), 0)]
    ensures !RegistrarPagoLaDaPorCobrada(s.caja.transacciones, s.totales, "a")
  {
    s := ParcialCobrado();
    s := CerradaPorEvento(s);
    s := ReabiertaPorEvento(s);
    s := PasaElUmbral(s);
    ConsultasDelParcial(s.caja.transacciones);
    assert UnDescuentoPorCuenta(s.caja.transacciones) && MontosPositivos(s.caja.transacciones);
    CobradaSiiPagadoAlcanza(s.caja.transacciones, s.totales, "a");
  }

  lemma MiradaPorElCron(s: Sistema) returns (r: Sistema)
    requires Alcanzable(s) && s.procesos == map[] && s.reloj == UMBRAL + 1
             && Candidatas(s.caja.transacciones, 1) == ["a"]
    ensures Alcanzable(r) && r.procesos == map[0 := CronVentana(1, ["a"])]
    ensures r.caja == s.caja && r.totales == s.totales
  {
    AlcanzableUnPasoMas(s, CronMirar(0));
    r := Ejecutar(s, CronMirar(0));
  }

  lemma AgregadaPorElCron(s: Sistema) returns (r: Sistema)
    requires Alcanzable(s) && s.procesos == map[] && s.reloj == UMBRAL + 1
    requires s.caja.transacciones == [Transaccion("a", "s", 0, 600, 200, EFECTIVO, Libre(None), 0)]
    ensures Alcanzable(r) && r.procesos == map[0 := CronAgregado(1, map["a" := Agregado(600, 200, 0)])]
    ensures r.caja == s.caja && r.totales == s.totales
  {
    ConsultasDelParcial(s.caja.transacciones);
    r := MiradaPorElCron(s);
    assert AgregarTodas(s.caja.transacciones, ["a"]) == map["a" := Agregado(600, 200, 0)];
    AlcanzableUnPasoMas(r, CronAgrupar(0));
    r := Ejecutar(r, CronAgrupar(0));
  }

  /** Without that proviso it is false: paid 6.00 of 8.00 net, closed, and reopened by a late
      CuentaAbierta, the account is selected although 2.00 are still owed. */
  lemma ReabiertaPuedeCerrarseConDeuda()
    ensures exists s, p: nat :: Alcanzable(s) && p in s.procesos && s.procesos[p].CronAgregado?
              && TrasFiltrar(s.caja, s.procesos[p], ["a"]).lista == [("a", 200)]
              && |s.totales| == |s.caja.transacciones|
              && !RegistrarPagoLaDaPorCobrada(s.caja.transacciones, s.totales, "a")
  {
    var s := ReabiertaConDeuda();
    s := AgregadaPorElCron(s);
    SeleccionaA(s.caja, s.procesos[0]);
  }

  lemma SeleccionaA(c: Caja, pr: Proceso)
    requires pr.CronAgregado? && pr.corte == 1 && "a" in pr.agregados && pr.agregados["a"] == Agregado(600, 200, 0)
    requires c.cuentas == map["a" := Cuenta("s", 800, ABIERTA)]
    ensures TrasFiltrar(c, pr, ["a"]).lista == [("a", 200)]
  {
    assert Elegible(c.cuentas, pr.agregados, 1, "a");
    assert ["a"][1..] == [] && Filtrar([], c.cuentas, pr.agregados, 1) == [];
    assert Filtrar(["a"], c.cuentas, pr.agregados, 1) == ["a"];
  }

  /* ---- a payment on a shift that closed meanwhile ---- */

  lemma CerradoAntesDeCobrar() returns (s: Sistema)
    ensures Alcanzable(s) && s.procesos == map[0 := ConTurno(Simple(PARCIAL, None), CUENTA_DE_DIEZ, 0)]
    ensures s.totales == [] && s.caja.transacciones == []
    ensures s.caja.turnos == [Turno("s", 0, false, Some(Cierre(0, 0, 0)))]
    ensures EfectivoEsperado(s.caja.movimientos, 0) == 0
  {
    s := ParcialConTurno();
    assert EfectivoEsperado(s.caja.movimientos[..0], 0) == 0;
    assert EfectivoEsperado(s.caja.movimientos, 0) == 0;
    AlcanzableUnPasoMas(s, Cerrar(0, 0));
    s := Ejecutar(s, Cerrar(0, 0));
  }

  /** A payment that found its shift open lands on it after the close: the drawer then expects 6.00
      more than the close recorded. */
  lemma PagoEnTurnoCerrado()
    ensures exists s :: Alcanzable(s) && |s.caja.turnos| == 1 && s.caja.turnos[0].cierre == Some(Cierre(0, 0, 0))
              && |s.caja.transacciones| == 1 && s.caja.transacciones[0].turno == 0
              && EfectivoEsperado(s.caja.movimientos, 0) == 600
  {
    var s := CerradoAntesDeCobrar();
    var r := Ejecutar(s, Cobrar(0));
    AlcanzableUnPasoMas(s, Cobrar(0));
    assert r.caja.movimientos[..|s.caja.movimientos|] == s.caja.movimientos;
    assert Alcanzable(r) && |r.caja.turnos| == 1 && r.caja.turnos[0].cierre == Some(Cierre(0, 0, 0));
  }

  /* ---- one intent, two rows ---- */

  /** One payment is received while the desk is closed; the shift opens and its drain claims the row; the
      shift closes before the drain looks it up. */
  const CORRIDA_QUE_DUPLICA: seq<Paso> :=
    [RecibirPago(0, PAGO_DE_PRUEBA, None), LeerCuenta(0, Some(CUENTA_DE_PRUEBA)), BuscarTurno(0), Anotar(0, true),
     Abrir("s", 0), Reclamar(1, 0), Cerrar(0, 0), LeerCuenta(1, Some(CUENTA_DE_PRUEBA)), BuscarTurno(1),
     Anotar(1, true)]

  const FILA_DE_PRUEBA := PagoPendiente("s", PAGO_DE_PRUEBA, PENDIENTE, None)

  lemma UnPasoDeLaCorrida(k: nat)
    requires k < |CORRIDA_QUE_DUPLICA|
    ensures Correr(INICIAL, CORRIDA_QUE_DUPLICA[..k + 1])
            == Ejecutar(Correr(INICIAL, CORRIDA_QUE_DUPLICA[..k]), CORRIDA_QUE_DUPLICA[k])
  {
    assert CORRIDA_QUE_DUPLICA[..k + 1][..k] == CORRIDA_QUE_DUPLICA[..k];
  }

  lemma HastaLaLectura() returns (s: Sistema)
    ensures s == Correr(INICIAL, CORRIDA_QUE_DUPLICA[..2]) && s.caja == CAJA_VACIA
    ensures s.procesos == map[0 := ConCuenta(Simple(PAGO_DE_PRUEBA, None), CUENTA_DE_PRUEBA)]
  {
    assert Correr(INICIAL, CORRIDA_QUE_DUPLICA[..0]) == INICIAL;
    s := Ejecutar(INICIAL, RecibirPago(0, PAGO_DE_PRUEBA, None));
    UnPasoDeLaCorrida(0);
    s := Ejecutar(s, LeerCuenta(0, Some(CUENTA_DE_PRUEBA)));
    UnPasoDeLaCorrida(1);
  }

  lemma HastaElEncolado() returns (s: Sistema)
    ensures s == Correr(INICIAL, CORRIDA_QUE_DUPLICA[..3])
    ensures s.procesos == map[0 := Terminado(Simple(PAGO_DE_PRUEBA, None), EnCola)]
    ensures s.caja == CAJA_VACIA.(pendientes := [FILA_DE_PRUEBA])
  {
    s := HastaLaLectura();
    s := Ejecutar(s, BuscarTurno(0));
    UnPasoDeLaCorrida(2);
  }

  lemma HastaLaCola() returns (s: Sistema)
    ensures s == Correr(INICIAL, CORRIDA_QUE_DUPLICA[..4]) && s.procesos == map[]
    ensures s.caja == CAJA_VACIA.(pendientes := [FILA_DE_PRUEBA])
  {
    s := HastaElEncolado();
    s := Ejecutar(s, Anotar(0, true));
    UnPasoDeLaCorrida(3);
  }

  lemma HastaLaApertura() returns (s: Sistema)
    ensures s == Correr(INICIAL, CORRIDA_QUE_DUPLICA[..5]) && s.procesos == map[]
    ensures s.caja.turnos == [Turno("s", 0, true, None)] && s.caja.pendientes == [FILA_DE_PRUEBA]
  {
    s := HastaLaCola();
    s := Ejecutar(s, Abrir("s", 0));
    UnPasoDeLaCorrida(4);
  }

  lemma HastaElReclamo() returns (s: Sistema)
    ensures s == Correr(INICIAL, CORRIDA_QUE_DUPLICA[..7])
    ensures s.procesos == map[1 := Pidiendo(Simple(PAGO_DE_PRUEBA, Some(0)), Some("s"))]
    ensures |s.caja.turnos| == 1 && !s.caja.turnos[0].abierto
    ensures s.caja.pendientes == [FILA_DE_PRUEBA.(estado := PROCESANDO)]
  {
    s := HastaLaApertura();
    s := Ejecutar(s, Reclamar(1, 0));
    UnPasoDeLaCorrida(5);
    s := Ejecutar(s, Cerrar(0, 0));
    UnPasoDeLaCorrida(6);
  }

  lemma HastaElSegundoTurno() returns (s: Sistema)
    ensures s == Correr(INICIAL, CORRIDA_QUE_DUPLICA[..8]) && Duplica(s, BuscarTurno(1))
    ensures s.procesos == map[1 := ConCuenta(Simple(PAGO_DE_PRUEBA, Some(0)), CUENTA_DE_PRUEBA)]
    ensures s.caja.pendientes == [FILA_DE_PRUEBA.(estado := PROCESANDO)]
  {
    s := HastaElReclamo();
    TurnoAbiertoEsAbierto(s.caja.turnos, "s");
    s := Ejecutar(s, LeerCuenta(1, Some(CUENTA_DE_PRUEBA)));
    UnPasoDeLaCorrida(7);
  }

  lemma HastaElFinal() returns (s: Sistema)
    ensures s == Correr(INICIAL, CORRIDA_QUE_DUPLICA) && s.caja.pendientes == [FILA_DE_PRUEBA, FILA_DE_PRUEBA]
  {
    s := HastaElSegundoTurno();
    s := Ejecutar(s, BuscarTurno(1));
    UnPasoDeLaCorrida(8);
    assert s.procesos == map[1 := Terminado(Simple(PAGO_DE_PRUEBA, Some(0)), EnCola)];
    s := Ejecutar(s, Anotar(1, true));
    UnPasoDeLaCorrida(9);
    assert CORRIDA_QUE_DUPLICA[..10] == CORRIDA_QUE_DUPLICA;
  }

  /** In that run, whose only request is its first step and whose claim finds the shift open, one command ends
      as two waiting rows, and both are rows of one intent. */
  lemma LaColaPuedeDuplicar()
    ensures var pasos := CORRIDA_QUE_DUPLICA;
            && (forall k :: 0 <= k < |pasos| ==>
                  && (pasos[k].RecibirPago? <==> k == 0) && (pasos[k].Reclamar? <==> k == 5)
                  && !pasos[k].RecibirCombinado?)
            && TurnoAbierto(Correr(INICIAL, pasos[..5]).caja.turnos, "s") == Some(0)
            && Correr(INICIAL, pasos).caja.pendientes == [FILA_DE_PRUEBA, FILA_DE_PRUEBA]
            && DosFilasDeUna(Intenciones(pasos))
  {
    var abierta := HastaLaApertura();
    var antes := HastaElSegundoTurno();
    assert DuplicaEn(CORRIDA_QUE_DUPLICA, 8);
    DosFilasDeUnaIntencionSii(CORRIDA_QUE_DUPLICA);
    var final := HastaElFinal();
  }
}
