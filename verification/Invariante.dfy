/** The invariant of the machine, kept by every step, and the theorems it gives about whole runs. */
module Invariante {
  import opened Comun
  import opened Tablas
  import opened Cobros
  import opened Saldos
  import opened Turnos
  import opened Proyeccion
  import opened Protocolo
  import opened CajasSanas
  import opened Filas

  ghost predicate ListaSana(txs: seq<Transaccion>, lista: seq<(CuentaId, int)>)
  {
    forall k :: 0 <= k < |lista| ==> TienePagos(txs, lista[k].0) && lista[k].1 == DescuentoCobrado(txs, lista[k].0)
  }

  /** What a process remembers is still true of the tables, however old. */
  ghost predicate ProcesoSano(c: Caja, pr: Proceso)
  {
    match pr
    case Pidiendo(o, _) => OrdenSana(o)
    case ConCuenta(o, _) => OrdenSana(o)
    case ConTurno(o, _, t) => OrdenSana(o) && t < |c.turnos|
    case Comprometido(o, tx, _, _) => tx < |c.transacciones|
    case Terminado(o, _) => true
    case CronVentana(_, ids) => forall x :: x in ids ==> TienePagos(c.transacciones, x)
    case CronAgregado(_, agregados) => AgregadosDeAntes(c.transacciones, agregados)
    case CronLista(lista) => ListaSana(c.transacciones, lista)
  }

  ghost predicate ProcesosSanos(c: Caja, procesos: map<nat, Proceso>)
  {
    forall p :: p in procesos ==> ProcesoSano(c, procesos[p])
  }

  ghost predicate Inv(s: Sistema)
  {
    && CajaSana(s.caja, s.totales, s.reabiertas)
    && ProcesosSanos(s.caja, s.procesos)
    && FilasEnOrden(s.caja.transacciones, s.caja.pendientes, s.procesos, s.origen, s.malEscritas)
  }

  lemma SanoAlCrecer(c: Caja, otra: Caja, pr: Proceso)
    requires ProcesoSano(c, pr) && UnDescuentoPorCuenta(c.transacciones)
    requires HistoriaCrece(c.transacciones, otra.transacciones) && |c.turnos| <= |otra.turnos|
    ensures ProcesoSano(otra, pr)
  {
    match pr {
      case CronVentana(_, ids) =>
        forall x | x in ids ensures TienePagos(otra.transacciones, x) {
          AlCrecer(c.transacciones, otra.transacciones, x);
        }
      case CronAgregado(_, agregados) =>
        forall x | x in agregados
          ensures TienePagos(otra.transacciones, x) && agregados[x].pagado <= Pagado(otra.transacciones, x)
          ensures agregados[x].descuento == DescuentoCobrado(otra.transacciones, x)
        {
          AlCrecer(c.transacciones, otra.transacciones, x);
        }
      case CronLista(lista) =>
        forall k | 0 <= k < |lista|
          ensures TienePagos(otra.transacciones, lista[k].0)
                  && lista[k].1 == DescuentoCobrado(otra.transacciones, lista[k].0)
        {
          AlCrecer(c.transacciones, otra.transacciones, lista[k].0);
        }
      case _ =>
    }
  }

  lemma SanosAlCrecer(c: Caja, otra: Caja, procesos: map<nat, Proceso>)
    requires ProcesosSanos(c, procesos) && UnDescuentoPorCuenta(c.transacciones)
    requires HistoriaCrece(c.transacciones, otra.transacciones) && |c.turnos| <= |otra.turnos|
    ensures ProcesosSanos(otra, procesos)
  {
    forall p | p in procesos ensures ProcesoSano(otra, procesos[p]) { SanoAlCrecer(c, otra, procesos[p]); }
  }

  lemma SimpleEsSana(comando: ComandoPago, fila: Option<nat>)
    ensures OrdenSana(Simple(comando, fila))
  {
  }

  lemma CombinadoEsSano(comando: ComandoCombinado)
    requires RechazoPrevio(comando).None?
    ensures OrdenSana(Combinado(comando))
  {
    var partes := PartesCombinadas(comando);
    forall i | 0 <= i < |partes| ensures partes[i].monto > 0 && partes[i].propina >= 0 {
      assert partes[i] == ParteDeTramo(comando, i);
      assert !SinSigno(comando.pagos[i]) && !ConFinos(comando.pagos[i]);
    }
  }

  lemma InvAlEncolar(s: Sistema, p: nat)
    requires Inv(s) && p in s.procesos && s.procesos[p].ConCuenta? && s.procesos[p].orden.Simple?
    ensures var pr := s.procesos[p];
            Inv(s.(caja := Encolar(s.caja, pr.remota.sede, pr.orden.comando),
                   procesos := s.procesos[p := Terminado(pr.orden, EnCola)]))
  {
    var pr := s.procesos[p];
    var procesos := s.procesos[p := Terminado(pr.orden, EnCola)];
    FilasAlAvanzar(s.caja.transacciones, s.caja.pendientes, s.procesos, s.origen, s.malEscritas, p, procesos[p]);
    FilasAlEncolar(s.caja.transacciones, s.caja.pendientes, procesos, s.origen, s.malEscritas,
                   PagoPendiente(pr.remota.sede, pr.orden.comando, PENDIENTE, None));
    SanosAlCrecer(s.caja, Encolar(s.caja, pr.remota.sede, pr.orden.comando), s.procesos);
  }

  lemma InvAlBuscarTurno(s: Sistema, p: nat)
    requires Inv(s) && p in s.procesos && s.procesos[p].ConCuenta?
    ensures Inv(PasoBuscarTurno(s, p))
  {
    var pr, r := s.procesos[p], PasoBuscarTurno(s, p);
    assert ProcesoSano(s.caja, pr);
    if r.caja != s.caja {
      InvAlEncolar(s, p);
    } else {
      TurnoAbiertoEsAbierto(s.caja.turnos, pr.remota.sede);
      InvAlAvanzar(s, r, p, r.procesos[p]);
    }
  }

  lemma CobroDelBloque(c: Caja, ctx: Contexto, o: Orden)
    requires OrdenSana(o) && CobroTx(c, ctx, o).Success?
    requires ctx.cuenta == CuentaDe(o) && ctx.descuento == DescuentoDe(o)
    ensures var txs := CobroTx(c, ctx, o).value.caja.transacciones;
            && |txs| == |c.transacciones| + |PartesDe(o)|
            && (o.Simple? ==>
                  && |PartesDe(o)| == 1
                  && txs[|c.transacciones|].cuenta == o.comando.cuenta
                  && txs[|c.transacciones|].monto == o.comando.monto
                  && txs[|c.transacciones|].descuento == o.comando.descuento.GetOr(0))
  {
    CobroEsCombinado(c, ctx, o);
    TramosAgregan(c.(cuentas := Proyectar(c.cuentas, ctx)), ctx, Pagado(c.transacciones, ctx.cuenta) == 0,
                  PendienteAntes(c.transacciones, ctx), PartesDe(o));
  }

  /** What an accepted command leaves behind. */
  lemma TrasAceptar(s: Sistema, p: nat, r: Caja)
    requires Inv(s) && p in s.procesos && s.procesos[p].ConTurno?
    requires var cobro := CobroTx(s.caja, ContextoDe(s.procesos[p], s.reloj), s.procesos[p].orden);
             cobro.Success? && r == cobro.value.caja
    ensures var pr := s.procesos[p];
            var n, m := |s.caja.transacciones|, |PartesDe(pr.orden)|;
            && OrdenSana(pr.orden)
            && CajaSana(r, s.totales + Repetir(pr.remota.total, m), s.reabiertas - {CuentaDe(pr.orden)})
            && HistoriaCrece(s.caja.transacciones, r.transacciones)
            && r.turnos == s.caja.turnos && r.pendientes == s.caja.pendientes
            && |r.transacciones| == n + m
            && (pr.orden.Simple? ==>
                  && m == 1 && r.transacciones[n].cuenta == pr.orden.comando.cuenta
                  && r.transacciones[n].monto == pr.orden.comando.monto
                  && r.transacciones[n].descuento == pr.orden.comando.descuento.GetOr(0))
  {
    var pr := s.procesos[p];
    var ctx := ContextoDe(pr, s.reloj);
    assert ProcesoSano(s.caja, pr);
    CajaAlCobrar(s.caja, s.totales, s.reabiertas, ctx, pr.orden);
    CobroDelBloque(s.caja, ctx, pr.orden);
  }

  /** The machine's bookkeeping of an accepted command. */
  lemma InvAlComprometer(s: Sistema, r: Sistema, p: nat, nuevo: Proceso, m: nat)
    requires Inv(s) && CajaSana(r.caja, r.totales, r.reabiertas) && p in s.procesos && s.procesos[p].ConTurno?
    requires HistoriaCrece(s.caja.transacciones, r.caja.transacciones)
    requires |r.caja.transacciones| == |s.caja.transacciones| + m && m > 0
    requires r.caja.turnos == s.caja.turnos && r.caja.pendientes == s.caja.pendientes && r.malEscritas == s.malEscritas
    requires nuevo.Comprometido? && nuevo.orden == s.procesos[p].orden && nuevo.tx == |s.caja.transacciones| + m - 1
    requires r.procesos == s.procesos[p := nuevo] && r.origen == s.origen + Repetir(FilaDe(nuevo.orden), m)
    requires nuevo.orden.Simple? ==>
               && m == 1 && r.caja.transacciones[nuevo.tx].cuenta == nuevo.orden.comando.cuenta
               && r.caja.transacciones[nuevo.tx].monto == nuevo.orden.comando.monto
               && r.caja.transacciones[nuevo.tx].descuento == nuevo.orden.comando.descuento.GetOr(0)
    ensures Inv(r)
  {
    SanosAlCrecer(s.caja, r.caja, s.procesos);
    FilasAlCobrar(s.caja.transacciones, r.caja.transacciones, s.caja.pendientes, s.procesos, s.origen, s.malEscritas,
                  p, nuevo, m);
  }

  lemma InvAlAceptar(s: Sistema, p: nat)
    requires Inv(s) && p in s.procesos && s.procesos[p].ConTurno?
    requires CobroTx(s.caja, ContextoDe(s.procesos[p], s.reloj), s.procesos[p].orden).Success?
    ensures Inv(PasoCobrar(s, p))
  {
    var r := PasoCobrar(s, p);
    TrasAceptar(s, p, r.caja);
    InvAlComprometer(s, r, p, r.procesos[p], |PartesDe(s.procesos[p].orden)|);
  }

  lemma InvAlCobrar(s: Sistema, p: nat)
    requires Inv(s) && p in s.procesos && s.procesos[p].ConTurno?
    ensures Inv(PasoCobrar(s, p))
  {
    var pr := s.procesos[p];
    if CobroTx(s.caja, ContextoDe(pr, s.reloj), pr.orden).Failure? {
      var r := PasoCobrar(s, p);
      FilasAlAvanzar(s.caja.transacciones, s.caja.pendientes, s.procesos, s.origen, s.malEscritas, p, r.procesos[p]);
    } else {
      InvAlAceptar(s, p);
    }
  }

  lemma InvAlAnotar(s: Sistema, p: nat, ok: bool)
    requires Inv(s) && p in s.procesos && s.procesos[p].Terminado?
    ensures Inv(PasoAnotar(s, p, ok))
  {
    var r := PasoAnotar(s, p, ok);
    SanosAlCrecer(s.caja, r.caja, s.procesos);
    if FilaDe(s.procesos[p].orden).Some? {
      FilasAlAnotar(s.caja.transacciones, s.caja.pendientes, s.procesos, s.origen, s.malEscritas, p, ok);
    } else {
      FilasAlMorir(s.caja.transacciones, s.caja.pendientes, s.procesos, s.origen, s.malEscritas, p);
    }
  }

  lemma InvAlReclamar(s: Sistema, p: nat, f: nat)
    requires Inv(s)
    ensures Inv(PasoReclamar(s, p, f))
  {
    var r := PasoReclamar(s, p, f);
    if r != s {
      FilasAlReclamar(s.caja.transacciones, s.caja.pendientes, s.procesos, s.origen, s.malEscritas, p, f,
                      Some(s.caja.pendientes[f].sede));
      SanosAlCrecer(s.caja, r.caja, s.procesos);
      SimpleEsSana(s.caja.pendientes[f].comando, Some(f));
    }
  }

  lemma InvAlCorregir(s: Sistema, i: nat, metodo: Option<Metodo>, notas: Option<Nota>)
    requires Inv(s) && i < |s.caja.transacciones|
    ensures Inv(PasoCorregir(s, i, metodo, notas))
  {
    var r := PasoCorregir(s, i, metodo, notas);
    CajaAlCorregir(s.caja, s.totales, s.reabiertas, i, metodo, notas);
    SanosAlCrecer(s.caja, r.caja, s.procesos);
    FilasAlCorregir(s.caja.transacciones, r.caja.transacciones, s.caja.pendientes, s.procesos, s.origen, s.malEscritas);
  }

  /** Steps that touch only shifts, movements or the projection. */
  lemma InvSinFilas(s: Sistema, r: Sistema)
    requires Inv(s) && CajaSana(r.caja, r.totales, r.reabiertas)
    requires r.procesos == s.procesos && r.origen == s.origen && r.malEscritas == s.malEscritas
    requires r.caja.transacciones == s.caja.transacciones && r.caja.pendientes == s.caja.pendientes
    requires |s.caja.turnos| <= |r.caja.turnos|
    ensures Inv(r)
  {
    SanosAlCrecer(s.caja, r.caja, s.procesos);
  }

  lemma InvAlAbrir(s: Sistema, sede: SedeId, fondo: int)
    requires Inv(s)
    ensures Inv(Ejecutar(s, Abrir(sede, fondo)))
  {
    if AperturaTx(s.caja, sede, fondo).Some? {
      CajaAlAbrir(s.caja, s.totales, s.reabiertas, sede, fondo);
      InvSinFilas(s, Ejecutar(s, Abrir(sede, fondo)));
    }
  }

  lemma InvAlCerrar(s: Sistema, t: nat, contado: int)
    requires Inv(s)
    ensures Inv(Ejecutar(s, Cerrar(t, contado)))
  {
    if CierreTx(s.caja, t, contado).Success? {
      CajaAlCerrar(s.caja, s.totales, s.reabiertas, t, contado);
      InvSinFilas(s, Ejecutar(s, Cerrar(t, contado)));
    }
  }

  lemma InvAlMover(s: Sistema, t: nat, tipo: TipoMovimiento, monto: int, motivo: Nota)
    requires Inv(s)
    ensures Inv(Ejecutar(s, Mover(t, tipo, monto, motivo)))
  {
    if t < |s.caja.turnos| && tipo != VENTA && tipo != APERTURA {
      CajaAlMover(s.caja, s.totales, s.reabiertas, MovimientoManual(t, tipo, monto, motivo));
      InvSinFilas(s, Ejecutar(s, Mover(t, tipo, monto, motivo)));
    }
  }

  lemma InvAlLlegar(s: Sistema, paso: Paso)
    requires Inv(s) && (paso.LlegaAbierta? || paso.LlegaCerrada?)
    ensures Inv(Ejecutar(s, paso))
  {
    var r := Ejecutar(s, paso);
    CajaAlProyectar(s.caja, s.totales, s.reabiertas, r.caja.cuentas, r.reabiertas);
    InvSinFilas(s, r);
  }

  lemma ListaAlFiltrar(c: Caja, pr: Proceso, orden: seq<CuentaId>)
    requires pr.CronAgregado? && AgregadosDeAntes(c.transacciones, pr.agregados)
    ensures ListaSana(c.transacciones, TrasFiltrar(c, pr, orden).lista)
  {
    var ids := Primeras(Filtrar(orden, c.cuentas, pr.agregados, pr.corte), LIMITE_POR_TICK);
    forall k | 0 <= k < |ids|
      ensures ids[k] in pr.agregados
    {
      assert ids[k] in Filtrar(orden, c.cuentas, pr.agregados, pr.corte);
      FiltradasSonElegibles(orden, c.cuentas, pr.agregados, pr.corte, ids[k]);
    }
  }

  /** A process without a row or a new Transaccion moves on; at most the projection changes with it. */
  lemma InvAlAvanzar(s: Sistema, r: Sistema, p: nat, nuevo: Proceso)
    requires Inv(s) && CajaSana(r.caja, r.totales, r.reabiertas)
    requires r.caja.transacciones == s.caja.transacciones && r.caja.pendientes == s.caja.pendientes
    requires r.caja.turnos == s.caja.turnos
    requires r.origen == s.origen && r.malEscritas == s.malEscritas && r.procesos == s.procesos[p := nuevo]
    requires ProcesoSano(r.caja, nuevo)
    requires if p in s.procesos then Duenio(nuevo) == Duenio(s.procesos[p]) && TxDe(nuevo) == TxDe(s.procesos[p])
                                     && (Duenio(nuevo).Some? ==> nuevo.orden == s.procesos[p].orden)
             else Duenio(nuevo).None?
    ensures Inv(r)
  {
    SanosAlCrecer(s.caja, r.caja, s.procesos);
    FilasAlAvanzar(s.caja.transacciones, s.caja.pendientes, s.procesos, s.origen, s.malEscritas, p, nuevo);
  }

  lemma InvAlMirar(s: Sistema, p: nat)
    requires Inv(s)
    ensures Inv(Ejecutar(s, CronMirar(p)))
  {
    if p !in s.procesos {
      CandidatasTienenPagos(s.caja.transacciones, s.reloj - UMBRAL);
      var r := Ejecutar(s, CronMirar(p));
      InvAlAvanzar(s, r, p, r.procesos[p]);
    }
  }

  lemma InvAlAgrupar(s: Sistema, p: nat)
    requires Inv(s)
    ensures Inv(Ejecutar(s, CronAgrupar(p)))
  {
    if p in s.procesos && s.procesos[p].CronVentana? {
      assert ProcesoSano(s.caja, s.procesos[p]);
      AgregadosAlLeer(s.caja.transacciones, s.procesos[p].ids);
      var r := Ejecutar(s, CronAgrupar(p));
      InvAlAvanzar(s, r, p, r.procesos[p]);
    }
  }

  lemma InvAlFiltrar(s: Sistema, p: nat, orden: seq<CuentaId>)
    requires Inv(s)
    ensures Inv(Ejecutar(s, CronFiltrar(p, orden)))
  {
    if p in s.procesos && s.procesos[p].CronAgregado? {
      assert ProcesoSano(s.caja, s.procesos[p]);
      ListaAlFiltrar(s.caja, s.procesos[p], orden);
      var r := Ejecutar(s, CronFiltrar(p, orden));
      InvAlAvanzar(s, r, p, r.procesos[p]);
    }
  }

  lemma InvAlCronCerrar(s: Sistema, p: nat, ok: bool)
    requires Inv(s) && p in s.procesos && s.procesos[p].CronLista?
    ensures Inv(PasoCronCerrar(s, p, ok))
  {
    var r := PasoCronCerrar(s, p, ok);
    assert ProcesoSano(s.caja, s.procesos[p]);
    if |s.procesos[p].lista| == 0 {
      FilasAlMorir(s.caja.transacciones, s.caja.pendientes, s.procesos, s.origen, s.malEscritas, p);
    } else {
      CajaAlProyectar(s.caja, s.totales, s.reabiertas, r.caja.cuentas, s.reabiertas);
      InvAlAvanzar(s, r, p, r.procesos[p]);
    }
  }

  lemma InvAlCerrarCuenta(s: Sistema, p: nat, ok: bool)
    requires Inv(s) && p in s.procesos && s.procesos[p].Comprometido?
    ensures Inv(PasoCerrarCuenta(s, p, ok))
  {
    assert ProcesoSano(s.caja, s.procesos[p]);
    var r := PasoCerrarCuenta(s, p, ok);
    CajaAlProyectar(s.caja, s.totales, s.reabiertas, r.caja.cuentas, s.reabiertas);
    InvAlAvanzar(s, r, p, r.procesos[p]);
  }

  lemma InvAlRecibir(s: Sistema, paso: Paso)
    requires Inv(s) && (paso.RecibirPago? || paso.RecibirCombinado? || paso.LeerCuenta?)
    ensures Inv(Ejecutar(s, paso))
  {
    var r, p := Ejecutar(s, paso), paso.p;
    if r != s {
      assert p in s.procesos ==> ProcesoSano(s.caja, s.procesos[p]);
      if paso.RecibirCombinado? { CombinadoEsSano(paso.combinado); }
      InvAlAvanzar(s, r, p, r.procesos[p]);
    }
  }

  lemma InvAlMorir(s: Sistema, p: nat)
    requires Inv(s)
    ensures Inv(Ejecutar(s, Morir(p)))
  {
    FilasAlMorir(s.caja.transacciones, s.caja.pendientes, s.procesos, s.origen, s.malEscritas, p);
  }

  predicate EsDePago(paso: Paso)
  {
    paso.RecibirPago? || paso.RecibirCombinado? || paso.LeerCuenta? || paso.BuscarTurno? || paso.Cobrar?
    || paso.CerrarCuenta? || paso.Reclamar? || paso.Anotar? || paso.Morir?
  }

  lemma InvAlPagar(s: Sistema, paso: Paso)
    requires Inv(s) && EsDePago(paso)
    ensures Inv(Ejecutar(s, paso))
  {
    match paso {
      case Morir(p) => InvAlMorir(s, p);
      case Reclamar(p, f) => InvAlReclamar(s, p, f);
      case BuscarTurno(p) => if p in s.procesos && s.procesos[p].ConCuenta? { InvAlBuscarTurno(s, p); }
      case Cobrar(p) => if p in s.procesos && s.procesos[p].ConTurno? { InvAlCobrar(s, p); }
      case CerrarCuenta(p, ok) => if p in s.procesos && s.procesos[p].Comprometido? { InvAlCerrarCuenta(s, p, ok); }
      case Anotar(p, ok) => if p in s.procesos && s.procesos[p].Terminado? { InvAlAnotar(s, p, ok); }
      case _ => InvAlRecibir(s, paso);
    }
  }

  lemma InvAlReparar(s: Sistema, paso: Paso)
    requires Inv(s) && (paso.CronMirar? || paso.CronAgrupar? || paso.CronFiltrar? || paso.CronCerrar?)
    ensures Inv(Ejecutar(s, paso))
  {
    match paso {
      case CronMirar(p) => InvAlMirar(s, p);
      case CronAgrupar(p) => InvAlAgrupar(s, p);
      case CronFiltrar(p, orden) => InvAlFiltrar(s, p, orden);
      case CronCerrar(p, ok) => if p in s.procesos && s.procesos[p].CronLista? { InvAlCronCerrar(s, p, ok); }
    }
  }

  lemma InvAlEjecutar(s: Sistema, paso: Paso)
    requires Inv(s)
    ensures Inv(Ejecutar(s, paso))
  {
    if EsDePago(paso) {
      InvAlPagar(s, paso);
    } else {
      match paso {
        case Corregir(i, metodo, notas) => if i < |s.caja.transacciones| { InvAlCorregir(s, i, metodo, notas); }
        case PasaTiempo(_) =>
        case LlegaAbierta(_, _) => InvAlLlegar(s, paso);
        case LlegaCerrada(_, _, _) => InvAlLlegar(s, paso);
        case Abrir(sede, fondo) => InvAlAbrir(s, sede, fondo);
        case Cerrar(t, contado) => InvAlCerrar(s, t, contado);
        case Mover(t, tipo, monto, motivo) => InvAlMover(s, t, tipo, monto, motivo);
        case _ => InvAlReparar(s, paso);
      }
    }
  }

  lemma InvInicial()
    ensures Inv(INICIAL)
  {
  }

  lemma {:induction false} InvEnTodaCorrida(pasos: seq<Paso>)
    ensures Inv(Correr(INICIAL, pasos))
  {
    if |pasos| == 0 {
      InvInicial();
    } else {
      InvEnTodaCorrida(pasos[..|pasos| - 1]);
      InvAlEjecutar(Correr(INICIAL, pasos[..|pasos| - 1]), pasos[|pasos| - 1]);
    }
  }

  /** Some run from the empty desk ends here. */
  ghost predicate Alcanzable(s: Sistema)
  {
    exists pasos :: Correr(INICIAL, pasos) == s
  }

  lemma LoAlcanzableEsSano(s: Sistema)
    requires Alcanzable(s)
    ensures Inv(s)
  {
    var pasos :| Correr(INICIAL, pasos) == s;
    InvEnTodaCorrida(pasos);
  }

  lemma InicialEsAlcanzable()
    ensures Alcanzable(INICIAL)
  {
    assert Correr(INICIAL, []) == INICIAL;
  }

  lemma AlcanzableUnPasoMas(s: Sistema, paso: Paso)
    requires Alcanzable(s)
    ensures Alcanzable(Ejecutar(s, paso))
  {
    var pasos :| Correr(INICIAL, pasos) == s;
    assert (pasos + [paso])[..|pasos|] == pasos;
    assert Correr(INICIAL, pasos + [paso]) == Ejecutar(s, paso);
  }
}
