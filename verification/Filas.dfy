/**
 The queue of payments taken while the desk was closed: who owns a row, and which Transaccion came
 from it.
 */
module Filas {
  import opened Comun
  import opened Tablas
  import opened Saldos
  import opened Protocolo

  /** The queue row a process is working on. */
  function Duenio(pr: Proceso): Option<nat>
  {
    match pr
    case Pidiendo(o, _) => FilaDe(o)
    case ConCuenta(o, _) => FilaDe(o)
    case ConTurno(o, _, _) => FilaDe(o)
    case Comprometido(o, _, _, _) => FilaDe(o)
    case Terminado(o, _) => FilaDe(o)
    case _ => None
  }

  /** The Transaccion it has already committed. */
  function TxDe(pr: Proceso): Option<nat>
  {
    match pr
    case Comprometido(_, tx, _, _) => Some(tx)
    case Terminado(_, ConTransaccion(tx)) => Some(tx)
    case _ => None
  }

  /** What a row's state says about the transacciones that came from it. */
  ghost predicate FilaBien(fila: PagoPendiente, f: nat, origen: seq<Option<nat>>, mal: set<nat>)
  {
    match fila.estado
    case PENDIENTE => Some(f) !in origen && f !in mal && fila.transaccion.None?
    case PROCESANDO => f !in mal && fila.transaccion.None?
    case PROCESADO =>
      && f !in mal && fila.transaccion.Some?
      && fila.transaccion.value < |origen| && origen[fila.transaccion.value] == Some(f)
    case FALLIDO => (Some(f) in origen <==> f in mal) && fila.transaccion.None?
  }

  /** A process that owns a row holds its command, and committed a Transaccion iff its phase says so. */
  ghost predicate DuenioBien(pr: Proceso, pendientes: seq<PagoPendiente>, origen: seq<Option<nat>>)
  {
    Duenio(pr).Some? ==>
      var f := Duenio(pr).value;
      && f < |pendientes| && pendientes[f].estado == PROCESANDO
      && pr.orden.comando == pendientes[f].comando
      && (match TxDe(pr)
          case Some(i) => i < |origen| && origen[i] == Some(f)
          case None => Some(f) !in origen)
  }

  /** Transaccion i was charged as the row it came from said. */
  ghost predicate OrigenBien(t: Transaccion, o: Option<nat>, pendientes: seq<PagoPendiente>)
  {
    o.Some? ==>
      && o.value < |pendientes|
      && t.cuenta == pendientes[o.value].comando.cuenta && t.monto == pendientes[o.value].comando.monto
      && t.descuento == pendientes[o.value].comando.descuento.GetOr(0)
  }

  ghost predicate SinRepetir(origen: seq<Option<nat>>)
  {
    forall i, j :: 0 <= i < j < |origen| && origen[i].Some? ==> origen[i] != origen[j]
  }

  ghost predicate UnDuenioPorFila(procesos: map<nat, Proceso>)
  {
    forall p, q :: p in procesos && q in procesos && p != q && Duenio(procesos[p]).Some? ==>
      Duenio(procesos[p]) != Duenio(procesos[q])
  }

  ghost predicate FilasEnOrden(txs: seq<Transaccion>, pendientes: seq<PagoPendiente>, procesos: map<nat, Proceso>,
                               origen: seq<Option<nat>>, mal: set<nat>)
  {
    && |origen| == |txs|
    && SinRepetir(origen)
    && (forall i :: 0 <= i < |txs| ==> OrigenBien(txs[i], origen[i], pendientes))
    && (forall f :: 0 <= f < |pendientes| ==> FilaBien(pendientes[f], f, origen, mal))
    && UnDuenioPorFila(procesos)
    && (forall p :: p in procesos ==> DuenioBien(procesos[p], pendientes, origen))
    && (forall f :: f in mal ==> f < |pendientes|)
  }

  /** A process moves on without committing anything and keeps its row. */
  lemma FilasAlAvanzar(txs: seq<Transaccion>, pendientes: seq<PagoPendiente>, procesos: map<nat, Proceso>,
                       origen: seq<Option<nat>>, mal: set<nat>, p: nat, nuevo: Proceso)
    requires FilasEnOrden(txs, pendientes, procesos, origen, mal)
    requires if p in procesos then Duenio(nuevo) == Duenio(procesos[p]) && TxDe(nuevo) == TxDe(procesos[p])
                                   && (Duenio(nuevo).Some? ==> nuevo.orden == procesos[p].orden)
             else Duenio(nuevo).None?
    ensures FilasEnOrden(txs, pendientes, procesos[p := nuevo], origen, mal)
  {
    assert p in procesos ==> DuenioBien(procesos[p], pendientes, origen);
  }

  lemma FilasAlMorir(txs: seq<Transaccion>, pendientes: seq<PagoPendiente>, procesos: map<nat, Proceso>,
                     origen: seq<Option<nat>>, mal: set<nat>, p: nat)
    requires FilasEnOrden(txs, pendientes, procesos, origen, mal)
    ensures FilasEnOrden(txs, pendientes, procesos - {p}, origen, mal)
  {
  }

  lemma FilasAlReclamar(txs: seq<Transaccion>, pendientes: seq<PagoPendiente>, procesos: map<nat, Proceso>,
                        origen: seq<Option<nat>>, mal: set<nat>, p: nat, f: nat, sede: Option<SedeId>)
    requires FilasEnOrden(txs, pendientes, procesos, origen, mal)
    requires p !in procesos && f < |pendientes| && pendientes[f].estado == PENDIENTE
    ensures FilasEnOrden(txs, pendientes[f := pendientes[f].(estado := PROCESANDO)],
                         procesos[p := Pidiendo(Simple(pendientes[f].comando, Some(f)), sede)], origen, mal)
  {
    assert FilaBien(pendientes[f], f, origen, mal);
    var otras := pendientes[f := pendientes[f].(estado := PROCESANDO)];
    forall q | q in procesos ensures DuenioBien(procesos[q], otras, origen) && Duenio(procesos[q]) != Some(f) {
      assert DuenioBien(procesos[q], pendientes, origen);
    }
    forall i | 0 <= i < |txs| ensures OrigenBien(txs[i], origen[i], otras) {
      assert OrigenBien(txs[i], origen[i], pendientes);
    }
  }

  lemma FilasAlEncolar(txs: seq<Transaccion>, pendientes: seq<PagoPendiente>, procesos: map<nat, Proceso>,
                       origen: seq<Option<nat>>, mal: set<nat>, fila: PagoPendiente)
    requires FilasEnOrden(txs, pendientes, procesos, origen, mal)
    requires fila.estado == PENDIENTE && fila.transaccion.None?
    ensures FilasEnOrden(txs, pendientes + [fila], procesos, origen, mal)
  {
    var n := |pendientes|;
    forall i | 0 <= i < |txs| ensures OrigenBien(txs[i], origen[i], pendientes + [fila]) && origen[i] != Some(n) {
      assert OrigenBien(txs[i], origen[i], pendientes);
    }
    forall q | q in procesos ensures DuenioBien(procesos[q], pendientes + [fila], origen) {
      assert DuenioBien(procesos[q], pendientes, origen);
    }
  }

  /** Writing the final state of a row its process is done with. */
  lemma FilasAlAnotar(txs: seq<Transaccion>, pendientes: seq<PagoPendiente>, procesos: map<nat, Proceso>,
                      origen: seq<Option<nat>>, mal: set<nat>, p: nat, ok: bool)
    requires FilasEnOrden(txs, pendientes, procesos, origen, mal)
    requires p in procesos && procesos[p].Terminado? && Duenio(procesos[p]).Some?
    ensures var f := Duenio(procesos[p]).value;
            && f < |pendientes|
            && FilasEnOrden(txs, pendientes[f := FilaAnotada(pendientes[f], procesos[p].fin, ok)], procesos - {p},
                            origen, if procesos[p].fin.ConTransaccion? && !ok then mal + {f} else mal)
  {
    var f := Duenio(procesos[p]).value;
    assert DuenioBien(procesos[p], pendientes, origen);
    assert FilaBien(pendientes[f], f, origen, mal);
    var otras := pendientes[f := FilaAnotada(pendientes[f], procesos[p].fin, ok)];
    forall i | 0 <= i < |txs| ensures OrigenBien(txs[i], origen[i], otras) {
      assert OrigenBien(txs[i], origen[i], pendientes);
    }
    forall q | q in procesos - {p} ensures DuenioBien(procesos[q], otras, origen) {
      assert DuenioBien(procesos[q], pendientes, origen);
    }
  }

  lemma SinRepetirAgrega(origen: seq<Option<nat>>, o: Option<nat>, n: nat)
    requires SinRepetir(origen) && (o.Some? ==> n <= 1 && o !in origen)
    ensures SinRepetir(origen + Repetir(o, n))
  {
  }

  /** The commit: n new transacciones, all of the process's row when it has one. */
  lemma FilasAlCobrar(txs: seq<Transaccion>, otras: seq<Transaccion>, pendientes: seq<PagoPendiente>,
                      procesos: map<nat, Proceso>, origen: seq<Option<nat>>, mal: set<nat>, p: nat, nuevo: Proceso,
                        n: nat)
    requires FilasEnOrden(txs, pendientes, procesos, origen, mal)
    requires p in procesos && Duenio(nuevo) == Duenio(procesos[p]) && TxDe(procesos[p]).None?
    requires |otras| == |txs| + n && n > 0
    requires forall i :: 0 <= i < |txs| ==>
               otras[i].cuenta == txs[i].cuenta && otras[i].monto == txs[i].monto
                 && otras[i].descuento == txs[i].descuento
    requires Duenio(nuevo).Some? ==>
               && n == 1 && TxDe(nuevo) == Some(|txs|) && nuevo.orden == procesos[p].orden
               && otras[|txs|].cuenta == nuevo.orden.comando.cuenta && otras[|txs|].monto == nuevo.orden.comando.monto
               && otras[|txs|].descuento == nuevo.orden.comando.descuento.GetOr(0)
    ensures FilasEnOrden(otras, pendientes, procesos[p := nuevo], origen + Repetir(Duenio(nuevo), n), mal)
  {
    var o := Duenio(nuevo);
    var nuevos := origen + Repetir(o, n);
    assert DuenioBien(procesos[p], pendientes, origen);
    SinRepetirAgrega(origen, o, n);
    forall i | 0 <= i < |otras| ensures OrigenBien(otras[i], nuevos[i], pendientes) {
      if i < |txs| { assert OrigenBien(txs[i], origen[i], pendientes); }
    }
    forall x: nat | Some(x) in nuevos ensures Some(x) in origen || o == Some(x) {}
    forall x: nat | Some(x) in origen ensures Some(x) in nuevos {}
    forall f | 0 <= f < |pendientes| ensures FilaBien(pendientes[f], f, nuevos, mal) {
      assert FilaBien(pendientes[f], f, origen, mal);
    }
    forall q | q in procesos && q != p ensures DuenioBien(procesos[q], pendientes, nuevos) {
      assert DuenioBien(procesos[q], pendientes, origen);
    }
  }

  lemma FilasAlCorregir(txs: seq<Transaccion>, otras: seq<Transaccion>, pendientes: seq<PagoPendiente>,
                        procesos: map<nat, Proceso>, origen: seq<Option<nat>>, mal: set<nat>)
    requires FilasEnOrden(txs, pendientes, procesos, origen, mal) && |otras| == |txs|
    requires forall i :: 0 <= i < |txs| ==>
               otras[i].cuenta == txs[i].cuenta && otras[i].monto == txs[i].monto
                 && otras[i].descuento == txs[i].descuento
    ensures FilasEnOrden(otras, pendientes, procesos, origen, mal)
  {
    forall i | 0 <= i < |txs| ensures OrigenBien(otras[i], origen[i], pendientes) {
      assert OrigenBien(txs[i], origen[i], pendientes);
    }
  }
}
