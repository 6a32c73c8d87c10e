/**
 The print agent's loop over a network and a printer that may fail at any moment, and what its trace
 always looks like. `Mundo` fixes every answer and the moment the stop signal arrives; since that moment
 is arbitrary, each finite stretch of a run is some run of the model.
 */
module AgenteImpresion {

  /** The answer to /next: a leased job, none, or a failed query. */
  datatype Siguiente = Trabajo(lease: nat) | Nada | ConsultaFallida

  /** The answer to an ack: accepted, HTTP 409, or any other failure. */
  datatype Acuse = Aceptado | Conflicto | SinAcuse

  datatype Suceso =
    | Pedido(respuesta: Siguiente)
    | Impreso(lease: nat, ok: bool)
    | Ack(lease: nat, ok: bool, r: Acuse)
    | Pausa

  /** The world at its k-th interaction; from the `parada`-th on, `stopped` is true. */
  datatype Mundo = Mundo(siguiente: nat -> Siguiente, imprime: nat -> bool, acuse: nat -> Acuse, parada: nat)

  /** Where the agent is after a trace: about to ask, about to pause before asking again, with a job to
      print, with a result to acknowledge, pausing after an ack that failed, or off the protocol. */
  datatype Fase =
    | Libre
    | Descanso
    | PorImprimir(lease: nat)
    | PorAnotar(lease: nat, ok: bool)
    | Espera(lease: nat, ok: bool)
    | Roto

  function Avanzar(f: Fase, s: Suceso): Fase
  {
    match (f, s)
    case (Libre, Pedido(Trabajo(j))) => PorImprimir(j)
    case (Libre, Pedido(_)) => Descanso
    case (Descanso, Pausa) => Libre
    case (PorImprimir(j), Impreso(i, ok)) => if i == j then PorAnotar(j, ok) else Roto
    case (PorAnotar(j, ok), Ack(i, k, r)) =>
      if i != j || k != ok then Roto else if r == SinAcuse then Espera(j, ok) else Descanso
    case (Espera(j, ok), Pausa) => PorAnotar(j, ok)
    case _ => Roto
  }

  /** The only thing the agent may do next, with the answer the world gives it. */
  function Toca(f: Fase, m: Mundo, k: nat): Suceso
  {
    match f
    case Libre => Pedido(m.siguiente(k))
    case PorImprimir(j) => Impreso(j, m.imprime(k))
    case PorAnotar(j, ok) => Ack(j, ok, m.acuse(k))
    case _ => Pausa
  }

  function FaseTras(traza: seq<Suceso>): Fase
  {
    if |traza| == 0 then Libre else Avanzar(FaseTras(traza[..|traza| - 1]), traza[|traza| - 1])
  }

  lemma FaseAgrega(traza: seq<Suceso>, s: Suceso)
    ensures FaseTras(traza + [s]) == Avanzar(FaseTras(traza), s)
  {
    assert (traza + [s])[..|traza|] == traza;
  }

  /** From event `desde` on, the trace is the one the protocol dictates in this world. */
  ghost predicate EsCorrida(m: Mundo, traza: seq<Suceso>, desde: nat)
  {
    forall k: nat :: desde <= k < |traza| ==> traza[k] == Toca(FaseTras(traza[..k]), m, k)
  }

  lemma CorridaAgrega(m: Mundo, traza: seq<Suceso>, desde: nat, s: Suceso)
    requires EsCorrida(m, traza, desde) && s == Toca(FaseTras(traza), m, |traza|)
    ensures EsCorrida(m, traza + [s], desde)
  {
    forall k: nat | desde <= k < |traza + [s]| ensures (traza + [s])[k] == Toca(FaseTras((traza + [s])[..k]), m, k) {
      assert (traza + [s])[..k] == traza[..k];
      assert k == |traza| ==> traza[..k] == traza;
    }
  }

  /** The agent stops where it first sees the signal: not before a taken job is printed, and not in
      the middle of a pause. */
  ghost predicate PuedeParar(f: Fase)
  {
    !f.PorImprimir? && !f.Espera? && f != Roto
  }

  /** Every answer in the trace is the one the world gave at that moment. */
  ghost predicate RespondeElMundo(m: Mundo, traza: seq<Suceso>, desde: nat)
  {
    forall k: nat :: desde <= k < |traza| ==>
      match traza[k]
      case Pedido(respuesta) => respuesta == m.siguiente(k)
      case Impreso(_, ok) => ok == m.imprime(k)
      case Ack(_, _, r) => r == m.acuse(k)
      case Pausa => true
  }

  lemma CorridaDelMundo(m: Mundo, traza: seq<Suceso>, desde: nat)
    requires EsCorrida(m, traza, desde)
    ensures RespondeElMundo(m, traza, desde)
  {
  }

  class Agente {
    var traza: seq<Suceso>

    constructor ()
      ensures traza == []
    {
      traza := [];
    }

    method Anotar(m: Mundo, ghost desde: nat, s: Suceso)
      requires EsCorrida(m, traza, desde) && s == Toca(FaseTras(traza), m, |traza|)
      modifies this
      ensures traza == old(traza) + [s] && FaseTras(traza) == Avanzar(FaseTras(old(traza)), s)
      ensures EsCorrida(m, traza, desde)
    {
      FaseAgrega(traza, s);
      CorridaAgrega(m, traza, desde, s);
      traza := traza + [s];
    }

    /** run: every event is the one the protocol dictates, until the signal is seen. */
    method Run(m: Mundo)
      requires FaseTras(traza) == Libre
      modifies this
      ensures old(traza) <= traza && EsCorrida(m, traza, |old(traza)|)
      ensures RespondeElMundo(m, traza, |old(traza)|)
      ensures |traza| >= m.parada && PuedeParar(FaseTras(traza))
      ensures |traza| <= m.parada + 1 || traza == old(traza)
    {
      ghost var desde := |traza|;
      while |traza| < m.parada
        invariant old(traza) <= traza && EsCorrida(m, traza, desde)
        invariant FaseTras(traza) == Libre || (PuedeParar(FaseTras(traza)) && |traza| >= m.parada)
        invariant |traza| <= m.parada + 1 || traza == old(traza)
        decreases m.parada - |traza|
      {
        Turno(m, desde);
        if |traza| < m.parada { Anotar(m, desde, Pausa); }
      }
      CorridaDelMundo(m, traza, desde);
    }

    /** Asks for a job and sees it through. */
    method Turno(m: Mundo, ghost desde: nat)
      requires FaseTras(traza) == Libre && EsCorrida(m, traza, desde) && |traza| < m.parada
      modifies this
      ensures old(traza) < traza && EsCorrida(m, traza, desde) && |traza| <= m.parada + 1
      ensures FaseTras(traza) == Descanso || (FaseTras(traza).PorAnotar? && |traza| >= m.parada)
    {
      var job := m.siguiente(|traza|);
      Anotar(m, desde, Pedido(job));
      if job.Trabajo? {
        var ok := m.imprime(|traza|);
        Anotar(m, desde, Impreso(job.lease, ok));
        Reconocer(m, desde, job.lease, ok);
      }
    }

    /** The inner loop: the same ack, until it is accepted or refused with 409, or the agent stops. */
    method Reconocer(m: Mundo, ghost desde: nat, lease: nat, ok: bool)
      requires FaseTras(traza) == PorAnotar(lease, ok) && EsCorrida(m, traza, desde) && |traza| <= m.parada + 1
      modifies this
      ensures old(traza) <= traza && EsCorrida(m, traza, desde) && |traza| <= m.parada + 1
      ensures FaseTras(traza) == Descanso || (FaseTras(traza) == PorAnotar(lease, ok) && |traza| >= m.parada)
    {
      while |traza| < m.parada
        invariant old(traza) <= traza && FaseTras(traza) == PorAnotar(lease, ok)
        invariant EsCorrida(m, traza, desde) && |traza| <= m.parada + 1
        decreases m.parada - |traza|
      {
        var r := m.acuse(|traza|);
        Anotar(m, desde, Ack(lease, ok, r));
        if r != SinAcuse { break; }
        Anotar(m, desde, Pausa);
      }
    }
  }

  /** Such a trace never leaves the protocol. */
  lemma {:induction false} CorridaEnProtocolo(m: Mundo, traza: seq<Suceso>)
    requires EsCorrida(m, traza, 0)
    ensures FaseTras(traza) != Roto
  {
    if |traza| != 0 {
      var n := |traza| - 1;
      forall k: nat | k < n ensures traza[..n][k] == Toca(FaseTras(traza[..n][..k]), m, k) {
        assert traza[..n][..k] == traza[..k];
      }
      CorridaEnProtocolo(m, traza[..n]);
    }
  }

  /* ---- what a trace within the protocol means ---- */

  lemma {:induction false} PrefijoEnProtocolo(traza: seq<Suceso>, n: nat)
    requires FaseTras(traza) != Roto && n <= |traza|
    ensures FaseTras(traza[..n]) != Roto
  {
    if n < |traza| {
      PrefijoEnProtocolo(traza[..|traza| - 1], n);
      assert traza[..|traza| - 1][..n] == traza[..n];
    } else {
      assert traza[..n] == traza;
    }
  }

  lemma FaseEn(traza: seq<Suceso>, k: nat)
    requires FaseTras(traza) != Roto && k < |traza|
    ensures FaseTras(traza[..k]) != Roto && FaseTras(traza[..k + 1]) != Roto
    ensures FaseTras(traza[..k + 1]) == Avanzar(FaseTras(traza[..k]), traza[k])
  {
    PrefijoEnProtocolo(traza, k);
    PrefijoEnProtocolo(traza, k + 1);
    assert traza[..k + 1][..k] == traza[..k];
  }

  /** Every lease received is printed by exactly one call, the very next thing the agent does. */
  lemma CadaTrabajoSeImprimeUnaVez(traza: seq<Suceso>, k: nat, lease: nat)
    requires FaseTras(traza) != Roto && k + 1 < |traza|
    ensures traza[k] == Pedido(Trabajo(lease)) <==> traza[k + 1].Impreso? && traza[k + 1].lease == lease
    ensures !traza[0].Impreso?
  {
    FaseEn(traza, k);
    FaseEn(traza, k + 1);
    FaseEn(traza, 0);
  }

  /** What follows each event: a job taken is printed at once; a query without a job, and every ack, is
      followed by a pause; a print by the ack of its result; and a pause by that same ack when it failed,
      and by the next query otherwise. */
  lemma LoQueSigue(traza: seq<Suceso>, k: nat)
    requires FaseTras(traza) != Roto && k + 1 < |traza|
    ensures match traza[k]
            case Pedido(Trabajo(lease)) => traza[k + 1].Impreso? && traza[k + 1].lease == lease
            case Pedido(_) => traza[k + 1] == Pausa
            case Impreso(lease, ok) => traza[k + 1].Ack? && traza[k + 1].lease == lease && traza[k + 1].ok == ok
            case Ack(_, _, _) => traza[k + 1] == Pausa
            case Pausa =>
              && k > 0
              && match traza[k - 1]
                 case Ack(lease, ok, SinAcuse) =>
                   traza[k + 1].Ack? && traza[k + 1].lease == lease && traza[k + 1].ok == ok
                 case _ => traza[k + 1].Pedido?
    ensures traza[0].Pedido?
  {
    FaseEn(traza, 0);
    FaseEn(traza, k);
    FaseEn(traza, k + 1);
    if k > 0 { FaseEn(traza, k - 1); }
  }

  /** What is being acknowledged comes from a print since which only its own failed acks were sent. */
  lemma {:induction false} PorAnotarVieneDe(traza: seq<Suceso>) returns (p: nat)
    requires var f := FaseTras(traza); f.PorAnotar? || f.Espera?
    ensures var f := FaseTras(traza);
            && p < |traza| && traza[p] == Impreso(f.lease, f.ok)
            && forall q :: p < q < |traza| ==> traza[q] == Pausa || traza[q] == Ack(f.lease, f.ok, SinAcuse)
  {
    var n := |traza| - 1;
    if traza[n].Impreso? {
      p := n;
    } else {
      p := PorAnotarVieneDe(traza[..n]);
    }
  }

  /** Every ack repeats the result of the last print, and only failed acks of it lie in between. */
  lemma AckRepiteElResultado(traza: seq<Suceso>, k: nat) returns (p: nat)
    requires FaseTras(traza) != Roto && k < |traza| && traza[k].Ack?
    ensures p < k && traza[p] == Impreso(traza[k].lease, traza[k].ok)
    ensures forall q :: p < q < k ==> traza[q] == Pausa || traza[q] == Ack(traza[k].lease, traza[k].ok, SinAcuse)
  {
    FaseEn(traza, k);
    p := PorAnotarVieneDe(traza[..k]);
  }

  ghost predicate Resuelto(traza: seq<Suceso>, desde: nat, lease: nat)
  {
    exists q, ok ::
      desde < q < |traza| && (traza[q] == Ack(lease, ok, Aceptado) || traza[q] == Ack(lease, ok, Conflicto))
  }

  ghost predicate Pendiente(f: Fase, lease: nat)
  {
    f == PorImprimir(lease) || ((f.PorAnotar? || f.Espera?) && f.lease == lease)
  }

  /** A job received is settled or still the agent's only concern. */
  lemma {:induction false} ResueltoOPendiente(traza: seq<Suceso>, p: nat, lease: nat)
    requires FaseTras(traza) != Roto && p < |traza| && traza[p] == Pedido(Trabajo(lease))
    ensures Resuelto(traza, p, lease) || Pendiente(FaseTras(traza), lease)
  {
    var n := |traza| - 1;
    FaseEn(traza, n);
    assert traza[..n + 1] == traza;
    if p < n {
      ResueltoOPendiente(traza[..n], p, lease);
      if Resuelto(traza[..n], p, lease) {
        var q, ok :| p < q < n
          && (traza[..n][q] == Ack(lease, ok, Aceptado) || traza[..n][q] == Ack(lease, ok, Conflicto));
        assert traza[q] == Ack(lease, ok, Aceptado) || traza[q] == Ack(lease, ok, Conflicto);
      } else if traza[n].Ack? && traza[n].r != SinAcuse {
        assert traza[n] == Ack(lease, traza[n].ok, Aceptado) || traza[n] == Ack(lease, traza[n].ok, Conflicto);
      }
    }
  }

  /** The agent asks for work only once every job it took before was acknowledged or refused with 409. */
  lemma SoloPideCuandoTodoEstaResuelto(traza: seq<Suceso>, p: nat, k: nat, lease: nat)
    requires FaseTras(traza) != Roto && p < k < |traza|
    requires traza[p] == Pedido(Trabajo(lease)) && traza[k].Pedido?
    ensures Resuelto(traza[..k], p, lease)
  {
    FaseEn(traza, k);
    ResueltoOPendiente(traza[..k], p, lease);
  }
}
