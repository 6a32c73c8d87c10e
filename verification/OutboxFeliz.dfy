/**
 Runs of the outbox with fewer accidents: without rescues nothing finished ever moves again, and
 without deaths and failures either, the replicas share the seeded events out and stop with all of
 them PROCESSED after exactly one publication each.
 */
module OutboxFeliz {
  import opened Comun
  import opened Outbox

  /* ---- without rescues ---- */

  ghost function EnManos(s: Sistema, e: nat): nat
  {
    Total(s.replicas, PorPublicar(e)) + Total(s.replicas, YaPublicada(e))
  }

  /** A row is in somebody's hands only while PUBLISHING, and then in one replica's only. */
  ghost predicate Exclusiva(s: Sistema, e: nat)
    requires e < |s.filas|
  {
    EnManos(s, e) <= if s.filas[e].estado == PUBLISHING then 1 else 0
  }

  ghost predicate Exclusivas(s: Sistema)
  {
    Inv(s) && forall e: nat :: e < |s.filas| ==> Exclusiva(s, e)
  }

  lemma ManosCambian(replicas: seq<Replica>, w: nat, r: Replica, e: nat)
    requires w < |replicas|
    ensures Total(replicas[w := r], PorPublicar(e))
            == Total(replicas, PorPublicar(e)) - Veces(replicas[w].porPublicar, e) + Veces(r.porPublicar, e)
    ensures Total(replicas[w := r], YaPublicada(e))
            == Total(replicas, YaPublicada(e)) - Veces(replicas[w].publicadas, e) + Veces(r.publicadas, e)
    ensures Total(replicas, PorPublicar(e)) >= Veces(replicas[w].porPublicar, e)
    ensures Total(replicas, YaPublicada(e)) >= Veces(replicas[w].publicadas, e)
  {
    TotalCambia(replicas, w, r, PorPublicar(e));
    TotalCambia(replicas, w, r, YaPublicada(e));
  }

  lemma NadieTieneUnaNueva(s: Sistema, e: nat)
    requires Inv(s) && e >= |s.filas|
    ensures EnManos(s, e) == 0
  {
    forall w | 0 <= w < |s.replicas|
      ensures Veces(s.replicas[w].porPublicar, e) == 0 && Veces(s.replicas[w].publicadas, e) == 0
    {
      assert ReplicaBien(s.filas, s.replicas[w]);
      EstaSiiVeces(s.replicas[w].porPublicar, e);
      EstaSiiVeces(s.replicas[w].publicadas, e);
    }
    NadieLaTiene(s.replicas, PorPublicar(e));
    NadieLaTiene(s.replicas, YaPublicada(e));
  }

  lemma ExclusivaAlEjecutar(s: Sistema, paso: Paso, e: nat)
    requires Exclusivas(s) && !paso.Rescatar? && e < |Ejecutar(s, paso).filas|
    ensures Exclusiva(Ejecutar(s, paso), e)
  {
    if e >= |s.filas| {
      NadieTieneUnaNueva(s, e);
    } else {
      assert Exclusiva(s, e);
      match paso
      case Confirmar(w) => if w < |s.replicas| && s.replicas[w].bloqueadas != [] { ExclusivaAlConfirmar(s, w, e); }
      case Publicar(w) => ExclusivaAlPublicar(s, w, e);
      case Marcar(w) => if w < |s.replicas| { ExclusivaAlMarcar(s, w, e); }
      case FallarPublicacion(w) => ExclusivaAlFallar(s, paso, w, e);
      case FallarMarca(w) => ExclusivaAlFallar(s, paso, w, e);
      case _ => ExclusivaSinTocarFilas(s, paso, e);
    }
  }

  /** Steps that only change who is there and what is locked. */
  lemma ExclusivaSinTocarFilas(s: Sistema, paso: Paso, e: nat)
    requires e < |s.filas| && Exclusiva(s, e)
    requires paso.Insertar? || paso.Nueva? || paso.Bloquear? || paso.Morir?
    ensures e < |Ejecutar(s, paso).filas| && Exclusiva(Ejecutar(s, paso), e)
  {
    match paso
    case Insertar(_) =>
    case Nueva =>
      TotalAgrega(s.replicas, LIBRE, PorPublicar(e));
      TotalAgrega(s.replicas, LIBRE, YaPublicada(e));
    case Bloquear(w, limite) =>
      if w < |s.replicas| && Ociosa(s.replicas[w]) { ManosCambian(s.replicas, w, Ejecutar(s, paso).replicas[w], e); }
    case Morir(w) => if w < |s.replicas| { ManosCambian(s.replicas, w, LIBRE, e); }
  }

  lemma ExclusivaAlPublicar(s: Sistema, w: nat, e: nat)
    requires e < |s.filas| && Exclusiva(s, e)
    ensures Exclusiva(Ejecutar(s, Publicar(w)), e)
  {
    if ConTarea(s, w) { ManosCambian(s.replicas, w, Ejecutar(s, Publicar(w)).replicas[w], e); }
  }

  lemma ExclusivaAlFallar(s: Sistema, paso: Paso, w: nat, e: nat)
    requires e < |s.filas| && Exclusiva(s, e) && (paso == FallarPublicacion(w) || paso == FallarMarca(w))
    ensures Exclusiva(Ejecutar(s, paso), e)
  {
    if w < |s.replicas| { ManosCambian(s.replicas, w, Ejecutar(s, paso).replicas[w], e); }
  }

  lemma ExclusivaAlConfirmar(s: Sistema, w: nat, e: nat)
    requires Exclusivas(s) && w < |s.replicas| && s.replicas[w].bloqueadas != [] && e < |s.filas|
    ensures Exclusiva(Ejecutar(s, Confirmar(w)), e)
  {
    var ids := s.replicas[w].bloqueadas;
    assert Exclusiva(s, e) && ReplicaBien(s.filas, s.replicas[w]);
    ManosCambian(s.replicas, w, Ejecutar(s, Confirmar(w)).replicas[w], e);
    VecesEnLote(s.filas, ids, e);
    assert e in ids ==> s.filas[e].estado == PENDING;
  }

  lemma ExclusivaAlMarcar(s: Sistema, w: nat, e: nat)
    requires w < |s.replicas| && e < |s.filas| && Exclusiva(s, e)
    ensures Exclusiva(Ejecutar(s, Marcar(w)), e)
  {
    EstaSiiVeces(s.replicas[w].publicadas, e);
    ManosCambian(s.replicas, w, s.replicas[w].(publicadas := []), e);
  }

  lemma {:induction false} ExclusivasEnTodaCorrida(pasos: seq<Paso>)
    requires forall k :: 0 <= k < |pasos| ==> !pasos[k].Rescatar?
    ensures Exclusivas(Correr(VACIO, pasos))
  {
    InvEnTodaCorrida(pasos);
    if |pasos| != 0 {
      var antes := Correr(VACIO, pasos[..|pasos| - 1]);
      ExclusivasEnTodaCorrida(pasos[..|pasos| - 1]);
      forall e: nat | e < |Correr(VACIO, pasos).filas| ensures Exclusiva(Correr(VACIO, pasos), e) {
        ExclusivaAlEjecutar(antes, pasos[|pasos| - 1], e);
      }
    }
  }

  /** Without rescues PROCESSED and FAILED are final: no step of any replica touches such a row. */
  lemma LoTerminadoNoSeMueve(pasos: seq<Paso>, paso: Paso, e: nat)
    requires forall k :: 0 <= k < |pasos| ==> !pasos[k].Rescatar?
    requires e < |Correr(VACIO, pasos).filas|
    requires Correr(VACIO, pasos).filas[e].estado == PROCESSED || Correr(VACIO, pasos).filas[e].estado == FAILED
    ensures var s := Correr(VACIO, pasos);
            e < |Ejecutar(s, paso).filas| && Ejecutar(s, paso).filas[e] == s.filas[e]
  {
    ExclusivasEnTodaCorrida(pasos);
    TerminadaQuieta(Correr(VACIO, pasos), paso, e);
  }

  lemma TerminadaQuieta(s: Sistema, paso: Paso, e: nat)
    requires Exclusivas(s) && e < |s.filas| && (s.filas[e].estado == PROCESSED || s.filas[e].estado == FAILED)
    ensures e < |Ejecutar(s, paso).filas| && Ejecutar(s, paso).filas[e] == s.filas[e]
  {
    assert Exclusiva(s, e);
    forall w: nat | w < |s.replicas|
      ensures e !in IdsDe(s.replicas[w].porPublicar) && e !in IdsDe(s.replicas[w].publicadas)
      ensures e !in s.replicas[w].bloqueadas
    {
      ManosCambian(s.replicas, w, LIBRE, e);
      EstaSiiVeces(s.replicas[w].porPublicar, e);
      EstaSiiVeces(s.replicas[w].publicadas, e);
      assert ReplicaBien(s.filas, s.replicas[w]);
    }
    match paso
    case Publicar(w) => if ConTarea(s, w) {
      assert s.replicas[w].porPublicar[0].id in IdsDe(s.replicas[w].porPublicar);
    }
    case FallarPublicacion(w) => if ConTarea(s, w) {
      assert s.replicas[w].porPublicar[0].id in IdsDe(s.replicas[w].porPublicar);
    }
    case FallarMarca(w) =>
      if w < |s.replicas| && |s.replicas[w].publicadas| > 0 {
        assert s.replicas[w].publicadas[0].id in IdsDe(s.replicas[w].publicadas);
      }
    case _ =>
  }

  /* ---- the failures are counted ---- */

  /** The row a failing step is about: the first one to publish, or the first one to mark. */
  function LaQueFalla(r: Replica, alMarcar: bool): Option<Tarea>
  {
    var manos := if alMarcar then r.publicadas else r.porPublicar;
    if |manos| == 0 then None else Some(manos[0])
  }

  /** One failure: the row keeps one attempt more than its replica had read, and is given up exactly when
      its key is unknown or that makes five; every other row stays as it was. */
  lemma UnFalloMas(s: Sistema, w: nat, alMarcar: bool)
    requires w < |s.replicas| && LaQueFalla(s.replicas[w], alMarcar).Some?
    requires var t := LaQueFalla(s.replicas[w], alMarcar).value; t.id < |s.filas| && !Bloqueada(s.replicas, t.id)
    ensures var t := LaQueFalla(s.replicas[w], alMarcar).value;
            var r := Ejecutar(s, if alMarcar then FallarMarca(w) else FallarPublicacion(w));
            && |r.filas| == |s.filas| && (forall e :: 0 <= e < |s.filas| && e != t.id ==> r.filas[e] == s.filas[e])
            && r.filas[t.id].intentos == t.intentos + 1
            && r.filas[t.id].fallos == s.filas[t.id].fallos + 1
            && (r.filas[t.id].estado == FAILED <==> !s.filas[t.id].conocida || t.intentos + 1 >= 5)
            && (r.filas[t.id].estado == PENDING <==> s.filas[t.id].conocida && t.intentos + 1 < 5)
            && r.filas[t.id].conocida == s.filas[t.id].conocida
            && r.filas[t.id].publicada == s.filas[t.id].publicada
  {
  }

  ghost predicate Sostiene(r: Replica, t: Tarea)
  {
    t in r.porPublicar || t in r.publicadas
  }

  ghost predicate FilaContada(f: Fila)
  {
    var limite := if f.conocida then 5 else 1;
    f.intentos == f.fallos && f.fallos <= limite && (f.estado == FAILED <==> f.fallos == limite)
  }

  /** No failure is forgotten: not by the rows, and not by a replica that read one before. */
  ghost predicate Contados(s: Sistema)
  {
    && (forall e :: 0 <= e < |s.filas| ==> FilaContada(s.filas[e]))
    && (forall w, t :: 0 <= w < |s.replicas| && Sostiene(s.replicas[w], t) ==>
          t.id < |s.filas| && t.intentos == s.filas[t.id].intentos)
  }

  lemma FueraDeManos(s: Sistema, e: nat)
    requires EnManos(s, e) == 0
    ensures forall w, t :: 0 <= w < |s.replicas| && Sostiene(s.replicas[w], t) ==> t.id != e
  {
    forall w, t | 0 <= w < |s.replicas| && Sostiene(s.replicas[w], t) ensures t.id != e {
      ManosCambian(s.replicas, w, LIBRE, e);
      EstaSiiVeces(s.replicas[w].porPublicar, e);
      EstaSiiVeces(s.replicas[w].publicadas, e);
      assert t.id in IdsDe(s.replicas[w].porPublicar) || t.id in IdsDe(s.replicas[w].publicadas);
    }
  }

  /** What a replica holds is in flight. */
  lemma EnManosEnVuelo(s: Sistema, w: nat, t: Tarea)
    requires Exclusivas(s) && w < |s.replicas| && Sostiene(s.replicas[w], t) && t.id < |s.filas|
    ensures s.filas[t.id].estado == PUBLISHING
  {
    assert Exclusiva(s, t.id);
    if s.filas[t.id].estado != PUBLISHING { FueraDeManos(s, t.id); }
  }

  lemma ContadosAlFallar(s: Sistema, w: nat, alMarcar: bool)
    requires Exclusivas(s) && Contados(s) && w < |s.replicas| && LaQueFalla(s.replicas[w], alMarcar).Some?
    requires var t := LaQueFalla(s.replicas[w], alMarcar).value; t.id < |s.filas| && !Bloqueada(s.replicas, t.id)
    ensures Contados(Ejecutar(s, if alMarcar then FallarMarca(w) else FallarPublicacion(w)))
  {
    var t := LaQueFalla(s.replicas[w], alMarcar).value;
    var paso := if alMarcar then FallarMarca(w) else FallarPublicacion(w);
    var r := Ejecutar(s, paso);
    UnFalloMas(s, w, alMarcar);
    EnManosEnVuelo(s, w, t);
    assert FilaContada(s.filas[t.id]);
    assert Exclusiva(s, t.id);
    ExclusivaAlFallar(s, paso, w, t.id);
    FueraDeManos(r, t.id);
    forall v, x | 0 <= v < |r.replicas| && Sostiene(r.replicas[v], x)
      ensures x.id < |r.filas| && x.intentos == r.filas[x.id].intentos
    {
      assert Sostiene(s.replicas[v], x);
    }
  }

  lemma ContadosTrasElLote(s: Sistema, w: nat, ids: seq<nat>, r: Sistema)
    requires Contados(s) && w < |s.replicas| && Vigentes(s.filas, ids) && s.replicas[w].publicadas == []
    requires forall k :: 0 <= k < |ids| ==> s.filas[ids[k]].estado == PENDING
    requires r.filas == Poner(s.filas, Conjunto(ids), PUBLISHING)
    requires r.replicas == s.replicas[w := Replica([], Tareas(s.filas, ids), [], s.replicas[w].vacios)]
    ensures Contados(r)
  {
    forall v, t | 0 <= v < |r.replicas| && Sostiene(r.replicas[v], t)
      ensures t.id < |r.filas| && t.intentos == r.filas[t.id].intentos
    {
      if v != w { assert Sostiene(s.replicas[v], t); } else { assert t in Tareas(s.filas, ids); }
    }
    forall e | 0 <= e < |r.filas| ensures FilaContada(r.filas[e]) { assert FilaContada(s.filas[e]); }
  }

  lemma ContadosAlConfirmar(s: Sistema, w: nat)
    requires Exclusivas(s) && Contados(s) && w < |s.replicas| && s.replicas[w].bloqueadas != []
    ensures Contados(Ejecutar(s, Confirmar(w)))
  {
    var r, ids := Ejecutar(s, Confirmar(w)), s.replicas[w].bloqueadas;
    assert Vigentes(s.filas, ids) && s.replicas[w].publicadas == []
      && forall k :: 0 <= k < |ids| ==> s.filas[ids[k]].estado == PENDING by {
      assert ReplicaBien(s.filas, s.replicas[w]);
    }
    ContadosTrasElLote(s, w, ids, r);
  }

  lemma ContadosAlPublicar(s: Sistema, w: nat)
    requires Contados(s) && ConTarea(s, w)
    ensures Contados(Ejecutar(s, Publicar(w)))
  {
    var r := Ejecutar(s, Publicar(w));
    forall v, t | 0 <= v < |r.replicas| && Sostiene(r.replicas[v], t)
      ensures t.id < |r.filas| && t.intentos == r.filas[t.id].intentos
    {
      assert Sostiene(s.replicas[v], t);
    }
  }

  lemma ContadosAlMarcar(s: Sistema, w: nat)
    requires Exclusivas(s) && Contados(s) && w < |s.replicas|
    ensures Contados(Marcada(s, w))
  {
    var r := Marcada(s, w);
    forall e | 0 <= e < |r.filas| ensures FilaContada(r.filas[e]) {
      if e in IdsDe(s.replicas[w].publicadas) {
        var t :| t in s.replicas[w].publicadas && t.id == e;
        assert Sostiene(s.replicas[w], t);
        EnManosEnVuelo(s, w, t);
      }
      assert FilaContada(s.filas[e]);
    }
    forall v, t | 0 <= v < |r.replicas| && Sostiene(r.replicas[v], t)
      ensures t.id < |r.filas| && t.intentos == r.filas[t.id].intentos
    {
      assert Sostiene(s.replicas[v], t);
    }
  }

  lemma ContadosAlEjecutar(s: Sistema, paso: Paso)
    requires Exclusivas(s) && Contados(s) && !paso.Rescatar?
    ensures Contados(Ejecutar(s, paso))
  {
    match paso
    case Confirmar(w) => if w < |s.replicas| && s.replicas[w].bloqueadas != [] { ContadosAlConfirmar(s, w); }
    case Publicar(w) => if ConTarea(s, w) { ContadosAlPublicar(s, w); }
    case Marcar(w) => if w < |s.replicas| { ContadosAlMarcar(s, w); }
    case FallarPublicacion(w) =>
      if ConTarea(s, w) && !Bloqueada(s.replicas, s.replicas[w].porPublicar[0].id) { ContadosAlFallar(s, w, false); }
    case FallarMarca(w) =>
      if w < |s.replicas| && |s.replicas[w].publicadas| > 0 && s.replicas[w].publicadas[0].id < |s.filas|
        && !Bloqueada(s.replicas, s.replicas[w].publicadas[0].id) { ContadosAlFallar(s, w, true); }
    case _ => ContadosSinTocarFilas(s, paso);
  }

  lemma ContadosSinTocarFilas(s: Sistema, paso: Paso)
    requires Contados(s) && (paso.Insertar? || paso.Nueva? || paso.Bloquear? || paso.Morir?)
    ensures Contados(Ejecutar(s, paso))
  {
    var r := Ejecutar(s, paso);
    forall v, t | 0 <= v < |r.replicas| && Sostiene(r.replicas[v], t)
      ensures t.id < |r.filas| && t.intentos == r.filas[t.id].intentos
    {
      assert v < |s.replicas| && Sostiene(s.replicas[v], t);
    }
  }

  lemma {:induction false} ContadosEnTodaCorrida(pasos: seq<Paso>)
    requires forall k :: 0 <= k < |pasos| ==> !pasos[k].Rescatar?
    ensures Contados(Correr(VACIO, pasos))
  {
    if |pasos| != 0 {
      ContadosEnTodaCorrida(pasos[..|pasos| - 1]);
      ExclusivasEnTodaCorrida(pasos[..|pasos| - 1]);
      ContadosAlEjecutar(Correr(VACIO, pasos[..|pasos| - 1]), pasos[|pasos| - 1]);
    }
  }

  /** Without rescues the attempts of a row are its failures, and a row is FAILED exactly when it failed
      once with an unknown key or five times with a known one: nobody retries for ever. */
  lemma FallidaSiiCinco(pasos: seq<Paso>, e: nat)
    requires forall k :: 0 <= k < |pasos| ==> !pasos[k].Rescatar?
    requires e < |Correr(VACIO, pasos).filas|
    ensures var f := Correr(VACIO, pasos).filas[e];
            && f.intentos == f.fallos
            && f.fallos <= (if f.conocida then 5 else 1)
            && (f.estado == FAILED <==> f.fallos == if f.conocida then 5 else 1)
  {
    ContadosEnTodaCorrida(pasos);
    assert FilaContada(Correr(VACIO, pasos).filas[e]);
  }

  /* ---- without deaths and failures either ---- */

  predicate PasoFeliz(paso: Paso)
  {
    match paso
    case Bloquear(_, limite) => limite >= 1
    case Confirmar(_) => true
    case Publicar(_) => true
    case Marcar(_) => true
    case _ => false
  }

  function Sembrado(eventos: nat, replicas: nat): Sistema
  {
    Sistema(seq(eventos, _ => Fila(true, PENDING, 0, 0, 0, 0, 0)), seq(replicas, _ => LIBRE), [])
  }

  ghost predicate Exacta(s: Sistema, e: nat)
    requires e < |s.filas|
  {
    && s.filas[e].conocida && s.filas[e].estado != FAILED
    && EnManos(s, e) == (if s.filas[e].estado == PUBLISHING then 1 else 0)
    && s.filas[e].publicada == Total(s.replicas, YaPublicada(e)) + if s.filas[e].estado == PROCESSED then 1 else 0
  }

  ghost predicate LotesAparte(s: Sistema)
  {
    && (forall i, j :: 0 <= i < j < |s.lotes| ==> s.lotes[i] !! s.lotes[j])
    && (forall e: nat :: e < |s.filas| ==> (s.filas[e].estado != PENDING <==> EnAlgunLote(s.lotes, e)))
    && (forall i, e :: 0 <= i < |s.lotes| && e in s.lotes[i] ==> e < |s.filas|)
  }

  ghost predicate EnAlgunLote(lotes: seq<set<nat>>, e: nat)
  {
    exists i :: 0 <= i < |lotes| && e in lotes[i]
  }

  /** An empty claim proves that every PENDING row is being claimed by another. */
  ghost predicate VaciosDicenVerdad(s: Sistema)
  {
    forall w, e: nat ::
      0 <= w < |s.replicas| && s.replicas[w].vacios > 0 && e < |s.filas| && s.filas[e].estado == PENDING
      ==> Bloqueada(s.replicas, e)
  }

  ghost predicate Feliz(s: Sistema)
  {
    && Inv(s) && LotesAparte(s) && VaciosDicenVerdad(s)
    && forall e: nat :: e < |s.filas| ==> Exacta(s, e)
  }

  lemma ExactaAlBloquear(s: Sistema, w: nat, limite: nat)
    requires Feliz(s) && w < |s.replicas| && Ociosa(s.replicas[w]) && limite >= 1
    ensures Feliz(Ejecutar(s, Bloquear(w, limite)))
  {
    var r := Ejecutar(s, Bloquear(w, limite));
    InvAlEjecutar(s, Bloquear(w, limite));
    TomarTomaLasMasViejas(s, |s.filas|, limite);
    forall e: nat | e < |s.filas| ensures Exacta(r, e) {
      assert Exacta(s, e);
      ManosCambian(s.replicas, w, r.replicas[w], e);
    }
    forall v, e: nat | 0 <= v < |r.replicas| && r.replicas[v].vacios > 0 && e < |r.filas|
      && r.filas[e].estado == PENDING
      ensures Bloqueada(r.replicas, e)
    {
      if Bloqueada(s.replicas, e) {
        var x :| 0 <= x < |s.replicas| && e in s.replicas[x].bloqueadas;
        assert e in r.replicas[x].bloqueadas;
      }
    }
  }

  lemma ExactaAlConfirmar(s: Sistema, w: nat)
    requires Feliz(s) && w < |s.replicas| && s.replicas[w].bloqueadas != []
    ensures Feliz(Ejecutar(s, Confirmar(w)))
  {
    var r := Ejecutar(s, Confirmar(w));
    var ids := s.replicas[w].bloqueadas;
    InvAlEjecutar(s, Confirmar(w));
    assert ReplicaBien(s.filas, s.replicas[w]);
    forall e: nat | e < |s.filas| ensures Exacta(r, e) { UnaAlConfirmar(s, w, e); }
    LotesAlConfirmar(s, r, Conjunto(ids));
    forall v, e: nat | 0 <= v < |r.replicas| && r.replicas[v].vacios > 0 && e < |r.filas|
      && r.filas[e].estado == PENDING
      ensures Bloqueada(r.replicas, e)
    {
      assert Bloqueada(s.replicas, e);
      var x :| 0 <= x < |s.replicas| && e in s.replicas[x].bloqueadas;
      assert x != w && e in r.replicas[x].bloqueadas;
    }
  }

  lemma UnaAlConfirmar(s: Sistema, w: nat, e: nat)
    requires Feliz(s) && w < |s.replicas| && s.replicas[w].bloqueadas != [] && e < |s.filas|
    ensures Exacta(Ejecutar(s, Confirmar(w)), e)
  {
    var ids := s.replicas[w].bloqueadas;
    assert ReplicaBien(s.filas, s.replicas[w]) && Exacta(s, e);
    ManosCambian(s.replicas, w, Ejecutar(s, Confirmar(w)).replicas[w], e);
    VecesEnLote(s.filas, ids, e);
    assert e in ids ==> s.filas[e].estado == PENDING;
  }

  lemma LotesAlConfirmar(s: Sistema, r: Sistema, lote: set<nat>)
    requires LotesAparte(s) && r.lotes == s.lotes + [lote] && r.filas == Poner(s.filas, lote, PUBLISHING)
    requires forall e :: e in lote ==> e < |s.filas| && s.filas[e].estado == PENDING
    ensures LotesAparte(r)
  {
    forall i | 0 <= i < |s.lotes| ensures s.lotes[i] !! lote {
      forall e | e in s.lotes[i] ensures e !in lote { assert EnAlgunLote(s.lotes, e); }
    }
    forall e: nat | e < |r.filas| ensures r.filas[e].estado != PENDING <==> EnAlgunLote(r.lotes, e) {
      if EnAlgunLote(s.lotes, e) {
        var i :| 0 <= i < |s.lotes| && e in s.lotes[i];
        assert e in r.lotes[i];
      }
      if e in lote { assert e in r.lotes[|s.lotes|]; }
    }
  }

  lemma ExactaAlPublicar(s: Sistema, w: nat)
    requires Feliz(s)
    ensures Feliz(Ejecutar(s, Publicar(w)))
  {
    var r := Ejecutar(s, Publicar(w));
    InvAlEjecutar(s, Publicar(w));
    forall e: nat | e < |s.filas|
      ensures Exacta(r, e) && (r.filas[e].estado == PENDING <==> s.filas[e].estado == PENDING)
    {
      UnaAlPublicar(s, w, e);
    }
    MismosBloqueos(s, r);
  }

  lemma UnaAlPublicar(s: Sistema, w: nat, e: nat)
    requires e < |s.filas| && Exacta(s, e)
    ensures var r := Ejecutar(s, Publicar(w));
            Exacta(r, e) && (r.filas[e].estado == PENDING <==> s.filas[e].estado == PENDING)
  {
    if ConTarea(s, w) { ManosCambian(s.replicas, w, Ejecutar(s, Publicar(w)).replicas[w], e); }
  }

  lemma ExactaAlMarcar(s: Sistema, w: nat)
    requires Feliz(s) && w < |s.replicas|
    ensures Feliz(Ejecutar(s, Marcar(w)))
  {
    var r := Ejecutar(s, Marcar(w));
    InvAlEjecutar(s, Marcar(w));
    forall e: nat | e < |s.filas|
      ensures Exacta(r, e) && (r.filas[e].estado == PENDING <==> s.filas[e].estado == PENDING)
    {
      UnaAlMarcar(s, w, e);
    }
    MismosBloqueos(s, r);
  }

  lemma UnaAlMarcar(s: Sistema, w: nat, e: nat)
    requires w < |s.replicas| && e < |s.filas| && Exacta(s, e)
    ensures var r := Ejecutar(s, Marcar(w));
            Exacta(r, e) && (r.filas[e].estado == PENDING <==> s.filas[e].estado == PENDING)
  {
    EstaSiiVeces(s.replicas[w].publicadas, e);
    ManosCambian(s.replicas, w, s.replicas[w].(publicadas := []), e);
  }

  /** Steps that neither lock nor claim keep the batches and the meaning of an empty claim. */
  lemma MismosBloqueos(s: Sistema, r: Sistema)
    requires LotesAparte(s) && VaciosDicenVerdad(s)
    requires r.lotes == s.lotes && |r.filas| == |s.filas| && |r.replicas| == |s.replicas|
    requires forall e :: 0 <= e < |s.filas| ==> (r.filas[e].estado == PENDING <==> s.filas[e].estado == PENDING)
    requires forall w :: 0 <= w < |s.replicas| ==>
               r.replicas[w].bloqueadas == s.replicas[w].bloqueadas && r.replicas[w].vacios == s.replicas[w].vacios
    ensures LotesAparte(r) && VaciosDicenVerdad(r)
  {
    forall w, e: nat | 0 <= w < |r.replicas| && r.replicas[w].vacios > 0 && e < |r.filas|
      && r.filas[e].estado == PENDING
      ensures Bloqueada(r.replicas, e)
    {
      assert s.replicas[w].vacios > 0;
      var x :| 0 <= x < |s.replicas| && e in s.replicas[x].bloqueadas;
      assert e in r.replicas[x].bloqueadas;
    }
  }

  lemma FelizAlEjecutar(s: Sistema, paso: Paso)
    requires Feliz(s) && PasoFeliz(paso)
    ensures Feliz(Ejecutar(s, paso))
  {
    match paso
    case Bloquear(w, limite) => if w < |s.replicas| && Ociosa(s.replicas[w]) { ExactaAlBloquear(s, w, limite); }
    case Confirmar(w) => if w < |s.replicas| && s.replicas[w].bloqueadas != [] { ExactaAlConfirmar(s, w); }
    case Publicar(w) => ExactaAlPublicar(s, w);
    case Marcar(w) => if w < |s.replicas| { ExactaAlMarcar(s, w); }
  }

  lemma SembradoEsFeliz(eventos: nat, replicas: nat)
    ensures Feliz(Sembrado(eventos, replicas))
  {
    var s := Sembrado(eventos, replicas);
    forall e: nat | e < |s.filas| ensures Exacta(s, e) && Acotada(s, e) {
      NadieLaTiene(s.replicas, PorPublicar(e));
      NadieLaTiene(s.replicas, YaPublicada(e));
    }
  }

  lemma {:induction false} FelizEnTodaCorrida(eventos: nat, replicas: nat, pasos: seq<Paso>)
    requires forall k :: 0 <= k < |pasos| ==> PasoFeliz(pasos[k])
    ensures Feliz(Correr(Sembrado(eventos, replicas), pasos))
    ensures var s := Correr(Sembrado(eventos, replicas), pasos);
            |s.filas| == eventos && |s.replicas| == replicas
  {
    if |pasos| == 0 {
      SembradoEsFeliz(eventos, replicas);
    } else {
      FelizEnTodaCorrida(eventos, replicas, pasos[..|pasos| - 1]);
      FelizAlEjecutar(Correr(Sembrado(eventos, replicas), pasos[..|pasos| - 1]), pasos[|pasos| - 1]);
    }
  }

  predicate Detenida(r: Replica)
  {
    Ociosa(r) && r.vacios >= 3
  }

  /**
   Any number of replicas over any number of seeded events, in any interleaving: at every moment the
   batches are disjoint and no event has been published twice; and once all have stopped, the batches
   cover the seeded events, all PROCESSED after exactly one publication.
   */
  lemma {:induction false} ExactamenteUnaVez(eventos: nat, replicas: nat, pasos: seq<Paso>)
    requires forall k :: 0 <= k < |pasos| ==> PasoFeliz(pasos[k])
    ensures var s := Correr(Sembrado(eventos, replicas), pasos);
            && (forall i, j :: 0 <= i < j < |s.lotes| ==> s.lotes[i] !! s.lotes[j])
            && |s.filas| == eventos && |s.replicas| == replicas
            && (forall e :: 0 <= e < eventos ==> s.filas[e].publicada <= 1 && s.filas[e].estado != FAILED)
            && (replicas > 0 && (forall w :: 0 <= w < replicas ==> Detenida(s.replicas[w])) ==>
                  forall e: nat :: e < eventos ==>
                    s.filas[e].estado == PROCESSED && s.filas[e].publicada == 1 && EnAlgunLote(s.lotes, e))
  {
    FelizEnTodaCorrida(eventos, replicas, pasos);
    var s := Correr(Sembrado(eventos, replicas), pasos);
    forall e: nat | e < eventos ensures s.filas[e].publicada <= 1 && s.filas[e].estado != FAILED {
      assert Exacta(s, e);
    }
    if replicas > 0 && forall w :: 0 <= w < replicas ==> Detenida(s.replicas[w]) {
      assert s.replicas[0].vacios > 0;
      forall e: nat | e < eventos ensures s.filas[e].estado == PROCESSED && s.filas[e].publicada == 1 {
        assert Exacta(s, e);
        NadieLaTiene(s.replicas, PorPublicar(e));
        NadieLaTiene(s.replicas, YaPublicada(e));
        assert !Bloqueada(s.replicas, e);
      }
    }
  }

  /* ---- draining has a decreasing measure ---- */

  /** The steps an event still needs: lock, commit, publish, mark. */
  ghost function Peso(s: Sistema, e: nat): nat
    requires e < |s.filas|
  {
    match s.filas[e].estado
    case PENDING => if Bloqueada(s.replicas, e) then 3 else 4
    case PUBLISHING => 1 + Total(s.replicas, PorPublicar(e))
    case _ => 0
  }

  ghost function Potencial(s: Sistema, n: nat): nat
    requires n <= |s.filas|
  {
    if n == 0 then 0 else Potencial(s, n - 1) + Peso(s, n - 1)
  }

  lemma {:induction false} PotencialPunto(s: Sistema, r: Sistema, n: nat, e: nat)
    requires e < n <= |s.filas| == |r.filas|
    requires forall x: nat :: x < n ==> Peso(r, x) <= Peso(s, x)
    requires Peso(r, e) < Peso(s, e)
    ensures Potencial(r, n) < Potencial(s, n)
    decreases n
  {
    if e == n - 1 {
      PotencialMonotono(s, r, n - 1);
    } else {
      PotencialPunto(s, r, n - 1, e);
    }
  }

  lemma {:induction false} PotencialMonotono(s: Sistema, r: Sistema, n: nat)
    requires n <= |s.filas| == |r.filas|
    requires forall x: nat :: x < n ==> Peso(r, x) <= Peso(s, x)
    ensures Potencial(r, n) <= Potencial(s, n)
  {
    if n != 0 { PotencialMonotono(s, r, n - 1); }
  }

  /** A step that did something other than counting an empty claim. */
  ghost predicate Avanza(s: Sistema, paso: Paso)
  {
    Ejecutar(s, paso).filas != s.filas || exists e: nat ::
      Bloqueada(Ejecutar(s, paso).replicas, e) && !Bloqueada(s.replicas, e)
  }

  lemma PesoAlEjecutar(s: Sistema, paso: Paso, e: nat)
    requires Feliz(s) && PasoFeliz(paso) && e < |s.filas|
    ensures |Ejecutar(s, paso).filas| == |s.filas|
    ensures Peso(Ejecutar(s, paso), e) <= Peso(s, e)
    ensures Ejecutar(s, paso).filas[e] != s.filas[e] ==> Peso(Ejecutar(s, paso), e) < Peso(s, e)
    ensures Bloqueada(Ejecutar(s, paso).replicas, e) && !Bloqueada(s.replicas, e)
            ==> Peso(Ejecutar(s, paso), e) < Peso(s, e)
  {
    match paso
    case Bloquear(w, limite) => if w < |s.replicas| && Ociosa(s.replicas[w]) { PesoAlBloquear(s, w, limite, e); }
    case Confirmar(w) => if w < |s.replicas| && s.replicas[w].bloqueadas != [] { PesoAlConfirmar(s, w, e); }
    case Publicar(w) => if ConTarea(s, w) { PesoAlPublicar(s, w, e); }
    case Marcar(w) => if w < |s.replicas| { PesoAlMarcar(s, w, e); }
  }

  lemma PesoAlBloquear(s: Sistema, w: nat, limite: nat, e: nat)
    requires Feliz(s) && w < |s.replicas| && Ociosa(s.replicas[w]) && limite >= 1 && e < |s.filas|
    ensures var r := Ejecutar(s, Bloquear(w, limite));
            Peso(r, e) <= Peso(s, e)
              && (Bloqueada(r.replicas, e) && !Bloqueada(s.replicas, e) ==> Peso(r, e) < Peso(s, e))
  {
    var r := Ejecutar(s, Bloquear(w, limite));
    TomarTomaLasMasViejas(s, |s.filas|, limite);
    ManosCambian(s.replicas, w, r.replicas[w], e);
    if Bloqueada(s.replicas, e) {
      var x :| 0 <= x < |s.replicas| && e in s.replicas[x].bloqueadas;
      assert e in r.replicas[x].bloqueadas;
    }
  }

  lemma BloqueosTrasConfirmar(replicas: seq<Replica>, w: nat, r: Replica, e: nat)
    requires w < |replicas| && BloqueosAparte(replicas) && r.bloqueadas == []
    ensures Bloqueada(replicas[w := r], e) <==> Bloqueada(replicas, e) && e !in replicas[w].bloqueadas
  {
    var despues := replicas[w := r];
    if Bloqueada(despues, e) {
      var x :| 0 <= x < |despues| && e in despues[x].bloqueadas;
      assert x != w && e in replicas[x].bloqueadas;
    }
    if Bloqueada(replicas, e) && e !in replicas[w].bloqueadas {
      var x :| 0 <= x < |replicas| && e in replicas[x].bloqueadas;
      assert e in despues[x].bloqueadas;
    }
  }

  lemma PesoAlConfirmar(s: Sistema, w: nat, e: nat)
    requires Feliz(s) && w < |s.replicas| && s.replicas[w].bloqueadas != [] && e < |s.filas|
    ensures var r := Ejecutar(s, Confirmar(w));
            && Peso(r, e) <= Peso(s, e) && (r.filas[e] != s.filas[e] ==> Peso(r, e) < Peso(s, e))
            && (Bloqueada(r.replicas, e) ==> Bloqueada(s.replicas, e))
  {
    var r := Ejecutar(s, Confirmar(w));
    var ids := s.replicas[w].bloqueadas;
    assert ReplicaBien(s.filas, s.replicas[w]) && Exacta(s, e);
    ManosCambian(s.replicas, w, r.replicas[w], e);
    VecesEnLote(s.filas, ids, e);
    BloqueosTrasConfirmar(s.replicas, w, r.replicas[w], e);
    if e in ids { assert Bloqueada(s.replicas, e); }
  }

  lemma BloqueosIguales(antes: seq<Replica>, despues: seq<Replica>, e: nat)
    requires |antes| == |despues| && forall w :: 0 <= w < |antes| ==> antes[w].bloqueadas == despues[w].bloqueadas
    ensures Bloqueada(antes, e) <==> Bloqueada(despues, e)
  {
    if Bloqueada(antes, e) {
      var x :| 0 <= x < |antes| && e in antes[x].bloqueadas;
      assert e in despues[x].bloqueadas;
    }
  }

  lemma PesoAlPublicar(s: Sistema, w: nat, e: nat)
    requires Feliz(s) && ConTarea(s, w) && e < |s.filas|
    ensures var r := Ejecutar(s, Publicar(w));
            && Peso(r, e) <= Peso(s, e) && (r.filas[e] != s.filas[e] ==> Peso(r, e) < Peso(s, e))
            && (Bloqueada(r.replicas, e) <==> Bloqueada(s.replicas, e))
  {
    var r := Ejecutar(s, Publicar(w));
    assert Exacta(s, e);
    ManosCambian(s.replicas, w, r.replicas[w], e);
    BloqueosIguales(s.replicas, r.replicas, e);
  }

  lemma PesoAlMarcar(s: Sistema, w: nat, e: nat)
    requires Feliz(s) && w < |s.replicas| && e < |s.filas|
    ensures var r := Ejecutar(s, Marcar(w));
            && Peso(r, e) <= Peso(s, e) && (r.filas[e] != s.filas[e] ==> Peso(r, e) < Peso(s, e))
            && (Bloqueada(r.replicas, e) <==> Bloqueada(s.replicas, e))
  {
    var r := Ejecutar(s, Marcar(w));
    assert Exacta(s, e);
    EstaSiiVeces(s.replicas[w].publicadas, e);
    ManosCambian(s.replicas, w, r.replicas[w], e);
    BloqueosIguales(s.replicas, r.replicas, e);
  }

  lemma AvanzarBaja(s: Sistema, paso: Paso)
    requires Feliz(s) && PasoFeliz(paso)
    ensures var r := Ejecutar(s, paso);
            && |r.filas| == |s.filas|
            && Potencial(r, |s.filas|) <= Potencial(s, |s.filas|)
            && (Avanza(s, paso) ==> Potencial(r, |s.filas|) < Potencial(s, |s.filas|))
  {
    var r := Ejecutar(s, paso);
    forall e: nat | e < |s.filas| ensures Peso(r, e) <= Peso(s, e) { PesoAlEjecutar(s, paso, e); }
    PotencialMonotono(s, r, |s.filas|);
    if Avanza(s, paso) {
      var e := CualAvanza(s, paso);
      PesoAlEjecutar(s, paso, e);
      PotencialPunto(s, r, |s.filas|, e);
    }
  }

  lemma CualAvanza(s: Sistema, paso: Paso) returns (e: nat)
    requires Feliz(s) && PasoFeliz(paso) && Avanza(s, paso)
    ensures e < |s.filas| == |Ejecutar(s, paso).filas|
    ensures Ejecutar(s, paso).filas[e] != s.filas[e]
            || (Bloqueada(Ejecutar(s, paso).replicas, e) && !Bloqueada(s.replicas, e))
  {
    var r := Ejecutar(s, paso);
    if r.filas != s.filas {
      assert |r.filas| == |s.filas|;
      e :| 0 <= e < |s.filas| && r.filas[e] != s.filas[e];
    } else {
      e :| Bloqueada(r.replicas, e) && !Bloqueada(s.replicas, e);
      InvAlEjecutar(s, paso);
      var w :| 0 <= w < |r.replicas| && e in r.replicas[w].bloqueadas;
      assert ReplicaBien(r.filas, r.replicas[w]);
    }
  }

  ghost function Avances(s: Sistema, pasos: seq<Paso>): nat
  {
    if |pasos| == 0 then 0
    else
      var n := |pasos| - 1;
      Avances(s, pasos[..n]) + if Avanza(Correr(s, pasos[..n]), pasos[n]) then 1 else 0
  }

  lemma {:induction false} PotencialDeSembrado(eventos: nat, replicas: nat, n: nat)
    requires n <= eventos
    ensures Potencial(Sembrado(eventos, replicas), n) == 4 * n
  {
    if n != 0 { PotencialDeSembrado(eventos, replicas, n - 1); }
  }

  /** Draining n events takes at most 4n steps that do anything, however the replicas interleave. */
  lemma {:induction false} DrenarTermina(eventos: nat, replicas: nat, pasos: seq<Paso>)
    requires forall k :: 0 <= k < |pasos| ==> PasoFeliz(pasos[k])
    ensures var s := Correr(Sembrado(eventos, replicas), pasos);
            |s.filas| == eventos && Avances(Sembrado(eventos, replicas), pasos) + Potencial(s, eventos) <= 4 * eventos
  {
    if |pasos| == 0 {
      PotencialDeSembrado(eventos, replicas, eventos);
    } else {
      var n := |pasos| - 1;
      DrenarTermina(eventos, replicas, pasos[..n]);
      FelizEnTodaCorrida(eventos, replicas, pasos[..n]);
      AvanzarBaja(Correr(Sembrado(eventos, replicas), pasos[..n]), pasos[n]);
    }
  }

  /** No deadlock: while an event is not PROCESSED, some replica has a step that advances. */
  lemma {:induction false} SiempreHayAvance(s: Sistema, e: nat) returns (paso: Paso)
    requires Feliz(s) && |s.replicas| > 0 && e < |s.filas| && s.filas[e].estado != PROCESSED
    ensures PasoFeliz(paso) && Avanza(s, paso)
  {
    if w: nat :| w < |s.replicas| && !Ociosa(s.replicas[w]) {
      paso := AvanceDe(s, w);
    } else {
      paso := Bloquear(0, 1);
      assert Exacta(s, e) && !Bloqueada(s.replicas, e);
      NadieLaTiene(s.replicas, PorPublicar(e));
      NadieLaTiene(s.replicas, YaPublicada(e));
      TomarTomaLasMasViejas(s, |s.filas|, 1);
      var ids := Tomar(s, |s.filas|, 1);
      assert ids != [];
      assert ids[0] in Ejecutar(s, paso).replicas[0].bloqueadas;
      assert Bloqueada(Ejecutar(s, paso).replicas, ids[0]);
    }
  }

  lemma ConfirmarAvanza(s: Sistema, v: nat)
    requires Feliz(s) && v < |s.replicas| && s.replicas[v].bloqueadas != []
    ensures Avanza(s, Confirmar(v))
  {
    assert ReplicaBien(s.filas, s.replicas[v]);
    var f := s.replicas[v].bloqueadas[0];
    assert Ejecutar(s, Confirmar(v)).filas[f] != s.filas[f];
  }

  lemma PublicarAvanza(s: Sistema, w: nat)
    requires Feliz(s) && w < |s.replicas| && s.replicas[w].porPublicar != []
    ensures Avanza(s, Publicar(w))
  {
    var r := s.replicas[w];
    var f := r.porPublicar[0].id;
    assert ReplicaBien(s.filas, r) && r.porPublicar[0] in r.porPublicar;
    assert Exacta(s, f);
    assert Ejecutar(s, Publicar(w)).filas[f] != s.filas[f];
  }

  lemma MarcarAvanza(s: Sistema, w: nat)
    requires Feliz(s) && w < |s.replicas| && s.replicas[w].publicadas != []
    requires forall v :: 0 <= v < |s.replicas| ==> s.replicas[v].bloqueadas == []
    ensures Avanza(s, Marcar(w))
  {
    var r := s.replicas[w];
    var f := r.publicadas[0].id;
    assert ReplicaBien(s.filas, r) && r.publicadas[0] in r.publicadas;
    assert Exacta(s, f);
    EstaSiiVeces(r.publicadas, f);
    ManosCambian(s.replicas, w, r, f);
    assert Ejecutar(s, Marcar(w)).filas[f] != s.filas[f];
  }

  lemma AvanceDe(s: Sistema, w: nat) returns (paso: Paso)
    requires Feliz(s) && w < |s.replicas| && !Ociosa(s.replicas[w])
    ensures PasoFeliz(paso) && Avanza(s, paso)
  {
    if v: nat :| v < |s.replicas| && s.replicas[v].bloqueadas != [] {
      paso := Confirmar(v);
      ConfirmarAvanza(s, v);
    } else if s.replicas[w].porPublicar != [] {
      paso := Publicar(w);
      PublicarAvanza(s, w);
    } else {
      paso := Marcar(w);
      MarcarAvanza(s, w);
    }
  }

  /* ---- and every such run can be carried on until all have stopped ---- */

  lemma {:induction false} CorrerJunto(s: Sistema, a: seq<Paso>, b: seq<Paso>)
    ensures Correr(s, a + b) == Correr(Correr(s, a), b)
  {
    if |b| == 0 {
      assert a + b == a;
    } else {
      CorrerJunto(s, a, b[..|b| - 1]);
      assert (a + b)[..|a + b| - 1] == a + b[..|b| - 1];
    }
  }

  ghost predicate SoloFelices(pasos: seq<Paso>)
  {
    forall k :: 0 <= k < |pasos| ==> PasoFeliz(pasos[k])
  }

  ghost predicate TodasProcesadas(s: Sistema)
  {
    forall e :: 0 <= e < |s.filas| ==> s.filas[e].estado == PROCESSED
  }

  lemma UnPasoMas(s: Sistema, e: nat) returns (paso: Paso)
    requires Feliz(s) && |s.replicas| > 0 && e < |s.filas| && s.filas[e].estado != PROCESSED
    ensures PasoFeliz(paso)
    ensures var r := Ejecutar(s, paso);
            && Feliz(r) && |r.filas| == |s.filas| && |r.replicas| == |s.replicas|
            && Potencial(r, |s.filas|) < Potencial(s, |s.filas|)
  {
    paso := SiempreHayAvance(s, e);
    AvanzarBaja(s, paso);
    FelizAlEjecutar(s, paso);
  }

  lemma {:induction false} HastaElFinal(s: Sistema) returns (pasos: seq<Paso>)
    requires Feliz(s) && |s.replicas| > 0
    ensures SoloFelices(pasos)
    ensures var r := Correr(s, pasos);
            Feliz(r) && TodasProcesadas(r) && |r.filas| == |s.filas| && |r.replicas| == |s.replicas|
    decreases Potencial(s, |s.filas|)
  {
    pasos := [];
    if !TodasProcesadas(s) {
      var e: nat :| e < |s.filas| && s.filas[e].estado != PROCESSED;
      var paso := UnPasoMas(s, e);
      var resto := HastaElFinal(Ejecutar(s, paso));
      pasos := [paso] + resto;
      UnSoloPaso(s, paso);
      CorrerJunto(s, [paso], resto);
    }
  }

  lemma UnSoloPaso(s: Sistema, p: Paso)
    ensures Correr(s, [p]) == Ejecutar(s, p)
  {
    assert [p][..0] == [];
  }

  lemma LoBloqueadoEspera(s: Sistema, w: nat)
    requires Inv(s) && w < |s.replicas|
    ensures s.replicas[w].bloqueadas == [] || exists e :: 0 <= e < |s.filas| && s.filas[e].estado == PENDING
  {
    assert ReplicaBien(s.filas, s.replicas[w]);
    if s.replicas[w].bloqueadas != [] { assert s.filas[s.replicas[w].bloqueadas[0]].estado == PENDING; }
  }

  lemma LoSostenidoVuela(s: Sistema, w: nat)
    requires Feliz(s) && w < |s.replicas|
    ensures (s.replicas[w].porPublicar == [] && s.replicas[w].publicadas == [])
            || exists e :: 0 <= e < |s.filas| && s.filas[e].estado == PUBLISHING
  {
    var r := s.replicas[w];
    assert ReplicaBien(s.filas, r);
    forall e: nat | e < |s.filas| ensures Exclusiva(s, e) { assert Exacta(s, e); }
    if r.porPublicar != [] {
      assert Sostiene(r, r.porPublicar[0]) && TareaBien(s.filas, r.porPublicar[0]);
      EnManosEnVuelo(s, w, r.porPublicar[0]);
    } else if r.publicadas != [] {
      assert Sostiene(r, r.publicadas[0]) && TareaBien(s.filas, r.publicadas[0]);
      EnManosEnVuelo(s, w, r.publicadas[0]);
    }
  }

  lemma LoTomadoEspera(s: Sistema, limite: nat)
    ensures Tomar(s, |s.filas|, limite) == [] || exists e :: 0 <= e < |s.filas| && s.filas[e].estado == PENDING
  {
    TomarTomaLasMasViejas(s, |s.filas|, limite);
    var ids := Tomar(s, |s.filas|, limite);
    if ids != [] { assert s.filas[ids[0]].estado == PENDING; }
  }

  /** An idle replica that finds nothing to claim counts it. */
  lemma UnVacioMas(s: Sistema, w: nat)
    requires TodasProcesadas(s) && w < |s.replicas| && Ociosa(s.replicas[w])
    ensures Ejecutar(s, Bloquear(w, 1))
            == s.(replicas := s.replicas[w := Replica([], [], [], s.replicas[w].vacios + 1)])
  {
    LoTomadoEspera(s, 1);
  }

  /** With nothing left to claim, a replica counts its empty claims, and stops at the third and not before. */
  lemma SeDetieneALaTercera(s: Sistema, w: nat)
    requires Feliz(s) && TodasProcesadas(s) && w < |s.replicas|
    ensures var dos := Ejecutar(Ejecutar(s, Bloquear(w, 1)), Bloquear(w, 1));
            var tres := Ejecutar(dos, Bloquear(w, 1));
            && Feliz(tres) && tres.filas == s.filas
            && |tres.replicas| == |s.replicas| && Detenida(tres.replicas[w])
            && (forall v :: 0 <= v < |s.replicas| && v != w ==> tres.replicas[v] == s.replicas[v])
            && (s.replicas[w].vacios == 0 ==> !Detenida(dos.replicas[w]))
  {
    LoBloqueadoEspera(s, w);
    LoSostenidoVuela(s, w);
    var p := Bloquear(w, 1);
    var uno := Ejecutar(s, p);
    UnVacioMas(s, w);
    var dos := Ejecutar(uno, p);
    UnVacioMas(uno, w);
    UnVacioMas(dos, w);
    FelizAlEjecutar(s, p);
    FelizAlEjecutar(uno, p);
    FelizAlEjecutar(dos, p);
  }

  lemma TresPasos(s: Sistema, p: Paso)
    ensures Correr(s, [p, p, p]) == Ejecutar(Ejecutar(Ejecutar(s, p), p), p)
  {
    UnSoloPaso(s, p);
    UnSoloPaso(Ejecutar(s, p), p);
    UnSoloPaso(Ejecutar(Ejecutar(s, p), p), p);
    assert [p, p, p] == [p] + [p] + [p];
    CorrerJunto(s, [p], [p]);
    CorrerJunto(s, [p] + [p], [p]);
  }

  /** Everything is PROCESSED and the first n replicas have stopped. */
  ghost predicate ParadasHasta(s: Sistema, n: nat)
  {
    && Feliz(s) && TodasProcesadas(s) && n <= |s.replicas|
    && forall w :: 0 <= w < n ==> Detenida(s.replicas[w])
  }

  lemma UnaParadaMas(s: Sistema, n: nat)
    requires ParadasHasta(s, n) && n < |s.replicas|
    ensures var r := Correr(s, [Bloquear(n, 1), Bloquear(n, 1), Bloquear(n, 1)]);
            ParadasHasta(r, n + 1) && |r.replicas| == |s.replicas|
  {
    SeDetieneALaTercera(s, n);
    TresPasos(s, Bloquear(n, 1));
  }

  lemma {:induction false} ParanLasPrimeras(s: Sistema, n: nat) returns (pasos: seq<Paso>)
    requires ParadasHasta(s, 0) && n <= |s.replicas|
    ensures SoloFelices(pasos)
    ensures ParadasHasta(Correr(s, pasos), n) && |Correr(s, pasos).replicas| == |s.replicas|
  {
    pasos := [];
    if n != 0 {
      var previos := ParanLasPrimeras(s, n - 1);
      var tres := [Bloquear(n - 1, 1), Bloquear(n - 1, 1), Bloquear(n - 1, 1)];
      UnaParadaMas(Correr(s, previos), n - 1);
      pasos := previos + tres;
      CorrerJunto(s, previos, tres);
    }
  }

  /** Wherever such a run stands, it can be carried on to a state in which every replica has stopped. */
  lemma SiempreSePuedeTerminar(eventos: nat, replicas: nat, pasos: seq<Paso>) returns (mas: seq<Paso>)
    requires SoloFelices(pasos) && replicas > 0
    ensures SoloFelices(mas)
    ensures var s := Correr(Sembrado(eventos, replicas), pasos + mas);
            |s.replicas| == replicas && forall w :: 0 <= w < replicas ==> Detenida(s.replicas[w])
  {
    FelizEnTodaCorrida(eventos, replicas, pasos);
    var s := Correr(Sembrado(eventos, replicas), pasos);
    var a := HastaElFinal(s);
    var b := ParanLasPrimeras(Correr(s, a), replicas);
    mas := a + b;
    CorrerJunto(s, a, b);
    CorrerJunto(Sembrado(eventos, replicas), pasos, mas);
  }
}
