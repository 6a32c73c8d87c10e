/**
 The transactional outbox with any number of replicas: claims that lock rows before they commit,
 publications, marks, failures, deaths at any point, and rescues that cannot tell a dead replica from
 a slow one.

 A row's age is not modelled: any PUBLISHING row may be rescued at any time, which only adds runs.
 */
module Outbox {
  const MAX_INTENTOS := 5

  datatype Estado = PENDING | PUBLISHING | PROCESSED | FAILED

  /** A row of outbox_events; the last four fields are what the run remembers of it. `conocida` tells
      whether its routing key is in the catalogue. */
  datatype Fila = Fila(conocida: bool, estado: Estado, intentos: nat,
                       publicada: nat, rescatada: nat, devuelta: nat, fallos: nat)

  /** A claimed row as its replica read it. */
  datatype Tarea = Tarea(id: nat, intentos: nat)

  /** `bloqueadas` are rows a claim has locked and not yet committed; `vacios` counts empty claims in a row. */
  datatype Replica = Replica(bloqueadas: seq<nat>, porPublicar: seq<Tarea>, publicadas: seq<Tarea>, vacios: nat)

  const LIBRE := Replica([], [], [], 0)

  /** `lotes` are the batches claimed so far. */
  datatype Sistema = Sistema(filas: seq<Fila>, replicas: seq<Replica>, lotes: seq<set<nat>>)

  datatype Paso =
    | Insertar(conocida: bool)
    | Nueva
    | Bloquear(w: nat, limite: nat)
    | Confirmar(w: nat)
    | Publicar(w: nat)
    | Marcar(w: nat)
    | FallarPublicacion(w: nat)
    | FallarMarca(w: nat)
    | Morir(w: nat)
    | Rescatar(e: nat)

  predicate Ociosa(r: Replica)
  {
    r.bloqueadas == [] && r.porPublicar == [] && r.publicadas == []
  }

  ghost predicate Bloqueada(replicas: seq<Replica>, e: nat)
  {
    exists w :: 0 <= w < |replicas| && e in replicas[w].bloqueadas
  }

  /** An update of these rows would not wait for another replica's claim. */
  ghost predicate NadieBloquea(replicas: seq<Replica>, tareas: seq<Tarea>)
  {
    forall t :: t in tareas ==> !Bloqueada(replicas, t.id)
  }

  /** The oldest PENDING rows among the first `n` that no other claim holds, at most `limite` of them. */
  ghost function Tomar(s: Sistema, n: nat, limite: nat): seq<nat>
    requires n <= |s.filas|
  {
    if n == 0 then []
    else
      var previas := Tomar(s, n - 1, limite);
      if |previas| < limite && s.filas[n - 1].estado == PENDING && !Bloqueada(s.replicas, n - 1)
      then previas + [n - 1] else previas
  }

  function Tareas(filas: seq<Fila>, ids: seq<nat>): (r: seq<Tarea>)
    requires forall k :: 0 <= k < |ids| ==> ids[k] < |filas|
    ensures |r| == |ids| && forall k :: 0 <= k < |r| ==> r[k] == Tarea(ids[k], filas[ids[k]].intentos)
  {
    seq(|ids|, k requires 0 <= k < |ids| => Tarea(ids[k], filas[ids[k]].intentos))
  }

  function Conjunto(ids: seq<nat>): set<nat>
  {
    set e | e in ids
  }

  function IdsDe(tareas: seq<Tarea>): set<nat>
  {
    set t | t in tareas :: t.id
  }

  /** UPDATE ... SET status WHERE id IN (ids). */
  function Poner(filas: seq<Fila>, ids: set<nat>, estado: Estado): (r: seq<Fila>)
    ensures |r| == |filas|
    ensures forall e: nat :: e < |r| ==> r[e] == if e in ids then filas[e].(estado := estado) else filas[e]
  {
    seq(|filas|, e requires 0 <= e < |filas| => if e in ids then filas[e].(estado := estado) else filas[e])
  }

  /** What the catch writes: attempts + 1, then FAILED or back to PENDING. */
  function TrasFallo(f: Fila, leidos: nat): Fila
  {
    if !f.conocida || leidos + 1 >= MAX_INTENTOS
    then f.(estado := FAILED, intentos := leidos + 1, fallos := f.fallos + 1)
    else f.(estado := PENDING, intentos := leidos + 1, fallos := f.fallos + 1, devuelta := f.devuelta + 1)
  }

  /** The table and the replica after a mark. */
  function Marcada(s: Sistema, w: nat): Sistema
    requires w < |s.replicas|
  {
    s.(filas := Poner(s.filas, IdsDe(s.replicas[w].publicadas), PROCESSED),
       replicas := s.replicas[w := s.replicas[w].(publicadas := [])])
  }

  ghost function Ejecutar(s: Sistema, paso: Paso): Sistema
  {
    match paso
    case Insertar(conocida) => s.(filas := s.filas + [Fila(conocida, PENDING, 0, 0, 0, 0, 0)])
    case Nueva => s.(replicas := s.replicas + [LIBRE])
    case Bloquear(w, limite) =>
      if w < |s.replicas| && Ociosa(s.replicas[w]) then
        var ids := Tomar(s, |s.filas|, limite);
        var r := if ids == [] then s.replicas[w].(vacios := s.replicas[w].vacios + 1)
                 else s.replicas[w].(bloqueadas := ids, vacios := 0);
        s.(replicas := s.replicas[w := r])
      else s
    case Confirmar(w) =>
      if w < |s.replicas| && s.replicas[w].bloqueadas != [] && Vigentes(s.filas, s.replicas[w].bloqueadas) then
        var ids := s.replicas[w].bloqueadas;
        s.(filas := Poner(s.filas, Conjunto(ids), PUBLISHING),
           replicas := s.replicas[w := s.replicas[w].(bloqueadas := [], porPublicar := Tareas(s.filas, ids))],
           lotes := s.lotes + [Conjunto(ids)])
      else s
    case Publicar(w) =>
      if ConTarea(s, w) && s.filas[s.replicas[w].porPublicar[0].id].conocida then
        var r := s.replicas[w];
        var t := r.porPublicar[0];
        s.(filas := s.filas[t.id := s.filas[t.id].(publicada := s.filas[t.id].publicada + 1)],
           replicas := s.replicas[w := r.(porPublicar := r.porPublicar[1..], publicadas := [t] + r.publicadas)])
      else s
    case Marcar(w) =>
      if w < |s.replicas| && NadieBloquea(s.replicas, s.replicas[w].publicadas) then
        Marcada(s, w)
      else s
    case FallarPublicacion(w) =>
      if ConTarea(s, w) && !Bloqueada(s.replicas, s.replicas[w].porPublicar[0].id) then
        var r := s.replicas[w];
        var t := r.porPublicar[0];
        s.(filas := s.filas[t.id := TrasFallo(s.filas[t.id], t.intentos)],
           replicas := s.replicas[w := r.(porPublicar := r.porPublicar[1..])])
      else s
    case FallarMarca(w) =>
      if w < |s.replicas| && |s.replicas[w].publicadas| > 0 && s.replicas[w].publicadas[0].id < |s.filas|
         && !Bloqueada(s.replicas, s.replicas[w].publicadas[0].id) then
        var r := s.replicas[w];
        var t := r.publicadas[0];
        s.(filas := s.filas[t.id := TrasFallo(s.filas[t.id], t.intentos)],
           replicas := s.replicas[w := r.(publicadas := r.publicadas[1..])])
      else s
    case Morir(w) => if w < |s.replicas| then s.(replicas := s.replicas[w := LIBRE]) else s
    case Rescatar(e) =>
      if e < |s.filas| && s.filas[e].estado == PUBLISHING
      then s.(filas := s.filas[e := s.filas[e].(estado := PENDING, rescatada := s.filas[e].rescatada + 1)]) else s
  }

  predicate ConTarea(s: Sistema, w: nat)
  {
    w < |s.replicas| && |s.replicas[w].porPublicar| > 0 && s.replicas[w].porPublicar[0].id < |s.filas|
  }

  predicate Vigentes(filas: seq<Fila>, ids: seq<nat>)
  {
    forall k :: 0 <= k < |ids| ==> ids[k] < |filas|
  }

  ghost function Correr(s: Sistema, pasos: seq<Paso>): Sistema
  {
    if |pasos| == 0 then s else Ejecutar(Correr(s, pasos[..|pasos| - 1]), pasos[|pasos| - 1])
  }

  const VACIO := Sistema([], [], [])

  /* ---- how often a row is in the hands of the replicas ---- */

  function Veces(tareas: seq<Tarea>, e: nat): nat
  {
    if |tareas| == 0 then 0 else (if tareas[0].id == e then 1 else 0) + Veces(tareas[1..], e)
  }

  function PorPublicar(e: nat): Replica -> nat
  {
    (r: Replica) => Veces(r.porPublicar, e)
  }

  function YaPublicada(e: nat): Replica -> nat
  {
    (r: Replica) => Veces(r.publicadas, e)
  }

  function Total(replicas: seq<Replica>, f: Replica -> nat): nat
  {
    if |replicas| == 0 then 0 else Total(replicas[..|replicas| - 1], f) + f(replicas[|replicas| - 1])
  }

  lemma {:induction false} TotalCambia(replicas: seq<Replica>, w: nat, r: Replica, f: Replica -> nat)
    requires w < |replicas|
    ensures Total(replicas[w := r], f) == Total(replicas, f) - f(replicas[w]) + f(r)
    ensures Total(replicas, f) >= f(replicas[w])
  {
    var n := |replicas| - 1;
    if w < n {
      TotalCambia(replicas[..n], w, r, f);
      assert replicas[w := r][..n] == replicas[..n][w := r];
    } else {
      assert replicas[w := r][..n] == replicas[..n];
    }
  }

  lemma TotalAgrega(replicas: seq<Replica>, r: Replica, f: Replica -> nat)
    ensures Total(replicas + [r], f) == Total(replicas, f) + f(r)
  {
    assert (replicas + [r])[..|replicas|] == replicas;
  }

  lemma {:induction false} EstaSiiVeces(tareas: seq<Tarea>, e: nat)
    ensures Veces(tareas, e) > 0 <==> e in IdsDe(tareas)
  {
    if |tareas| != 0 {
      EstaSiiVeces(tareas[1..], e);
      assert IdsDe(tareas) == {tareas[0].id} + IdsDe(tareas[1..]) by {
        assert tareas == [tareas[0]] + tareas[1..];
      }
    }
  }

  lemma {:induction false} VecesEnLote(filas: seq<Fila>, ids: seq<nat>, e: nat)
    requires Vigentes(filas, ids) && forall i, j :: 0 <= i < j < |ids| ==> ids[i] != ids[j]
    ensures Veces(Tareas(filas, ids), e) == if e in ids then 1 else 0
  {
    if |ids| != 0 {
      assert Tareas(filas, ids)[1..] == Tareas(filas, ids[1..]);
      VecesEnLote(filas, ids[1..], e);
    }
  }

  /** A claim takes PENDING rows nobody holds, oldest first, and misses none when it is not full. */
  lemma {:induction false} TomarTomaLasMasViejas(s: Sistema, n: nat, limite: nat)
    requires n <= |s.filas|
    ensures var r := Tomar(s, n, limite);
            && |r| <= limite
            && (forall k :: 0 <= k < |r| ==>
                  r[k] < n && s.filas[r[k]].estado == PENDING && !Bloqueada(s.replicas, r[k]))
            && (forall i, j :: 0 <= i < j < |r| ==> r[i] < r[j])
            && (forall e: nat :: e < n && s.filas[e].estado == PENDING && !Bloqueada(s.replicas, e) && e !in r ==>
                  |r| == limite && forall k :: 0 <= k < |r| ==> r[k] < e)
  {
    if n != 0 {
      TomarTomaLasMasViejas(s, n - 1, limite);
    }
  }

  /* ---- what every run keeps ---- */

  ghost predicate TareaBien(filas: seq<Fila>, t: Tarea)
  {
    t.id < |filas| && t.intentos <= filas[t.id].fallos
  }

  ghost predicate FilaBien(f: Fila)
  {
    && f.intentos <= f.fallos && f.devuelta <= f.fallos
    && (f.estado == PROCESSED ==> f.publicada >= 1)
    && (f.estado == FAILED ==> f.fallos >= 1 && (!f.conocida || f.fallos >= MAX_INTENTOS))
    && (!f.conocida ==> f.publicada == 0)
  }

  ghost predicate ReplicaBien(filas: seq<Fila>, r: Replica)
  {
    && (forall k :: 0 <= k < |r.bloqueadas| ==> r.bloqueadas[k] < |filas| && filas[r.bloqueadas[k]].estado == PENDING)
    && (forall i, j :: 0 <= i < j < |r.bloqueadas| ==> r.bloqueadas[i] < r.bloqueadas[j])
    && (r.bloqueadas != [] ==> r.porPublicar == [] && r.publicadas == [])
    && (forall t :: t in r.porPublicar ==> TareaBien(filas, t))
    && (forall t :: t in r.publicadas ==> TareaBien(filas, t) && filas[t.id].publicada >= 1)
  }

  /** No two claims hold the same row. */
  ghost predicate BloqueosAparte(replicas: seq<Replica>)
  {
    forall v, w, e :: 0 <= v < w < |replicas| && e in replicas[v].bloqueadas ==> e !in replicas[w].bloqueadas
  }

  ghost predicate Sano(s: Sistema)
  {
    && (forall e :: 0 <= e < |s.filas| ==> FilaBien(s.filas[e]))
    && (forall w :: 0 <= w < |s.replicas| ==> ReplicaBien(s.filas, s.replicas[w]))
    && BloqueosAparte(s.replicas)
  }

  /** A publication still to come needs the row PENDING or in someone's hands; every rescue and every
      return grants one more. */
  ghost predicate Acotada(s: Sistema, e: nat)
    requires e < |s.filas|
  {
    (if s.filas[e].estado == PENDING then 1 else 0) + Total(s.replicas, PorPublicar(e)) + s.filas[e].publicada
    <= 1 + s.filas[e].rescatada + s.filas[e].devuelta
  }

  ghost predicate Inv(s: Sistema)
  {
    Sano(s) && forall e: nat :: e < |s.filas| ==> Acotada(s, e)
  }

  /** Rows that keep what tareas and rows rely on, for the replicas whose hands do not change. */
  ghost predicate Crecen(antes: seq<Fila>, despues: seq<Fila>)
  {
    && |antes| <= |despues|
    && forall e :: 0 <= e < |antes| ==>
         antes[e].fallos <= despues[e].fallos && antes[e].publicada <= despues[e].publicada
  }

  lemma ReplicaSigueBien(antes: seq<Fila>, despues: seq<Fila>, r: Replica)
    requires Crecen(antes, despues) && ReplicaBien(antes, r)
    requires forall e :: e in r.bloqueadas && e < |antes| ==> despues[e].estado == antes[e].estado
    ensures ReplicaBien(despues, r)
  {
  }

  lemma SanoAlCambiar(s: Sistema, filas: seq<Fila>, w: nat, r: Replica, lotes: seq<set<nat>>)
    requires Sano(s) && w < |s.replicas| && Crecen(s.filas, filas)
    requires forall e :: 0 <= e < |filas| ==> FilaBien(filas[e])
    requires forall e: nat :: e < |s.filas| && filas[e].estado != s.filas[e].estado ==>
               !Bloqueada(s.replicas, e) || e in s.replicas[w].bloqueadas
    requires ReplicaBien(filas, r)
    requires forall e :: e in r.bloqueadas ==> e in s.replicas[w].bloqueadas || !Bloqueada(s.replicas, e)
    ensures Sano(Sistema(filas, s.replicas[w := r], lotes))
  {
    forall v | 0 <= v < |s.replicas| && v != w ensures ReplicaBien(filas, s.replicas[v]) {
      forall e | e in s.replicas[v].bloqueadas && e < |s.filas| ensures filas[e].estado == s.filas[e].estado {
        assert Bloqueada(s.replicas, e);
      }
      ReplicaSigueBien(s.filas, filas, s.replicas[v]);
    }
    forall v, e | 0 <= v < |s.replicas| && v != w && e in s.replicas[v].bloqueadas ensures e !in r.bloqueadas {
      assert Bloqueada(s.replicas, e);
    }
  }

  lemma {:induction false} NadieLaTiene(replicas: seq<Replica>, f: Replica -> nat)
    requires forall w :: 0 <= w < |replicas| ==> f(replicas[w]) == 0
    ensures Total(replicas, f) == 0
  {
    if |replicas| != 0 {
      NadieLaTiene(replicas[..|replicas| - 1], f);
    }
  }

  lemma InvAlInsertar(s: Sistema, conocida: bool)
    requires Inv(s)
    ensures Inv(Ejecutar(s, Insertar(conocida)))
  {
    var r := Ejecutar(s, Insertar(conocida));
    forall w | 0 <= w < |s.replicas| ensures ReplicaBien(r.filas, s.replicas[w]) {
      ReplicaSigueBien(s.filas, r.filas, s.replicas[w]);
    }
    forall e: nat | e < |r.filas| ensures Acotada(r, e) {
      if e < |s.filas| {
        assert Acotada(s, e);
      } else {
        forall w | 0 <= w < |s.replicas| ensures PorPublicar(e)(s.replicas[w]) == 0 {
          assert ReplicaBien(s.filas, s.replicas[w]);
          EstaSiiVeces(s.replicas[w].porPublicar, e);
        }
        NadieLaTiene(s.replicas, PorPublicar(e));
      }
    }
  }

  lemma InvAlLlegar(s: Sistema)
    requires Inv(s)
    ensures Inv(Ejecutar(s, Nueva))
  {
    var r := Ejecutar(s, Nueva);
    forall e: nat | e < |r.filas| ensures Acotada(r, e) {
      assert Acotada(s, e);
      TotalAgrega(s.replicas, LIBRE, PorPublicar(e));
    }
  }

  lemma InvAlBloquear(s: Sistema, w: nat, limite: nat)
    requires Inv(s) && w < |s.replicas| && Ociosa(s.replicas[w])
    ensures Inv(Ejecutar(s, Bloquear(w, limite)))
  {
    var r := Ejecutar(s, Bloquear(w, limite));
    TomarTomaLasMasViejas(s, |s.filas|, limite);
    SanoAlCambiar(s, s.filas, w, r.replicas[w], s.lotes);
    forall e: nat | e < |r.filas| ensures Acotada(r, e) {
      assert Acotada(s, e);
      TotalCambia(s.replicas, w, r.replicas[w], PorPublicar(e));
    }
  }

  lemma AcotadaAlConfirmar(s: Sistema, w: nat, e: nat)
    requires Sano(s) && w < |s.replicas| && s.replicas[w].bloqueadas != [] && e < |s.filas| && Acotada(s, e)
    ensures Acotada(Ejecutar(s, Confirmar(w)), e)
  {
    var ids := s.replicas[w].bloqueadas;
    assert ReplicaBien(s.filas, s.replicas[w]);
    TotalCambia(s.replicas, w, Ejecutar(s, Confirmar(w)).replicas[w], PorPublicar(e));
    VecesEnLote(s.filas, ids, e);
    assert e in ids ==> s.filas[e].estado == PENDING;
  }

  lemma SanoAlConfirmar(s: Sistema, w: nat)
    requires Sano(s) && w < |s.replicas| && s.replicas[w].bloqueadas != []
    ensures Sano(Ejecutar(s, Confirmar(w)))
  {
    var r := Ejecutar(s, Confirmar(w));
    assert ReplicaBien(s.filas, s.replicas[w]);
    SanoAlCambiar(s, r.filas, w, r.replicas[w], r.lotes);
  }

  lemma InvAlConfirmar(s: Sistema, w: nat)
    requires Inv(s) && w < |s.replicas| && s.replicas[w].bloqueadas != []
    ensures Inv(Ejecutar(s, Confirmar(w)))
  {
    SanoAlConfirmar(s, w);
    forall e: nat | e < |s.filas| ensures Acotada(Ejecutar(s, Confirmar(w)), e) { AcotadaAlConfirmar(s, w, e); }
  }

  lemma ReplicaTrasPublicar(filas: seq<Fila>, r: Replica)
    requires ReplicaBien(filas, r) && |r.porPublicar| > 0
    ensures var t := r.porPublicar[0];
            && TareaBien(filas, t)
            && ReplicaBien(filas[t.id := filas[t.id].(publicada := filas[t.id].publicada + 1)],
                           r.(porPublicar := r.porPublicar[1..], publicadas := [t] + r.publicadas))
  {
    assert r.porPublicar[0] in r.porPublicar;
    forall t | t in r.porPublicar[1..] ensures t in r.porPublicar {}
  }

  lemma InvAlPublicar(s: Sistema, w: nat)
    requires Inv(s) && ConTarea(s, w) && s.filas[s.replicas[w].porPublicar[0].id].conocida
    ensures Inv(Ejecutar(s, Publicar(w)))
  {
    var r := Ejecutar(s, Publicar(w));
    var antes := s.replicas[w];
    assert Sano(r) by {
      assert FilaBien(s.filas[antes.porPublicar[0].id]);
      ReplicaTrasPublicar(s.filas, antes);
      SanoAlCambiar(s, r.filas, w, r.replicas[w], r.lotes);
    }
    forall e: nat | e < |r.filas| ensures Acotada(r, e) {
      assert Acotada(s, e);
      TotalCambia(s.replicas, w, r.replicas[w], PorPublicar(e));
    }
  }

  lemma FilasTrasMarcar(filas: seq<Fila>, r: Replica)
    requires ReplicaBien(filas, r) && forall e :: 0 <= e < |filas| ==> FilaBien(filas[e])
    ensures var marcadas := Poner(filas, IdsDe(r.publicadas), PROCESSED);
            && Crecen(filas, marcadas) && forall e :: 0 <= e < |marcadas| ==> FilaBien(marcadas[e])
  {
    forall e: nat | e < |filas| && e in IdsDe(r.publicadas) ensures filas[e].publicada >= 1 {
      var t :| t in r.publicadas && t.id == e;
    }
  }

  lemma ReplicaTrasMarcar(filas: seq<Fila>, r: Replica)
    requires ReplicaBien(filas, r)
    ensures ReplicaBien(Poner(filas, IdsDe(r.publicadas), PROCESSED), r.(publicadas := []))
  {
    var marcadas := Poner(filas, IdsDe(r.publicadas), PROCESSED);
    if r.bloqueadas != [] {
      assert r.publicadas == [] && marcadas == filas;
    }
  }

  lemma NadieBloqueaLasPublicadas(replicas: seq<Replica>, publicadas: seq<Tarea>)
    requires NadieBloquea(replicas, publicadas)
    ensures forall e :: e in IdsDe(publicadas) ==> !Bloqueada(replicas, e)
  {
  }

  lemma SanoAlMarcar(s: Sistema, w: nat, r: Replica, marcadas: seq<Fila>)
    requires Sano(s) && w < |s.replicas| && r == s.replicas[w]
    requires marcadas == Poner(s.filas, IdsDe(r.publicadas), PROCESSED)
    requires NadieBloquea(s.replicas, r.publicadas)
    ensures Sano(Sistema(marcadas, s.replicas[w := r.(publicadas := [])], s.lotes))
  {
    assert Crecen(s.filas, marcadas) && forall e :: 0 <= e < |marcadas| ==> FilaBien(marcadas[e]) by {
      FilasTrasMarcar(s.filas, r);
    }
    assert forall e :: e in IdsDe(r.publicadas) ==> !Bloqueada(s.replicas, e) by {
      NadieBloqueaLasPublicadas(s.replicas, r.publicadas);
    }
    assert ReplicaBien(marcadas, r.(publicadas := [])) by { ReplicaTrasMarcar(s.filas, r); }
    SanoAlCambiar(s, marcadas, w, r.(publicadas := []), s.lotes);
  }

  lemma AcotadaAlMarcar(s: Sistema, w: nat, e: nat)
    requires w < |s.replicas| && e < |s.filas| && Acotada(s, e)
    ensures Acotada(Marcada(s, w), e)
  {
    TotalCambia(s.replicas, w, s.replicas[w].(publicadas := []), PorPublicar(e));
  }

  lemma InvTrasMarcar(s: Sistema, w: nat)
    requires Inv(s) && w < |s.replicas|
    requires NadieBloquea(s.replicas, s.replicas[w].publicadas)
    ensures Inv(Marcada(s, w))
  {
    SanoAlMarcar(s, w, s.replicas[w], Marcada(s, w).filas);
    forall e: nat | e < |s.filas| ensures Acotada(Marcada(s, w), e) { AcotadaAlMarcar(s, w, e); }
  }

  lemma InvAlFallar(s: Sistema, w: nat, t: Tarea, r: Replica)
    requires Inv(s) && w < |s.replicas| && TareaBien(s.filas, t) && !Bloqueada(s.replicas, t.id)
    requires r.bloqueadas == [] == s.replicas[w].bloqueadas
    requires (forall x :: x in r.porPublicar ==> x in s.replicas[w].porPublicar)
             && (forall x :: x in r.publicadas ==> x in s.replicas[w].publicadas)
    requires forall e: nat :: Veces(r.porPublicar, e) <= Veces(s.replicas[w].porPublicar, e)
    ensures Inv(s.(filas := s.filas[t.id := TrasFallo(s.filas[t.id], t.intentos)], replicas := s.replicas[w := r]))
  {
    var filas := s.filas[t.id := TrasFallo(s.filas[t.id], t.intentos)];
    var despues := s.(filas := filas, replicas := s.replicas[w := r]);
    assert Sano(despues) by {
      assert FilaBien(s.filas[t.id]);
      assert ReplicaBien(s.filas, s.replicas[w]);
      SanoAlCambiar(s, filas, w, r, s.lotes);
    }
    forall e: nat | e < |filas| ensures Acotada(despues, e) {
      assert Acotada(s, e);
      TotalCambia(s.replicas, w, r, PorPublicar(e));
    }
  }

  lemma InvAlMorir(s: Sistema, w: nat)
    requires Inv(s) && w < |s.replicas|
    ensures Inv(Ejecutar(s, Morir(w)))
  {
    var r := Ejecutar(s, Morir(w));
    SanoAlCambiar(s, s.filas, w, LIBRE, s.lotes);
    forall e: nat | e < |r.filas| ensures Acotada(r, e) {
      assert Acotada(s, e);
      TotalCambia(s.replicas, w, LIBRE, PorPublicar(e));
    }
  }

  lemma InvAlRescatar(s: Sistema, e: nat)
    requires Inv(s) && e < |s.filas| && s.filas[e].estado == PUBLISHING
    ensures Inv(Ejecutar(s, Rescatar(e)))
  {
    var r := Ejecutar(s, Rescatar(e));
    assert FilaBien(s.filas[e]);
    forall w | 0 <= w < |s.replicas| ensures ReplicaBien(r.filas, s.replicas[w]) {
      assert ReplicaBien(s.filas, s.replicas[w]);
      ReplicaSigueBien(s.filas, r.filas, s.replicas[w]);
    }
    forall x: nat | x < |r.filas| ensures Acotada(r, x) {
      assert Acotada(s, x);
    }
  }

  lemma InvAlFallarPublicacion(s: Sistema, w: nat)
    requires Inv(s)
    ensures Inv(Ejecutar(s, FallarPublicacion(w)))
  {
    if ConTarea(s, w) && !Bloqueada(s.replicas, s.replicas[w].porPublicar[0].id) {
      var r := s.replicas[w];
      assert ReplicaBien(s.filas, r) && r.porPublicar[0] in r.porPublicar;
      InvAlFallar(s, w, r.porPublicar[0], r.(porPublicar := r.porPublicar[1..]));
    }
  }

  lemma InvAlFallarMarca(s: Sistema, w: nat)
    requires Inv(s)
    ensures Inv(Ejecutar(s, FallarMarca(w)))
  {
    if w < |s.replicas| && |s.replicas[w].publicadas| > 0 && !Bloqueada(s.replicas, s.replicas[w].publicadas[0].id) {
      var r := s.replicas[w];
      assert ReplicaBien(s.filas, r) && r.publicadas[0] in r.publicadas;
      InvAlFallar(s, w, r.publicadas[0], r.(publicadas := r.publicadas[1..]));
    }
  }

  lemma InvAlEjecutar(s: Sistema, paso: Paso)
    requires Inv(s)
    ensures Inv(Ejecutar(s, paso))
  {
    match paso
    case Insertar(conocida) => InvAlInsertar(s, conocida);
    case Nueva => InvAlLlegar(s);
    case Bloquear(w, limite) => if w < |s.replicas| && Ociosa(s.replicas[w]) { InvAlBloquear(s, w, limite); }
    case Confirmar(w) => if w < |s.replicas| && s.replicas[w].bloqueadas != [] { InvAlConfirmar(s, w); }
    case Publicar(w) => if ConTarea(s, w) && s.filas[s.replicas[w].porPublicar[0].id].conocida { InvAlPublicar(s, w); }
    case Marcar(w) => if w < |s.replicas| && NadieBloquea(s.replicas, s.replicas[w].publicadas) { InvTrasMarcar(s, w); }
    case FallarPublicacion(w) => InvAlFallarPublicacion(s, w);
    case FallarMarca(w) => InvAlFallarMarca(s, w);
    case Morir(w) => if w < |s.replicas| { InvAlMorir(s, w); }
    case Rescatar(e) => if e < |s.filas| && s.filas[e].estado == PUBLISHING { InvAlRescatar(s, e); }
  }

  lemma {:induction false} InvEnTodaCorrida(pasos: seq<Paso>)
    ensures Inv(Correr(VACIO, pasos))
  {
    if |pasos| != 0 {
      InvEnTodaCorrida(pasos[..|pasos| - 1]);
      InvAlEjecutar(Correr(VACIO, pasos[..|pasos| - 1]), pasos[|pasos| - 1]);
    }
  }

  /**
   Whatever dies, fails or is rescued while still alive: an event is published at most once plus once
   per rescue and per failure that returned it; PROCESSED means published; FAILED means an unknown key
   (and then it was never published) or at least five failures; no two claims hold the same row.
   */
  lemma EntregaEnTodaCorrida(pasos: seq<Paso>, e: nat)
    requires e < |Correr(VACIO, pasos).filas|
    ensures var s := Correr(VACIO, pasos);
            var f := s.filas[e];
            && f.publicada <= 1 + f.rescatada + f.devuelta
            && f.devuelta <= f.fallos
            && (f.estado == PROCESSED ==> f.publicada >= 1)
            && (f.estado == FAILED
                ==> if f.conocida then f.fallos >= 5 else f.publicada == 0 && f.fallos >= 1)
            && BloqueosAparte(s.replicas)
  {
    InvEnTodaCorrida(pasos);
    var s := Correr(VACIO, pasos);
    assert FilaBien(s.filas[e]) && Acotada(s, e);
  }

  /** A death frees what the replica had locked and leaves the table as its last commit did: a row it had
      claimed stays PUBLISHING, for a rescue to find. */
  lemma LaMuerteSueltaLosBloqueos(s: Sistema, w: nat, e: nat)
    requires Inv(s) && w < |s.replicas|
    ensures var r := Ejecutar(s, Morir(w));
            && r.filas == s.filas && |r.replicas| == |s.replicas| && Ociosa(r.replicas[w])
            && (forall v :: 0 <= v < |s.replicas| && v != w ==> r.replicas[v] == s.replicas[v])
            && (Bloqueada(r.replicas, e) <==> Bloqueada(s.replicas, e) && e !in s.replicas[w].bloqueadas)
  {
    var r := Ejecutar(s, Morir(w));
    if v :| 0 <= v < |s.replicas| && v != w && e in s.replicas[v].bloqueadas {
      assert e in r.replicas[v].bloqueadas && e !in s.replicas[w].bloqueadas;
    }
  }

  lemma {:induction false} CrecienteAlMenos(ids: seq<nat>, k: nat)
    requires k < |ids| && forall i, j :: 0 <= i < j < |ids| ==> ids[i] < ids[j]
    ensures ids[k] >= k
  {
    if k > 0 { CrecienteAlMenos(ids, k - 1); }
  }

  /** A rescued row is claimed again by whoever claims next with room for it, once no one locks it. */
  lemma LaRescatadaVuelveATomarse(s: Sistema, e: nat, w: nat, limite: nat)
    requires e < |s.filas| && s.filas[e].estado == PUBLISHING && !Bloqueada(s.replicas, e)
    requires w < |s.replicas| && Ociosa(s.replicas[w]) && limite > e
    ensures var r := Ejecutar(Ejecutar(s, Rescatar(e)), Bloquear(w, limite));
            && r.filas == s.filas[e := s.filas[e].(estado := PENDING, rescatada := s.filas[e].rescatada + 1)]
            && e in r.replicas[w].bloqueadas
  {
    var medio := Ejecutar(s, Rescatar(e));
    TomarTomaLasMasViejas(medio, |medio.filas|, limite);
    var ids := Tomar(medio, |medio.filas|, limite);
    if e !in ids { CrecienteAlMenos(ids, limite - 1); }
  }

  /** The events a run inserted: of each, whether its key is known. */
  ghost function Insertadas(pasos: seq<Paso>): seq<bool>
  {
    if |pasos| == 0 then []
    else
      var n := |pasos| - 1;
      Insertadas(pasos[..n]) + if pasos[n].Insertar? then [pasos[n].conocida] else []
  }

  lemma UnaInsercionMas(s: Sistema, paso: Paso)
    ensures var filas := Ejecutar(s, paso).filas;
            && |filas| == |s.filas| + (if paso.Insertar? then 1 else 0)
            && (forall e :: 0 <= e < |s.filas| ==> filas[e].conocida == s.filas[e].conocida)
            && (paso.Insertar? ==>
                  filas[|s.filas|].conocida == paso.conocida && filas[|s.filas|].estado == PENDING
                  && filas[|s.filas|].publicada == 0)
  {
  }

  /** The table holds the inserted events, all of them and in order, with their keys. */
  lemma {:induction false} LasFilasSonLasInsertadas(pasos: seq<Paso>)
    ensures var filas, claves := Correr(VACIO, pasos).filas, Insertadas(pasos);
            |filas| == |claves| && forall e :: 0 <= e < |filas| ==> filas[e].conocida == claves[e]
  {
    if |pasos| != 0 {
      LasFilasSonLasInsertadas(pasos[..|pasos| - 1]);
      UnaInsercionMas(Correr(VACIO, pasos[..|pasos| - 1]), pasos[|pasos| - 1]);
    }
  }

  lemma {:induction false} SinFallosNadieCuentaFallos(pasos: seq<Paso>, e: nat)
    requires forall k :: 0 <= k < |pasos| ==> !pasos[k].FallarPublicacion? && !pasos[k].FallarMarca?
    ensures e < |Correr(VACIO, pasos).filas| ==> Correr(VACIO, pasos).filas[e].fallos == 0
  {
    if |pasos| != 0 {
      SinFallosNadieCuentaFallos(pasos[..|pasos| - 1], e);
    }
  }

  /** With replicas that only die, or are rescued while slow, no event is ever given up: it is waiting,
      in flight (and then rescuable) or PROCESSED, and published at most once plus once per rescue. */
  lemma {:induction false} NadaSePierde(pasos: seq<Paso>, e: nat)
    requires forall k :: 0 <= k < |pasos| ==> !pasos[k].FallarPublicacion? && !pasos[k].FallarMarca?
    requires e < |Correr(VACIO, pasos).filas|
    ensures var f := Correr(VACIO, pasos).filas[e];
            && (f.estado == PENDING || f.estado == PUBLISHING || (f.estado == PROCESSED && f.publicada >= 1))
            && f.publicada <= 1 + f.rescatada
  {
    SinFallosNadieCuentaFallos(pasos, e);
    EntregaEnTodaCorrida(pasos, e);
  }
}
