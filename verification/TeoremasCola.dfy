/**
 The queue of payments as the machine runs it: when it grows, when one intent becomes two rows, and when a
 claimed row is left with nobody working on it.

 A claim here needs no shift: procesarPagosPendientes starts under an open one, which may have closed by
 the time a row of its list is claimed.
 */
module TeoremasDeLaCola {
  import opened Comun
  import opened Tablas
  import opened Cobros
  import opened Protocolo
  import opened CajasSanas
  import opened Filas
  import opened Invariante

  /* ---- growth ---- */

  /** A single payment looks its shift up and finds none open. */
  ghost predicate Encola(s: Sistema, paso: Paso)
  {
    && paso.BuscarTurno? && paso.p in s.procesos && s.procesos[paso.p].ConCuenta? && s.procesos[paso.p].orden.Simple?
    && TurnoAbierto(s.caja.turnos, s.procesos[paso.p].remota.sede).None?
  }

  lemma CobrarNoTocaLaCola(s: Sistema, p: nat)
    requires p in s.procesos && s.procesos[p].ConTurno?
    ensures PasoCobrar(s, p).caja.pendientes == s.caja.pendientes
  {
    var pr := s.procesos[p];
    var ctx := ContextoDe(pr, s.reloj);
    CobroEsCombinado(s.caja, ctx, pr.orden);
    TramosSuman(s.caja.(cuentas := Proyectar(s.caja.cuentas, ctx)), ctx, Pagado(s.caja.transacciones, ctx.cuenta) == 0,
                PendienteAntes(s.caja.transacciones, ctx), PartesDe(pr.orden));
  }

  /** The queue never loses a row and grows in exactly one kind of step, by the command of the process. */
  lemma LaColaCreceSii(s: Sistema, paso: Paso)
    ensures var antes, despues := s.caja.pendientes, Ejecutar(s, paso).caja.pendientes;
            && |despues| >= |antes| && (|despues| > |antes| <==> Encola(s, paso))
            && (Encola(s, paso) ==>
                  var pr := s.procesos[paso.p];
                  despues == antes + [PagoPendiente(pr.remota.sede, pr.orden.comando, PENDIENTE, None)])
  {
    if paso.Cobrar? && paso.p in s.procesos && s.procesos[paso.p].ConTurno? { CobrarNoTocaLaCola(s, paso.p); }
  }

  /** ... and the process was draining a row: its intent is queued a second time. */
  ghost predicate Duplica(s: Sistema, paso: Paso)
  {
    Encola(s, paso) && FilaDe(s.procesos[paso.p].orden).Some?
  }

  /** The row a duplicating step repeats is claimed by its process, and the new one carries its command. */
  lemma DuplicaLaFilaReclamada(s: Sistema, paso: Paso)
    requires Inv(s) && Duplica(s, paso)
    ensures var f, r := FilaDe(s.procesos[paso.p].orden).value, Ejecutar(s, paso).caja.pendientes;
            && f < |s.caja.pendientes| && s.caja.pendientes[f].estado == PROCESANDO
            && |r| == |s.caja.pendientes| + 1 && r[|s.caja.pendientes|].comando == s.caja.pendientes[f].comando
  {
    LaColaCreceSii(s, paso);
    assert DuenioBien(s.procesos[paso.p], s.caja.pendientes, s.origen);
  }

  /** The intents once a step is taken: a request's row is one of its own, a drained one's repetition is of the
      intent of the row drained. */
  ghost function Siguientes(antes: Sistema, paso: Paso, previas: seq<nat>): seq<nat>
  {
    if !Encola(antes, paso) then previas
    else
      var fila := FilaDe(antes.procesos[paso.p].orden);
      previas + [if fila.Some? && fila.value < |previas| then previas[fila.value] else |previas|]
  }

  /** For each row of the queue, the first row of its intent. */
  ghost function Intenciones(pasos: seq<Paso>): seq<nat>
  {
    if |pasos| == 0 then []
    else
      var n := |pasos| - 1;
      Siguientes(Correr(INICIAL, pasos[..n]), pasos[n], Intenciones(pasos[..n]))
  }

  ghost predicate IntencionesBien(intenciones: seq<nat>, pendientes: seq<PagoPendiente>)
  {
    && |intenciones| == |pendientes|
    && forall x :: 0 <= x < |intenciones| ==>
         intenciones[x] <= x && pendientes[intenciones[x]].comando == pendientes[x].comando
  }

  lemma LosComandosQuedan(s: Sistema, paso: Paso, x: nat)
    requires x < |s.caja.pendientes|
    ensures x < |Ejecutar(s, paso).caja.pendientes|
    ensures Ejecutar(s, paso).caja.pendientes[x].comando == s.caja.pendientes[x].comando
  {
    LaColaCreceSii(s, paso);
    if paso.Cobrar? && paso.p in s.procesos && s.procesos[paso.p].ConTurno? { CobrarNoTocaLaCola(s, paso.p); }
  }

  lemma IntencionesTrasUnPaso(antes: Sistema, paso: Paso, previas: seq<nat>)
    requires Inv(antes) && IntencionesBien(previas, antes.caja.pendientes)
    ensures IntencionesBien(Siguientes(antes, paso, previas), Ejecutar(antes, paso).caja.pendientes)
  {
    LaColaCreceSii(antes, paso);
    forall x: nat | x < |antes.caja.pendientes|
      ensures Ejecutar(antes, paso).caja.pendientes[x].comando == antes.caja.pendientes[x].comando
    {
      LosComandosQuedan(antes, paso, x);
    }
    if Duplica(antes, paso) { DuplicaLaFilaReclamada(antes, paso); }
  }

  lemma {:induction false} IntencionesDeLaCola(pasos: seq<Paso>)
    ensures IntencionesBien(Intenciones(pasos), Correr(INICIAL, pasos).caja.pendientes)
  {
    if |pasos| > 0 {
      var n := |pasos| - 1;
      IntencionesDeLaCola(pasos[..n]);
      InvEnTodaCorrida(pasos[..n]);
      IntencionesTrasUnPaso(Correr(INICIAL, pasos[..n]), pasos[n], Intenciones(pasos[..n]));
    }
  }

  ghost predicate DuplicaEn(pasos: seq<Paso>, k: nat)
  {
    k < |pasos| && Duplica(Correr(INICIAL, pasos[..k]), pasos[k])
  }

  ghost predicate DosFilasDeUna(intenciones: seq<nat>)
  {
    exists i, j :: 0 <= i < j < |intenciones| && intenciones[i] == intenciones[j]
  }

  lemma DuplicaEnPrefijo(pasos: seq<Paso>)
    requires |pasos| > 0
    ensures var n := |pasos| - 1;
            (exists k :: DuplicaEn(pasos, k))
            <==> (exists k :: DuplicaEn(pasos[..n], k)) || Duplica(Correr(INICIAL, pasos[..n]), pasos[n])
  {
    var n := |pasos| - 1;
    if k: nat :| DuplicaEn(pasos[..n], k) {
      assert pasos[..n][..k] == pasos[..k];
      assert DuplicaEn(pasos, k);
    }
    if Duplica(Correr(INICIAL, pasos[..n]), pasos[n]) { assert DuplicaEn(pasos, n); }
    if k: nat :| DuplicaEn(pasos, k) {
      if k < n {
        assert pasos[..n][..k] == pasos[..k];
        assert DuplicaEn(pasos[..n], k);
      }
    }
  }

  /** What a step does to the intents: nothing, a new one, or one more row of an old one. */
  lemma IntencionesEnUnPaso(pasos: seq<Paso>)
    requires |pasos| > 0
    ensures var n := |pasos| - 1;
            var antes, previas, ahora := Correr(INICIAL, pasos[..n]), Intenciones(pasos[..n]), Intenciones(pasos);
            if Duplica(antes, pasos[n]) then |previas| < |ahora| && DosFilasDeUna(ahora)
            else ahora == previas || ahora == previas + [|previas|]
  {
    var n := |pasos| - 1;
    var antes, previas, ahora := Correr(INICIAL, pasos[..n]), Intenciones(pasos[..n]), Intenciones(pasos);
    if Duplica(antes, pasos[n]) {
      InvEnTodaCorrida(pasos[..n]);
      IntencionesDeLaCola(pasos[..n]);
      DuplicaLaFilaReclamada(antes, pasos[n]);
      var f := FilaDe(antes.procesos[pasos[n].p].orden).value;
      assert ahora[f] == ahora[|previas|];
    }
  }

  /** One intent keeps one row in exactly the runs in which no drain looked its shift up and found none. */
  lemma {:induction false} DosFilasDeUnaIntencionSii(pasos: seq<Paso>)
    ensures DosFilasDeUna(Intenciones(pasos)) <==> exists k :: DuplicaEn(pasos, k)
  {
    if |pasos| > 0 {
      var n := |pasos| - 1;
      DosFilasDeUnaIntencionSii(pasos[..n]);
      DuplicaEnPrefijo(pasos);
      IntencionesEnUnPaso(pasos);
      IntencionesDeLaCola(pasos[..n]);
      UnaIntencionNueva(Intenciones(pasos[..n]));
      if !Duplica(Correr(INICIAL, pasos[..n]), pasos[n]) {
        assert DosFilasDeUna(Intenciones(pasos)) <==> DosFilasDeUna(Intenciones(pasos[..n]));
      }
    }
  }

  lemma UnaIntencionNueva(previas: seq<nat>)
    requires forall x :: 0 <= x < |previas| ==> previas[x] <= x
    ensures DosFilasDeUna(previas + [|previas|]) <==> DosFilasDeUna(previas)
  {
    var ahora := previas + [|previas|];
    if DosFilasDeUna(previas) {
      var i, j :| 0 <= i < j < |previas| && previas[i] == previas[j];
      assert ahora[i] == ahora[j];
    }
    if DosFilasDeUna(ahora) {
      var i, j :| 0 <= i < j < |ahora| && ahora[i] == ahora[j];
      assert ahora[i] <= i;
      assert j < |previas| && previas[i] == previas[j];
    }
  }

  /* ---- claimed rows without a process ---- */

  /** A claimed row nobody works on. */
  ghost predicate Huerfana(s: Sistema, f: nat)
  {
    && f < |s.caja.pendientes| && s.caja.pendientes[f].estado == PROCESANDO
    && forall p :: p in s.procesos ==> Duenio(s.procesos[p]) != Some(f)
  }

  /** The death of the process that works on the row. */
  ghost predicate MuereElDuenio(s: Sistema, paso: Paso, f: nat)
  {
    paso.Morir? && paso.p in s.procesos && Duenio(s.procesos[paso.p]) == Some(f)
  }

  lemma OrigenAlCobrar(s: Sistema, p: nat, f: nat)
    requires p in s.procesos && s.procesos[p].ConTurno? && FilaDe(s.procesos[p].orden) != Some(f)
    ensures Some(f) in PasoCobrar(s, p).origen <==> Some(f) in s.origen
  {
  }

  lemma DueniosAlCobrar(s: Sistema, p: nat)
    requires p in s.procesos && s.procesos[p].ConTurno?
    ensures PasoCobrar(s, p).procesos.Keys == s.procesos.Keys
    ensures forall q :: q in s.procesos ==> Duenio(PasoCobrar(s, p).procesos[q]) == Duenio(s.procesos[q])
  {
  }

  lemma HuerfanaAlCobrar(s: Sistema, p: nat, f: nat)
    requires p in s.procesos && s.procesos[p].ConTurno?
    ensures Huerfana(PasoCobrar(s, p), f) <==> Huerfana(s, f)
    ensures PasoCobrar(s, p).caja.pendientes == s.caja.pendientes
    ensures Huerfana(s, f) ==> (Some(f) in PasoCobrar(s, p).origen <==> Some(f) in s.origen)
  {
    CobrarNoTocaLaCola(s, p);
    DueniosAlCobrar(s, p);
    assert Duenio(s.procesos[p]) == FilaDe(s.procesos[p].orden);
    if Huerfana(s, f) { OrigenAlCobrar(s, p, f); }
  }

  lemma FilaAjenaIntacta(s: Sistema, paso: Paso, f: nat)
    requires Huerfana(s, f) && !paso.Cobrar?
    ensures var r := Ejecutar(s, paso);
            && f < |r.caja.pendientes| && r.caja.pendientes[f] == s.caja.pendientes[f] && r.origen == s.origen
  {
    if paso.Anotar? && paso.p in s.procesos { assert Duenio(s.procesos[paso.p]) != Some(f); }
  }

  lemma NadieLaReclama(s: Sistema, paso: Paso, f: nat)
    requires Huerfana(s, f) && !paso.Cobrar?
    ensures forall p :: p in Ejecutar(s, paso).procesos ==> Duenio(Ejecutar(s, paso).procesos[p]) != Some(f)
  {
  }

  lemma HuerfanaEnUnPaso(s: Sistema, paso: Paso, f: nat)
    requires Huerfana(s, f)
    ensures Huerfana(Ejecutar(s, paso), f) && Ejecutar(s, paso).caja.pendientes[f] == s.caja.pendientes[f]
    ensures Some(f) in Ejecutar(s, paso).origen <==> Some(f) in s.origen
  {
    if paso.Cobrar? {
      if paso.p in s.procesos && s.procesos[paso.p].ConTurno? { HuerfanaAlCobrar(s, paso.p, f); }
    } else {
      FilaAjenaIntacta(s, paso, f);
      NadieLaReclama(s, paso, f);
    }
  }

  /** An orphan is touched by no later drain, and charged by none. */
  lemma {:induction false} LaHuerfanaQuedaAsi(s: Sistema, f: nat, pasos: seq<Paso>)
    requires Huerfana(s, f)
    ensures var r := Correr(s, pasos);
            && Huerfana(r, f) && r.caja.pendientes[f] == s.caja.pendientes[f]
            && (Some(f) in r.origen <==> Some(f) in s.origen)
  {
    if |pasos| > 0 {
      LaHuerfanaQuedaAsi(s, f, pasos[..|pasos| - 1]);
      HuerfanaEnUnPaso(Correr(s, pasos[..|pasos| - 1]), pasos[|pasos| - 1], f);
    }
  }

  lemma MorirDejaHuerfana(s: Sistema, p: nat, f: nat)
    requires Inv(s) && p in s.procesos && Duenio(s.procesos[p]) == Some(f)
    ensures Huerfana(Ejecutar(s, Morir(p)), f)
  {
    assert DuenioBien(s.procesos[p], s.caja.pendientes, s.origen);
  }

  lemma AnotarSueltaLaFila(s: Sistema, q: nat, ok: bool, f: nat)
    requires Inv(s) && q in s.procesos && Duenio(s.procesos[q]) == Some(f) && s.procesos[q].Terminado?
    ensures !Huerfana(Ejecutar(s, Anotar(q, ok)), f)
  {
    assert DuenioBien(s.procesos[q], s.caja.pendientes, s.origen);
  }

  /** A process with a row keeps it through every other step but its death. */
  lemma SigueConDuenio(s: Sistema, paso: Paso, q: nat)
    requires q in s.procesos && Duenio(s.procesos[q]).Some? && paso != Morir(q) && !paso.Cobrar?
    requires !(paso.Anotar? && paso.p == q && s.procesos[q].Terminado?)
    ensures q in Ejecutar(s, paso).procesos && Duenio(Ejecutar(s, paso).procesos[q]) == Duenio(s.procesos[q])
  {
  }

  /** A row that is not claimed is claimed only together with its process. */
  lemma ReclamadaConDuenio(s: Sistema, paso: Paso, f: nat)
    requires (f < |s.caja.pendientes| ==> s.caja.pendientes[f].estado != PROCESANDO) && !paso.Cobrar?
    ensures !Huerfana(Ejecutar(s, paso), f)
  {
    if paso.Reclamar? && paso.fila == f {
      var r := Ejecutar(s, paso);
      assert r == s || (paso.p in r.procesos && Duenio(r.procesos[paso.p]) == Some(f));
    }
  }

  /** Of all steps, only the death of its process orphans a row, and that always does. */
  lemma HuerfanaSii(s: Sistema, paso: Paso, f: nat)
    requires Inv(s)
    ensures Huerfana(Ejecutar(s, paso), f) <==> Huerfana(s, f) || MuereElDuenio(s, paso, f)
  {
    if Huerfana(s, f) {
      HuerfanaEnUnPaso(s, paso, f);
    } else if paso.Cobrar? {
      if paso.p in s.procesos && s.procesos[paso.p].ConTurno? { HuerfanaAlCobrar(s, paso.p, f); }
    } else if MuereElDuenio(s, paso, f) {
      MorirDejaHuerfana(s, paso.p, f);
    } else if q :| q in s.procesos && Duenio(s.procesos[q]) == Some(f) {
      if paso.Anotar? && paso.p == q && s.procesos[q].Terminado? {
        AnotarSueltaLaFila(s, q, paso.ok, f);
      } else {
        SigueConDuenio(s, paso, q);
      }
    } else {
      ReclamadaConDuenio(s, paso, f);
    }
  }

  ghost predicate MuereElDuenioEn(pasos: seq<Paso>, k: nat, f: nat)
  {
    k < |pasos| && MuereElDuenio(Correr(INICIAL, pasos[..k]), pasos[k], f)
  }

  lemma MuereEnPrefijo(pasos: seq<Paso>, f: nat)
    requires |pasos| > 0
    ensures var n := |pasos| - 1;
            (exists k :: MuereElDuenioEn(pasos, k, f))
            <==> (exists k :: MuereElDuenioEn(pasos[..n], k, f))
                 || MuereElDuenio(Correr(INICIAL, pasos[..n]), pasos[n], f)
  {
    var n := |pasos| - 1;
    if k: nat :| MuereElDuenioEn(pasos[..n], k, f) {
      assert pasos[..n][..k] == pasos[..k];
      assert MuereElDuenioEn(pasos, k, f);
    }
    if MuereElDuenio(Correr(INICIAL, pasos[..n]), pasos[n], f) { assert MuereElDuenioEn(pasos, n, f); }
    if k: nat :| MuereElDuenioEn(pasos, k, f) {
      if k < n {
        assert pasos[..n][..k] == pasos[..k];
        assert MuereElDuenioEn(pasos[..n], k, f);
      }
    }
  }

  /** A row is an orphan at the end of a run exactly when, at some moment of it, the process working on the
      row died. */
  lemma {:induction false} HuerfanaTrasLaCorridaSii(pasos: seq<Paso>, f: nat)
    ensures Huerfana(Correr(INICIAL, pasos), f) <==> exists k :: MuereElDuenioEn(pasos, k, f)
  {
    if |pasos| > 0 {
      var n := |pasos| - 1;
      HuerfanaTrasLaCorridaSii(pasos[..n], f);
      InvEnTodaCorrida(pasos[..n]);
      HuerfanaSii(Correr(INICIAL, pasos[..n]), pasos[n], f);
      MuereEnPrefijo(pasos, f);
    }
  }
}
