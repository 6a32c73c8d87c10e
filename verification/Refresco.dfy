/**
 refreshAccessToken as the machine it is under many callers: a slot that holds the promise of the
 refresh in flight. `cookieLegible` is false when reading the CSRF cookie throws: the body of the async
 function then ends before its first await, so its `finally` empties the slot before the assignment
 that fills it.
 */
module Refresco {
  import opened Comun

  datatype Promesa = EnVuelo | Resuelta(token: Option<string>)

  /** `esperan` tells which promise each caller was handed. */
  datatype Sistema = Sistema(promesas: seq<Promesa>, ranura: Option<nat>, token: Option<string>, esperan: map<nat, nat>)

  const INICIAL := Sistema([], None, None, map[])

  datatype Paso =
    | Pedir(quien: nat, cookieLegible: bool)
    | Responder(id: nat, token: Option<string>)

  function Ejecutar(s: Sistema, paso: Paso): Sistema
  {
    match paso
    case Pedir(quien, legible) =>
      if s.ranura.Some? then s.(esperan := s.esperan[quien := s.ranura.value])
      else
        var id := |s.promesas|;
        s.(promesas := s.promesas + [if legible then EnVuelo else Resuelta(None)], ranura := Some(id),
           esperan := s.esperan[quien := id])
    case Responder(id, token) =>
      if id < |s.promesas| && s.promesas[id].EnVuelo?
      then s.(promesas := s.promesas[id := Resuelta(token)], ranura := None,
              token := if token.Some? then token else s.token)
      else s
  }

  function Correr(s: Sistema, pasos: seq<Paso>): Sistema
  {
    if |pasos| == 0 then s else Ejecutar(Correr(s, pasos[..|pasos| - 1]), pasos[|pasos| - 1])
  }

  /** The slot names the one refresh in flight, or a promise that settled before it was stored. */
  ghost predicate Inv(s: Sistema)
  {
    && (s.ranura.Some? ==> s.ranura.value < |s.promesas|)
    && (forall i :: 0 <= i < |s.promesas| && s.promesas[i].EnVuelo? ==> s.ranura == Some(i))
    && (forall q :: q in s.esperan ==> s.esperan[q] < |s.promesas|)
  }

  lemma {:induction false} InvEnTodaCorrida(pasos: seq<Paso>)
    ensures Inv(Correr(INICIAL, pasos))
  {
    if |pasos| != 0 {
      InvEnTodaCorrida(pasos[..|pasos| - 1]);
    }
  }

  ghost function EnCurso(s: Sistema): set<nat>
  {
    set i | 0 <= i < |s.promesas| && s.promesas[i].EnVuelo?
  }

  /** However many calls see a 401, at most one refresh is in flight, and whoever asks while it is gets
      that very promise. */
  lemma UnSoloRefrescoEnVuelo(pasos: seq<Paso>, quien: nat, legible: bool)
    ensures var s := Correr(INICIAL, pasos);
            && |EnCurso(s)| <= 1
            && forall i :: i in EnCurso(s) ==>
                 var r := Ejecutar(s, Pedir(quien, legible));
                 r.promesas == s.promesas && r.esperan == s.esperan[quien := i]
  {
    InvEnTodaCorrida(pasos);
    var s := Correr(INICIAL, pasos);
    if i :| i in EnCurso(s) {
      assert EnCurso(s) == {i};
    }
  }

  /** When the refresh in flight is answered, everyone who was handed its promise gets that answer and
      nobody else notices; a token is kept, a failure keeps the one there was; and whoever asks next starts
      a new refresh, if the cookie can be read. */
  lemma QuienEsperaRecibeElToken(pasos: seq<Paso>, id: nat, token: Option<string>, quien: nat)
    requires id in EnCurso(Correr(INICIAL, pasos))
    ensures var s := Correr(INICIAL, pasos);
            var r := Ejecutar(s, Responder(id, token));
            && |r.promesas| == |s.promesas| && r.esperan == s.esperan
            && (forall q :: q in s.esperan ==>
                  && s.esperan[q] < |r.promesas|
                  && r.promesas[s.esperan[q]]
                     == if s.esperan[q] == id then Resuelta(token) else s.promesas[s.esperan[q]])
            && (token.Some? ==> r.token == token) && (token.None? ==> r.token == s.token)
            && EnCurso(r) == {}
            && EnCurso(Ejecutar(r, Pedir(quien, true))) == {|s.promesas|}
            && Ejecutar(r, Pedir(quien, true)).esperan == s.esperan[quien := |s.promesas|]
  {
    InvEnTodaCorrida(pasos);
    var s := Correr(INICIAL, pasos);
    var r := Ejecutar(s, Responder(id, token));
    assert s.promesas[id].EnVuelo?;
    forall i | 0 <= i < |s.promesas| && i != id ensures !s.promesas[i].EnVuelo? {}
  }

  ghost predicate Atascado(s: Sistema)
  {
    s.ranura.Some? && s.ranura.value < |s.promesas| && s.promesas[s.ranura.value] == Resuelta(None)
  }

  ghost predicate EmpiezaSinCookie(s: Sistema, paso: Paso)
  {
    paso.Pedir? && !paso.cookieLegible && s.ranura.None?
  }

  ghost predicate AlgunaVezSinCookie(pasos: seq<Paso>)
  {
    |pasos| > 0
    && (AlgunaVezSinCookie(pasos[..|pasos| - 1])
        || EmpiezaSinCookie(Correr(INICIAL, pasos[..|pasos| - 1]), pasos[|pasos| - 1]))
  }

  /** The slot gets stuck exactly when some refresh started over a cookie that cannot be read. */
  lemma {:induction false} AtascadoSiiCookieIlegible(pasos: seq<Paso>)
    ensures Atascado(Correr(INICIAL, pasos)) <==> AlgunaVezSinCookie(pasos)
  {
    if |pasos| != 0 {
      AtascadoSiiCookieIlegible(pasos[..|pasos| - 1]);
      InvEnTodaCorrida(pasos[..|pasos| - 1]);
    }
  }

  /** And then no refresh ever starts again: every caller is handed the settled null. */
  lemma {:induction false} AtascadoParaSiempre(s: Sistema, pasos: seq<Paso>)
    requires Inv(s) && Atascado(s)
    ensures var r := Correr(s, pasos);
            r.promesas == s.promesas && r.ranura == s.ranura && r.token == s.token
  {
    if |pasos| != 0 {
      AtascadoParaSiempre(s, pasos[..|pasos| - 1]);
    }
  }
}
