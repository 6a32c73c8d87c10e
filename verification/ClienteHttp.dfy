/**
 One call of the web client: the attempt loop of fetchWithRetry, and request's single second round
 after a 401 whose token refresh worked. `red(k)` is what the network answers to the client's k-th
 fetch; delays between attempts are not modelled.
 */
module ClienteHttp {
  import opened Comun

  const RETRY_MAX_ATTEMPTS := 2

  datatype Verbo = GET | POST | PATCH | DELETE

  /** `clave` is the Idempotency-Key header. */
  datatype Peticion = Peticion(verbo: Verbo, path: string, clave: Option<string>)

  /** A response, or what fetch threw: a timeout or network failure, or something else. */
  datatype Respuesta = Estado(status: nat) | SinRespuesta | OtraExcepcion

  datatype Intento = Intento(peticion: Peticion, respuesta: Respuesta)

  datatype Resultado = Bien(status: nat) | ApiError(status: nat) | Excepcion

  /** withIdempotencyKey: a key of the caller's own is kept. */
  function ConClave(verbo: Verbo, path: string, clave: Option<string>, nueva: string): (p: Peticion)
    ensures p.verbo == verbo && p.path == path
    ensures (clave.Some? ==> p.clave == clave) && (clave.None? ==> p.clave == Some(nueva))
  {
    Peticion(verbo, path, Some(clave.GetOr(nueva)))
  }

  predicate Reintentable(p: Peticion)
  {
    p.verbo == GET || p.clave.Some?
  }

  function MaximoDe(p: Peticion): nat
  {
    if Reintentable(p) then RETRY_MAX_ATTEMPTS else 0
  }

  /** The failures the loop retries: no response at all, or a 5xx. */
  predicate Repetible(r: Respuesta)
  {
    r.Estado? ==> r.status >= 500
  }

  predicate TerminaEn(path: string, final: string)
  {
    |final| <= |path| && path[|path| - |final|..] == final
  }

  predicate EsRutaDeSesion(path: string)
  {
    TerminaEn(path, "/auth/refresh") || TerminaEn(path, "/auth/login") || TerminaEn(path, "/auth/logout")
  }

  function ResultadoDe(r: Respuesta): Resultado
  {
    match r
    case Estado(s) => if 200 <= s < 300 then Bien(s) else ApiError(s)
    case SinRespuesta => ApiError(0)
    case OtraExcepcion => Excepcion
  }

  /** The fetch whose outcome the loop that starts at `desde` keeps. */
  function Ultimo(red: nat -> Respuesta, desde: nat, quedan: nat): nat
    decreases quedan
  {
    if quedan > 0 && Repetible(red(desde)) then Ultimo(red, desde + 1, quedan - 1) else desde
  }

  /** What one call amounts to: the index after its last fetch, its refreshes, its outcome, and whether
      it declares the session expired. */
  datatype Llamada = Llamada(hasta: nat, refrescos: nat, resultado: Resultado, expira: bool)

  predicate PideRefresco(p: Peticion, r: Respuesta, retried: bool)
  {
    r == Estado(401) && !retried && !EsRutaDeSesion(p.path)
  }

  /** request: one loop of fetches, then what its answer calls for. */
  function Llamar(p: Peticion, red: nat -> Respuesta, desde: nat, retried: bool, renueva: bool): Llamada
    decreases !retried, 1
  {
    TrasRespuesta(p, red, Ultimo(red, desde, MaximoDe(p)), retried, renueva)
  }

  /** handleErrorResponse on the answer of fetch number `u`, and the success path beside it. */
  function TrasRespuesta(p: Peticion, red: nat -> Respuesta, u: nat, retried: bool, renueva: bool): Llamada
    decreases !retried, 0
  {
    if !PideRefresco(p, red(u), retried) then Llamada(u + 1, 0, ResultadoDe(red(u)), red(u) == Estado(401))
    else if !renueva then Llamada(u + 1, 1, ResultadoDe(red(u)), true)
    else
      var segunda := Llamar(p, red, u + 1, true, renueva);
      segunda.(refrescos := 1 + segunda.refrescos)
  }

  /** The trace only grew, by attempts of this very request with the answers of the network. */
  ghost predicate Extiende(antes: seq<Intento>, ahora: seq<Intento>, p: Peticion, red: nat -> Respuesta)
  {
    antes <= ahora && forall k: nat :: |antes| <= k < |ahora| ==> ahora[k] == Intento(p, red(k))
  }

  /** The loop goes on exactly over retryable failures, and stops early only at an answer. */
  lemma {:induction false} UltimoEsElPrimeroQueVale(red: nat -> Respuesta, desde: nat, quedan: nat)
    ensures var u := Ultimo(red, desde, quedan);
            && desde <= u <= desde + quedan
            && (forall k: nat :: desde <= k < u ==> Repetible(red(k)))
            && (Repetible(red(u)) ==> u == desde + quedan)
    decreases quedan
  {
    if quedan > 0 && Repetible(red(desde)) {
      UltimoEsElPrimeroQueVale(red, desde + 1, quedan - 1);
    }
  }

  /**
   A call makes between one and six fetches of its resource; at most two, the second only after a 401,
   when it is neither a GET nor carries a key. It refreshes at most once. Each fetch but the last met a
   retryable failure, or the one 401 whose refresh worked; and a call that ends in 401 says so.
   */
  lemma {:induction false} CotaDeFetches(p: Peticion, red: nat -> Respuesta, desde: nat, renueva: bool)
    ensures var ll := Llamar(p, red, desde, false, renueva);
            && desde < ll.hasta <= desde + (if Reintentable(p) then 6 else 2)
            && (!Reintentable(p) && ll.hasta == desde + 2 ==> red(desde) == Estado(401))
            && ll.refrescos <= 1
            && (forall k: nat :: desde <= k < ll.hasta - 1 ==> Repetible(red(k)) || (red(k) == Estado(401) && renueva))
            && (forall j, k: nat :: desde <= j < k < ll.hasta - 1 && red(j) == Estado(401) ==> red(k) != Estado(401))
            && ll.resultado == ResultadoDe(red(ll.hasta - 1))
            && (ll.expira <==> ll.resultado == ApiError(401))
            && (ll.refrescos > 0 ==> !EsRutaDeSesion(p.path))
  {
    var u := Ultimo(red, desde, MaximoDe(p));
    UltimoEsElPrimeroQueVale(red, desde, MaximoDe(p));
    UltimoEsElPrimeroQueVale(red, u + 1, MaximoDe(p));
  }

  /** No response at all, or the server's own failure. */
  predicate Fallo(r: Respuesta)
  {
    match r
    case Estado(status) => status > 499
    case SinRespuesta => true
    case OtraExcepcion => true
  }

  /** A round of at most n + 1 fetches from `desde` on that kept the outcome of fetch `u`: it went on over
      every failure, and over nothing else, while it had attempts left. */
  ghost predicate EsRonda(red: nat -> Respuesta, desde: nat, n: nat, u: nat)
  {
    && desde <= u <= desde + n && (forall k: nat :: desde <= k < u ==> Fallo(red(k)))
    && (u < desde + n ==> !Fallo(red(u)))
  }

  ghost predicate AcabaEn(path: string, final: string)
  {
    exists antes: string :: path == antes + final
  }

  lemma TerminaSiiAcaba(path: string, final: string)
    ensures TerminaEn(path, final) <==> AcabaEn(path, final)
  {
    if TerminaEn(path, final) { assert path == path[..|path| - |final|] + final; }
    if AcabaEn(path, final) {
      var antes: string :| path == antes + final;
      assert path[|antes|..] == final;
    }
  }

  ghost predicate AvisaDeSesion(path: string)
  {
    AcabaEn(path, "/auth/refresh") || AcabaEn(path, "/auth/login") || AcabaEn(path, "/auth/logout")
  }

  /** Exactly which fetches a call makes: one round, of up to three fetches for a GET or a request with a
      key and of one otherwise; a token refresh exactly when that round ended in a 401 outside the session
      routes; and, exactly when the refresh brought a token, one more round. */
  lemma {:induction false} RondasDeUnaLlamada(p: Peticion, red: nat -> Respuesta, desde: nat, renueva: bool)
      returns (u: nat)
    ensures var ll := Llamar(p, red, desde, false, renueva);
            var n := if p.verbo == GET || p.clave.Some? then 2 else 0;
            && EsRonda(red, desde, n, u)
            && ll.refrescos == (if red(u) == Estado(401) && !AvisaDeSesion(p.path) then 1 else 0)
            && if ll.refrescos == 1 && renueva then ll.hasta > 0 && EsRonda(red, u + 1, n, ll.hasta - 1)
               else ll.hasta == u + 1
  {
    u := Ultimo(red, desde, MaximoDe(p));
    UltimoEsElPrimeroQueVale(red, desde, MaximoDe(p));
    UltimoEsElPrimeroQueVale(red, u + 1, MaximoDe(p));
    TerminaSiiAcaba(p.path, "/auth/refresh");
    TerminaSiiAcaba(p.path, "/auth/login");
    TerminaSiiAcaba(p.path, "/auth/logout");
  }

  /** The outcome of a call, read off the last answer it got. */
  predicate Devuelve(r: Resultado, ultima: Respuesta)
  {
    match r
    case Bien(status) => ultima == Estado(status) && 200 <= status <= 299
    case ApiError(status) =>
      (ultima == Estado(status) && !(200 <= status <= 299)) || (status == 0 && ultima == SinRespuesta)
    case Excepcion => ultima == OtraExcepcion
  }

  function RedCaprichosa(k: nat): Respuesta
  {
    if k == 2 then Estado(401) else Estado(503)
  }

  /** The bound is tight: two failed rounds around one 401. */
  lemma {:induction false} SeisFetchesSonPosibles(p: Peticion)
    requires Reintentable(p) && !EsRutaDeSesion(p.path)
    ensures Llamar(p, RedCaprichosa, 0, false, true) == Llamada(6, 1, ApiError(503), false)
  {
    UltimoEsElPrimeroQueVale(RedCaprichosa, 0, 2);
    UltimoEsElPrimeroQueVale(RedCaprichosa, 3, 2);
  }

  /** A mutation the server did answer below 500 is never sent again, except after a 401. */
  lemma {:induction false} LoContestadoNoSeRepite(p: Peticion, red: nat -> Respuesta, desde: nat, renueva: bool, k: nat)
    requires desde <= k < Llamar(p, red, desde, false, renueva).hasta
    requires red(k).Estado? && red(k).status < 500 && red(k).status != 401
    ensures Llamar(p, red, desde, false, renueva).hasta == k + 1
  {
    CotaDeFetches(p, red, desde, renueva);
  }

  lemma ExtiendeSigue(antes: seq<Intento>, medio: seq<Intento>, ahora: seq<Intento>, p: Peticion, red: nat -> Respuesta)
    requires Extiende(antes, medio, p, red) && Extiende(medio, ahora, p, red)
    ensures Extiende(antes, ahora, p, red)
  {
  }

  class Cliente {
    var traza: seq<Intento>
    var refrescos: nat
    var token: Option<string>
    var expiraciones: nat

    constructor ()
      ensures traza == [] && refrescos == 0 && token.None? && expiraciones == 0
    {
      traza, refrescos, token, expiraciones := [], 0, None, 0;
    }

    method FetchWithRetry(p: Peticion, red: nat -> Respuesta) returns (r: Respuesta)
      modifies this`traza
      ensures var u := Ultimo(red, |old(traza)|, MaximoDe(p)); |traza| == u + 1 && r == red(u)
      ensures Extiende(old(traza), traza, p, red) && |traza| > |old(traza)|
    {
      var maximo := MaximoDe(p);
      var attempt := 0;
      ghost var desde := |traza|;
      while true
        invariant attempt <= maximo && |traza| == desde + attempt
        invariant Extiende(old(traza), traza, p, red)
        invariant Ultimo(red, desde + attempt, maximo - attempt) == Ultimo(red, desde, maximo)
        decreases maximo - attempt
      {
        r := red(|traza|);
        traza := traza + [Intento(p, r)];
        if !(Repetible(r) && attempt < maximo) { return; }
        attempt := attempt + 1;
      }
    }

    /** request; `renovado` is the token a refresh would get. */
    method Request(p: Peticion, red: nat -> Respuesta, retried: bool, renovado: Option<string>) returns (r: Resultado)
      modifies this
      ensures var ll := Llamar(p, red, |old(traza)|, retried, renovado.Some?);
              && |traza| == ll.hasta && r == ll.resultado
              && refrescos == old(refrescos) + ll.refrescos
              && token == (if ll.expira then None else if ll.refrescos > 0 then renovado else old(token))
              && expiraciones == old(expiraciones) + if ll.expira && !TerminaEn(p.path, "/logout") then 1 else 0
      ensures Extiende(old(traza), traza, p, red)
      ensures |traza| > |old(traza)| && Devuelve(r, traza[|traza| - 1].respuesta)
      decreases !retried, 1
    {
      ghost var antes := traza;
      var respuesta := FetchWithRetry(p, red);
      ghost var medio := traza;
      r := HandleResponse(p, red, respuesta, retried, renovado);
      ExtiendeSigue(antes, medio, traza, p, red);
    }

    /** handleErrorResponse on the answer of the last fetch, and the success path beside it. */
    method HandleResponse(p: Peticion, red: nat -> Respuesta, respuesta: Respuesta, retried: bool,
                          renovado: Option<string>)
      returns (r: Resultado)
      requires |traza| > 0 && respuesta == red(|traza| - 1)
      modifies this
      ensures var ll := TrasRespuesta(p, red, |old(traza)| - 1, retried, renovado.Some?);
              && |traza| == ll.hasta && r == ll.resultado
              && refrescos == old(refrescos) + ll.refrescos
              && token == (if ll.expira then None else if ll.refrescos > 0 then renovado else old(token))
              && expiraciones == old(expiraciones) + if ll.expira && !TerminaEn(p.path, "/logout") then 1 else 0
      ensures Extiende(old(traza), traza, p, red)
      ensures |traza| >= |old(traza)| && Devuelve(r, red(|traza| - 1))
      decreases !retried, 0
    {
      if respuesta == Estado(401) {
        if !retried && !EsRutaDeSesion(p.path) {
          refrescos := refrescos + 1;
          if renovado.Some? {
            token := renovado;
            r := Request(p, red, true, renovado);
            return;
          }
        }
        Expirar(p.path);
      }
      return ResultadoDe(respuesta);
    }

    /** clearAuthToken and the auth:expired event. */
    method Expirar(path: string)
      modifies this`token, this`expiraciones
      ensures token.None? && expiraciones == old(expiraciones) + if TerminaEn(path, "/logout") then 0 else 1
    {
      token := None;
      if !TerminaEn(path, "/logout") { expiraciones := expiraciones + 1; }
    }

    /** client.post: the key, the caller's or the new one, is chosen once, before the first fetch, so every
        attempt carries it. The session is declared expired exactly when the call ends in a 401. */
    method Post(path: string, clave: Option<string>, nueva: string, red: nat -> Respuesta, renovado: Option<string>)
      returns (r: Resultado)
      modifies this
      ensures |old(traza)| < |traza| <= |old(traza)| + 6 && old(traza) <= traza
      ensures forall k: nat :: |old(traza)| <= k < |traza| ==>
                && traza[k].peticion.verbo == POST && traza[k].peticion.path == path
                && traza[k].peticion.clave == Some(if clave.Some? then clave.value else nueva)
                && traza[k].respuesta == red(k)
      ensures old(refrescos) <= refrescos <= old(refrescos) + 1
      ensures Devuelve(r, traza[|traza| - 1].respuesta)
      ensures token == (if r == ApiError(401) then None
                        else if refrescos > old(refrescos) then renovado else old(token))
      ensures expiraciones == old(expiraciones) + if r == ApiError(401) && !AcabaEn(path, "/logout") then 1 else 0
    {
      TerminaSiiAcaba(path, "/logout");
      var p := ConClave(POST, path, clave, nueva);
      CotaDeFetches(p, red, |traza|, renovado.Some?);
      r := Request(p, red, false, renovado);
    }

    /** client.patch and client.delete without a key of the caller: one fetch, two if the first met a 401. */
    method SinClave(verbo: Verbo, path: string, red: nat -> Respuesta, renovado: Option<string>) returns (r: Resultado)
      requires verbo == PATCH || verbo == DELETE
      modifies this
      ensures |old(traza)| < |traza| <= |old(traza)| + 2
      ensures Extiende(old(traza), traza, Peticion(verbo, path, None), red)
      ensures |traza| == |old(traza)| + 2
              <==> red(|old(traza)|) == Estado(401) && renovado.Some? && !AvisaDeSesion(path)
      ensures Devuelve(r, traza[|traza| - 1].respuesta)
    {
      var p := Peticion(verbo, path, None);
      CotaDeFetches(p, red, |traza|, renovado.Some?);
      var u := RondasDeUnaLlamada(p, red, |traza|, renovado.Some?);
      r := Request(p, red, false, renovado);
    }
  }
}
