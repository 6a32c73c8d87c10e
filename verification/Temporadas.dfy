/**
 rangoTemporada: the date range of a season of the southern hemisphere as of today. Dates are
 (year, month, day) with months from 0, compared field by field; years below 101 are not modelled,
 because the Date constructor reads two-digit years as 19xx.
 */
module Temporadas {
  import opened Comun

  datatype Fecha = Fecha(y: int, m: int, d: int)

  datatype Temporada = VERANO | OTONO | INVIERNO | PRIMAVERA

  datatype Limites = Limites(inicioMes: int, inicioDia: int, finMes: int, finDia: int)

  datatype Rango = Rango(desde: Fecha, hasta: Fecha)

  function LimitesDe(t: Temporada): Limites
  {
    match t
    case VERANO => Limites(11, 21, 2, 20)
    case OTONO => Limites(2, 21, 5, 20)
    case INVIERNO => Limites(5, 21, 8, 22)
    case PRIMAVERA => Limites(8, 23, 11, 20)
  }

  /** Every date there is, and a few that are not, such as 30 February. */
  predicate EsFecha(f: Fecha)
  {
    f.y >= 101 && 0 <= f.m <= 11 && 1 <= f.d <= 31
  }

  predicate NoDespues(a: Fecha, b: Fecha)
  {
    a.y < b.y || (a.y == b.y && (a.m < b.m || (a.m == b.m && a.d <= b.d)))
  }

  /** The instance of the season that starts in the year. */
  function Instancia(t: Temporada, anio: int): Rango
  {
    var l := LimitesDe(t);
    Rango(Fecha(anio, l.inicioMes, l.inicioDia),
          Fecha(if l.finMes < l.inicioMes then anio + 1 else anio, l.finMes, l.finDia))
  }

  function Candidatos(t: Temporada, hoy: Fecha): seq<Rango>
  {
    [Instancia(t, hoy.y - 1), Instancia(t, hoy.y), Instancia(t, hoy.y + 1)]
  }

  predicate Contiene(r: Rango, f: Fecha)
  {
    NoDespues(r.desde, f) && NoDespues(f, r.hasta)
  }

  /** candidatos.find(c => c contains today). */
  function Actual(cs: seq<Rango>, hoy: Fecha): Option<Rango>
  {
    if |cs| == 0 then None else if Contiene(cs[0], hoy) then Some(cs[0]) else Actual(cs[1..], hoy)
  }

  /** The first of the finished ones, latest end first. */
  function MasReciente(cs: seq<Rango>, hoy: Fecha): Option<Rango>
  {
    if |cs| == 0 then None
    else
      var resto := MasReciente(cs[1..], hoy);
      if NoDespues(hoy, cs[0].hasta) then resto
      else if resto.None? || NoDespues(resto.value.hasta, cs[0].hasta) then Some(cs[0])
      else resto
  }

  /** The earliest start: what is left when no candidate contains today or has finished. */
  function MasAntiguo(cs: seq<Rango>): Rango
    requires |cs| > 0
  {
    if |cs| == 1 then cs[0]
    else
      var resto := MasAntiguo(cs[1..]);
      if NoDespues(cs[0].desde, resto.desde) then cs[0] else resto
  }

  function RangoTemporada(t: Temporada, hoy: Fecha): Rango
  {
    var cs := Candidatos(t, hoy);
    var actual, reciente := Actual(cs, hoy), MasReciente(cs, hoy);
    var elegido := if actual.Some? then actual.value else if reciente.Some? then reciente.value else MasAntiguo(cs);
    Rango(elegido.desde, if actual.Some? then hoy else elegido.hasta)
  }

  /** The year in which the latest instance that has started by today started. */
  function UltimoInicio(t: Temporada, hoy: Fecha): int
  {
    if NoDespues(Instancia(t, hoy.y).desde, hoy) then hoy.y else hoy.y - 1
  }

  lemma UltimoInicioEsElUltimo(t: Temporada, hoy: Fecha, anio: int)
    ensures NoDespues(Instancia(t, anio).desde, hoy) <==> anio <= UltimoInicio(t, hoy)
  {
  }

  lemma Buscados(t: Temporada, hoy: Fecha)
    requires EsFecha(hoy)
    ensures var u := Instancia(t, UltimoInicio(t, hoy));
            && Actual(Candidatos(t, hoy), hoy) == (if NoDespues(hoy, u.hasta) then Some(u) else None)
            && (!NoDespues(hoy, u.hasta) ==> MasReciente(Candidatos(t, hoy), hoy) == Some(u))
  {
    var a, b, c := Instancia(t, hoy.y - 1), Instancia(t, hoy.y), Instancia(t, hoy.y + 1);
    assert [c][1..] == [] && [b, c][1..] == [c] && [a, b, c][1..] == [b, c];
    assert Actual([c], hoy) == (if Contiene(c, hoy) then Some(c) else None);
    assert Actual([b, c], hoy) == if Contiene(b, hoy) then Some(b) else Actual([c], hoy);
    assert MasReciente([c], hoy) == None;
    assert MasReciente([b, c], hoy) == if NoDespues(hoy, b.hasta) then None else Some(b);
  }

  /**
   The range is that of the latest instance starting on or before today, cut at today while it lasts,
   summers across the year end included; the last fallback is never taken.
   */
  lemma RangoEsLaUltimaInstancia(t: Temporada, hoy: Fecha)
    requires EsFecha(hoy)
    ensures var r := RangoTemporada(t, hoy);
            var u := Instancia(t, UltimoInicio(t, hoy));
            && r.desde == u.desde
            && r.hasta == (if NoDespues(hoy, u.hasta) then hoy else u.hasta)
            && NoDespues(r.desde, r.hasta) && NoDespues(r.hasta, hoy)
            && (forall anio :: NoDespues(Instancia(t, anio).desde, hoy) ==>
                  NoDespues(Instancia(t, anio).desde, r.desde))
    ensures Actual(Candidatos(t, hoy), hoy).Some? || MasReciente(Candidatos(t, hoy), hoy).Some?
  {
    Buscados(t, hoy);
    forall anio | NoDespues(Instancia(t, anio).desde, hoy)
      ensures NoDespues(Instancia(t, anio).desde, Instancia(t, UltimoInicio(t, hoy)).desde)
    {
      UltimoInicioEsElUltimo(t, hoy, anio);
    }
  }

  predicate EnCurso(t: Temporada, hoy: Fecha)
  {
    Actual(Candidatos(t, hoy), hoy).Some?
  }

  function TemporadaDe(hoy: Fecha): Temporada
  {
    if NoDespues(Fecha(hoy.y, 11, 21), hoy) || NoDespues(hoy, Fecha(hoy.y, 2, 20)) then VERANO
    else if NoDespues(hoy, Fecha(hoy.y, 5, 20)) then OTONO
    else if NoDespues(hoy, Fecha(hoy.y, 8, 22)) then INVIERNO
    else PRIMAVERA
  }

  /** The four seasons leave no day out and share none. */
  lemma CadaDiaEsDeUnaSolaTemporada(t: Temporada, hoy: Fecha)
    requires EsFecha(hoy)
    ensures EnCurso(t, hoy) <==> t == TemporadaDe(hoy)
  {
    Buscados(t, hoy);
  }
}
