/**
 Cursor paging: the slice a server returns for a cursor and a limit, and the client loop that follows
 nextCursor. `Articulo` stands for the rows of both listings (insumos and productos), in the order
 the database returns them; stocks are in thousandths.
 */
module Paginacion {
  import opened Comun

  const PAGINA_MAXIMA := 500
  const PAGINAS_MAXIMAS := 20

  datatype Articulo = Articulo(id: string, stockActual: int, stockMinimo: int)

  datatype Pagina = Pagina(data: seq<Articulo>, nextCursor: Option<string>)

  /** What Number(limit) gives. */
  datatype Numero = NoFinito | Finito(valor: real)

  /** Math.trunc: toward zero. */
  function Truncar(x: real): int
  {
    if x >= 0.0 then x.Floor else -((-x).Floor)
  }

  function NormalizeLimit(limit: Option<Numero>, tope: nat): (r: nat)
    requires tope >= 20
    ensures 1 <= r <= tope
  {
    match limit.GetOr(Finito(20.0))
    case NoFinito => 20
    case Finito(x) => if Truncar(x) < 1 then 1 else Menor(Truncar(x), tope)
  }

  /** Absent or not finite, 20; out of bounds, the nearest bound; else the whole part, so that the page
      size is the limit asked for exactly when that is a whole number within bounds. */
  lemma LimiteNormalizado(x: real, tope: nat)
    requires tope >= 20
    ensures NormalizeLimit(None, tope) == NormalizeLimit(Some(NoFinito), tope) == 20
    ensures var r := NormalizeLimit(Some(Finito(x)), tope);
            && (x < 1.0 ==> r == 1) && (x >= tope as real ==> r == tope)
            && (1.0 <= x < tope as real ==> r as real <= x < (r + 1) as real)
            && (r as real == x <==> x == x.Floor as real && 1.0 <= x <= tope as real)
  {
  }

  function Filtrar(articulos: seq<Articulo>, bajoMinimo: bool): seq<Articulo>
  {
    if |articulos| == 0 then []
    else
      var a := articulos[|articulos| - 1];
      Filtrar(articulos[..|articulos| - 1], bajoMinimo)
      + if !bajoMinimo || a.stockActual <= a.stockMinimo then [a] else []
  }

  /** findIndex by id; -1 when nobody has it. */
  function Indice(lista: seq<Articulo>, id: string): (r: int)
    ensures -1 <= r < |lista|
  {
    if |lista| == 0 then -1
    else if lista[0].id == id then 0
    else
      var r := Indice(lista[1..], id);
      if r < 0 then -1 else r + 1
  }

  predicate HayCursor(cursor: Option<string>)
  {
    cursor.Some? && cursor.value != ""
  }

  /** Where the page starts: after the row the cursor names, or at the start when nobody has it. */
  function Desde(lista: seq<Articulo>, cursor: Option<string>): (r: nat)
    ensures r <= |lista|
  {
    if HayCursor(cursor) then Indice(lista, cursor.value) + 1 else 0
  }

  function Cortar(lista: seq<Articulo>, desde: nat, limit: nat): Pagina
    requires limit >= 1 && desde <= |lista|
  {
    var pagina := lista[desde..Menor(desde + limit + 1, |lista|)];
    var data := pagina[..Menor(limit, |pagina|)];
    Pagina(data, if |pagina| > limit then Some(data[|data| - 1].id) else None)
  }

  function Rebanar(lista: seq<Articulo>, cursor: Option<string>, limit: nat): Pagina
    requires limit >= 1
  {
    Cortar(lista, Desde(lista, cursor), limit)
  }

  /** insumos.listar. */
  function Listar(articulos: seq<Articulo>, bajoMinimo: bool, cursor: Option<string>, limit: Option<Numero>): Pagina
  {
    Rebanar(Filtrar(articulos, bajoMinimo), cursor, NormalizeLimit(limit, 100))
  }

  /** The answer of some server to its k-th request. */
  type Servidor = (nat, Option<string>) -> Pagina

  /** `completo` tells a walk that ended by itself from one cut at its page budget. */
  datatype Recorrido = Recorrido(articulos: seq<Articulo>, paginas: nat, completo: bool)

  function Recorrer(servidor: Servidor, k: nat, cursor: Option<string>, quedan: nat): Recorrido
    decreases quedan
  {
    if quedan == 0 then Recorrido([], 0, false)
    else
      var p := servidor(k, cursor);
      if !HayCursor(p.nextCursor) || |p.data| == 0 then Recorrido(p.data, 1, true)
      else
        var resto := Recorrer(servidor, k + 1, p.nextCursor, quedan - 1);
        Recorrido(p.data + resto.articulos, 1 + resto.paginas, resto.completo)
  }

  /** The page-walking loop, for any page budget. */
  method RecorrerPaginas(servidor: Servidor, inicial: Option<string>, maximas: nat)
    returns (productos: seq<Articulo>, peticiones: nat)
    ensures peticiones <= maximas
    ensures var r := Recorrer(servidor, 0, inicial, maximas); productos == r.articulos && peticiones == r.paginas
  {
    productos, peticiones := [], 0;
    var cursor := inicial;
    ghost var total := Recorrer(servidor, 0, inicial, maximas);
    for pagina := 0 to maximas
      invariant peticiones == pagina
      invariant var resto := Recorrer(servidor, pagina, cursor, maximas - pagina);
                total.articulos == productos + resto.articulos && total.paginas == pagina + resto.paginas
    {
      ghost var antes := productos;
      var response := servidor(pagina, cursor);
      productos := productos + response.data;
      peticiones := peticiones + 1;
      if !HayCursor(response.nextCursor) || |response.data| == 0 { return; }
      cursor := response.nextCursor;
      assert total.articulos
             == antes + (response.data + Recorrer(servidor, pagina + 1, cursor, maximas - pagina - 1).articulos);
    }
  }

  /** getTodosLosProductos: at most 20 requests to any server, whatever it answers. */
  method GetTodosLosProductos(servidor: Servidor, inicial: Option<string>)
      returns (productos: seq<Articulo>, peticiones: nat)
    ensures peticiones <= 20
    ensures var r := Recorrer(servidor, 0, inicial, PAGINAS_MAXIMAS);
            productos == r.articulos && peticiones == r.paginas
    ensures EsElPaseo(servidor, inicial, 20, productos, peticiones)
  {
    ElPaseoEntero(servidor, inicial, PAGINAS_MAXIMAS);
    productos, peticiones := RecorrerPaginas(servidor, inicial, PAGINAS_MAXIMAS);
  }

  /* ---- walking a list that does not change ---- */

  ghost predicate IdsUnicos(lista: seq<Articulo>)
  {
    && (forall i, j :: 0 <= i < j < |lista| ==> lista[i].id != lista[j].id)
    && (forall i :: 0 <= i < |lista| ==> lista[i].id != "")
  }

  lemma {:induction false} IndiceEncuentra(lista: seq<Articulo>, k: nat)
    requires IdsUnicos(lista) && k < |lista|
    ensures Indice(lista, lista[k].id) == k
  {
    if k > 0 {
      IndiceEncuentra(lista[1..], k - 1);
    }
  }

  lemma {:induction false} IdsUnicosAlFiltrar(articulos: seq<Articulo>, bajoMinimo: bool)
    requires IdsUnicos(articulos)
    ensures IdsUnicos(Filtrar(articulos, bajoMinimo))
    ensures forall a :: a in Filtrar(articulos, bajoMinimo) <==>
              a in articulos && (bajoMinimo ==> a.stockActual <= a.stockMinimo)
  {
    if |articulos| != 0 {
      var n := |articulos| - 1;
      var previos := articulos[..n];
      IdsUnicosAlFiltrar(previos, bajoMinimo);
      assert articulos == previos + [articulos[n]];
      var f := Filtrar(previos, bajoMinimo);
      forall i | 0 <= i < |f| ensures f[i].id != articulos[n].id {
        assert f[i] in previos;
      }
    }
  }

  /** Pages needed for n rows: one even when there is nothing. */
  function Paginas(n: nat, limit: nat): nat
    requires limit >= 1
  {
    if n <= limit then 1 else 1 + Paginas(n - limit, limit)
  }

  lemma {:induction false} PaginasEsTecho(n: nat, limit: nat)
    requires limit >= 1
    ensures var p := Paginas(n, limit);
            p >= 1 && p * limit >= n && (p == 1 || (p - 1) * limit < n)
  {
    if n > limit {
      PaginasEsTecho(n - limit, limit);
      var p := Paginas(n - limit, limit);
      assert (1 + p) * limit == limit + p * limit;
      assert p == 1 + (p - 1) && p * limit == limit + (p - 1) * limit;
    }
  }

  /** The cursor of the row before `desde`, or none at the start. */
  function CursorEn(lista: seq<Articulo>, desde: nat): Option<string>
    requires desde <= |lista|
  {
    if desde == 0 then None else Some(lista[desde - 1].id)
  }

  /** The page that starts at row `desde`. */
  function PaginaEn(lista: seq<Articulo>, desde: nat, limit: nat): Pagina
    requires desde <= |lista| && limit >= 1
  {
    if |lista| - desde <= limit then Pagina(lista[desde..], None)
    else Pagina(lista[desde..desde + limit], CursorEn(lista, desde + limit))
  }

  lemma CortarElFinal(lista: seq<Articulo>, desde: nat, limit: nat)
    requires limit >= 1 && desde <= |lista| <= desde + limit
    ensures Cortar(lista, desde, limit) == Pagina(lista[desde..], None)
  {
    var pagina := lista[desde..];
    assert pagina[..|pagina|] == pagina;
  }

  lemma CortarEnMedio(lista: seq<Articulo>, desde: nat, limit: nat)
    requires limit >= 1 && desde + limit < |lista|
    ensures Cortar(lista, desde, limit) == Pagina(lista[desde..desde + limit], Some(lista[desde + limit - 1].id))
  {
    var pagina := lista[desde..desde + limit + 1];
    assert pagina[..limit] == lista[desde..desde + limit];
  }

  /** The row after the one the cursor names. */
  lemma TrasElCursor(lista: seq<Articulo>, desde: nat)
    requires IdsUnicos(lista) && desde <= |lista|
    ensures Desde(lista, CursorEn(lista, desde)) == desde
  {
    if desde > 0 { IndiceEncuentra(lista, desde - 1); }
  }

  /** The cursor of a row finds exactly the page after it. */
  lemma UnaPagina(lista: seq<Articulo>, desde: nat, limit: nat)
    requires IdsUnicos(lista) && desde <= |lista| && limit >= 1
    ensures Rebanar(lista, CursorEn(lista, desde), limit) == PaginaEn(lista, desde, limit)
  {
    TrasElCursor(lista, desde);
    if |lista| - desde <= limit { CortarElFinal(lista, desde, limit); } else { CortarEnMedio(lista, desde, limit); }
  }

  /** Any cursor at all: the page starts after the first row it names, or at the start when it is absent,
      empty or nobody's; it holds the next `limit` rows and names the last of them when rows are left. */
  lemma {:induction false} PaginaDeCualquierCursor(lista: seq<Articulo>, cursor: Option<string>, limit: nat)
    requires limit >= 1
    ensures var p, d := Rebanar(lista, cursor, limit), Desde(lista, cursor);
            && p.data == lista[d..Menor(d + limit, |lista|)]
            && p.nextCursor == (if d + limit < |lista| then Some(lista[d + limit - 1].id) else None)
            && (d > 0 ==> cursor == Some(lista[d - 1].id) && cursor != Some(""))
            && (d > 0 ==> forall k :: 0 <= k < d - 1 ==> lista[k].id != lista[d - 1].id)
            && (d == 0 <==> cursor.None? || cursor.value == "" || forall k :: 0 <= k < |lista| ==>
                              lista[k].id != cursor.value)
  {
    var d := Desde(lista, cursor);
    if cursor.Some? { PrimeroQueLoTiene(lista, cursor.value); }
    if |lista| - d <= limit { CortarElFinal(lista, d, limit); } else { CortarEnMedio(lista, d, limit); }
  }

  lemma {:induction false} PrimeroQueLoTiene(lista: seq<Articulo>, id: string)
    ensures var r := Indice(lista, id);
            && (r >= 0 ==> lista[r].id == id)
            && forall k :: 0 <= k < (if r < 0 then |lista| else r) ==> lista[k].id != id
  {
    if |lista| != 0 && lista[0].id != id {
      PrimeroQueLoTiene(lista[1..], id);
      var resto, r := lista[1..], Indice(lista, id);
      forall k | 0 <= k < (if r < 0 then |lista| else r) ensures lista[k].id != id {
        if k > 0 { assert lista[k] == resto[k - 1]; }
      }
    }
  }

  /** The cursor of the k-th request of a walk that is still going. */
  ghost function CursorDe(servidor: Servidor, inicial: Option<string>, k: nat): Option<string>
  {
    if k == 0 then inicial else servidor(k - 1, CursorDe(servidor, inicial, k - 1)).nextCursor
  }

  ghost function PaginaK(servidor: Servidor, inicial: Option<string>, k: nat): Pagina
  {
    servidor(k, CursorDe(servidor, inicial, k))
  }

  ghost predicate EsLaUltima(p: Pagina)
  {
    p.nextCursor.None? || p.nextCursor.value == "" || p.data == []
  }

  ghost function LasPrimeras(servidor: Servidor, inicial: Option<string>, n: nat): seq<Articulo>
  {
    if n == 0 then [] else LasPrimeras(servidor, inicial, n - 1) + PaginaK(servidor, inicial, n - 1).data
  }

  /** Against any server: each request carries the cursor the page before it gave, what is brought is the
      pages in order, and the walk ends at the first page without a cursor or without rows, or when its
      budget is spent. */
  ghost predicate EsElPaseo(servidor: Servidor, inicial: Option<string>, maximas: nat, productos: seq<Articulo>,
                            peticiones: nat)
  {
    && peticiones <= maximas
    && productos == LasPrimeras(servidor, inicial, peticiones)
    && (forall j: nat :: j + 1 < peticiones ==> !EsLaUltima(PaginaK(servidor, inicial, j)))
    && (peticiones < maximas ==> peticiones > 0 && EsLaUltima(PaginaK(servidor, inicial, peticiones - 1)))
  }

  lemma Asocia(a: seq<Articulo>, b: seq<Articulo>, c: seq<Articulo>)
    ensures a + (b + c) == a + b + c
  {
  }

  /** What a walk brings from its k-th request on. */
  lemma {:induction false} TraeLasPaginas(servidor: Servidor, inicial: Option<string>, k: nat, quedan: nat,
                                          hasta: seq<Articulo>)
    requires hasta == LasPrimeras(servidor, inicial, k)
    ensures var r := Recorrer(servidor, k, CursorDe(servidor, inicial, k), quedan);
            r.paginas <= quedan && hasta + r.articulos == LasPrimeras(servidor, inicial, k + r.paginas)
    decreases quedan
  {
    if quedan != 0 {
      UnPasoDelRecorrido(servidor, k, CursorDe(servidor, inicial, k), quedan);
      var p := PaginaK(servidor, inicial, k);
      if !EsLaUltima(p) {
        var resto := Recorrer(servidor, k + 1, p.nextCursor, quedan - 1);
        TraeLasPaginas(servidor, inicial, k + 1, quedan - 1, hasta + p.data);
        Asocia(hasta, p.data, resto.articulos);
      }
    }
  }

  /** Where a walk ends from its k-th request on. */
  lemma {:induction false} TerminaEnLaUltima(servidor: Servidor, inicial: Option<string>, k: nat, quedan: nat)
    ensures var n := Recorrer(servidor, k, CursorDe(servidor, inicial, k), quedan).paginas;
            && (forall j: nat :: k <= j && j + 1 < k + n ==> !EsLaUltima(PaginaK(servidor, inicial, j)))
            && (n < quedan ==> n > 0 && EsLaUltima(PaginaK(servidor, inicial, k + n - 1)))
    decreases quedan
  {
    if quedan != 0 {
      UnPasoDelRecorrido(servidor, k, CursorDe(servidor, inicial, k), quedan);
      if !EsLaUltima(PaginaK(servidor, inicial, k)) { TerminaEnLaUltima(servidor, inicial, k + 1, quedan - 1); }
    }
  }

  lemma ElPaseoEntero(servidor: Servidor, inicial: Option<string>, maximas: nat)
    ensures var r := Recorrer(servidor, 0, inicial, maximas);
            EsElPaseo(servidor, inicial, maximas, r.articulos, r.paginas)
  {
    TraeLasPaginas(servidor, inicial, 0, maximas, []);
    TerminaEnLaUltima(servidor, inicial, 0, maximas);
    var r := Recorrer(servidor, 0, inicial, maximas);
    assert [] + r.articulos == r.articulos;
  }

  lemma Pegar(lista: seq<Articulo>, a: nat, b: nat, c: nat)
    requires a <= b <= c <= |lista|
    ensures lista[a..b] + lista[b..c] == lista[a..c]
  {
  }

  /** What a walk with a budget of pages gives from row `desde` on. */
  ghost predicate EsElRecorrido(r: Recorrido, lista: seq<Articulo>, limit: nat, desde: nat, quedan: nat)
    requires limit >= 1 && desde <= |lista|
  {
    var necesarias := Paginas(|lista| - desde, limit);
    if quedan >= necesarias then r == Recorrido(lista[desde..], necesarias, true)
    else r == Recorrido(lista[desde..desde + Filas(quedan, limit, |lista| - desde)], quedan, false)
  }

  lemma UnaPaginaMas(resto: Recorrido, lista: seq<Articulo>, limit: nat, desde: nat, quedan: nat)
    requires limit >= 1 && quedan >= 1 && desde + limit < |lista|
    requires EsElRecorrido(resto, lista, limit, desde + limit, quedan - 1)
    ensures EsElRecorrido(Recorrido(lista[desde..desde + limit] + resto.articulos, 1 + resto.paginas, resto.completo),
                          lista, limit, desde, quedan)
  {
    Pegar(lista, desde, desde + limit, |lista|);
    Pegar(lista, desde, desde + limit, desde + limit + Filas(quedan - 1, limit, |lista| - desde - limit));
  }

  lemma UnPasoDelRecorrido(servidor: Servidor, k: nat, cursor: Option<string>, quedan: nat)
    requires quedan > 0
    ensures var p, r := servidor(k, cursor), Recorrer(servidor, k, cursor, quedan);
            if !HayCursor(p.nextCursor) || |p.data| == 0 then r == Recorrido(p.data, 1, true)
            else
              var resto := Recorrer(servidor, k + 1, p.nextCursor, quedan - 1);
              r == Recorrido(p.data + resto.articulos, 1 + resto.paginas, resto.completo)
  {
  }

  /** A server that answers the cursor of each row with the page after it. */
  ghost predicate SirvePaginas(servidor: Servidor, lista: seq<Articulo>, limit: nat)
    requires limit >= 1
  {
    forall i: nat, desde: nat :: desde <= |lista| ==>
        servidor(i, CursorEn(lista, desde)) == PaginaEn(lista, desde, limit)
  }

  /** Following nextCursor from row `desde`. */
  lemma {:induction false} RecorrerDesde(lista: seq<Articulo>, limit: nat, servidor: Servidor, k: nat, desde: nat,
                                         quedan: nat)
    requires IdsUnicos(lista) && limit >= 1 && desde <= |lista| && SirvePaginas(servidor, lista, limit)
    ensures EsElRecorrido(Recorrer(servidor, k, CursorEn(lista, desde), quedan), lista, limit, desde, quedan)
    decreases quedan
  {
    if quedan != 0 {
      UnPasoDelRecorrido(servidor, k, CursorEn(lista, desde), quedan);
      assert servidor(k, CursorEn(lista, desde)) == PaginaEn(lista, desde, limit);
      if desde + limit < |lista| {
        RecorrerDesde(lista, limit, servidor, k + 1, desde + limit, quedan - 1);
        UnaPaginaMas(Recorrer(servidor, k + 1, CursorEn(lista, desde + limit), quedan - 1), lista, limit, desde,
                     quedan);
      }
    }
  }

  lemma RebanarSirvePaginas(servidor: Servidor, lista: seq<Articulo>, limit: nat)
    requires IdsUnicos(lista) && limit >= 1 && forall i, c :: servidor(i, c) == Rebanar(lista, c, limit)
    ensures SirvePaginas(servidor, lista, limit)
  {
    forall i: nat, desde: nat | desde <= |lista|
      ensures servidor(i, CursorEn(lista, desde)) == PaginaEn(lista, desde, limit)
    {
      UnaPagina(lista, desde, limit);
    }
  }

  /** Rows in `paginas` full pages, never more than there are. */
  function Filas(paginas: nat, limit: nat, hay: nat): (r: nat)
    ensures r <= hay
  {
    if paginas == 0 then 0 else if hay <= limit then hay else limit + Filas(paginas - 1, limit, hay - limit)
  }

  /** From the start, any requested limit: the filtered list exactly once and in order, in
      max(1, ceil(n / limit)) pages. */
  lemma PaginarNoPierdeNiRepite(articulos: seq<Articulo>, bajoMinimo: bool, limit: Option<Numero>, servidor: Servidor,
                                quedan: nat)
    requires IdsUnicos(articulos)
    requires forall i, c :: servidor(i, c) == Listar(articulos, bajoMinimo, c, limit)
    ensures var lista, tam := Filtrar(articulos, bajoMinimo), NormalizeLimit(limit, 100);
            quedan >= Paginas(|lista|, tam) ==>
              Recorrer(servidor, 0, None, quedan) == Recorrido(lista, Paginas(|lista|, tam), true)
  {
    var lista, tam := Filtrar(articulos, bajoMinimo), NormalizeLimit(limit, 100);
    IdsUnicosAlFiltrar(articulos, bajoMinimo);
    RebanarSirvePaginas(servidor, lista, tam);
    RecorrerDesde(lista, tam, servidor, 0, 0, quedan);
  }

  /** The client's loop brings the whole list exactly when it fits in 20 pages of 500; a longer one is
      cut at 10 000 rows, in order and without repetition. */
  lemma TodosLosProductosSiiCaben(lista: seq<Articulo>, servidor: Servidor)
    requires IdsUnicos(lista)
    requires forall i, c :: servidor(i, c) == Rebanar(lista, c, 500)
    ensures var r := Recorrer(servidor, 0, None, 20);
            && (r.completo <==> |lista| <= 10_000)
            && r.articulos == lista[..Menor(|lista|, 10_000)]
  {
    RebanarSirvePaginas(servidor, lista, PAGINA_MAXIMA);
    RecorrerDesde(lista, PAGINA_MAXIMA, servidor, 0, 0, PAGINAS_MAXIMAS);
    PaginasEsTecho(|lista|, PAGINA_MAXIMA);
    FilasLlenas(PAGINAS_MAXIMAS, PAGINA_MAXIMA, |lista|);
  }

  lemma {:induction false} FilasLlenas(paginas: nat, limit: nat, hay: nat)
    ensures Filas(paginas, limit, hay) == Menor(hay, paginas * limit)
  {
    if paginas != 0 {
      assert paginas * limit == limit + (paginas - 1) * limit;
      assert (paginas - 1) * limit >= 0;
      if hay > limit { FilasLlenas(paginas - 1, limit, hay - limit); }
    }
  }
}
