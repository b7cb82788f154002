/** The public catalogue: server-side pages of 12 listings, reloaded by keyword
    search, by category or unfiltered, the pager window and the favourites counter. */
module Productos {
  import opened Seqs
  import opened Js
  import opened Entities
  import opened Pager

  const PageSize: nat := 12

  /** A page request sent to the server. */
  datatype Peticion =
    | Listado(page: int, size: nat, usuarioId: Option<int>)
    | PorCategoria(categoriaId: int, page: int, size: nat, usuarioId: Option<int>)
    | Busqueda(keyword: string, page: int, size: nat, usuarioId: Option<int>)

  /** A `Page` response. */
  datatype Page = Page(content: seq<Producto>, totalElements: nat, totalPages: nat, number: int)

  /** `currentUser?.usuarioId`. */
  function UsuarioIdDe(currentUser: Option<User>): Option<int>
  {
    if currentUser.None? then None else currentUser.value.usuarioId
  }

  /** The request `cambiarPagina(page)` ends up sending, as written: the
      search and category branches go through `buscarProductos` and
      `filtrarPorCategoria`, which reset the page to 0 before requesting. */
  function Redespacho(keyword: string, categoria: Option<int>, page: int, usuarioId: Option<int>): Peticion
  {
    if Trim(keyword) != "" then Busqueda(keyword, 0, PageSize, usuarioId)
    else if categoria.Some? then PorCategoria(categoria.value, 0, PageSize, usuarioId)
    else Listado(page, PageSize, usuarioId)
  }

  /** The request a page change is evidently meant to send: the same filter, the chosen page. */
  function RedespachoCorregido(keyword: string, categoria: Option<int>, page: int, usuarioId: Option<int>): Peticion
  {
    if Trim(keyword) != "" then Busqueda(keyword, page, PageSize, usuarioId)
    else if categoria.Some? then PorCategoria(categoria.value, page, PageSize, usuarioId)
    else Listado(page, PageSize, usuarioId)
  }

  /** Both dispatches give priority to a non-blank keyword, then to a category,
      then fall back to the unfiltered listing, and always ask for 12 items. */
  lemma DespachoPrioridad(keyword: string, categoria: Option<int>, page: int, usuarioId: Option<int>)
    ensures var a, b := Redespacho(keyword, categoria, page, usuarioId),
                        RedespachoCorregido(keyword, categoria, page, usuarioId);
      && (a.Busqueda? <==> Trim(keyword) != "") && (b.Busqueda? <==> Trim(keyword) != "")
      && (a.PorCategoria? <==> Trim(keyword) == "" && categoria.Some?)
      && (b.PorCategoria? <==> Trim(keyword) == "" && categoria.Some?)
      && (a.Listado? <==> Trim(keyword) == "" && categoria.None?)
      && (b.Listado? <==> Trim(keyword) == "" && categoria.None?)
      && a.size == PageSize && b.size == PageSize
      && a.usuarioId == usuarioId && b.usuarioId == usuarioId
  {
  }

  /** As written, with a keyword or a category active, every page change
      requests page 0. */
  lemma RedespachoPierdePagina(keyword: string, categoria: Option<int>, page: int, usuarioId: Option<int>)
    requires Trim(keyword) != "" || categoria.Some?
    ensures Redespacho(keyword, categoria, page, usuarioId).page == 0
  {
  }

  /** A concrete case: on the results of the search "silla", choosing page 2 asks for page 0 again. */
  lemma RedespachoPierdePaginaEjemplo()
    ensures Redespacho("silla", None, 2, None) == Busqueda("silla", 0, PageSize, None)
    ensures Redespacho("silla", None, 2, None).page != 2
  {
    assert Trim("silla") == "silla" by { TrimNoop("silla"); }
  }

  /** Corrected, the request asks for the chosen page under the active filter,
      and it differs from the written one only in the page. */
  lemma RedespachoCorregidoConservaPagina(keyword: string, categoria: Option<int>, page: int, usuarioId: Option<int>)
    ensures RedespachoCorregido(keyword, categoria, page, usuarioId).page == page
    ensures RedespachoCorregido(keyword, categoria, page, usuarioId)
         == Redespacho(keyword, categoria, page, usuarioId).(page := page)
  {
  }

  /** The favourites counter after a successful add: incremented only when defined. */
  function ConFavoritoSumado(p: Producto): (r: Producto)
    ensures p.cantidadFavoritos.None? ==> r == p
    ensures p.cantidadFavoritos.Some? ==> r.cantidadFavoritos == Some(p.cantidadFavoritos.value + 1)
    ensures r.(cantidadFavoritos := p.cantidadFavoritos) == p
  {
    if p.cantidadFavoritos.Some? then p.(cantidadFavoritos := Some(p.cantidadFavoritos.value + 1)) else p
  }

  class Productos {
    var productos: seq<Producto>
    var selectedCategoriaId: Option<int>
    var searchKeyword: string
    var isLoading: bool
    var currentPage: int
    var totalElements: nat
    var totalPages: nat
    /** The page requests sent so far, oldest first. */
    var peticiones: seq<Peticion>

    /** A non-blank keyword and a category are not both in force. */
    predicate FiltrosExclusivos()
      reads this
    {
      !(Trim(searchKeyword) != "" && selectedCategoriaId.Some?)
    }

    constructor()
      ensures productos == [] && selectedCategoriaId.None? && searchKeyword == ""
      ensures !isLoading && currentPage == 0 && totalElements == 0 && totalPages == 0
      ensures peticiones == []
    {
      productos := [];
      selectedCategoriaId := None;
      searchKeyword := "";
      isLoading := false;
      currentPage := 0;
      totalElements := 0;
      totalPages := 0;
      peticiones := [];
    }

    /** `cargarProductosPaginados`: requests the current page, unfiltered. */
    method CargarProductosPaginados(currentUser: Option<User>)
      modifies this
      ensures isLoading
      ensures peticiones == old(peticiones) + [Listado(currentPage, PageSize, UsuarioIdDe(currentUser))]
      ensures productos == old(productos) && selectedCategoriaId == old(selectedCategoriaId)
      ensures searchKeyword == old(searchKeyword) && currentPage == old(currentPage)
      ensures totalElements == old(totalElements) && totalPages == old(totalPages)
    {
      isLoading := true;
      var usuarioId := UsuarioIdDe(currentUser);
      peticiones := peticiones + [Listado(currentPage, PageSize, usuarioId)];
    }

    /** The `next` callback shared by the three requests. */
    method AplicarPagina(page: Page)
      modifies this
      ensures productos == page.content && totalElements == page.totalElements
      ensures totalPages == page.totalPages && currentPage == page.number && !isLoading
      ensures selectedCategoriaId == old(selectedCategoriaId) && searchKeyword == old(searchKeyword)
      ensures peticiones == old(peticiones)
    {
      productos := page.content;
      totalElements := page.totalElements;
      totalPages := page.totalPages;
      currentPage := page.number;
      isLoading := false;
    }

    /** The `error` callback shared by the three requests. */
    method FalloPagina()
      modifies this
      ensures !isLoading
      ensures productos == old(productos) && currentPage == old(currentPage)
      ensures totalElements == old(totalElements) && totalPages == old(totalPages)
      ensures selectedCategoriaId == old(selectedCategoriaId) && searchKeyword == old(searchKeyword)
      ensures peticiones == old(peticiones)
    {
      isLoading := false;
    }

    /** `filtrarPorCategoria`: clears the keyword and requests page 0 of the category. */
    method FiltrarPorCategoria(categoriaId: Option<int>, currentUser: Option<User>)
      modifies this
      ensures selectedCategoriaId == categoriaId && searchKeyword == "" && currentPage == 0
      ensures isLoading && FiltrosExclusivos()
      ensures peticiones == old(peticiones) + [
        if categoriaId.None? then Listado(0, PageSize, UsuarioIdDe(currentUser))
        else PorCategoria(categoriaId.value, 0, PageSize, UsuarioIdDe(currentUser))]
      ensures productos == old(productos)
      ensures totalElements == old(totalElements) && totalPages == old(totalPages)
    {
      selectedCategoriaId := categoriaId;
      searchKeyword := "";
      currentPage := 0;
      isLoading := true;
      var usuarioId := UsuarioIdDe(currentUser);
      if categoriaId.None? {
        CargarProductosPaginados(currentUser);
      } else {
        peticiones := peticiones + [PorCategoria(categoriaId.value, currentPage, PageSize, usuarioId)];
      }
    }

    /** `buscarProductos`: a blank keyword reloads the current page unfiltered
        (keeping the category and the page); otherwise the category is dropped
        and page 0 of the search is requested. */
    method BuscarProductos(currentUser: Option<User>)
      modifies this
      ensures isLoading && FiltrosExclusivos()
      ensures searchKeyword == old(searchKeyword)
      ensures Trim(searchKeyword) == "" ==>
        peticiones == old(peticiones) + [Listado(old(currentPage), PageSize, UsuarioIdDe(currentUser))]
        && currentPage == old(currentPage) && selectedCategoriaId == old(selectedCategoriaId)
      ensures Trim(searchKeyword) != "" ==>
        peticiones == old(peticiones) + [Busqueda(searchKeyword, 0, PageSize, UsuarioIdDe(currentUser))]
        && currentPage == 0 && selectedCategoriaId.None?
      ensures productos == old(productos)
      ensures totalElements == old(totalElements) && totalPages == old(totalPages)
    {
      if Trim(searchKeyword) == "" {
        CargarProductosPaginados(currentUser);
        return;
      }
      isLoading := true;
      selectedCategoriaId := None;
      currentPage := 0;
      var usuarioId := UsuarioIdDe(currentUser);
      peticiones := peticiones + [Busqueda(searchKeyword, currentPage, PageSize, usuarioId)];
    }

    /** `cambiarPagina`, as written: out-of-range pages and the current page are
        ignored; otherwise the page is reloaded under the active filter, but the
        search and category paths reset it to 0. The search path drops the
        category, the category path clears the keyword (a blank one becomes
        ''), and the plain listing keeps both. */
    method CambiarPagina(page: int, currentUser: Option<User>)
      modifies this
      ensures page < 0 || page >= old(totalPages) || page == old(currentPage) ==>
        (productos == old(productos) && currentPage == old(currentPage)
        && selectedCategoriaId == old(selectedCategoriaId) && searchKeyword == old(searchKeyword)
        && isLoading == old(isLoading) && peticiones == old(peticiones))
      ensures !(page < 0 || page >= old(totalPages) || page == old(currentPage)) ==>
        (peticiones == old(peticiones)
          + [Redespacho(old(searchKeyword), old(selectedCategoriaId), page, UsuarioIdDe(currentUser))]
        && isLoading && FiltrosExclusivos()
        && currentPage == (if Trim(old(searchKeyword)) != "" || old(selectedCategoriaId).Some? then 0 else page))
      ensures !(page < 0 || page >= old(totalPages) || page == old(currentPage)) ==>
        if Trim(old(searchKeyword)) != "" then
          searchKeyword == old(searchKeyword) && selectedCategoriaId.None?
        else if old(selectedCategoriaId).Some? then
          searchKeyword == "" && selectedCategoriaId == old(selectedCategoriaId)
        else
          searchKeyword == old(searchKeyword) && selectedCategoriaId == old(selectedCategoriaId)
      ensures productos == old(productos)
      ensures totalElements == old(totalElements) && totalPages == old(totalPages)
    {
      if page < 0 || page >= totalPages || page == currentPage {
        return;
      }
      currentPage := page;
      if Trim(searchKeyword) != "" {
        BuscarProductos(currentUser);
      } else if selectedCategoriaId.Some? {
        FiltrarPorCategoria(selectedCategoriaId, currentUser);
      } else {
        CargarProductosPaginados(currentUser);
      }
    }

    /** `cambiarPagina` as evidently intended: the chosen page is requested under the active filter. */
    method CambiarPaginaCorregida(page: int, currentUser: Option<User>)
      modifies this
      ensures page < 0 || page >= old(totalPages) || page == old(currentPage) ==>
        (productos == old(productos) && currentPage == old(currentPage)
        && selectedCategoriaId == old(selectedCategoriaId) && searchKeyword == old(searchKeyword)
        && isLoading == old(isLoading) && peticiones == old(peticiones))
      ensures !(page < 0 || page >= old(totalPages) || page == old(currentPage)) ==>
        (peticiones == old(peticiones)
          + [RedespachoCorregido(old(searchKeyword), old(selectedCategoriaId), page, UsuarioIdDe(currentUser))]
        && isLoading && currentPage == page)
      ensures productos == old(productos) && selectedCategoriaId == old(selectedCategoriaId)
      ensures searchKeyword == old(searchKeyword)
      ensures totalElements == old(totalElements) && totalPages == old(totalPages)
    {
      if page < 0 || page >= totalPages || page == currentPage {
        return;
      }
      currentPage := page;
      isLoading := true;
      var usuarioId := UsuarioIdDe(currentUser);
      peticiones := peticiones + [RedespachoCorregido(searchKeyword, selectedCategoriaId, currentPage, usuarioId)];
    }

    /** `getPaginaNumeros`. */
    method GetPaginaNumeros() returns (paginas: seq<int>)
      ensures paginas == PageWindow(currentPage, totalPages)
      ensures forall i :: 0 <= i < |paginas| ==> 0 <= paginas[i] < totalPages
      ensures |paginas| == if totalPages == 0 then 0 else Min(MaxPaginas, totalPages)
      ensures 0 <= currentPage < totalPages ==> currentPage in paginas
    {
      paginas := PaginaNumeros(currentPage, totalPages);
    }

    /** `agregarAFavoritos(productos[k])`: nothing is sent without a session
        user id; on success the listing's counter goes up by one if it is
        defined. Returns whether the request was sent. */
    method AgregarAFavoritos(k: nat, currentUser: Option<User>, exito: bool) returns (enviado: bool)
      requires k < |productos|
      modifies this
      ensures enviado == ConUsuarioId(currentUser)
      ensures enviado && exito ==> productos == old(productos)[k := ConFavoritoSumado(old(productos)[k])]
      ensures !(enviado && exito) ==> productos == old(productos)
      ensures |productos| == |old(productos)|
      ensures selectedCategoriaId == old(selectedCategoriaId) && searchKeyword == old(searchKeyword)
      ensures currentPage == old(currentPage) && isLoading == old(isLoading)
      ensures peticiones == old(peticiones)
    {
      if !ConUsuarioId(currentUser) {
        return false;
      }
      enviado := true;
      if exito {
        var producto := productos[k];
        if producto.cantidadFavoritos.Some? {
          producto := producto.(cantidadFavoritos := Some(producto.cantidadFavoritos.value + 1));
        }
        productos := productos[k := producto];
      }
    }
  }
}
