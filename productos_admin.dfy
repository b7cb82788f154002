/** The administrator's listing of all products: a text and state filter over
    the loaded list, client-side pages of 20, state counters and the three
    moderation actions that flip a product's flags and re-filter. */
module ProductosAdmin {
  import opened Seqs
  import opened Js
  import opened Entities
  import opened Pager

  const PageSize: nat := 20

  predicate Activo(p: Producto) { p.estaActivo && !p.vendido && !EsEliminado(p) }

  predicate Inactivo(p: Producto) { !p.estaActivo && !p.vendido && !EsEliminado(p) }

  predicate Vendido(p: Producto) { p.vendido }

  predicate Eliminado(p: Producto) { EsEliminado(p) }

  /** Neither sold nor deleted. */
  predicate Disponible(p: Producto) { !p.vendido && !EsEliminado(p) }

  /** The text test, with `term` already lower-cased: a substring of the
      lower-cased name, description or (when present) category name. */
  predicate CoincideTermino(p: Producto, term: string)
  {
    Contains(Lower(p.nombre), term) || Contains(Lower(p.descripcion), term)
    || (p.categoriaNombre.Some? && Contains(Lower(p.categoriaNombre.value), term))
  }

  /** The state a filter value selects; an unknown value (such as 'todos') selects everything. */
  predicate EnEstado(p: Producto, filtro: string)
  {
    if filtro == "activos" then Activo(p)
    else if filtro == "inactivos" then Inactivo(p)
    else if filtro == "vendidos" then Vendido(p)
    else if filtro == "eliminados" then Eliminado(p)
    else true
  }

  /** The callback of the text `filter`. */
  function Coincide(term: string): Producto -> bool
  {
    p => CoincideTermino(p, term)
  }

  /** Whether a product passes the text filter: a blank term passes everything. */
  predicate PasaTexto(p: Producto, searchTerm: string)
  {
    Trim(searchTerm) != "" ==> CoincideTermino(p, Lower(searchTerm))
  }

  function PorTexto(ps: seq<Producto>, searchTerm: string): seq<Producto>
  {
    if Trim(searchTerm) != "" then Filter(ps, Coincide(Lower(searchTerm))) else ps
  }

  function PorEstado(ps: seq<Producto>, filtro: string): seq<Producto>
  {
    if filtro == "activos" then Filter(ps, Activo)
    else if filtro == "inactivos" then Filter(ps, Inactivo)
    else if filtro == "vendidos" then Filter(ps, Vendido)
    else if filtro == "eliminados" then Filter(ps, Eliminado)
    else ps
  }

  /** The list `filtrarProductos` computes from `productos`. */
  function Filtrar(ps: seq<Producto>, searchTerm: string, filtro: string): seq<Producto>
  {
    PorEstado(PorTexto(ps, searchTerm), filtro)
  }

  lemma PorEstadoEsUnFiltro(ps: seq<Producto>, filtro: string, e: Producto -> bool)
    requires forall p :: e(p) == EnEstado(p, filtro)
    ensures PorEstado(ps, filtro) == Filter(ps, e)
  {
    if filtro == "activos" {
      FilterCongruent(ps, Activo, e);
    } else if filtro == "inactivos" {
      FilterCongruent(ps, Inactivo, e);
    } else if filtro == "vendidos" {
      FilterCongruent(ps, Vendido, e);
    } else if filtro == "eliminados" {
      FilterCongruent(ps, Eliminado, e);
    } else {
      FilterAll(ps, e);
    }
  }

  lemma PorTextoEsUnFiltro(ps: seq<Producto>, searchTerm: string, t: Producto -> bool)
    requires forall p :: t(p) == PasaTexto(p, searchTerm)
    ensures PorTexto(ps, searchTerm) == Filter(ps, t)
  {
    if Trim(searchTerm) != "" {
      FilterCongruent(ps, Coincide(Lower(searchTerm)), t);
    } else {
      FilterAll(ps, t);
    }
  }

  /** The two filters in sequence are one filter by the conjunction `c` of the
      text test and the state test. */
  lemma FiltrarEsUnFiltro(ps: seq<Producto>, searchTerm: string, filtro: string, c: Producto -> bool)
    requires forall p :: c(p) == (PasaTexto(p, searchTerm) && EnEstado(p, filtro))
    ensures Filtrar(ps, searchTerm, filtro) == Filter(ps, c)
  {
    var t := p => PasaTexto(p, searchTerm);
    var e := p => EnEstado(p, filtro);
    PorTextoEsUnFiltro(ps, searchTerm, t);
    PorEstadoEsUnFiltro(Filter(ps, t), filtro, e);
    FilterFilter(ps, t, e, c);
  }

  /** The filtered list is an order-preserving subsequence of the loaded list
      holding exactly the products that pass both tests, each as often as in
      the loaded list. */
  lemma FiltrarSubsecuencia(ps: seq<Producto>, searchTerm: string, filtro: string)
    ensures IsSubsequence(Filtrar(ps, searchTerm, filtro), ps)
    ensures forall p :: p in Filtrar(ps, searchTerm, filtro)
                <==> p in ps && PasaTexto(p, searchTerm) && EnEstado(p, filtro)
    ensures forall p :: multiset(Filtrar(ps, searchTerm, filtro))[p]
                == if PasaTexto(p, searchTerm) && EnEstado(p, filtro) then multiset(ps)[p] else 0
  {
    var both := p => PasaTexto(p, searchTerm) && EnEstado(p, filtro);
    FiltrarEsUnFiltro(ps, searchTerm, filtro, both);
    FilterIsSubsequence(ps, both);
    forall p
      ensures multiset(Filtrar(ps, searchTerm, filtro))[p]
           == if PasaTexto(p, searchTerm) && EnEstado(p, filtro) then multiset(ps)[p] else 0
    {
      FilterMultiset(ps, both, p);
    }
    forall p ensures p in Filtrar(ps, searchTerm, filtro) <==> p in ps && both(p) {
      FilterMembers(ps, both, p);
    }
  }

  /** `contarActivos`: how many loaded products are active (shown, neither sold nor deleted); none exactly
      when no product is, all exactly when every product is. */
  function ContarActivos(ps: seq<Producto>): (r: nat)
    ensures r <= |ps|
    ensures r == 0 <==> forall p :: p in ps ==> !Activo(p)
    ensures r == |ps| <==> forall p :: p in ps ==> Activo(p)
  {
    FilterEmptyIff(ps, Activo);
    FilterFullIff(ps, Activo);
    |Filter(ps, Activo)|
  }

  /** `contarInactivos`: how many loaded products are inactive (hidden, neither sold nor deleted); none exactly
      when no product is, all exactly when every product is. */
  function ContarInactivos(ps: seq<Producto>): (r: nat)
    ensures r <= |ps|
    ensures r == 0 <==> forall p :: p in ps ==> !Inactivo(p)
    ensures r == |ps| <==> forall p :: p in ps ==> Inactivo(p)
  {
    FilterEmptyIff(ps, Inactivo);
    FilterFullIff(ps, Inactivo);
    |Filter(ps, Inactivo)|
  }

  /** `contarVendidos`: how many loaded products are sold; none exactly
      when no product is, all exactly when every product is. */
  function ContarVendidos(ps: seq<Producto>): (r: nat)
    ensures r <= |ps|
    ensures r == 0 <==> forall p :: p in ps ==> !Vendido(p)
    ensures r == |ps| <==> forall p :: p in ps ==> Vendido(p)
  {
    FilterEmptyIff(ps, Vendido);
    FilterFullIff(ps, Vendido);
    |Filter(ps, Vendido)|
  }

  /** `contarEliminados`: how many loaded products are deleted; none exactly
      when no product is, all exactly when every product is. */
  function ContarEliminados(ps: seq<Producto>): (r: nat)
    ensures r <= |ps|
    ensures r == 0 <==> forall p :: p in ps ==> !Eliminado(p)
    ensures r == |ps| <==> forall p :: p in ps ==> Eliminado(p)
  {
    FilterEmptyIff(ps, Eliminado);
    FilterFullIff(ps, Eliminado);
    |Filter(ps, Eliminado)|
  }

  /** Active and inactive products are disjoint and together are exactly the
      products that are neither sold nor deleted. */
  lemma {:induction false} ContadoresParticion(ps: seq<Producto>)
    ensures ContarActivos(ps) + ContarInactivos(ps) == |Filter(ps, Disponible)|
    ensures ContarActivos(ps) + ContarInactivos(ps) <= |ps|
  {
    if ps != [] {
      ContadoresParticion(ps[1..]);
    }
  }

  /** Sold and deleted products are counted independently: a product that is
      both appears in both counts, so together they may exceed the list. */
  lemma VendidosYEliminadosSolapan()
    ensures var p := Producto(0, "", "", 0.0, "", None, None, None, None, 0, None, 0, None,
                              None, None, false, true, Some(true), None);
      ContarVendidos([p]) + ContarEliminados([p]) == 2
  {
    var p := Producto(0, "", "", 0.0, "", None, None, None, None, 0, None, 0, None,
                      None, None, false, true, Some(true), None);
    assert Filter([p], Vendido) == [p] + Filter([p][1..], Vendido);
    assert Filter([p], Eliminado) == [p] + Filter([p][1..], Eliminado);
  }

  class ProductosAdmin {
    var productos: seq<Producto>
    var productosFiltrados: seq<Producto>
    var isLoading: bool
    var searchTerm: string
    var filtroEstado: string
    var currentPage: int
    var totalPages: nat
    var paginatedProductos: seq<Producto>

    /** The filtered list is drawn from the loaded one, the page count matches
        it and the displayed page is its slice. */
    ghost predicate Valid()
      reads this
    {
      && IsSubsequence(productosFiltrados, productos)
      && totalPages == TotalPages(|productosFiltrados|, PageSize)
      && paginatedProductos == PageSlice(productosFiltrados, currentPage, PageSize)
    }

    /** `contarActivos()`: counts over all loaded products, whatever the filter. */
    function ContadorActivos(): (r: nat)
      reads this
      ensures r <= |productos|
      ensures r == 0 <==> forall p :: p in productos ==> !Activo(p)
      ensures r == |productos| <==> forall p :: p in productos ==> Activo(p)
    {
      ContarActivos(productos)
    }

    /** `contarInactivos()`: counts over all loaded products, whatever the filter. */
    function ContadorInactivos(): (r: nat)
      reads this
      ensures r <= |productos|
      ensures r == 0 <==> forall p :: p in productos ==> !Inactivo(p)
      ensures r == |productos| <==> forall p :: p in productos ==> Inactivo(p)
    {
      ContarInactivos(productos)
    }

    /** `contarVendidos()`: counts over all loaded products, whatever the filter. */
    function ContadorVendidos(): (r: nat)
      reads this
      ensures r <= |productos|
      ensures r == 0 <==> forall p :: p in productos ==> !Vendido(p)
      ensures r == |productos| <==> forall p :: p in productos ==> Vendido(p)
    {
      ContarVendidos(productos)
    }

    /** `contarEliminados()`: counts over all loaded products, whatever the filter. */
    function ContadorEliminados(): (r: nat)
      reads this
      ensures r <= |productos|
      ensures r == 0 <==> forall p :: p in productos ==> !Eliminado(p)
      ensures r == |productos| <==> forall p :: p in productos ==> Eliminado(p)
    {
      ContarEliminados(productos)
    }

    constructor()
      ensures Valid()
      ensures productos == [] && productosFiltrados == [] && paginatedProductos == []
      ensures isLoading && searchTerm == "" && filtroEstado == "todos"
      ensures currentPage == 0 && totalPages == 0
    {
      productos := [];
      productosFiltrados := [];
      isLoading := true;
      searchTerm := "";
      filtroEstado := "todos";
      currentPage := 0;
      totalPages := 0;
      paginatedProductos := [];
    }

    /** On the first page or on a page that exists, the displayed page is empty
        only when nothing passes the filters. */
    lemma PaginaVisibleNoVacia()
      requires Valid() && 0 <= currentPage && (currentPage == 0 || currentPage < totalPages)
      ensures |paginatedProductos| > 0 <==> |productosFiltrados| > 0
    {
      var n := |productosFiltrados|;
      if currentPage > 0 {
        assert (totalPages - 1) * PageSize < n;
        assert currentPage * PageSize <= (totalPages - 1) * PageSize;
      }
    }

    /** `actualizarPaginacion`. */
    method ActualizarPaginacion()
      modifies this
      ensures totalPages == TotalPages(|productosFiltrados|, PageSize)
      ensures paginatedProductos == PageSlice(productosFiltrados, currentPage, PageSize)
      ensures |paginatedProductos| <= PageSize
      ensures productos == old(productos) && productosFiltrados == old(productosFiltrados)
      ensures currentPage == old(currentPage) && isLoading == old(isLoading)
      ensures searchTerm == old(searchTerm) && filtroEstado == old(filtroEstado)
    {
      totalPages := TotalPages(|productosFiltrados|, PageSize);
      var inicio := currentPage * PageSize;
      var fin := inicio + PageSize;
      paginatedProductos := Slice(productosFiltrados, inicio, fin);
    }

    /** The `next` callback of `cargarProductos`: the whole list is shown unfiltered. */
    method CargarProductosExito(data: seq<Producto>)
      requires Valid()
      modifies this
      ensures Valid()
      ensures productos == data && productosFiltrados == data && !isLoading
      ensures currentPage == old(currentPage) && searchTerm == old(searchTerm)
      ensures filtroEstado == old(filtroEstado)
    {
      productos := data;
      productosFiltrados := data;
      SubsequenceRefl(data);
      ActualizarPaginacion();
      isLoading := false;
    }

    /** `filtrarProductos`: re-filters the whole loaded list and goes back to the first page. */
    method FiltrarProductos()
      modifies this
      ensures productosFiltrados == Filtrar(productos, searchTerm, filtroEstado)
      ensures currentPage == 0
      ensures Valid()
      ensures productos == old(productos) && isLoading == old(isLoading)
      ensures searchTerm == old(searchTerm) && filtroEstado == old(filtroEstado)
    {
      var resultado := productos;
      if Trim(searchTerm) != "" {
        var term := Lower(searchTerm);
        resultado := Filter(resultado, Coincide(term));
      }
      assert resultado == PorTexto(productos, searchTerm);
      resultado := PorEstado(resultado, filtroEstado);
      productosFiltrados := resultado;
      currentPage := 0;
      FiltrarSubsecuencia(productos, searchTerm, filtroEstado);
      ghost var filtrados := productosFiltrados;
      assert filtrados == Filtrar(productos, searchTerm, filtroEstado);
      ActualizarPaginacion();
      assert productosFiltrados == filtrados;
    }

    /** `cambiarPagina`: a page outside [0, totalPages) changes nothing. */
    method CambiarPagina(page: int)
      requires Valid()
      modifies this
      ensures Valid()
      ensures page < 0 || page >= old(totalPages) ==>
        currentPage == old(currentPage) && paginatedProductos == old(paginatedProductos)
      ensures 0 <= page < old(totalPages) ==>
        currentPage == page
        && paginatedProductos == PageSlice(productosFiltrados, page, PageSize)
        && |paginatedProductos| > 0
      ensures productos == old(productos) && productosFiltrados == old(productosFiltrados)
      ensures totalPages == old(totalPages) && isLoading == old(isLoading)
      ensures searchTerm == old(searchTerm) && filtroEstado == old(filtroEstado)
    {
      if page < 0 || page >= totalPages {
        return;
      }
      currentPage := page;
      ActualizarPaginacion();
      PaginaVisibleNoVacia();
    }

    /** `getPaginaNumeros`. */
    method GetPaginaNumeros() returns (paginas: seq<int>)
      ensures paginas == PageWindow(currentPage, totalPages)
      ensures forall i :: 0 <= i < |paginas| ==> 0 <= paginas[i] < totalPages
      ensures |paginas| == if totalPages == 0 then 0 else Min(MaxPaginas, totalPages)
      ensures 0 <= currentPage < totalPages ==> currentPage in paginas
    {
      paginas := PaginaNumeros(currentPage, totalPages);
    }

    /** `reactivarProducto(productos[k])`, with the confirmation dialog's answer,
        the session user and whether the server accepted as inputs. Returns
        whether the request was sent. */
    method ReactivarProducto(k: nat, confirmado: bool, currentUser: Option<User>, exito: bool)
      returns (enviado: bool)
      requires k < |productos|
      modifies this
      ensures enviado == (confirmado && ConUsuarioId(currentUser))
      ensures enviado && exito ==>
        productos == old(productos)[k := old(productos)[k].(estaActivo := true)]
        && productosFiltrados == Filtrar(productos, searchTerm, filtroEstado)
        && currentPage == 0 && Valid()
      ensures !(enviado && exito) ==>
        (productos == old(productos)
        && productosFiltrados == old(productosFiltrados) && currentPage == old(currentPage)
        && paginatedProductos == old(paginatedProductos) && totalPages == old(totalPages))
      ensures searchTerm == old(searchTerm) && filtroEstado == old(filtroEstado)
      ensures isLoading == old(isLoading)
    {
      if !confirmado {
        return false;
      }
      if !ConUsuarioId(currentUser) {
        return false;
      }
      enviado := true;
      if exito {
        productos := productos[k := productos[k].(estaActivo := true)];
        FiltrarProductos();
      }
    }

    /** `inhabilitarProducto(productos[k])`. */
    method InhabilitarProducto(k: nat, confirmado: bool, currentUser: Option<User>, exito: bool)
      returns (enviado: bool)
      requires k < |productos|
      modifies this
      ensures enviado == (confirmado && ConUsuarioId(currentUser))
      ensures enviado && exito ==>
        productos == old(productos)[k := old(productos)[k].(estaActivo := false)]
        && productosFiltrados == Filtrar(productos, searchTerm, filtroEstado)
        && currentPage == 0 && Valid()
      ensures !(enviado && exito) ==>
        (productos == old(productos)
        && productosFiltrados == old(productosFiltrados) && currentPage == old(currentPage)
        && paginatedProductos == old(paginatedProductos) && totalPages == old(totalPages))
      ensures searchTerm == old(searchTerm) && filtroEstado == old(filtroEstado)
      ensures isLoading == old(isLoading)
    {
      if !confirmado {
        return false;
      }
      if !ConUsuarioId(currentUser) {
        return false;
      }
      enviado := true;
      if exito {
        productos := productos[k := productos[k].(estaActivo := false)];
        FiltrarProductos();
      }
    }

    /** `eliminarProducto(productos[k])`: the product is marked deleted, not removed. */
    method EliminarProducto(k: nat, confirmado: bool, currentUser: Option<User>, exito: bool)
      returns (enviado: bool)
      requires k < |productos|
      modifies this
      ensures enviado == (confirmado && ConUsuarioId(currentUser))
      ensures enviado && exito ==>
        productos == old(productos)[k := old(productos)[k].(eliminado := Some(true))]
        && Eliminado(productos[k]) && |productos| == |old(productos)|
        && productosFiltrados == Filtrar(productos, searchTerm, filtroEstado)
        && currentPage == 0 && Valid()
      ensures !(enviado && exito) ==>
        (productos == old(productos)
        && productosFiltrados == old(productosFiltrados) && currentPage == old(currentPage)
        && paginatedProductos == old(paginatedProductos) && totalPages == old(totalPages))
      ensures searchTerm == old(searchTerm) && filtroEstado == old(filtroEstado)
      ensures isLoading == old(isLoading)
    {
      if !confirmado {
        return false;
      }
      if !ConUsuarioId(currentUser) {
        return false;
      }
      enviado := true;
      if exito {
        productos := productos[k := productos[k].(eliminado := Some(true))];
        FiltrarProductos();
      }
    }
  }
}
