/** The administrator dashboard: the admin check and the four counters. */
module Dashboard {
  import opened Seqs
  import opened Js
  import opened Entities

  /** A listing counted as active: active and not sold. */
  predicate EsActivo(p: Producto) { p.estaActivo && !p.vendido }

  /** A listing counted as sold. */
  predicate EsVendido(p: Producto) { p.vendido }

  /** No listing is counted both as active and as sold, so the two counters
      together never exceed the number of listings. */
  lemma ActivosYVendidos(ps: seq<Producto>)
    ensures |Filter(ps, EsActivo)| + |Filter(ps, EsVendido)| <= |ps|
  {
    FilterDisjointLengths(ps, EsActivo, EsVendido);
  }

  class Dashboard {
    var totalUsuarios: nat
    var totalProductos: nat
    var productosActivos: nat
    var productosVendidos: nat
    var loading: bool
    var lastRoute: Option<string>

    /** The listing counters always fit within the number of listings. */
    predicate Valid()
      reads this
    {
      productosActivos + productosVendidos <= totalProductos
    }

    constructor()
      ensures Valid()
      ensures totalUsuarios == 0 && totalProductos == 0 && productosActivos == 0 && productosVendidos == 0
      ensures loading && lastRoute == None
    {
      totalUsuarios := 0;
      totalProductos := 0;
      productosActivos := 0;
      productosVendidos := 0;
      loading := true;
      lastRoute := None;
    }

    /** `ngOnInit` and `cargarEstadisticas`: a non-administrator is sent to
        the home page and nothing loads; otherwise loading starts. Returns
        whether the statistics are requested. */
    method NgOnInit(currentUser: Option<User>) returns (cargar: bool)
      requires Valid()
      modifies this
      ensures Valid()
      ensures cargar <==> SesionAdmin(currentUser)
      ensures cargar ==> loading && lastRoute == old(lastRoute)
      ensures !cargar ==> lastRoute == Some("/") && loading == old(loading)
      ensures totalUsuarios == old(totalUsuarios) && totalProductos == old(totalProductos)
      ensures productosActivos == old(productosActivos) && productosVendidos == old(productosVendidos)
    {
      if !SesionAdmin(currentUser) {
        lastRoute := Some("/");
        return false;
      }
      loading := true;
      cargar := true;
    }

    /** The `next` callback of the user list. */
    method CargarUsuariosExito(usuarios: seq<Usuario>)
      requires Valid()
      modifies this
      ensures Valid()
      ensures totalUsuarios == |usuarios|
      ensures totalProductos == old(totalProductos) && productosActivos == old(productosActivos)
      ensures productosVendidos == old(productosVendidos) && loading == old(loading)
      ensures lastRoute == old(lastRoute)
    {
      totalUsuarios := |usuarios|;
    }

    /** The `next` callback of the listing list: the three listing counters
        are set and loading ends. */
    method CargarProductosExito(productos: seq<Producto>)
      requires Valid()
      modifies this
      ensures Valid()
      ensures totalProductos == |productos|
      ensures productosActivos == |Filter(productos, EsActivo)|
      ensures productosVendidos == |Filter(productos, EsVendido)|
      ensures !loading
      ensures totalUsuarios == old(totalUsuarios) && lastRoute == old(lastRoute)
    {
      totalProductos := |productos|;
      productosActivos := |Filter(productos, EsActivo)|;
      productosVendidos := |Filter(productos, EsVendido)|;
      loading := false;
      ActivosYVendidos(productos);
    }

    /** The `error` callback of the listing list: the counters are kept. */
    method CargarProductosError()
      requires Valid()
      modifies this
      ensures Valid()
      ensures totalUsuarios == old(totalUsuarios) && totalProductos == old(totalProductos)
      ensures productosActivos == old(productosActivos) && productosVendidos == old(productosVendidos)
      ensures !loading && lastRoute == old(lastRoute)
    {
      loading := false;
    }
  }
}
