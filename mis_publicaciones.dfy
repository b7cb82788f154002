/** The seller's own listings: deleted listings hidden unless asked for, a
    deleted-listings counter, and the mark-as-sold and delete actions. */
module MisPublicaciones {
  import opened Seqs
  import opened Js
  import opened Entities

  const Placeholder := "https://via.placeholder.com/300x200?text=Sin+Imagen"

  predicate NoEliminado(p: Producto) { !EsEliminado(p) }

  /** The callback of the delete `filter`: every listing whose id differs. */
  function OtroId(id: int): Producto -> bool
  {
    (p: Producto) => p.id != id
  }

  /** Hidden and shown listings together are all of them. */
  lemma {:induction false} OcultosYVisibles(ps: seq<Producto>)
    ensures |Filter(ps, NoEliminado)| + |Filter(ps, EsEliminado)| == |ps|
  {
    if ps != [] {
      OcultosYVisibles(ps[1..]);
    }
  }

  /** Deleting by id removes exactly the listings with that id and keeps
      every copy of the others, in their order. */
  lemma QuitarPorId(ps: seq<Producto>, id: int)
    ensures IsSubsequence(Filter(ps, OtroId(id)), ps)
    ensures forall p :: p in Filter(ps, OtroId(id)) <==> p in ps && p.id != id
    ensures forall p :: multiset(Filter(ps, OtroId(id)))[p]
                      == (if p.id != id then multiset(ps)[p] else 0)
  {
    forall p
      ensures multiset(Filter(ps, OtroId(id)))[p] == if p.id != id then multiset(ps)[p] else 0
    {
      FilterMultiset(ps, OtroId(id), p);
    }
    FilterIsSubsequence(ps, OtroId(id));
    forall p ensures p in Filter(ps, OtroId(id)) <==> p in ps && p.id != id {
      FilterMembers(ps, OtroId(id), p);
    }
  }

  /** `getImageUrl`, with the 300x200 placeholder. */
  function GetImageUrl(p: Producto): (r: string)
    ensures TruthyStr(p.imagenPrincipal) ==> r == p.imagenPrincipal.value
    ensures !TruthyStr(p.imagenPrincipal) && TieneImagenes(p) ==> r == p.imagenesUrls.value[0]
    ensures !TruthyStr(p.imagenPrincipal) && !TieneImagenes(p) ==> r == Placeholder
  {
    ImageUrl(p, Placeholder)
  }

  class MisPublicaciones {
    var productos: seq<Producto>
    var isLoading: bool
    var mostrarEliminados: bool
    var lastRoute: Option<string>

    constructor()
      ensures productos == [] && !isLoading && !mostrarEliminados && lastRoute == None
    {
      productos := [];
      isLoading := false;
      mostrarEliminados := false;
      lastRoute := None;
    }

    /** `ngOnInit`: without a session, go to the login page; with a session
        user that has an id, start loading. Returns whether the list is requested. */
    method Iniciar(currentUser: Option<User>) returns (cargar: bool)
      modifies this
      ensures cargar == ConUsuarioId(currentUser)
      ensures currentUser.None? ==> lastRoute == Some("/login")
      ensures currentUser.Some? ==> lastRoute == old(lastRoute)
      ensures isLoading == (cargar || old(isLoading))
      ensures productos == old(productos) && mostrarEliminados == old(mostrarEliminados)
    {
      if currentUser.None? {
        lastRoute := Some("/login");
        return false;
      }
      cargar := ConUsuarioId(currentUser);
      if cargar {
        isLoading := true;
      }
    }

    method CargarExito(data: seq<Producto>)
      modifies this
      ensures productos == data && !isLoading
      ensures mostrarEliminados == old(mostrarEliminados) && lastRoute == old(lastRoute)
    {
      productos := data;
      isLoading := false;
    }

    method CargarError()
      modifies this
      ensures !isLoading && productos == old(productos)
      ensures mostrarEliminados == old(mostrarEliminados) && lastRoute == old(lastRoute)
    {
      isLoading := false;
    }

    /** `marcarComoVendido(productos[k])`, with the dialog's answer and whether
        the server accepted as inputs. Returns whether the request was sent. */
    method MarcarComoVendido(k: nat, confirmado: bool, exito: bool) returns (enviado: bool)
      requires k < |productos|
      modifies this
      ensures enviado == confirmado
      ensures enviado && exito ==>
        productos == old(productos)[k := old(productos)[k].(vendido := true, estaActivo := false)]
      ensures !(enviado && exito) ==> productos == old(productos)
      ensures |productos| == |old(productos)|
      ensures isLoading == old(isLoading) && mostrarEliminados == old(mostrarEliminados)
      ensures lastRoute == old(lastRoute)
    {
      enviado := confirmado;
      if confirmado && exito {
        productos := productos[k := productos[k].(vendido := true)];
        productos := productos[k := productos[k].(estaActivo := false)];
      }
    }

    /** `eliminarProducto(productos[k])`: every listing with that id leaves the list. */
    method EliminarProducto(k: nat, confirmado: bool, exito: bool) returns (enviado: bool)
      requires k < |productos|
      modifies this
      ensures enviado == confirmado
      ensures enviado && exito ==> productos == Filter(old(productos), OtroId(old(productos)[k].id))
      ensures !(enviado && exito) ==> productos == old(productos)
      ensures isLoading == old(isLoading) && mostrarEliminados == old(mostrarEliminados)
      ensures lastRoute == old(lastRoute)
    {
      enviado := confirmado;
      if confirmado && exito {
        var id := productos[k].id;
        productos := Filter(productos, OtroId(id));
      }
    }

    /** `toggleMostrarEliminados`: toggling twice restores the setting. */
    method ToggleMostrarEliminados()
      modifies this
      ensures mostrarEliminados == !old(mostrarEliminados)
      ensures productos == old(productos) && isLoading == old(isLoading)
      ensures lastRoute == old(lastRoute)
    {
      mostrarEliminados := !mostrarEliminados;
    }

    /** The `productosVisibles` getter. */
    function ProductosVisibles(): (r: seq<Producto>)
      reads this
      ensures mostrarEliminados ==> r == productos
      ensures !mostrarEliminados ==> IsSubsequence(r, productos)
      ensures !mostrarEliminados ==> forall p :: p in r <==> p in productos && !EsEliminado(p)
      ensures !mostrarEliminados ==> forall p :: multiset(r)[p] == if !EsEliminado(p) then multiset(productos)[p] else 0
    {
      if mostrarEliminados then productos
      else
        FilterIsSubsequence(productos, NoEliminado);
        assert forall p :: multiset(Filter(productos, NoEliminado))[p]
                        == if !EsEliminado(p) then multiset(productos)[p] else 0 by {
          forall p { FilterMultiset(productos, NoEliminado, p); }
        }
        assert forall p :: p in Filter(productos, NoEliminado) <==> p in productos && !EsEliminado(p) by {
          forall p { FilterMembers(productos, NoEliminado, p); }
        }
        Filter(productos, NoEliminado)
    }

    /** The `cantidadEliminados` getter: counted over all listings. */
    function CantidadEliminados(): (r: nat)
      reads this
      ensures !mostrarEliminados ==> |ProductosVisibles()| + r == |productos|
      ensures r <= |productos|
    {
      OcultosYVisibles(productos);
      |Filter(productos, EsEliminado)|
    }
  }
}
