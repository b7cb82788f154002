/** The landing page: the most recent listings and their images. */
module Home {
  import opened Seqs
  import opened Js
  import opened Entities

  const Placeholder := "https://via.placeholder.com/400x300?text=Sin+Imagen"

  /** How many listings the landing page shows. */
  const Recientes: nat := 6

  /** `productos.slice(0, 6)`: the first six listings of the answer, in its
      order, or all of them when there are fewer. */
  function ProductosRecientes(productos: seq<Producto>): (r: seq<Producto>)
    ensures |r| == Min(Recientes, |productos|)
    ensures r <= productos
  {
    Slice(productos, 0, Recientes)
  }

  /** `getImageUrl`, with the 400x300 placeholder. */
  function GetImageUrl(p: Producto): (r: string)
    ensures TruthyStr(p.imagenPrincipal) ==> r == p.imagenPrincipal.value
    ensures !TruthyStr(p.imagenPrincipal) && TieneImagenes(p) ==> r == p.imagenesUrls.value[0]
    ensures !TruthyStr(p.imagenPrincipal) && !TieneImagenes(p) ==> r == Placeholder
  {
    ImageUrl(p, Placeholder)
  }

  class Home {
    var productosRecientes: seq<Producto>
    var isLoading: bool

    /** The page never shows more than six listings. */
    predicate Valid()
      reads this
    {
      |productosRecientes| <= Recientes
    }

    constructor()
      ensures Valid() && productosRecientes == [] && isLoading
    {
      productosRecientes := [];
      isLoading := true;
    }

    /** The `next` callback of `cargarProductosRecientes`. */
    method CargarExito(productos: seq<Producto>)
      requires Valid()
      modifies this
      ensures Valid()
      ensures productosRecientes == ProductosRecientes(productos) && !isLoading
    {
      productosRecientes := Slice(productos, 0, Recientes);
      isLoading := false;
    }

    /** The `error` callback: the list is kept and loading ends as well. */
    method CargarError()
      requires Valid()
      modifies this
      ensures Valid()
      ensures productosRecientes == old(productosRecientes) && !isLoading
    {
      isLoading := false;
    }
  }
}
