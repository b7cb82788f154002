/** The listing detail page: the main image and the image list, the
    wrap-around carousel, ownership and the report dialog. */
module ProductosDetalle {
  import opened Seqs
  import opened Js
  import opened Entities

  const Placeholder := "https://via.placeholder.com/600x400?text=Sin+Imagen"

  /** The image list of a loaded listing (`getImagenes`). */
  function Imagenes(p: Producto): (r: seq<string>)
    ensures TieneImagenes(p) ==> r == p.imagenesUrls.value
    ensures !TieneImagenes(p) && TruthyStr(p.imagenPrincipal) ==> r == [p.imagenPrincipal.value]
    ensures !TieneImagenes(p) && !TruthyStr(p.imagenPrincipal) ==> r == []
  {
    if TieneImagenes(p) then p.imagenesUrls.value
    else if TruthyStr(p.imagenPrincipal) then [p.imagenPrincipal.value]
    else []
  }

  /** The first occurrence of an image is found at its own position when no
      image is listed twice. */
  lemma IndexOfDistinto(s: seq<string>, j: int)
    requires NoDup(s) && 0 <= j < |s|
    ensures IndexOf(s, s[j]) == j
  {
  }

  /** `imagenSiguiente`: the next image, the last wrapping to the first; a
      selection not in the list (index -1) moves to the first image. */
  function Siguiente(imgs: seq<string>, sel: string): (r: string)
    ensures |imgs| <= 1 ==> r == sel
    ensures |imgs| > 1 && sel in imgs && IndexOf(imgs, sel) < |imgs| - 1 ==> r == imgs[IndexOf(imgs, sel) + 1]
    ensures |imgs| > 1 && sel in imgs && IndexOf(imgs, sel) == |imgs| - 1 ==> r == imgs[0]
    ensures |imgs| > 1 && sel !in imgs ==> r == imgs[0]
  {
    if |imgs| <= 1 then sel
    else
      var i := IndexOf(imgs, sel);
      imgs[if i == |imgs| - 1 then 0 else i + 1]
  }

  /** `imagenAnterior` as written: with the selection not in the list the
      index is -1 and the new index -2, which reads `undefined`. */
  function AnteriorComoEscrito(imgs: seq<string>, sel: string): (r: Option<string>)
    ensures |imgs| <= 1 ==> r == Some(sel)
    ensures |imgs| > 1 && sel in imgs && IndexOf(imgs, sel) > 0 ==> r == Some(imgs[IndexOf(imgs, sel) - 1])
    ensures |imgs| > 1 && sel in imgs && IndexOf(imgs, sel) == 0 ==> r == Some(imgs[|imgs| - 1])
  {
    if |imgs| <= 1 then Some(sel)
    else
      var i := IndexOf(imgs, sel);
      var j := if i == 0 then |imgs| - 1 else i - 1;
      if 0 <= j < |imgs| then Some(imgs[j]) else None
  }

  /** Going back from a selection that is not among several images leaves no
      image selected. */
  lemma AnteriorComoEscritoIndefinido(imgs: seq<string>, sel: string)
    requires |imgs| > 1 && sel !in imgs
    ensures AnteriorComoEscrito(imgs, sel) == None
  {
  }

  /** A listing whose main image is not among its image URLs: the page selects
      the main image, and going back then selects nothing. */
  lemma AnteriorComoEscritoEjemplo()
    ensures AnteriorComoEscrito(["a.jpg", "b.jpg"], "p.jpg") == None
  {
    AnteriorComoEscritoIndefinido(["a.jpg", "b.jpg"], "p.jpg");
  }

  /** `imagenAnterior` with the wrap applied to any index at or below 0: the
      previous image, the first wrapping to the last; a selection not in the
      list moves to the last image, mirroring `imagenSiguiente`. */
  function Anterior(imgs: seq<string>, sel: string): (r: string)
    ensures |imgs| <= 1 ==> r == sel
    ensures |imgs| > 1 && sel in imgs && IndexOf(imgs, sel) > 0 ==> r == imgs[IndexOf(imgs, sel) - 1]
    ensures |imgs| > 1 && IndexOf(imgs, sel) <= 0 ==> r == imgs[|imgs| - 1]
    ensures sel in imgs ==> Some(r) == AnteriorComoEscrito(imgs, sel)
  {
    if |imgs| <= 1 then sel
    else
      var i := IndexOf(imgs, sel);
      imgs[if i <= 0 then |imgs| - 1 else i - 1]
  }

  /** With distinct images and the selection among them, forward then back
      (and back then forward) returns to the selection. */
  lemma {:induction false} SiguienteAnterior(imgs: seq<string>, sel: string)
    requires NoDup(imgs) && sel in imgs
    ensures Anterior(imgs, Siguiente(imgs, sel)) == sel
    ensures Siguiente(imgs, Anterior(imgs, sel)) == sel
  {
    if |imgs| > 1 {
      var n := |imgs|;
      var i := IndexOf(imgs, sel);
      var s := if i == n - 1 then 0 else i + 1;
      IndexOfDistinto(imgs, s);
      var a := if i == 0 then n - 1 else i - 1;
      IndexOfDistinto(imgs, a);
    }
  }

  /** `getImagenIndex`: "position / count", with position 0 for a selection
      not in the list, and nothing for a single image. */
  function ImagenIndex(imgs: seq<string>, sel: string): (r: string)
    ensures |imgs| <= 1 ==> r == ""
    ensures |imgs| > 1 && sel !in imgs ==> r == "0 / " + NatToString(|imgs|)
    ensures |imgs| > 1 && sel in imgs ==>
      r == NatToString(IndexOf(imgs, sel) + 1) + " / " + NatToString(|imgs|)
  {
    if |imgs| <= 1 then ""
    else NatToString(IndexOf(imgs, sel) + 1) + " / " + NatToString(|imgs|)
  }

  /** The report the dialog sends (`crearReporte`'s argument). */
  datatype SolicitudReporte = SolicitudReporte(
    productoId: int,
    usuarioReportadorId: int,
    razon: string,
    comentario: Option<string>)

  class ProductosDetalle {
    var producto: Option<Producto>
    var imagenSeleccionada: string
    var isLoading: bool
    var yaReportado: bool
    var mostrarModalReporte: bool
    var razonSeleccionada: string
    var comentarioReporte: string
    var enviandoReporte: bool
    var lastRoute: Option<string>

    constructor()
      ensures producto == None && imagenSeleccionada == "" && isLoading && !yaReportado
      ensures !mostrarModalReporte && razonSeleccionada == "" && comentarioReporte == ""
      ensures !enviandoReporte && lastRoute == None
    {
      producto := None;
      imagenSeleccionada := "";
      isLoading := true;
      yaReportado := false;
      mostrarModalReporte := false;
      razonSeleccionada := "";
      comentarioReporte := "";
      enviandoReporte := false;
      lastRoute := None;
    }

    /** `getImagenPrincipal`. */
    function GetImagenPrincipal(): (r: string)
      reads this
      ensures producto.None? ==> r == Placeholder
      ensures producto.Some? && TruthyStr(producto.value.imagenPrincipal) ==>
        r == producto.value.imagenPrincipal.value
      ensures producto.Some? && !TruthyStr(producto.value.imagenPrincipal) && TieneImagenes(producto.value) ==>
        r == producto.value.imagenesUrls.value[0]
      ensures producto.Some? && !TruthyStr(producto.value.imagenPrincipal) && !TieneImagenes(producto.value) ==>
        r == Placeholder
    {
      if producto.None? then Placeholder else ImageUrl(producto.value, Placeholder)
    }

    /** `getImagenes`: nothing without a listing. */
    function GetImagenes(): (r: seq<string>)
      reads this
      ensures producto.None? ==> r == []
      ensures producto.Some? ==> r == Imagenes(producto.value)
    {
      if producto.None? then [] else Imagenes(producto.value)
    }

    /** `cargarProducto` starting its request. */
    method CargarProducto()
      modifies this
      ensures isLoading
      ensures producto == old(producto) && imagenSeleccionada == old(imagenSeleccionada)
      ensures mostrarModalReporte == old(mostrarModalReporte) && razonSeleccionada == old(razonSeleccionada)
      ensures comentarioReporte == old(comentarioReporte) && yaReportado == old(yaReportado)
      ensures enviandoReporte == old(enviandoReporte) && lastRoute == old(lastRoute)
    {
      isLoading := true;
    }

    /** The `next` callback of `cargarProducto`: the main image is selected. */
    method CargarProductoExito(p: Producto)
      modifies this
      ensures producto == Some(p) && imagenSeleccionada == ImageUrl(p, Placeholder) && !isLoading
      ensures mostrarModalReporte == old(mostrarModalReporte) && razonSeleccionada == old(razonSeleccionada)
      ensures comentarioReporte == old(comentarioReporte) && yaReportado == old(yaReportado)
      ensures enviandoReporte == old(enviandoReporte) && lastRoute == old(lastRoute)
    {
      producto := Some(p);
      imagenSeleccionada := GetImagenPrincipal();
      isLoading := false;
    }

    /** The `error` callback of `cargarProducto`: back to the listings. */
    method CargarProductoError()
      modifies this
      ensures !isLoading && lastRoute == Some("/productos")
      ensures producto == old(producto) && imagenSeleccionada == old(imagenSeleccionada)
      ensures mostrarModalReporte == old(mostrarModalReporte) && razonSeleccionada == old(razonSeleccionada)
      ensures comentarioReporte == old(comentarioReporte) && yaReportado == old(yaReportado)
      ensures enviandoReporte == old(enviandoReporte)
    {
      isLoading := false;
      lastRoute := Some("/productos");
    }

    /** `seleccionarImagen`. */
    method SeleccionarImagen(url: string)
      modifies this
      ensures imagenSeleccionada == url
      ensures producto == old(producto) && isLoading == old(isLoading) && lastRoute == old(lastRoute)
      ensures mostrarModalReporte == old(mostrarModalReporte) && razonSeleccionada == old(razonSeleccionada)
      ensures comentarioReporte == old(comentarioReporte) && yaReportado == old(yaReportado)
      ensures enviandoReporte == old(enviandoReporte)
    {
      imagenSeleccionada := url;
    }

    /** `imagenSiguiente`. */
    method ImagenSiguiente()
      modifies this
      ensures imagenSeleccionada == Siguiente(GetImagenes(), old(imagenSeleccionada))
      ensures producto == old(producto) && isLoading == old(isLoading) && lastRoute == old(lastRoute)
      ensures mostrarModalReporte == old(mostrarModalReporte) && razonSeleccionada == old(razonSeleccionada)
      ensures comentarioReporte == old(comentarioReporte) && yaReportado == old(yaReportado)
      ensures enviandoReporte == old(enviandoReporte)
    {
      var imagenes := GetImagenes();
      if |imagenes| <= 1 {
        return;
      }
      var currentIndex := IndexOf(imagenes, imagenSeleccionada);
      var newIndex := if currentIndex == |imagenes| - 1 then 0 else currentIndex + 1;
      imagenSeleccionada := imagenes[newIndex];
    }

    /** `imagenAnterior`, with the wrap taken for any index at or below 0. */
    method ImagenAnterior()
      modifies this
      ensures imagenSeleccionada == Anterior(GetImagenes(), old(imagenSeleccionada))
      ensures producto == old(producto) && isLoading == old(isLoading) && lastRoute == old(lastRoute)
      ensures mostrarModalReporte == old(mostrarModalReporte) && razonSeleccionada == old(razonSeleccionada)
      ensures comentarioReporte == old(comentarioReporte) && yaReportado == old(yaReportado)
      ensures enviandoReporte == old(enviandoReporte)
    {
      var imagenes := GetImagenes();
      if |imagenes| <= 1 {
        return;
      }
      var currentIndex := IndexOf(imagenes, imagenSeleccionada);
      var newIndex := if currentIndex <= 0 then |imagenes| - 1 else currentIndex - 1;
      imagenSeleccionada := imagenes[newIndex];
    }

    /** `getImagenIndex`. */
    function GetImagenIndex(): (r: string)
      reads this
      ensures |GetImagenes()| <= 1 ==> r == ""
      ensures |GetImagenes()| > 1 && imagenSeleccionada !in GetImagenes() ==>
        r == "0 / " + NatToString(|GetImagenes()|)
      ensures |GetImagenes()| > 1 && imagenSeleccionada in GetImagenes() ==>
        r == NatToString(IndexOf(GetImagenes(), imagenSeleccionada) + 1) + " / " + NatToString(|GetImagenes()|)
    {
      ImagenIndex(GetImagenes(), imagenSeleccionada)
    }

    /** `esPropio`: a session user and a listing with the same owner id. */
    function EsPropio(currentUser: Option<User>): (r: bool)
      reads this
      ensures r <==> currentUser.Some? && producto.Some?
                     && currentUser.value.usuarioId == Some(producto.value.usuarioId)
    {
      currentUser.Some? && producto.Some? && currentUser.value.usuarioId == Some(producto.value.usuarioId)
    }

    /** `abrirModalReporte`: only a logged-in user who does not own the listing
        gets the dialog; without a session, go to the login page. */
    method AbrirModalReporte(currentUser: Option<User>)
      modifies this
      ensures mostrarModalReporte == (old(mostrarModalReporte) || (currentUser.Some? && !EsPropio(currentUser)))
      ensures currentUser.None? ==> lastRoute == Some("/login")
      ensures currentUser.Some? ==> lastRoute == old(lastRoute)
      ensures producto == old(producto) && imagenSeleccionada == old(imagenSeleccionada)
      ensures razonSeleccionada == old(razonSeleccionada) && comentarioReporte == old(comentarioReporte)
      ensures yaReportado == old(yaReportado) && enviandoReporte == old(enviandoReporte)
      ensures isLoading == old(isLoading)
    {
      if currentUser.None? {
        lastRoute := Some("/login");
        return;
      }
      if EsPropio(currentUser) {
        return;
      }
      mostrarModalReporte := true;
    }

    /** `cerrarModalReporte`. */
    method CerrarModalReporte()
      modifies this
      ensures !mostrarModalReporte && razonSeleccionada == "" && comentarioReporte == ""
      ensures producto == old(producto) && imagenSeleccionada == old(imagenSeleccionada)
      ensures yaReportado == old(yaReportado) && enviandoReporte == old(enviandoReporte)
      ensures isLoading == old(isLoading) && lastRoute == old(lastRoute)
    {
      mostrarModalReporte := false;
      razonSeleccionada := "";
      comentarioReporte := "";
    }

    /** `enviarReporte`, with whether the server accepted as input: nothing is
        sent without a reason or without a session user with an id; an empty
        comment is sent as absent. Returns the request sent, if any. */
    method EnviarReporte(currentUser: Option<User>, exito: bool) returns (enviado: Option<SolicitudReporte>)
      requires producto.Some?
      modifies this
      ensures enviado.Some? <==> old(razonSeleccionada) != "" && ConUsuarioId(currentUser)
      ensures enviado.Some? ==> enviado.value == SolicitudReporte(
        old(producto).value.id, currentUser.value.usuarioId.value, old(razonSeleccionada),
        if old(comentarioReporte) == "" then None else Some(old(comentarioReporte)))
      ensures enviado.Some? && exito ==>
        yaReportado && !mostrarModalReporte && razonSeleccionada == "" && comentarioReporte == ""
      ensures !(enviado.Some? && exito) ==>
        yaReportado == old(yaReportado) && mostrarModalReporte == old(mostrarModalReporte)
        && razonSeleccionada == old(razonSeleccionada) && comentarioReporte == old(comentarioReporte)
      ensures enviado.Some? ==> !enviandoReporte
      ensures enviado.None? ==> enviandoReporte == old(enviandoReporte)
      ensures producto == old(producto) && imagenSeleccionada == old(imagenSeleccionada)
      ensures isLoading == old(isLoading) && lastRoute == old(lastRoute)
    {
      if razonSeleccionada == "" {
        return None;
      }
      if !ConUsuarioId(currentUser) {
        return None;
      }
      enviandoReporte := true;
      enviado := Some(SolicitudReporte(producto.value.id, currentUser.value.usuarioId.value, razonSeleccionada,
                                       if comentarioReporte == "" then None else Some(comentarioReporte)));
      if exito {
        yaReportado := true;
        CerrarModalReporte();
        enviandoReporte := false;
      } else {
        enviandoReporte := false;
      }
    }
  }
}
