/** The nearby-search page: the search radius and the map zoom it implies,
    the search request, the product markers and the popup texts. */
module BusquedaCercana {
  import opened Seqs
  import opened Js
  import opened Entities

  const Placeholder := "https://via.placeholder.com/100x100?text=Sin+Imagen"

  /** The radii offered in the selector, in km. */
  const RadioOptions: seq<real> := [0.5, 1.0, 2.0, 3.0, 5.0]

  /** The zoom `cambiarRadio` sets for a radius in km. */
  function Zoom(radioKm: real): (z: int)
    ensures 12 <= z <= 15
    ensures radioKm <= 1.0 ==> z == 15
    ensures 1.0 < radioKm <= 2.0 ==> z == 14
    ensures 2.0 < radioKm <= 3.0 ==> z == 13
    ensures 3.0 < radioKm ==> z == 12
  {
    if radioKm <= 1.0 then 15
    else if radioKm <= 2.0 then 14
    else if radioKm <= 3.0 then 13
    else 12
  }

  /** A wider radius never zooms in. */
  lemma ZoomAntitono(a: real, b: real)
    requires a <= b
    ensures Zoom(b) <= Zoom(a)
  {
  }

  /** The offered radii give the zooms 15, 15, 14, 13 and 12. */
  lemma ZoomDeOpciones()
    ensures seq(|RadioOptions|, i requires 0 <= i < |RadioOptions| => Zoom(RadioOptions[i])) == [15, 15, 14, 13, 12]
  {
  }

  /** The circle radius in metres for a radius in km. */
  function RadioMetros(radioKm: real): (m: real)
    ensures radioKm >= 0.0 ==> m >= radioKm
    ensures m / 1000.0 == radioKm
  {
    radioKm * 1000.0
  }

  /** The request `buscarCercanos` sends: the position, the radius and the
      category, where no category and category 0 both mean "any". */
  datatype Busqueda = Busqueda(lat: real, lng: real, radioKm: real, categoriaId: Option<int>)

  /** `categoriaSeleccionada || undefined`. */
  function CategoriaDeBusqueda(c: Option<int>): (r: Option<int>)
    ensures r.Some? <==> c.Some? && c.value != 0
    ensures r.Some? ==> r == c
  {
    if c.Some? && c.value != 0 then c else None
  }

  /** One product marker: where it stands and the listing it opens. */
  datatype Marcador = Marcador(lat: real, lng: real, productoId: int)

  /** The marker of a listing whose coordinates are both truthy. */
  function MarcadorDe(p: Producto): Marcador
    requires TieneCoordenadas(p)
  {
    Marcador(p.latitud.value, p.longitud.value, p.id)
  }

  /** The markers of a list of listings: one per listing with both
      coordinates truthy, in the list's order. */
  function Marcadores(ps: seq<Producto>): (ms: seq<Marcador>)
    ensures |ms| == |Filter(ps, TieneCoordenadas)|
    ensures forall i :: 0 <= i < |ms| ==> ms[i] == MarcadorDe(Filter(ps, TieneCoordenadas)[i])
  {
    var conCoordenadas := Filter(ps, TieneCoordenadas);
    seq(|conCoordenadas|, i requires 0 <= i < |conCoordenadas| => MarcadorDe(conCoordenadas[i]))
  }

  /** Adding one more listing adds its marker at the end, if it has one. */
  lemma {:induction false} MarcadoresSnoc(ps: seq<Producto>, p: Producto)
    ensures Marcadores(ps + [p]) == Marcadores(ps) + (if TieneCoordenadas(p) then [MarcadorDe(p)] else [])
  {
    FilterSnoc(ps, p, TieneCoordenadas);
  }

  /** Every marker belongs to a listing of the list that has coordinates,
      and every such listing has a marker. */
  lemma {:induction false} MarcadoresDeProductos(ps: seq<Producto>)
    ensures forall m :: m in Marcadores(ps) <==>
      exists p :: p in ps && TieneCoordenadas(p) && m == MarcadorDe(p)
  {
    var f := Filter(ps, TieneCoordenadas);
    forall p ensures p in f <==> p in ps && TieneCoordenadas(p) {
      FilterMembers(ps, TieneCoordenadas, p);
    }
    forall m | m in Marcadores(ps)
      ensures exists p :: p in ps && TieneCoordenadas(p) && m == MarcadorDe(p)
    {
      var i :| 0 <= i < |Marcadores(ps)| && Marcadores(ps)[i] == m;
      assert f[i] in f;
    }
    forall m | exists p :: p in ps && TieneCoordenadas(p) && m == MarcadorDe(p)
      ensures m in Marcadores(ps)
    {
      var p :| p in ps && TieneCoordenadas(p) && m == MarcadorDe(p);
      var i :| 0 <= i < |f| && f[i] == p;
      assert Marcadores(ps)[i] == m;
    }
  }

  /** `getImageUrl` of a popup: a truthy `imagenPrincipal`, else a truthy
      first URL, else the placeholder; unlike the listing pages, an empty
      first URL falls through to the placeholder. */
  function GetImageUrl(p: Producto): (r: string)
    ensures r != ""
    ensures TruthyStr(p.imagenPrincipal) ==> r == p.imagenPrincipal.value
    ensures !TruthyStr(p.imagenPrincipal) && TieneImagenes(p) && p.imagenesUrls.value[0] != ""
            ==> r == p.imagenesUrls.value[0]
    ensures !TruthyStr(p.imagenPrincipal) && !(TieneImagenes(p) && p.imagenesUrls.value[0] != "")
            ==> r == Placeholder
  {
    if TruthyStr(p.imagenPrincipal) then p.imagenPrincipal.value
    else if TieneImagenes(p) && p.imagenesUrls.value[0] != "" then p.imagenesUrls.value[0]
    else Placeholder
  }

  /** The popup image agrees with the listing pages' precedence whenever
      that one does not pick an empty URL. */
  lemma GetImageUrlComoListado(p: Producto)
    requires ImageUrl(p, Placeholder) != ""
    ensures GetImageUrl(p) == ImageUrl(p, Placeholder)
  {
  }

  /** `getDistancia`, given the formatted distance from the search position
      to a point: "-" when a coordinate is missing (0 counts as missing). */
  function GetDistancia(p: Producto, distanciaA: (real, real) -> string): (r: string)
    ensures !TieneCoordenadas(p) ==> r == "-"
    ensures TieneCoordenadas(p) ==> r == distanciaA(p.latitud.value, p.longitud.value)
  {
    if !TieneCoordenadas(p) then "-" else distanciaA(p.latitud.value, p.longitud.value)
  }

  class BusquedaCercana {
    var productos: seq<Producto>
    var productMarkers: seq<Marcador>
    /** `miUbicacion`: the position searched around. */
    var miLat: real
    var miLng: real
    /** Where the draggable user marker and the radius circle stand on the map. */
    var centroLat: real
    var centroLng: real
    var ubicacionObtenida: bool
    var buscandoUbicacion: bool
    var radioKm: real
    var categoriaSeleccionada: Option<int>
    /** The radius of the circle drawn on the map, in metres. */
    var radioCirculo: real
    /** The map's zoom level. */
    var zoom: int
    var isLoading: bool

    /** The user marker and the circle stand on the searched position. */
    predicate Centrado()
      reads this
    {
      centroLat == miLat && centroLng == miLng
    }

    /** The page starts over Trujillo with a 2 km radius. */
    constructor()
      ensures productos == [] && productMarkers == []
      ensures miLat == -8.1116 && miLng == -79.0288 && Centrado()
      ensures !ubicacionObtenida && !buscandoUbicacion
      ensures radioKm == 2.0 && categoriaSeleccionada == None
      ensures radioCirculo == RadioMetros(radioKm) && zoom == 13 && !isLoading
    {
      productos := [];
      productMarkers := [];
      miLat := -8.1116;
      miLng := -79.0288;
      centroLat := -8.1116;
      centroLng := -79.0288;
      ubicacionObtenida := false;
      buscandoUbicacion := false;
      radioKm := 2.0;
      categoriaSeleccionada := None;
      radioCirculo := RadioMetros(2.0);
      zoom := 13;
      isLoading := false;
    }

    /** The `dragend` listener of the user marker: the marker was dropped at
        (`lat`, `lng`), which becomes the searched position, and the circle
        follows it. The zoom and the search flags stay as they were. */
    method MoverUbicacion(lat: real, lng: real)
      modifies this
      ensures miLat == lat && miLng == lng && Centrado()
      ensures ubicacionObtenida == old(ubicacionObtenida) && buscandoUbicacion == old(buscandoUbicacion)
      ensures productos == old(productos) && productMarkers == old(productMarkers)
      ensures radioCirculo == old(radioCirculo) && zoom == old(zoom) && radioKm == old(radioKm)
      ensures categoriaSeleccionada == old(categoriaSeleccionada) && isLoading == old(isLoading)
    {
      centroLat, centroLng := lat, lng;
      miLat, miLng := lat, lng;
    }

    /** `obtenerMiUbicacion` up to the request: without geolocation in the
        browser nothing changes and nothing is asked; otherwise the search for
        the position starts. Returns whether the position was asked for. */
    method ObtenerMiUbicacion(geolocalizacion: bool) returns (pedida: bool)
      modifies this
      ensures pedida == geolocalizacion
      ensures buscandoUbicacion == (geolocalizacion || old(buscandoUbicacion))
      ensures miLat == old(miLat) && miLng == old(miLng)
      ensures centroLat == old(centroLat) && centroLng == old(centroLng)
      ensures ubicacionObtenida == old(ubicacionObtenida)
      ensures productos == old(productos) && productMarkers == old(productMarkers)
      ensures radioCirculo == old(radioCirculo) && zoom == old(zoom) && radioKm == old(radioKm)
      ensures categoriaSeleccionada == old(categoriaSeleccionada) && isLoading == old(isLoading)
    {
      if !geolocalizacion {
        return false;
      }
      buscandoUbicacion := true;
      pedida := true;
    }

    /** The success callback of `getCurrentPosition`: the reported position is
        searched around, the map centres on it at zoom 15, and the marker and
        the circle move there. */
    method UbicacionRecibida(lat: real, lng: real)
      modifies this
      ensures miLat == lat && miLng == lng && Centrado()
      ensures ubicacionObtenida && !buscandoUbicacion && zoom == 15
      ensures productos == old(productos) && productMarkers == old(productMarkers)
      ensures radioCirculo == old(radioCirculo) && radioKm == old(radioKm)
      ensures categoriaSeleccionada == old(categoriaSeleccionada) && isLoading == old(isLoading)
    {
      miLat, miLng := lat, lng;
      ubicacionObtenida := true;
      buscandoUbicacion := false;
      zoom := 15;
      centroLat, centroLng := miLat, miLng;
    }

    /** The error callback of `getCurrentPosition`: the search for the
        position ends and the page stays where it was (by default Trujillo). */
    method UbicacionError()
      modifies this
      ensures !buscandoUbicacion
      ensures miLat == old(miLat) && miLng == old(miLng)
      ensures centroLat == old(centroLat) && centroLng == old(centroLng)
      ensures ubicacionObtenida == old(ubicacionObtenida)
      ensures productos == old(productos) && productMarkers == old(productMarkers)
      ensures radioCirculo == old(radioCirculo) && zoom == old(zoom) && radioKm == old(radioKm)
      ensures categoriaSeleccionada == old(categoriaSeleccionada) && isLoading == old(isLoading)
    {
      buscandoUbicacion := false;
    }

    /** `cambiarRadio`: the circle and the zoom follow the selected radius. */
    method CambiarRadio()
      modifies this
      ensures radioCirculo == RadioMetros(radioKm) && zoom == Zoom(radioKm)
      ensures productos == old(productos) && productMarkers == old(productMarkers)
      ensures miLat == old(miLat) && miLng == old(miLng) && radioKm == old(radioKm)
      ensures centroLat == old(centroLat) && centroLng == old(centroLng)
      ensures ubicacionObtenida == old(ubicacionObtenida) && buscandoUbicacion == old(buscandoUbicacion)
      ensures categoriaSeleccionada == old(categoriaSeleccionada) && isLoading == old(isLoading)
    {
      radioCirculo := radioKm * 1000.0;
      var z := 13;
      if radioKm <= 1.0 {
        z := 15;
      } else if radioKm <= 2.0 {
        z := 14;
      } else if radioKm <= 3.0 {
        z := 13;
      } else {
        z := 12;
      }
      zoom := z;
    }

    /** `limpiarMarcadores`. */
    method LimpiarMarcadores()
      modifies this
      ensures productMarkers == []
      ensures productos == old(productos) && radioCirculo == old(radioCirculo) && zoom == old(zoom)
      ensures miLat == old(miLat) && miLng == old(miLng) && radioKm == old(radioKm)
      ensures centroLat == old(centroLat) && centroLng == old(centroLng)
      ensures ubicacionObtenida == old(ubicacionObtenida) && buscandoUbicacion == old(buscandoUbicacion)
      ensures categoriaSeleccionada == old(categoriaSeleccionada) && isLoading == old(isLoading)
    {
      productMarkers := [];
    }

    /** `buscarCercanos` before the answer: the markers are removed, loading
        starts and the request goes out. */
    method BuscarCercanos() returns (solicitud: Busqueda)
      modifies this
      ensures productMarkers == [] && isLoading
      ensures solicitud == Busqueda(miLat, miLng, radioKm, CategoriaDeBusqueda(categoriaSeleccionada))
      ensures productos == old(productos) && radioCirculo == old(radioCirculo) && zoom == old(zoom)
      ensures miLat == old(miLat) && miLng == old(miLng) && radioKm == old(radioKm)
      ensures centroLat == old(centroLat) && centroLng == old(centroLng)
      ensures ubicacionObtenida == old(ubicacionObtenida) && buscandoUbicacion == old(buscandoUbicacion)
      ensures categoriaSeleccionada == old(categoriaSeleccionada)
    {
      isLoading := true;
      LimpiarMarcadores();
      solicitud := Busqueda(miLat, miLng, radioKm, CategoriaDeBusqueda(categoriaSeleccionada));
    }

    /** `agregarMarcadoresProductos`: one marker is pushed per listing with
        both coordinates truthy, in the listings' order. */
    method AgregarMarcadoresProductos()
      modifies this
      ensures productMarkers == old(productMarkers) + Marcadores(productos)
      ensures productos == old(productos) && radioCirculo == old(radioCirculo) && zoom == old(zoom)
      ensures miLat == old(miLat) && miLng == old(miLng) && radioKm == old(radioKm)
      ensures centroLat == old(centroLat) && centroLng == old(centroLng)
      ensures ubicacionObtenida == old(ubicacionObtenida) && buscandoUbicacion == old(buscandoUbicacion)
      ensures categoriaSeleccionada == old(categoriaSeleccionada) && isLoading == old(isLoading)
    {
      var i := 0;
      while i < |productos|
        invariant 0 <= i <= |productos|
        invariant productMarkers == old(productMarkers) + Marcadores(productos[..i])
        invariant productos == old(productos) && radioCirculo == old(radioCirculo) && zoom == old(zoom)
        invariant miLat == old(miLat) && miLng == old(miLng) && radioKm == old(radioKm)
        invariant centroLat == old(centroLat) && centroLng == old(centroLng)
        invariant ubicacionObtenida == old(ubicacionObtenida) && buscandoUbicacion == old(buscandoUbicacion)
        invariant categoriaSeleccionada == old(categoriaSeleccionada) && isLoading == old(isLoading)
      {
        var producto := productos[i];
        MarcadoresSnoc(productos[..i], producto);
        TakeSnoc(productos, i);
        if TieneCoordenadas(producto) {
          productMarkers := productMarkers + [MarcadorDe(producto)];
        }
        i := i + 1;
      }
      assert productos[..|productos|] == productos;
    }

    /** The `next` callback of `buscarCercanos`: the answer's listings are
        kept, loading ends, and when there are any their markers are added. */
    method BuscarExito(respuesta: seq<Producto>)
      modifies this
      ensures productos == respuesta && !isLoading
      ensures productMarkers == old(productMarkers) + Marcadores(respuesta)
      ensures radioCirculo == old(radioCirculo) && zoom == old(zoom)
      ensures miLat == old(miLat) && miLng == old(miLng) && radioKm == old(radioKm)
      ensures centroLat == old(centroLat) && centroLng == old(centroLng)
      ensures ubicacionObtenida == old(ubicacionObtenida) && buscandoUbicacion == old(buscandoUbicacion)
      ensures categoriaSeleccionada == old(categoriaSeleccionada)
    {
      productos := respuesta;
      isLoading := false;
      if |productos| == 0 {
        assert Filter(productos, TieneCoordenadas) == [];
        assert productMarkers + Marcadores(productos) == productMarkers;
      } else {
        AgregarMarcadoresProductos();
      }
    }

    /** The `error` callback of `buscarCercanos`. */
    method BuscarError()
      modifies this
      ensures !isLoading
      ensures productos == old(productos) && productMarkers == old(productMarkers)
      ensures radioCirculo == old(radioCirculo) && zoom == old(zoom)
      ensures miLat == old(miLat) && miLng == old(miLng) && radioKm == old(radioKm)
      ensures centroLat == old(centroLat) && centroLng == old(centroLng)
      ensures ubicacionObtenida == old(ubicacionObtenida) && buscandoUbicacion == old(buscandoUbicacion)
      ensures categoriaSeleccionada == old(categoriaSeleccionada)
    {
      isLoading := false;
    }
  }

  /** The page opens (`ngAfterViewInit` asks for the position), the browser
      reports one, and then the user starts a search (`buscarCercanos`, called
      only from the page's template): the search carries the reported position
      with the default 2 km radius and no category, at zoom 15. */
  method BuscarTrasLocalizar(lat: real, lng: real) returns (b: BusquedaCercana, solicitud: Busqueda)
    ensures b.ubicacionObtenida && b.Centrado() && b.zoom == 15
    ensures solicitud == Busqueda(lat, lng, 2.0, None)
  {
    b := new BusquedaCercana();
    var _ := b.ObtenerMiUbicacion(true);
    b.UbicacionRecibida(lat, lng);
    solicitud := b.BuscarCercanos();
  }

  /** A search followed by its answer leaves exactly the answer's markers. */
  method BuscarYRecibir(b: BusquedaCercana, respuesta: seq<Producto>)
    modifies b
    ensures b.productMarkers == Marcadores(respuesta) && b.productos == respuesta && !b.isLoading
  {
    var _ := b.BuscarCercanos();
    b.BuscarExito(respuesta);
  }
}
