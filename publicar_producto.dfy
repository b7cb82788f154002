/** The publish form: the image batch with its limit and filters, removal of
    a selected image, the ordered submit checks and the location fields. */
module PublicarProducto {
  import opened Seqs
  import opened Js
  import opened Entities

  /** The create request the form edits (`ProductoCreateRequest`). */
  datatype Solicitud = Solicitud(
    nombre: string,
    descripcion: string,
    precio: real,
    estado: string,
    categoriaId: int,
    direccion: string,
    atributosExtra: string,
    usuarioId: int,
    latitud: Option<real>,
    longitud: Option<real>)

  const MsgNombre := "El nombre debe tener al menos 3 caracteres"
  const MsgDescripcion := "La descripción debe tener al menos 10 caracteres"
  const MsgPrecio := "El precio debe ser mayor a 0"
  const MsgCategoria := "Debes seleccionar una categoría"
  const MsgImagenes := "Debes subir al menos una imagen del producto"
  const MsgErrorCrear := "Error al publicar el producto"

  /** The first failing check of `onSubmit`, in the order the form applies
      them, or None when the listing may be created. */
  function ErrorDeValidacion(p: Solicitud, archivos: nat): (r: Option<string>)
    ensures r == None <==>
      |Trim(p.nombre)| >= 3 && |Trim(p.descripcion)| >= 10 && p.precio > 0.0 && p.categoriaId != 0 && archivos > 0
    ensures r == Some(MsgNombre) <==> |Trim(p.nombre)| < 3
    ensures r == Some(MsgDescripcion) <==> |Trim(p.nombre)| >= 3 && |Trim(p.descripcion)| < 10
    ensures r == Some(MsgPrecio) <==> |Trim(p.nombre)| >= 3 && |Trim(p.descripcion)| >= 10 && p.precio <= 0.0
    ensures r == Some(MsgCategoria) <==>
      |Trim(p.nombre)| >= 3 && |Trim(p.descripcion)| >= 10 && p.precio > 0.0 && p.categoriaId == 0
    ensures r == Some(MsgImagenes) <==>
      |Trim(p.nombre)| >= 3 && |Trim(p.descripcion)| >= 10 && p.precio > 0.0 && p.categoriaId != 0 && archivos == 0
  {
    if p.nombre == "" || |Trim(p.nombre)| < 3 then Some(MsgNombre)
    else if p.descripcion == "" || |Trim(p.descripcion)| < 10 then Some(MsgDescripcion)
    else if p.precio <= 0.0 then Some(MsgPrecio)
    else if p.categoriaId == 0 then Some(MsgCategoria)
    else if archivos == 0 then Some(MsgImagenes)
    else None
  }

  class PublicarProducto {
    var producto: Solicitud
    var selectedFiles: seq<File>
    var errorMessage: string
    var isLoading: bool
    var mostrarMapa: bool
    var ubicacionSeleccionada: bool
    var lastRoute: Option<string>

    /** At most 8 selected files, each an accepted image, and the location
        flag set exactly when both coordinates are. */
    predicate Valid()
      reads this
    {
      |selectedFiles| <= MaxImages
      && (forall f :: f in selectedFiles ==> ImagenAceptable(f))
      && (ubicacionSeleccionada <==> producto.latitud.Some? && producto.longitud.Some?)
    }

    constructor()
      ensures Valid()
      ensures producto == Solicitud("", "", 0.0, "nuevo", 0, "", "", 0, None, None)
      ensures selectedFiles == [] && errorMessage == "" && !isLoading
      ensures !mostrarMapa && !ubicacionSeleccionada && lastRoute == None
    {
      producto := Solicitud("", "", 0.0, "nuevo", 0, "", "", 0, None, None);
      selectedFiles := [];
      errorMessage := "";
      isLoading := false;
      mostrarMapa := false;
      ubicacionSeleccionada := false;
      lastRoute := None;
    }

    /** `ngOnInit`: without a session, go to the login page; a session user
        with an id becomes the owner of the request. Returns whether the
        categories are requested. */
    method Iniciar(currentUser: Option<User>) returns (cargar: bool)
      requires Valid()
      modifies this
      ensures Valid()
      ensures cargar == currentUser.Some?
      ensures currentUser.None? ==> lastRoute == Some("/login") && producto == old(producto)
      ensures currentUser.Some? ==> lastRoute == old(lastRoute)
      ensures ConUsuarioId(currentUser) ==> producto == old(producto).(usuarioId := currentUser.value.usuarioId.value)
      ensures currentUser.Some? && !ConUsuarioId(currentUser) ==> producto == old(producto)
      ensures selectedFiles == old(selectedFiles) && errorMessage == old(errorMessage)
      ensures isLoading == old(isLoading) && mostrarMapa == old(mostrarMapa)
      ensures ubicacionSeleccionada == old(ubicacionSeleccionada)
    {
      if currentUser.None? {
        lastRoute := Some("/login");
        return false;
      }
      if ConUsuarioId(currentUser) {
        producto := producto.(usuarioId := currentUser.value.usuarioId.value);
      }
      cargar := true;
    }

    /** `toggleMapa` (the map widget itself is not modelled). */
    method ToggleMapa()
      requires Valid()
      modifies this
      ensures Valid()
      ensures mostrarMapa == !old(mostrarMapa)
      ensures producto == old(producto) && selectedFiles == old(selectedFiles)
      ensures errorMessage == old(errorMessage) && isLoading == old(isLoading)
      ensures ubicacionSeleccionada == old(ubicacionSeleccionada) && lastRoute == old(lastRoute)
    {
      mostrarMapa := !mostrarMapa;
    }

    /** `colocarMarcador`: the coordinates of the pin are stored. */
    method ColocarMarcador(lat: real, lng: real)
      requires Valid()
      modifies this
      ensures Valid()
      ensures producto == old(producto).(latitud := Some(lat), longitud := Some(lng))
      ensures ubicacionSeleccionada
      ensures selectedFiles == old(selectedFiles) && errorMessage == old(errorMessage)
      ensures isLoading == old(isLoading) && mostrarMapa == old(mostrarMapa) && lastRoute == old(lastRoute)
    {
      producto := producto.(latitud := Some(lat));
      producto := producto.(longitud := Some(lng));
      ubicacionSeleccionada := true;
    }

    /** `limpiarUbicacion`: coordinates and address are cleared. */
    method LimpiarUbicacion()
      requires Valid()
      modifies this
      ensures Valid()
      ensures producto == old(producto).(latitud := None, longitud := None, direccion := "")
      ensures !ubicacionSeleccionada
      ensures selectedFiles == old(selectedFiles) && errorMessage == old(errorMessage)
      ensures isLoading == old(isLoading) && mostrarMapa == old(mostrarMapa) && lastRoute == old(lastRoute)
    {
      producto := producto.(latitud := None);
      producto := producto.(longitud := None);
      producto := producto.(direccion := "");
      ubicacionSeleccionada := false;
    }

    /** `onFileSelected`: a batch that would pass 8 files is refused whole;
        otherwise every accepted image is appended in input order and the
        rest are skipped. Returns whether the batch was refused. */
    method OnFileSelected(files: seq<File>) returns (rechazado: bool)
      requires Valid()
      modifies this
      ensures Valid()
      ensures rechazado <==> |old(selectedFiles)| + |files| > MaxImages
      ensures rechazado ==> selectedFiles == old(selectedFiles)
      ensures !rechazado ==> selectedFiles == old(selectedFiles) + Filter(files, ImagenAceptable)
      ensures producto == old(producto) && errorMessage == old(errorMessage) && isLoading == old(isLoading)
      ensures mostrarMapa == old(mostrarMapa) && ubicacionSeleccionada == old(ubicacionSeleccionada)
      ensures lastRoute == old(lastRoute)
    {
      if |files| == 0 {
        return false;
      }
      if |selectedFiles| + |files| > MaxImages {
        return true;
      }
      rechazado := false;
      var i := 0;
      while i < |files|
        invariant 0 <= i <= |files|
        invariant selectedFiles == old(selectedFiles) + Filter(files[..i], ImagenAceptable)
        invariant producto == old(producto) && errorMessage == old(errorMessage) && isLoading == old(isLoading)
        invariant mostrarMapa == old(mostrarMapa) && ubicacionSeleccionada == old(ubicacionSeleccionada)
        invariant lastRoute == old(lastRoute)
      {
        var file := files[i];
        FilterPrefixStep(files, i, ImagenAceptable);
        i := i + 1;
        if !StartsWith(file.mimeType, "image/") {
          continue;
        }
        if file.size > 5 * 1024 * 1024 {
          continue;
        }
        selectedFiles := selectedFiles + [file];
      }
      assert files[..|files|] == files;
    }

    /** `removeImage(index)`: `splice(index, 1)` on the selected files. */
    method RemoveImage(index: int)
      requires Valid()
      modifies this
      ensures Valid()
      ensures selectedFiles == SpliceOne(old(selectedFiles), index)
      ensures 0 <= index < |old(selectedFiles)| ==>
        selectedFiles == old(selectedFiles)[..index] + old(selectedFiles)[index + 1..]
      ensures producto == old(producto) && errorMessage == old(errorMessage) && isLoading == old(isLoading)
      ensures mostrarMapa == old(mostrarMapa) && ubicacionSeleccionada == old(ubicacionSeleccionada)
      ensures lastRoute == old(lastRoute)
    {
      selectedFiles := SpliceOne(selectedFiles, index);
    }

    /** `onSubmit`: the first failing check is reported and nothing is sent;
        when all pass, loading starts and the request goes out. Returns the
        request sent, if any. */
    method OnSubmit() returns (enviado: Option<Solicitud>)
      requires Valid()
      modifies this
      ensures Valid()
      ensures var e := ErrorDeValidacion(old(producto), |old(selectedFiles)|);
        (e.Some? ==> enviado == None && errorMessage == e.value && isLoading == old(isLoading))
        && (e.None? ==> enviado == Some(old(producto)) && errorMessage == "" && isLoading)
      ensures producto == old(producto) && selectedFiles == old(selectedFiles)
      ensures mostrarMapa == old(mostrarMapa) && ubicacionSeleccionada == old(ubicacionSeleccionada)
      ensures lastRoute == old(lastRoute)
    {
      errorMessage := "";
      var e := ErrorDeValidacion(producto, |selectedFiles|);
      if e.Some? {
        errorMessage := e.value;
        return None;
      }
      isLoading := true;
      enviado := Some(producto);
    }

    /** The `next` callback of `crearProducto`: with files selected, their
        upload is requested; otherwise the page is done. Returns whether the
        upload is requested. */
    method CrearExito() returns (subir: bool)
      requires Valid()
      modifies this
      ensures Valid()
      ensures subir == (|selectedFiles| > 0)
      ensures subir ==> isLoading == old(isLoading) && lastRoute == old(lastRoute)
      ensures !subir ==> !isLoading && lastRoute == Some("/mis-publicaciones")
      ensures producto == old(producto) && selectedFiles == old(selectedFiles) && errorMessage == old(errorMessage)
      ensures mostrarMapa == old(mostrarMapa) && ubicacionSeleccionada == old(ubicacionSeleccionada)
    {
      subir := |selectedFiles| > 0;
      if !subir {
        isLoading := false;
        lastRoute := Some("/mis-publicaciones");
      }
    }

    /** The `error` callback of `crearProducto`: the server's message if it
        sent a non-empty one, else the default. */
    method CrearError(mensaje: Option<string>)
      requires Valid()
      modifies this
      ensures Valid()
      ensures errorMessage == (if TruthyStr(mensaje) then mensaje.value else MsgErrorCrear)
      ensures !isLoading
      ensures producto == old(producto) && selectedFiles == old(selectedFiles) && lastRoute == old(lastRoute)
      ensures mostrarMapa == old(mostrarMapa) && ubicacionSeleccionada == old(ubicacionSeleccionada)
    {
      errorMessage := if TruthyStr(mensaje) then mensaje.value else MsgErrorCrear;
      isLoading := false;
    }

    /** Either callback of `subirImagenes`: the listing exists either way, so
        the page goes to the seller's listings. */
    method SubirImagenesTerminado()
      requires Valid()
      modifies this
      ensures Valid()
      ensures !isLoading && lastRoute == Some("/mis-publicaciones")
      ensures producto == old(producto) && selectedFiles == old(selectedFiles) && errorMessage == old(errorMessage)
      ensures mostrarMapa == old(mostrarMapa) && ubicacionSeleccionada == old(ubicacionSeleccionada)
    {
      isLoading := false;
      lastRoute := Some("/mis-publicaciones");
    }
  }
}
