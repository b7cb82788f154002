/** The edit form: optional fields, the image limit counted over existing
    and new images, removal of either kind, the ownership check on load. */
module EditarProducto {
  import opened Seqs
  import opened Js
  import opened Entities

  /** The update request (`ProductoUpdateRequest`): every field optional. */
  datatype Formulario = Formulario(
    nombre: Option<string>,
    descripcion: Option<string>,
    precio: Option<real>,
    estado: Option<string>,
    categoriaId: Option<int>,
    direccion: Option<string>,
    atributosExtra: Option<string>)

  /** An image already stored for the listing; only its id is used here. */
  datatype Imagen = Imagen(id: int, url: string)

  const FormularioVacio := Formulario(None, None, None, None, None, None, None)

  const MsgNombre := "El nombre debe tener al menos 3 caracteres"
  const MsgDescripcion := "La descripción debe tener al menos 10 caracteres"
  const MsgPrecio := "El precio debe ser mayor a 0"
  const MsgImagenes := "Debe haber al menos una imagen"
  const MsgErrorActualizar := "Error al actualizar el producto"

  /** The form filled from a loaded listing: exactly the seven editable fields. */
  function FormularioDe(p: Producto): (r: Formulario)
    ensures r.nombre == Some(p.nombre) && r.descripcion == Some(p.descripcion)
    ensures r.precio == Some(p.precio) && r.estado == Some(p.estado)
    ensures r.categoriaId == Some(p.categoriaId) && r.direccion == p.direccion
    ensures r.atributosExtra == p.atributosExtra
  {
    Formulario(Some(p.nombre), Some(p.descripcion), Some(p.precio), Some(p.estado),
               Some(p.categoriaId), p.direccion, p.atributosExtra)
  }

  /** The first failing check of `onSubmit`: a field is checked only when it
      is truthy, so an empty name and a 0 price pass; then at least one image,
      existing or new, is required. */
  function ErrorDeValidacion(f: Formulario, existentes: nat, nuevas: nat): (r: Option<string>)
    ensures r == None <==>
      (TruthyStr(f.nombre) ==> |Trim(f.nombre.value)| >= 3)
      && (TruthyStr(f.descripcion) ==> |Trim(f.descripcion.value)| >= 10)
      && (TruthyNum(f.precio) ==> f.precio.value > 0.0)
      && existentes + nuevas > 0
    ensures r == Some(MsgNombre) <==> TruthyStr(f.nombre) && |Trim(f.nombre.value)| < 3
    ensures r == Some(MsgDescripcion) <==>
      (TruthyStr(f.nombre) ==> |Trim(f.nombre.value)| >= 3)
      && TruthyStr(f.descripcion) && |Trim(f.descripcion.value)| < 10
    ensures r == Some(MsgPrecio) <==>
      (TruthyStr(f.nombre) ==> |Trim(f.nombre.value)| >= 3)
      && (TruthyStr(f.descripcion) ==> |Trim(f.descripcion.value)| >= 10)
      && TruthyNum(f.precio) && f.precio.value <= 0.0
    ensures r == Some(MsgPrecio) ==> f.precio.Some? && f.precio.value < 0.0
    ensures f.precio == Some(0.0) ==> r != Some(MsgPrecio)
    ensures r == Some(MsgImagenes) <==>
      (TruthyStr(f.nombre) ==> |Trim(f.nombre.value)| >= 3)
      && (TruthyStr(f.descripcion) ==> |Trim(f.descripcion.value)| >= 10)
      && (TruthyNum(f.precio) ==> f.precio.value > 0.0)
      && existentes == 0 && nuevas == 0
  {
    if TruthyStr(f.nombre) && |Trim(f.nombre.value)| < 3 then Some(MsgNombre)
    else if TruthyStr(f.descripcion) && |Trim(f.descripcion.value)| < 10 then Some(MsgDescripcion)
    else if TruthyNum(f.precio) && f.precio.value <= 0.0 then Some(MsgPrecio)
    else if existentes == 0 && nuevas == 0 then Some(MsgImagenes)
    else None
  }

  /** The callback of the delete `filter`: every image whose id differs. */
  function OtraImagen(id: int): Imagen -> bool
  {
    (img: Imagen) => img.id != id
  }

  /** Deleting an existing image removes exactly the images with that id and
      keeps every copy of the others, in their order. */
  lemma QuitarImagenPorId(imgs: seq<Imagen>, id: int)
    ensures IsSubsequence(Filter(imgs, OtraImagen(id)), imgs)
    ensures forall img :: img in Filter(imgs, OtraImagen(id)) <==> img in imgs && img.id != id
    ensures forall img :: multiset(Filter(imgs, OtraImagen(id)))[img]
                      == (if img.id != id then multiset(imgs)[img] else 0)
  {
    forall img
      ensures multiset(Filter(imgs, OtraImagen(id)))[img] == if img.id != id then multiset(imgs)[img] else 0
    {
      FilterMultiset(imgs, OtraImagen(id), img);
    }
    FilterIsSubsequence(imgs, OtraImagen(id));
    forall img ensures img in Filter(imgs, OtraImagen(id)) <==> img in imgs && img.id != id {
      FilterMembers(imgs, OtraImagen(id), img);
    }
  }

  class EditarProducto {
    var productoId: int
    var producto: Formulario
    var productoOriginal: Option<Producto>
    var errorMessage: string
    var successMessage: string
    var isLoading: bool
    var imagenesExistentes: seq<Imagen>
    var nuevasImagenes: seq<File>
    var lastRoute: Option<string>

    /** Every new image is an accepted image. */
    predicate Valid()
      reads this
    {
      forall f :: f in nuevasImagenes ==> ImagenAceptable(f)
    }

    constructor()
      ensures Valid()
      ensures productoId == 0 && producto == FormularioVacio && productoOriginal == None
      ensures errorMessage == "" && successMessage == "" && !isLoading
      ensures imagenesExistentes == [] && nuevasImagenes == [] && lastRoute == None
    {
      productoId := 0;
      producto := FormularioVacio;
      productoOriginal := None;
      errorMessage := "";
      successMessage := "";
      isLoading := false;
      imagenesExistentes := [];
      nuevasImagenes := [];
      lastRoute := None;
    }

    /** `ngOnInit`, with the route's id already read as a number: without a
        session, go to the login page; with an id, the listing and its images
        are requested. Returns whether they are. */
    method Iniciar(currentUser: Option<User>, id: Option<int>) returns (cargar: bool)
      requires Valid()
      modifies this
      ensures Valid()
      ensures cargar <==> currentUser.Some? && id.Some?
      ensures cargar ==> productoId == id.value
      ensures !cargar ==> productoId == old(productoId)
      ensures currentUser.None? ==> lastRoute == Some("/login")
      ensures currentUser.Some? ==> lastRoute == old(lastRoute)
      ensures producto == old(producto) && productoOriginal == old(productoOriginal)
      ensures errorMessage == old(errorMessage) && successMessage == old(successMessage)
      ensures isLoading == old(isLoading) && imagenesExistentes == old(imagenesExistentes)
      ensures nuevasImagenes == old(nuevasImagenes)
    {
      if currentUser.None? {
        lastRoute := Some("/login");
        return false;
      }
      cargar := id.Some?;
      if cargar {
        productoId := id.value;
      }
    }

    /** The `next` callback of `cargarProducto`: a session user who is not the
        owner is sent to the listings and the form stays as it was; otherwise
        the form is filled. */
    method CargarProductoExito(data: Producto, currentUser: Option<User>)
      requires Valid()
      modifies this
      ensures Valid()
      ensures productoOriginal == Some(data)
      ensures currentUser.Some? && currentUser.value.usuarioId != Some(data.usuarioId) ==>
        lastRoute == Some("/productos") && producto == old(producto)
      ensures !(currentUser.Some? && currentUser.value.usuarioId != Some(data.usuarioId)) ==>
        lastRoute == old(lastRoute) && producto == FormularioDe(data)
      ensures productoId == old(productoId) && errorMessage == old(errorMessage)
      ensures successMessage == old(successMessage) && isLoading == old(isLoading)
      ensures imagenesExistentes == old(imagenesExistentes) && nuevasImagenes == old(nuevasImagenes)
    {
      productoOriginal := Some(data);
      if currentUser.Some? && currentUser.value.usuarioId != Some(data.usuarioId) {
        lastRoute := Some("/productos");
        return;
      }
      producto := FormularioDe(data);
    }

    /** The `error` callback of `cargarProducto`. */
    method CargarProductoError()
      requires Valid()
      modifies this
      ensures Valid()
      ensures lastRoute == Some("/mis-publicaciones")
      ensures productoId == old(productoId) && producto == old(producto) && productoOriginal == old(productoOriginal)
      ensures errorMessage == old(errorMessage) && successMessage == old(successMessage)
      ensures isLoading == old(isLoading) && imagenesExistentes == old(imagenesExistentes)
      ensures nuevasImagenes == old(nuevasImagenes)
    {
      lastRoute := Some("/mis-publicaciones");
    }

    /** The `next` callback of `cargarImagenes`. */
    method CargarImagenesExito(imagenes: seq<Imagen>)
      requires Valid()
      modifies this
      ensures Valid()
      ensures imagenesExistentes == imagenes
      ensures productoId == old(productoId) && producto == old(producto) && productoOriginal == old(productoOriginal)
      ensures errorMessage == old(errorMessage) && successMessage == old(successMessage)
      ensures isLoading == old(isLoading) && nuevasImagenes == old(nuevasImagenes) && lastRoute == old(lastRoute)
    {
      imagenesExistentes := imagenes;
    }

    /** `onFileSelected`: a batch that would take existing plus new images
        past 8 is refused whole; otherwise every accepted image is appended in
        input order. Returns whether the batch was refused. */
    method OnFileSelected(files: seq<File>) returns (rechazado: bool)
      requires Valid()
      modifies this
      ensures Valid()
      ensures rechazado <==> |files| > 0 && |imagenesExistentes| + |old(nuevasImagenes)| + |files| > MaxImages
      ensures rechazado ==> nuevasImagenes == old(nuevasImagenes)
      ensures !rechazado ==> nuevasImagenes == old(nuevasImagenes) + Filter(files, ImagenAceptable)
      ensures !rechazado && |files| > 0 ==> |imagenesExistentes| + |nuevasImagenes| <= MaxImages
      ensures productoId == old(productoId) && producto == old(producto) && productoOriginal == old(productoOriginal)
      ensures errorMessage == old(errorMessage) && successMessage == old(successMessage)
      ensures isLoading == old(isLoading) && imagenesExistentes == old(imagenesExistentes)
      ensures lastRoute == old(lastRoute)
    {
      if |files| == 0 {
        return false;
      }
      var totalImagenes := |imagenesExistentes| + |nuevasImagenes| + |files|;
      if totalImagenes > MaxImages {
        return true;
      }
      rechazado := false;
      var i := 0;
      while i < |files|
        invariant 0 <= i <= |files|
        invariant nuevasImagenes == old(nuevasImagenes) + Filter(files[..i], ImagenAceptable)
        invariant productoId == old(productoId) && producto == old(producto)
        invariant productoOriginal == old(productoOriginal) && errorMessage == old(errorMessage)
        invariant successMessage == old(successMessage) && isLoading == old(isLoading)
        invariant imagenesExistentes == old(imagenesExistentes) && lastRoute == old(lastRoute)
      {
        var file := files[i];
        FilterPrefixStep(files, i, ImagenAceptable);
        i := i + 1;
        if !StartsWith(file.mimeType, "image/") {
          continue;
        }
        if file.size > 5 * 1024 * 1024 {
          continue;
        }
        nuevasImagenes := nuevasImagenes + [file];
      }
      assert files[..|files|] == files;
    }

    /** `removeNewImage(index)`: `splice(index, 1)` on the new images. */
    method RemoveNewImage(index: int)
      requires Valid()
      modifies this
      ensures Valid()
      ensures nuevasImagenes == SpliceOne(old(nuevasImagenes), index)
      ensures 0 <= index < |old(nuevasImagenes)| ==>
        nuevasImagenes == old(nuevasImagenes)[..index] + old(nuevasImagenes)[index + 1..]
      ensures productoId == old(productoId) && producto == old(producto) && productoOriginal == old(productoOriginal)
      ensures errorMessage == old(errorMessage) && successMessage == old(successMessage)
      ensures isLoading == old(isLoading) && imagenesExistentes == old(imagenesExistentes)
      ensures lastRoute == old(lastRoute)
    {
      nuevasImagenes := SpliceOne(nuevasImagenes, index);
    }

    /** `eliminarImagenExistente(imagen)`, with the dialog's answer and whether
        the server accepted as inputs. Returns whether the request was sent. */
    method EliminarImagenExistente(imagen: Imagen, confirmado: bool, exito: bool) returns (enviado: bool)
      requires Valid()
      modifies this
      ensures Valid()
      ensures enviado == confirmado
      ensures enviado && exito ==>
        imagenesExistentes == Filter(old(imagenesExistentes), OtraImagen(imagen.id))
        && successMessage == "Imagen eliminada"
      ensures !(enviado && exito) ==>
        imagenesExistentes == old(imagenesExistentes) && successMessage == old(successMessage)
      ensures productoId == old(productoId) && producto == old(producto) && productoOriginal == old(productoOriginal)
      ensures errorMessage == old(errorMessage) && isLoading == old(isLoading)
      ensures nuevasImagenes == old(nuevasImagenes) && lastRoute == old(lastRoute)
    {
      enviado := confirmado;
      if confirmado && exito {
        imagenesExistentes := Filter(imagenesExistentes, OtraImagen(imagen.id));
        successMessage := "Imagen eliminada";
      }
    }

    /** `onSubmit`: both messages are cleared, the first failing check is
        reported and nothing is sent; when all pass, loading starts and the
        update goes out. Returns the request sent, if any. */
    method OnSubmit() returns (enviado: Option<Formulario>)
      requires Valid()
      modifies this
      ensures Valid()
      ensures var e := ErrorDeValidacion(old(producto), |old(imagenesExistentes)|, |old(nuevasImagenes)|);
        (e.Some? ==> enviado == None && errorMessage == e.value && isLoading == old(isLoading))
        && (e.None? ==> enviado == Some(old(producto)) && errorMessage == "" && isLoading)
      ensures successMessage == ""
      ensures productoId == old(productoId) && producto == old(producto) && productoOriginal == old(productoOriginal)
      ensures imagenesExistentes == old(imagenesExistentes) && nuevasImagenes == old(nuevasImagenes)
      ensures lastRoute == old(lastRoute)
    {
      errorMessage := "";
      successMessage := "";
      var e := ErrorDeValidacion(producto, |imagenesExistentes|, |nuevasImagenes|);
      if e.Some? {
        errorMessage := e.value;
        return None;
      }
      isLoading := true;
      enviado := Some(producto);
    }

    /** The `next` callback of `actualizarProducto`: with new images, their
        upload is requested; otherwise the page reports success and goes to
        the seller's listings. Returns whether the upload is requested. */
    method ActualizarExito() returns (subir: bool)
      requires Valid()
      modifies this
      ensures Valid()
      ensures subir == (|nuevasImagenes| > 0)
      ensures subir ==> isLoading == old(isLoading) && successMessage == old(successMessage) && lastRoute == old(lastRoute)
      ensures !subir ==>
        !isLoading && successMessage == "¡Producto actualizado exitosamente!" && lastRoute == Some("/mis-publicaciones")
      ensures productoId == old(productoId) && producto == old(producto) && productoOriginal == old(productoOriginal)
      ensures errorMessage == old(errorMessage) && imagenesExistentes == old(imagenesExistentes)
      ensures nuevasImagenes == old(nuevasImagenes)
    {
      subir := |nuevasImagenes| > 0;
      if !subir {
        isLoading := false;
        successMessage := "¡Producto actualizado exitosamente!";
        lastRoute := Some("/mis-publicaciones");
      }
    }

    /** The `error` callback of `actualizarProducto`. */
    method ActualizarError(mensaje: Option<string>)
      requires Valid()
      modifies this
      ensures Valid()
      ensures errorMessage == (if TruthyStr(mensaje) then mensaje.value else MsgErrorActualizar)
      ensures !isLoading
      ensures productoId == old(productoId) && producto == old(producto) && productoOriginal == old(productoOriginal)
      ensures successMessage == old(successMessage) && imagenesExistentes == old(imagenesExistentes)
      ensures nuevasImagenes == old(nuevasImagenes) && lastRoute == old(lastRoute)
    {
      errorMessage := if TruthyStr(mensaje) then mensaje.value else MsgErrorActualizar;
      isLoading := false;
    }

    /** Either callback of `subirNuevasImagenes`: the listing is updated either
        way, so the page goes to the seller's listings. */
    method SubirNuevasImagenesTerminado(exito: bool)
      requires Valid()
      modifies this
      ensures Valid()
      ensures !isLoading && lastRoute == Some("/mis-publicaciones")
      ensures successMessage == (if exito then "¡Producto e imágenes actualizados exitosamente!"
                                 else "Producto actualizado pero hubo un error con algunas imágenes")
      ensures productoId == old(productoId) && producto == old(producto) && productoOriginal == old(productoOriginal)
      ensures errorMessage == old(errorMessage) && imagenesExistentes == old(imagenesExistentes)
      ensures nuevasImagenes == old(nuevasImagenes)
    {
      isLoading := false;
      successMessage := if exito then "¡Producto e imágenes actualizados exitosamente!"
                        else "Producto actualizado pero hubo un error con algunas imágenes";
      lastRoute := Some("/mis-publicaciones");
    }

    /** `cancelar`. */
    method Cancelar()
      requires Valid()
      modifies this
      ensures Valid()
      ensures lastRoute == Some("/mis-publicaciones")
      ensures productoId == old(productoId) && producto == old(producto) && productoOriginal == old(productoOriginal)
      ensures errorMessage == old(errorMessage) && successMessage == old(successMessage)
      ensures isLoading == old(isLoading) && imagenesExistentes == old(imagenesExistentes)
      ensures nuevasImagenes == old(nuevasImagenes)
    {
      lastRoute := Some("/mis-publicaciones");
    }
  }
}
