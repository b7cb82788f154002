/** The records the client receives from the backend, with the optional fields
    that the components test for truthiness kept optional, and the image-URL
    precedence that every listing component shares. */
module Entities {
  import opened Js

  /** A listing (`Producto`). */
  datatype Producto = Producto(
    id: int,
    nombre: string,
    descripcion: string,
    precio: real,
    estado: string,
    atributosExtra: Option<string>,
    latitud: Option<real>,
    longitud: Option<real>,
    direccion: Option<string>,
    categoriaId: int,
    categoriaNombre: Option<string>,
    usuarioId: int,
    usuarioWhatsapp: Option<string>,
    imagenesUrls: Option<seq<string>>,
    imagenPrincipal: Option<string>,
    estaActivo: bool,
    vendido: bool,
    eliminado: Option<bool>,
    cantidadFavoritos: Option<int>)

  /** `!!p.eliminado`. */
  predicate EsEliminado(p: Producto) { TruthyBool(p.eliminado) }

  /** `p.imagenesUrls && p.imagenesUrls.length > 0`. */
  predicate TieneImagenes(p: Producto) { p.imagenesUrls.Some? && |p.imagenesUrls.value| > 0 }

  /** `p.latitud && p.longitud`: a 0 coordinate counts as missing. */
  predicate TieneCoordenadas(p: Producto) { TruthyNum(p.latitud) && TruthyNum(p.longitud) }

  /** `getImageUrl` of the listing pages: a truthy `imagenPrincipal`, else the
      first element of a non-empty `imagenesUrls`, else the placeholder. */
  function ImageUrl(p: Producto, placeholder: string): (r: string)
    ensures TruthyStr(p.imagenPrincipal) ==> r == p.imagenPrincipal.value
    ensures !TruthyStr(p.imagenPrincipal) && TieneImagenes(p) ==> r == p.imagenesUrls.value[0]
    ensures !TruthyStr(p.imagenPrincipal) && !TieneImagenes(p) ==> r == placeholder
  {
    if TruthyStr(p.imagenPrincipal) then p.imagenPrincipal.value
    else if TieneImagenes(p) then p.imagenesUrls.value[0]
    else placeholder
  }

  /** The session user (`User` of the authentication service). */
  datatype User = User(
    id: int,
    email: string,
    nombre: string,
    apellido: string,
    numeroWhatsapp: string,
    rol: string,
    usuarioId: Option<int>)

  /** `currentUser && currentUser.usuarioId`: a user with a truthy id (0 is falsy). */
  predicate ConUsuarioId(u: Option<User>)
  {
    u.Some? && u.value.usuarioId.Some? && u.value.usuarioId.value != 0
  }

  const ADMIN := "ADMIN"

  /** `currentUser?.rol === 'ADMIN'`: a session whose role is exactly "ADMIN". */
  predicate SesionAdmin(u: Option<User>)
  {
    u.Some? && u.value.rol == ADMIN
  }

  /** A user account as the administration pages list it (`Usuario`). */
  datatype Usuario = Usuario(
    id: int,
    email: string,
    nombre: string,
    apellido: string,
    numeroWhatsapp: string,
    rol: string,
    suspendido: Option<bool>,
    eliminado: Option<bool>)

  /** A report against a listing (`Reporte`). */
  datatype Reporte = Reporte(
    id: int,
    productoId: int,
    productoNombre: string,
    usuarioReportadorId: int,
    razon: string,
    comentario: string)

  /** A favourite (`Favorito`), optionally with its listing embedded. */
  datatype Favorito = Favorito(
    id: int,
    usuarioId: int,
    productoId: int,
    producto: Option<Producto>)

  /** A browser `File` as the upload forms see it. */
  datatype File = File(name: string, mimeType: string, size: nat)

  /** At most this many images per listing. */
  const MaxImages: nat := 8

  /** 5 MiB, the largest accepted image. */
  const MaxImageBytes: nat := 5 * 1024 * 1024

  /** A selected file is kept iff its type starts with "image/" and it is at most 5 MiB. */
  predicate ImagenAceptable(f: File)
  {
    StartsWith(f.mimeType, "image/") && f.size <= MaxImageBytes
  }

  /** The Peruvian country code the forms put before the 9 digits. */
  const PrefijoPeru := "+51"

  /** `onWhatsappInput` of the register and profile forms: keep the digits,
      then at most the first 9 of them. */
  function NueveDigitos(s: string): (r: string)
    ensures AllDigits(r) && |r| <= 9
    ensures |DigitsOnly(s)| <= 9 ==> r == DigitsOnly(s)
    ensures |DigitsOnly(s)| > 9 ==> |r| == 9
    ensures r <= DigitsOnly(s)
  {
    var d := DigitsOnly(s);
    if |d| > 9 then d[..9] else d
  }

  /** Normalising an already normalised input changes nothing. */
  lemma {:induction false} NueveDigitosIdempotente(s: string)
    ensures NueveDigitos(NueveDigitos(s)) == NueveDigitos(s)
  {
    DigitsOnlyOfDigits(NueveDigitos(s));
  }
}
