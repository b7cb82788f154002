/** The profile page: the 9-digit WhatsApp input taken from the stored
    number, edit and cancel, the ordered save checks and the pruning of the
    update request to its non-empty fields. */
module Perfil {
  import opened Js
  import opened Entities
  import opened WhatsappFormat

  /** The form's `perfilData`; `contrasena` is absent until a new password
      passes its checks. */
  datatype PerfilDatos = PerfilDatos(
    nombre: string,
    apellido: string,
    numeroWhatsapp: string,
    preguntaSeguridad: string,
    respuestaSeguridad: string,
    contrasena: Option<string>)

  const MsgContrasenas := "Las contraseñas no coinciden"
  const MsgLongitud := "La contraseña debe tener al menos 6 caracteres"
  const MsgWhatsapp := "El número de WhatsApp debe tener 9 dígitos"
  const MsgRespuesta := "Debes proporcionar una respuesta a la pregunta de seguridad"
  const MsgPregunta := "Debes seleccionar una pregunta de seguridad"
  const MsgErrorPerfil := "Error al actualizar el perfil"

  /** The form filled from the session user: the security fields blank and
      no password. */
  function PerfilDe(u: User): (r: PerfilDatos)
    ensures r.nombre == u.nombre && r.apellido == u.apellido && r.numeroWhatsapp == u.numeroWhatsapp
    ensures r.preguntaSeguridad == "" && r.respuestaSeguridad == "" && r.contrasena == None
  {
    PerfilDatos(u.nombre, u.apellido, u.numeroWhatsapp, "", "", None)
  }

  /** A stored "+51" number of 9 digits puts exactly those digits in the input. */
  lemma EntradaDeNumeroGuardado(u: User, d: string)
    requires u.numeroWhatsapp == PrefijoPeru + d && |d| == 9 && AllDigits(d)
    ensures Limpio(u.numeroWhatsapp) == d
  {
    MuestraNumeroGuardado(d);
  }

  /** Whether a new password is being set. */
  predicate CambiaContrasena(nueva: string, confirmar: string) { nueva != "" || confirmar != "" }

  /** The password checks pass: none asked for, or equal and at least 6 long. */
  predicate ContrasenaAceptada(nueva: string, confirmar: string)
  {
    CambiaContrasena(nueva, confirmar) ==> nueva == confirmar && |nueva| >= 6
  }

  /** The first failing check of `guardarCambios`: a mismatch is reported
      before the length rule, and the security question and answer must be
      given together. */
  function ErrorDeValidacion(nueva: string, confirmar: string, whatsappInput: string,
                            pregunta: string, respuesta: string): (r: Option<string>)
    ensures r == None <==>
      ContrasenaAceptada(nueva, confirmar) && |DigitsOnly(whatsappInput)| == 9 && (pregunta == "" <==> respuesta == "")
    ensures r == Some(MsgContrasenas) <==> nueva != confirmar
    ensures r == Some(MsgLongitud) <==> nueva == confirmar && nueva != "" && |nueva| < 6
    ensures r == Some(MsgWhatsapp) <==> ContrasenaAceptada(nueva, confirmar) && |DigitsOnly(whatsappInput)| != 9
    ensures r == Some(MsgRespuesta) <==>
      ContrasenaAceptada(nueva, confirmar) && |DigitsOnly(whatsappInput)| == 9 && pregunta != "" && respuesta == ""
    ensures r == Some(MsgPregunta) <==>
      ContrasenaAceptada(nueva, confirmar) && |DigitsOnly(whatsappInput)| == 9 && pregunta == "" && respuesta != ""
  {
    if CambiaContrasena(nueva, confirmar) && nueva != confirmar then Some(MsgContrasenas)
    else if CambiaContrasena(nueva, confirmar) && |nueva| < 6 then Some(MsgLongitud)
    else if |DigitsOnly(whatsappInput)| != 9 then Some(MsgWhatsapp)
    else if pregunta != "" && respuesta == "" then Some(MsgRespuesta)
    else if respuesta != "" && pregunta == "" then Some(MsgPregunta)
    else None
  }

  /** The update request (`dataToSend`): an object with at most the six
      known keys; an absent key is None. */
  datatype Actualizacion = Actualizacion(
    nombre: Option<string>,
    apellido: Option<string>,
    numeroWhatsapp: Option<string>,
    contrasena: Option<string>,
    preguntaSeguridad: Option<string>,
    respuestaSeguridad: Option<string>)

  /** A key is copied when its value is truthy. */
  function SiNoVacio(v: Option<string>): (r: Option<string>)
    ensures r.Some? <==> TruthyStr(v)
    ensures r.Some? ==> r == v
  {
    if TruthyStr(v) then v else None
  }

  /** `dataToSend`: exactly the non-empty fields of the form, each under its own key. */
  function DatosAEnviar(p: PerfilDatos): (r: Actualizacion)
    ensures r.nombre == (if p.nombre != "" then Some(p.nombre) else None)
    ensures r.apellido == (if p.apellido != "" then Some(p.apellido) else None)
    ensures r.numeroWhatsapp == (if p.numeroWhatsapp != "" then Some(p.numeroWhatsapp) else None)
    ensures r.contrasena.Some? <==> TruthyStr(p.contrasena)
    ensures r.contrasena.Some? ==> r.contrasena == p.contrasena
    ensures r.preguntaSeguridad == (if p.preguntaSeguridad != "" then Some(p.preguntaSeguridad) else None)
    ensures r.respuestaSeguridad == (if p.respuestaSeguridad != "" then Some(p.respuestaSeguridad) else None)
  {
    Actualizacion(SiNoVacio(Some(p.nombre)), SiNoVacio(Some(p.apellido)), SiNoVacio(Some(p.numeroWhatsapp)),
                  SiNoVacio(p.contrasena), SiNoVacio(Some(p.preguntaSeguridad)),
                  SiNoVacio(Some(p.respuestaSeguridad)))
  }

  class Perfil {
    var usuario: Option<User>
    var editMode: bool
    var perfilData: PerfilDatos
    var whatsappInput: string
    var nuevaContrasena: string
    var confirmarContrasena: string
    var errorMessage: string
    var successMessage: string
    var isLoading: bool
    var lastRoute: Option<string>

    constructor()
      ensures usuario == None && !editMode && perfilData == PerfilDatos("", "", "", "", "", None)
      ensures whatsappInput == "" && nuevaContrasena == "" && confirmarContrasena == ""
      ensures errorMessage == "" && successMessage == "" && !isLoading && lastRoute == None
    {
      usuario := None;
      editMode := false;
      perfilData := PerfilDatos("", "", "", "", "", None);
      whatsappInput := "";
      nuevaContrasena := "";
      confirmarContrasena := "";
      errorMessage := "";
      successMessage := "";
      isLoading := false;
      lastRoute := None;
    }

    /** `ngOnInit`: without a session, go to the login page; otherwise fill
        the form, the input holding the number without its first "+51" and
        without whitespace. */
    method Iniciar(currentUser: Option<User>)
      modifies this
      ensures usuario == currentUser
      ensures currentUser.None? ==>
        lastRoute == Some("/login") && perfilData == old(perfilData) && whatsappInput == old(whatsappInput)
      ensures currentUser.Some? ==>
        lastRoute == old(lastRoute) && perfilData == PerfilDe(currentUser.value)
        && whatsappInput == Limpio(currentUser.value.numeroWhatsapp)
      ensures editMode == old(editMode) && nuevaContrasena == old(nuevaContrasena)
      ensures confirmarContrasena == old(confirmarContrasena) && errorMessage == old(errorMessage)
      ensures successMessage == old(successMessage) && isLoading == old(isLoading)
    {
      usuario := currentUser;
      if usuario.None? {
        lastRoute := Some("/login");
        return;
      }
      perfilData := PerfilDe(usuario.value);
      whatsappInput := RemoveWhitespace(ReplaceFirst(usuario.value.numeroWhatsapp, PrefijoPeru, ""));
    }

    /** `onWhatsappInput`: as on the registration form. */
    method OnWhatsappInput()
      modifies this
      ensures whatsappInput == NueveDigitos(old(whatsappInput))
      ensures AllDigits(whatsappInput) && |whatsappInput| <= 9
      ensures perfilData == old(perfilData).(numeroWhatsapp := PrefijoPeru + whatsappInput)
      ensures usuario == old(usuario) && editMode == old(editMode) && nuevaContrasena == old(nuevaContrasena)
      ensures confirmarContrasena == old(confirmarContrasena) && errorMessage == old(errorMessage)
      ensures successMessage == old(successMessage) && isLoading == old(isLoading) && lastRoute == old(lastRoute)
    {
      whatsappInput := DigitsOnly(whatsappInput);
      if |whatsappInput| > 9 {
        whatsappInput := whatsappInput[..9];
      }
      perfilData := perfilData.(numeroWhatsapp := PrefijoPeru + whatsappInput);
    }

    /** `activarEdicion`. */
    method ActivarEdicion()
      modifies this
      ensures editMode && errorMessage == "" && successMessage == ""
      ensures usuario == old(usuario) && perfilData == old(perfilData) && whatsappInput == old(whatsappInput)
      ensures nuevaContrasena == old(nuevaContrasena) && confirmarContrasena == old(confirmarContrasena)
      ensures isLoading == old(isLoading) && lastRoute == old(lastRoute)
    {
      editMode := true;
      errorMessage := "";
      successMessage := "";
    }

    /** `cancelarEdicion`: the form and the input are restored from the
        session user, both password fields are cleared. */
    method CancelarEdicion()
      modifies this
      ensures !editMode && errorMessage == "" && successMessage == ""
      ensures usuario.Some? ==>
        perfilData == PerfilDe(usuario.value) && whatsappInput == Limpio(usuario.value.numeroWhatsapp)
      ensures usuario.None? ==> perfilData == old(perfilData) && whatsappInput == old(whatsappInput)
      ensures nuevaContrasena == "" && confirmarContrasena == ""
      ensures usuario == old(usuario) && isLoading == old(isLoading) && lastRoute == old(lastRoute)
    {
      editMode := false;
      errorMessage := "";
      successMessage := "";
      if usuario.Some? {
        perfilData := PerfilDe(usuario.value);
        whatsappInput := RemoveWhitespace(ReplaceFirst(usuario.value.numeroWhatsapp, PrefijoPeru, ""));
      }
      nuevaContrasena := "";
      confirmarContrasena := "";
    }

    /** `guardarCambios`: the checks run in order and the first failure is
        reported. An accepted new password is written into the form, and an
        accepted number is written as "+51" and its digits, before the later
        checks run; so they stay there if a later check fails. When all pass,
        loading starts and the pruned form is sent. */
    method GuardarCambios() returns (enviado: Option<Actualizacion>)
      modifies this
      ensures var e := ErrorDeValidacion(old(nuevaContrasena), old(confirmarContrasena), old(whatsappInput),
                                         old(perfilData).preguntaSeguridad, old(perfilData).respuestaSeguridad);
        (e.Some? ==> enviado == None && errorMessage == e.value && isLoading == old(isLoading))
        && (e.None? ==> enviado == Some(DatosAEnviar(perfilData)) && errorMessage == "" && isLoading)
      ensures perfilData.contrasena ==
        (if CambiaContrasena(old(nuevaContrasena), old(confirmarContrasena))
            && ContrasenaAceptada(old(nuevaContrasena), old(confirmarContrasena))
         then Some(old(nuevaContrasena)) else old(perfilData).contrasena)
      ensures perfilData.numeroWhatsapp ==
        (if ContrasenaAceptada(old(nuevaContrasena), old(confirmarContrasena))
            && |DigitsOnly(old(whatsappInput))| == 9
         then PrefijoPeru + DigitsOnly(old(whatsappInput)) else old(perfilData).numeroWhatsapp)
      ensures perfilData.nombre == old(perfilData).nombre && perfilData.apellido == old(perfilData).apellido
      ensures perfilData.preguntaSeguridad == old(perfilData).preguntaSeguridad
      ensures perfilData.respuestaSeguridad == old(perfilData).respuestaSeguridad
      ensures successMessage == ""
      ensures usuario == old(usuario) && editMode == old(editMode) && whatsappInput == old(whatsappInput)
      ensures nuevaContrasena == old(nuevaContrasena) && confirmarContrasena == old(confirmarContrasena)
      ensures lastRoute == old(lastRoute)
    {
      errorMessage := "";
      successMessage := "";
      if nuevaContrasena != "" || confirmarContrasena != "" {
        if nuevaContrasena != confirmarContrasena {
          errorMessage := MsgContrasenas;
          return None;
        }
        if |nuevaContrasena| < 6 {
          errorMessage := MsgLongitud;
          return None;
        }
        perfilData := perfilData.(contrasena := Some(nuevaContrasena));
      }
      var soloNumeros := DigitsOnly(whatsappInput);
      if |soloNumeros| != 9 {
        errorMessage := MsgWhatsapp;
        return None;
      }
      perfilData := perfilData.(numeroWhatsapp := PrefijoPeru + soloNumeros);
      if perfilData.preguntaSeguridad != "" && perfilData.respuestaSeguridad == "" {
        errorMessage := MsgRespuesta;
        return None;
      }
      if perfilData.respuestaSeguridad != "" && perfilData.preguntaSeguridad == "" {
        errorMessage := MsgPregunta;
        return None;
      }
      var dataToSend := DatosAEnviar(perfilData);
      isLoading := true;
      enviado := Some(dataToSend);
    }

    /** The `next` callback of the update: edit mode ends, the password
        fields are cleared and the session user takes the form's non-empty
        name, surname and number. */
    method GuardarExito()
      modifies this
      ensures !editMode && nuevaContrasena == "" && confirmarContrasena == "" && !isLoading
      ensures old(usuario).None? ==> usuario == None
      ensures old(usuario).Some? ==> usuario == Some(old(usuario).value.(
        nombre := OrElse(perfilData.nombre, old(usuario).value.nombre),
        apellido := OrElse(perfilData.apellido, old(usuario).value.apellido),
        numeroWhatsapp := OrElse(perfilData.numeroWhatsapp, old(usuario).value.numeroWhatsapp)))
      ensures perfilData == old(perfilData) && whatsappInput == old(whatsappInput)
      ensures errorMessage == old(errorMessage) && successMessage == old(successMessage)
      ensures lastRoute == old(lastRoute)
    {
      editMode := false;
      nuevaContrasena := "";
      confirmarContrasena := "";
      if usuario.Some? {
        var u := usuario.value;
        u := u.(nombre := OrElse(perfilData.nombre, u.nombre));
        u := u.(apellido := OrElse(perfilData.apellido, u.apellido));
        u := u.(numeroWhatsapp := OrElse(perfilData.numeroWhatsapp, u.numeroWhatsapp));
        usuario := Some(u);
      }
      isLoading := false;
    }

    /** The `error` callback of the update. */
    method GuardarError(mensaje: Option<string>)
      modifies this
      ensures errorMessage == (if TruthyStr(mensaje) then mensaje.value else MsgErrorPerfil)
      ensures !isLoading
      ensures usuario == old(usuario) && editMode == old(editMode) && perfilData == old(perfilData)
      ensures whatsappInput == old(whatsappInput) && nuevaContrasena == old(nuevaContrasena)
      ensures confirmarContrasena == old(confirmarContrasena) && successMessage == old(successMessage)
      ensures lastRoute == old(lastRoute)
    {
      errorMessage := if TruthyStr(mensaje) then mensaje.value else MsgErrorPerfil;
      isLoading := false;
    }
  }
}
