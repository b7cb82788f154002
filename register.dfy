/** The registration form: the WhatsApp digit normaliser and the ordered
    submit checks. */
module Register {
  import opened Js
  import opened Entities

  /** The form's `registerData`. */
  datatype Registro = Registro(
    email: string,
    contrasena: string,
    nombre: string,
    apellido: string,
    numeroWhatsapp: string,
    preguntaSeguridad: string,
    respuestaSeguridad: string)

  const MsgContrasenas := "Las contraseñas no coinciden"
  const MsgWhatsapp := "El número de WhatsApp debe tener 9 dígitos"
  const MsgPregunta := "Debes seleccionar una pregunta de seguridad"
  const MsgRespuesta := "La respuesta de seguridad debe tener al menos 2 caracteres"
  const MsgErrorRegistro := "Error al registrar usuario."

  /** The first failing check of `onSubmit`, in the form's order. No rule
      bounds the password's length. */
  function ErrorDeValidacion(d: Registro, confirmar: string, whatsappInput: string): (r: Option<string>)
    ensures r == None <==>
      d.contrasena == confirmar && |DigitsOnly(whatsappInput)| == 9
      && d.preguntaSeguridad != "" && |Trim(d.respuestaSeguridad)| >= 2
    ensures r == Some(MsgContrasenas) <==> d.contrasena != confirmar
    ensures r == Some(MsgWhatsapp) <==> d.contrasena == confirmar && |DigitsOnly(whatsappInput)| != 9
    ensures r == Some(MsgPregunta) <==>
      d.contrasena == confirmar && |DigitsOnly(whatsappInput)| == 9 && d.preguntaSeguridad == ""
    ensures r == Some(MsgRespuesta) <==>
      d.contrasena == confirmar && |DigitsOnly(whatsappInput)| == 9
      && d.preguntaSeguridad != "" && |Trim(d.respuestaSeguridad)| < 2
  {
    if d.contrasena != confirmar then Some(MsgContrasenas)
    else if |DigitsOnly(whatsappInput)| != 9 then Some(MsgWhatsapp)
    else if d.preguntaSeguridad == "" then Some(MsgPregunta)
    else if d.respuestaSeguridad == "" || |Trim(d.respuestaSeguridad)| < 2 then Some(MsgRespuesta)
    else None
  }

  /** A one-character password passes when the rest of the form does. */
  lemma {:induction false} SinLongitudMinima(d: Registro, whatsappInput: string)
    requires |DigitsOnly(whatsappInput)| == 9 && d.preguntaSeguridad != "" && |Trim(d.respuestaSeguridad)| >= 2
    ensures ErrorDeValidacion(d.(contrasena := "x"), "x", whatsappInput) == None
  {
  }

  class Register {
    var registerData: Registro
    var whatsappInput: string
    var confirmarContrasena: string
    var errorMessage: string
    var isLoading: bool
    var lastRoute: Option<string>

    constructor()
      ensures registerData == Registro("", "", "", "", "", "", "")
      ensures whatsappInput == "" && confirmarContrasena == "" && errorMessage == ""
      ensures !isLoading && lastRoute == None
    {
      registerData := Registro("", "", "", "", "", "", "");
      whatsappInput := "";
      confirmarContrasena := "";
      errorMessage := "";
      isLoading := false;
      lastRoute := None;
    }

    /** `onWhatsappInput`: the input keeps at most 9 digits and the stored
        number is "+51" followed by them; a second call changes nothing. */
    method OnWhatsappInput()
      modifies this
      ensures whatsappInput == NueveDigitos(old(whatsappInput))
      ensures AllDigits(whatsappInput) && |whatsappInput| <= 9
      ensures registerData == old(registerData).(numeroWhatsapp := PrefijoPeru + whatsappInput)
      ensures NueveDigitos(whatsappInput) == whatsappInput
      ensures confirmarContrasena == old(confirmarContrasena) && errorMessage == old(errorMessage)
      ensures isLoading == old(isLoading) && lastRoute == old(lastRoute)
    {
      whatsappInput := DigitsOnly(whatsappInput);
      if |whatsappInput| > 9 {
        whatsappInput := whatsappInput[..9];
      }
      registerData := registerData.(numeroWhatsapp := PrefijoPeru + whatsappInput);
      NueveDigitosIdempotente(old(whatsappInput));
    }

    /** `onSubmit`: the first failing check is reported and nothing is sent;
        when all pass, the stored number is "+51" and 9 digits, loading
        starts and the request goes out. Returns the request sent, if any. */
    method OnSubmit() returns (enviado: Option<Registro>)
      modifies this
      ensures var e := ErrorDeValidacion(old(registerData), old(confirmarContrasena), old(whatsappInput));
        (e.Some? ==> enviado == None && errorMessage == e.value && registerData == old(registerData)
                     && isLoading == old(isLoading))
        && (e.None? ==> errorMessage == "" && isLoading
                        && registerData == old(registerData).(numeroWhatsapp := PrefijoPeru + DigitsOnly(old(whatsappInput)))
                        && enviado == Some(registerData))
      ensures enviado.Some? ==>
        |enviado.value.numeroWhatsapp| == 12 && StartsWith(enviado.value.numeroWhatsapp, PrefijoPeru)
        && AllDigits(enviado.value.numeroWhatsapp[3..])
      ensures whatsappInput == old(whatsappInput) && confirmarContrasena == old(confirmarContrasena)
      ensures lastRoute == old(lastRoute)
    {
      errorMessage := "";
      var e := ErrorDeValidacion(registerData, confirmarContrasena, whatsappInput);
      if e.Some? {
        errorMessage := e.value;
        return None;
      }
      var soloNumeros := DigitsOnly(whatsappInput);
      registerData := registerData.(numeroWhatsapp := PrefijoPeru + soloNumeros);
      assert registerData.numeroWhatsapp[3..] == soloNumeros;
      isLoading := true;
      enviado := Some(registerData);
    }

    /** The `next` and `complete` callbacks of `register`. */
    method RegistroExito()
      modifies this
      ensures lastRoute == Some("/productos") && !isLoading
      ensures registerData == old(registerData) && whatsappInput == old(whatsappInput)
      ensures confirmarContrasena == old(confirmarContrasena) && errorMessage == old(errorMessage)
    {
      lastRoute := Some("/productos");
      isLoading := false;
    }

    /** The `error` callback of `register`. */
    method RegistroError(mensaje: Option<string>)
      modifies this
      ensures errorMessage == (if TruthyStr(mensaje) then mensaje.value else MsgErrorRegistro)
      ensures !isLoading
      ensures registerData == old(registerData) && whatsappInput == old(whatsappInput)
      ensures confirmarContrasena == old(confirmarContrasena) && lastRoute == old(lastRoute)
    {
      errorMessage := if TruthyStr(mensaje) then mensaje.value else MsgErrorRegistro;
      isLoading := false;
    }
  }
}
