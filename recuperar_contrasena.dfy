/** The password-recovery wizard: a step counter that moves from the email
    (step 1) to the security question (step 2) to the new password (step 3),
    each step guarded by an input check before any request goes out. */
module RecuperarContrasena {
  import opened Js

  const MsgContrasenaCorta := "La contraseña debe tener al menos 6 caracteres"
  const MsgContrasenasDistintas := "Las contraseñas no coinciden"
  const MsgErrorEmail := "Error al verificar email"
  const MsgErrorRespuesta := "Respuesta incorrecta"
  const MsgErrorRestablecer := "Error al restablecer contraseña"

  /** `verificarEmail` goes on only with a non-empty email containing '@'. */
  predicate EmailAceptable(email: string)
  {
    email != "" && Contains(email, "@")
  }

  /** `verificarRespuesta` goes on only with an answer of at least 2
      characters once trimmed. */
  predicate RespuestaAceptable(respuesta: string)
  {
    respuesta != "" && |Trim(respuesta)| >= 2
  }

  /** The message of the first failing check of `restablecerContrasena`:
      the length is checked before the confirmation. */
  function RechazoRestablecer(nueva: string, confirmar: string): (r: Option<string>)
    ensures r == None <==> |nueva| >= 6 && nueva == confirmar
    ensures r == Some(MsgContrasenaCorta) <==> |nueva| < 6
    ensures r == Some(MsgContrasenasDistintas) <==> |nueva| >= 6 && nueva != confirmar
  {
    if nueva == "" || |nueva| < 6 then Some(MsgContrasenaCorta)
    else if nueva != confirmar then Some(MsgContrasenasDistintas)
    else None
  }

  /** A short password is reported as short even when the confirmation
      differs as well. */
  lemma CortaAntesQueDistinta(nueva: string, confirmar: string)
    requires |nueva| < 6 && nueva != confirmar
    ensures RechazoRestablecer(nueva, confirmar) == Some(MsgContrasenaCorta)
  {
  }

  class RecuperarContrasena {
    /** 1: email, 2: security question, 3: new password. */
    var paso: int
    var email: string
    var preguntaSeguridad: string
    var respuesta: string
    var nuevaContrasena: string
    var confirmarContrasena: string
    var isLoading: bool
    var errorMessage: string
    var lastRoute: Option<string>

    /** The step is always one of the three. */
    predicate Valid()
      reads this
    {
      1 <= paso <= 3
    }

    constructor()
      ensures Valid() && paso == 1
      ensures email == "" && preguntaSeguridad == "" && respuesta == ""
      ensures nuevaContrasena == "" && confirmarContrasena == ""
      ensures !isLoading && errorMessage == "" && lastRoute == None
    {
      paso := 1;
      email := "";
      preguntaSeguridad := "";
      respuesta := "";
      nuevaContrasena := "";
      confirmarContrasena := "";
      isLoading := false;
      errorMessage := "";
      lastRoute := None;
    }

    /** `verificarEmail`: with an unacceptable email nothing changes and
        nothing is sent; otherwise loading starts and the email is sent.
        Returns whether the request went out. */
    method VerificarEmail() returns (enviado: bool)
      requires Valid()
      modifies this
      ensures Valid()
      ensures enviado <==> EmailAceptable(old(email))
      ensures enviado ==> isLoading && errorMessage == ""
      ensures !enviado ==> isLoading == old(isLoading) && errorMessage == old(errorMessage)
      ensures paso == old(paso) && email == old(email) && preguntaSeguridad == old(preguntaSeguridad)
      ensures respuesta == old(respuesta) && nuevaContrasena == old(nuevaContrasena)
      ensures confirmarContrasena == old(confirmarContrasena) && lastRoute == old(lastRoute)
    {
      if !EmailAceptable(email) {
        return false;
      }
      isLoading := true;
      errorMessage := "";
      enviado := true;
    }

    /** The `next` callback of `verificarEmail`: the wizard moves to step 2
        only when the account has a security question. */
    method VerificarEmailRespuesta(tienePregunta: bool, pregunta: string)
      requires Valid()
      modifies this
      ensures Valid()
      ensures tienePregunta ==> paso == 2 && preguntaSeguridad == pregunta
      ensures !tienePregunta ==> paso == old(paso) && preguntaSeguridad == old(preguntaSeguridad)
      ensures !isLoading && errorMessage == old(errorMessage)
      ensures email == old(email) && respuesta == old(respuesta)
      ensures nuevaContrasena == old(nuevaContrasena) && confirmarContrasena == old(confirmarContrasena)
      ensures lastRoute == old(lastRoute)
    {
      if tienePregunta {
        preguntaSeguridad := pregunta;
        paso := 2;
      }
      isLoading := false;
    }

    /** The `error` callback of `verificarEmail`. */
    method VerificarEmailError(error: Option<string>)
      requires Valid()
      modifies this
      ensures Valid()
      ensures errorMessage == (if TruthyStr(error) then error.value else MsgErrorEmail)
      ensures !isLoading
      ensures paso == old(paso) && email == old(email) && preguntaSeguridad == old(preguntaSeguridad)
      ensures respuesta == old(respuesta) && nuevaContrasena == old(nuevaContrasena)
      ensures confirmarContrasena == old(confirmarContrasena) && lastRoute == old(lastRoute)
    {
      errorMessage := if TruthyStr(error) then error.value else MsgErrorEmail;
      isLoading := false;
    }

    /** `verificarRespuesta`: an answer shorter than 2 trimmed characters
        sends nothing; otherwise loading starts. */
    method VerificarRespuesta() returns (enviado: bool)
      requires Valid()
      modifies this
      ensures Valid()
      ensures enviado <==> RespuestaAceptable(old(respuesta))
      ensures enviado ==> isLoading && errorMessage == ""
      ensures !enviado ==> isLoading == old(isLoading) && errorMessage == old(errorMessage)
      ensures paso == old(paso) && email == old(email) && preguntaSeguridad == old(preguntaSeguridad)
      ensures respuesta == old(respuesta) && nuevaContrasena == old(nuevaContrasena)
      ensures confirmarContrasena == old(confirmarContrasena) && lastRoute == old(lastRoute)
    {
      if !RespuestaAceptable(respuesta) {
        return false;
      }
      isLoading := true;
      errorMessage := "";
      enviado := true;
    }

    /** The `next` callback of `verificarRespuesta`: the wizard moves to
        step 3 only when the answer is valid. */
    method VerificarRespuestaRespuesta(valida: bool)
      requires Valid()
      modifies this
      ensures Valid()
      ensures valida ==> paso == 3
      ensures !valida ==> paso == old(paso)
      ensures !isLoading && errorMessage == old(errorMessage)
      ensures email == old(email) && preguntaSeguridad == old(preguntaSeguridad)
      ensures respuesta == old(respuesta) && nuevaContrasena == old(nuevaContrasena)
      ensures confirmarContrasena == old(confirmarContrasena) && lastRoute == old(lastRoute)
    {
      if valida {
        paso := 3;
      }
      isLoading := false;
    }

    /** The `error` callback of `verificarRespuesta`. */
    method VerificarRespuestaError(error: Option<string>)
      requires Valid()
      modifies this
      ensures Valid()
      ensures errorMessage == (if TruthyStr(error) then error.value else MsgErrorRespuesta)
      ensures !isLoading
      ensures paso == old(paso) && email == old(email) && preguntaSeguridad == old(preguntaSeguridad)
      ensures respuesta == old(respuesta) && nuevaContrasena == old(nuevaContrasena)
      ensures confirmarContrasena == old(confirmarContrasena) && lastRoute == old(lastRoute)
    {
      errorMessage := if TruthyStr(error) then error.value else MsgErrorRespuesta;
      isLoading := false;
    }

    /** `restablecerContrasena`: the new password goes out only when it has
        at least 6 characters and matches its confirmation. Returns the
        rejection shown, if any. */
    method RestablecerContrasena() returns (rechazo: Option<string>)
      requires Valid()
      modifies this
      ensures Valid()
      ensures rechazo == RechazoRestablecer(old(nuevaContrasena), old(confirmarContrasena))
      ensures rechazo.None? ==> isLoading && errorMessage == ""
      ensures rechazo.Some? ==> isLoading == old(isLoading) && errorMessage == old(errorMessage)
      ensures paso == old(paso) && email == old(email) && preguntaSeguridad == old(preguntaSeguridad)
      ensures respuesta == old(respuesta) && nuevaContrasena == old(nuevaContrasena)
      ensures confirmarContrasena == old(confirmarContrasena) && lastRoute == old(lastRoute)
    {
      rechazo := RechazoRestablecer(nuevaContrasena, confirmarContrasena);
      if rechazo.Some? {
        return;
      }
      isLoading := true;
      errorMessage := "";
    }

    /** The `next` callback of `restablecerContrasena`, together with the
        delayed navigation it schedules: loading is never switched off. */
    method RestablecerExito()
      requires Valid()
      modifies this
      ensures Valid()
      ensures lastRoute == Some("/login")
      ensures isLoading == old(isLoading) && errorMessage == old(errorMessage)
      ensures paso == old(paso) && email == old(email) && preguntaSeguridad == old(preguntaSeguridad)
      ensures respuesta == old(respuesta) && nuevaContrasena == old(nuevaContrasena)
      ensures confirmarContrasena == old(confirmarContrasena)
    {
      lastRoute := Some("/login");
    }

    /** The `error` callback of `restablecerContrasena`. */
    method RestablecerError(error: Option<string>)
      requires Valid()
      modifies this
      ensures Valid()
      ensures errorMessage == (if TruthyStr(error) then error.value else MsgErrorRestablecer)
      ensures !isLoading
      ensures paso == old(paso) && email == old(email) && preguntaSeguridad == old(preguntaSeguridad)
      ensures respuesta == old(respuesta) && nuevaContrasena == old(nuevaContrasena)
      ensures confirmarContrasena == old(confirmarContrasena) && lastRoute == old(lastRoute)
    {
      errorMessage := if TruthyStr(error) then error.value else MsgErrorRestablecer;
      isLoading := false;
    }

    /** `volverPaso`: one step back, never below step 1; the error is only
        cleared when the step moves. */
    method VolverPaso()
      requires Valid()
      modifies this
      ensures Valid()
      ensures old(paso) > 1 ==> paso == old(paso) - 1 && errorMessage == ""
      ensures old(paso) == 1 ==> paso == 1 && errorMessage == old(errorMessage)
      ensures isLoading == old(isLoading) && email == old(email) && preguntaSeguridad == old(preguntaSeguridad)
      ensures respuesta == old(respuesta) && nuevaContrasena == old(nuevaContrasena)
      ensures confirmarContrasena == old(confirmarContrasena) && lastRoute == old(lastRoute)
    {
      if paso > 1 {
        paso := paso - 1;
        errorMessage := "";
      }
    }
  }
}
