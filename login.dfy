/** The login form: the role-based redirect after a successful login and
    the classification of the backend's error message. */
module Login {
  import opened Js
  import opened Entities

  const MsgErrorLogin := "Error al iniciar sesión"
  const MsgCredenciales := "Credenciales incorrectas. Verifica tu email y contraseña."

  /** The raw message of a failed login: the backend's `error` field, else
      its `mensaje` field, else the fixed default; empty fields count as
      missing. */
  function MensajeCrudo(error: Option<string>, mensaje: Option<string>): (r: string)
    ensures r != ""
    ensures TruthyStr(error) ==> r == error.value
    ensures !TruthyStr(error) && TruthyStr(mensaje) ==> r == mensaje.value
    ensures !TruthyStr(error) && !TruthyStr(mensaje) ==> r == MsgErrorLogin
  {
    if TruthyStr(error) then error.value
    else if TruthyStr(mensaje) then mensaje.value
    else MsgErrorLogin
  }

  /** A suspended or deleted account. */
  predicate CuentaBloqueada(msg: string)
  {
    Contains(msg, "Cuenta suspendida") || Contains(msg, "Cuenta eliminada")
  }

  /** The message shown for a raw message: an account-state message is kept
      whole, a wrong-credentials message becomes the fixed hint, anything
      else is kept. */
  function MensajeMostrado(msg: string): (r: string)
    ensures CuentaBloqueada(msg) ==> r == msg
    ensures !CuentaBloqueada(msg) && Contains(msg, "Credenciales incorrectas") ==> r == MsgCredenciales
    ensures !CuentaBloqueada(msg) && !Contains(msg, "Credenciales incorrectas") ==> r == msg
  {
    if CuentaBloqueada(msg) then msg
    else if Contains(msg, "Credenciales incorrectas") then MsgCredenciales
    else msg
  }

  /** The shown message is the raw one unless the raw one speaks of wrong
      credentials and not of the account's state; so an account-state
      message wins even when it also mentions the credentials. */
  lemma MensajeMostradoCasos(msg: string)
    ensures MensajeMostrado(msg) == msg || MensajeMostrado(msg) == MsgCredenciales
    ensures MensajeMostrado(msg) != msg ==>
      Contains(msg, "Credenciales incorrectas") && !CuentaBloqueada(msg)
  {
  }

  class Login {
    var email: string
    var contrasena: string
    var isLoading: bool
    var errorMessage: string
    var lastRoute: Option<string>

    constructor()
      ensures email == "" && contrasena == "" && !isLoading && errorMessage == "" && lastRoute == None
    {
      email := "";
      contrasena := "";
      isLoading := false;
      errorMessage := "";
      lastRoute := None;
    }

    /** `onSubmit` before the answer: loading starts and the error is cleared. */
    method OnSubmit()
      modifies this
      ensures isLoading && errorMessage == ""
      ensures email == old(email) && contrasena == old(contrasena) && lastRoute == old(lastRoute)
    {
      isLoading := true;
      errorMessage := "";
    }

    /** The `next` and `complete` callbacks, given the session the login
        established: an administrator goes to the dashboard, anybody else to
        the listings. */
    method LoginExito(sesion: Option<User>)
      modifies this
      ensures SesionAdmin(sesion) ==> lastRoute == Some("/admin/dashboard")
      ensures !SesionAdmin(sesion) ==> lastRoute == Some("/productos")
      ensures !isLoading && errorMessage == old(errorMessage)
      ensures email == old(email) && contrasena == old(contrasena)
    {
      if SesionAdmin(sesion) {
        lastRoute := Some("/admin/dashboard");
      } else {
        lastRoute := Some("/productos");
      }
      isLoading := false;
    }

    /** The `error` callback, given the `error` and `mensaje` fields of the
        backend's error body. */
    method LoginError(error: Option<string>, mensaje: Option<string>)
      modifies this
      ensures errorMessage == MensajeMostrado(MensajeCrudo(error, mensaje))
      ensures errorMessage != ""
      ensures !isLoading
      ensures email == old(email) && contrasena == old(contrasena) && lastRoute == old(lastRoute)
    {
      var errorMsg := MensajeCrudo(error, mensaje);
      if Contains(errorMsg, "Cuenta suspendida") || Contains(errorMsg, "Cuenta eliminada") {
        errorMessage := errorMsg;
      } else if Contains(errorMsg, "Credenciales incorrectas") {
        errorMessage := MsgCredenciales;
      } else {
        errorMessage := errorMsg;
      }
      isLoading := false;
    }
  }
}
