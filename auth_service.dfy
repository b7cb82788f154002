/** The session state of the authentication service: the current user, the
    copy of it kept in browser storage, and the reads the guards and
    components make of it. */
module AuthService {
  import opened Js
  import opened Entities

  /** The backend's answer to a login or a registration (`AuthResponse`). */
  datatype AuthResponse = AuthResponse(
    usuarioId: int,
    rol: string,
    email: string,
    nombre: string,
    apellido: string,
    numeroWhatsapp: string,
    mensaje: string)

  /** The session user built from a login or registration answer: the
      backend id is both `id` and its alias `usuarioId`, and the message is
      dropped. */
  function UsuarioDe(resp: AuthResponse): (u: User)
    ensures u.id == resp.usuarioId && u.usuarioId == Some(u.id)
    ensures u.email == resp.email && u.nombre == resp.nombre && u.apellido == resp.apellido
    ensures u.numeroWhatsapp == resp.numeroWhatsapp && u.rol == resp.rol
  {
    User(resp.usuarioId, resp.email, resp.nombre, resp.apellido, resp.numeroWhatsapp, resp.rol, Some(resp.usuarioId))
  }

  /** A user built from an answer passes the `currentUser.usuarioId` checks
      of the pages exactly when the backend id is not 0. */
  lemma UsuarioDeConId(resp: AuthResponse)
    ensures ConUsuarioId(Some(UsuarioDe(resp))) <==> resp.usuarioId != 0
  {
  }

  /** A session built from an answer is an administrator session exactly
      when the answer's role is "ADMIN". */
  lemma UsuarioDeAdmin(resp: AuthResponse)
    ensures SesionAdmin(Some(UsuarioDe(resp))) <==> resp.rol == ADMIN
  {
  }

  class AuthService {
    /** The value of `currentUserSubject`. */
    var currentUser: Option<User>
    /** The 'currentUser' entry of browser storage, already parsed. */
    var storedUser: Option<User>
    /** The 'token' entry of browser storage. */
    var storedToken: Option<string>

    /** Storage always holds the in-memory session. */
    predicate Valid()
      reads this
    {
      storedUser == currentUser
    }

    /** The service starts from whatever user storage holds, if any. */
    constructor(stored: Option<User>, token: Option<string>)
      ensures Valid()
      ensures currentUser == stored && storedUser == stored && storedToken == token
    {
      currentUser := stored;
      storedUser := stored;
      storedToken := token;
    }

    /** `isLoggedIn`. */
    function IsLoggedIn(): (r: bool)
      reads this
      ensures r <==> currentUser != None
    {
      currentUser.Some?
    }

    /** `isAdmin`: the role is compared with "ADMIN" exactly. */
    function IsAdmin(): (r: bool)
      reads this
      ensures r ==> IsLoggedIn()
      ensures r <==> SesionAdmin(currentUser)
    {
      currentUser.Some? && currentUser.value.rol == ADMIN
    }

    /** `getUserRole`: `null` without a user and for an empty role. */
    function GetUserRole(): (r: Option<string>)
      reads this
      ensures r.Some? ==> IsLoggedIn() && r.value != "" && r.value == currentUser.value.rol
      ensures r.None? <==> currentUser.None? || currentUser.value.rol == ""
    {
      if currentUser.Some? && currentUser.value.rol != "" then Some(currentUser.value.rol) else None
    }

    /** An administrator session always reports the role "ADMIN". */
    lemma AdminTieneRol()
      requires IsAdmin()
      ensures GetUserRole() == Some(ADMIN)
    {
    }

    /** The `tap` of `login` and of `register`: the user built from the
        answer becomes the session and is stored. */
    method IniciarSesion(resp: AuthResponse)
      requires Valid()
      modifies this
      ensures Valid()
      ensures currentUser == Some(UsuarioDe(resp)) && IsLoggedIn()
      ensures IsAdmin() <==> resp.rol == ADMIN
      ensures storedToken == old(storedToken)
    {
      var user := UsuarioDe(resp);
      storedUser := Some(user);
      currentUser := Some(user);
    }

    /** `logout`: both storage keys are removed and nobody is logged in. */
    method Logout()
      requires Valid()
      modifies this
      ensures Valid()
      ensures currentUser == None && storedUser == None && storedToken == None
      ensures !IsLoggedIn() && !IsAdmin() && GetUserRole() == None
    {
      storedUser := None;
      storedToken := None;
      currentUser := None;
    }

    /** `updateUser`: the given user becomes the session and is stored. */
    method UpdateUser(u: User)
      requires Valid()
      modifies this
      ensures Valid()
      ensures currentUser == Some(u) && storedUser == Some(u)
      ensures storedToken == old(storedToken)
    {
      storedUser := Some(u);
      currentUser := Some(u);
    }
  }
}
