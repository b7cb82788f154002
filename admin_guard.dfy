/** The route guard of the administration pages. */
module AdminGuard {
  import opened Js
  import opened Entities

  /** What a guard decides: whether the route opens, and where the router is
      sent instead when it does not. */
  datatype Decision = Decision(permitido: bool, redireccion: Option<string>)

  /** `adminGuard`: only an administrator session gets in; anybody else is
      sent to the home page. */
  function Decidir(currentUser: Option<User>): (d: Decision)
    ensures d.permitido <==> currentUser.Some? && currentUser.value.rol == ADMIN
    ensures currentUser.None? ==> !d.permitido
    ensures d.permitido ==> d.redireccion == None
    ensures !d.permitido ==> d.redireccion == Some("/")
  {
    if currentUser.Some? && currentUser.value.rol == ADMIN then Decision(true, None)
    else Decision(false, Some("/"))
  }
}
