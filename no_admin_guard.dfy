/** The route guard of the pages an administrator should not use. */
module NoAdminGuard {
  import opened Js
  import opened Entities
  import AdminGuard

  /** `noAdminGuard`: an administrator session is sent to the dashboard;
      everybody else, including nobody logged in, gets in. */
  function Decidir(currentUser: Option<User>): (d: AdminGuard.Decision)
    ensures d.permitido <==> !SesionAdmin(currentUser)
    ensures currentUser.None? ==> d.permitido
    ensures d.permitido ==> d.redireccion == None
    ensures !d.permitido ==> d.redireccion == Some("/admin/dashboard")
  {
    if SesionAdmin(currentUser) then AdminGuard.Decision(false, Some("/admin/dashboard"))
    else AdminGuard.Decision(true, None)
  }

  /** The two guards split every session: exactly one of them lets it in,
      and they never send it to the same place. */
  lemma GuardasComplementarias(currentUser: Option<User>)
    ensures AdminGuard.Decidir(currentUser).permitido != Decidir(currentUser).permitido
    ensures AdminGuard.Decidir(currentUser).redireccion != Decidir(currentUser).redireccion
  {
  }
}
