/** The administrator's user list: a text and state filter (by default the
    active accounts) over the loaded users, per-state counters and the three
    moderation actions, which change a user's flags in place. */
module Usuarios {
  import opened Seqs
  import opened Js
  import opened Entities

  predicate Activo(u: Usuario) { !TruthyBool(u.suspendido) && !TruthyBool(u.eliminado) }

  predicate Suspendido(u: Usuario) { TruthyBool(u.suspendido) && !TruthyBool(u.eliminado) }

  predicate Eliminado(u: Usuario) { TruthyBool(u.eliminado) }

  /** The text test, with `term` already lower-cased: a substring of the
      lower-cased name, surname or e-mail, or of the phone number as stored. */
  predicate CoincideTermino(u: Usuario, term: string)
  {
    Contains(Lower(u.nombre), term) || Contains(Lower(u.apellido), term)
    || Contains(Lower(u.email), term) || Contains(u.numeroWhatsapp, term)
  }

  function Coincide(term: string): Usuario -> bool
  {
    u => CoincideTermino(u, term)
  }

  /** The `switch` of the state filter; 'todos' and unknown values select everyone. */
  predicate EnEstado(u: Usuario, filtro: string)
  {
    if filtro == "activos" then Activo(u)
    else if filtro == "suspendidos" then Suspendido(u)
    else if filtro == "eliminados" then Eliminado(u)
    else true
  }

  function DeEstado(filtro: string): Usuario -> bool
  {
    u => EnEstado(u, filtro)
  }

  /** A term that is blank after trimming passes everyone; the term itself is
      lower-cased but not trimmed. */
  predicate PasaTexto(u: Usuario, searchTerm: string)
  {
    Trim(searchTerm) != "" ==> CoincideTermino(u, Lower(searchTerm))
  }

  function PorTexto(us: seq<Usuario>, searchTerm: string): seq<Usuario>
  {
    if Trim(searchTerm) != "" then Filter(us, Coincide(Lower(searchTerm))) else us
  }

  function PorEstado(us: seq<Usuario>, filtro: string): seq<Usuario>
  {
    if filtro != "todos" then Filter(us, DeEstado(filtro)) else us
  }

  /** The users `filtrarUsuarios` shows. */
  function Filtrar(us: seq<Usuario>, searchTerm: string, filtro: string): seq<Usuario>
  {
    PorEstado(PorTexto(us, searchTerm), filtro)
  }

  /** The shown users are an order-preserving subsequence of the loaded ones,
      and exactly those passing both the text and the state test, each as
      often as among the loaded ones. */
  lemma FiltrarSubsecuencia(us: seq<Usuario>, searchTerm: string, filtro: string)
    ensures IsSubsequence(Filtrar(us, searchTerm, filtro), us)
    ensures forall u :: u in Filtrar(us, searchTerm, filtro)
                <==> u in us && PasaTexto(u, searchTerm) && EnEstado(u, filtro)
    ensures forall u :: multiset(Filtrar(us, searchTerm, filtro))[u]
                == if PasaTexto(u, searchTerm) && EnEstado(u, filtro) then multiset(us)[u] else 0
  {
    var t := PorTexto(us, searchTerm);
    var r := Filtrar(us, searchTerm, filtro);
    if Trim(searchTerm) != "" {
      FilterIsSubsequence(us, Coincide(Lower(searchTerm)));
    } else {
      SubsequenceRefl(us);
    }
    if filtro != "todos" {
      FilterIsSubsequence(t, DeEstado(filtro));
      SubsequenceTrans(r, t, us);
    }
    forall u ensures u in r <==> u in us && PasaTexto(u, searchTerm) && EnEstado(u, filtro) {
      if Trim(searchTerm) != "" {
        FilterMembers(us, Coincide(Lower(searchTerm)), u);
      }
      if filtro != "todos" {
        FilterMembers(t, DeEstado(filtro), u);
      }
    }
    forall u
      ensures multiset(r)[u] == if PasaTexto(u, searchTerm) && EnEstado(u, filtro) then multiset(us)[u] else 0
    {
      if Trim(searchTerm) != "" {
        FilterMultiset(us, Coincide(Lower(searchTerm)), u);
      }
      if filtro != "todos" {
        FilterMultiset(t, DeEstado(filtro), u);
      }
    }
  }

  /** Every user is in exactly one of the three states, so the three counts add
      up to the number of users. */
  lemma {:induction false} EstadosParticion(us: seq<Usuario>)
    ensures |Filter(us, Activo)| + |Filter(us, Suspendido)| + |Filter(us, Eliminado)| == |us|
  {
    if us != [] {
      EstadosParticion(us[1..]);
    }
  }

  /** `esAdmin`. */
  predicate EsAdmin(u: Usuario) { u.rol == ADMIN }

  /** A listed user is an administrator exactly when a session carrying the
      same role would pass the administrator check of the guards. */
  lemma EsAdminComoSesion(u: Usuario, s: User)
    requires s.rol == u.rol
    ensures EsAdmin(u) <==> SesionAdmin(Some(s))
  {
  }

  /** The positions `0, ..., n - 1`. */
  function Posiciones(n: nat): (r: seq<nat>)
    ensures |r| == n && forall i :: 0 <= i < n ==> r[i] == i
  {
    seq(n, i => i)
  }

  /** Every position is below `n`. */
  predicate EnRango(idx: seq<nat>, n: nat)
  {
    forall k :: 0 <= k < |idx| ==> idx[k] < n
  }

  /** A filter keeps positions in range. */
  lemma FilterEnRango(idx: seq<nat>, n: nat, p: nat -> bool)
    requires EnRango(idx, n)
    ensures EnRango(Filter(idx, p), n)
  {
    var r := Filter(idx, p);
    forall k | 0 <= k < |r| ensures r[k] < n {
      assert r[k] in r;
      var j :| 0 <= j < |idx| && idx[j] == r[k];
    }
  }

  /** The users at the positions `idx`: the filtered list holds the very same
      objects as the loaded list, so it is modelled by their positions. */
  function Seleccion(us: seq<Usuario>, idx: seq<nat>): (r: seq<Usuario>)
    requires EnRango(idx, |us|)
    ensures |r| == |idx| && forall k :: 0 <= k < |idx| ==> r[k] == us[idx[k]]
  {
    seq(|idx|, k requires 0 <= k < |idx| => us[idx[k]])
  }

  /** The positions whose user passes `q`. */
  function EnPosicion(us: seq<Usuario>, q: Usuario -> bool): nat -> bool
  {
    (i: nat) => i < |us| && q(us[i])
  }

  lemma SeleccionTodas(us: seq<Usuario>)
    ensures Seleccion(us, Posiciones(|us|)) == us
  {
  }

  /** Filtering positions by a test on their users selects the filtered users. */
  lemma {:induction false} SeleccionFilter(us: seq<Usuario>, idx: seq<nat>, q: Usuario -> bool)
    requires EnRango(idx, |us|)
    ensures EnRango(Filter(idx, EnPosicion(us, q)), |us|)
    ensures Seleccion(us, Filter(idx, EnPosicion(us, q))) == Filter(Seleccion(us, idx), q)
  {
    var p := EnPosicion(us, q);
    FilterEnRango(idx, |us|, p);
    if idx != [] {
      FilterEnRango(idx[1..], |us|, p);
      SeleccionFilter(us, idx[1..], q);
      assert Seleccion(us, idx)[1..] == Seleccion(us, idx[1..]);
      assert Filter(idx, p) == (if p(idx[0]) then [idx[0]] else []) + Filter(idx[1..], p);
      assert Seleccion(us, Filter(idx, p))
          == (if p(idx[0]) then [us[idx[0]]] else []) + Seleccion(us, Filter(idx[1..], p));
    }
  }

  class Usuarios {
    var usuarios: seq<Usuario>
    /** The positions in `usuarios` of the users `usuariosFiltrados` holds. */
    var filtrados: seq<nat>
    var isLoading: bool
    var searchTerm: string
    var filtroEstado: string
    var lastRoute: Option<string>

    /** The filtered positions are increasing positions of the loaded list. */
    ghost predicate Valid()
      reads this
    {
      && EnRango(filtrados, |usuarios|)
      && IsSubsequence(filtrados, Posiciones(|usuarios|))
    }

    /** `usuariosFiltrados`. */
    function UsuariosFiltrados(): (r: seq<Usuario>)
      requires Valid()
      reads this
      ensures |r| == |filtrados| && forall k :: 0 <= k < |r| ==> r[k] == usuarios[filtrados[k]]
    {
      Seleccion(usuarios, filtrados)
    }

    constructor()
      ensures Valid()
      ensures usuarios == [] && filtrados == [] && isLoading
      ensures searchTerm == "" && filtroEstado == "activos" && lastRoute == None
    {
      usuarios := [];
      filtrados := [];
      isLoading := true;
      searchTerm := "";
      filtroEstado := "activos";
      lastRoute := None;
    }

    /** `ngOnInit`: without a session user with an id, go to the login page.
        Returns whether the users are requested. */
    method Iniciar(currentUser: Option<User>) returns (cargar: bool)
      modifies this
      ensures cargar == ConUsuarioId(currentUser)
      ensures !cargar ==> lastRoute == Some("/login")
      ensures cargar ==> lastRoute == old(lastRoute)
      ensures usuarios == old(usuarios) && filtrados == old(filtrados) && isLoading == old(isLoading)
      ensures searchTerm == old(searchTerm) && filtroEstado == old(filtroEstado)
    {
      if !ConUsuarioId(currentUser) {
        lastRoute := Some("/login");
        return false;
      }
      cargar := true;
    }

    /** `filtrarUsuarios`: the text filter, then the state filter, each on the
        positions of the loaded list. */
    method FiltrarUsuarios()
      modifies this
      ensures Valid()
      ensures UsuariosFiltrados() == Filtrar(usuarios, searchTerm, filtroEstado)
      ensures usuarios == old(usuarios) && isLoading == old(isLoading) && lastRoute == old(lastRoute)
      ensures searchTerm == old(searchTerm) && filtroEstado == old(filtroEstado)
    {
      var us := usuarios;
      var todas := Posiciones(|us|);
      var idx := todas;
      SeleccionTodas(us);
      SubsequenceRefl(todas);
      if Trim(searchTerm) != "" {
        var term := Lower(searchTerm);
        SeleccionFilter(us, idx, Coincide(term));
        FilterIsSubsequence(idx, EnPosicion(us, Coincide(term)));
        idx := Filter(idx, EnPosicion(us, Coincide(term)));
      }
      assert Seleccion(us, idx) == PorTexto(us, searchTerm);
      ghost var antes := idx;
      if filtroEstado != "todos" {
        SeleccionFilter(us, idx, DeEstado(filtroEstado));
        FilterIsSubsequence(idx, EnPosicion(us, DeEstado(filtroEstado)));
        idx := Filter(idx, EnPosicion(us, DeEstado(filtroEstado)));
        SubsequenceTrans(idx, antes, todas);
      }
      filtrados := idx;
    }

    /** The `next` callback of `cargarUsuarios`: the default filter is applied at once. */
    method CargarUsuariosExito(data: seq<Usuario>)
      modifies this
      ensures Valid()
      ensures usuarios == data && UsuariosFiltrados() == Filtrar(data, searchTerm, filtroEstado)
      ensures !isLoading && lastRoute == old(lastRoute)
      ensures searchTerm == old(searchTerm) && filtroEstado == old(filtroEstado)
    {
      usuarios := data;
      FiltrarUsuarios();
      isLoading := false;
    }

    /** The `error` callback of `cargarUsuarios`: back to the home page. */
    method CargarUsuariosError()
      modifies this
      ensures lastRoute == Some("/") && !isLoading
      ensures usuarios == old(usuarios) && filtrados == old(filtrados)
      ensures searchTerm == old(searchTerm) && filtroEstado == old(filtroEstado)
    {
      lastRoute := Some("/");
      isLoading := false;
    }

    /** `cambiarFiltroEstado`. */
    method CambiarFiltroEstado(estado: string)
      modifies this
      ensures Valid()
      ensures filtroEstado == estado && UsuariosFiltrados() == Filtrar(usuarios, searchTerm, estado)
      ensures usuarios == old(usuarios) && searchTerm == old(searchTerm)
      ensures isLoading == old(isLoading) && lastRoute == old(lastRoute)
    {
      filtroEstado := estado;
      FiltrarUsuarios();
    }

    /** `contarPorEstado`: counts over all loaded users, whatever the filter;
        an unknown state counts nothing. */
    function ContarPorEstado(estado: string): (r: nat)
      reads this
      ensures r <= |usuarios|
      ensures estado !in {"activos", "suspendidos", "eliminados"} ==> r == 0
      ensures estado == "activos" ==> (r == 0 <==> forall u :: u in usuarios ==> !Activo(u))
      ensures estado == "suspendidos" ==> (r == 0 <==> forall u :: u in usuarios ==> !Suspendido(u))
      ensures estado == "eliminados" ==> (r == 0 <==> forall u :: u in usuarios ==> !Eliminado(u))
    {
      FilterEmptyIff(usuarios, Activo);
      FilterEmptyIff(usuarios, Suspendido);
      FilterEmptyIff(usuarios, Eliminado);
      if estado == "activos" then |Filter(usuarios, Activo)|
      else if estado == "suspendidos" then |Filter(usuarios, Suspendido)|
      else if estado == "eliminados" then |Filter(usuarios, Eliminado)|
      else 0
    }

    /** The three counters partition the loaded users. */
    lemma ContarPorEstadoParticion()
      ensures ContarPorEstado("activos") + ContarPorEstado("suspendidos") + ContarPorEstado("eliminados")
           == |usuarios|
    {
      EstadosParticion(usuarios);
    }

    /** `suspenderUsuario(usuarios[k])`, with the dialog's answer, the session
        user and whether the server accepted as inputs: the flag is set on the
        object itself, which the filtered list shares, and the list is not
        filtered again. Returns whether the request was sent. */
    method SuspenderUsuario(k: nat, confirmado: bool, currentUser: Option<User>, exito: bool)
      returns (enviado: bool)
      requires Valid() && k < |usuarios|
      modifies this
      ensures Valid()
      ensures enviado == (confirmado && ConUsuarioId(currentUser))
      ensures enviado && exito ==>
        usuarios == old(usuarios)[k := old(usuarios)[k].(suspendido := Some(true))]
      ensures !(enviado && exito) ==> usuarios == old(usuarios)
      ensures filtrados == old(filtrados)
      ensures enviado && exito ==> forall j :: 0 <= j < |filtrados| && filtrados[j] == k ==>
        UsuariosFiltrados()[j].suspendido == Some(true)
      ensures forall j :: 0 <= j < |filtrados| && filtrados[j] != k ==>
        UsuariosFiltrados()[j] == old(UsuariosFiltrados())[j]
      ensures searchTerm == old(searchTerm) && filtroEstado == old(filtroEstado)
      ensures isLoading == old(isLoading) && lastRoute == old(lastRoute)
    {
      if !confirmado || !ConUsuarioId(currentUser) {
        return false;
      }
      enviado := true;
      if exito {
        usuarios := usuarios[k := usuarios[k].(suspendido := Some(true))];
      }
    }

    /** `reactivarUsuario(usuarios[k])`: clears the flag, again without re-filtering. */
    method ReactivarUsuario(k: nat, confirmado: bool, currentUser: Option<User>, exito: bool)
      returns (enviado: bool)
      requires Valid() && k < |usuarios|
      modifies this
      ensures Valid()
      ensures enviado == (confirmado && ConUsuarioId(currentUser))
      ensures enviado && exito ==>
        usuarios == old(usuarios)[k := old(usuarios)[k].(suspendido := Some(false))]
      ensures !(enviado && exito) ==> usuarios == old(usuarios)
      ensures filtrados == old(filtrados)
      ensures enviado && exito ==> forall j :: 0 <= j < |filtrados| && filtrados[j] == k ==>
        UsuariosFiltrados()[j].suspendido == Some(false)
      ensures forall j :: 0 <= j < |filtrados| && filtrados[j] != k ==>
        UsuariosFiltrados()[j] == old(UsuariosFiltrados())[j]
      ensures searchTerm == old(searchTerm) && filtroEstado == old(filtroEstado)
      ensures isLoading == old(isLoading) && lastRoute == old(lastRoute)
    {
      if !confirmado || !ConUsuarioId(currentUser) {
        return false;
      }
      enviado := true;
      if exito {
        usuarios := usuarios[k := usuarios[k].(suspendido := Some(false))];
      }
    }

    /** `eliminarUsuario(usuarios[k])`: the user is marked deleted, kept in the
        list, and the list is filtered again. */
    method EliminarUsuario(k: nat, confirmado: bool, currentUser: Option<User>, exito: bool)
      returns (enviado: bool)
      requires Valid() && k < |usuarios|
      modifies this
      ensures Valid()
      ensures enviado == (confirmado && ConUsuarioId(currentUser))
      ensures enviado && exito ==>
        usuarios == old(usuarios)[k := old(usuarios)[k].(eliminado := Some(true))]
        && |usuarios| == |old(usuarios)|
        && UsuariosFiltrados() == Filtrar(usuarios, searchTerm, filtroEstado)
      ensures !(enviado && exito) ==> usuarios == old(usuarios) && filtrados == old(filtrados)
      ensures searchTerm == old(searchTerm) && filtroEstado == old(filtroEstado)
      ensures isLoading == old(isLoading) && lastRoute == old(lastRoute)
    {
      if !confirmado || !ConUsuarioId(currentUser) {
        return false;
      }
      enviado := true;
      if exito {
        usuarios := usuarios[k := usuarios[k].(eliminado := Some(true))];
        FiltrarUsuarios();
      }
    }
  }
}
