/** The favourites page: loading the user's favourites, removing one, the
    WhatsApp contact guard and the image of each card. */
module Favoritos {
  import opened Seqs
  import opened Js
  import opened Entities

  const Placeholder := "https://via.placeholder.com/300x200?text=Sin+Imagen"

  /** The callback of the removal `filter`: every favourite whose id differs. */
  function OtroFavorito(id: int): Favorito -> bool
  {
    (f: Favorito) => f.id != id
  }

  /** Removing by id drops exactly the favourites with that id and keeps
      every copy of the rest, in their order. */
  lemma QuitarFavoritoPorId(fs: seq<Favorito>, id: int)
    ensures IsSubsequence(Filter(fs, OtroFavorito(id)), fs)
    ensures forall f :: f in Filter(fs, OtroFavorito(id)) <==> f in fs && f.id != id
    ensures forall f :: multiset(Filter(fs, OtroFavorito(id)))[f]
                      == (if f.id != id then multiset(fs)[f] else 0)
  {
    forall f
      ensures multiset(Filter(fs, OtroFavorito(id)))[f] == if f.id != id then multiset(fs)[f] else 0
    {
      FilterMultiset(fs, OtroFavorito(id), f);
    }
    FilterIsSubsequence(fs, OtroFavorito(id));
    forall f ensures f in Filter(fs, OtroFavorito(id)) <==> f in fs && f.id != id {
      FilterMembers(fs, OtroFavorito(id), f);
    }
  }

  /** `getImageUrl`: the placeholder when the favourite carries no listing,
      otherwise the listing's own image precedence. */
  function GetImageUrl(f: Favorito): (r: string)
    ensures f.producto.None? ==> r == Placeholder
    ensures f.producto.Some? ==> r == ImageUrl(f.producto.value, Placeholder)
    ensures f.producto.Some? && !TruthyStr(f.producto.value.imagenPrincipal) && !TieneImagenes(f.producto.value)
            ==> r == Placeholder
  {
    if f.producto.None? then Placeholder else ImageUrl(f.producto.value, Placeholder)
  }

  /** The number that goes into the `wa.me` link of `abrirWhatsApp`: nothing
      when the favourite has no listing or the seller no number, otherwise
      the seller's number with every '+' removed. */
  function NumeroWhatsApp(f: Favorito): (r: Option<string>)
    ensures r.None? <==> f.producto.None? || !TruthyStr(f.producto.value.usuarioWhatsapp)
    ensures r.Some? ==> r.value == RemovePlus(f.producto.value.usuarioWhatsapp.value) && '+' !in r.value
  {
    if f.producto.None? || !TruthyStr(f.producto.value.usuarioWhatsapp) then None
    else Some(RemovePlus(f.producto.value.usuarioWhatsapp.value))
  }

  /** Only digits: removing '+' changes nothing. */
  lemma {:induction false} SinMasEnDigitos(x: string)
    requires AllDigits(x)
    ensures RemovePlus(x) == x
  {
    assert forall c :: c in x ==> NotPlus(c);
    FilterAll(x, NotPlus);
  }

  lemma {:induction false} DigitosTrasPrefijo(d: string)
    requires AllDigits(d)
    ensures AllDigits("51" + d)
  {
    var x := "51" + d;
    forall i | 0 <= i < |x| ensures IsDigit(x[i]) {
      if i >= 2 {
        assert x[i] == d[i - 2];
      }
    }
  }

  /** A number stored as "+51" and digits loses only its '+'. */
  lemma {:induction false} SinMasEnNumeroGuardado(d: string)
    requires AllDigits(d)
    ensures RemovePlus(PrefijoPeru + d) == "51" + d
  {
    var x := "51" + d;
    DigitosTrasPrefijo(d);
    SinMasEnDigitos(x);
    var mas: string := ['+'];
    assert PrefijoPeru + d == mas + x by {
      assert PrefijoPeru == mas + "51";
    }
    FilterConcat(mas, x, NotPlus);
    assert Filter(mas, NotPlus) == [] by {
      assert !NotPlus(mas[0]);
      assert mas[1..] == [];
    }
    assert RemovePlus(mas + x) == Filter(mas, NotPlus) + Filter(x, NotPlus);
  }

  /** So a favourite whose seller number is stored as "+51" and digits links
      to "51" and the same digits. */
  lemma NumeroGuardadoEnEnlace(f: Favorito, d: string)
    requires f.producto.Some? && f.producto.value.usuarioWhatsapp == Some(PrefijoPeru + d)
    requires AllDigits(d)
    ensures NumeroWhatsApp(f) == Some("51" + d)
  {
    SinMasEnNumeroGuardado(d);
  }

  class Favoritos {
    var favoritos: seq<Favorito>
    var isLoading: bool
    var lastRoute: Option<string>

    constructor()
      ensures favoritos == [] && !isLoading && lastRoute == None
    {
      favoritos := [];
      isLoading := false;
      lastRoute := None;
    }

    /** `ngOnInit` and `cargarFavoritos`: without a user the page goes to the
        login; otherwise loading starts for the user's `usuarioId`, which is
        passed on without a check. */
    method NgOnInit(currentUser: Option<User>) returns (cargar: bool, usuarioId: Option<int>)
      modifies this
      ensures cargar <==> currentUser.Some?
      ensures cargar ==> usuarioId == currentUser.value.usuarioId && isLoading && lastRoute == old(lastRoute)
      ensures !cargar ==> usuarioId == None && lastRoute == Some("/login") && isLoading == old(isLoading)
      ensures favoritos == old(favoritos)
    {
      if currentUser.None? {
        lastRoute := Some("/login");
        return false, None;
      }
      isLoading := true;
      cargar, usuarioId := true, currentUser.value.usuarioId;
    }

    /** The `next` callback of `cargarFavoritos`. */
    method CargarExito(data: seq<Favorito>)
      modifies this
      ensures favoritos == data && !isLoading && lastRoute == old(lastRoute)
    {
      favoritos := data;
      isLoading := false;
    }

    /** The `error` callback of `cargarFavoritos`: the list is kept. */
    method CargarError()
      modifies this
      ensures favoritos == old(favoritos) && !isLoading && lastRoute == old(lastRoute)
    {
      isLoading := false;
    }

    /** `quitarDeFavoritos`, given the user's answer to the confirmation and
        whether the backend accepted the removal: without a user with a
        truthy `usuarioId` nothing is asked or sent; a successful removal
        drops every favourite with that id. Returns whether the request went
        out. */
    method QuitarDeFavoritos(favorito: Favorito, currentUser: Option<User>, confirmado: bool, exito: bool)
      returns (enviado: bool)
      modifies this
      ensures enviado <==> ConUsuarioId(currentUser) && confirmado
      ensures enviado && exito ==> favoritos == Filter(old(favoritos), OtroFavorito(favorito.id))
      ensures !(enviado && exito) ==> favoritos == old(favoritos)
      ensures isLoading == old(isLoading) && lastRoute == old(lastRoute)
    {
      if !ConUsuarioId(currentUser) {
        return false;
      }
      enviado := confirmado;
      if confirmado && exito {
        favoritos := Filter(favoritos, OtroFavorito(favorito.id));
      }
    }
  }
}
