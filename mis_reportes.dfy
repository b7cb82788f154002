/** The user's own reports page: the login guard before loading and the
    badge colour of each report reason. */
module MisReportes {
  import opened Seqs
  import opened Js
  import opened Entities

  const BgWarning := "bg-warning"
  const BgDanger := "bg-danger"
  const BgDark := "bg-dark"
  const BgSecondary := "bg-secondary"

  /** The predefined report reasons (`RAZONES_REPORTE` of the report
      service). Each is written as the concatenation of short pieces, split
      around its keyword, so that the verifier can look inside it. */
  const RazonPrecio := "Precio" + " distinto a lo publicado"
  const RazonImagenes := "Las " + "imágenes" + " no tienen relación con el producto real"
  const RazonNoDisponible := "Producto" + " no disponible"
  const RazonEnganosa := "Descripción engañosa"
  const RazonContenido := "Contenido" + " inapropiado"
  const RazonEstafa := "Posible " + "estafa"
  const RazonDuplicado := "Duplicado"
  const RazonOtro := "Otro"

  const RazonesReporte: seq<string> := [
    RazonPrecio, RazonImagenes, RazonNoDisponible, RazonEnganosa,
    RazonContenido, RazonEstafa, RazonDuplicado, RazonOtro
  ]

  /** `getRazonBadgeClass`: the first matching keyword decides, in the
      order "Precio", "imágenes", "estafa", "Contenido". */
  function RazonBadgeClass(razon: string): (r: string)
    ensures r in {BgWarning, BgDanger, BgDark, BgSecondary}
    ensures Contains(razon, "Precio") ==> r == BgWarning
    ensures !Contains(razon, "Precio") && Contains(razon, "imágenes") ==> r == BgDanger
    ensures !Contains(razon, "Precio") && !Contains(razon, "imágenes") && Contains(razon, "estafa") ==> r == BgDark
    ensures (!Contains(razon, "Precio") && !Contains(razon, "imágenes") && !Contains(razon, "estafa")
             && Contains(razon, "Contenido")) ==> r == BgDanger
    ensures r == BgSecondary <==>
      !Contains(razon, "Precio") && !Contains(razon, "imágenes") && !Contains(razon, "estafa")
      && !Contains(razon, "Contenido")
  {
    if Contains(razon, "Precio") then BgWarning
    else if Contains(razon, "imágenes") then BgDanger
    else if Contains(razon, "estafa") then BgDark
    else if Contains(razon, "Contenido") then BgDanger
    else BgSecondary
  }

  /** A reason with a coloured badge. */
  predicate ConInsignia(razon: string)
  {
    RazonBadgeClass(razon) != BgSecondary
  }

  /** None of the four keywords occurs in a reason that lacks the capital
      'P', the 'á', the 'f' and the capital 'C'. */
  lemma SinPalabraClave(razon: string)
    requires 'P' !in razon && 'á' !in razon && 'f' !in razon && 'C' !in razon
    ensures RazonBadgeClass(razon) == BgSecondary
  {
    MissingCharNoMatch(razon, "Precio", 'P');
    MissingCharNoMatch(razon, "imágenes", 'á');
    MissingCharNoMatch(razon, "estafa", 'f');
    MissingCharNoMatch(razon, "Contenido", 'C');
  }

  lemma InsigniaPrecio()
    ensures RazonBadgeClass(RazonPrecio) == BgWarning
  {
    ContainsInfix("", "Precio", " distinto a lo publicado");
    assert RazonPrecio == "" + "Precio" + " distinto a lo publicado";
  }

  lemma InsigniaImagenes()
    ensures RazonBadgeClass(RazonImagenes) == BgDanger
  {
    MissingCharNoMatch(RazonImagenes, "Precio", 'P');
    ContainsInfix("Las ", "imágenes", " no tienen relación con el producto real");
  }

  /** "Producto no disponible": its only 'P' starts "Produc", not "Precio". */
  lemma {:induction false} NoDisponibleSinPrecio()
    ensures !Contains(RazonNoDisponible, "Precio")
  {
    var r := RazonNoDisponible;
    assert !StartsWith(r, "Precio") by { assert r[2] != "Precio"[2]; }
    assert r[1..] == "roducto" + " no disponible";
    MissingCharNoMatch(r[1..], "Precio", 'P');
  }

  lemma InsigniaNoDisponible()
    ensures RazonBadgeClass(RazonNoDisponible) == BgSecondary
  {
    NoDisponibleSinPrecio();
    MissingCharNoMatch(RazonNoDisponible, "imágenes", 'á');
    MissingCharNoMatch(RazonNoDisponible, "estafa", 'f');
    MissingCharNoMatch(RazonNoDisponible, "Contenido", 'C');
  }

  lemma InsigniaContenido()
    ensures RazonBadgeClass(RazonContenido) == BgDanger
  {
    MissingCharNoMatch(RazonContenido, "Precio", 'P');
    MissingCharNoMatch(RazonContenido, "imágenes", 'á');
    MissingCharNoMatch(RazonContenido, "estafa", 'f');
    ContainsInfix("", "Contenido", " inapropiado");
    assert RazonContenido == "" + "Contenido" + " inapropiado";
  }

  lemma InsigniaEstafa()
    ensures RazonBadgeClass(RazonEstafa) == BgDark
  {
    MissingCharNoMatch(RazonEstafa, "Precio", 'r');
    MissingCharNoMatch(RazonEstafa, "imágenes", 'á');
    ContainsInfix("Posible ", "estafa", "");
    assert RazonEstafa == "Posible " + "estafa" + "";
  }

  /** The first four predefined reasons: price and images are coloured. */
  lemma {:induction false} InsigniaPrimeras(i: int)
    requires 0 <= i < 4
    ensures ConInsignia(RazonesReporte[i]) <==> i == 0 || i == 1
  {
    if i == 0 {
      assert RazonesReporte[0] == RazonPrecio;
      InsigniaPrecio();
    } else if i == 1 {
      assert RazonesReporte[1] == RazonImagenes;
      InsigniaImagenes();
    } else if i == 2 {
      assert RazonesReporte[2] == RazonNoDisponible;
      InsigniaNoDisponible();
    } else {
      assert RazonesReporte[3] == RazonEnganosa;
      SinPalabraClave(RazonEnganosa);
    }
  }

  /** The last four predefined reasons: content and fraud are coloured. */
  lemma {:induction false} InsigniaUltimas(i: int)
    requires 4 <= i < 8
    ensures ConInsignia(RazonesReporte[i]) <==> i == 4 || i == 5
  {
    if i == 4 {
      assert RazonesReporte[4] == RazonContenido;
      InsigniaContenido();
    } else if i == 5 {
      assert RazonesReporte[5] == RazonEstafa;
      InsigniaEstafa();
    } else if i == 6 {
      assert RazonesReporte[6] == RazonDuplicado;
      SinPalabraClave(RazonDuplicado);
    } else {
      assert RazonesReporte[7] == RazonOtro;
      SinPalabraClave(RazonOtro);
    }
  }

  /** Of the eight predefined reasons exactly four get a coloured badge:
      the price, images, content and fraud reasons (positions 0, 1, 4, 5). */
  lemma InsigniaPredefinida(i: int)
    requires 0 <= i < |RazonesReporte|
    ensures ConInsignia(RazonesReporte[i]) <==> i == 0 || i == 1 || i == 4 || i == 5
  {
    if i < 4 {
      InsigniaPrimeras(i);
    } else {
      InsigniaUltimas(i);
    }
  }

  class MisReportes {
    var reportes: seq<Reporte>
    var isLoading: bool
    var lastRoute: Option<string>

    constructor()
      ensures reportes == [] && isLoading && lastRoute == None
    {
      reportes := [];
      isLoading := true;
      lastRoute := None;
    }

    /** `ngOnInit`: without a user that has a truthy `usuarioId` the page
        goes to the login and loads nothing; otherwise it asks for that
        user's reports. Returns the id the reports are requested for. */
    method NgOnInit(currentUser: Option<User>) returns (cargar: Option<int>)
      modifies this
      ensures cargar.Some? <==> ConUsuarioId(currentUser)
      ensures cargar.Some? ==> cargar == currentUser.value.usuarioId && lastRoute == old(lastRoute)
      ensures cargar.None? ==> lastRoute == Some("/login")
      ensures reportes == old(reportes) && isLoading == old(isLoading)
    {
      if !ConUsuarioId(currentUser) {
        lastRoute := Some("/login");
        return None;
      }
      cargar := currentUser.value.usuarioId;
    }

    /** The `next` callback of `cargarMisReportes`. */
    method CargarExito(data: seq<Reporte>)
      modifies this
      ensures reportes == data && !isLoading && lastRoute == old(lastRoute)
    {
      reportes := data;
      isLoading := false;
    }

    /** The `error` callback of `cargarMisReportes`: the list is kept. */
    method CargarError()
      modifies this
      ensures reportes == old(reportes) && !isLoading && lastRoute == old(lastRoute)
    {
      isLoading := false;
    }
  }
}
