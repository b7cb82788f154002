/** The `whatsappFormat` display pipe: the country code and whitespace are
    removed and a 9-character number is shown in groups of three. */
module WhatsappFormat {
  import opened Seqs
  import opened Js
  import opened Entities

  /** The number with its first "+51" and every whitespace character removed. */
  function Limpio(v: string): (r: string)
    ensures forall c :: c in r ==> !IsWhitespace(c)
  {
    RemoveWhitespace(ReplaceFirst(v, PrefijoPeru, ""))
  }

  /** "ddd ddd ddd" for a 9-character number. */
  function Agrupar(n: string): (r: string)
    requires |n| == 9
    ensures |r| == 11 && r[3] == ' ' && r[7] == ' '
    ensures r[..3] == n[..3] && r[4..7] == n[3..6] && r[8..] == n[6..]
  {
    n[0..3] + " " + n[3..6] + " " + n[6..9]
  }

  /** `transform`: '' for a falsy value; a stripped number of 9 characters
      grouped in threes; any other stripped number as it is. */
  function Transform(v: string): (r: string)
    ensures v == "" ==> r == ""
    ensures v != "" && |Limpio(v)| == 9 ==> r == Agrupar(Limpio(v))
    ensures v != "" && |Limpio(v)| != 9 ==> r == Limpio(v)
  {
    if v == "" then ""
    else
      var numero := Limpio(v);
      if |numero| == 9 then Agrupar(numero) else numero
  }

  /** A space is whitespace and goes; a string without whitespace stays. */
  lemma {:induction false} SinEspaciosAgrupado(n: string)
    requires |n| == 9 && forall c :: c in n ==> !IsWhitespace(c)
    ensures RemoveWhitespace(Agrupar(n)) == n
  {
    var a, b, c := n[0..3], n[3..6], n[6..9];
    var ab := a + " " + b;
    assert Agrupar(n) == ab + " " + c;
    NoWhitespaceSlice(n, 0, 3);
    NoWhitespaceSlice(n, 3, 6);
    NoWhitespaceSlice(n, 6, 9);
    RemoveWhitespaceAround(a, b);
    RemoveWhitespaceAround(ab, c);
    assert a + b + c == n;
  }

  /** Taking the spaces out of a grouped number gives back the stripped input. */
  lemma {:induction false} QuitarEspacios(v: string)
    requires v != ""
    ensures RemoveWhitespace(Transform(v)) == Limpio(v)
  {
    var n := Limpio(v);
    if |n| == 9 {
      SinEspaciosAgrupado(n);
    } else {
      RemoveWhitespaceNoop(n);
    }
  }

  /** Formatting an already formatted 9-character number returns it
      unchanged, provided the number holds no '+' that could start a second
      "+51". */
  lemma {:induction false} TransformIdempotente(v: string)
    requires v != "" && |Limpio(v)| == 9 && '+' !in Limpio(v)
    ensures Transform(Transform(v)) == Transform(v)
  {
    var n := Limpio(v);
    var t := Transform(v);
    assert t == Agrupar(n);
    assert '+' !in t by {
      assert t == n[0..3] + " " + n[3..6] + " " + n[6..9];
      assert forall x :: x in n[0..3] || x in n[3..6] || x in n[6..9] ==> x in n;
    }
    NoPlusNoMatch(t, PrefijoPeru);
    assert ReplaceFirst(t, PrefijoPeru, "") == t;
    QuitarEspacios(v);
    assert Limpio(t) == n;
  }

  /** A stored number "+51" + d with 9 digits d is shown as d in groups. */
  lemma {:induction false} MuestraNumeroGuardado(d: string)
    requires |d| == 9 && AllDigits(d)
    ensures Limpio(PrefijoPeru + d) == d
    ensures Transform(PrefijoPeru + d) == Agrupar(d)
  {
    assert StartsWith(PrefijoPeru + d, PrefijoPeru);
    assert (PrefijoPeru + d)[|PrefijoPeru|..] == d;
    assert ReplaceFirst(PrefijoPeru + d, PrefijoPeru, "") == d;
    DigitosSinEspacios(d);
    RemoveWhitespaceNoop(d);
  }

  /** A leading "+51" is the occurrence that goes. */
  lemma LimpioConPrefijo(n: string)
    ensures Limpio(PrefijoPeru + n) == RemoveWhitespace(n)
  {
    var t := PrefijoPeru + n;
    assert StartsWith(t, PrefijoPeru) && t[3..] == n;
    assert ReplaceFirst(t, PrefijoPeru, "") == n;
  }

  /** A digit is not whitespace. */
  lemma DigitosSinEspacios(d: string)
    requires AllDigits(d)
    ensures forall c :: c in d ==> !IsWhitespace(c)
  {
    forall c | c in d ensures !IsWhitespace(c) {
      var i :| 0 <= i < |d| && d[i] == c;
      assert IsDigit(d[i]);
    }
  }

  /** " ddd ddd" after a leading "+51" strips to the 6 digits. */
  lemma {:induction false} SegundaPasada(d: string)
    requires |d| == 6 && AllDigits(d)
    ensures Transform(PrefijoPeru + " " + d[..3] + " " + d[3..]) == d
  {
    var a, b := d[0..3], d[3..6];
    assert a == d[..3] && b == d[3..];
    var resto := " " + a + " " + b;
    var v := PrefijoPeru + resto;
    assert v == PrefijoPeru + " " + d[..3] + " " + d[3..];
    LimpioConPrefijo(resto);
    DigitosSinEspacios(d);
    NoWhitespaceSlice(d, 0, 3);
    NoWhitespaceSlice(d, 3, 6);
    EspaciosIntercalados(a, b);
    assert a + b == d;
    assert Limpio(v) == d;
  }

  /** Two spaces in front of and between whitespace-free parts go. */
  lemma EspaciosIntercalados(a: string, b: string)
    requires RemoveWhitespace(a) == a && RemoveWhitespace(b) == b
    ensures RemoveWhitespace(" " + a + " " + b) == a + b
  {
    var y := " " + a;
    RemoveWhitespaceSpace();
    RemoveWhitespaceConcat(" ", a);
    assert "" + a == a;
    RemoveWhitespaceAround(y, b);
  }

  /** Only the first of two leading "+51" is stripped. */
  lemma {:induction false} LimpioDoblePrefijo(d: string)
    requires AllDigits(d)
    ensures Limpio(PrefijoPeru + PrefijoPeru + d) == PrefijoPeru + d
  {
    var n := PrefijoPeru + d;
    var v := PrefijoPeru + n;
    assert v == PrefijoPeru + PrefijoPeru + d;
    assert StartsWith(v, PrefijoPeru) && v[3..] == n;
    assert ReplaceFirst(v, PrefijoPeru, "") == n;
    DigitosSinEspacios(d);
    assert forall c :: c in PrefijoPeru ==> !IsWhitespace(c) by {
      assert PrefijoPeru == ['+', '5', '1'];
    }
    assert forall c :: c in n ==> !IsWhitespace(c) by {
      assert forall c :: c in n ==> c in PrefijoPeru || c in d;
    }
    RemoveWhitespaceNoop(n);
  }

  /** The first pass keeps the second "+51" and groups. */
  lemma {:induction false} PrimeraPasada(d: string)
    requires |d| == 6 && AllDigits(d)
    ensures Transform(PrefijoPeru + PrefijoPeru + d) == PrefijoPeru + " " + d[..3] + " " + d[3..]
  {
    var n := PrefijoPeru + d;
    LimpioDoblePrefijo(d);
    assert n[0..3] == PrefijoPeru && n[3..6] == d[..3] && n[6..9] == d[3..];
  }

  /** A stripped number that itself starts with "+51" loses it on a second
      pass, so the pipe is not idempotent on "+51+51" followed by 6 digits:
      the first pass shows "+51 ddd ddd", the second the bare 6 digits. */
  lemma {:induction false} NoIdempotenteEjemplo(d: string)
    requires |d| == 6 && AllDigits(d)
    ensures Transform(PrefijoPeru + PrefijoPeru + d) == PrefijoPeru + " " + d[..3] + " " + d[3..]
    ensures Transform(Transform(PrefijoPeru + PrefijoPeru + d)) == d
    ensures Transform(Transform(PrefijoPeru + PrefijoPeru + d)) != Transform(PrefijoPeru + PrefijoPeru + d)
  {
    PrimeraPasada(d);
    SegundaPasada(d);
    assert |PrefijoPeru + " " + d[..3] + " " + d[3..]| == 11;
  }
}
