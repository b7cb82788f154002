/** The administrator's report queue: reports grouped by product, each group
    with its count, its reports in arrival order and its three most frequent
    reasons, the groups ordered by count (ties in first-report order), and the
    five most reported products. */
module ReportesAdmin {
  import opened Seqs
  import opened Js
  import opened Entities
  import opened StableSort

  /** `ReporteAgrupado`. */
  datatype Grupo = Grupo(
    productoId: int,
    productoNombre: string,
    cantidadReportes: nat,
    reportes: seq<Reporte>,
    razonesComunes: seq<string>)

  /** One entry of `Object.entries(conteoRazones)`. */
  datatype ConteoRazon = ConteoRazon(razon: string, cantidad: nat)

  function Ids(rs: seq<Reporte>): seq<int>
  {
    seq(|rs|, i requires 0 <= i < |rs| => rs[i].productoId)
  }

  /** The reported products in order of their first report (the key order of the `Map`). */
  function OrdenProductos(rs: seq<Reporte>): seq<int>
  {
    Distinct(Ids(rs))
  }

  function DelProducto(id: int): Reporte -> bool
  {
    (r: Reporte) => r.productoId == id
  }

  /** The reports about one product, in their original order. */
  function ReportesDe(rs: seq<Reporte>, id: int): seq<Reporte>
  {
    Filter(rs, DelProducto(id))
  }

  /** `grupo.reportes.map(r => r.razon)`. */
  function Razones(rs: seq<Reporte>): seq<string>
  {
    seq(|rs|, i requires 0 <= i < |rs| => rs[i].razon)
  }

  /** `Object.entries` of the reason counts built by the `reduce`: each distinct
      reason once, in order of first occurrence, with its number of occurrences. */
  function Conteo(rs: seq<Reporte>): seq<ConteoRazon>
  {
    var rz := Razones(rs);
    var d := Distinct(rz);
    seq(|d|, k requires 0 <= k < |d| => ConteoRazon(d[k], multiset(rz)[d[k]]))
  }

  function CantidadRazon(e: ConteoRazon): int { e.cantidad }

  /** `.sort((a, b) => b[1] - a[1]).slice(0, 3)`. */
  function Ranking(rs: seq<Reporte>): seq<ConteoRazon>
  {
    Slice(SortDesc(Conteo(rs), CantidadRazon), 0, 3)
  }

  /** `${razon} (${cantidad})`. */
  function Formato(e: ConteoRazon): string
  {
    e.razon + " (" + NatToString(e.cantidad) + ")"
  }

  function RazonesComunes(rs: seq<Reporte>): seq<string>
  {
    var t := Ranking(rs);
    seq(|t|, k requires 0 <= k < |t| => Formato(t[k]))
  }

  /** A group before its reasons are ranked: the name of the first report about
      the product, the number of reports and the reports themselves. */
  function GrupoParcial(rs: seq<Reporte>, id: int): Grupo
  {
    var g := ReportesDe(rs, id);
    Grupo(id, if |g| > 0 then g[0].productoNombre else "", |g|, g, [])
  }

  /** A group with its reasons ranked. */
  function ConRazones(g: Grupo): Grupo
  {
    g.(razonesComunes := RazonesComunes(g.reportes))
  }

  function GrupoDe(rs: seq<Reporte>, id: int): Grupo
  {
    ConRazones(GrupoParcial(rs, id))
  }

  /** The group of each product of `rs`. */
  function GrupoDeCada(rs: seq<Reporte>): int -> Grupo
  {
    id => GrupoDe(rs, id)
  }

  /** `Array.from(grupos.values())`. */
  function GruposEnOrden(rs: seq<Reporte>, ids: seq<int>): seq<Grupo>
  {
    Map(ids, GrupoDeCada(rs))
  }

  function CantidadGrupo(g: Grupo): int { g.cantidadReportes }

  /** The list `agruparReportes` produces. */
  function ReportesAgrupados(rs: seq<Reporte>): seq<Grupo>
  {
    SortDesc(GruposEnOrden(rs, OrdenProductos(rs)), CantidadGrupo)
  }

  function Total(gs: seq<Grupo>): nat
  {
    if gs == [] then 0 else gs[0].cantidadReportes + Total(gs[1..])
  }

  lemma {:induction false} TotalConcat(a: seq<Grupo>, b: seq<Grupo>)
    ensures Total(a + b) == Total(a) + Total(b)
  {
    if a == [] {
      assert a + b == b;
    } else {
      assert (a + b)[1..] == a[1..] + b;
      TotalConcat(a[1..], b);
    }
  }

  lemma {:induction false} TotalInsert(x: Grupo, s: seq<Grupo>)
    ensures Total(InsertDesc(x, s, CantidadGrupo)) == x.cantidadReportes + Total(s)
  {
    if s == [] || CantidadGrupo(x) >= CantidadGrupo(s[0]) {
      assert Total(InsertDesc(x, s, CantidadGrupo)) == Total([x] + s);
      TotalConcat([x], s);
    } else {
      TotalInsert(x, s[1..]);
      TotalConcat([s[0]], InsertDesc(x, s[1..], CantidadGrupo));
    }
  }

  /** Sorting the groups does not change the number of reports they hold. */
  lemma {:induction false} TotalSort(s: seq<Grupo>)
    ensures Total(SortDesc(s, CantidadGrupo)) == Total(s)
  {
    if s != [] {
      TotalSort(s[1..]);
      TotalInsert(s[0], SortDesc(s[1..], CantidadGrupo));
      TotalConcat([s[0]], s[1..]);
      assert s == [s[0]] + s[1..];
    }
  }

  /** The number of reports about the products `ids`. */
  function Cuentas(rs: seq<Reporte>, ids: seq<int>): nat
  {
    if ids == [] then 0 else |ReportesDe(rs, ids[0])| + Cuentas(rs, ids[1..])
  }

  lemma CantidadGrupoDe(rs: seq<Reporte>, id: int)
    ensures GrupoDe(rs, id).cantidadReportes == |ReportesDe(rs, id)|
  {
  }

  lemma TotalCons(g: Grupo, gs: seq<Grupo>)
    ensures Total([g] + gs) == g.cantidadReportes + Total(gs)
  {
    assert ([g] + gs)[1..] == gs;
  }

  lemma {:induction false} TotalEnOrden(rs: seq<Reporte>, ids: seq<int>)
    ensures Total(GruposEnOrden(rs, ids)) == Cuentas(rs, ids)
  {
    if ids != [] {
      TotalEnOrden(rs, ids[1..]);
      MapCons(ids, GrupoDeCada(rs));
      TotalCons(GrupoDe(rs, ids[0]), GruposEnOrden(rs, ids[1..]));
      CantidadGrupoDe(rs, ids[0]);
    }
  }

  /** Adding one report adds one to the count of a list of distinct products
      that includes its product, and nothing otherwise. */
  lemma {:induction false} CuentasSnoc(rs: seq<Reporte>, r: Reporte, ids: seq<int>)
    requires NoDup(ids)
    ensures Cuentas(rs + [r], ids) == Cuentas(rs, ids) + (if r.productoId in ids then 1 else 0)
  {
    if ids != [] {
      assert NoDup(ids[1..]);
      CuentasSnoc(rs, r, ids[1..]);
      FilterSnoc(rs, r, DelProducto(ids[0]));
      assert ids == [ids[0]] + ids[1..];
      if ids[0] == r.productoId {
        assert r.productoId !in ids[1..];
      }
    }
  }

  lemma {:induction false} CuentasAppend(rs: seq<Reporte>, ids: seq<int>, id: int)
    ensures Cuentas(rs, ids + [id]) == Cuentas(rs, ids) + |ReportesDe(rs, id)|
  {
    if ids != [] {
      assert (ids + [id])[1..] == ids[1..] + [id];
      CuentasAppend(rs, ids[1..], id);
    } else {
      assert (ids + [id])[1..] == [];
    }
  }

  /** One more report adds one to the count, whether it opens a new group or
      joins the group of its product. */
  lemma {:induction false} CuentasPaso(p: seq<Reporte>, r: Reporte)
    ensures Cuentas(p + [r], OrdenProductos(p + [r])) == Cuentas(p, OrdenProductos(p)) + 1
  {
    OrdenPaso(p, r);
    var d := OrdenProductos(p);
    CuentasSnoc(p, r, d);
    if r.productoId !in d {
      CuentasAppend(p + [r], d, r.productoId);
      ReportesDeNoVacio(p, r.productoId);
      FilterSnoc(p, r, DelProducto(r.productoId));
    }
  }

  lemma {:induction false} CuentasTodas(rs: seq<Reporte>)
    ensures Cuentas(rs, OrdenProductos(rs)) == |rs|
  {
    if rs != [] {
      var p, r := rs[..|rs| - 1], rs[|rs| - 1];
      assert rs == p + [r];
      CuentasTodas(p);
      CuentasPaso(p, r);
    }
  }

  /** Every report is counted exactly once: the group counts add up to the
      number of reports. */
  lemma TotalReportes(rs: seq<Reporte>)
    ensures Total(ReportesAgrupados(rs)) == |rs|
  {
    TotalSort(GruposEnOrden(rs, OrdenProductos(rs)));
    TotalEnOrden(rs, OrdenProductos(rs));
    CuentasTodas(rs);
  }

  /** A product has reports exactly when it has a group. */
  lemma ReportesDeNoVacio(rs: seq<Reporte>, id: int)
    ensures |ReportesDe(rs, id)| > 0 <==> id in OrdenProductos(rs)
  {
    DistinctMembers(Ids(rs), id);
    if |ReportesDe(rs, id)| > 0 {
      var r := ReportesDe(rs, id)[0];
      FilterMembers(rs, DelProducto(id), r);
      var i :| 0 <= i < |rs| && rs[i] == r;
      assert Ids(rs)[i] == id;
    }
    if id in Ids(rs) {
      var i :| 0 <= i < |rs| && Ids(rs)[i] == id;
      FilterMembers(rs, DelProducto(id), rs[i]);
    }
  }

  /** The groups as produced, before the final sort, are one per reported
      product with pairwise different products. */
  lemma GruposSinRepetir(rs: seq<Reporte>)
    ensures NoDup(GruposEnOrden(rs, OrdenProductos(rs)))
  {
    var gs := GruposEnOrden(rs, OrdenProductos(rs));
    forall i, j | 0 <= i < j < |gs| ensures gs[i] != gs[j] {
      assert gs[i].productoId == OrdenProductos(rs)[i];
    }
  }

  /** Every group holds exactly the reports about its product, in their
      original order; its count is their number, at least one, and it is named
      after the first of them. */
  lemma {:induction false} GrupoCorrecto(rs: seq<Reporte>, g: Grupo)
    requires g in ReportesAgrupados(rs)
    ensures g.productoId in Ids(rs)
    ensures g.reportes == Filter(rs, DelProducto(g.productoId))
    ensures g.cantidadReportes == |g.reportes| > 0
    ensures g.productoNombre == g.reportes[0].productoNombre
    ensures g.razonesComunes == RazonesComunes(g.reportes)
  {
    var orden := OrdenProductos(rs);
    var gs := GruposEnOrden(rs, orden);
    assert g in multiset(ReportesAgrupados(rs));
    assert g in multiset(gs);
    var k :| 0 <= k < |gs| && gs[k] == g;
    DistinctMembers(Ids(rs), orden[k]);
    ReportesDeNoVacio(rs, g.productoId);
  }

  /** Every report is in the group of its product. */
  lemma {:induction false} ReporteEnSuGrupo(rs: seq<Reporte>, r: Reporte)
    requires r in rs
    ensures exists g :: g in ReportesAgrupados(rs) && g.productoId == r.productoId && r in g.reportes
  {
    var orden := OrdenProductos(rs);
    var gs := GruposEnOrden(rs, orden);
    var i :| 0 <= i < |rs| && rs[i] == r;
    assert Ids(rs)[i] == r.productoId;
    DistinctMembers(Ids(rs), r.productoId);
    var k :| 0 <= k < |orden| && orden[k] == r.productoId;
    FilterMembers(rs, DelProducto(r.productoId), r);
    assert gs[k] in multiset(ReportesAgrupados(rs));
  }

  /** No product has two groups. */
  lemma {:induction false} AgrupadosSinRepetir(rs: seq<Reporte>)
    ensures var out := ReportesAgrupados(rs);
      forall i, j :: 0 <= i < j < |out| ==> out[i].productoId != out[j].productoId
  {
    var out := ReportesAgrupados(rs);
    forall i, j | 0 <= i < j < |out| ensures out[i].productoId != out[j].productoId {
      GrupoCorrecto(rs, out[i]);
      GrupoCorrecto(rs, out[j]);
      GruposSinRepetir(rs);
      NoDupPermutation(GruposEnOrden(rs, OrdenProductos(rs)), out);
    }
  }

  /** There are as many groups as reported products. */
  lemma {:induction false} NumeroDeGrupos(rs: seq<Reporte>)
    ensures |ReportesAgrupados(rs)| == |set r | r in rs :: r.productoId|
  {
    var orden := OrdenProductos(rs);
    NoDupCardinality(orden);
    forall x ensures x in orden <==> x in Ids(rs) { DistinctMembers(Ids(rs), x); }
    forall x | x in Ids(rs) ensures exists r :: r in rs && r.productoId == x {
      var i :| 0 <= i < |rs| && Ids(rs)[i] == x;
      assert rs[i] in rs;
    }
    forall r | r in rs ensures r.productoId in Ids(rs) {
      var i :| 0 <= i < |rs| && rs[i] == r;
      assert Ids(rs)[i] == r.productoId;
    }
    assert (set x | x in orden) == (set r | r in rs :: r.productoId);
  }

  /** The groups come out sorted by count, most reported first, and groups
      with equal counts keep the order of their products' first reports. */
  lemma AgrupadosOrdenados(rs: seq<Reporte>, n: int)
    ensures SortedDesc(ReportesAgrupados(rs), CantidadGrupo)
    ensures Filter(ReportesAgrupados(rs), ConClave(CantidadGrupo, n))
         == Filter(GruposEnOrden(rs, OrdenProductos(rs)), ConClave(CantidadGrupo, n))
  {
    SortDescStable(GruposEnOrden(rs, OrdenProductos(rs)), CantidadGrupo, n);
  }

  /** No reports, no groups. */
  lemma SinReportesSinGrupos(rs: seq<Reporte>)
    ensures ReportesAgrupados(rs) == [] <==> rs == []
  {
    if rs != [] {
      assert Ids(rs)[0] in Ids(rs);
      DistinctMembers(Ids(rs), Ids(rs)[0]);
    }
  }

  /** The ranking lists as many reasons as there are different ones, up to three. */
  lemma RankingLongitud(rs: seq<Reporte>)
    ensures |Ranking(rs)| == Min(3, |Distinct(Razones(rs))|)
  {
  }

  /** The sorted counts are the counts in some order. */
  lemma {:induction false} OrdenadoDeConteo(rs: seq<Reporte>, k: int)
    requires 0 <= k < |SortDesc(Conteo(rs), CantidadRazon)|
    ensures exists m :: 0 <= m < |Conteo(rs)| && Conteo(rs)[m] == SortDesc(Conteo(rs), CantidadRazon)[k]
  {
    var c := Conteo(rs);
    var e := SortDesc(c, CantidadRazon)[k];
    assert e in multiset(SortDesc(c, CantidadRazon));
    assert e in multiset(c);
  }

  /** Each listed reason is one of the group's, with its number of occurrences. */
  lemma {:induction false} RankingCuenta(rs: seq<Reporte>, k: int)
    requires 0 <= k < |Ranking(rs)|
    ensures Ranking(rs)[k].razon in Razones(rs)
    ensures Ranking(rs)[k].cantidad == multiset(Razones(rs))[Ranking(rs)[k].razon]
  {
    var c := Conteo(rs);
    var sorted := SortDesc(c, CantidadRazon);
    assert Ranking(rs)[k] == sorted[k];
    OrdenadoDeConteo(rs, k);
    var m :| 0 <= m < |c| && c[m] == sorted[k];
    DistinctMembers(Razones(rs), Distinct(Razones(rs))[m]);
  }

  /** No reason is listed twice. */
  lemma {:induction false} RankingSinRepetir(rs: seq<Reporte>, i: int, j: int)
    requires 0 <= i < j < |Ranking(rs)|
    ensures Ranking(rs)[i].razon != Ranking(rs)[j].razon
  {
    var c := Conteo(rs);
    var sorted := SortDesc(c, CantidadRazon);
    assert Ranking(rs)[i] == sorted[i] && Ranking(rs)[j] == sorted[j];
    assert NoDup(c) by {
      forall a, b | 0 <= a < b < |c| ensures c[a] != c[b] {
        assert c[a].razon == Distinct(Razones(rs))[a];
      }
    }
    NoDupPermutation(c, sorted);
    OrdenadoDeConteo(rs, i);
    OrdenadoDeConteo(rs, j);
    var mi :| 0 <= mi < |c| && c[mi] == sorted[i];
    var mj :| 0 <= mj < |c| && c[mj] == sorted[j];
    assert mi != mj;
  }

  /** The most frequent reason comes first. */
  lemma RankingOrdenado(rs: seq<Reporte>)
    ensures SortedDesc(Ranking(rs), CantidadRazon)
  {
    var sorted := SortDesc(Conteo(rs), CantidadRazon);
    assert Ranking(rs) == sorted[..Min(3, |sorted|)];
  }

  /** Each reason's count has a place in the sorted counts. */
  lemma {:induction false} ConteoEnOrdenado(rs: seq<Reporte>, x: string)
    requires x in Razones(rs)
    ensures exists idx :: (0 <= idx < |SortDesc(Conteo(rs), CantidadRazon)|
      && SortDesc(Conteo(rs), CantidadRazon)[idx] == ConteoRazon(x, multiset(Razones(rs))[x]))
  {
    var c := Conteo(rs);
    DistinctMembers(Razones(rs), x);
    var m :| 0 <= m < |Distinct(Razones(rs))| && Distinct(Razones(rs))[m] == x;
    assert c[m] in multiset(c);
    assert c[m] in multiset(SortDesc(c, CantidadRazon));
  }

  lemma FueraDelPrefijo(s: seq<ConteoRazon>, t: seq<ConteoRazon>, x: string, idx: int)
    requires |t| <= |s| && t == s[..|t|] && 0 <= idx < |s| && s[idx].razon == x
    requires forall m :: 0 <= m < |t| ==> t[m].razon != x
    ensures idx >= |t|
  {
  }

  /** A reason left out of the ranking occurs no more often than any listed one. */
  lemma {:induction false} RankingDomina(rs: seq<Reporte>, x: string, k: int)
    requires x in Razones(rs) && 0 <= k < |Ranking(rs)|
    requires forall m :: 0 <= m < |Ranking(rs)| ==> Ranking(rs)[m].razon != x
    ensures multiset(Razones(rs))[x] <= Ranking(rs)[k].cantidad
  {
    var sorted := SortDesc(Conteo(rs), CantidadRazon);
    var t := Ranking(rs);
    assert t == sorted[..|t|];
    ConteoEnOrdenado(rs, x);
    var idx :| 0 <= idx < |sorted| && sorted[idx] == ConteoRazon(x, multiset(Razones(rs))[x]);
    FueraDelPrefijo(sorted, t, x, idx);
    assert CantidadRazon(sorted[k]) >= CantidadRazon(sorted[idx]);
  }

  /** `razonesComunes` is the ranking rendered as "razon (n)". */
  lemma RazonesComunesSpec(rs: seq<Reporte>)
    ensures |RazonesComunes(rs)| <= 3
    ensures forall k :: 0 <= k < |RazonesComunes(rs)| ==>
      exists e :: e in Ranking(rs) && RazonesComunes(rs)[k] == e.razon + " (" + NatToString(e.cantidad) + ")"
  {
    RankingLongitud(rs);
    forall k | 0 <= k < |RazonesComunes(rs)|
      ensures exists e :: e in Ranking(rs) && RazonesComunes(rs)[k] == e.razon + " (" + NatToString(e.cantidad) + ")"
    {
      assert Ranking(rs)[k] in Ranking(rs);
    }
  }

  /** Adding a report to its product's group: the name stays the one of the
      first report, the count grows by one and the report goes last. */
  lemma GrupoParcialPaso(p: seq<Reporte>, r: Reporte, id: int)
    ensures GrupoParcial(p + [r], id)
         == if id != r.productoId then GrupoParcial(p, id)
            else Grupo(id,
                       if |ReportesDe(p, id)| > 0 then GrupoParcial(p, id).productoNombre else r.productoNombre,
                       |ReportesDe(p, id)| + 1, ReportesDe(p, id) + [r], [])
  {
    FilterSnoc(p, r, DelProducto(id));
  }

  lemma OrdenPaso(p: seq<Reporte>, r: Reporte)
    ensures OrdenProductos(p + [r])
         == if r.productoId in OrdenProductos(p) then OrdenProductos(p) else OrdenProductos(p) + [r.productoId]
  {
    assert Ids(p + [r]) == Ids(p) + [r.productoId];
    DistinctSnoc(Ids(p), r.productoId);
  }

  /** The first loop of `agruparReportes`: the `forEach` that fills a map
      keyed by product in report order; `orden` is the map's key order. */
  method Recolectar(rs: seq<Reporte>) returns (grupos: map<int, Grupo>, orden: seq<int>)
    ensures orden == OrdenProductos(rs)
    ensures forall id :: id in grupos <==> id in orden
    ensures forall id :: id in grupos ==> grupos[id] == GrupoParcial(rs, id)
    ensures forall k :: 0 <= k < |orden| ==> orden[k] in grupos
  {
    grupos := map[];
    orden := [];
    var i := 0;
    while i < |rs|
      invariant 0 <= i <= |rs|
      invariant orden == OrdenProductos(rs[..i])
      invariant forall id :: id in grupos <==> id in orden
      invariant forall id :: id in grupos ==> grupos[id] == GrupoParcial(rs[..i], id)
    {
      var reporte := rs[i];
      var id := reporte.productoId;
      ghost var p := rs[..i];
      TakeSnoc(rs, i);
      OrdenPaso(p, reporte);
      ReportesDeNoVacio(p, id);
      if id !in grupos {
        grupos := grupos[id := Grupo(id, reporte.productoNombre, 0, [], [])];
        orden := orden + [id];
      }
      var grupo := grupos[id];
      grupo := grupo.(cantidadReportes := grupo.cantidadReportes + 1, reportes := grupo.reportes + [reporte]);
      GrupoParcialPaso(p, reporte, id);
      grupos := grupos[id := grupo];
      forall otro | otro in grupos && otro != id ensures grupos[otro] == GrupoParcial(p + [reporte], otro) {
        GrupoParcialPaso(p, reporte, otro);
      }
      i := i + 1;
    }
    assert rs[..i] == rs;
  }

  /** The state of the second loop of `agruparReportes` after `j` rounds:
      the first `j` groups of the order are ranked, the rest not yet. */
  ghost predicate RankeadoHasta(rs: seq<Reporte>, grupos: map<int, Grupo>, orden: seq<int>, j: int)
  {
    0 <= j <= |orden|
    && (forall id :: id in grupos <==> id in orden)
    && (forall k :: 0 <= k < j ==> orden[k] in grupos && grupos[orden[k]] == GrupoDe(rs, orden[k]))
    && (forall k :: j <= k < |orden| ==> orden[k] in grupos && grupos[orden[k]] == GrupoParcial(rs, orden[k]))
  }

  /** One round ranks the next group and leaves the others alone. */
  lemma {:induction false} RankearPaso(rs: seq<Reporte>, grupos: map<int, Grupo>, orden: seq<int>, j: int)
    requires NoDup(orden) && RankeadoHasta(rs, grupos, orden, j) && j < |orden|
    ensures RankeadoHasta(rs, grupos[orden[j] := ConRazones(grupos[orden[j]])], orden, j + 1)
  {
    var id := orden[j];
    var g := grupos[id := ConRazones(grupos[id])];
    forall k | 0 <= k < |orden| && k != j
      ensures orden[k] != id && g[orden[k]] == grupos[orden[k]]
    {
      if k < j {
        assert orden[k] != orden[j];
      } else {
        assert orden[j] != orden[k];
      }
    }
  }

  /** The second loop of `agruparReportes`: ranks the reasons of every group. */
  method Rankear(rs: seq<Reporte>, grupos0: map<int, Grupo>, orden: seq<int>) returns (grupos: map<int, Grupo>)
    requires NoDup(orden)
    requires forall id :: id in grupos0 ==> id in orden
    requires forall k :: 0 <= k < |orden| ==> orden[k] in grupos0 && grupos0[orden[k]] == GrupoParcial(rs, orden[k])
    ensures forall id :: id in grupos <==> id in orden
    ensures forall id :: id in grupos ==> grupos[id] == GrupoDe(rs, id)
  {
    grupos := grupos0;
    var j := 0;
    while j < |orden|
      invariant RankeadoHasta(rs, grupos, orden, j)
    {
      RankearPaso(rs, grupos, orden, j);
      grupos := grupos[orden[j] := ConRazones(grupos[orden[j]])];
      j := j + 1;
    }
    forall id | id in grupos ensures grupos[id] == GrupoDe(rs, id) {
      var k :| 0 <= k < |orden| && orden[k] == id;
    }
  }

  /** `agruparReportes`: groups the reports by product, ranks each group's
      reasons and sorts the groups by count. */
  method Agrupar(rs: seq<Reporte>) returns (out: seq<Grupo>)
    ensures out == ReportesAgrupados(rs)
  {
    var grupos0, orden := Recolectar(rs);
    var grupos := Rankear(rs, grupos0, orden);
    assert forall k :: 0 <= k < |orden| ==> orden[k] in grupos;
    var valores := seq(|orden|, k requires 0 <= k < |orden| => grupos[orden[k]]);
    assert valores == GruposEnOrden(rs, orden);
    out := SortDesc(valores, CantidadGrupo);
  }

  class ReportesAdmin {
    var reportes: seq<Reporte>
    var reportesAgrupados: seq<Grupo>
    var isLoading: bool

    constructor()
      ensures reportes == [] && reportesAgrupados == [] && isLoading
    {
      reportes := [];
      reportesAgrupados := [];
      isLoading := true;
    }

    /** `agruparReportes`: groups the reports in a map keyed by product, ranks
        each group's reasons and sorts the groups by count. */
    method AgruparReportes()
      modifies this
      ensures reportesAgrupados == ReportesAgrupados(reportes)
      ensures reportes == old(reportes) && isLoading == old(isLoading)
    {
      reportesAgrupados := Agrupar(reportes);
    }

    /** The `next` callback of `cargarReportes`. */
    method CargarReportesExito(data: seq<Reporte>)
      modifies this
      ensures reportes == data && reportesAgrupados == ReportesAgrupados(data) && !isLoading
    {
      reportes := data;
      AgruparReportes();
      isLoading := false;
    }

    /** `obtenerProductosMasReportados`: the first five groups. */
    function ProductosMasReportados(): (r: seq<Grupo>)
      reads this
      ensures |r| == Min(5, |reportesAgrupados|)
      ensures r == reportesAgrupados[..|r|]
    {
      Slice(reportesAgrupados, 0, 5)
    }
  }
}
