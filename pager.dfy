/** Client-side pagination shared by the listing pages: the page count, the page
    slice and the 5-wide window of page numbers the pager shows
    (`getPaginaNumeros`). */
module Pager {
  import opened Seqs

  /** The pager shows at most this many page numbers. */
  const MaxPaginas: nat := 5

  /** `Math.ceil(len / pageSize)`. */
  function TotalPages(len: nat, pageSize: nat): (r: nat)
    requires pageSize > 0
    ensures r * pageSize >= len
    ensures r > 0 ==> (r - 1) * pageSize < len
    ensures r == 0 <==> len == 0
  {
    (len + pageSize - 1) / pageSize
  }

  /** `slice(currentPage * pageSize, currentPage * pageSize + pageSize)`. */
  function PageSlice<T>(s: seq<T>, currentPage: int, pageSize: nat): (r: seq<T>)
    ensures |r| <= pageSize
    ensures 0 <= currentPage && currentPage * pageSize <= |s| ==>
      r == s[currentPage * pageSize..Min(currentPage * pageSize + pageSize, |s|)]
  {
    Slice(s, currentPage * pageSize, currentPage * pageSize + pageSize)
  }

  /** Every element of `s` is on exactly one page: the element at index
      `p * pageSize + m` (with `m < pageSize`) is element `m` of page `p`. */
  lemma PageSliceCovers<T>(s: seq<T>, p: nat, m: nat, pageSize: nat)
    requires m < pageSize && p * pageSize + m < |s|
    ensures m < |PageSlice(s, p, pageSize)|
    ensures PageSlice(s, p, pageSize)[m] == s[p * pageSize + m]
  {
    var start := p * pageSize;
    assert 0 <= start <= |s|;
    assert PageSlice(s, p, pageSize) == s[start..Min(start + pageSize, |s|)];
  }

  /** The first page number of the window (`inicio` after the adjustment). */
  function WindowStart(currentPage: int, totalPages: int): int
  {
    var inicio := Max(0, currentPage - MaxPaginas / 2);
    var fin := Min(totalPages, inicio + MaxPaginas);
    if fin - inicio < MaxPaginas then Max(0, fin - MaxPaginas) else inicio
  }

  /** One past the last page number of the window (`fin`). */
  function WindowEnd(currentPage: int, totalPages: int): int
  {
    Min(totalPages, Max(0, currentPage - MaxPaginas / 2) + MaxPaginas)
  }

  /** The consecutive integers `a, a+1, ..., b-1`. */
  function Range(a: int, b: int): (r: seq<int>)
    ensures |r| == Max(0, b - a)
    ensures forall i :: 0 <= i < |r| ==> r[i] == a + i
  {
    seq(Max(0, b - a), i => a + i)
  }

  /** The page numbers `getPaginaNumeros` returns. */
  function PageWindow(currentPage: int, totalPages: int): seq<int>
  {
    Range(WindowStart(currentPage, totalPages), WindowEnd(currentPage, totalPages))
  }

  /** The window is ascending and consecutive, lies within [0, totalPages), has
      exactly min(5, totalPages) pages, and shows the current page when it exists. */
  lemma PageWindowProperties(currentPage: int, totalPages: int)
    ensures var w := PageWindow(currentPage, totalPages);
      && (forall i :: 0 <= i < |w| ==> w[i] == w[0] + i)
      && (forall i :: 0 <= i < |w| ==> 0 <= w[i] < totalPages)
      && |w| == (if totalPages <= 0 then 0 else Min(MaxPaginas, totalPages))
      && (0 <= currentPage < totalPages ==> currentPage in w)
  {
    var w := PageWindow(currentPage, totalPages);
    var a, b := WindowStart(currentPage, totalPages), WindowEnd(currentPage, totalPages);
    if 0 <= currentPage < totalPages {
      assert a <= currentPage < b;
      assert w[currentPage - a] == currentPage;
    }
  }

  /** The loop of `getPaginaNumeros`, which pushes `inicio, ..., fin - 1`. */
  method PaginaNumeros(currentPage: int, totalPages: int) returns (paginas: seq<int>)
    ensures paginas == PageWindow(currentPage, totalPages)
    ensures forall i :: 0 <= i < |paginas| ==> paginas[i] == paginas[0] + i
    ensures forall i :: 0 <= i < |paginas| ==> 0 <= paginas[i] < totalPages
    ensures |paginas| == if totalPages <= 0 then 0 else Min(MaxPaginas, totalPages)
    ensures 0 <= currentPage < totalPages ==> currentPage in paginas
  {
    paginas := [];
    var inicio := Max(0, currentPage - MaxPaginas / 2);
    var fin := Min(totalPages, inicio + MaxPaginas);
    if fin - inicio < MaxPaginas {
      inicio := Max(0, fin - MaxPaginas);
    }
    var i := inicio;
    while i < fin
      invariant inicio <= i <= Max(inicio, fin)
      invariant paginas == Range(inicio, i)
    {
      paginas := paginas + [i];
      i := i + 1;
    }
    assert inicio == WindowStart(currentPage, totalPages) && fin == WindowEnd(currentPage, totalPages);
    if fin < inicio {
      assert |Range(inicio, fin)| == 0 && |paginas| == 0;
    }
    PageWindowProperties(currentPage, totalPages);
  }
}
