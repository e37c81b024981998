/** Splitting a payload's rows into pages with roots, and resolving them again
    (forecast_engine.build_paged_poker_mtt_projection_payload and _resolve_miner_reward_rows_from_artifacts). */
module Paging {
  import opened Options
  import opened Ordering

  datatype Page<T> = Page(index: nat, count: nat, rows: seq<T>, root: string)

  datatype PageRef = PageRef(index: nat, count: nat, root: string)

  /** The paged fields of a payload; an absent row list is an empty one, an absent root the empty string. */
  datatype Paged<T> = Paged(rows: seq<T>, root: string, pageCount: nat, refs: seq<PageRef>)

  /** A stored artifact: page payloads are kept under a kind of their own. */
  datatype Artifact<T> = Artifact(kind: string, page: Option<Page<T>>)

  datatype PagingError = PageSizeNotPositive | PageMissing | PageRootMismatch | RowCountMismatch | RowsRootMismatch

  type Hash<!T> = seq<T> -> string

  // ---- Building ----------------------------------------------------------------------------------------

  function PageOf<T>(hash: Hash<T>, index: nat, rows: seq<T>): Page<T> {
    Page(index, |rows|, rows, hash(rows))
  }

  /** The pages from position start on. */
  function PagesFrom<T>(hash: Hash<T>, rows: seq<T>, size: nat, index: nat): (pages: seq<Page<T>>)
    requires size > 0
    decreases |rows|
  {
    if rows == [] then []
    else if |rows| <= size then [PageOf(hash, index, rows)]
    else [PageOf(hash, index, rows[..size])] + PagesFrom(hash, rows[size..], size, index + 1)
  }

  function RefOf<T>(page: Page<T>): PageRef {
    PageRef(page.index, page.count, page.root)
  }

  function RefsOf<T>(pages: seq<Page<T>>): (refs: seq<PageRef>)
    ensures |refs| == |pages|
  {
    seq(|pages|, k requires 0 <= k < |pages| => RefOf(pages[k]))
  }

  method BuildPages<T>(hash: Hash<T>, rows: seq<T>, pageSize: int)
    returns (r: Result<(Paged<T>, seq<Page<T>>), PagingError>)
    ensures pageSize <= 0 ==> r == Err(PageSizeNotPositive)
    ensures 0 < pageSize && |rows| <= pageSize ==> r == Ok((Paged(rows, hash(rows), 1, []), []))
    ensures 0 < pageSize < |rows| ==>
              var pages := PagesFrom(hash, rows, pageSize, 0);
              r == Ok((Paged([], hash(rows), |pages|, RefsOf(pages)), pages))
  {
    if pageSize <= 0 {
      return Err(PageSizeNotPositive);
    }
    var root := hash(rows);
    if |rows| <= pageSize {
      return Ok((Paged(rows, root, 1, []), []));
    }
    var pages, refs := CutPages(hash, rows, pageSize);
    r := Ok((Paged([], root, |pages|, refs), pages));
  }

  /** The rest of the pages follow those already cut. */
  ghost predicate CutTo<T>(hash: Hash<T>, rows: seq<T>, size: nat, start: nat, pages: seq<Page<T>>)
    requires size > 0
  {
    var rest := if start <= |rows| then PagesFrom(hash, rows[start..], size, |pages|) else [];
    pages + rest == PagesFrom(hash, rows, size, 0)
  }

  method CutPages<T>(hash: Hash<T>, rows: seq<T>, size: nat) returns (pages: seq<Page<T>>, refs: seq<PageRef>)
    requires size > 0
    ensures pages == PagesFrom(hash, rows, size, 0) && refs == RefsOf(pages)
  {
    hide CutTo, PagesFrom;
    pages, refs := [], [];
    NothingCut(hash, rows, size);
    var start := 0;
    while start < |rows|
      invariant 0 <= start && refs == RefsOf(pages) && CutTo(hash, rows, size, start, pages)
      decreases |rows| - start
    {
      var chunk := rows[start..if start + size <= |rows| then start + size else |rows|];
      CutNext(hash, rows, size, start, pages);
      var page := Page(|pages|, |chunk|, chunk, hash(chunk));
      refs := refs + [PageRef(|pages|, |chunk|, page.root)];
      pages := pages + [page];
      start := start + size;
    }
    NothingLeft(hash, rows, size, start, pages);
  }

  lemma NothingCut<T>(hash: Hash<T>, rows: seq<T>, size: nat)
    requires size > 0
    ensures CutTo(hash, rows, size, 0, [])
  {
    assert rows[0..] == rows;
    hide PagesFrom;
  }

  lemma NothingLeft<T>(hash: Hash<T>, rows: seq<T>, size: nat, start: nat, pages: seq<Page<T>>)
    requires size > 0 && start >= |rows| && CutTo(hash, rows, size, start, pages)
    ensures pages == PagesFrom(hash, rows, size, 0)
  {
    assert start == |rows| ==> PagesFrom(hash, rows[start..], size, |pages|) == [];
    assert pages + [] == pages;
  }

  lemma CutNext<T>(hash: Hash<T>, rows: seq<T>, size: nat, start: nat, pages: seq<Page<T>>)
    requires size > 0 && start < |rows| && CutTo(hash, rows, size, start, pages)
    ensures
      var end := if start + size <= |rows| then start + size else |rows|;
      CutTo(hash, rows, size, start + size, pages + [PageOf(hash, |pages|, rows[start..end])])
  {
    PagesStep(hash, rows, start, size, |pages|);
    var end := if start + size <= |rows| then start + size else |rows|;
    var page := PageOf(hash, |pages|, rows[start..end]);
    var rest := PagesFrom(hash, rows[end..], size, |pages| + 1);
    assert end == |rows| ==> rest == [];
    hide PagesFrom;
    assert pages + ([page] + rest) == (pages + [page]) + rest;
  }

  lemma PagesStep<T>(hash: Hash<T>, rows: seq<T>, start: nat, size: nat, index: nat)
    requires start < |rows| && size > 0
    ensures
      var end := if start + size <= |rows| then start + size else |rows|;
      PagesFrom(hash, rows[start..], size, index)
        == [PageOf(hash, index, rows[start..end])] + PagesFrom(hash, rows[end..], size, index + 1)
  {
    var rest := rows[start..];
    if |rest| <= size {
      assert rows[start..|rows|] == rest;
      assert rows[|rows|..] == [];
    } else {
      assert rest[..size] == rows[start..start + size] && rest[size..] == rows[start + size..];
    }
  }

  /** Every page holds at most `size` rows, is numbered in order and rooted in its rows; together the
      pages hold the rows. */
  lemma {:induction false} PagesHold<T>(hash: Hash<T>, rows: seq<T>, size: nat, index: nat)
    requires size > 0
    ensures
      var pages := PagesFrom(hash, rows, size, index);
      && Joined(pages) == rows
      && forall k :: 0 <= k < |pages| ==> pages[k].index == index + k && PageSound(hash, pages[k])
    decreases |rows|
  {
    if rows != [] && |rows| > size {
      PagesHold(hash, rows[size..], size, index + 1);
      var pages := PagesFrom(hash, rows, size, index);
      assert pages[1..] == PagesFrom(hash, rows[size..], size, index + 1);
      assert Joined(pages) == rows[..size] + rows[size..];
      forall k | 0 <= k < |pages| ensures pages[k].index == index + k && PageSound(hash, pages[k]) {
        if k > 0 {
          assert pages[k] == pages[1..][k - 1];
        }
      }
    } else if rows != [] {
      assert rows + [] == rows;
    }
  }

  predicate PageSound<T>(hash: Hash<T>, page: Page<T>) {
    page.count == |page.rows| && page.root == hash(page.rows)
  }

  function Joined<T>(pages: seq<Page<T>>): seq<T> {
    if pages == [] then [] else pages[0].rows + Joined(pages[1..])
  }

  // ---- Resolving ---------------------------------------------------------------------------------------

  predicate Earlier(a: PageRef, b: PageRef) {
    a.index <= b.index
  }

  /** The references of one index, in the order given. */
  function OfIndex(refs: seq<PageRef>, index: nat): seq<PageRef> {
    if refs == [] then []
    else if refs[0].index == index then [refs[0]] + OfIndex(refs[1..], index)
    else OfIndex(refs[1..], index)
  }

  lemma {:induction false} InsertStays(ref: PageRef, refs: seq<PageRef>, index: nat)
    ensures OfIndex(Insert(ref, refs, Earlier), index)
              == (if ref.index == index then [ref] else []) + OfIndex(refs, index)
  {
    if refs != [] && !Earlier(ref, refs[0]) {
      InsertStays(ref, refs[1..], index);
      assert ([refs[0]] + Insert(ref, refs[1..], Earlier))[1..] == Insert(ref, refs[1..], Earlier);
    } else {
      assert ([ref] + refs)[1..] == refs;
    }
  }

  /** Pages are taken by index, and those of one index in the order their references were given. */
  lemma {:induction false} TakenByIndex(refs: seq<PageRef>)
    ensures
      var taken := Sort(refs, Earlier);
      && multiset(taken) == multiset(refs)
      && (forall i, j :: 0 <= i < j < |taken| ==> taken[i].index <= taken[j].index)
      && forall index :: OfIndex(taken, index) == OfIndex(refs, index)
  {
    SortKeeps(refs, Earlier);
    if refs != [] {
      var rest := Sort(refs[1..], Earlier);
      TakenByIndex(refs[1..]);
      InsertByIndex(refs[0], rest);
      forall index ensures OfIndex(Sort(refs, Earlier), index) == OfIndex(refs, index) {
        InsertStays(refs[0], rest, index);
      }
    }
  }

  lemma {:induction false} InsertByIndex(ref: PageRef, refs: seq<PageRef>)
    requires forall i, j :: 0 <= i < j < |refs| ==> refs[i].index <= refs[j].index
    ensures
      var taken := Insert(ref, refs, Earlier);
      && (forall i, j :: 0 <= i < j < |taken| ==> taken[i].index <= taken[j].index)
      && taken != []
      && taken[0].index == if refs == [] || ref.index < refs[0].index then ref.index else refs[0].index
  {
    if refs != [] && !Earlier(ref, refs[0]) {
      InsertByIndex(ref, refs[1..]);
    }
  }

  /** The last page artifact of the kind under each index. */
  function ByIndex<T>(artifacts: seq<Artifact<T>>, kind: string): map<nat, Page<T>> {
    if artifacts == [] then map[]
    else
      var n := |artifacts| - 1;
      var before := ByIndex(artifacts[..n], kind);
      if artifacts[n].kind == kind && artifacts[n].page.Some?
      then before[artifacts[n].page.value.index := artifacts[n].page.value] else before
  }

  function CheckRef<T>(hash: Hash<T>, pages: map<nat, Page<T>>, ref: PageRef): Result<seq<T>, PagingError> {
    if ref.index !in pages then Err(PageMissing)
    else
      var page := pages[ref.index];
      var root := hash(page.rows);
      if root != ref.root || root != page.root then Err(PageRootMismatch)
      else if |page.rows| != ref.count then Err(RowCountMismatch)
      else Ok(page.rows)
  }

  function CheckRefs<T>(hash: Hash<T>, pages: map<nat, Page<T>>, refs: seq<PageRef>): Result<seq<T>, PagingError> {
    if refs == [] then Ok([])
    else
      var n := |refs| - 1;
      var before := CheckRefs(hash, pages, refs[..n]);
      if before.Err? then before
      else
        var last := CheckRef(hash, pages, refs[n]);
        if last.Err? then last else Ok(before.value + last.value)
  }

  function CheckRoot<T>(hash: Hash<T>, rows: seq<T>, root: string): Result<seq<T>, PagingError> {
    if root != "" && hash(rows) != root then Err(RowsRootMismatch) else Ok(rows)
  }

  function Resolved<T>(hash: Hash<T>, payload: Paged<T>, artifacts: seq<Artifact<T>>, kind: string): Result<seq<T>,
                       PagingError> {
    if payload.rows != [] then CheckRoot(hash, payload.rows, payload.root)
    else if payload.refs == [] then Ok([])
    else
      var rows := CheckRefs(hash, ByIndex(artifacts, kind), Sort(payload.refs, Earlier));
      if rows.Err? then rows else CheckRoot(hash, rows.value, payload.root)
  }

  method Resolve<T>(hash: Hash<T>, payload: Paged<T>, artifacts: seq<Artifact<T>>, kind: string)
    returns (r: Result<seq<T>, PagingError>)
    ensures r == Resolved(hash, payload, artifacts, kind)
  {
    if |payload.rows| > 0 {
      if payload.root != "" && hash(payload.rows) != payload.root {
        return Err(RowsRootMismatch);
      }
      return Ok(payload.rows);
    }
    if |payload.refs| == 0 {
      return Ok([]);
    }
    var pages: map<nat, Page<T>> := map[];
    for k := 0 to |artifacts|
      invariant pages == ByIndex(artifacts[..k], kind)
    {
      assert artifacts[..k + 1][..k] == artifacts[..k];
      if artifacts[k].kind == kind && artifacts[k].page.Some? {
        pages := pages[artifacts[k].page.value.index := artifacts[k].page.value];
      }
    }
    assert artifacts[..|artifacts|] == artifacts;
    var rows := [];
    var refs := Sort(payload.refs, Earlier);
    for k := 0 to |refs|
      invariant CheckRefs(hash, pages, refs[..k]) == Ok(rows)
    {
      CheckRefsFails(hash, pages, refs, k);
      assert refs[..k + 1][..k] == refs[..k];
      var ref := refs[k];
      if ref.index !in pages {
        return Err(PageMissing);
      }
      var page := pages[ref.index];
      var root := hash(page.rows);
      if root != ref.root || root != page.root {
        return Err(PageRootMismatch);
      }
      if |page.rows| != ref.count {
        return Err(RowCountMismatch);
      }
      rows := rows + page.rows;
    }
    assert refs[..|refs|] == refs;
    if payload.root != "" && hash(rows) != payload.root {
      return Err(RowsRootMismatch);
    }
    r := Ok(rows);
  }

  /** The first page that fails decides. */
  lemma {:induction false} CheckRefsFails<T>(hash: Hash<T>, pages: map<nat, Page<T>>, refs: seq<PageRef>, k: nat)
    requires k < |refs| && CheckRefs(hash, pages, refs[..k]).Ok?
    ensures CheckRef(hash, pages, refs[k]).Err? ==> CheckRefs(hash, pages, refs) == CheckRef(hash, pages, refs[k])
    decreases |refs|
  {
    var n := |refs| - 1;
    if k < n {
      assert refs[..n][..k] == refs[..k];
      CheckRefsFails(hash, pages, refs[..n], k);
    }
  }

  // ---- The round trip ----------------------------------------------------------------------------------

  lemma {:induction false} SortStays<T>(xs: seq<T>, leq: (T, T) -> bool)
    requires Sorted(xs, leq)
    ensures Sort(xs, leq) == xs
  {
    if xs != [] {
      SortStays(xs[1..], leq);
      assert xs[1..] != [] ==> leq(xs[0], xs[1]);
      assert xs == [xs[0]] + xs[1..];
    }
  }

  /** The artifacts of the kind are exactly the pages, in any order and any number of copies. */
  ghost predicate Holds<T>(artifacts: seq<Artifact<T>>, kind: string, pages: seq<Page<T>>) {
    && (forall k :: 0 <= k < |pages| ==> Artifact(kind, Some(pages[k])) in artifacts)
    && (forall k :: 0 <= k < |artifacts| && artifacts[k].kind == kind && artifacts[k].page.Some? ==>
          artifacts[k].page.value in pages)
  }

  ghost predicate Numbered<T>(pages: seq<Page<T>>) {
    forall k :: 0 <= k < |pages| ==> pages[k].index == k
  }

  lemma {:induction false} IndexFinds<T>(artifacts: seq<Artifact<T>>, kind: string, pages: seq<Page<T>>)
    requires Numbered(pages)
    requires forall k :: 0 <= k < |artifacts| && artifacts[k].kind == kind && artifacts[k].page.Some? ==>
               artifacts[k].page.value in pages
    ensures forall i :: i in ByIndex(artifacts, kind) ==> i < |pages| && ByIndex(artifacts, kind)[i] == pages[i]
    ensures forall i :: 0 <= i < |pages| && Artifact(kind, Some(pages[i])) in artifacts ==>
              i in ByIndex(artifacts, kind)
  {
    if artifacts != [] {
      var n := |artifacts| - 1;
      IndexFinds(artifacts[..n], kind, pages);
      assert artifacts == artifacts[..n] + [artifacts[n]];
    }
  }

  lemma {:induction false} RefsCheck<T>(hash: Hash<T>, pages: map<nat, Page<T>>, all: seq<Page<T>>, n: nat)
    requires n <= |all| && Numbered(all)
    requires forall i :: 0 <= i < |all| ==> i in pages && pages[i] == all[i] && PageSound(hash, all[i])
    ensures CheckRefs(hash, pages, RefsOf(all)[..n]) == Ok(Joined(all[..n]))
  {
    if n > 0 {
      RefsCheck(hash, pages, all, n - 1);
      assert RefsOf(all)[..n][..n - 1] == RefsOf(all)[..n - 1];
      assert all[..n] == all[..n - 1] + [all[n - 1]];
      JoinedSnoc(all[..n - 1], all[n - 1]);
    }
  }

  lemma {:induction false} JoinedSnoc<T>(pages: seq<Page<T>>, page: Page<T>)
    ensures Joined(pages + [page]) == Joined(pages) + page.rows
  {
    if pages == [] {
      assert [] + page.rows == page.rows + [];
    } else {
      assert (pages + [page])[1..] == pages[1..] + [page];
      JoinedSnoc(pages[1..], page);
    }
  }

  /** Paging and then resolving gives the rows back, for every page size and any order or repetition of
      the stored pages among other artifacts. */
  method RoundTrip<T(==)>(hash: Hash<T>, rows: seq<T>, pageSize: int, artifacts: seq<Artifact<T>>, kind: string)
    returns (r: Result<seq<T>, PagingError>)
    requires pageSize > 0
    requires |rows| > pageSize ==> Holds(artifacts, kind, PagesFrom(hash, rows, pageSize, 0))
    ensures r == Ok(rows)
  {
    var built := BuildPages(hash, rows, pageSize);
    r := Resolve(hash, built.value.0, artifacts, kind);
    if |rows| > pageSize {
      PagesResolve(hash, rows, pageSize, artifacts, kind);
    }
  }

  lemma PagesResolve<T>(hash: Hash<T>, rows: seq<T>, size: nat, artifacts: seq<Artifact<T>>, kind: string)
    requires 0 < size < |rows| && Holds(artifacts, kind, PagesFrom(hash, rows, size, 0))
    ensures
      var pages := PagesFrom(hash, rows, size, 0);
      Resolved(hash, Paged([], hash(rows), |pages|, RefsOf(pages)), artifacts, kind) == Ok(rows)
  {
    var pages := PagesFrom(hash, rows, size, 0);
    assert pages != [];
    PagesHold(hash, rows, size, 0);
    SortStays(RefsOf(pages), Earlier);
    IndexFinds(artifacts, kind, pages);
    RefsCheck(hash, ByIndex(artifacts, kind), pages, |pages|);
    assert RefsOf(pages)[..|pages|] == RefsOf(pages) && pages[..|pages|] == pages;
  }

  /** A resolve that succeeds under a stored root returns rows with that root, whatever the artifacts
      hold; the one exception is a payload with neither rows nor pages, which resolves to nothing. */
  lemma ResolvedHasRoot<T>(hash: Hash<T>, payload: Paged<T>, artifacts: seq<Artifact<T>>, kind: string)
    requires payload.root != "" && Resolved(hash, payload, artifacts, kind).Ok?
    ensures hash(Resolved(hash, payload, artifacts, kind).value) == payload.root
            || (payload.rows == [] && payload.refs == [] && Resolved(hash, payload, artifacts, kind).value == [])
  {
    hide CheckRefs, ByIndex, Sort;
  }

  /** With a collision-free hash no artifacts, lost, stale or altered, make a built payload resolve to
      other rows. */
  lemma ResolveNeverLies<T(!new)>(hash: Hash<T>, rows: seq<T>, size: nat, payload: Paged<T>,
                                  artifacts: seq<Artifact<T>>, kind: string)
    requires forall xs, ys :: hash(xs) == hash(ys) ==> xs == ys
    requires hash(rows) != "" && 0 < size
    requires payload == if |rows| <= size then Paged(rows, hash(rows), 1, [])
                        else Paged([], hash(rows), |PagesFrom(hash, rows, size, 0)|,
                                   RefsOf(PagesFrom(hash, rows, size, 0)))
    ensures Resolved(hash, payload, artifacts, kind).Ok? ==> Resolved(hash, payload, artifacts, kind).value == rows
  {
    if Resolved(hash, payload, artifacts, kind).Ok? {
      ResolvedHasRoot(hash, payload, artifacts, kind);
      hide CheckRefs, ByIndex, Sort;
    }
  }
}
