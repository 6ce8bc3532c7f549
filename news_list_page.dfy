/**
 * The news list screen: a server-paged table of articles with a search box.
 * Handlers only change the page, page size and search; an effect that
 * depends on those three requests the page they describe whenever one of
 * them has changed since it last ran.
 */
module NewsList {
  import opened Js
  import opened Http
  import opened DataTable

  /** One row of the news table, as far as the table reads it. */
  datatype NewsRow = NewsRow(id: Option<string>, title: Option<string>, category: Option<string>, status: Option<string>)

  /** The effect's dependencies `[page, perPage, search]` (`fetchNews` itself never changes). */
  datatype Deps = Deps(page: int, perPage: int, search: string)

  /** What the effect does after a render: fetch the page `now` describes unless the dependencies are those of its last run. */
  function EffectFetch(last: Option<Deps>, now: Deps): Option<Request> {
    if last == Some(now) then None else Some(PageRequest(now.page, now.perPage, now.search))
  }

  /**
   * The effect fetches exactly when a dependency changed, and then asks for
   * the page the table shows: the request reads back as that page number,
   * page size and search text.
   */
  lemma {:induction false} EffectRequestsShownPage(last: Option<Deps>, now: Deps)
    requires now.page >= 1 && now.perPage >= 1
    ensures EffectFetch(last, now).Some? <==> last != Some(now)
    ensures EffectFetch(last, now).Some? ==>
      var r := EffectFetch(last, now).value;
      && r.start % now.perPage == 0 && r.start / now.perPage + 1 == now.page
      && r.length == now.perPage && r.search == now.search
  {
    PageWindow(now.page, now.perPage, now.search);
  }

  /** The first render fetches page 1 of 10 rows with no search. */
  lemma FirstRenderFetchesFirstPage()
    ensures EffectFetch(None, Deps(1, 10, "")) == Some(Request(1, 0, 10, ""))
  {
  }

  /** A new search text always fetches, from row 0. */
  lemma {:induction false} NewSearchRefetchesFromStart(last: Deps, value: string)
    requires value != last.search && last.perPage >= 1
    ensures EffectFetch(Some(last), Deps(1, last.perPage, value)).Some?
    ensures EffectFetch(Some(last), Deps(1, last.perPage, value)).value.start == 0
  {
    PageWindow(1, last.perPage, value);
  }

  /** Choosing the page already shown, or retyping the search on page 1, fetches nothing. */
  lemma UnchangedDepsAreQuiet(last: Deps)
    ensures EffectFetch(Some(last), Deps(last.page, last.perPage, last.search)) == None
    ensures last.page == 1 ==> EffectFetch(Some(last), Deps(1, last.perPage, last.search)) == None
  {
  }

  class NewsListPage {
    var news: seq<NewsRow>
    var totalRows: int
    var page: int
    var perPage: int
    var loading: bool
    var search: string
    /** The dependencies the effect last ran with; `None` before the first render. */
    var ranWith: Option<Deps>

    /** The initial `useState` values: page 1 of 10 rows, no search, effect not yet run. */
    constructor ()
      ensures news == [] && totalRows == 0 && !loading
      ensures page == 1 && perPage == 10 && search == "" && ranWith == None
    {
      news, totalRows, loading := [], 0, false;
      page, perPage, search := 1, 10, "";
      ranWith := None;
    }

    function CurrentDeps(): Deps
      reads this
    {
      Deps(page, perPage, search)
    }

    /**
     * `fetchNews(pageNumber = 1, pageSize = 10, searchValue = "")` up to the
     * request: a missing argument takes the fixed default, not the state.
     */
    method FetchNews(pageNumber: Option<int>, pageSize: Option<int>, searchValue: Option<string>) returns (req: Request)
      modifies this
      ensures loading
      ensures req == PageRequest(pageNumber.GetOr(1), pageSize.GetOr(10), searchValue.GetOr(""))
      ensures news == old(news) && totalRows == old(totalRows) && ranWith == old(ranWith)
      ensures page == old(page) && perPage == old(perPage) && search == old(search)
    {
      loading := true;
      req := PageRequest(pageNumber.GetOr(1), pageSize.GetOr(10), searchValue.GetOr(""));
    }

    /**
     * A `fetchNews` request settles with `reply`, whichever request it was:
     * a success replaces the rows and the row count, a failure keeps both,
     * and the spinner stops either way.
     */
    method FetchSettled(reply: Response<Reply<NewsRow>>)
      modifies this
      ensures !loading
      ensures reply.Ok? ==> news == RowsOf(reply.data) && totalRows == TotalRows(reply.data)
      ensures reply.Failed? ==> news == old(news) && totalRows == old(totalRows)
      ensures page == old(page) && perPage == old(perPage) && search == old(search) && ranWith == old(ranWith)
    {
      match reply {
        case Ok(body) =>
          news := RowsOf(body);
          totalRows := TotalRows(body);
        case Failed(_) =>
      }
      loading := false;
    }

    /**
     * The effect after a render: it fetches the page the state describes
     * exactly when a dependency differs from its last run (always on the
     * first render), and otherwise does nothing.
     */
    method RunEffect() returns (req: Option<Request>)
      modifies this
      ensures ranWith == Some(CurrentDeps())
      ensures req == EffectFetch(old(ranWith), old(CurrentDeps()))
      ensures req.Some? ==> loading
      ensures req.None? ==> loading == old(loading)
      ensures news == old(news) && totalRows == old(totalRows)
      ensures page == old(page) && perPage == old(perPage) && search == old(search)
    {
      if ranWith == Some(CurrentDeps()) {
        return None;
      }
      ranWith := Some(CurrentDeps());
      var r := FetchNews(Some(page), Some(perPage), Some(search));
      req := Some(r);
    }

    /** The pager moves to `newPage`. */
    method HandlePageChange(newPage: int)
      modifies this
      ensures page == newPage
      ensures news == old(news) && totalRows == old(totalRows) && loading == old(loading)
      ensures perPage == old(perPage) && search == old(search) && ranWith == old(ranWith)
    {
      page := newPage;
    }

    /** The page size changes together with the page the table reports. */
    method HandlePerRowsChange(newPerPage: int, newPage: int)
      modifies this
      ensures perPage == newPerPage && page == newPage
      ensures news == old(news) && totalRows == old(totalRows) && loading == old(loading)
      ensures search == old(search) && ranWith == old(ranWith)
    {
      perPage := newPerPage;
      page := newPage;
    }

    /** Typing in the search box: the search restarts from page 1. */
    method HandleSearchChange(value: string)
      modifies this
      ensures search == value && page == 1
      ensures news == old(news) && totalRows == old(totalRows) && loading == old(loading)
      ensures perPage == old(perPage) && ranWith == old(ranWith)
    {
      search := value;
      page := 1;
    }
  }
}
