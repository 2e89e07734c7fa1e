/**
 * The `useProjects` hook: one page of the `projects` table at a time, with a
 * free-text search, a single-tag filter and offset pagination, plus the
 * `useProjectById` hook that loads one project for a detail page.
 */
module UseProjects {
  import opened Js
  import opened Remote

  datatype Project = Project(
    id: string,
    title: string,
    description: string,
    imageUrl: Option<string>,
    tags: seq<string>,
    category: string,
    date: string,
    githubUrl: Option<string>,
    liveUrl: Option<string>,
    featured: bool,
    createdAt: string,
    updatedAt: string)

  /** What one page request yields; the client may return null for either part. */
  datatype PageData = PageData(rows: Option<seq<Project>>, count: Option<nat>)

  const DefaultErrorMessage := "An error occurred"
  const NotFoundMessage := "Project not found"

  /** The tag value meaning "no tag filter". */
  const AllTags := "all"

  // ---------------------------------------------------------------------
  // Pagination arithmetic
  // ---------------------------------------------------------------------

  /** The inclusive offsets requested for `page`, counted from 1. */
  function PageRange(page: int, pageSize: int): (r: Range)
    ensures r.to - r.from + 1 == pageSize
  {
    var from := (page - 1) * pageSize;
    Range(from, from + pageSize - 1)
  }

  predicate Covers(r: Range, row: int) {
    r.from <= row <= r.to
  }

  /** Page p + 1 starts right after page p ends: consecutive ranges neither overlap nor leave a gap. */
  lemma PagesAreContiguous(page: int, pageSize: int)
    ensures PageRange(page + 1, pageSize).from == PageRange(page, pageSize).to + 1
  {
    calc {
      PageRange(page + 1, pageSize).from;
      page * pageSize;
      (page - 1) * pageSize + pageSize;
    }
  }

  /** With a positive page size every row offset lies on exactly one page, namely `row / pageSize + 1`. */
  lemma RowOnExactlyOnePage(row: nat, page: int, pageSize: int)
    requires pageSize > 0 && page >= 1
    ensures Covers(PageRange(page, pageSize), row) <==> page == row / pageSize + 1
  {
    var q, m := row / pageSize, row % pageSize;
    assert row == q * pageSize + m && 0 <= m < pageSize;
    if page <= q {
      assert (page - 1) * pageSize + pageSize == page * pageSize <= q * pageSize;
    } else if page >= q + 2 {
      assert (page - 1) * pageSize >= (q + 1) * pageSize == q * pageSize + pageSize;
    } else {
      assert (page - 1) * pageSize == q * pageSize;
    }
  }

  /** `Math.ceil(totalCount / pageSize)`: the fewest pages that hold `totalCount` rows. */
  function TotalPagesFor(totalCount: nat, pageSize: int): (r: int)
    requires pageSize > 0
    ensures r >= 0
    ensures (r - 1) * pageSize < totalCount <= r * pageSize
  {
    var r := (totalCount + pageSize - 1) / pageSize;
    var m := (totalCount + pageSize - 1) % pageSize;
    assert r * pageSize + m == totalCount + pageSize - 1 && 0 <= m < pageSize;
    assert (r - 1) * pageSize == r * pageSize - pageSize;
    r
  }

  /** A page holds at least one of `totalCount` rows exactly when it is numbered 1 to totalPages. */
  lemma {:induction false} PageNonEmptyIff(totalCount: nat, pageSize: int, page: int)
    requires pageSize > 0 && page >= 1
    ensures PageRange(page, pageSize).from < totalCount <==> page <= TotalPagesFor(totalCount, pageSize)
  {
    var t := TotalPagesFor(totalCount, pageSize);
    if page <= t {
      assert (page - 1) * pageSize <= (t - 1) * pageSize;
    } else {
      assert (page - 1) * pageSize >= t * pageSize;
    }
  }

  /** 13 rows at 6 per page make 3 pages; page 3 asks for offsets 12..17, of which only 12 exists. */
  lemma ThirteenRowsAtSixPerPage()
    ensures TotalPagesFor(13, 6) == 3
    ensures PageRange(3, 6) == Range(12, 17)
    ensures forall row :: 0 <= row < 13 && Covers(PageRange(3, 6), row) ==> row == 12
    ensures TotalPagesFor(0, 6) == 0
  {
  }

  // ---------------------------------------------------------------------
  // The query a fetch issues
  // ---------------------------------------------------------------------

  /** The request `fetchProjects(page)` sends for the hook's current inputs. */
  function PageQuery(searchTerm: string, selectedTag: string, pageSize: int, page: int): (q: Query)
    ensures q.table == "projects" && q.countExact && q.order == Some(OrderBy("created_at", Descending))
    ensures q.titleOrDescriptionLike.Some? <==> searchTerm != ""
    ensures q.titleOrDescriptionLike.Some? ==> q.titleOrDescriptionLike.value == searchTerm
    ensures q.tagsContain.Some? <==> selectedTag != AllTags
    ensures q.tagsContain.Some? ==> q.tagsContain.value == selectedTag
    ensures q.range == Some(PageRange(page, pageSize))
    ensures q.idEquals == None && q.limit == None && q.cardinality == Many
  {
    SelectAll("projects").(
      countExact := true,
      order := Some(OrderBy("created_at", Descending)),
      titleOrDescriptionLike := if searchTerm != "" then Some(searchTerm) else None,
      tagsContain := if selectedTag != AllTags then Some(selectedTag) else None,
      range := Some(PageRange(page, pageSize)))
  }

  /** With the default inputs ('' and 'all') the request carries neither filter. */
  lemma DefaultsAddNoFilter(pageSize: int, page: int)
    ensures PageQuery("", AllTags, pageSize, page).titleOrDescriptionLike == None
    ensures PageQuery("", AllTags, pageSize, page).tagsContain == None
  {
  }

  /** Builds the request the way `fetchProjects` does, one builder step after another. */
  method BuildPageQuery(searchTerm: string, selectedTag: string, pageSize: int, page: int) returns (q: Query)
    ensures q == PageQuery(searchTerm, selectedTag, pageSize, page)
  {
    q := SelectAll("projects");
    q := q.(countExact := true);
    q := q.(order := Some(OrderBy("created_at", Descending)));
    if searchTerm != "" {
      q := q.(titleOrDescriptionLike := Some(searchTerm));
    }
    if selectedTag != AllTags {
      q := q.(tagsContain := Some(selectedTag));
    }
    var from := (page - 1) * pageSize;
    var to := from + pageSize - 1;
    q := q.(range := Some(Range(from, to)));
  }

  // ---------------------------------------------------------------------
  // The hook's state cells and how a settled request changes them
  // ---------------------------------------------------------------------

  datatype ProjectsState = ProjectsState(
    projects: seq<Project>,
    loading: bool,
    error: Option<string>,
    totalCount: nat,
    currentPage: int)

  const InitialProjectsState := ProjectsState([], true, None, 0, 1)

  function RowsOrEmpty(rows: Option<seq<Project>>): seq<Project> {
    if rows.Some? then rows.value else []
  }

  function CountOrZero(count: Option<nat>): nat {
    if count.Some? then count.value else 0
  }

  /** The state after the request for `page` settles with `response`. */
  function Settled(s: ProjectsState, page: int, response: Response<PageData>): (r: ProjectsState)
    ensures !r.loading
    ensures response.Ok? ==>
      r.projects == RowsOrEmpty(response.data.rows) && r.totalCount == CountOrZero(response.data.count)
      && r.currentPage == page && r.error == s.error
    ensures response.Failed? ==>
      r.error == Some(ErrorText(response.message, DefaultErrorMessage))
      && r.projects == s.projects && r.totalCount == s.totalCount && r.currentPage == s.currentPage
  {
    match response
    case Ok(data) =>
      s.(projects := RowsOrEmpty(data.rows), totalCount := CountOrZero(data.count), currentPage := page, loading := false)
    case Failed(message) =>
      s.(error := Some(ErrorText(message, DefaultErrorMessage)), loading := false)
  }

  /** A success never clears an earlier error: the error cell is only ever written by failures. */
  lemma ErrorSurvivesSuccess(s: ProjectsState, page: int, data: PageData)
    ensures Settled(s, page, Ok(data)).error == s.error
  {
  }

  /** Re-running the same request against an unchanged table ends in the same state. */
  lemma RefetchIsIdempotent(s: ProjectsState, page: int, response: Response<PageData>)
    ensures Settled(Settled(s, page, response).(loading := true), page, response) == Settled(s, page, response)
  {
  }

  class ProjectsHook {
    var searchTerm: string
    var selectedTag: string
    const pageSize: int

    var projects: seq<Project>
    var loading: bool
    var error: Option<string>
    var totalCount: nat
    var currentPage: int

    function State(): ProjectsState
      reads this
    {
      ProjectsState(projects, loading, error, totalCount, currentPage)
    }

    /** The hook's first render, with its default inputs '' / 'all' / 10. */
    constructor (searchTerm: string := "", selectedTag: string := "all", pageSize: int := 10)
      ensures this.searchTerm == searchTerm && this.selectedTag == selectedTag && this.pageSize == pageSize
      ensures State() == InitialProjectsState
    {
      this.searchTerm := searchTerm;
      this.selectedTag := selectedTag;
      this.pageSize := pageSize;
      projects := [];
      loading := true;
      error := None;
      totalCount := 0;
      currentPage := 1;
    }

    /** `Math.ceil(totalCount / pageSize)`; a non-positive page size is not handled by the hook. */
    function TotalPages(): (r: int)
      reads this
      requires pageSize > 0
      ensures r >= 0 && (r - 1) * pageSize < totalCount <= r * pageSize
    {
      TotalPagesFor(totalCount, pageSize)
    }

    /** `fetchProjects(page)` up to its await: loading is raised and the request is issued. */
    method StartFetch(page: int) returns (q: Query)
      modifies this`loading
      ensures loading
      ensures q == PageQuery(searchTerm, selectedTag, pageSize, page)
    {
      loading := true;
      q := BuildPageQuery(searchTerm, selectedTag, pageSize, page);
    }

    /** `fetchProjects(page)` after its await: the try, catch and finally blocks. */
    method SettleFetch(page: int, response: Response<PageData>)
      modifies this`projects, this`totalCount, this`currentPage, this`error, this`loading
      ensures State() == Settled(old(State()), page, response)
    {
      match response {
        case Ok(data) =>
          projects := RowsOrEmpty(data.rows);
          totalCount := CountOrZero(data.count);
          currentPage := page;
        case Failed(message) =>
          error := Some(ErrorText(message, DefaultErrorMessage));
      }
      loading := false;
    }

    /** The whole of `fetchProjects(page)`, the remote table answering with `response`. */
    method FetchProjects(page: int, response: Response<PageData>) returns (q: Query)
      modifies this`projects, this`totalCount, this`currentPage, this`error, this`loading
      ensures q == PageQuery(searchTerm, selectedTag, pageSize, page)
      ensures State() == Settled(old(State()).(loading := true), page, response)
    {
      q := StartFetch(page);
      SettleFetch(page, response);
    }

    /** The effect on first render fetches page 1. */
    method Mount(response: Response<PageData>) returns (q: Query)
      modifies this`projects, this`totalCount, this`currentPage, this`error, this`loading
      ensures q == PageQuery(searchTerm, selectedTag, pageSize, 1)
      ensures State() == Settled(old(State()).(loading := true), 1, response)
    {
      q := FetchProjects(1, response);
    }

    /** New search or tag inputs: the effect re-runs, for page 1, only when one of them changed. */
    method ChangeFilters(newSearchTerm: string, newSelectedTag: string, response: Response<PageData>)
      returns (q: Option<Query>)
      modifies this
      ensures searchTerm == newSearchTerm && selectedTag == newSelectedTag
      ensures old(searchTerm) == newSearchTerm && old(selectedTag) == newSelectedTag ==>
        q == None && State() == old(State())
      ensures old(searchTerm) != newSearchTerm || old(selectedTag) != newSelectedTag ==>
        q == Some(PageQuery(newSearchTerm, newSelectedTag, pageSize, 1))
        && State() == Settled(old(State()).(loading := true), 1, response)
    {
      var changed := searchTerm != newSearchTerm || selectedTag != newSelectedTag;
      searchTerm := newSearchTerm;
      selectedTag := newSelectedTag;
      if changed {
        var issued := FetchProjects(1, response);
        q := Some(issued);
      } else {
        q := None;
      }
    }

    /** The returned `setCurrentPage(p)`: a fresh request for page p, not a local slice. */
    method SetCurrentPage(page: int, response: Response<PageData>) returns (q: Query)
      modifies this`projects, this`totalCount, this`currentPage, this`error, this`loading
      ensures q == PageQuery(searchTerm, selectedTag, pageSize, page)
      ensures State() == Settled(old(State()).(loading := true), page, response)
    {
      q := FetchProjects(page, response);
    }

    /** `refetch()`: the current page again. */
    method Refetch(response: Response<PageData>) returns (q: Query)
      modifies this`projects, this`totalCount, this`currentPage, this`error, this`loading
      ensures q == PageQuery(searchTerm, selectedTag, pageSize, old(currentPage))
      ensures State() == Settled(old(State()).(loading := true), old(currentPage), response)
    {
      q := FetchProjects(currentPage, response);
    }
  }

  // ---------------------------------------------------------------------
  // useProjectById
  // ---------------------------------------------------------------------

  /** `from('projects').select('*').eq('id', id).single()`. */
  function ByIdQuery(id: string): (q: Query)
    ensures q.table == "projects" && q.idEquals == Some(id) && q.cardinality == Single
  {
    SelectAll("projects").(idEquals := Some(id), cardinality := Single)
  }

  class ProjectByIdHook {
    var project: Option<Project>
    var loading: bool
    var error: Option<string>

    constructor ()
      ensures project == None && loading && error == None
    {
      project := None;
      loading := true;
      error := None;
    }

    /**
     * The effect for `id`: an empty id issues nothing and leaves `loading`
     * raised; otherwise the single row is requested and stored, or the error
     * recorded with the fallback 'Project not found'.
     */
    method Load(id: string, response: Response<Project>) returns (q: Option<Query>)
      modifies this
      ensures id == "" ==> q == None && project == old(project) && loading == old(loading) && error == old(error)
      ensures id != "" ==> q == Some(ByIdQuery(id)) && !loading
      ensures id != "" && response.Ok? ==> project == Some(response.data) && error == old(error)
      ensures id != "" && response.Failed? ==>
        project == old(project) && error == Some(ErrorText(response.message, NotFoundMessage))
    {
      if id != "" {
        loading := true;
        q := Some(ByIdQuery(id));
        match response {
          case Ok(row) =>
            project := Some(row);
          case Failed(message) =>
            error := Some(ErrorText(message, NotFoundMessage));
        }
        loading := false;
      } else {
        q := None;
      }
    }
  }
}
