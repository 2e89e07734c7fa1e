/**
 * The `useExperiences`, `useEducation` and `useCertifications` hooks. All
 * three share one shape: a list read whole from one table in one order, a
 * loading flag and an error message. A fetch clears the error before it
 * starts, and a failed fetch empties the list.
 */
module UseExperience {
  import opened Js
  import opened Remote

  datatype Experience = Experience(
    id: string,
    title: string,
    company: string,
    location: string,
    period: string,
    kind: string,
    description: string,
    achievements: seq<string>,
    technologies: seq<string>,
    responsibilities: seq<string>,
    orderIndex: int,
    createdAt: string,
    updatedAt: string)

  datatype Education = Education(
    id: string,
    degree: string,
    school: string,
    location: string,
    period: string,
    gpa: Option<string>,
    achievements: seq<string>,
    createdAt: string,
    updatedAt: string)

  datatype Certification = Certification(
    id: string,
    name: string,
    issuer: string,
    date: string,
    credentialId: Option<string>,
    createdAt: string,
    updatedAt: string)

  const DefaultErrorMessage := "An error occurred"

  /** `from(table).select('*').order(column, { ascending })`. */
  function OrderedSelect(table: string, column: string, direction: Direction): (q: Query)
    ensures q.table == table && q.order == Some(OrderBy(column, direction))
    ensures q.titleOrDescriptionLike == None && q.tagsContain == None && q.idEquals == None
    ensures q.range == None && q.limit == None && q.cardinality == Many && !q.countExact
  {
    SelectAll(table).(order := Some(OrderBy(column, direction)))
  }

  /** Experiences by `order_index`, lowest first. */
  const ExperiencesQuery := OrderedSelect("experiences", "order_index", Ascending)
  /** Education by `period`, compared as text, greatest first. */
  const EducationQuery := OrderedSelect("education", "period", Descending)
  /** Certifications by `date`, compared as text, greatest first. */
  const CertificationsQuery := OrderedSelect("certifications", "date", Descending)

  datatype ListState<T> = ListState(items: seq<T>, loading: bool, error: Option<string>)

  function InitialListState<T>(): ListState<T> {
    ListState([], true, None)
  }

  /** The state at the await: loading raised, error cleared, the old list still shown. */
  function Started<T>(s: ListState<T>): (r: ListState<T>)
    ensures r.loading && r.error == None && r.items == s.items
  {
    s.(loading := true, error := None)
  }

  /**
   * The state once the fetch settles: the rows (none when the client returns
   * null) and no error, or an empty list and the error message.
   */
  function Settled<T>(s: ListState<T>, response: Response<Option<seq<T>>>): (r: ListState<T>)
    ensures !r.loading
    ensures response.Ok? ==> r.items == (if response.data.Some? then response.data.value else []) && r.error == s.error
    ensures response.Failed? ==> r.items == [] && r.error == Some(ErrorText(response.message, DefaultErrorMessage))
  {
    match response
    case Ok(data) => s.(items := if data.Some? then data.value else [], loading := false)
    case Failed(message) => s.(items := [], error := Some(ErrorText(message, DefaultErrorMessage)), loading := false)
  }

  /** A whole fetch forgets the state it started from: the result depends on the response alone. */
  lemma FetchForgetsEarlierState<T>(s1: ListState<T>, s2: ListState<T>, response: Response<Option<seq<T>>>)
    ensures Settled(Started(s1), response) == Settled(Started(s2), response)
  {
  }

  /** After a whole fetch an error is shown exactly when that fetch failed, and then the list is empty. */
  lemma ErrorIffFailed<T>(s: ListState<T>, response: Response<Option<seq<T>>>)
    ensures Settled(Started(s), response).error.Some? <==> response.Failed?
    ensures Settled(Started(s), response).error.Some? ==> Settled(Started(s), response).items == []
  {
  }

  /** `refetch()` with an unchanged table reproduces the state. */
  lemma RefetchIsIdempotent<T>(s: ListState<T>, response: Response<Option<seq<T>>>)
    ensures Settled(Started(Settled(Started(s), response)), response) == Settled(Started(s), response)
  {
    FetchForgetsEarlierState(s, Settled(Started(s), response), response);
  }

  /** One of the three hooks, for the table and order `query` names. */
  class ListHook<T> {
    const query: Query
    var items: seq<T>
    var loading: bool
    var error: Option<string>

    function State(): ListState<T>
      reads this
    {
      ListState(items, loading, error)
    }

    constructor (query: Query)
      ensures this.query == query && State() == InitialListState()
    {
      this.query := query;
      items := [];
      loading := true;
      error := None;
    }

    method StartFetch() returns (q: Query)
      modifies this`loading, this`error
      ensures q == query && State() == Started(old(State()))
    {
      loading := true;
      error := None;
      q := query;
    }

    method SettleFetch(response: Response<Option<seq<T>>>)
      modifies this`items, this`loading, this`error
      ensures State() == Settled(old(State()), response)
    {
      match response {
        case Ok(data) =>
          items := if data.Some? then data.value else [];
        case Failed(message) =>
          error := Some(ErrorText(message, DefaultErrorMessage));
          items := [];
      }
      loading := false;
    }

    /** The fetch function, run on mount and as `refetch`. */
    method Fetch(response: Response<Option<seq<T>>>) returns (q: Query)
      modifies this`items, this`loading, this`error
      ensures q == query && State() == Settled(Started(old(State())), response)
    {
      q := StartFetch();
      SettleFetch(response);
    }
  }

  /** `useExperiences()` on mount. */
  method MountExperiences(response: Response<Option<seq<Experience>>>) returns (hook: ListHook<Experience>, q: Query)
    ensures fresh(hook) && hook.query == ExperiencesQuery && q == ExperiencesQuery
    ensures hook.State() == Settled(Started(InitialListState()), response)
  {
    hook := new ListHook(ExperiencesQuery);
    q := hook.Fetch(response);
  }

  /** `useEducation()` on mount. */
  method MountEducation(response: Response<Option<seq<Education>>>) returns (hook: ListHook<Education>, q: Query)
    ensures fresh(hook) && hook.query == EducationQuery && q == EducationQuery
    ensures hook.State() == Settled(Started(InitialListState()), response)
  {
    hook := new ListHook(EducationQuery);
    q := hook.Fetch(response);
  }

  /** `useCertifications()` on mount. */
  method MountCertifications(response: Response<Option<seq<Certification>>>) returns (hook: ListHook<Certification>, q: Query)
    ensures fresh(hook) && hook.query == CertificationsQuery && q == CertificationsQuery
    ensures hook.State() == Settled(Started(InitialListState()), response)
  {
    hook := new ListHook(CertificationsQuery);
    q := hook.Fetch(response);
  }
}
