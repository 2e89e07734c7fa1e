/**
 * The `useSkills` hook: every skill, ordered by category. Unlike the list
 * hooks of the experience page it never clears its error and keeps the
 * previous skills when a fetch fails.
 */
module UseSkills {
  import opened Js
  import opened Remote

  datatype Skill = Skill(
    id: string,
    name: string,
    category: string,
    level: Option<string>,
    createdAt: string,
    updatedAt: string)

  const DefaultErrorMessage := "An error occurred"

  /** `from('skills').select('*').order('category', { ascending: true })`. */
  const SkillsQuery := SelectAll("skills").(order := Some(OrderBy("category", Ascending)))

  datatype SkillsState = SkillsState(skills: seq<Skill>, loading: bool, error: Option<string>)

  const InitialSkillsState := SkillsState([], true, None)

  /** The state once a fetch settles; only `loading` was raised when it started. */
  function Settled(s: SkillsState, response: Response<Option<seq<Skill>>>): (r: SkillsState)
    ensures !r.loading
    ensures response.Ok? ==> r.skills == (if response.data.Some? then response.data.value else []) && r.error == s.error
    ensures response.Failed? ==> r.skills == s.skills && r.error == Some(ErrorText(response.message, DefaultErrorMessage))
  {
    match response
    case Ok(data) => s.(skills := if data.Some? then data.value else [], loading := false)
    case Failed(message) => s.(error := Some(ErrorText(message, DefaultErrorMessage)), loading := false)
  }

  /** Once set, the error outlives any number of later successful fetches. */
  lemma ErrorIsSticky(s: SkillsState, m: Option<string>, rows: Option<seq<Skill>>)
    ensures Settled(Settled(s, Failed(m)).(loading := true), Ok(rows)).error == Some(ErrorText(m, DefaultErrorMessage))
    ensures Settled(Settled(s, Failed(m)).(loading := true), Ok(rows)).skills == (if rows.Some? then rows.value else [])
  {
  }

  /** A failed refetch keeps showing the skills of the last successful one. */
  lemma FailureKeepsSkills(s: SkillsState, rows: seq<Skill>, m: Option<string>)
    ensures Settled(Settled(s, Ok(Some(rows))).(loading := true), Failed(m)).skills == rows
  {
  }

  class SkillsHook {
    var skills: seq<Skill>
    var loading: bool
    var error: Option<string>

    function State(): SkillsState
      reads this
    {
      SkillsState(skills, loading, error)
    }

    constructor ()
      ensures State() == InitialSkillsState
    {
      skills := [];
      loading := true;
      error := None;
    }

    /** `fetchSkills`, run on mount and as `refetch`. */
    method FetchSkills(response: Response<Option<seq<Skill>>>) returns (q: Query)
      modifies this
      ensures q == SkillsQuery
      ensures State() == Settled(old(State()).(loading := true), response)
    {
      loading := true;
      q := SkillsQuery;
      match response {
        case Ok(data) =>
          skills := if data.Some? then data.value else [];
        case Failed(message) =>
          error := Some(ErrorText(message, DefaultErrorMessage));
      }
      loading := false;
    }
  }
}
