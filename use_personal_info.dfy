/**
 * The `usePersonalInfo` hook: at most one row of `personal_info`. A fetch
 * that finds no row, or fails, leaves the record it already holds.
 */
module UsePersonalInfo {
  import opened Js
  import opened Remote

  /** A stat; `caption` is the stored `label` (a reserved word here). */
  datatype Stat = Stat(caption: string, value: string)

  datatype Service = Service(title: string, description: string, technologies: seq<string>)

  /** The stored row; `services` may be null in the table. */
  datatype PersonalInfoRow = PersonalInfoRow(
    id: string,
    fullName: string,
    tagline: string,
    description: string,
    profileImageUrl: Option<string>,
    resumeUrl: Option<string>,
    githubUrl: Option<string>,
    linkedinUrl: Option<string>,
    twitterUrl: Option<string>,
    email: Option<string>,
    phone: Option<string>,
    location: Option<string>,
    roles: seq<string>,
    stats: seq<Stat>,
    services: Option<seq<Service>>,
    createdAt: string,
    updatedAt: string)

  /** The record the hook exposes. */
  datatype PersonalInfo = PersonalInfo(
    id: string,
    fullName: string,
    tagline: string,
    description: string,
    profileImageUrl: Option<string>,
    resumeUrl: Option<string>,
    githubUrl: Option<string>,
    linkedinUrl: Option<string>,
    twitterUrl: Option<string>,
    email: Option<string>,
    phone: Option<string>,
    location: Option<string>,
    roles: seq<string>,
    stats: seq<Stat>,
    services: seq<Service>,
    createdAt: string,
    updatedAt: string)

  const DefaultErrorMessage := "Failed to fetch personal info"

  /** `from('personal_info').select('*').limit(1).maybeSingle()`. */
  const PersonalInfoQuery := SelectAll("personal_info").(limit := Some(1), cardinality := MaybeSingle)

  /** The row with a null `services` read as the empty list; every other field as stored. */
  function FromRow(row: PersonalInfoRow): (info: PersonalInfo)
    ensures row.services.Some? ==> info.services == row.services.value
    ensures row.services.None? ==> info.services == []
    ensures info.id == row.id && info.fullName == row.fullName && info.tagline == row.tagline
    ensures info.description == row.description && info.profileImageUrl == row.profileImageUrl
    ensures info.resumeUrl == row.resumeUrl && info.githubUrl == row.githubUrl
    ensures info.linkedinUrl == row.linkedinUrl && info.twitterUrl == row.twitterUrl
    ensures info.email == row.email && info.phone == row.phone && info.location == row.location
    ensures info.roles == row.roles && info.stats == row.stats
    ensures info.createdAt == row.createdAt && info.updatedAt == row.updatedAt
  {
    PersonalInfo(row.id, row.fullName, row.tagline, row.description, row.profileImageUrl, row.resumeUrl,
      row.githubUrl, row.linkedinUrl, row.twitterUrl, row.email, row.phone, row.location, row.roles,
      row.stats, if row.services.Some? then row.services.value else [], row.createdAt, row.updatedAt)
  }

  datatype InfoState = InfoState(info: Option<PersonalInfo>, loading: bool, error: Option<string>)

  const InitialInfoState := InfoState(None, true, None)

  /** The state once a fetch settles; the fetch started by raising `loading` and clearing `error`. */
  function Settled(s: InfoState, response: Response<Option<PersonalInfoRow>>): (r: InfoState)
    ensures !r.loading
    ensures response.Ok? && response.data.Some? ==> r.info == Some(FromRow(response.data.value)) && r.error == s.error
    ensures response.Ok? && response.data.None? ==> r.info == s.info && r.error == s.error
    ensures response.Failed? ==> r.info == s.info && r.error == Some(ErrorText(response.message, DefaultErrorMessage))
  {
    match response
    case Ok(data) =>
      if data.Some? then s.(info := Some(FromRow(data.value)), loading := false) else s.(loading := false)
    case Failed(message) => s.(error := Some(ErrorText(message, DefaultErrorMessage)), loading := false)
  }

  /** The record only ever changes to a freshly read row: neither a missing row nor a failure clears it. */
  lemma RecordChangesOnlyToARow(s: InfoState, response: Response<Option<PersonalInfoRow>>)
    ensures Settled(s, response).info != s.info ==>
      response.Ok? && response.data.Some? && Settled(s, response).info == Some(FromRow(response.data.value))
    ensures s.info.Some? ==> Settled(s, response).info.Some?
  {
  }

  /** After a whole fetch the error is shown exactly when that fetch failed. */
  lemma ErrorIffFailed(s: InfoState, response: Response<Option<PersonalInfoRow>>)
    ensures Settled(s.(loading := true, error := None), response).error.Some? <==> response.Failed?
  {
  }

  class PersonalInfoHook {
    var info: Option<PersonalInfo>
    var loading: bool
    var error: Option<string>

    function State(): InfoState
      reads this
    {
      InfoState(info, loading, error)
    }

    constructor ()
      ensures State() == InitialInfoState
    {
      info := None;
      loading := true;
      error := None;
    }

    /** `fetchPersonalInfo`, run on mount and by `refetch`. */
    method FetchPersonalInfo(response: Response<Option<PersonalInfoRow>>) returns (q: Query)
      modifies this
      ensures q == PersonalInfoQuery
      ensures State() == Settled(old(State()).(loading := true, error := None), response)
    {
      loading := true;
      error := None;
      q := PersonalInfoQuery;
      match response {
        case Ok(data) =>
          if data.Some? {
            info := Some(FromRow(data.value));
          }
        case Failed(message) =>
          error := Some(ErrorText(message, DefaultErrorMessage));
      }
      loading := false;
    }
  }
}
