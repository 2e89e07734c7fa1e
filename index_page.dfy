/**
 * The Index (landing) page: the fallbacks used while or when the personal
 * record lacks a value, the initials, the first twelve skill names, the
 * resume link, the page title, and the typing animation over the roles.
 */
module IndexPage {
  import opened Js
  import opened UsePersonalInfo
  import opened UseSkills
  import opened Typing
  import opened Words
  import SeoHead

  const DefaultRoles := ["Full Stack Developer", "UI/UX Designer", "Tech Lead", "Problem Solver"]
  const DefaultFullName := "Jatin Sharma"
  const DefaultDescription := "I craft digital experiences that blend beautiful design with robust functionality. Specializing in modern web technologies and passionate about creating solutions that make a difference."
  const DefaultStats := [
    Stat("Projects Completed", "50+"),
    Stat("Years Experience", "5+"),
    Stat("Technologies Mastered", "20+"),
    Stat("Happy Clients", "30+")]
  const DefaultTagline := "Full Stack Developer & Designer"
  const DefaultResumeHref := "/resume.pdf"
  const MaxDisplayedSkills := 12

  /**
   * `personalInfo?.roles || [...]` as written: an array is truthy even when
   * empty, so a record with no roles yields the empty list.
   */
  function RolesAsWritten(info: Option<PersonalInfo>): (r: seq<string>)
    ensures info.None? ==> r == DefaultRoles
    ensures info.Some? ==> r == info.value.roles
  {
    if info.Some? then info.value.roles else DefaultRoles
  }

  /**
   * A stored record with an empty roles list reaches the typing effect with
   * no role at all: `roles[0]` is undefined and reading its length throws.
   */
  lemma EmptyRolesBreakTyping(info: PersonalInfo)
    requires info.roles == []
    ensures |RolesAsWritten(Some(info))| == 0
  {
  }

  /** The roles with the evident intent kept: the defaults whenever the record has none to offer. */
  function RolesForTyping(info: Option<PersonalInfo>): (r: seq<string>)
    ensures |r| > 0
    ensures info.Some? && info.value.roles != [] ==> r == info.value.roles
    ensures info.None? || info.value.roles == [] ==> r == DefaultRoles
  {
    if info.Some? && info.value.roles != [] then info.value.roles else DefaultRoles
  }

  /** The correction changes nothing where the page as written works. */
  lemma RolesCorrectionAgrees(info: Option<PersonalInfo>)
    requires RolesAsWritten(info) != []
    ensures RolesForTyping(info) == RolesAsWritten(info)
  {
  }

  /** `personalInfo?.full_name || 'Jatin Sharma'`: absent and empty names both fall back. */
  function FullName(info: Option<PersonalInfo>): (r: string)
    ensures r != ""
    ensures info.Some? && info.value.fullName != "" ==> r == info.value.fullName
    ensures info.None? || info.value.fullName == "" ==> r == DefaultFullName
  {
    StringOr(if info.Some? then Some(info.value.fullName) else None, DefaultFullName)
  }

  /** A two-word name whose words start with 'J' and 'S' has the initials "JS". */
  lemma InitialsJS(first: string, last: string)
    requires first != [] && last != [] && ' ' !in first && ' ' !in last
    requires first[0] == 'J' && last[0] == 'S'
    ensures Initials(first + " " + last) == "JS"
  {
    InitialsOfTwoWords(first, last);
    var u := Upper([first[0], last[0]]);
    assert u[0] == 'J' && u[1] == 'S';
  }

  /** The fallback name's initials. */
  lemma DefaultInitials()
    ensures Initials(DefaultFullName) == "JS"
  {
    var first, last := "Jatin", "Sharma";
    assert DefaultFullName == first + " " + last;
    InitialsJS(first, last);
  }

  /** The initials of the shown name: "JS" until a record with a name arrives. */
  function PageInitials(info: Option<PersonalInfo>): (r: string)
    ensures r == Upper(WordStarts(FullName(info), true))
    ensures info.None? || info.value.fullName == "" ==> r == "JS"
    ensures |r| <= |Split(FullName(info))|
  {
    DefaultInitials();
    Initials(FullName(info))
  }

  function Description(info: Option<PersonalInfo>): (r: string)
    ensures r != ""
    ensures info.Some? && info.value.description != "" ==> r == info.value.description
    ensures info.None? || info.value.description == "" ==> r == DefaultDescription
  {
    StringOr(if info.Some? then Some(info.value.description) else None, DefaultDescription)
  }

  /** `personalInfo?.stats || [...]`: the defaults only without a record; a stored empty list stays empty. */
  function Stats(info: Option<PersonalInfo>): (r: seq<Stat>)
    ensures info.None? ==> r == DefaultStats
    ensures info.Some? ==> r == info.value.stats
  {
    if info.Some? then info.value.stats else DefaultStats
  }

  /** `fetchedSkills.slice(0, 12).map(s => s.name)`. */
  function DisplayedSkills(skills: seq<Skill>): (names: seq<string>)
    ensures |names| == if |skills| < MaxDisplayedSkills then |skills| else MaxDisplayedSkills
    ensures forall i :: 0 <= i < |names| ==> names[i] == skills[i].name
  {
    var shown := if |skills| < MaxDisplayedSkills then skills else skills[..MaxDisplayedSkills];
    seq(|shown|, i requires 0 <= i < |shown| => shown[i].name)
  }

  /** Adding skills past the twelfth changes nothing on the page. */
  lemma LaterSkillsHidden(skills: seq<Skill>, more: seq<Skill>)
    requires |skills| >= MaxDisplayedSkills
    ensures DisplayedSkills(skills + more) == DisplayedSkills(skills)
  {
  }

  /** `personalInfo?.resume_url || '/resume.pdf'`. */
  function ResumeHref(info: Option<PersonalInfo>): (r: string)
    ensures r == DefaultResumeHref || (info.Some? && info.value.resumeUrl == Some(r))
    ensures info.Some? && Truthy(info.value.resumeUrl) ==> r == info.value.resumeUrl.value
    ensures !(info.Some? && Truthy(info.value.resumeUrl)) ==> r == DefaultResumeHref
  {
    StringOr(if info.Some? then info.value.resumeUrl else None, DefaultResumeHref)
  }

  /** The title passed to the head: `${fullName} - ${tagline || default}`. */
  function PageTitle(info: Option<PersonalInfo>): (r: string)
    ensures |r| > |FullName(info)| + 3 && r[..|FullName(info)| + 3] == FullName(info) + " - "
    ensures info.Some? && info.value.tagline != "" ==> r[|FullName(info)| + 3..] == info.value.tagline
    ensures info.None? || info.value.tagline == "" ==> r[|FullName(info)| + 3..] == DefaultTagline
  {
    var name, tagline := FullName(info), StringOr(if info.Some? then Some(info.value.tagline) else None, DefaultTagline);
    assert (name + " - " + tagline)[..|name| + 3] == name + " - ";
    assert (name + " - " + tagline)[|name| + 3..] == tagline;
    name + " - " + tagline
  }

  /** A page title that starts with the owner's name gets no suffix from the head. */
  lemma OwnerTitleKeptAsIs(info: Option<PersonalInfo>)
    requires FullName(info) == SeoHead.OwnerName
    ensures SeoHead.FullTitle(PageTitle(info)) == PageTitle(info)
  {
    var t := PageTitle(info);
    assert t[0..|SeoHead.OwnerName|] == SeoHead.OwnerName;
    assert OccursAt(t, SeoHead.OwnerName, 0);
  }

  /** The effect on first render, over the corrected roles. */
  method Mount(info: Option<PersonalInfo>) returns (effect: TypingEffect)
    ensures fresh(effect) && effect.roles == RolesForTyping(info) && effect.Valid()
    ensures effect.currentRole == 0 && effect.typedText == "" && effect.typing
  {
    effect := new TypingEffect(RolesForTyping(info));
  }
}
