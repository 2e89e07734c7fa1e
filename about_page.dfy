/**
 * The About page: the timeline that merges work experience and education,
 * newest year first; the skills grouped by category (or a fixed default
 * list when none are stored); and the initials shown without a profile
 * picture.
 */
module AboutPage {
  import opened Js
  import opened Seqs
  import opened Words
  import opened UseExperience
  import opened UseSkills
  import opened UsePersonalInfo

  // ---------------------------------------------------------------------
  // Timeline
  // ---------------------------------------------------------------------

  /** `s.split(sep)[0]`: the text before the first `sep`, or all of `s` when there is none. */
  function BeforeFirst(s: string, sep: char): (r: string)
    ensures |r| <= |s| && r == s[..|r|]
    ensures sep !in r
    ensures |r| < |s| ==> s[|r|] == sep
  {
    if s == [] || s[0] == sep then []
    else
      var t := BeforeFirst(s[1..], sep);
      assert [s[0]] + t == s[..1 + |t|];
      [s[0]] + t
  }

  /** `period.split('-')[0].trim()`: the start of a period such as "2020 - Present". */
  function YearOf(period: string): (r: string)
    ensures '-' !in r
    ensures r == [] || (!IsWhitespace(r[0]) && !IsWhitespace(r[|r| - 1]))
  {
    var b := BeforeFirst(period, '-');
    TrimIsMaximalSlice(b);
    TrimKeepsOut(b, '-');
    Trim(b)
  }

  /**
   * The year is a slice of the period that lies before its first '-', and
   * only whitespace separates it from the start of the period and from that
   * '-' (or the end of the period when it has none).
   */
  lemma YearOfIsTrimmedPrefix(period: string) returns (i: nat)
    ensures i + |YearOf(period)| <= |BeforeFirst(period, '-')|
    ensures YearOf(period) == period[i..i + |YearOf(period)|]
    ensures AllWhitespace(period[..i])
    ensures AllWhitespace(period[i + |YearOf(period)|..|BeforeFirst(period, '-')|])
  {
    var b := BeforeFirst(period, '-');
    assert b == period[..|b|];
    i := TrimOfPrefix(period, |b|);
  }

  /** The text before the first dash of "<start> -<rest>" is the start and the space after it. */
  lemma BeforeDash(start: string, rest: string)
    requires '-' !in start
    ensures BeforeFirst(start + " -" + rest, '-') == start + " "
  {
    var p := start + " -" + rest;
    var r := BeforeFirst(p, '-');
    assert p[|start|] == ' ' && p[|start| + 1] == '-';
    assert forall k :: 0 <= k <= |start| ==> p[k] != '-';
    assert |r| == |start| + 1;
    assert p[..|start| + 1] == start + " ";
  }

  /** Trimming a word followed by one space gives the word. */
  lemma TrimWordSpace(w: string)
    requires w != [] && NoWhitespace(w)
    ensures Trim(w + " ") == w
  {
    assert (w + " ")[0] == w[0];
    assert TrimStart(w + " ") == w + " ";
    assert (w + " ")[..|w|] == w;
    TrimNoWhitespace(w);
  }

  /** A period written as a run of digits, a space and a dash yields exactly those digits, which `parseInt` reads as a number. */
  lemma YearOfRange(start: string, rest: string)
    requires start != [] && AllDigits(start)
    ensures YearOf(start + " -" + rest) == start
    ensures ParseInt(YearOf(start + " -" + rest)) == Num(DecimalValue(start))
  {
    assert forall k :: 0 <= k < |start| ==> start[k] != '-' && !IsWhitespace(start[k]);
    BeforeDash(start, rest);
    TrimWordSpace(start);
    ParseIntOfDigits(start);
  }

  datatype EntryKind = Work | Study

  /** One row of the timeline. */
  datatype TimelineEntry = TimelineEntry(year: string, title: string, company: string, description: string, kind: EntryKind)

  function WorkEntry(exp: Experience): TimelineEntry {
    TimelineEntry(YearOf(exp.period), exp.title, exp.company, exp.description, Work)
  }

  /** `edu.achievements?.[0] || 'Studied at ' + school`. */
  function StudyDescription(edu: Education): (r: string)
    ensures edu.achievements != [] && edu.achievements[0] != "" ==> r == edu.achievements[0]
    ensures edu.achievements == [] || edu.achievements[0] == "" ==> r == "Studied at " + edu.school
  {
    StringOr(if edu.achievements != [] then Some(edu.achievements[0]) else None, "Studied at " + edu.school)
  }

  function StudyEntry(edu: Education): TimelineEntry {
    TimelineEntry(YearOf(edu.period), edu.degree, edu.school, StudyDescription(edu), Study)
  }

  /** A study row always has a description to show. */
  lemma StudyDescriptionNeverEmpty(edu: Education)
    ensures StudyEntry(edu).description != ""
  {
    assert |"Studied at " + edu.school| >= 11;
  }

  /** The work rows in fetch order followed by the study rows in fetch order. */
  function Unsorted(exps: seq<Experience>, edus: seq<Education>): (r: seq<TimelineEntry>)
    ensures |r| == |exps| + |edus|
    ensures r[..|exps|] == WorkEntries(exps) && r[|exps|..] == StudyEntries(edus)
  {
    WorkEntries(exps) + StudyEntries(edus)
  }

  function WorkEntries(exps: seq<Experience>): (r: seq<TimelineEntry>)
    ensures |r| == |exps| && forall i :: 0 <= i < |exps| ==> r[i] == WorkEntry(exps[i])
  {
    if exps == [] then [] else [WorkEntry(exps[0])] + WorkEntries(exps[1..])
  }

  function StudyEntries(edus: seq<Education>): (r: seq<TimelineEntry>)
    ensures |r| == |edus| && forall j :: 0 <= j < |edus| ==> r[j] == StudyEntry(edus[j])
  {
    if edus == [] then [] else [StudyEntry(edus[0])] + StudyEntries(edus[1..])
  }

  /** `parseInt(e.year)`, when it is a number. */
  predicate NumericYear(e: TimelineEntry) {
    ParseInt(e.year).Num?
  }

  predicate AllNumeric(s: seq<TimelineEntry>) {
    forall i :: 0 <= i < |s| ==> NumericYear(s[i])
  }

  /** The sort key: the year as `parseInt` reads it (only consulted on rows where that is a number). */
  function YearKey(e: TimelineEntry): int {
    match ParseInt(e.year)
    case Num(n) => n
    case NaN => 0
  }

  /** The rows of year `y`. */
  function InYear(y: int): TimelineEntry -> bool {
    HasKey(YearKey, y)
  }

  /**
   * The combined, sorted `experiences` list of the page. A year that
   * `parseInt` cannot read sorts as year 0 here; see `TimelineNewestFirst`
   * for the order on readable years.
   */
  function Timeline(exps: seq<Experience>, edus: seq<Education>): (r: seq<TimelineEntry>)
    ensures Descending(r, YearKey)
    ensures multiset(r) == multiset(WorkEntries(exps)) + multiset(StudyEntries(edus))
  {
    SortDescending(Unsorted(exps, edus), YearKey)
  }

  /** When every period starts with a number, an earlier row of the timeline never has a smaller year than a later one. */
  lemma TimelineNewestFirst(exps: seq<Experience>, edus: seq<Education>, i: int, j: int)
    requires AllNumeric(Unsorted(exps, edus))
    requires 0 <= i < j < |Timeline(exps, edus)|
    ensures ParseInt(Timeline(exps, edus)[i].year).Num? && ParseInt(Timeline(exps, edus)[j].year).Num?
    ensures ParseInt(Timeline(exps, edus)[i].year).n >= ParseInt(Timeline(exps, edus)[j].year).n
  {
    var r := Timeline(exps, edus);
    SortKeepsProperty(Unsorted(exps, edus), YearKey, NumericYear);
    assert NumericYear(r[i]) && NumericYear(r[j]);
    assert YearKey(r[i]) >= YearKey(r[j]);
  }

  /** Every fetched experience and every fetched education appears on the timeline. */
  lemma TimelineHoldsEveryRow(exps: seq<Experience>, edus: seq<Education>)
    ensures |Timeline(exps, edus)| == |exps| + |edus|
    ensures forall i :: 0 <= i < |exps| ==> WorkEntry(exps[i]) in Timeline(exps, edus)
    ensures forall j :: 0 <= j < |edus| ==> StudyEntry(edus[j]) in Timeline(exps, edus)
  {
    InBothHalves(Timeline(exps, edus), WorkEntries(exps), StudyEntries(edus));
  }

  /** Every row of the timeline comes from a fetched experience or a fetched education. */
  lemma TimelineHoldsNothingElse(exps: seq<Experience>, edus: seq<Education>, e: TimelineEntry)
    requires e in Timeline(exps, edus)
    ensures (exists i :: 0 <= i < |exps| && e == WorkEntry(exps[i])) || (exists j :: 0 <= j < |edus| && e == StudyEntry(edus[j]))
  {
    var work, study := WorkEntries(exps), StudyEntries(edus);
    FromEitherHalf(Timeline(exps, edus), work, study, e);
    if exists i :: 0 <= i < |work| && work[i] == e {
      var i :| 0 <= i < |work| && work[i] == e;
      assert e == WorkEntry(exps[i]);
    } else {
      var j :| 0 <= j < |study| && study[j] == e;
      assert e == StudyEntry(edus[j]);
    }
  }

  /** Within one year the work rows come first, then the study rows, each group in fetch order. */
  lemma WorkBeforeStudyWithinAYear(exps: seq<Experience>, edus: seq<Education>, y: int)
    ensures Filter(Timeline(exps, edus), InYear(y)) ==
      Filter(WorkEntries(exps), InYear(y)) + Filter(StudyEntries(edus), InYear(y))
  {
    SortIsStable(Unsorted(exps, edus), YearKey, y);
    FilterAppend(WorkEntries(exps), StudyEntries(edus), InYear(y));
  }

  // ---------------------------------------------------------------------
  // Skills by category
  // ---------------------------------------------------------------------

  /** `{ name, level }` as the page shows a skill. */
  datatype SkillItem = SkillItem(name: string, level: JsNumber)

  /** `skill.level ? parseInt(skill.level) : 80`. */
  function LevelOf(level: Option<string>): (r: JsNumber)
    ensures !Truthy(level) ==> r == Num(80)
    ensures Truthy(level) ==> r == ParseInt(level.value)
  {
    if Truthy(level) then ParseInt(level.value) else Num(80)
  }

  function ItemOf(skill: Skill): SkillItem {
    SkillItem(skill.name, LevelOf(skill.level))
  }

  function Items(skills: seq<Skill>): (r: seq<SkillItem>)
    ensures |r| == |skills| && forall i :: 0 <= i < |skills| ==> r[i] == ItemOf(skills[i])
  {
    seq(|skills|, i requires 0 <= i < |skills| => ItemOf(skills[i]))
  }

  function InCategory(c: string): Skill -> bool {
    (s: Skill) => s.category == c
  }

  /** The items of category `c`, in the order the skills were fetched. */
  function GroupOf(skills: seq<Skill>, c: string): seq<SkillItem> {
    Items(Filter(skills, InCategory(c)))
  }

  predicate Distinct(cats: seq<string>) {
    forall i, j :: 0 <= i < j < |cats| ==> cats[i] != cats[j]
  }

  /** The categories in order of first appearance: the key order of the object the reduce builds. */
  function Categories(skills: seq<Skill>): (cats: seq<string>)
    ensures Distinct(cats)
    ensures forall i :: 0 <= i < |skills| ==> skills[i].category in cats
  {
    if skills == [] then []
    else
      var front := skills[..|skills| - 1];
      var c := skills[|skills| - 1].category;
      var p := Categories(front);
      assert forall i :: 0 <= i < |front| ==> front[i] == skills[i];
      if c in p then p else p + [c]
  }

  /** Every key names the category of some skill. */
  lemma {:induction false} CategoriesOccur(skills: seq<Skill>, c: string)
    requires c in Categories(skills)
    ensures exists i :: 0 <= i < |skills| && skills[i].category == c
  {
    var front := skills[..|skills| - 1];
    if c in Categories(front) {
      CategoriesOccur(front, c);
      var i :| 0 <= i < |front| && front[i].category == c;
      assert skills[i] == front[i];
    }
  }

  /** One more skill adds its category at the end of the keys when it is new. */
  lemma CategoriesSnoc(skills: seq<Skill>, skill: Skill)
    ensures Categories(skills + [skill]) ==
      if skill.category in Categories(skills) then Categories(skills) else Categories(skills) + [skill.category]
  {
    assert (skills + [skill])[..|skills|] == skills;
  }

  /** Adding one skill at the end appends its item to its own category's group and to no other. */
  lemma GroupOfSnoc(skills: seq<Skill>, skill: Skill, c: string)
    ensures GroupOf(skills + [skill], c) == GroupOf(skills, c) + (if skill.category == c then [ItemOf(skill)] else [])
  {
    FilterAppend(skills, [skill], InCategory(c));
    FilterCons(skill, [], InCategory(c));
    assert [skill] + [] == [skill];
  }

  /** A category no skill has has an empty group. */
  lemma GroupOfAbsent(skills: seq<Skill>, c: string)
    requires c !in Categories(skills)
    ensures GroupOf(skills, c) == []
  {
    FilterEmptyIff(skills, InCategory(c));
  }

  /** `groups` and `keys` are the grouping of `skills`: one list per category, keys in first-appearance order. */
  ghost predicate Grouped(skills: seq<Skill>, groups: map<string, seq<SkillItem>>, keys: seq<string>) {
    && keys == Categories(skills)
    && (forall c :: c in groups <==> c in keys)
    && (forall c :: c in groups ==> groups[c] == GroupOf(skills, c))
  }

  /** One more skill of a known category appends its item to that category's list. */
  lemma GroupSnocKnown(seen: seq<Skill>, skill: Skill, groups: map<string, seq<SkillItem>>, keys: seq<string>)
    requires Grouped(seen, groups, keys) && skill.category in groups
    ensures Grouped(seen + [skill], groups[skill.category := groups[skill.category] + [ItemOf(skill)]], keys)
  {
    CategoriesSnoc(seen, skill);
    assert skill.category in Categories(seen);
    var after := groups[skill.category := groups[skill.category] + [ItemOf(skill)]];
    forall c | c in after
      ensures after[c] == GroupOf(seen + [skill], c)
    {
      GroupOfSnoc(seen, skill, c);
      if c == skill.category {
        assert after[c] == GroupOf(seen, c) + [ItemOf(skill)];
      } else {
        assert after[c] == GroupOf(seen, c);
      }
    }
  }

  /** One more skill of a new category creates that category's list and key. */
  lemma GroupSnocNew(seen: seq<Skill>, skill: Skill, groups: map<string, seq<SkillItem>>, keys: seq<string>)
    requires Grouped(seen, groups, keys) && skill.category !in groups
    ensures Grouped(seen + [skill], groups[skill.category := [ItemOf(skill)]], keys + [skill.category])
  {
    CategoriesSnoc(seen, skill);
    GroupOfAbsent(seen, skill.category);
    var after := groups[skill.category := [ItemOf(skill)]];
    forall c | c in after
      ensures after[c] == GroupOf(seen + [skill], c)
    {
      GroupOfSnoc(seen, skill, c);
    }
  }

  /** The same step, stated on the prefixes the loop walks through. */
  lemma GroupStep(skills: seq<Skill>, i: nat, groups: map<string, seq<SkillItem>>, keys: seq<string>)
    requires i < |skills| && Grouped(skills[..i], groups, keys)
    ensures skills[i].category in groups ==>
      Grouped(skills[..i + 1], groups[skills[i].category := groups[skills[i].category] + [ItemOf(skills[i])]], keys)
    ensures skills[i].category !in groups ==>
      Grouped(skills[..i + 1], groups[skills[i].category := [ItemOf(skills[i])]], keys + [skills[i].category])
  {
    PrefixSnoc(skills, i);
    if skills[i].category in groups {
      GroupSnocKnown(skills[..i], skills[i], groups, keys);
    } else {
      GroupSnocNew(skills[..i], skills[i], groups, keys);
    }
  }

  /**
   * The `reduce` over the fetched skills: the first skill of a category
   * creates its list, and each skill pushes its item onto its category's
   * list (the new list and the first push are one step here).
   */
  method GroupSkills(skills: seq<Skill>) returns (groups: map<string, seq<SkillItem>>, keys: seq<string>)
    ensures Grouped(skills, groups, keys)
  {
    groups := map[];
    keys := [];
    var i := 0;
    while i < |skills|
      invariant 0 <= i <= |skills|
      invariant Grouped(skills[..i], groups, keys)
    {
      var skill := skills[i];
      GroupStep(skills, i, groups, keys);
      if skill.category in groups {
        groups := groups[skill.category := groups[skill.category] + [ItemOf(skill)]];
      } else {
        groups := groups[skill.category := [ItemOf(skill)]];
        keys := keys + [skill.category];
      }
      i := i + 1;
    }
    assert skills[..i] == skills;
  }

  /** How often `c` occurs in `cats`. */
  function Count(cats: seq<string>, c: string): nat {
    if cats == [] then 0 else (if cats[0] == c then 1 else 0) + Count(cats[1..], c)
  }

  /** The total number of items over the groups named by `cats`. */
  function GroupSizes(skills: seq<Skill>, cats: seq<string>): nat {
    if cats == [] then 0 else |GroupOf(skills, cats[0])| + GroupSizes(skills, cats[1..])
  }

  lemma {:induction false} GroupSizesCons(x: Skill, rest: seq<Skill>, cats: seq<string>)
    ensures GroupSizes([x] + rest, cats) == GroupSizes(rest, cats) + Count(cats, x.category)
  {
    if cats != [] {
      GroupSizesCons(x, rest, cats[1..]);
      FilterCons(x, rest, InCategory(cats[0]));
    }
  }

  lemma {:induction false} CountInDistinct(cats: seq<string>, c: string)
    requires Distinct(cats) && c in cats
    ensures Count(cats, c) == 1
  {
    if cats[0] == c {
      CountAbsent(cats[1..], c);
    } else {
      CountInDistinct(cats[1..], c);
    }
  }

  lemma {:induction false} CountAbsent(cats: seq<string>, c: string)
    requires c !in cats
    ensures Count(cats, c) == 0
  {
    if cats != [] {
      CountAbsent(cats[1..], c);
    }
  }

  /** Groups over distinct categories that cover every skill hold each skill exactly once. */
  lemma {:induction false} GroupSizesCover(skills: seq<Skill>, cats: seq<string>)
    requires Distinct(cats)
    requires forall i :: 0 <= i < |skills| ==> skills[i].category in cats
    ensures GroupSizes(skills, cats) == |skills|
  {
    if skills == [] {
      EmptyGroupSizes(cats);
    } else {
      GroupSizesCover(skills[1..], cats);
      assert skills == [skills[0]] + skills[1..];
      GroupSizesCons(skills[0], skills[1..], cats);
      CountInDistinct(cats, skills[0].category);
    }
  }

  lemma {:induction false} EmptyGroupSizes(cats: seq<string>)
    ensures GroupSizes([], cats) == 0
  {
    if cats != [] {
      EmptyGroupSizes(cats[1..]);
    }
  }

  /**
   * The grouping loses and duplicates nothing: the groups' sizes add up to
   * the number of skills, and each skill's item is in its category's group.
   */
  lemma EverySkillInOneGroup(skills: seq<Skill>)
    ensures GroupSizes(skills, Categories(skills)) == |skills|
    ensures forall i :: 0 <= i < |skills| ==> ItemOf(skills[i]) in GroupOf(skills, skills[i].category)
  {
    GroupSizesCover(skills, Categories(skills));
    forall i | 0 <= i < |skills|
      ensures ItemOf(skills[i]) in GroupOf(skills, skills[i].category)
    {
      FilterMembership(skills, InCategory(skills[i].category), skills[i]);
      var f := Filter(skills, InCategory(skills[i].category));
      var k :| 0 <= k < |f| && f[k] == skills[i];
      assert GroupOf(skills, skills[i].category)[k] == ItemOf(skills[i]);
    }
  }

  datatype Icon = CodeIcon | PaletteIcon

  /** `category.toLowerCase().includes('design') ? Palette : Code`. */
  function IconFor(category: string): (icon: Icon)
    ensures icon == PaletteIcon <==> Includes(Lower(category), "design")
  {
    if Includes(Lower(category), "design") then PaletteIcon else CodeIcon
  }

  /** Any capitalisation of 'design' inside a category name selects the palette icon. */
  lemma DesignInAnyCaseGetsPalette(before: string, word: string, after: string)
    requires Lower(word) == "design"
    ensures IconFor(before + word + after) == PaletteIcon
  {
    var s := Lower(before + word + after);
    assert s[|before|..|before| + 6] == Lower(word);
    assert OccursAt(s, "design", |before|);
  }

  datatype SkillSection = SkillSection(category: string, icon: Icon, items: seq<SkillItem>)

  const DefaultSections := [
    SkillSection("Frontend", CodeIcon, [
      SkillItem("React/Next.js", Num(95)), SkillItem("TypeScript", Num(90)),
      SkillItem("Tailwind CSS", Num(95)), SkillItem("Vue.js", Num(80))]),
    SkillSection("Backend", CodeIcon, [
      SkillItem("Node.js", Num(90)), SkillItem("Python", Num(85)),
      SkillItem("PostgreSQL", Num(88)), SkillItem("GraphQL", Num(82))]),
    SkillSection("Design", PaletteIcon, [
      SkillItem("Figma", Num(90)), SkillItem("UI/UX Design", Num(85)),
      SkillItem("Prototyping", Num(88)), SkillItem("Design Systems", Num(92))])]

  /** `sub` cannot occur where its first character does not. */
  lemma NotIncludedByFirstChar(s: string, sub: string)
    requires sub != [] && |sub| <= |s|
    requires forall i :: 0 <= i <= |s| - |sub| ==> s[i] != sub[0]
    ensures !Includes(s, sub)
  {
    forall i | 0 <= i <= |s| - |sub|
      ensures !OccursAt(s, sub, i)
    {
      assert s[i..i + |sub|][0] == s[i];
    }
  }

  /** The fixed default sections carry the icons the category rule would give them. */
  lemma DefaultIconsFollowRule()
    ensures forall k :: 0 <= k < |DefaultSections| ==> DefaultSections[k].icon == IconFor(DefaultSections[k].category)
  {
    assert Lower("Frontend") == "frontend";
    assert Lower("Backend") == "backend";
    assert Lower("Design") == "design";
    NotIncludedByFirstChar("frontend", "design");
    NotIncludedByFirstChar("backend", "design");
    assert OccursAt("design", "design", 0);
  }

  /** The section of category `c`: its name, its icon and its items. */
  function Section(skills: seq<Skill>, c: string): SkillSection {
    SkillSection(c, IconFor(c), GroupOf(skills, c))
  }

  /** `Object.entries(skillsByCategory).map(...)`: one section per key, in key order. */
  function SectionsOf(groups: map<string, seq<SkillItem>>, keys: seq<string>): (r: seq<SkillSection>)
    requires forall k :: 0 <= k < |keys| ==> keys[k] in groups
    ensures |r| == |keys|
    ensures forall k :: 0 <= k < |keys| ==> r[k] == SkillSection(keys[k], IconFor(keys[k]), groups[keys[k]])
  {
    seq(|keys|, k requires 0 <= k < |keys| => SkillSection(keys[k], IconFor(keys[k]), groups[keys[k]]))
  }

  /**
   * The `skills` list the page renders: one section per category in key
   * order when any skill is stored, and the fixed defaults otherwise.
   */
  method SkillSections(fetched: seq<Skill>) returns (sections: seq<SkillSection>)
    ensures fetched == [] ==> sections == DefaultSections
    ensures fetched != [] ==> |sections| == |Categories(fetched)| > 0
    ensures fetched != [] ==> forall k :: 0 <= k < |sections| ==> sections[k] == Section(fetched, Categories(fetched)[k])
  {
    var groups: map<string, seq<SkillItem>> := map[];
    var keys: seq<string> := [];
    if |fetched| > 0 {
      groups, keys := GroupSkills(fetched);
      assert fetched[0].category in keys;
    }
    if |keys| > 0 {
      sections := SectionsOf(groups, keys);
    } else {
      sections := DefaultSections;
    }
  }

  // ---------------------------------------------------------------------
  // Initials
  // ---------------------------------------------------------------------

  /** `personalInfo?.full_name?.split(' ').map(n => n[0]).join('').toUpperCase() || 'AC'`. */
  function AboutInitials(info: Option<PersonalInfo>): (r: string)
    ensures r != ""
    ensures info.None? ==> r == "AC"
    ensures info.Some? ==> r == (if Initials(info.value.fullName) == "" then "AC" else Initials(info.value.fullName))
  {
    StringOr(if info.Some? then Some(Initials(info.value.fullName)) else None, "AC")
  }

  /** A scan over spaces alone finds no word start. */
  lemma {:induction false} NoWordStartsInSpaces(s: string, afterSpace: bool)
    requires forall k :: 0 <= k < |s| ==> s[k] == ' '
    ensures WordStarts(s, afterSpace) == ""
  {
    if s != [] {
      NoWordStartsInSpaces(s[1..], true);
    }
  }

  /** A stored name made only of spaces (or empty) shows the 'AC' placeholder. */
  lemma BlankNameShowsPlaceholder(info: PersonalInfo)
    requires forall k :: 0 <= k < |info.fullName| ==> info.fullName[k] == ' '
    ensures AboutInitials(Some(info)) == "AC"
  {
    HeadsAreWordStarts(info.fullName);
    NoWordStartsInSpaces(info.fullName, true);
  }
}
