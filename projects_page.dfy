/**
 * The client-side filter of the Projects page: a case-insensitive search over
 * title and description combined with an exact tag match, where the tag
 * 'all' switches the tag condition off.
 */
module ProjectsPage {
  import opened Js
  import opened Seqs

  /** A project card as the page lists it. */
  datatype ProjectCard = ProjectCard(
    id: int,
    title: string,
    description: string,
    image: string,
    tags: seq<string>,
    category: string,
    date: string,
    github: string,
    live: string,
    featured: bool)

  const AllTags := "all"

  predicate MatchesSearch(p: ProjectCard, searchTerm: string) {
    Includes(Lower(p.title), Lower(searchTerm)) || Includes(Lower(p.description), Lower(searchTerm))
  }

  predicate MatchesTag(p: ProjectCard, selectedTag: string) {
    selectedTag == AllTags || selectedTag in p.tags
  }

  predicate Matches(p: ProjectCard, searchTerm: string, selectedTag: string) {
    MatchesSearch(p, searchTerm) && MatchesTag(p, selectedTag)
  }

  function Matcher(searchTerm: string, selectedTag: string): ProjectCard -> bool {
    p => Matches(p, searchTerm, selectedTag)
  }

  /** `filteredProjects`. */
  function FilteredProjects(projects: seq<ProjectCard>, searchTerm: string, selectedTag: string): (r: seq<ProjectCard>)
    ensures |r| <= |projects|
    ensures forall i :: 0 <= i < |r| ==> Matches(r[i], searchTerm, selectedTag)
  {
    Filter(projects, Matcher(searchTerm, selectedTag))
  }

  /** The "No projects found" message is rendered when the filtered list is empty. */
  predicate ShowsNoResults(projects: seq<ProjectCard>, searchTerm: string, selectedTag: string) {
    |FilteredProjects(projects, searchTerm, selectedTag)| == 0
  }

  /** A project is listed exactly when it is one of the page's projects and passes both conditions. */
  lemma FilteredMembership(projects: seq<ProjectCard>, searchTerm: string, selectedTag: string, p: ProjectCard)
    ensures p in FilteredProjects(projects, searchTerm, selectedTag) <==>
      p in projects && MatchesSearch(p, searchTerm) && (selectedTag == AllTags || selectedTag in p.tags)
  {
    FilterMembership(projects, Matcher(searchTerm, selectedTag), p);
  }

  /** The listed projects keep the page's order. */
  lemma FilteredKeepsOrder(projects: seq<ProjectCard>, searchTerm: string, selectedTag: string)
    ensures IsSubsequence(FilteredProjects(projects, searchTerm, selectedTag), projects)
  {
    FilterIsSubsequence(projects, Matcher(searchTerm, selectedTag));
  }

  /** Filtering the filtered list with the same inputs changes nothing. */
  lemma FilteredIdempotent(projects: seq<ProjectCard>, searchTerm: string, selectedTag: string)
    ensures FilteredProjects(FilteredProjects(projects, searchTerm, selectedTag), searchTerm, selectedTag)
            == FilteredProjects(projects, searchTerm, selectedTag)
  {
    FilterIdempotent(projects, Matcher(searchTerm, selectedTag));
  }

  /** With the initial inputs '' and 'all' every project is listed. */
  lemma InitialInputsListAll(projects: seq<ProjectCard>)
    ensures FilteredProjects(projects, "", AllTags) == projects
  {
    forall i | 0 <= i < |projects|
      ensures Matcher("", AllTags)(projects[i])
    {
      IncludesEmpty(Lower(projects[i].title));
    }
    FilterKeepsAll(projects, Matcher("", AllTags));
  }

  /** For a fixed search, choosing a tag can only narrow the 'all' list, keeping its order. */
  lemma TagNarrowsAll(projects: seq<ProjectCard>, searchTerm: string, selectedTag: string)
    ensures IsSubsequence(FilteredProjects(projects, searchTerm, selectedTag), FilteredProjects(projects, searchTerm, AllTags))
  {
    FilterMonotone(projects, Matcher(searchTerm, selectedTag), Matcher(searchTerm, AllTags));
  }

  /** The search ignores ASCII case: search terms equal up to case list the same projects. */
  lemma SearchIgnoresCase(projects: seq<ProjectCard>, s1: string, s2: string, selectedTag: string)
    requires Lower(s1) == Lower(s2)
    ensures FilteredProjects(projects, s1, selectedTag) == FilteredProjects(projects, s2, selectedTag)
  {
    FilterCongruent(projects, Matcher(s1, selectedTag), Matcher(s2, selectedTag));
  }

  /** The tag match is exact: 'react' does not select a project tagged 'React', although the search 'react' finds it. */
  lemma TagIsCaseSensitive()
    ensures var p := ProjectCard(1, "React app", "", "", ["React"], "", "", "", "", false);
      !Matches(p, "", "react") && Matches(p, "react", AllTags)
  {
    var p := ProjectCard(1, "React app", "", "", ["React"], "", "", "", "", false);
    assert Lower(p.title)[0..5] == "react";
    assert OccursAt(Lower(p.title), Lower("react"), 0);
    IncludesEmpty(Lower(p.title));
  }

  /** The empty-state message shows exactly when no project passes the filter. */
  lemma NoResultsIff(projects: seq<ProjectCard>, searchTerm: string, selectedTag: string)
    ensures ShowsNoResults(projects, searchTerm, selectedTag) <==>
      forall i :: 0 <= i < |projects| ==> !Matches(projects[i], searchTerm, selectedTag)
  {
    FilterEmptyIff(projects, Matcher(searchTerm, selectedTag));
  }
}
