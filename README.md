# Portfolio site core, modelled in Dafny

A model of the logic behind a personal portfolio web application written
in TypeScript and React. The application reads its content (projects,
blog posts, experience, education, certifications, skills and the owner's
personal record) from a hosted table service and writes contact messages
to it. The model covers the parts of that code that compute or change
state:

- the data hooks: `useProjects` with `useProjectById`, `useExperiences`,
  `useEducation`, `useCertifications`, `useSkills`, `usePersonalInfo` and
  `useContactForm`. Each is a class whose fields are the hook's state
  cells. Its methods are tied to pure transition functions (`Started`,
  `Settled`). A call to the table service becomes a `Remote.Query`
  description that the method returns, and a `Remote.Response` parameter
  holding the result: success with data, or failure with an optional
  message.
- the page logic:
  - the Projects and Blog list filters, the featured/regular split and
    the view, topic and tag-badge counts;
  - the Contact form record, its contact and social link lists and the
    phone link;
  - the About timeline, with its year extraction and stable
    newest-first sort;
  - the About skill grouping, written as the in-place `reduce` it is, and
    the skill sections;
  - initials, the Index fallbacks and its first twelve skills;
  - the typing animation shared by Index and Home;
  - the expandable cards of the Experience page;
  - the SEO title rule.

JavaScript semantics are written out where they matter, in module `Js`:
- `||` on strings;
- `trim` and the `\s` whitespace set;
- ASCII `toLowerCase`/`toUpperCase`;
- `includes`;
- `parseInt` on a leading run of digits.

Module `Seqs` holds `filter` and a stable descending sort with their
lemmas.

The contact form has no length limits on any field in the source. The
model follows the code: `UseContactForm.NoLengthBounds` shows a
one-letter name and one-letter subject and message being accepted.

## Model

| member | source | states |
|---|---|---|
| UseProjects.PageRange | src/hooks/useProjects.tsx:56-58 | The requested range for a page holds exactly `pageSize` rows. |
| UseProjects.PagesAreContiguous | src/hooks/useProjects.tsx:56-57 | Page p+1 starts on the row after page p ends, so the page ranges have no gaps and no overlaps. |
| UseProjects.RowOnExactlyOnePage | src/hooks/useProjects.tsx:56-58 | With a positive page size, row r lies in the range of page p if and only if p = r / pageSize + 1. |
| UseProjects.TotalPagesFor | src/hooks/useProjects.tsx:78 | The page count is the ceiling of totalCount / pageSize: the smallest r with (r-1)·pageSize < totalCount ≤ r·pageSize. |
| UseProjects.PageNonEmptyIff | src/hooks/useProjects.tsx:56-78 | A page's range starts inside the result set exactly when the page number is at most the page count. |
| UseProjects.ThirteenRowsAtSixPerPage | src/hooks/useProjects.tsx:56-78 | 13 rows at 6 per page make 3 pages, and page 3 holds only row 12. 0 rows make 0 pages. |
| UseProjects.PageQuery | src/hooks/useProjects.tsx:40-58 | The query orders newest first and asks for the exact count. It has a title/description search filter if and only if the search term is non-empty. It has a tag filter if and only if the tag is not 'all'. Its range is the page's range. |
| UseProjects.DefaultsAddNoFilter | src/hooks/useProjects.tsx:25-53 | With the default inputs '' and 'all', the query has neither filter. |
| UseProjects.BuildPageQuery | src/hooks/useProjects.tsx:40-58 | Reassigning the query builder step by step yields the query `PageQuery` describes. |
| UseProjects.Settled | src/hooks/useProjects.tsx:60-71 | After settling, loading is false. On success the projects and count become the returned rows and count (or [] and 0), the current page becomes the requested page, and the error is kept. On failure the error is set to the message (default 'An error occurred'), and the projects, count and page are kept. |
| UseProjects.ErrorSurvivesSuccess | src/hooks/useProjects.tsx:36-72 | A successful fetch never clears an earlier error. |
| UseProjects.RefetchIsIdempotent | src/hooks/useProjects.tsx:89 | Fetching the same page twice against the same response ends in the same state as fetching it once. |
| UseProjects.ProjectsHook.constructor | src/hooks/useProjects.tsx:25-34 | The hook starts with no projects, loading, no error, count 0 and page 1. |
| UseProjects.ProjectsHook.TotalPages | src/hooks/useProjects.tsx:78 | `totalPages` is the ceiling of the stored count over the page size. |
| UseProjects.ProjectsHook.StartFetch | src/hooks/useProjects.tsx:38-58 | The first step of a fetch sets loading and issues the page's query. |
| UseProjects.ProjectsHook.SettleFetch | src/hooks/useProjects.tsx:60-71 | After the await, the new state is `Settled` of the old state. |
| UseProjects.ProjectsHook.FetchProjects | src/hooks/useProjects.tsx:36-72 | A whole fetch issues the page's query and ends in `Settled` of the state with loading set. |
| UseProjects.ProjectsHook.Mount | src/hooks/useProjects.tsx:74-76 | The first render fetches page 1. |
| UseProjects.ProjectsHook.ChangeFilters | src/hooks/useProjects.tsx:74-76 | A change of search term or tag fetches page 1 with the new filters. Unchanged inputs fetch nothing. |
| UseProjects.ProjectsHook.SetCurrentPage | src/hooks/useProjects.tsx:88 | `setCurrentPage(p)` fetches page p. |
| UseProjects.ProjectsHook.Refetch | src/hooks/useProjects.tsx:89 | `refetch` fetches the current page again. |
| UseProjects.ByIdQuery | src/hooks/useProjects.tsx:101-106 | The single-project query selects one row of the projects table by id. |
| UseProjects.ProjectByIdHook.constructor | src/hooks/useProjects.tsx:94-96 | The hook starts with no project, loading and no error. |
| UseProjects.ProjectByIdHook.Load | src/hooks/useProjects.tsx:98-119 | An empty id issues no query and changes nothing. Otherwise the query for that id is issued and loading ends. On success the project is the returned row. On failure the error is the message, or 'Project not found'. |
| ProjectsPage.FilteredProjects | src/pages/Projects.tsx:91-96 | The list is no longer than the input, and every listed project matches the search and the tag. |
| ProjectsPage.FilteredMembership | src/pages/Projects.tsx:91-96 | A project is listed if and only if it is in the list, the lowered search term occurs in its lowered title or description, and the tag is 'all' or one of its tags. |
| ProjectsPage.FilteredKeepsOrder | src/pages/Projects.tsx:91 | The listed projects are a subsequence of all projects, in their original order. |
| ProjectsPage.FilteredIdempotent | src/pages/Projects.tsx:91-96 | Filtering the listed projects again changes nothing. |
| ProjectsPage.InitialInputsListAll | src/pages/Projects.tsx:10-11 | With the initial inputs ('' and 'all') every project is listed. |
| ProjectsPage.TagNarrowsAll | src/pages/Projects.tsx:94 | For a fixed search, the list for any tag is a subsequence of the list for 'all'. |
| ProjectsPage.SearchIgnoresCase | src/pages/Projects.tsx:92-93 | Two search terms that differ only in letter case list the same projects. |
| ProjectsPage.TagIsCaseSensitive | src/pages/Projects.tsx:94 | Tag matching is exact: 'react' does not select a project tagged 'React'. |
| ProjectsPage.NoResultsIff | src/pages/Projects.tsx:277-283 | The 'No projects found' message shows if and only if no project passes the filter. |
| BlogPage.TagHitIsSearchHit | src/pages/Blog.tsx:105-107 | A post matches the search when the lowered term occurs in any of its lowered tags. |
| BlogPage.FilteredPosts | src/pages/Blog.tsx:104-110 | The list is no longer than the input, and every listed post matches the search and the tag. |
| BlogPage.FeaturedPosts | src/pages/Blog.tsx:112 | Every featured post listed is marked featured, and there are no more of them than filtered posts. |
| BlogPage.RegularPosts | src/pages/Blog.tsx:113 | Every regular post listed is not marked featured, and there are no more of them than filtered posts. |
| BlogPage.FilteredMembership | src/pages/Blog.tsx:104-110 | A post is listed if and only if it matches the search in its title, excerpt or a tag, and the tag is 'all' or one of its tags. |
| BlogPage.FeaturedRegularPartition | src/pages/Blog.tsx:112-113 | Featured and regular posts split the filtered posts: each keeps their order, each filtered post is in exactly one of them, and the lengths add up. |
| BlogPage.TotalViews | src/pages/Blog.tsx:147 | When no post has negative views, the total is not negative. |
| BlogPage.TotalViewsCons | src/pages/Blog.tsx:147 | The total views of a list are the first post's views plus the total of the rest. |
| BlogPage.ViewsSplit | src/pages/Blog.tsx:112-147 | The views of the featured and the regular posts add up to the total views. |
| BlogPage.TagSet | src/pages/Blog.tsx:159 | The topic set holds exactly the tags that occur on some post. |
| BlogPage.TopicCount | src/pages/Blog.tsx:159 | The topic count is at most the number of tag occurrences. |
| BlogPage.TagSetBounded | src/pages/Blog.tsx:159 | There are no more distinct tags than tag occurrences across all posts. |
| BlogPage.CardTagBadges | src/pages/Blog.tsx:358-370 | A card shows the first min(3, n) tags, plus a '+(n-3)' badge if and only if n > 3, and shown plus hidden is n. |
| BlogPage.HeadingAndEmptyState | src/pages/Blog.tsx:301-394 | The 'All Articles' heading shows if and only if some filtered post is featured. The empty state shows if and only if both the featured and regular lists are empty. |
| UseContactForm.EmailShapeFacts | src/hooks/useContactForm.tsx:27-28 | An address of the accepted shape has no whitespace and exactly one '@', with text before it. |
| UseContactForm.PaddedEmailFails | src/hooks/useContactForm.tsx:27-28 | An address with a whitespace character before or after it never has the accepted shape. |
| UseContactForm.MatchesEmailPattern | src/hooks/useContactForm.tsx:27-28 | A one-pass matcher for `^[^\s@]+@[^\s@]+\.[^\s@]+$` answers true if and only if the address has the declarative shape. |
| UseContactForm.Validate | src/hooks/useContactForm.tsx:22-41 | The form is accepted if and only if no trimmed field is empty and the raw email has the shape. A blank field is reported before a bad email. An accepted form yields the row of the four trimmed fields. |
| UseContactForm.AcceptedEmailIsRaw | src/hooks/useContactForm.tsx:28-37 | For an accepted form the trimmed email is the email as typed, and the stored name, subject and message are non-empty. |
| UseContactForm.BlankBeatsBadEmail | src/hooks/useContactForm.tsx:22-30 | A whitespace-only subject gives 'Please fill in all required fields' whatever the email is. |
| UseContactForm.PaddedEmailRejected | src/hooks/useContactForm.tsx:28-37 | An otherwise valid form whose email starts with a space is rejected with 'Please enter a valid email address'. Trimming only happens after the test. |
| UseContactForm.NoLengthBounds | src/hooks/useContactForm.tsx:22-30 | A one-character name, subject and message, with any email of the required shape, are accepted. No field has a length limit. |
| UseContactForm.SubmitOutcome | src/hooks/useContactForm.tsx:43-65 | The call succeeds if and only if the form validates and the insert succeeds. A validation failure returns its message. An insert failure returns the service's message, or 'Failed to send message'. |
| UseContactForm.ContactFormHook.constructor | src/hooks/useContactForm.tsx:13-14 | The hook starts neither submitting nor submitted. |
| UseContactForm.ContactFormHook.StartSubmit | src/hooks/useContactForm.tsx:19-30 | Starting a submission runs the checks in order. It stays submitting only when they pass. |
| UseContactForm.ContactFormHook.FinishSubmit | src/hooks/useContactForm.tsx:32-68 | After the insert, the result is `SubmitOutcome`, submitting ends, and submitted is set on success. |
| UseContactForm.ContactFormHook.SubmitContactForm | src/hooks/useContactForm.tsx:17-69 | A submission inserts exactly one row (the trimmed fields) when the form validates and none otherwise. It returns `SubmitOutcome`, always ends not submitting, and sets submitted on success. |
| UseContactForm.ContactFormHook.SubmittedTimerFires | src/hooks/useContactForm.tsx:53 | When the reset timer fires, submitted is cleared. |
| UseExperience.OrderedSelect | src/hooks/useExperience.tsx:51-54 | Each list query selects the whole table in one requested order, with no filter, range or count. |
| UseExperience.Started | src/hooks/useExperience.tsx:49-50 | A fetch starts by setting loading and clearing the error, and keeps the data. |
| UseExperience.Settled | src/hooks/useExperience.tsx:56-63 | After settling, loading is false. Success stores the rows (or []). Failure sets the error (default 'An error occurred') and resets the data to []. |
| UseExperience.FetchForgetsEarlierState | src/hooks/useExperience.tsx:47-64 | The state after a fetch depends only on the response, not on the state before it. |
| UseExperience.ErrorIffFailed | src/hooks/useExperience.tsx:47-64 | After a fetch there is an error if and only if the call failed, and then the data is empty. |
| UseExperience.RefetchIsIdempotent | src/hooks/useExperience.tsx:70 | Refetching against the same response leaves the state as one fetch left it. |
| UseExperience.ListHook.constructor | src/hooks/useExperience.tsx:43-45 | A list hook starts empty, loading, with no error. |
| UseExperience.ListHook.StartFetch | src/hooks/useExperience.tsx:49-54 | The first step of a fetch is `Started` and issues the hook's query. |
| UseExperience.ListHook.SettleFetch | src/hooks/useExperience.tsx:56-63 | After the await, the state is `Settled` of the old state. |
| UseExperience.ListHook.Fetch | src/hooks/useExperience.tsx:47-64 | A whole fetch ends in `Settled(Started(old state))`. |
| UseExperience.MountExperiences | src/hooks/useExperience.tsx:42-71 | `useExperiences` fetches experiences by `order_index` ascending when mounted. |
| UseExperience.MountEducation | src/hooks/useExperience.tsx:73-102 | `useEducation` fetches education by `period` descending when mounted. |
| UseExperience.MountCertifications | src/hooks/useExperience.tsx:104-132 | `useCertifications` fetches certifications by `date` descending when mounted. |
| UseSkills.Settled | src/hooks/useSkills.tsx:25-32 | After settling, loading is false. Success stores the rows (or []) and keeps the error. Failure sets the error (default 'An error occurred') and keeps the skills. |
| UseSkills.ErrorIsSticky | src/hooks/useSkills.tsx:18-33 | After a failure, a later success replaces the skills but leaves the earlier error in place. |
| UseSkills.FailureKeepsSkills | src/hooks/useSkills.tsx:28-29 | A failure after a success leaves the fetched skills on screen. |
| UseSkills.SkillsHook.constructor | src/hooks/useSkills.tsx:14-16 | The hook starts with no skills, loading, with no error. |
| UseSkills.SkillsHook.FetchSkills | src/hooks/useSkills.tsx:18-39 | A fetch (also `refetch`) issues the query ordered by category ascending and ends in `Settled` of the state with loading set. |
| UsePersonalInfo.FromRow | src/hooks/usePersonalInfo.tsx:53-58 | Each of the record's seventeen fields equals the row's field of the same name, except that a null `services` becomes []. |
| UsePersonalInfo.Settled | src/hooks/usePersonalInfo.tsx:51-65 | After settling, loading is false. A returned row replaces the record. No row keeps it. Failure keeps it and sets the error (default 'Failed to fetch personal info'). |
| UsePersonalInfo.RecordChangesOnlyToARow | src/hooks/usePersonalInfo.tsx:53-58 | The record changes only when a row comes back, and a loaded record is never lost. |
| UsePersonalInfo.ErrorIffFailed | src/hooks/usePersonalInfo.tsx:42-62 | After a fetch there is an error if and only if the call failed. |
| UsePersonalInfo.PersonalInfoHook.constructor | src/hooks/usePersonalInfo.tsx:36-38 | The hook starts with no record, loading, with no error. |
| UsePersonalInfo.PersonalInfoHook.FetchPersonalInfo | src/hooks/usePersonalInfo.tsx:40-74 | A fetch (also `refetch`) issues the query for at most one row, clears the error, and ends in `Settled`. |
| ContactPage.Update | src/pages/Contact.tsx:44-49 | Changing a field sets that field and leaves the other three unchanged. |
| ContactPage.FieldsDetermineForm | src/pages/Contact.tsx:13-18 | Two forms with the same four fields are the same form. |
| ContactPage.UpdatesCompose | src/pages/Contact.tsx:44-49 | A second change of the same field overrides the first. Changes of different fields commute. |
| ContactPage.ContactPageState.constructor | src/pages/Contact.tsx:13-18 | The form starts as four empty strings. |
| ContactPage.ContactPageState.HandleInputChange | src/pages/Contact.tsx:44-49 | An input event updates only the named field of the form. |
| ContactPage.ContactPageState.HandleSubmit | src/pages/Contact.tsx:51-59 | Submitting passes the form to the hook. The form resets to empty if and only if the result is a success. |
| ContactPage.DigitsOf | src/pages/Contact.tsx:72 | The result is a subsequence of the text made only of digits. Each digit occurs in it exactly as often as in the text, and nothing else occurs. |
| ContactPage.PhoneHref | src/pages/Contact.tsx:72 | The phone link is 'tel:' followed by exactly the phone's digits, in order. The suffix is a subsequence of the phone, and each digit occurs in it as often as in the phone. |
| ContactPage.ContactInfo | src/pages/Contact.tsx:61-80 | Each listed contact item has a non-empty value taken from the record. The email links with 'mailto:', the phone with its tel link, and the location with the maps URL. |
| ContactPage.ContactInfoOrder | src/pages/Contact.tsx:61-80 | The items are Email, Phone, Location in that order, each present if and only if its field is non-empty. |
| ContactPage.OnlyLocationOpensNewTab | src/pages/Contact.tsx:140-141 | A contact card opens in a new tab (its href starts with 'http') if and only if it is the location. |
| ContactPage.SocialLinks | src/pages/Contact.tsx:82-101 | Each listed social link carries the record's non-empty URL for that network. |
| ContactPage.SocialLinksOrder | src/pages/Contact.tsx:82-101 | The links are GitHub, LinkedIn, Twitter in that order, each present if and only if its URL is set. |
| ContactPage.NothingBeforeLoad | src/pages/Contact.tsx:61-101 | Without a record there are no contact items and no social links. |
| ContactPage.Services | src/pages/Contact.tsx:103 | Without a record the services list is empty. |
| ContactPage.ServicesOfRow | src/pages/Contact.tsx:103 | For a loaded row, the page shows its services, or none when the row had none. |
| SeoHead.FullTitle | src/components/SEOHead.tsx:20 | The full title always contains 'Jatin Sharma' and starts with the given title. It equals the title if and only if the title already names the owner. Otherwise it is the title plus ' \| Jatin Sharma'. |
| SeoHead.FullTitleIdempotent | src/components/SEOHead.tsx:20 | Applying the title rule twice is the same as applying it once. |
| SeoHead.DefaultTitlePassesThrough | src/components/SEOHead.tsx:13-20 | The default title is kept as it is. |
| SeoHead.PlainTitleGainsSuffix | src/components/SEOHead.tsx:20 | 'Blog' becomes 'Blog \| Jatin Sharma'. |
| SeoHead.Head | src/components/SEOHead.tsx:12-46 | The document, Open Graph and Twitter titles are the same full title, and the descriptions, URLs and images are the same value each, each given value or its default. |
| SeoHead.TitlesNameOwner | src/components/SEOHead.tsx:20-44 | Every title tag names the owner. |
| SeoHead.NoTitleShowsDefault | src/components/SEOHead.tsx:13-25 | Without a title, the document title is the default title. |
| Words.Initials | src/pages/Index.tsx:17 | The initials are the upper-cased characters that start the name or follow a space, as the one-pass reading defines them. There is at most one per piece. |
| Words.Split | src/pages/Index.tsx:17 | `split(' ')` yields at least one piece, none containing a space, and joining the pieces with spaces gives back the text. |
| Words.HeadsAreWordStarts | src/pages/Index.tsx:17 | The initials from splitting and taking first characters are the non-space characters at the start of the text or after a space. |
| Words.InitialsBound | src/pages/Index.tsx:17 | There is at most one initial per space-separated piece. |
| Words.InitialsOfTwoWords | src/pages/Index.tsx:17 | A first and last name give their two first letters, upper-cased. |
| Typing.NextRole | src/pages/Index.tsx:36 | The next role index is the following index, wrapping to 0 after the last, and always in range. |
| Typing.NextRoleMoves | src/pages/Index.tsx:33-37 | With two or more roles the pause always selects a different role. |
| Typing.RoleAfterFirstRound | src/pages/Index.tsx:33-37 | In the first round, the k-th pause selects role k. |
| Typing.RoleAfterIsPeriodic | src/pages/Index.tsx:33-37 | After one pause per role the rotation is back where it started. |
| Typing.TypedFrames | src/pages/Index.tsx:28-32 | While one role is typed, the frames are its prefixes of length 0 through its full length. |
| Typing.TypingEffect.constructor | src/pages/Index.tsx:26-29 | The effect starts on role 0 with empty text, index 0 and the interval running. |
| Typing.TypingEffect.Tick | src/pages/Index.tsx:29-38 | A tick within the role shows the next prefix and advances the index. The tick after the whole role stops the interval and changes nothing else. |
| Typing.TypingEffect.Advance | src/pages/Index.tsx:33-42 | The pause moves to the next role cyclically. The effect runs again from index 0 only when the role index changed. |
| Typing.TypingEffect.TypeRole | src/pages/Index.tsx:28-38 | Running the interval to its end shows exactly the role's prefixes, shortest first, and leaves the whole role on screen. |
| Typing.TypingEffect.Play | src/pages/Index.tsx:26-42 | Over n rounds the roles shown are those the rotation selects in turn, and the effect is ready for the next round. |
| HomePage.Mount | src/pages/Home.tsx:8-11 | The Home effect starts on the first of its four fixed roles with empty text. |
| HomePage.HomeRolesCycle | src/pages/Home.tsx:20-22 | The Home roles are shown in order 0, 1, 2, 3 and then repeat. |
| IndexPage.RolesAsWritten | src/pages/Index.tsx:15 | As written, the default roles are used only without a record. A stored empty list is used as it is. |
| IndexPage.EmptyRolesBreakTyping | src/pages/Index.tsx:15-30 | A record whose roles are empty gives the typing effect no role at all. |
| IndexPage.RolesForTyping | src/pages/Index.tsx:15 | The corrected roles are never empty. They are the record's roles when it has some, and the defaults otherwise. |
| IndexPage.RolesCorrectionAgrees | src/pages/Index.tsx:15 | Wherever the page as written has roles, the correction gives the same roles. |
| IndexPage.FullName | src/pages/Index.tsx:16 | The name is never empty. It is the record's name when that is non-empty, and 'Jatin Sharma' when there is no record or its name is empty. |
| IndexPage.PageInitials | src/pages/Index.tsx:17 | The shown initials are the upper-cased characters of the shown name that start it or follow a space. They are "JS" when there is no record or its name is empty, and never more than one per space-separated piece of the name. |
| IndexPage.Description | src/pages/Index.tsx:18 | The description is never empty. It is the record's description when that is non-empty, and the fixed default text when there is no record or its description is empty. |
| IndexPage.Stats | src/pages/Index.tsx:19-24 | The default stats are used only without a record. |
| IndexPage.DisplayedSkills | src/pages/Index.tsx:44 | The page shows the names of the first min(12, n) skills, in order. |
| IndexPage.LaterSkillsHidden | src/pages/Index.tsx:44 | Skills past the twelfth never change what is shown. |
| IndexPage.ResumeHref | src/pages/Index.tsx:137 | The resume link is the record's URL when it is set and non-empty. Otherwise (no record, no URL, or an empty one) it is '/resume.pdf'. |
| IndexPage.PageTitle | src/pages/Index.tsx:49 | The title is the shown name, ' - ', then the record's tagline when non-empty, otherwise the default tagline. |
| IndexPage.OwnerTitleKeptAsIs | src/pages/Index.tsx:49 | When the name shown is the owner's, the head keeps the page title without a suffix. |
| IndexPage.Mount | src/pages/Index.tsx:26-28 | The Index effect starts on role 0 of the corrected roles with empty text. |
| ExperiencePage.Toggled | src/pages/Experience.tsx:28-36 | Toggling flips the membership of that card and leaves every other card's membership alone. |
| ExperiencePage.ToggleTwiceRestores | src/pages/Experience.tsx:28-36 | Toggling the same card twice restores the set. |
| ExperiencePage.TogglesCommute | src/pages/Experience.tsx:28-36 | Toggles of two cards give the same set in either order. |
| ExperiencePage.ButtonLabel | src/pages/Experience.tsx:280-293 | A card's button reads 'Show Less' if and only if the card is expanded (its details shown), and 'Show More Details' otherwise. |
| ExperiencePage.ToggleFlipsOneLabel | src/pages/Experience.tsx:28-36 | Pressing a card's button flips its label and leaves every other label alone. |
| ExperiencePage.ExperiencePageState.constructor | src/pages/Experience.tsx:8 | The expanded set starts as {0}. |
| ExperiencePage.ExperiencePageState.ToggleExpanded | src/pages/Experience.tsx:28-36 | The stored set becomes the toggled copy of the previous one. |
| ExperiencePage.InitialLabels | src/pages/Experience.tsx:280-290 | On first render only the first card reads 'Show Less'. |
| AboutPage.YearOf | src/pages/About.tsx:41-48 | The year contains no '-', and neither starts nor ends with whitespace. |
| AboutPage.YearOfIsTrimmedPrefix | src/pages/About.tsx:41-48 | For every period, the year is a slice of the text before the first '-', with only whitespace before it and only whitespace between it and that '-' (or the end). With YearOf's contract, this makes the year exactly `split('-')[0].trim()`. |
| AboutPage.BeforeFirst | src/pages/About.tsx:41-48 | The text before the first separator is a prefix without the separator, ending at the separator when there is one. |
| AboutPage.YearOfRange | src/pages/About.tsx:41-54 | For a period such as '2020 - Present', the year is '2020' and `parseInt` reads it as the number 2020. |
| AboutPage.StudyDescription | src/pages/About.tsx:51 | An education entry is described by its first achievement when that is non-empty, and by 'Studied at ' and the school otherwise. |
| AboutPage.StudyDescriptionNeverEmpty | src/pages/About.tsx:51 | An education entry always has a description. |
| AboutPage.Unsorted | src/pages/About.tsx:39-53 | Before sorting, the timeline is one work entry per experience followed by one education entry per education row, in order. |
| AboutPage.Timeline | src/pages/About.tsx:39-54 | The timeline is a permutation of the work and education entries, ordered by year, newest first. |
| AboutPage.TimelineNewestFirst | src/pages/About.tsx:54 | When every year reads as a number, an earlier timeline entry never has a smaller year than a later one. |
| AboutPage.TimelineHoldsEveryRow | src/pages/About.tsx:39-54 | Every experience and every education row appears in the timeline, which has exactly one entry per row. |
| AboutPage.TimelineHoldsNothingElse | src/pages/About.tsx:39-54 | Every timeline entry comes from an experience or an education row. |
| AboutPage.WorkBeforeStudyWithinAYear | src/pages/About.tsx:54 | The sort is stable: within one year, the work entries keep their order and come before the education entries, which keep theirs. |
| AboutPage.LevelOf | src/pages/About.tsx:64 | A skill's level is `parseInt` of its level text when that is set, and 80 otherwise. |
| AboutPage.Categories | src/pages/About.tsx:57-68 | The group keys list each category once, and every skill's category is among them. |
| AboutPage.CategoriesOccur | src/pages/About.tsx:57-68 | Every group key is the category of some skill. |
| AboutPage.GroupSkills | src/pages/About.tsx:57-68 | The in-place reduce builds one group per category, keyed in order of first appearance. Each group holds that category's skills in their original order. |
| AboutPage.EverySkillInOneGroup | src/pages/About.tsx:57-68 | The group sizes add up to the number of skills, and every skill is in its category's group. |
| AboutPage.IconFor | src/pages/About.tsx:73-75 | A section gets the palette icon if and only if its lowered category contains 'design', and the code icon otherwise. |
| AboutPage.DesignInAnyCaseGetsPalette | src/pages/About.tsx:73-75 | Any category containing 'design' in any letter case gets the palette icon. |
| AboutPage.DefaultIconsFollowRule | src/pages/About.tsx:78-109 | The fixed fallback sections carry the icons the rule would give them. |
| AboutPage.SkillSections | src/pages/About.tsx:70-109 | With no fetched skills the fixed Frontend/Backend/Design sections are shown. Otherwise there is one section per category, in key order, each holding that category's group. |
| AboutPage.AboutInitials | src/pages/About.tsx:181 | The avatar text is the name's initials, or 'AC' when there is no record or the initials are empty. |
| AboutPage.BlankNameShowsPlaceholder | src/pages/About.tsx:181 | A name made only of spaces shows 'AC'. |
| Js.TrimEmptyIff | src/hooks/useContactForm.tsx:22 | A field trims to empty if and only if it is all whitespace. |
| Js.ParseIntStopsAtNonDigit | src/pages/About.tsx:64 | `parseInt` reads the leading digits and ignores what follows the first non-digit. |
| Seqs.SortDescending | src/pages/About.tsx:54 | The result is a permutation of the input, sorted by key from largest to smallest. |
| Seqs.SortIsStable | src/pages/About.tsx:54 | The descending sort keeps the original order of entries with equal keys. |

## Left out

- The table service itself is left out: the server-side execution of search, containment, ordering and range, plus authentication and the network. A call is described by the query it would send, and its result is a parameter.
- Timers are modelled as steps only:
  - the 5-second reset of the submitted flag is the `SubmittedTimerFires` step;
  - the typing interval and the role pause are the `Tick` and `Advance` steps.
- Concurrency is not modelled: overlapping fetches that settle out of order, and state updates after unmount.
- Browser APIs are not modelled: `IntersectionObserver`, `requestAnimationFrame`, scrolling and `window.location`.
- Rendering is not modelled: JSX markup, the head-tag library, toasts, routing and providers.
- Logging is not modelled: the `console.error` calls in the hooks' failure paths, such as src/hooks/usePersonalInfo.tsx:62.
- The About page's combined `loading` flag (src/pages/About.tsx:18) is computed but never read by the page. It is not modelled.
- src/pages/Admin.tsx, src/pages/BlogPost.tsx and src/pages/ProjectDetail.tsx are static markup over mock data and are not part of this model.
- The blog's average read time uses floating-point division and rounding, and is not modelled.
- Case conversion is ASCII only. Unicode case folding is not modelled.
- The stats and services columns are JSON values cast to arrays. The model takes them as already well-typed sequences.
- AboutPage.GroupSkills keeps category keys in insertion order. `Object.keys` lists integer-like keys first, and that is not modelled.
- AboutPage.GroupSkills does not model a category named after an `Object.prototype` member, such as `constructor`. There the accumulator's lookup would find the inherited member and `push` would fail.
- AboutPage.GroupSkills creates a category's list and pushes its first skill in one step.
- AboutPage.Timeline sorts a year that `parseInt` cannot read as year 0. In the source the comparator then returns NaN, and the order is left to the engine. The newest-first property is stated for readable years in `TimelineNewestFirst`.
- UseProjects.TotalPagesFor and UseProjects.ProjectsHook.TotalPages require a positive page size. The source divides without checking.
- Page titles and descriptions passed to the head are left out, except the Index title. This includes the About page's title and description.
- IndexPage.Mount models the effect over the roles of the current render. The stale `roles` captured by the effect's closure is not modelled.
- The stat field `label` is named `caption`, because `label` is a reserved word in Dafny.

## Findings

| source | as written | input that shows it | evidently intended | confidence | as-written member | corrected member |
|---|---|---|---|---|---|---|
| src/pages/Index.tsx:15 | `personalInfo?.roles \|\| [...]` keeps a stored empty array, because an empty array is truthy | a personal record whose `roles` is `[]`: `roles[0]` is undefined, and reading its `length` in the typing effect (lines 27, 30) throws | fall back to the default roles whenever the record has none | not executed | IndexPage.EmptyRolesBreakTyping | IndexPage.RolesForTyping |
