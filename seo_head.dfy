/**
 * The `SEOHead` component's title rule: a page title that does not already
 * name the site owner gets ' | Jatin Sharma' appended, and that one full
 * title feeds the document title and the Open Graph and Twitter titles.
 */
module SeoHead {
  import opened Js

  const OwnerName := "Jatin Sharma"
  const TitleSuffix := " | Jatin Sharma"

  const DefaultTitle := "Jatin Sharma - Full Stack Developer & Designer"
  const DefaultDescription := "Passionate full stack developer with 5+ years of experience building scalable web applications. Specializing in React, Node.js, and modern web technologies."
  const DefaultImage := "/og-image.jpg"
  const DefaultUrl := "https://alexchen.dev"

  /** `fullTitle`. */
  function FullTitle(title: string): (r: string)
    ensures Includes(r, OwnerName)
    ensures |title| <= |r| && r[..|title|] == title
    ensures r == title <==> Includes(title, OwnerName)
    ensures r != title ==> r == title + TitleSuffix
  {
    if Includes(title, OwnerName) then title
    else
      assert title + TitleSuffix == (title + " | ") + OwnerName;
      IncludesSuffix(title + " | ", OwnerName, OwnerName);
      assert (title + TitleSuffix)[..|title|] == title;
      title + TitleSuffix
  }

  /** Applying the rule to a full title changes nothing. */
  lemma FullTitleIdempotent(title: string)
    ensures FullTitle(FullTitle(title)) == FullTitle(title)
  {
  }

  /** The default title already names the owner and passes through unchanged. */
  lemma DefaultTitlePassesThrough()
    ensures FullTitle(DefaultTitle) == DefaultTitle
  {
    assert forall i :: 0 <= i < |OwnerName| ==> DefaultTitle[i] == OwnerName[i];
    assert DefaultTitle[0..|OwnerName|] == OwnerName;
    assert OccursAt(DefaultTitle, OwnerName, 0);
  }

  /** A page title without the name, such as 'Blog', gains the suffix. */
  lemma PlainTitleGainsSuffix()
    ensures FullTitle("Blog") == "Blog | Jatin Sharma"
  {
    assert !Includes("Blog", OwnerName);
  }

  /** The props a page passes; an absent prop takes its default (an empty string is not absent). */
  datatype SeoProps = SeoProps(title: Option<string>, description: Option<string>, image: Option<string>, url: Option<string>)

  function OrDefault(s: Option<string>, d: string): string {
    if s.Some? then s.value else d
  }

  /** The title, description, URL and image values the head carries, by tag. */
  datatype HeadTags = HeadTags(
    documentTitle: string,
    ogTitle: string,
    twitterTitle: string,
    description: string,
    ogDescription: string,
    twitterDescription: string,
    canonical: string,
    ogUrl: string,
    twitterUrl: string,
    ogImage: string,
    twitterImage: string)

  function Head(props: SeoProps): (h: HeadTags)
    ensures h.documentTitle == h.ogTitle == h.twitterTitle == FullTitle(OrDefault(props.title, DefaultTitle))
    ensures h.description == h.ogDescription == h.twitterDescription == OrDefault(props.description, DefaultDescription)
    ensures h.canonical == h.ogUrl == h.twitterUrl == OrDefault(props.url, DefaultUrl)
    ensures h.ogImage == h.twitterImage == OrDefault(props.image, DefaultImage)
  {
    var fullTitle := FullTitle(OrDefault(props.title, DefaultTitle));
    var description := OrDefault(props.description, DefaultDescription);
    var url := OrDefault(props.url, DefaultUrl);
    var image := OrDefault(props.image, DefaultImage);
    HeadTags(fullTitle, fullTitle, fullTitle, description, description, description, url, url, url, image, image)
  }

  /** Every title tag names the owner, whatever the page passes. */
  lemma TitlesNameOwner(props: SeoProps)
    ensures Includes(Head(props).documentTitle, OwnerName)
    ensures Includes(Head(props).ogTitle, OwnerName) && Includes(Head(props).twitterTitle, OwnerName)
  {
  }

  /** A page that passes no title shows the default title as is. */
  lemma NoTitleShowsDefault(props: SeoProps)
    requires props.title.None?
    ensures Head(props).documentTitle == DefaultTitle
  {
    DefaultTitlePassesThrough();
  }
}
