/**
 * The Contact page: the controlled form record and its reset after a
 * successful submission, the optional contact cards and social links built
 * from the personal record, the digits-only phone link, and the services list.
 */
module ContactPage {
  import opened Js
  import opened Seqs
  import opened Remote
  import opened UsePersonalInfo
  import opened UseContactForm

  // ---------------------------------------------------------------------
  // The form record
  // ---------------------------------------------------------------------

  /** The `name` attribute of the input that fired a change. */
  datatype Field = NameField | EmailField | SubjectField | MessageField

  function Get(form: ContactForm, field: Field): string {
    match field
    case NameField => form.name
    case EmailField => form.email
    case SubjectField => form.subject
    case MessageField => form.message
  }

  /** `{ ...prev, [name]: value }`: only the named field changes. */
  function Update(form: ContactForm, field: Field, value: string): (r: ContactForm)
    ensures Get(r, field) == value
    ensures forall other :: other != field ==> Get(r, other) == Get(form, other)
  {
    match field
    case NameField => form.(name := value)
    case EmailField => form.(email := value)
    case SubjectField => form.(subject := value)
    case MessageField => form.(message := value)
  }

  /** A record is determined by its four fields. */
  lemma FieldsDetermineForm(a: ContactForm, b: ContactForm)
    requires forall f :: Get(a, f) == Get(b, f)
    ensures a == b
  {
    assert Get(a, NameField) == Get(b, NameField) && Get(a, EmailField) == Get(b, EmailField);
    assert Get(a, SubjectField) == Get(b, SubjectField) && Get(a, MessageField) == Get(b, MessageField);
  }

  /** A later change of the same field overwrites an earlier one; changes of different fields commute. */
  lemma UpdatesCompose(form: ContactForm, f: Field, g: Field, x: string, y: string)
    ensures Update(Update(form, f, x), f, y) == Update(form, f, y)
    ensures f != g ==> Update(Update(form, f, x), g, y) == Update(Update(form, g, y), f, x)
  {
    FieldsDetermineForm(Update(Update(form, f, x), f, y), Update(form, f, y));
    if f != g {
      FieldsDetermineForm(Update(Update(form, f, x), g, y), Update(Update(form, g, y), f, x));
    }
  }

  const EmptyForm := ContactForm("", "", "", "")

  class ContactPageState {
    var formData: ContactForm
    const submitter: ContactFormHook

    constructor (submitter: ContactFormHook)
      ensures formData == EmptyForm && this.submitter == submitter
    {
      formData := EmptyForm;
      this.submitter := submitter;
    }

    /** `handleInputChange`. */
    method HandleInputChange(field: Field, value: string)
      modifies this`formData
      ensures formData == Update(old(formData), field, value)
    {
      formData := Update(formData, field, value);
    }

    /** `handleSubmit`: submits the current record and clears it only when the submission succeeded. */
    method HandleSubmit(response: Response<()>) returns (result: SubmitResult, inserted: seq<ContactRow>)
      modifies this`formData, submitter
      ensures result == SubmitOutcome(old(formData), response)
      ensures inserted == if Validate(old(formData)).Accepted? then [Trimmed(old(formData))] else []
      ensures formData == if result.success then EmptyForm else old(formData)
      ensures !submitter.isSubmitting
      ensures submitter.isSubmitted == (old(submitter.isSubmitted) || result.success)
    {
      result, inserted := submitter.SubmitContactForm(formData, response);
      if result.success {
        formData := EmptyForm;
      }
    }
  }

  // ---------------------------------------------------------------------
  // Contact cards, social links, services
  // ---------------------------------------------------------------------

  function EmailOf(info: Option<PersonalInfo>): Option<string> {
    if info.Some? then info.value.email else None
  }

  function PhoneOf(info: Option<PersonalInfo>): Option<string> {
    if info.Some? then info.value.phone else None
  }

  function LocationOf(info: Option<PersonalInfo>): Option<string> {
    if info.Some? then info.value.location else None
  }

  /** `s.replace(/\D/g, '')`: every digit of `s`, each as often as it occurs there, in order. */
  function DigitsOf(s: string): (r: string)
    ensures AllDigits(r) && IsSubsequence(r, s)
    ensures forall c :: multiset(r)[c] == if IsDigit(c) then multiset(s)[c] else 0
  {
    FilterIsSubsequence(s, IsDigit);
    forall c
      ensures multiset(Filter(s, IsDigit))[c] == if IsDigit(c) then multiset(s)[c] else 0
    {
      FilterMultiset(s, IsDigit, c);
    }
    Filter(s, IsDigit)
  }

  /** The phone card's link: 'tel:' and then only the digits of the number, in their order. */
  function PhoneHref(phone: string): (r: string)
    ensures |r| >= 4 && r[..4] == "tel:"
    ensures AllDigits(r[4..]) && IsSubsequence(r[4..], phone)
    ensures forall c :: c in r[4..] <==> c in phone && IsDigit(c)
    ensures forall c :: multiset(r[4..])[c] == if IsDigit(c) then multiset(phone)[c] else 0
  {
    var digits := DigitsOf(phone);
    assert ("tel:" + digits)[4..] == digits;
    "tel:" + digits
  }

  const MapsUrl := "https://maps.google.com"

  /** Which of the three contact cards an item is. */
  datatype ContactKind = EmailCard | PhoneCard | LocationCard

  /** The label the card shows. */
  function Caption(kind: ContactKind): string {
    match kind
    case EmailCard => "Email"
    case PhoneCard => "Phone"
    case LocationCard => "Location"
  }

  datatype ContactItem = ContactItem(kind: ContactKind, value: string, href: string)

  /** What a card must show: a non-empty value from the record and the link that belongs to its kind. */
  predicate CardFits(info: Option<PersonalInfo>, item: ContactItem) {
    item.value != "" &&
    match item.kind
    case EmailCard => EmailOf(info) == Some(item.value) && item.href == "mailto:" + item.value
    case PhoneCard => PhoneOf(info) == Some(item.value) && item.href == PhoneHref(item.value)
    case LocationCard => LocationOf(info) == Some(item.value) && item.href == MapsUrl
  }

  function EmailCards(info: Option<PersonalInfo>): (r: seq<ContactItem>)
    ensures |r| <= 1 && forall item :: item in r ==> CardFits(info, item)
  {
    if Truthy(EmailOf(info)) then [ContactItem(EmailCard, EmailOf(info).value, "mailto:" + EmailOf(info).value)] else []
  }

  function PhoneCards(info: Option<PersonalInfo>): (r: seq<ContactItem>)
    ensures |r| <= 1 && forall item :: item in r ==> CardFits(info, item)
  {
    if Truthy(PhoneOf(info)) then [ContactItem(PhoneCard, PhoneOf(info).value, PhoneHref(PhoneOf(info).value))] else []
  }

  function LocationCards(info: Option<PersonalInfo>): (r: seq<ContactItem>)
    ensures |r| <= 1 && forall item :: item in r ==> CardFits(info, item)
  {
    if Truthy(LocationOf(info)) then [ContactItem(LocationCard, LocationOf(info).value, MapsUrl)] else []
  }

  /** `contactInfo`: an Email, a Phone and a Location card, each only for a present, non-empty field. */
  function ContactInfo(info: Option<PersonalInfo>): (r: seq<ContactItem>)
    ensures |r| <= 3
    ensures forall item :: item in r ==> CardFits(info, item)
  {
    EmailCards(info) + PhoneCards(info) + LocationCards(info)
  }

  function Kinds(items: seq<ContactItem>): (r: seq<ContactKind>)
    ensures |r| == |items| && forall i :: 0 <= i < |items| ==> r[i] == items[i].kind
  {
    seq(|items|, i requires 0 <= i < |items| => items[i].kind)
  }

  lemma KindsAppend(a: seq<ContactItem>, b: seq<ContactItem>)
    ensures Kinds(a + b) == Kinds(a) + Kinds(b)
  {
  }

  const ContactOrder := [EmailCard, PhoneCard, LocationCard]

  /** Whether the record has a non-empty value for a card. */
  function ContactShown(info: Option<PersonalInfo>): ContactKind -> bool {
    (kind: ContactKind) =>
      match kind
      case EmailCard => Truthy(EmailOf(info))
      case PhoneCard => Truthy(PhoneOf(info))
      case LocationCard => Truthy(LocationOf(info))
  }

  lemma EmailCardsKinds(info: Option<PersonalInfo>)
    ensures Kinds(EmailCards(info)) == if Truthy(EmailOf(info)) then [EmailCard] else []
  {
  }

  lemma PhoneCardsKinds(info: Option<PersonalInfo>)
    ensures Kinds(PhoneCards(info)) == if Truthy(PhoneOf(info)) then [PhoneCard] else []
  {
  }

  lemma LocationCardsKinds(info: Option<PersonalInfo>)
    ensures Kinds(LocationCards(info)) == if Truthy(LocationOf(info)) then [LocationCard] else []
  {
  }

  /** The card kinds of a record, written out one card at a time. */
  function ShownKinds(info: Option<PersonalInfo>): seq<ContactKind> {
    (if Truthy(EmailOf(info)) then [EmailCard] else [])
    + (if Truthy(PhoneOf(info)) then [PhoneCard] else [])
    + (if Truthy(LocationOf(info)) then [LocationCard] else [])
  }

  lemma ContactShownApplied(info: Option<PersonalInfo>)
    ensures ContactShown(info)(EmailCard) == Truthy(EmailOf(info))
    ensures ContactShown(info)(PhoneCard) == Truthy(PhoneOf(info))
    ensures ContactShown(info)(LocationCard) == Truthy(LocationOf(info))
  {
  }

  lemma ContactOrderFiltered(info: Option<PersonalInfo>)
    ensures Filter(ContactOrder, ContactShown(info)) == ShownKinds(info)
  {
    var keep := ContactShown(info);
    assert ContactOrder == [EmailCard] + ([PhoneCard] + [LocationCard]);
    FilterCons(EmailCard, [PhoneCard] + [LocationCard], keep);
    FilterCons(PhoneCard, [LocationCard], keep);
    FilterCons(LocationCard, [], keep);
    ContactShownApplied(info);
  }

  lemma ContactInfoKinds(info: Option<PersonalInfo>)
    ensures Kinds(ContactInfo(info)) == ShownKinds(info)
  {
    KindsAppend(EmailCards(info), PhoneCards(info));
    KindsAppend(EmailCards(info) + PhoneCards(info), LocationCards(info));
    EmailCardsKinds(info);
    PhoneCardsKinds(info);
    LocationCardsKinds(info);
  }

  /** The cards are Email, Phone, Location in that order, less those whose field is missing or empty. */
  lemma ContactInfoOrder(info: Option<PersonalInfo>)
    ensures Kinds(ContactInfo(info)) == Filter(ContactOrder, ContactShown(info))
  {
    ContactInfoKinds(info);
    ContactOrderFiltered(info);
  }

  /** `target=_blank` and `rel=noopener` are set for a link that starts with 'http'. */
  predicate OpensNewTab(href: string) {
    StartsWith(href, "http")
  }

  /** Of the cards, only the Location card opens in a new tab. */
  lemma OnlyLocationOpensNewTab(info: Option<PersonalInfo>)
    ensures forall item :: item in ContactInfo(info) ==> (OpensNewTab(item.href) <==> item.kind == LocationCard)
  {
    assert MapsUrl[..4] == "http";
    forall item | item in ContactInfo(info)
      ensures OpensNewTab(item.href) <==> item.kind == LocationCard
    {
      if item.kind == EmailCard {
        assert item.href[..4] == "mail";
      } else if item.kind == PhoneCard {
        assert item.href[..4] == "tel:";
      }
    }
  }

  /** The networks of the 'Let's Connect' card. */
  datatype Network = GitHub | LinkedIn | Twitter

  /** The name the link shows. */
  function NetworkName(network: Network): string {
    match network
    case GitHub => "GitHub"
    case LinkedIn => "LinkedIn"
    case Twitter => "Twitter"
  }

  datatype SocialLink = SocialLink(network: Network, url: string)

  function GithubOf(info: Option<PersonalInfo>): Option<string> {
    if info.Some? then info.value.githubUrl else None
  }

  function LinkedinOf(info: Option<PersonalInfo>): Option<string> {
    if info.Some? then info.value.linkedinUrl else None
  }

  function TwitterOf(info: Option<PersonalInfo>): Option<string> {
    if info.Some? then info.value.twitterUrl else None
  }

  /** What a link must carry: the record's non-empty URL for its network. */
  predicate LinkFits(info: Option<PersonalInfo>, link: SocialLink) {
    link.url != "" &&
    match link.network
    case GitHub => GithubOf(info) == Some(link.url)
    case LinkedIn => LinkedinOf(info) == Some(link.url)
    case Twitter => TwitterOf(info) == Some(link.url)
  }

  function GithubLinks(info: Option<PersonalInfo>): seq<SocialLink> {
    if Truthy(GithubOf(info)) then [SocialLink(GitHub, GithubOf(info).value)] else []
  }

  function LinkedinLinks(info: Option<PersonalInfo>): seq<SocialLink> {
    if Truthy(LinkedinOf(info)) then [SocialLink(LinkedIn, LinkedinOf(info).value)] else []
  }

  function TwitterLinks(info: Option<PersonalInfo>): seq<SocialLink> {
    if Truthy(TwitterOf(info)) then [SocialLink(Twitter, TwitterOf(info).value)] else []
  }

  /** `socialLinks`: GitHub, LinkedIn and Twitter, each only for a present, non-empty URL. */
  function SocialLinks(info: Option<PersonalInfo>): (r: seq<SocialLink>)
    ensures |r| <= 3
    ensures forall link :: link in r ==> LinkFits(info, link)
  {
    GithubLinks(info) + LinkedinLinks(info) + TwitterLinks(info)
  }

  function Networks(links: seq<SocialLink>): (r: seq<Network>)
    ensures |r| == |links| && forall i :: 0 <= i < |links| ==> r[i] == links[i].network
  {
    seq(|links|, i requires 0 <= i < |links| => links[i].network)
  }

  lemma NetworksAppend(a: seq<SocialLink>, b: seq<SocialLink>)
    ensures Networks(a + b) == Networks(a) + Networks(b)
  {
  }

  const SocialOrder := [GitHub, LinkedIn, Twitter]

  /** Whether the record has a non-empty URL for a network. */
  function SocialShown(info: Option<PersonalInfo>): Network -> bool {
    (network: Network) =>
      match network
      case GitHub => Truthy(GithubOf(info))
      case LinkedIn => Truthy(LinkedinOf(info))
      case Twitter => Truthy(TwitterOf(info))
  }

  /** The links are GitHub, LinkedIn, Twitter in that order, less those without a URL. */
  lemma SocialLinksOrder(info: Option<PersonalInfo>)
    ensures Networks(SocialLinks(info)) == Filter(SocialOrder, SocialShown(info))
  {
    var keep := SocialShown(info);
    NetworksAppend(GithubLinks(info), LinkedinLinks(info));
    NetworksAppend(GithubLinks(info) + LinkedinLinks(info), TwitterLinks(info));
    assert SocialOrder == [GitHub] + ([LinkedIn] + [Twitter]);
    FilterCons(GitHub, [LinkedIn] + [Twitter], keep);
    FilterCons(LinkedIn, [Twitter], keep);
    FilterCons(Twitter, [], keep);
  }

  /** Before the record loads there are neither cards nor links. */
  lemma NothingBeforeLoad()
    ensures ContactInfo(None) == [] && SocialLinks(None) == []
  {
  }

  /** `personalInfo?.services || []`. */
  function Services(info: Option<PersonalInfo>): (r: seq<Service>)
    ensures info.None? ==> r == []
  {
    if info.Some? then info.value.services else []
  }

  /** A row stored with null services lists none; otherwise its services are listed as stored. */
  lemma ServicesOfRow(row: PersonalInfoRow)
    ensures Services(Some(FromRow(row))) == (if row.services.Some? then row.services.value else [])
  {
  }
}
