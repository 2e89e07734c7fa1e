/**
 * The `useContactForm` hook: `submitContactForm` checks the four fields in a
 * fixed order, inserts one trimmed row into `contact_messages`, and keeps the
 * `isSubmitting` / `isSubmitted` flags.
 */
module UseContactForm {
  import opened Js
  import opened Remote

  datatype ContactForm = ContactForm(name: string, email: string, subject: string, message: string)

  /** The row inserted into `contact_messages`. */
  datatype ContactRow = ContactRow(name: string, email: string, subject: string, message: string)

  const FillFieldsMessage := "Please fill in all required fields"
  const InvalidEmailMessage := "Please enter a valid email address"
  const SendFailedMessage := "Failed to send message"

  // ---------------------------------------------------------------------
  // The email pattern /^[^\s@]+@[^\s@]+\.[^\s@]+$/
  // ---------------------------------------------------------------------

  /** `[^\s@]`: neither whitespace nor '@'. */
  predicate IsAddressChar(c: char) {
    !IsWhitespace(c) && c != '@'
  }

  predicate AllAddressChars(s: string) {
    forall i :: 0 <= i < |s| ==> IsAddressChar(s[i])
  }

  /** `[^\s@]+\.[^\s@]+`: address characters with a '.' that is neither first nor last. */
  predicate DomainShape(d: string) {
    AllAddressChars(d) && exists dot | 0 < dot < |d| - 1 :: d[dot] == '.'
  }

  /** The whole pattern: a non-empty local part, one '@', then a domain of that shape. */
  predicate EmailShape(s: string) {
    exists at | 0 < at < |s| :: s[at] == '@' && AllAddressChars(s[..at]) && DomainShape(s[at + 1..])
  }

  /** What the shape says about the address: no whitespace, exactly one '@', and that '@' is not first. */
  lemma EmailShapeFacts(s: string)
    requires EmailShape(s)
    ensures NoWhitespace(s)
    ensures exists at | 0 < at < |s| :: s[at] == '@' && forall k | 0 <= k < |s| && s[k] == '@' :: k == at
  {
    var at :| 0 < at < |s| && s[at] == '@' && AllAddressChars(s[..at]) && DomainShape(s[at + 1..]);
    forall k | 0 <= k < |s|
      ensures !IsWhitespace(s[k]) && (s[k] == '@' ==> k == at)
    {
      if k < at {
        assert s[k] == s[..at][k];
      } else if k > at {
        assert s[k] == s[at + 1..][k - at - 1];
      }
    }
  }

  /** The pattern is tested on the raw email, so leading or trailing whitespace makes it fail. */
  lemma PaddedEmailFails(s: string, c: char)
    requires IsWhitespace(c)
    ensures !EmailShape([c] + s) && !EmailShape(s + [c])
  {
    NoWhitespaceWhenShaped([c] + s, 0);
    NoWhitespaceWhenShaped(s + [c], |s|);
  }

  /**
   * A hand-written matcher for the pattern: one pass that rejects whitespace
   * and a second '@', remembers the '@' and the first '.' after the
   * character following it.
   */
  method MatchesEmailPattern(s: string) returns (ok: bool)
    ensures ok == EmailShape(s)
  {
    var at := -1;
    var dot := -1;
    var i := 0;
    while i < |s|
      invariant 0 <= i <= |s|
      invariant forall k :: 0 <= k < i ==> !IsWhitespace(s[k])
      invariant at == -1 ==> forall k :: 0 <= k < i ==> s[k] != '@'
      invariant at != -1 ==> 0 <= at < i && s[at] == '@' && forall k :: 0 <= k < i && k != at ==> s[k] != '@'
      invariant dot != -1 ==> at != -1 && at + 1 < dot < i && s[dot] == '.'
      invariant at != -1 ==> forall k :: at + 1 < k < i && (dot == -1 || k < dot) ==> s[k] != '.'
    {
      var c := s[i];
      if IsWhitespace(c) {
        NoWhitespaceWhenShaped(s, i);
        return false;
      }
      if c == '@' {
        if at != -1 {
          SingleAtWhenShaped(s, at, i);
          return false;
        }
        at := i;
      } else if c == '.' && at != -1 && i > at + 1 && dot == -1 {
        dot := i;
      }
      i := i + 1;
    }
    ok := 0 < at && dot != -1 && dot < |s| - 1;
    if ok {
      assert s[..at][..] == s[..at];
      assert forall k :: 0 <= k < at ==> s[..at][k] == s[k];
      var d := s[at + 1..];
      assert forall k :: 0 <= k < |d| ==> d[k] == s[at + 1 + k];
      assert d[dot - at - 1] == '.';
      assert DomainShape(d);
      assert EmailShape(s);
    } else if EmailShape(s) {
      assert false;
    }
  }

  lemma NoWhitespaceWhenShaped(s: string, i: int)
    requires 0 <= i < |s| && IsWhitespace(s[i])
    ensures !EmailShape(s)
  {
    if EmailShape(s) {
      EmailShapeFacts(s);
    }
  }

  lemma SingleAtWhenShaped(s: string, i: int, j: int)
    requires 0 <= i < j < |s| && s[i] == '@' && s[j] == '@'
    ensures !EmailShape(s)
  {
    if EmailShape(s) {
      EmailShapeFacts(s);
    }
  }

  // ---------------------------------------------------------------------
  // The checks of submitContactForm
  // ---------------------------------------------------------------------

  datatype Checked = Accepted(row: ContactRow) | Rejected(message: string)

  predicate SomeFieldBlank(form: ContactForm) {
    Trim(form.name) == "" || Trim(form.email) == "" || Trim(form.subject) == "" || Trim(form.message) == ""
  }

  function Trimmed(form: ContactForm): ContactRow {
    ContactRow(Trim(form.name), Trim(form.email), Trim(form.subject), Trim(form.message))
  }

  /** The two checks in the order the hook runs them; the first that fails decides the message. */
  function Validate(form: ContactForm): (r: Checked)
    ensures r.Accepted? <==> !SomeFieldBlank(form) && EmailShape(form.email)
    ensures r.Rejected? && SomeFieldBlank(form) ==> r.message == FillFieldsMessage
    ensures r.Rejected? && !SomeFieldBlank(form) ==> r.message == InvalidEmailMessage
    ensures r.Accepted? ==> r.row == Trimmed(form)
  {
    if SomeFieldBlank(form) then Rejected(FillFieldsMessage)
    else if !EmailShape(form.email) then Rejected(InvalidEmailMessage)
    else Accepted(Trimmed(form))
  }

  /** An accepted email contains no whitespace, so trimming leaves it as typed. */
  lemma AcceptedEmailIsRaw(form: ContactForm)
    requires Validate(form).Accepted?
    ensures Validate(form).row.email == form.email
    ensures Validate(form).row.name != "" && Validate(form).row.subject != "" && Validate(form).row.message != ""
  {
    EmailShapeFacts(form.email);
    TrimNoWhitespace(form.email);
  }

  /** A field of blanks is rejected as missing, whatever the email looks like. */
  lemma BlankBeatsBadEmail(form: ContactForm)
    requires AllWhitespace(form.subject)
    ensures Validate(form) == Rejected(FillFieldsMessage)
  {
    TrimEmptyIff(form.subject);
  }

  /** An email with a space in front fails the pattern even though it trims to a valid address. */
  lemma PaddedEmailRejected(form: ContactForm, e: string)
    requires form.email == [' '] + e
    requires Trim(form.name) != "" && Trim(form.subject) != "" && Trim(form.message) != "" && e != []
    requires !IsWhitespace(e[0])
    ensures Validate(form) == Rejected(InvalidEmailMessage)
  {
    PaddedEmailFails(e, ' ');
    TrimEmptyIff(form.email);
    assert form.email[1] == e[0];
  }

  /** No length rule exists: a one-character name, subject and message are accepted with any well-shaped email. */
  lemma NoLengthBounds(name: char, email: string, subject: char, message: char)
    requires !IsWhitespace(name) && !IsWhitespace(subject) && !IsWhitespace(message)
    requires EmailShape(email)
    ensures Validate(ContactForm([name], email, [subject], [message])).Accepted?
  {
    var form := ContactForm([name], email, [subject], [message]);
    TrimNoWhitespace([name]);
    TrimNoWhitespace([subject]);
    TrimNoWhitespace([message]);
    EmailShapeFacts(email);
    TrimNoWhitespace(email);
    assert !SomeFieldBlank(form);
  }

  // ---------------------------------------------------------------------
  // The hook
  // ---------------------------------------------------------------------

  datatype SubmitResult = SubmitResult(success: bool, error: Option<string>)

  /** What `submitContactForm` returns for `form` when the insert, if issued, ends with `response`. */
  function SubmitOutcome(form: ContactForm, response: Response<()>): (r: SubmitResult)
    ensures r.success <==> Validate(form).Accepted? && response.Ok?
    ensures r.success ==> r.error == None
    ensures !r.success && Validate(form).Rejected? ==> r.error == Some(Validate(form).message)
    ensures !r.success && Validate(form).Accepted? ==> r.error == Some(ErrorText(response.message, SendFailedMessage))
  {
    match Validate(form)
    case Rejected(m) => SubmitResult(false, Some(m))
    case Accepted(_) =>
      if response.Ok? then SubmitResult(true, None)
      else SubmitResult(false, Some(ErrorText(response.message, SendFailedMessage)))
  }

  class ContactFormHook {
    var isSubmitting: bool
    var isSubmitted: bool

    constructor ()
      ensures !isSubmitting && !isSubmitted
    {
      isSubmitting := false;
      isSubmitted := false;
    }

    /**
     * `submitContactForm` up to the await of the insert: the flag is raised,
     * the checks run, and a rejected form settles at once (its finally block).
     */
    method StartSubmit(form: ContactForm) returns (checked: Checked)
      modifies this`isSubmitting
      ensures checked == Validate(form)
      ensures isSubmitting <==> checked.Accepted?
    {
      isSubmitting := true;
      if Trim(form.name) == "" || Trim(form.email) == "" || Trim(form.subject) == "" || Trim(form.message) == "" {
        isSubmitting := false;
        return Rejected(FillFieldsMessage);
      }
      var emailOk := MatchesEmailPattern(form.email);
      if !emailOk {
        isSubmitting := false;
        return Rejected(InvalidEmailMessage);
      }
      checked := Accepted(ContactRow(Trim(form.name), Trim(form.email), Trim(form.subject), Trim(form.message)));
    }

    /** `submitContactForm` after the insert settles: success raises `isSubmitted`; the flag drops either way. */
    method FinishSubmit(form: ContactForm, response: Response<()>) returns (result: SubmitResult)
      requires Validate(form).Accepted?
      modifies this
      ensures result == SubmitOutcome(form, response)
      ensures !isSubmitting
      ensures isSubmitted == (old(isSubmitted) || response.Ok?)
    {
      match response {
        case Ok(_) =>
          isSubmitted := true;
          result := SubmitResult(true, None);
        case Failed(message) =>
          result := SubmitResult(false, Some(ErrorText(message, SendFailedMessage)));
      }
      isSubmitting := false;
    }

    /**
     * The whole call. `inserted` lists the rows handed to the insert: none
     * when a check fails, otherwise exactly the trimmed form.
     */
    method SubmitContactForm(form: ContactForm, response: Response<()>) returns (result: SubmitResult, inserted: seq<ContactRow>)
      modifies this
      ensures inserted == if Validate(form).Accepted? then [Trimmed(form)] else []
      ensures result == SubmitOutcome(form, response)
      ensures !isSubmitting
      ensures isSubmitted == (old(isSubmitted) || result.success)
    {
      var checked := StartSubmit(form);
      if checked.Rejected? {
        return SubmitResult(false, Some(checked.message)), [];
      }
      inserted := [checked.row];
      result := FinishSubmit(form, response);
    }

    /** The five-second timer after a success clears `isSubmitted`. */
    method SubmittedTimerFires()
      modifies this`isSubmitted
      ensures !isSubmitted
    {
      isSubmitted := false;
    }
  }
}
