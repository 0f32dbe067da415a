/** The create form (`ProjectForm`): a growable and shrinkable list of URL
    inputs that never drops below one entry, the text and switch inputs, and
    the insert that a submission sends. */
module CreateForm {
  import opened Js
  import opened Projects

  /** Message of the error raised when the service reports no signed-in user. */
  const NotAuthenticated := "Usuário não autenticado"

  /** The form's inputs other than the URL list. */
  datatype Fields = Fields(
    isSaas: bool,
    systemTitle: string,
    systemLocation: string,
    email: string,
    password: string,
    referralLink: string,
    wasReferred: bool,
    referralEmail: string,
    hasSupabase: bool,
    supabaseEmail: string,
    supabasePassword: string,
    supabaseProjeto: string,
    hasGithub: bool,
    githubUsername: string,
    githubPassword: string,
    notes: string)

  /** Every switch off and every text input empty, as the form opens. */
  const EmptyFields := Fields(false, "", "", "", "", "", false, "", false, "", "", "", false, "", "", "")

  /** The row inserted into the `projects` table. Only the columns behind a
      gate switch can be null. */
  datatype InsertRow = InsertRow(
    userId: string,
    isSaas: bool,
    systemTitle: string,
    urls: seq<string>,
    systemLocation: string,
    email: string,
    password: string,
    referralLink: string,
    wasReferred: bool,
    referralEmail: Option<string>,
    hasSupabase: bool,
    supabaseEmail: Option<string>,
    supabasePassword: Option<string>,
    supabaseProjeto: Option<string>,
    hasGithub: bool,
    githubUsername: Option<string>,
    githubPassword: Option<string>,
    notes: string)

  /** An entry with some non-whitespace character. */
  predicate NotBlank(u: string) {
    Trim(u) != []
  }

  /** The URL entries the insert writes: the entries that are not blank, in
      their original order and exactly as typed (they are not trimmed). */
  function SubmittedUrls(urls: seq<string>): (r: seq<string>)
    ensures |r| <= |urls|
    ensures forall u :: u in r <==> u in urls && !AllSpace(u)
  {
    Filter(NotBlank, urls)
  }

  /** A gated column: null when the gate is off, the typed text when it is on. */
  function Gate(on: bool, text: string): (r: Option<string>)
    ensures r == None <==> !on
    ensures on ==> r == Some(text)
  {
    if on then Some(text) else None
  }

  /** The insert payload built from the form state for user `userId`. */
  function BuildInsert(userId: string, f: Fields, urls: seq<string>): (r: InsertRow)
    ensures r.userId == userId && r.systemTitle == f.systemTitle && r.urls == SubmittedUrls(urls)
    ensures r.isSaas == f.isSaas && r.systemLocation == f.systemLocation && r.notes == f.notes
    ensures r.email == f.email && r.password == f.password && r.referralLink == f.referralLink
    ensures r.wasReferred == f.wasReferred && r.hasSupabase == f.hasSupabase && r.hasGithub == f.hasGithub
    ensures r.referralEmail == None <==> !f.wasReferred
    ensures !f.hasSupabase <==> r.supabaseEmail == r.supabasePassword == r.supabaseProjeto == None
    ensures !f.hasGithub <==> r.githubUsername == r.githubPassword == None
    ensures f.wasReferred ==> r.referralEmail == Some(f.referralEmail)
    ensures f.hasSupabase ==>
              && r.supabaseEmail == Some(f.supabaseEmail)
              && r.supabasePassword == Some(f.supabasePassword)
              && r.supabaseProjeto == Some(f.supabaseProjeto)
    ensures f.hasGithub ==> r.githubUsername == Some(f.githubUsername) && r.githubPassword == Some(f.githubPassword)
  {
    InsertRow(
      userId, f.isSaas, f.systemTitle, SubmittedUrls(urls), f.systemLocation, f.email, f.password,
      f.referralLink, f.wasReferred, Gate(f.wasReferred, f.referralEmail),
      f.hasSupabase, Gate(f.hasSupabase, f.supabaseEmail), Gate(f.hasSupabase, f.supabasePassword),
      Gate(f.hasSupabase, f.supabaseProjeto),
      f.hasGithub, Gate(f.hasGithub, f.githubUsername), Gate(f.hasGithub, f.githubPassword),
      f.notes)
  }

  /** One submission. `user` is the signed-in user's id the service returned
      (`None`: nobody is signed in) and `reply` the service's answer to the
      insert. Without a user nothing is inserted and the submission fails. */
  function Submit(f: Fields, urls: seq<string>, user: Option<string>, reply: WriteReply): (r: Submission<InsertRow>)
    ensures r.sent.Some? <==> user.Some?
    ensures user.None? ==> r.outcome == Failed(NotAuthenticated)
    ensures r.outcome == Saved <==> user.Some? && reply == WriteOk
    ensures user.Some? && reply.WriteErr? ==> r.outcome == Failed(reply.message)
    ensures r.sent.Some? ==> r.sent.value == BuildInsert(user.value, f, urls)
  {
    match user
    case None => Submission(None, Failed(NotAuthenticated))
    case Some(id) =>
      Submission(Some(BuildInsert(id, f, urls)), if reply.WriteOk? then Saved else Failed(reply.message))
  }

  /** `urls.filter((_, i) => i !== index)`: drops the entry at position
      `index`; an index outside the list drops nothing. */
  function WithoutIndex(s: seq<string>, index: int): (r: seq<string>)
    ensures 0 <= index < |s| ==> r == s[..index] + s[index + 1..]
    ensures !(0 <= index < |s|) ==> r == s
    decreases |s|
  {
    if s == [] then []
    else
      var rest := WithoutIndex(s[1..], index - 1);
      assert 0 < index < |s| ==> s[1..][..index - 1] == s[1..index] && s[1..][index..] == s[index + 1..];
      assert s == [s[0]] + s[1..];
      (if index == 0 then [] else [s[0]]) + rest
  }

  /** Switching a gate off makes whatever was typed behind it irrelevant:
      the insert is the same whatever text the dependent inputs hold. */
  lemma GatedTextDoesNotLeak(userId: string, f: Fields, g: Fields, urls: seq<string>)
    requires g == f.(referralEmail := g.referralEmail, supabaseEmail := g.supabaseEmail,
                     supabasePassword := g.supabasePassword, supabaseProjeto := g.supabaseProjeto,
                     githubUsername := g.githubUsername, githubPassword := g.githubPassword)
    requires !f.wasReferred && !f.hasSupabase && !f.hasGithub
    ensures BuildInsert(userId, f, urls) == BuildInsert(userId, g, urls)
  {
  }

  /** The referral link is written as typed whether or not the project was
      referred; only the referral e-mail is gated. */
  lemma ReferralLinkNotGated(userId: string, f: Fields, urls: seq<string>)
    ensures BuildInsert(userId, f, urls).referralLink == f.referralLink
    ensures BuildInsert(userId, f.(wasReferred := !f.wasReferred), urls).referralLink == f.referralLink
  {
  }

  /** Kept entries are not trimmed: a URL typed with surrounding spaces is
      written with them, and a whitespace-only entry is dropped. */
  lemma KeptUrlsKeepTheirSpaces()
    ensures SubmittedUrls([" https://a.com ", " \t", ""]) == [" https://a.com "]
  {
    var u := " https://a.com ";
    assert !IsSpace(u[1]);
    assert AllSpace(" \t") && AllSpace("");
    assert [u, " \t", ""][1..] == [" \t", ""];
    assert [" \t", ""][1..] == [""];
  }

  /** The browser's check of the `type="email"` inputs on screen: the e-mail
      input always, the referral e-mail only while referred, the Supabase
      e-mail only while Supabase is on. A submit event with a rejected input
      on screen never reaches the handler. */
  predicate EmailInputsOk(isEmail: string -> bool, f: Fields) {
    && EmailOk(isEmail, f.email)
    && (f.wasReferred ==> EmailOk(isEmail, f.referralEmail))
    && (f.hasSupabase ==> EmailOk(isEmail, f.supabaseEmail))
  }

  /** The form state. `urls` holds one entry per URL input on screen. */
  class ProjectForm {
    var loading: bool
    var urls: seq<string>
    var fields: Fields

    /** At least one URL input is always shown. */
    ghost predicate Valid()
      reads this
    {
      |urls| >= 1
    }

    constructor ()
      ensures Valid() && urls == [""] && !loading && fields == EmptyFields
    {
      loading := false;
      urls := [""];
      fields := EmptyFields;
    }

    /** The "Adicionar URL" button: appends one empty entry. */
    method AddUrl()
      requires Valid()
      modifies this`urls
      ensures Valid()
      ensures urls == old(urls) + [""]
    {
      urls := urls + [""];
    }

    /** The trash button of entry `index`: removes that entry unless it is the
      only one left. */
    method RemoveUrl(index: int)
      requires Valid()
      modifies this`urls
      ensures Valid()
      ensures |old(urls)| > 1 && 0 <= index < |old(urls)| ==> urls == old(urls)[..index] + old(urls)[index + 1..]
      ensures |old(urls)| == 1 || !(0 <= index < |old(urls)|) ==> urls == old(urls)
    {
      if |urls| > 1 {
        urls := WithoutIndex(urls, index);
      }
    }

    /** Typing into the input of entry `index`. */
    method UpdateUrl(index: nat, value: string)
      requires Valid() && index < |urls|
      modifies this`urls
      ensures Valid()
      ensures |urls| == |old(urls)| && urls[index] == value
      ensures forall i :: 0 <= i < |urls| && i != index ==> urls[i] == old(urls)[i]
    {
      urls := urls[index := value];
    }

    /** Typing into or switching any of the other inputs. */
    method SetFields(f: Fields)
      modifies this`fields
      ensures fields == f
    {
      fields := f;
    }

    /** The submit button is enabled when no submission is in flight and the
        title has some non-whitespace character. */
    predicate SubmitEnabled()
      reads this
      ensures SubmitEnabled() <==> !loading && !AllSpace(fields.systemTitle)
    {
      !loading && Trim(fields.systemTitle) != []
    }

    /** Submitting, which the disabled button allows only when
        `SubmitEnabled()` holds and the browser lets through only when the
        e-mail inputs on screen pass its check: `loading` is raised while the
        service is asked and lowered whatever the outcome; the inputs are left
        as they are, so an insert never carries a blank title and every
        e-mail it carries is empty or accepted. */
    method HandleSubmit(isEmail: string -> bool, user: Option<string>, reply: WriteReply)
      returns (s: Submission<InsertRow>)
      requires SubmitEnabled() && EmailInputsOk(isEmail, fields)
      modifies this`loading
      ensures !loading
      ensures s == Submit(fields, urls, user, reply)
      ensures s.sent.Some? ==> !AllSpace(s.sent.value.systemTitle)
      ensures s.sent.Some? ==> EmailOk(isEmail, s.sent.value.email)
      ensures s.sent.Some? && s.sent.value.referralEmail.Some? ==>
                EmailOk(isEmail, s.sent.value.referralEmail.value)
      ensures s.sent.Some? && s.sent.value.supabaseEmail.Some? ==>
                EmailOk(isEmail, s.sent.value.supabaseEmail.value)
    {
      loading := true;
      s := Submit(fields, urls, user, reply);
      loading := false;
    }
  }
}
