/** The edit form (`ProjectEditForm`): the form defaults derived from a
    stored project, the URL text normalised on submit, field validation, and
    the full-row update a submission sends. */
module EditForm {
  import opened Js
  import opened Projects
  import CreateForm

  /** The form's values: every text column is a plain string and the URLs
      are one text with one URL per line. */
  datatype FormData = FormData(
    systemTitle: string,
    systemLocation: string,
    isSaas: bool,
    urls: string,
    email: string,
    password: string,
    referralLink: string,
    wasReferred: bool,
    referralEmail: string,
    hasSupabase: bool,
    supabaseEmail: string,
    supabasePassword: string,
    supabaseProjeto: string,
    hasGithub: bool,
    githubUsername: string,
    githubPassword: string,
    githubPage: string,
    githubUrl: string,
    notes: string)

  /** The columns an update writes: all of them except the identity ones. */
  datatype UpdateRow = UpdateRow(
    systemTitle: string,
    systemLocation: Option<string>,
    isSaas: bool,
    urls: seq<string>,
    email: Option<string>,
    password: Option<string>,
    referralLink: Option<string>,
    wasReferred: bool,
    referralEmail: Option<string>,
    hasSupabase: bool,
    supabaseEmail: Option<string>,
    supabasePassword: Option<string>,
    supabaseProjeto: Option<string>,
    hasGithub: bool,
    githubUsername: Option<string>,
    githubPassword: Option<string>,
    githubPage: Option<string>,
    githubUrl: Option<string>,
    notes: Option<string>)

  /** An update of the row whose id is `id`. */
  datatype UpdateRequest = UpdateRequest(id: string, row: UpdateRow)

  // The thirteen optional text columns, in one fixed order, as stored, as
  // shown in the form and as written.

  function ProjectTexts(p: Project): (r: seq<Option<string>>)
    ensures |r| == 13
  {
    [p.systemLocation, p.email, p.password, p.referralLink, p.referralEmail, p.supabaseEmail,
     p.supabasePassword, p.supabaseProjeto, p.githubUsername, p.githubPassword, p.githubPage,
     p.githubUrl, p.notes]
  }

  function FormTexts(d: FormData): (r: seq<string>)
    ensures |r| == 13
  {
    [d.systemLocation, d.email, d.password, d.referralLink, d.referralEmail, d.supabaseEmail,
     d.supabasePassword, d.supabaseProjeto, d.githubUsername, d.githubPassword, d.githubPage,
     d.githubUrl, d.notes]
  }

  function RowTexts(r: UpdateRow): (t: seq<Option<string>>)
    ensures |t| == 13
  {
    [r.systemLocation, r.email, r.password, r.referralLink, r.referralEmail, r.supabaseEmail,
     r.supabasePassword, r.supabaseProjeto, r.githubUsername, r.githubPassword, r.githubPage,
     r.githubUrl, r.notes]
  }

  /** `value || ""`: an absent column and an empty one both show as "". */
  function OrEmpty(o: Option<string>): (r: string)
    ensures r == [] <==> o == None || o == Some([])
    ensures o.Some? ==> r == o.value
  {
    match o
    case None => []
    case Some(s) => s
  }

  /** `value || null`: an empty input is written as null. */
  function NullIfEmpty(s: string): (r: Option<string>)
    ensures r == None <==> s == []
    ensures r.Some? ==> r.value == s
  {
    if s == [] then None else Some(s)
  }

  /** A stored URL list that survives the trip through the text box
      unchanged: every URL non-empty, trimmed and without a newline. */
  predicate UrlsClean(urls: seq<string>) {
    forall i :: 0 <= i < |urls| ==> urls[i] != [] && Trimmed(urls[i]) && '\n' !in urls[i]
  }

  /** `.map(url => url.trim())` */
  function TrimAll(xs: seq<string>): (r: seq<string>)
    ensures |r| == |xs|
    ensures forall i :: 0 <= i < |xs| ==> r[i] == Trim(xs[i])
  {
    seq(|xs|, i requires 0 <= i < |xs| => Trim(xs[i]))
  }

  /** `url => url.length > 0` */
  predicate NonEmpty(u: string) {
    |u| > 0
  }

  /** The submitted URL list: the text split at each newline, each piece
      trimmed, the empty pieces dropped. Every URL it keeps is clean. */
  function NormalizeUrls(text: string): (r: seq<string>)
    ensures UrlsClean(r)
  {
    TrimmedPiecesClean(SplitLines(text));
    KeptPiecesClean(TrimAll(SplitLines(text)));
    Filter(NonEmpty, TrimAll(SplitLines(text)))
  }

  /** Trimmed newline-free pieces are trimmed and newline-free. */
  lemma TrimmedPiecesClean(pieces: seq<string>)
    requires forall i :: 0 <= i < |pieces| ==> '\n' !in pieces[i]
    ensures forall i :: 0 <= i < |pieces| ==> Trimmed(TrimAll(pieces)[i]) && '\n' !in TrimAll(pieces)[i]
  {
    forall i | 0 <= i < |pieces| ensures '\n' !in TrimAll(pieces)[i] {
      TrimNoNewline(pieces[i]);
    }
  }

  /** Dropping the empty pieces of trimmed newline-free pieces leaves a clean
      URL list. */
  lemma KeptPiecesClean(trimmed: seq<string>)
    requires forall i :: 0 <= i < |trimmed| ==> Trimmed(trimmed[i]) && '\n' !in trimmed[i]
    ensures UrlsClean(Filter(NonEmpty, trimmed))
  {
    var r := Filter(NonEmpty, trimmed);
    forall i | 0 <= i < |r|
      ensures r[i] != [] && Trimmed(r[i]) && '\n' !in r[i]
    {
      assert r[i] in r;
      var j :| 0 <= j < |trimmed| && trimmed[j] == r[i];
    }
  }

  /** The form defaults for project `p`. */
  function Defaults(p: Project): (r: FormData)
    ensures r.systemTitle == p.systemTitle && r.isSaas == p.isSaas && r.wasReferred == p.wasReferred
    ensures r.hasSupabase == p.hasSupabase && r.hasGithub == p.hasGithub
    ensures r.urls == JoinLines(p.urls)
    ensures UrlsClean(p.urls) ==> NormalizeUrls(r.urls) == p.urls
  {
    var text := JoinLines(p.urls);
    assert UrlsClean(p.urls) ==> NormalizeUrls(text) == p.urls by {
      if UrlsClean(p.urls) {
        NormalizeJoinRoundTrip(p.urls);
      }
    }
    FormData(
      p.systemTitle, OrEmpty(p.systemLocation), p.isSaas, text, OrEmpty(p.email),
      OrEmpty(p.password), OrEmpty(p.referralLink), p.wasReferred, OrEmpty(p.referralEmail),
      p.hasSupabase, OrEmpty(p.supabaseEmail), OrEmpty(p.supabasePassword), OrEmpty(p.supabaseProjeto),
      p.hasGithub, OrEmpty(p.githubUsername), OrEmpty(p.githubPassword), OrEmpty(p.githubPage),
      OrEmpty(p.githubUrl), OrEmpty(p.notes))
  }

  /** The update payload once the URL text has become the list `urls`:
      every other column is written, an empty text as null. */
  function PayloadRow(d: FormData, urls: seq<string>): (r: UpdateRow)
    ensures r.systemTitle == d.systemTitle && r.isSaas == d.isSaas && r.wasReferred == d.wasReferred
    ensures r.hasSupabase == d.hasSupabase && r.hasGithub == d.hasGithub && r.urls == urls
    ensures Some([]) !in RowTexts(r)
  {
    UpdateRow(
      d.systemTitle, NullIfEmpty(d.systemLocation), d.isSaas, urls,
      NullIfEmpty(d.email), NullIfEmpty(d.password), NullIfEmpty(d.referralLink), d.wasReferred,
      NullIfEmpty(d.referralEmail), d.hasSupabase, NullIfEmpty(d.supabaseEmail),
      NullIfEmpty(d.supabasePassword), NullIfEmpty(d.supabaseProjeto), d.hasGithub,
      NullIfEmpty(d.githubUsername), NullIfEmpty(d.githubPassword), NullIfEmpty(d.githubPage),
      NullIfEmpty(d.githubUrl), NullIfEmpty(d.notes))
  }

  /** The update payload: every column is written; an empty text becomes
      null; the flags are written as they are, so nothing is gated. */
  function UpdatePayload(d: FormData): (r: UpdateRow)
    ensures r.systemTitle == d.systemTitle && r.isSaas == d.isSaas && r.wasReferred == d.wasReferred
    ensures r.hasSupabase == d.hasSupabase && r.hasGithub == d.hasGithub
    ensures r.urls == NormalizeUrls(d.urls) && UrlsClean(r.urls)
    ensures Some([]) !in RowTexts(r)
  {
    PayloadRow(d, NormalizeUrls(d.urls))
  }

  /** Each optional text input opens with its column's value, or "" when
      the column is null or absent. */
  lemma DefaultsShowColumns(p: Project, i: nat)
    requires i < 13
    ensures FormTexts(Defaults(p))[i] == OrEmpty(ProjectTexts(p)[i])
  {
  }

  /** Each optional text column is written with its input's value, or null
      when the input is empty. */
  lemma PayloadWritesInputs(d: FormData, i: nat)
    requires i < 13
    ensures RowTexts(UpdatePayload(d))[i] == NullIfEmpty(FormTexts(d)[i])
  {
    RowWritesInputs(d, NormalizeUrls(d.urls), i);
  }

  lemma RowWritesInputs(d: FormData, urls: seq<string>, i: nat)
    requires i < 13
    ensures RowTexts(PayloadRow(d, urls))[i] == NullIfEmpty(FormTexts(d)[i])
  {
  }

  /** The form's validation rules. The title needs at least one character
      (it is not trimmed); the three e-mail inputs and the referral link are
      either empty or accepted by the e-mail and URL checks, which are
      parameters here. */
  predicate Validates(d: FormData, isEmail: string -> bool, isUrl: string -> bool)
    ensures Validates(d, isEmail, isUrl) ==> d.systemTitle != []
    ensures Validates(d, isEmail, isUrl) && d.email != [] ==> isEmail(d.email)
    ensures Validates(d, isEmail, isUrl) && d.referralEmail != [] ==> isEmail(d.referralEmail)
    ensures Validates(d, isEmail, isUrl) && d.supabaseEmail != [] ==> isEmail(d.supabaseEmail)
    ensures Validates(d, isEmail, isUrl) && d.referralLink != [] ==> isUrl(d.referralLink)
    ensures && d.systemTitle != []
            && (d.email == [] || isEmail(d.email))
            && (d.referralEmail == [] || isEmail(d.referralEmail))
            && (d.supabaseEmail == [] || isEmail(d.supabaseEmail))
            && (d.referralLink == [] || isUrl(d.referralLink))
            ==> Validates(d, isEmail, isUrl)
  {
    && |d.systemTitle| >= 1
    && EmailOk(isEmail, d.email)
    && EmailOk(isEmail, d.referralEmail)
    && EmailOk(isEmail, d.supabaseEmail)
    && (d.referralLink == [] || isUrl(d.referralLink))
  }

  /** One submission of values `d` for the project whose id is `id`; `reply`
      is the service's answer to the update. */
  function Submit(id: string, d: FormData, isEmail: string -> bool, isUrl: string -> bool, reply: WriteReply)
    : (r: Submission<UpdateRequest>)
    ensures r.sent.Some? <==> Validates(d, isEmail, isUrl)
    ensures !Validates(d, isEmail, isUrl) ==> r == Submission(None, Invalid)
    ensures r.outcome == Saved <==> Validates(d, isEmail, isUrl) && reply == WriteOk
    ensures Validates(d, isEmail, isUrl) && reply.WriteErr? ==> r.outcome == Failed(reply.message)
    ensures r.sent.Some? ==> r.sent.value == UpdateRequest(id, UpdatePayload(d))
  {
    if !Validates(d, isEmail, isUrl) then Submission(None, Invalid)
    else
      Submission(Some(UpdateRequest(id, UpdatePayload(d))), if reply.WriteOk? then Saved else Failed(reply.message))
  }

  /** Clean stored URLs survive being joined into the text box and
      normalised back: the list comes back unchanged. */
  lemma NormalizeJoinRoundTrip(urls: seq<string>)
    requires UrlsClean(urls)
    ensures NormalizeUrls(JoinLines(urls)) == urls
  {
    if urls == [] {
      assert SplitLines([]) == [[]];
      assert AllSpace([]);
      assert TrimAll([[]]) == [[]];
      assert !NonEmpty([]);
    } else {
      SplitJoinLines(urls);
      forall i | 0 <= i < |urls| ensures Trim(urls[i]) == urls[i] {
        TrimOfTrimmed(urls[i]);
      }
      assert TrimAll(urls) == urls;
      FilterKeepsAll(NonEmpty, urls);
    }
  }

  /** Normalising the joined result of a normalisation changes nothing. */
  lemma NormalizeIdempotent(text: string)
    ensures NormalizeUrls(JoinLines(NormalizeUrls(text))) == NormalizeUrls(text)
  {
    NormalizeJoinRoundTrip(NormalizeUrls(text));
  }

  /** Lines are normalised one by one: the URLs of two texts joined by a
      newline are the URLs of the first followed by those of the second. */
  lemma NormalizeConcat(a: string, b: string)
    ensures NormalizeUrls(a + "\n" + b) == NormalizeUrls(a) + NormalizeUrls(b)
  {
    SplitLinesConcat(a, b);
    var x, y := SplitLines(a), SplitLines(b);
    TrimAllConcat(x, y);
    FilterConcat(NonEmpty, TrimAll(x), TrimAll(y));
  }

  lemma TrimAllConcat(x: seq<string>, y: seq<string>)
    ensures TrimAll(x + y) == TrimAll(x) + TrimAll(y)
  {
  }

  /** A single line yields its trimmed text, or nothing when it is blank. */
  lemma NormalizeLine(line: string)
    requires '\n' !in line
    ensures NormalizeUrls(line) == if AllSpace(line) then [] else [Trim(line)]
  {
    SplitLinesSingle(line);
    assert TrimAll([line]) == [Trim(line)];
    assert [Trim(line)][1..] == [];
  }

  /** Blank lines and the spaces around each URL disappear. */
  lemma NormalizeExample()
    ensures NormalizeUrls(" https://a.com \n\n https://b.com ") == ["https://a.com", "https://b.com"]
  {
    var u, v := "https://a.com", "https://b.com";
    var a, b := " " + u + " ", " " + v + " ";
    assert a + "\n" + ("\n" + b) == " https://a.com \n\n https://b.com ";
    NormalizePaddedLines(u, v);
  }

  lemma NormalizePaddedLines(u: string, v: string)
    requires u != [] && Trimmed(u) && '\n' !in u
    requires v != [] && Trimmed(v) && '\n' !in v
    ensures NormalizeUrls((" " + u + " ") + "\n" + ("\n" + (" " + v + " "))) == [u, v]
  {
    var a, b := " " + u + " ", " " + v + " ";
    NormalizePadded(u);
    NormalizePadded(v);
    LeadingBlankLineDropped(b);
    NormalizeConcat(a, "\n" + b);
  }

  /** A blank first line contributes no URL. */
  lemma LeadingBlankLineDropped(text: string)
    ensures NormalizeUrls("\n" + text) == NormalizeUrls(text)
  {
    var empty: string := [];
    assert empty + "\n" + text == "\n" + text;
    calc {
      NormalizeUrls("\n" + text);
      NormalizeUrls(empty + "\n" + text);
      { NormalizeConcat(empty, text); }
      NormalizeUrls(empty) + NormalizeUrls(text);
      { NormalizeEmpty(); }
      [] + NormalizeUrls(text);
    }
    assert [] + NormalizeUrls(text) == NormalizeUrls(text);
  }

  /** An empty text box submits no URL. */
  lemma NormalizeEmpty()
    ensures NormalizeUrls([]) == []
  {
    assert SplitLines([]) == [[]];
    assert AllSpace([]);
    assert TrimAll([[]]) == [[]];
    assert !NonEmpty([]);
  }

  /** A URL with one space on each side normalises to the bare URL. */
  lemma NormalizePadded(u: string)
    requires u != [] && Trimmed(u) && '\n' !in u
    ensures NormalizeUrls(" " + u + " ") == [u]
  {
    NewlineFreePadded(u);
    TrimPadded(u);
    NormalizeLine(" " + u + " ");
  }

  lemma NewlineFreePadded(u: string)
    requires '\n' !in u
    ensures '\n' !in " " + u + " "
  {
  }

  /** One space on each side of a trimmed, non-empty text is trimmed away. */
  lemma TrimPadded(u: string)
    requires u != [] && Trimmed(u)
    ensures Trim(" " + u + " ") == u
    ensures !AllSpace(" " + u + " ")
  {
    var s := " " + u + " ";
    assert s[1..] == u + " ";
    assert TrimStart(u + " ") == u + " ";
    assert (u + " ")[..|u|] == u;
    assert s[1] == u[0];
  }

  /** The edit path trims what the create path keeps as typed: trimming the
      create form's kept entries gives the edit form's list. */
  lemma {:induction false} EditTrimsWhatCreateKeeps(entries: seq<string>)
    ensures TrimAll(CreateForm.SubmittedUrls(entries)) == Filter(NonEmpty, TrimAll(entries))
    decreases |entries|
  {
    if entries != [] {
      var x, rest := entries[0], entries[1..];
      var head := if CreateForm.NotBlank(x) then [x] else [];
      assert entries == [x] + rest;
      EditTrimsWhatCreateKeeps(rest);
      FilterCons(CreateForm.NotBlank, x, rest);
      TrimAllConcat(head, CreateForm.SubmittedUrls(rest));
      TrimAllConcat([x], rest);
      assert TrimAll([x]) == [Trim(x)];
      FilterCons(NonEmpty, Trim(x), TrimAll(rest));
      assert TrimAll(head) == if NonEmpty(Trim(x)) then [Trim(x)] else [];
    }
  }

  /** The gate flags do not affect the dependent columns: they are written
      from the inputs whether the flags are on or off. */
  lemma NoGatingOnEdit(d: FormData, referred: bool, supabase: bool, github: bool)
    ensures UpdatePayload(d.(wasReferred := referred, hasSupabase := supabase, hasGithub := github))
         == UpdatePayload(d).(wasReferred := referred, hasSupabase := supabase, hasGithub := github)
    ensures !d.hasSupabase && d.supabasePassword != [] ==> UpdatePayload(d).supabasePassword == Some(d.supabasePassword)
  {
  }

  /** The title rule differs from the create form's: a whitespace-only title
      passes validation here, while the create form keeps its submit button
      disabled for it. */
  lemma WhitespaceTitleAccepted(d: FormData, isEmail: string -> bool, isUrl: string -> bool)
    requires Validates(d, isEmail, isUrl)
    ensures Validates(d.(systemTitle := " "), isEmail, isUrl)
    ensures !CreateForm.NotBlank(" ")
  {
    assert AllSpace(" ");
  }

  /** The row as stored, in the shape of an update. */
  function AsRow(p: Project): (r: UpdateRow)
    ensures RowTexts(r) == ProjectTexts(p) && r.urls == p.urls
    ensures r.systemTitle == p.systemTitle && r.isSaas == p.isSaas && r.wasReferred == p.wasReferred
    ensures r.hasSupabase == p.hasSupabase && r.hasGithub == p.hasGithub
  {
    UpdateRow(
      p.systemTitle, p.systemLocation, p.isSaas, p.urls, p.email, p.password, p.referralLink,
      p.wasReferred, p.referralEmail, p.hasSupabase, p.supabaseEmail, p.supabasePassword,
      p.supabaseProjeto, p.hasGithub, p.githubUsername, p.githubPassword, p.githubPage,
      p.githubUrl, p.notes)
  }

  /** The stored row after the update `row` replaced all its columns; the
      identity columns stay. */
  function Overwrite(p: Project, row: UpdateRow): (q: Project)
    ensures q.id == p.id && q.createdAt == p.createdAt && AsRow(q) == row
  {
    p.(systemTitle := row.systemTitle, systemLocation := row.systemLocation, isSaas := row.isSaas,
       urls := row.urls, email := row.email, password := row.password, referralLink := row.referralLink,
       wasReferred := row.wasReferred, referralEmail := row.referralEmail, hasSupabase := row.hasSupabase,
       supabaseEmail := row.supabaseEmail, supabasePassword := row.supabasePassword,
       supabaseProjeto := row.supabaseProjeto, hasGithub := row.hasGithub,
       githubUsername := row.githubUsername, githubPassword := row.githubPassword,
       githubPage := row.githubPage, githubUrl := row.githubUrl, notes := row.notes)
  }

  /** A stored row that the form shows and writes back without loss: clean
      URLs and no column holding the empty string. */
  predicate Clean(p: Project) {
    UrlsClean(p.urls) && Some([]) !in ProjectTexts(p)
  }

  /** Opening the form on a clean row and saving it untouched writes the row
      as it already is. */
  lemma SaveUnchangedWritesSameRow(p: Project)
    requires Clean(p)
    ensures UpdatePayload(Defaults(p)) == AsRow(p)
  {
    var d := Defaults(p);
    assert NormalizeUrls(d.urls) == p.urls;
    assert UpdatePayload(d) == PayloadRow(d, p.urls);
    DefaultsRowWritesSameRow(p);
  }

  /** The columns other than the URLs: the defaults of a row without empty
      text columns, written back, are the row. */
  lemma DefaultsRowWritesSameRow(p: Project)
    requires Some([]) !in ProjectTexts(p)
    ensures PayloadRow(Defaults(p), p.urls) == AsRow(p)
  {
    var r := PayloadRow(Defaults(p), p.urls);
    forall i | 0 <= i < 13 ensures RowTexts(r)[i] == ProjectTexts(p)[i] {
      DefaultsShowColumns(p, i);
      RowWritesInputs(Defaults(p), p.urls, i);
      assert ProjectTexts(p)[i] in ProjectTexts(p);
      NullIfEmptyOfOrEmpty(ProjectTexts(p)[i]);
    }
    assert RowTexts(r) == RowTexts(AsRow(p));
  }

  /** A column that is absent or non-empty survives being shown with `|| ""`
      and written back with `|| null`. */
  lemma NullIfEmptyOfOrEmpty(o: Option<string>)
    requires o != Some([])
    ensures NullIfEmpty(OrEmpty(o)) == o
  {
  }

  /** Saving is stable: once any submitted values have overwritten a row,
      opening the form again and saving it untouched writes the same row. */
  lemma SaveIsStable(p: Project, d: FormData)
    ensures UpdatePayload(Defaults(Overwrite(p, UpdatePayload(d)))) == UpdatePayload(d)
  {
    var row := UpdatePayload(d);
    var q := Overwrite(p, row);
    assert ProjectTexts(q) == RowTexts(row);
    SaveUnchangedWritesSameRow(q);
  }

  /** The form state: the values shown and the `loading` flag. */
  class ProjectEditForm {
    const project: Project
    var values: FormData
    var loading: bool

    constructor (p: Project)
      ensures project == p && values == Defaults(p) && !loading
    {
      project := p;
      values := Defaults(p);
      loading := false;
    }

    /** Typing into or switching any input. */
    method SetValues(d: FormData)
      modifies this`values
      ensures values == d
    {
      values := d;
    }

    /** Submitting, which the button disabled while `loading` allows only
        when no submission is in flight: values that fail validation send
        nothing; otherwise `loading` is raised around the update and lowered
        whatever the outcome. The values are kept either way. */
    method HandleSubmit(isEmail: string -> bool, isUrl: string -> bool, reply: WriteReply)
      returns (s: Submission<UpdateRequest>)
      requires !loading
      modifies this`loading
      ensures s == Submit(project.id, values, isEmail, isUrl, reply)
      ensures !loading
    {
      if Validates(values, isEmail, isUrl) {
        loading := true;
        s := Submit(project.id, values, isEmail, isUrl, reply);
        loading := false;
      } else {
        // sends nothing: `Submission(None, Invalid)`
        s := Submit(project.id, values, isEmail, isUrl, reply);
      }
    }
  }
}
