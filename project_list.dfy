/** The card list (`ProjectList`): the fetched projects and the loading flag,
    the per-secret visibility map shared by the cards and the detail dialog,
    the masked rendering of secrets, and the delete action. */
module ListView {
  import opened Projects

  /** What a hidden, non-empty secret shows: eight bullets. */
  const Mask := "\U{2022}\U{2022}\U{2022}\U{2022}\U{2022}\U{2022}\U{2022}\U{2022}"

  /** What an empty or absent secret shows. */
  const Dash := "-"

  /** The three secret columns the cards and the dialog render. */
  const PasswordField := "password"
  const SupabasePasswordField := "supabase_password"
  const GithubPasswordField := "github_password"

  const FetchFailedTitle := "Erro ao carregar projetos"

  /** `${projectId}-${field}`: the visibility map's key for one secret. */
  function Key(projectId: string, field: string): (k: string)
    ensures |k| == |projectId| + 1 + |field|
    ensures k[..|projectId|] == projectId && k[|projectId|] == '-' && k[|projectId| + 1..] == field
  {
    projectId + "-" + field
  }

  /** The text after the last '-' of a key (all of it when there is none). */
  function FieldPart(k: string): (r: string)
    ensures |r| <= |k| && r == k[|k| - |r|..]
    ensures '-' !in r
    ensures |r| < |k| ==> k[|k| - |r| - 1] == '-'
    decreases |k|
  {
    if k == [] || k[|k| - 1] == '-' then []
    else
      var r := FieldPart(k[..|k| - 1]);
      assert k[..|k| - 1][|k| - 1 - |r|..] + [k[|k| - 1]] == k[|k| - 1 - |r|..];
      r + [k[|k| - 1]]
  }

  /** A field name without '-' is recovered from any key built with it. */
  lemma {:induction false} FieldPartOfKey(projectId: string, field: string)
    requires '-' !in field
    ensures FieldPart(Key(projectId, field)) == field
    decreases |field|
  {
    var k := Key(projectId, field);
    if field != [] {
      var last := field[|field| - 1];
      assert last in field;
      assert '-' !in field[..|field| - 1] by {
        assert forall c :: c in field[..|field| - 1] ==> c in field;
      }
      FieldPartOfKey(projectId, field[..|field| - 1]);
      assert k[..|k| - 1] == Key(projectId, field[..|field| - 1]);
      assert field == field[..|field| - 1] + [last];
    }
  }

  /** For field names without '-' (as all three secret columns are), distinct
      (project, field) pairs get distinct keys, whatever the ids contain. */
  lemma KeyInjective(id1: string, field1: string, id2: string, field2: string)
    requires '-' !in field1 && '-' !in field2
    requires Key(id1, field1) == Key(id2, field2)
    ensures id1 == id2 && field1 == field2
  {
    FieldPartOfKey(id1, field1);
    FieldPartOfKey(id2, field2);
    var k := Key(id1, field1);
    assert id1 == k[..|id1|] && id2 == k[..|id2|];
  }

  /** Without that restriction keys collide: ("a-b", "c") and ("a", "b-c")
      share the key "a-b-c". */
  lemma KeysCanCollide()
    ensures ("a-b", "c") != ("a", "b-c") && Key("a-b", "c") == Key("a", "b-c")
  {
  }

  /** `showPasswords[key]` read as a truth value: a key never toggled reads
      as hidden. */
  function Visible(m: map<string, bool>, key: string): (v: bool)
    ensures key !in m ==> !v
    ensures key in m ==> v == m[key]
  {
    key in m && m[key]
  }

  /** `{...prev, [key]: !prev[key]}`: flips the visibility of `key` and of no
      other key. */
  function Toggled(m: map<string, bool>, key: string): (r: map<string, bool>)
    ensures r.Keys == m.Keys + {key}
    ensures Visible(r, key) == !Visible(m, key)
    ensures forall k :: k != key ==> Visible(r, k) == Visible(m, k)
  {
    m[key := !Visible(m, key)]
  }

  /** Toggling the same key twice restores every key's visibility (the map
      itself keeps the key, now holding false). */
  lemma ToggleTwiceRestores(m: map<string, bool>, key: string)
    ensures forall k :: Visible(Toggled(Toggled(m, key), key), k) == Visible(m, k)
  {
  }

  /** Toggling one secret leaves the visibility of every other (project,
      field) pair alone, as long as field names have no '-'. */
  lemma ToggleLeavesOtherSecrets(m: map<string, bool>, id: string, field: string, otherId: string, otherField: string)
    requires '-' !in field && '-' !in otherField
    requires (id, field) != (otherId, otherField)
    ensures Visible(Toggled(m, Key(id, field)), Key(otherId, otherField)) == Visible(m, Key(otherId, otherField))
  {
    if Key(id, field) == Key(otherId, otherField) {
      KeyInjective(id, field, otherId, otherField);
    }
  }

  /** With '-' inside the names, toggling one pair flips another. */
  lemma CollidingToggle(m: map<string, bool>)
    ensures Visible(Toggled(m, Key("a-b", "c")), Key("a", "b-c")) == !Visible(m, Key("a", "b-c"))
  {
    KeysCanCollide();
  }

  /** `renderPasswordField`'s text: "-" for an empty or absent secret, the
      secret itself when visible, the mask otherwise. */
  function RenderSecret(visible: bool, value: Option<string>): (r: string)
    ensures value == None || value == Some([]) ==> r == Dash
    ensures value.Some? && value.value != [] ==> r == (if visible then value.value else Mask)
  {
    match value
    case None => Dash
    case Some(s) => if s == [] then Dash else if visible then s else Mask
  }

  /** A hidden secret shows the same text whatever it is: the mask reveals
      nothing but whether the secret is empty. */
  lemma MaskRevealsNothing(a: string, b: string)
    requires a != [] && b != []
    ensures RenderSecret(false, Some(a)) == RenderSecret(false, Some(b)) == Mask
  {
  }

  /** The list view's state. */
  class ProjectList {
    var projects: seq<Project>
    var loading: bool
    var showPasswords: map<string, bool>
    var selectedProject: Option<Project>
    var dialogOpen: bool

    /** Mounting: nothing fetched yet, the loading flag up, every secret
        hidden, the dialog closed. */
    constructor ()
      ensures projects == [] && loading && showPasswords == map[]
      ensures selectedProject == None && !dialogOpen
      ensures forall id, field :: !IsVisible(id, field)
    {
      projects := [];
      loading := true;
      showPasswords := map[];
      selectedProject := None;
      dialogOpen := false;
    }

    /** `fetchProjects` with the service's reply: the rows replace the list
        (null data reads as no rows); an error keeps the list and shows a
        toast. The loading flag is lowered either way. */
    method FetchProjects(reply: FetchReply) returns (toast: Option<Toast>)
      modifies this`projects, this`loading
      ensures !loading
      ensures reply == Rows(None) ==> projects == [] && toast == None
      ensures reply.Rows? && reply.data.Some? ==> projects == reply.data.value && toast == None
      ensures reply.FetchErr? ==> projects == old(projects) && toast == Some(Toast(FetchFailedTitle, reply.message, true))
    {
      match reply {
        case Rows(data) =>
          projects := if data.Some? then data.value else [];
          toast := None;
        case FetchErr(message) =>
          toast := Some(Toast(FetchFailedTitle, message, true));
      }
      loading := false;
    }

    /** Whether the secret `field` of project `projectId` is revealed. */
    function IsVisible(projectId: string, field: string): bool
      reads this
    {
      Visible(showPasswords, Key(projectId, field))
    }

    /** The eye button of one secret, on a card or in the dialog. */
    method TogglePasswordVisibility(projectId: string, field: string)
      modifies this`showPasswords
      ensures showPasswords == Toggled(old(showPasswords), Key(projectId, field))
      ensures IsVisible(projectId, field) == !old(IsVisible(projectId, field))
      ensures forall k :: k != Key(projectId, field) ==> Visible(showPasswords, k) == Visible(old(showPasswords), k)
    {
      showPasswords := Toggled(showPasswords, Key(projectId, field));
    }

    /** The text `renderPasswordField` shows for one secret. */
    function RenderPasswordField(projectId: string, field: string, value: Option<string>): (r: string)
      reads this
      ensures value.Some? && value.value != [] && !IsVisible(projectId, field) ==> r == Mask
      ensures value.Some? && value.value != [] && IsVisible(projectId, field) ==> r == value.value
      ensures value == None || value == Some([]) ==> r == Dash
    {
      RenderSecret(IsVisible(projectId, field), value)
    }

    /** The secrets a card shows for `p`: the password, then the Supabase
        password when `p` has Supabase, then the GitHub password when it has
        GitHub. */
    function CardSecrets(p: Project): (r: seq<string>)
      reads this
      ensures |r| == 1 + (if p.hasSupabase then 1 else 0) + (if p.hasGithub then 1 else 0)
      ensures r[0] == RenderPasswordField(p.id, PasswordField, p.password)
      ensures p.hasSupabase ==> r[1] == RenderPasswordField(p.id, SupabasePasswordField, p.supabasePassword)
      ensures p.hasGithub ==> r[|r| - 1] == RenderPasswordField(p.id, GithubPasswordField, p.githubPassword)
    {
      [RenderPasswordField(p.id, PasswordField, p.password)]
      + (if p.hasSupabase then [RenderPasswordField(p.id, SupabasePasswordField, p.supabasePassword)] else [])
      + (if p.hasGithub then [RenderPasswordField(p.id, GithubPasswordField, p.githubPassword)] else [])
    }

    /** The secrets the detail dialog shows for the selected project. */
    function DialogSecrets(): (r: seq<string>)
      reads this
      requires selectedProject.Some?
      ensures |r| == 1 + (if selectedProject.value.hasSupabase then 1 else 0)
                       + (if selectedProject.value.hasGithub then 1 else 0)
      ensures r[0] == RenderPasswordField(selectedProject.value.id, PasswordField, selectedProject.value.password)
      ensures selectedProject.value.hasSupabase ==>
                r[1] == RenderPasswordField(selectedProject.value.id, SupabasePasswordField,
                                            selectedProject.value.supabasePassword)
      ensures selectedProject.value.hasGithub ==>
                r[|r| - 1] == RenderPasswordField(selectedProject.value.id, GithubPasswordField,
                                                  selectedProject.value.githubPassword)
    {
      var p := selectedProject.value;
      [RenderPasswordField(p.id, PasswordField, p.password)]
      + (if p.hasSupabase then [RenderPasswordField(p.id, SupabasePasswordField, p.supabasePassword)] else [])
      + (if p.hasGithub then [RenderPasswordField(p.id, GithubPasswordField, p.githubPassword)] else [])
    }

    /** The eye button of a card: selects the project and opens the dialog. */
    method OpenDetails(p: Project)
      modifies this`selectedProject, this`dialogOpen
      ensures selectedProject == Some(p) && dialogOpen
      ensures DialogSecrets() == CardSecrets(p)
    {
      selectedProject := Some(p);
      dialogOpen := true;
    }

    /** `deleteProject`: nothing is sent unless the user confirms; a success
        asks the parent to re-fetch, without touching the local list; a
        failure shows the service's message. The list and the loading flag
        are never changed here. */
    method DeleteProject(projectId: string, confirmed: bool, reply: WriteReply) returns (e: DeleteEffect)
      ensures e.deleted.Some? <==> confirmed
      ensures e.deleted.Some? ==> e.deleted.value == projectId
      ensures e.refresh <==> confirmed && reply == WriteOk
      ensures !confirmed ==> e.toast == None
      ensures confirmed && reply == WriteOk ==> e.toast == Some(DeletedToast)
      ensures confirmed && reply.WriteErr? ==> e.toast == Some(DeleteFailedToast(reply.message))
    {
      if !confirmed {
        return DeleteEffect(None, false, None);
      }
      match reply
      case WriteOk =>
        e := DeleteEffect(Some(projectId), true, Some(DeletedToast));
      case WriteErr(message) =>
        e := DeleteEffect(Some(projectId), false, Some(DeleteFailedToast(message)));
    }
  }

  /** A secret revealed in the dialog is revealed on the project's card too:
      both read the same key of the same map. */
  lemma DialogSharesCardVisibility(list: ProjectList, p: Project)
    requires list.selectedProject == Some(p)
    ensures list.DialogSecrets() == list.CardSecrets(p)
  {
  }
}
