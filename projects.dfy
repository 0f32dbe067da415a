/** The project row shared by the dashboard components, and the shapes of the
    replies the remote table service gives back. The service itself (tables,
    authentication, row-level security) is outside the model: each call's
    reply is an input to the operation that issues it. */
module Projects {

  datatype Option<T> = None | Some(value: T)

  /** One row of the `projects` table. Optional columns are `None` when the
      column is null or the property is absent. */
  datatype Project = Project(
    id: string,
    isSaas: bool,
    systemTitle: string,
    urls: seq<string>,
    systemLocation: Option<string>,
    email: Option<string>,
    password: Option<string>,
    referralLink: Option<string>,
    wasReferred: bool,
    referralEmail: Option<string>,
    hasSupabase: bool,
    supabaseEmail: Option<string>,
    supabasePassword: Option<string>,
    supabaseProjeto: Option<string>,
    hasGithub: bool,
    githubUsername: Option<string>,
    githubPassword: Option<string>,
    githubPage: Option<string>,
    githubUrl: Option<string>,
    notes: Option<string>,
    createdAt: string)

  /** Reply to an insert, update or delete: success, or the error the
      service returned, carrying its message. */
  datatype WriteReply = WriteOk | WriteErr(message: string)

  /** Reply to a select: the rows (`None` when the service returns null data),
      or an error. */
  datatype FetchReply = Rows(data: Option<seq<Project>>) | FetchErr(message: string)

  /** A transient notification shown to the user. */
  datatype Toast = Toast(title: string, description: string, destructive: bool)

  /** What a delete did: the id it asked the service to delete (`None`: no
      request was sent), whether the parent was asked to re-fetch the list,
      and the toast shown. */
  datatype DeleteEffect = DeleteEffect(deleted: Option<string>, refresh: bool, toast: Option<Toast>)

  const DeletedToast := Toast("Projeto excluído", "Projeto removido com sucesso.", false)

  /** The destructive toast of a failed delete. */
  function DeleteFailedToast(message: string): Toast {
    Toast("Erro ao excluir projeto", message, true)
  }

  /** How a form submission ended: saved (the success callback ran), failed
      with a destructive toast carrying the message, or blocked by field
      validation before anything was sent. */
  datatype Outcome = Saved | Failed(message: string) | Invalid

  /** What one submission did: the request it sent to the service, if any,
      and how it ended. */
  datatype Submission<R> = Submission(sent: Option<R>, outcome: Outcome)

  /** An optional e-mail input: empty, or an address the e-mail check accepts.
      The check itself (the browser's test of a `type="email"` input, or the
      schema library's) is a parameter. */
  predicate EmailOk(isEmail: string -> bool, s: string) {
    s == [] || isEmail(s)
  }
}
