/** The table (`ProjectTable`): rows given by the parent, never changed here,
    and a single "pending confirmation" slot that drives the two-step delete. */
module TableView {
  import opened Projects

  /** For each row, whether its confirm and cancel buttons are shown in place
      of its trash button. */
  function ConfirmShown(projects: seq<Project>, pending: Option<string>): (r: seq<bool>)
    ensures |r| == |projects|
    ensures forall i :: 0 <= i < |r| ==> (r[i] <==> pending == Some(projects[i].id))
  {
    seq(|projects|, i requires 0 <= i < |projects| => pending == Some(projects[i].id))
  }

  /** Rows have distinct ids. */
  predicate DistinctIds(projects: seq<Project>) {
    forall i, j :: 0 <= i < j < |projects| ==> projects[i].id != projects[j].id
  }

  /** With distinct ids, at most one row shows the confirm pair. */
  lemma AtMostOneRowConfirms(projects: seq<Project>, pending: Option<string>, i: nat, j: nat)
    requires DistinctIds(projects)
    requires i < j < |projects|
    ensures !(ConfirmShown(projects, pending)[i] && ConfirmShown(projects, pending)[j])
  {
  }

  /** The table's state: the rows it was given and the pending slot. */
  class ProjectTable {
    const projects: seq<Project>
    var confirmDelete: Option<string>

    constructor (projects: seq<Project>)
      ensures this.projects == projects && confirmDelete == None
    {
      this.projects := projects;
      confirmDelete := None;
    }

    /** The rows that currently show the confirm pair. */
    function RowsConfirming(): (r: seq<bool>)
      reads this
      ensures |r| == |projects|
      ensures forall i :: 0 <= i < |r| ==> (r[i] <==> confirmDelete == Some(projects[i].id))
    {
      ConfirmShown(projects, confirmDelete)
    }

    /** The trash button of the row with id `projectId`: that row becomes the
        pending one, replacing whichever was pending before. */
    method RequestDelete(projectId: string)
      modifies this`confirmDelete
      ensures confirmDelete == Some(projectId)
      ensures forall i :: 0 <= i < |projects| ==> (RowsConfirming()[i] <==> projects[i].id == projectId)
    {
      confirmDelete := Some(projectId);
    }

    /** The cancel button: nothing is pending any more. */
    method CancelDelete()
      modifies this`confirmDelete
      ensures confirmDelete == None
      ensures forall i :: 0 <= i < |projects| ==> !RowsConfirming()[i]
    {
      confirmDelete := None;
    }

    /** The confirm button of row `projectId` with the service's reply: a
        success asks the parent to re-fetch and then clears the slot; a
        failure shows the message and leaves the slot as it was. */
    method DeleteProject(projectId: string, reply: WriteReply) returns (e: DeleteEffect)
      modifies this`confirmDelete
      ensures e.deleted == Some(projectId)
      ensures e.refresh <==> reply == WriteOk
      ensures reply == WriteOk ==> confirmDelete == None && e.toast == Some(DeletedToast)
      ensures reply.WriteErr? ==> confirmDelete == old(confirmDelete) && e.toast == Some(DeleteFailedToast(reply.message))
    {
      match reply {
        case WriteOk =>
          e := DeleteEffect(Some(projectId), true, Some(DeletedToast));
          confirmDelete := None;
        case WriteErr(message) =>
          e := DeleteEffect(Some(projectId), false, Some(DeleteFailedToast(message)));
      }
    }

    /** The edit button of row `i`: the whole row goes to the parent. */
    method EditRow(i: nat) returns (row: Project)
      requires i < |projects|
      ensures row == projects[i]
    {
      row := projects[i];
    }
  }
}
