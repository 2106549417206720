/** The notebook table: rows and the four versioned updates (server/internal/store/notebook.go). */
module NotebookStore {
  import opened Common

  datatype State = Queued | Initializing | Running | Stopped | Failed | Deleted | Requeued

  /** The queued_action column; `NoAction` is the empty string. */
  datatype Action = NoAction | Starting | Stopping | Deleting | Requeueing

  /** The marshalled v1.Notebook, reduced to what the handlers read or write. Its status field is
      left out: every read recomputes it from the state and action columns. */
  datatype Message = Message(clusterId: string, namespace: string, gpuCount: int, startedAt: nat, stoppedAt: nat)

  datatype Row = Row(
    tenantId: string, projectId: string,
    envs: seq<Env>,  // the stored project message
    clusterId: string, message: Message,
    state: State, action: Action, reason: string,
    updatedAt: Time, version: nat)

  /** The columns an update names, besides version and updated_at. */
  datatype Update =
    | QueuedAction(action: Action)
    | OnlyState(state: State)
    | NonQueued(state: State, message: Message, reason: string)
    | ForRescheduling(clusterId: string, state: State, action: Action, message: Message, reason: string)

  function Apply(r: Row, u: Update, now: Time): Row {
    var r := r.(version := r.version + 1, updatedAt := now);
    match u
    case QueuedAction(action) => r.(state := Queued, action := action, reason := "")
    case OnlyState(state) => r.(state := state, reason := "")
    case NonQueued(state, message, reason) => r.(state := state, action := NoAction, message := message,
        reason := reason)
    case ForRescheduling(clusterId, state, action, message, reason) =>
      r.(clusterId := clusterId, state := state, action := action, message := message, reason := reason)
  }

  /** `WHERE notebook_id = ? AND version = ?` selects a row. */
  predicate Selects(rows: map<string, Row>, id: string, version: int) {
    id in rows && rows[id].version == version
  }

  function After(rows: map<string, Row>, id: string, version: int, u: Update, now: Time): map<string, Row> {
    if Selects(rows, id, version) then rows[id := Apply(rows[id], u, now)] else rows
  }

  /** The table in the database. Each method is one SQL statement; `false` is ErrConcurrentUpdate. */
  class Table {
    var rows: map<string, Row>

    constructor ()
      ensures rows == map[]
    {
      rows := map[];
    }

    method SetNotebookQueuedAction(id: string, currentVersion: int, newAction: Action, now: Time) returns (ok: bool)
      modifies this
      ensures ok == Selects(old(rows), id, currentVersion)
      ensures rows == After(old(rows), id, currentVersion, QueuedAction(newAction), now)
    {
      ok := id in rows && rows[id].version == currentVersion;
      if ok {
        rows := rows[id := rows[id].(state := Queued, action := newAction, reason := "",
                                     version := currentVersion + 1, updatedAt := now)];
      }
    }

    method SetState(id: string, currentVersion: int, newState: State, now: Time) returns (ok: bool)
      modifies this
      ensures ok == Selects(old(rows), id, currentVersion)
      ensures rows == After(old(rows), id, currentVersion, OnlyState(newState), now)
    {
      ok := id in rows && rows[id].version == currentVersion;
      if ok {
        rows := rows[id := rows[id].(state := newState, reason := "",
                                     version := currentVersion + 1, updatedAt := now)];
      }
    }

    method SetNonQueuedStateAndMessage(
        id: string, currentVersion: int, newState: State, message: Message, reason: string, now: Time)
      returns (ok: bool)
      modifies this
      ensures ok == Selects(old(rows), id, currentVersion)
      ensures rows == After(old(rows), id, currentVersion, NonQueued(newState, message, reason), now)
    {
      ok := id in rows && rows[id].version == currentVersion;
      if ok {
        rows := rows[id := rows[id].(state := newState, action := NoAction, message := message, reason := reason,
                                     version := currentVersion + 1, updatedAt := now)];
      }
    }

    method UpdateNotebookForRescheduling(id: string, nb: Row, now: Time) returns (ok: bool)
      modifies this
      ensures ok == Selects(old(rows), id, nb.version)
      ensures rows == After(old(rows), id, nb.version,
                            ForRescheduling(nb.clusterId, nb.state, nb.action, nb.message, nb.reason), now)
    {
      ok := id in rows && rows[id].version == nb.version;
      if ok {
        rows := rows[id := rows[id].(clusterId := nb.clusterId, state := nb.state, action := nb.action,
                                     message := nb.message, reason := nb.reason,
                                     version := nb.version + 1, updatedAt := now)];
      }
    }
  }
}
