/**
 * The project endpoints (backend/api/endpoints/projects.py) over the project table and
 * the audit log table. Projects are never removed: delete is a soft delete that sets the
 * status and the deletion time, and restore undoes it.
 *
 * The tables are sequences in insertion order; the database assigns ids 1, 2, 3, ... so
 * the project with id `i` is row `i - 1`. A listing returns rows in that order.
 */
module ProjectEndpoints {
  import opened Wrappers
  import opened Text
  import opened Http
  import opened ProjectModel

  /** The body of a create request. */
  datatype ProjectCreate = ProjectCreate(name: string, description: Option<string>)

  /** The body of a partial update: every field may be absent. */
  datatype ProjectUpdate = ProjectUpdate(name: Option<string>, description: Option<string>, archived: Option<bool>)

  const ProjectNotFound: HttpError := HttpError(NotFound, "Project not found")
  const ProjectNotDeleted: HttpError := HttpError(BadRequest, "Project is not deleted")

  /** The status filter `list_projects` uses when the request names none. */
  const DefaultListStatus: Option<ProjectStatus> := Some(Active)

  /** The rows as the database holds them: ids count up from 1, keys follow the row count, a deleted project has a deletion time. */
  predicate WellFormed(rows: seq<Project>) {
    forall i :: 0 <= i < |rows| ==>
      rows[i].id == i + 1 && rows[i].key == GenerateProjectKey(i)
      && (rows[i].status == Deleted ==> rows[i].deletedAt.Some?)
  }

  /** Whether `list_projects` returns a row: never a soft-deleted one, and only with the requested status when one is given. */
  predicate Listed(p: Project, status: Option<ProjectStatus>): (b: bool)
    ensures b ==> p.deletedAt.None? && (status.Some? ==> p.status == status.value)
    ensures b && (p.status == Deleted ==> p.deletedAt.Some?) ==> p.status != Deleted
    ensures p.deletedAt.None? ==> (b <==> status.None? || p.status == status.value)
  {
    p.deletedAt.None? && (status.None? || p.status == status.value)
  }

  /** `list_projects`. */
  function ListProjects(rows: seq<Project>, status: Option<ProjectStatus>): (r: seq<Project>)
    ensures |r| <= |rows|
    ensures forall p :: p in r <==> p in rows && Listed(p, status)
  {
    if rows == [] then []
    else
      var rest := ListProjects(rows[1..], status);
      assert rows == [rows[0]] + rows[1..];
      if Listed(rows[0], status) then [rows[0]] + rest else rest
  }

  /** The listing keeps the table order: listing two parts and concatenating lists the whole. */
  lemma {:induction false} ListProjectsAppend(a: seq<Project>, b: seq<Project>, status: Option<ProjectStatus>)
    ensures ListProjects(a + b, status) == ListProjects(a, status) + ListProjects(b, status)
  {
    if a != [] {
      assert (a + b)[0] == a[0];
      assert (a + b)[1..] == a[1..] + b;
      ListProjectsAppend(a[1..], b, status);
    } else {
      assert a + b == b;
    }
  }

  /** The row the query `WHERE id = project_id` finds first. */
  function FindIndex(rows: seq<Project>, id: int): (r: Option<nat>)
    ensures r.Some? ==> r.value < |rows| && rows[r.value].id == id
    ensures r.None? ==> forall i :: 0 <= i < |rows| ==> rows[i].id != id
  {
    if rows == [] then None
    else if rows[0].id == id then Some(0)
    else match FindIndex(rows[1..], id)
      case None => None
      case Some(k) => Some(k + 1)
  }

  /** In a well-formed table exactly the ids 1 .. n exist, at row id - 1. */
  lemma FindIndexWellFormed(rows: seq<Project>, id: int)
    requires WellFormed(rows)
    ensures 1 <= id <= |rows| ==> FindIndex(rows, id) == Some(id - 1)
    ensures !(1 <= id <= |rows|) ==> FindIndex(rows, id) == None
  {
    var r := FindIndex(rows, id);
    if r.Some? {
      assert rows[r.value].id == r.value + 1;
    }
    if 1 <= id <= |rows| {
      assert rows[id - 1].id == id;
    }
  }

  /** No two rows of a well-formed table share a key. */
  lemma KeysUnique(rows: seq<Project>, i: nat, j: nat)
    requires WellFormed(rows) && i < |rows| && j < |rows| && i != j
    ensures rows[i].key != rows[j].key
  {
    GenerateProjectKeyInjective(i, j);
  }

  /** The project a patch produces: given fields replace the old ones, `archived` sets the status, the update time is `now`. */
  function Updated(p: Project, u: ProjectUpdate, now: string): (q: Project)
    ensures q.id == p.id && q.key == p.key && q.createdAt == p.createdAt && q.deletedAt == p.deletedAt
    ensures q.workspaceId == p.workspaceId && q.updatedAt == now
    ensures q.name == u.name.GetOr(p.name) && q.description == (if u.description.Some? then u.description else p.description)
    ensures u.archived == Some(true) ==> q.status == Archived
    ensures u.archived == Some(false) ==> q.status == Active
    ensures u.archived == None ==> q.status == p.status
  {
    p.(name := u.name.GetOr(p.name),
       description := if u.description.Some? then u.description else p.description,
       status := match u.archived { case None => p.status case Some(a) => if a then Archived else Active },
       updatedAt := now)
  }

  /** The audit entries a patch writes: one only when `archived` is given. */
  function UpdateAudit(id: int, u: ProjectUpdate, now: string): (r: seq<AuditLog>)
    ensures u.archived.None? <==> r == []
    ensures u.archived.Some? ==> |r| == 1 && r[0].targetId == id && r[0].actorId == SingleUser
    ensures u.archived == Some(true) ==> r[0].action == ArchiveProject
    ensures u.archived == Some(false) ==> r[0].action == UpdateProject
  {
    match u.archived
    case None => []
    case Some(a) => [AuditLog(if a then ArchiveProject else UpdateProject, SingleUser, id, None, now)]
  }

  /** A soft delete: the status becomes deleted and the deletion time is set; the update time is left alone. */
  function SoftDeleted(p: Project, now: string): (q: Project)
    ensures q.status == Deleted && q.deletedAt == Some(now)
    ensures q.(status := p.status, deletedAt := p.deletedAt) == p
  {
    p.(status := Deleted, deletedAt := Some(now))
  }

  /** A restore: active again, no deletion time, updated `now`. */
  function Restored(p: Project, now: string): (q: Project)
    ensures q.status == Active && q.deletedAt == None && q.updatedAt == now
    ensures q.(status := p.status, deletedAt := p.deletedAt, updatedAt := p.updatedAt) == p
  {
    p.(status := Active, deletedAt := None, updatedAt := now)
  }

  /** The text `create_project` stores as the audit entry's extra data. */
  function CreationExtraData(name: string): (r: string)
    ensures StartsWith(r, "{\"name\": \"") && |r| == |name| + 12
    ensures r[10..|r| - 2] == name && r[|r| - 2..] == "\"}"
  {
    "{\"name\": \"" + name + "\"}"
  }

  /** The project tables and the endpoints that change them. */
  class ProjectStore {
    var rows: seq<Project>
    var audit: seq<AuditLog>

    ghost predicate Valid()
      reads this
    {
      WellFormed(rows)
    }

    constructor ()
      ensures Valid() && rows == [] && audit == []
    {
      rows := [];
      audit := [];
    }

    /** `list_projects`. */
    function List(status: Option<ProjectStatus>): (r: seq<Project>)
      reads this
      ensures forall p :: p in r <==> p in rows && Listed(p, status)
    {
      ListProjects(rows, status)
    }

    /** `get_project`: the row with the id, or 404. */
    function Get(id: int): (r: Result<Project, HttpError>)
      reads this
      ensures r.Ok? <==> exists i :: 0 <= i < |rows| && rows[i].id == id
      ensures r.Ok? ==> r.value in rows && r.value.id == id
      ensures r.Err? ==> r.error == ProjectNotFound
    {
      match FindIndex(rows, id)
      case None => Err(ProjectNotFound)
      case Some(i) => Ok(rows[i])
    }

    /** `create_project`: appends an active project with the next id and key, and logs the creation. */
    method Create(data: ProjectCreate, now: string) returns (p: Project)
      requires Valid()
      modifies this
      ensures Valid()
      ensures p == NewProject(|old(rows)| + 1, data.name, GenerateProjectKey(|old(rows)|), data.description, now)
      ensures rows == old(rows) + [p]
      ensures audit == old(audit) + [AuditLog(CreateProject, SingleUser, p.id, Some(CreationExtraData(data.name)), now)]
    {
      var key := GenerateProjectKey(|rows|);
      p := NewProject(|rows| + 1, data.name, key, data.description, now);
      rows := rows + [p];
      audit := audit + [AuditLog(CreateProject, SingleUser, p.id, Some(CreationExtraData(data.name)), now)];
    }

    /** `update_project`: 404 for an unknown id; otherwise patches the row. */
    method Update(id: int, u: ProjectUpdate, now: string) returns (r: Result<Project, HttpError>)
      requires Valid()
      modifies this
      ensures Valid()
      ensures FindIndex(old(rows), id).None? ==>
                r == Err(ProjectNotFound) && rows == old(rows) && audit == old(audit)
      ensures FindIndex(old(rows), id).Some? ==>
                var i := FindIndex(old(rows), id).value;
                r == Ok(Updated(old(rows)[i], u, now))
                && rows == old(rows)[i := Updated(old(rows)[i], u, now)]
                && audit == old(audit) + UpdateAudit(id, u, now)
    {
      var found := FindIndex(rows, id);
      if found.None? {
        return Err(ProjectNotFound);
      }
      var i := found.value;
      var q := Updated(rows[i], u, now);
      rows := rows[i := q];
      audit := audit + UpdateAudit(id, u, now);
      r := Ok(q);
    }

    /** `delete_project`: 404 for an unknown id; otherwise a soft delete, logged. */
    method Delete(id: int, now: string) returns (r: Result<(), HttpError>)
      requires Valid()
      modifies this
      ensures Valid()
      ensures FindIndex(old(rows), id).None? ==>
                r == Err(ProjectNotFound) && rows == old(rows) && audit == old(audit)
      ensures FindIndex(old(rows), id).Some? ==>
                var i := FindIndex(old(rows), id).value;
                r == Ok(())
                && rows == old(rows)[i := SoftDeleted(old(rows)[i], now)]
                && audit == old(audit) + [AuditLog(DeleteProject, SingleUser, id, None, now)]
    {
      var found := FindIndex(rows, id);
      if found.None? {
        return Err(ProjectNotFound);
      }
      var i := found.value;
      rows := rows[i := SoftDeleted(rows[i], now)];
      audit := audit + [AuditLog(DeleteProject, SingleUser, id, None, now)];
      r := Ok(());
    }

    /** `restore_project`: 404 for an unknown id, 400 for a project whose status is not deleted. */
    method Restore(id: int, now: string) returns (r: Result<Project, HttpError>)
      requires Valid()
      modifies this
      ensures Valid()
      ensures FindIndex(old(rows), id).None? ==>
                r == Err(ProjectNotFound) && rows == old(rows) && audit == old(audit)
      ensures FindIndex(old(rows), id).Some? && old(rows)[FindIndex(old(rows), id).value].status != Deleted ==>
                r == Err(ProjectNotDeleted) && rows == old(rows) && audit == old(audit)
      ensures FindIndex(old(rows), id).Some? && old(rows)[FindIndex(old(rows), id).value].status == Deleted ==>
                var i := FindIndex(old(rows), id).value;
                r == Ok(Restored(old(rows)[i], now))
                && rows == old(rows)[i := Restored(old(rows)[i], now)]
                && audit == old(audit) + [AuditLog(RestoreProject, SingleUser, id, None, now)]
    {
      var found := FindIndex(rows, id);
      if found.None? {
        return Err(ProjectNotFound);
      }
      var i := found.value;
      if rows[i].status != Deleted {
        return Err(ProjectNotDeleted);
      }
      var q := Restored(rows[i], now);
      rows := rows[i := q];
      audit := audit + [AuditLog(RestoreProject, SingleUser, id, None, now)];
      r := Ok(q);
    }
  }

  // ---------------------------------------------------------------- properties of the endpoints

  /** Appending the next project keeps the table well formed. */
  lemma AppendWellFormed(rows: seq<Project>, p: Project)
    requires WellFormed(rows)
    requires p.id == |rows| + 1 && p.key == GenerateProjectKey(|rows|) && p.status == Active
    ensures WellFormed(rows + [p])
  {
    var after := rows + [p];
    forall k | 0 <= k < |after|
      ensures after[k].id == k + 1 && after[k].key == GenerateProjectKey(k)
              && (after[k].status == Deleted ==> after[k].deletedAt.Some?)
    {
      if k < |rows| { assert after[k] == rows[k]; }
    }
  }

  /** A fresh project is listed by default (status active) and is found by its id. */
  lemma CreatedIsListedAndFound(rows: seq<Project>, data: ProjectCreate, now: string)
    requires WellFormed(rows)
    ensures var p := NewProject(|rows| + 1, data.name, GenerateProjectKey(|rows|), data.description, now);
            WellFormed(rows + [p])
            && p in ListProjects(rows + [p], DefaultListStatus)
            && FindIndex(rows + [p], |rows| + 1) == Some(|rows|)
  {
    var p := NewProject(|rows| + 1, data.name, GenerateProjectKey(|rows|), data.description, now);
    var after := rows + [p];
    AppendWellFormed(rows, p);
    FindIndexWellFormed(after, |rows| + 1);
    assert after[|rows|] == p;
  }

  /** After a soft delete the project appears in no listing, whatever status is asked for, the deleted status included. */
  lemma {:induction false} DeletedNeverListed(rows: seq<Project>, i: nat, now: string, status: Option<ProjectStatus>)
    requires WellFormed(rows) && i < |rows|
    ensures forall p :: p in ListProjects(rows[i := SoftDeleted(rows[i], now)], status) ==> p.id != i + 1
  {
    var after := rows[i := SoftDeleted(rows[i], now)];
    forall p | p in ListProjects(after, status) ensures p.id != i + 1 {
      var k :| 0 <= k < |after| && after[k] == p;
      if k != i {
        assert rows[k].id == k + 1;
      }
    }
  }

  /** After a restore the project is listed again by default and under no filter. */
  lemma RestoredIsListed(rows: seq<Project>, i: nat, now: string)
    requires i < |rows|
    ensures Restored(rows[i], now) in ListProjects(rows[i := Restored(rows[i], now)], DefaultListStatus)
    ensures Restored(rows[i], now) in ListProjects(rows[i := Restored(rows[i], now)], None)
  {
    assert rows[i := Restored(rows[i], now)][i] == Restored(rows[i], now);
  }

  /** Deleting and restoring an active project gives it back unchanged except for its update time. */
  lemma DeleteRestoreRoundTrip(p: Project, deletedAt: string, now: string)
    requires p.status == Active && p.deletedAt == None
    ensures Restored(SoftDeleted(p, deletedAt), now) == p.(updatedAt := now)
  {
  }

  /**
   * Patching `archived` on a soft-deleted project changes its status but keeps its deletion
   * time: the project then appears in no listing, and a restore answers 400 because its
   * status is no longer deleted.
   */
  lemma ArchivePatchStrandsDeleted(p: Project, u: ProjectUpdate, now: string, status: Option<ProjectStatus>)
    requires p.status == Deleted && p.deletedAt.Some? && u.archived.Some?
    ensures !Listed(Updated(p, u, now), status)
    ensures Updated(p, u, now).status != Deleted
  {
  }

  /** A restore request for an id that exists but is not deleted leaves the tables as they are. */
  lemma RestoreNeedsDeleted(rows: seq<Project>, id: int)
    requires WellFormed(rows) && 1 <= id <= |rows| && rows[id - 1].status != Deleted
    ensures FindIndex(rows, id) == Some(id - 1)
    ensures rows[FindIndex(rows, id).value].status != Deleted
  {
    FindIndexWellFormed(rows, id);
  }
}
