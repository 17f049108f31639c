/**
 * The project records of the backend (backend/models/project.py): a project with a
 * status and a soft-delete time, the audit log entry, and the project key generator.
 * Database time stamps are strings supplied by the caller.
 */
module ProjectModel {
  import opened Wrappers
  import opened Text

  datatype ProjectStatus = Active | Archived | Deleted

  /** The value the status has on the wire and in the database. */
  function StatusName(s: ProjectStatus): (r: string)
    ensures r != ""
    ensures r == "active" <==> s == Active
    ensures r == "archived" <==> s == Archived
    ensures r == "deleted" <==> s == Deleted
  {
    match s
    case Active => "active"
    case Archived => "archived"
    case Deleted => "deleted"
  }

  datatype AuditAction = CreateProject | UpdateProject | ArchiveProject | DeleteProject | RestoreProject

  /** The verb of an action's name. */
  function ActionVerb(a: AuditAction): (r: string)
    ensures r == "CREATE" <==> a == CreateProject
    ensures r == "UPDATE" <==> a == UpdateProject
    ensures r == "ARCHIVE" <==> a == ArchiveProject
    ensures r == "DELETE" <==> a == DeleteProject
    ensures r == "RESTORE" <==> a == RestoreProject
  {
    match a
    case CreateProject => "CREATE"
    case UpdateProject => "UPDATE"
    case ArchiveProject => "ARCHIVE"
    case DeleteProject => "DELETE"
    case RestoreProject => "RESTORE"
  }

  /** The value of an audit action: its verb, then `_PROJECT`. */
  function ActionName(a: AuditAction): (r: string)
    ensures |r| > 8 && r[|r| - 8..] == "_PROJECT"
    ensures r[..|r| - 8] == ActionVerb(a)
  {
    ActionVerb(a) + "_PROJECT"
  }

  /** Distinct actions are logged under distinct names. */
  lemma ActionNameInjective(a: AuditAction, b: AuditAction)
    requires ActionName(a) == ActionName(b)
    ensures a == b
  {
    assert ActionVerb(a) == ActionVerb(b);
  }

  /** A row of the `project` table. */
  datatype Project = Project(
    id: int,
    name: string,
    key: string,
    description: Option<string>,
    status: ProjectStatus,
    workspaceId: int,
    createdAt: string,
    updatedAt: string,
    deletedAt: Option<string>)

  /** A row of the audit log table; `actorId` is always the single user, 1. */
  datatype AuditLog = AuditLog(
    action: AuditAction,
    actorId: int,
    targetId: int,
    extraData: Option<string>,
    timestamp: string)

  /** The single user that owns every project and performs every action. */
  const SingleUser: int := 1

  const KeyPrefix: string := "LEXI-"

  /**
   * `generate_project_key`: the key is the prefix followed by one more than the number
   * of projects already stored, deleted ones included.
   */
  function GenerateProjectKey(count: nat): (r: string)
    ensures StartsWith(r, KeyPrefix)
    ensures AllDigits(r[|KeyPrefix|..]) && ParseNat(r[|KeyPrefix|..]) == count + 1
  {
    var digits := NatToString(count + 1);
    ParseNatToString(count + 1);
    assert (KeyPrefix + digits)[|KeyPrefix|..] == digits;
    KeyPrefix + digits
  }

  /** Different counts give different keys, so keys never collide while rows are never removed. */
  lemma GenerateProjectKeyInjective(a: nat, b: nat)
    ensures GenerateProjectKey(a) == GenerateProjectKey(b) ==> a == b
  {
  }

  /** A new project row: active, not deleted, in workspace 1, created and updated `now`. */
  function NewProject(id: int, name: string, key: string, description: Option<string>, now: string): (p: Project)
    ensures p.id == id && p.name == name && p.key == key && p.description == description
    ensures p.status == Active && p.deletedAt == None && p.workspaceId == SingleUser
    ensures p.createdAt == now && p.updatedAt == now
  {
    Project(id, name, key, description, Active, SingleUser, now, now, None)
  }
}
