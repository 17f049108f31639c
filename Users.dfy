/**
 * The single user of the assistant (backend/models/user.py) and the user endpoints
 * (backend/api/endpoints/user.py). The user table is a sequence of rows; every endpoint
 * works on the first row, and creates it when the table is empty.
 */
module UserModel {
  import opened Wrappers

  /** A row of the `user` table. */
  datatype User = User(
    name: string,
    role: string,
    leadershipStyle: Option<string>,
    communicationStyle: Option<string>,
    values: Option<string>,
    faceEncoding: Option<string>,
    systemPromptOverride: Option<string>,
    bio: Option<string>,
    isOnboarded: bool,
    createdAt: string)

  const DefaultName: string := "Executive"

  /** A user built with only a name: every other column takes its declared default. */
  function NewUser(name: string, now: string): (u: User)
    ensures u.name == name && u.role == "Executive"
    ensures u.leadershipStyle == Some("Collaborative") && u.communicationStyle == Some("Direct")
    ensures u.values == None && u.faceEncoding == None && u.systemPromptOverride == None && u.bio == None
    ensures !u.isOnboarded && u.createdAt == now
  {
    User(name, "Executive", Some("Collaborative"), Some("Direct"), None, None, None, None, false, now)
  }
}

module UserEndpoints {
  import opened Wrappers
  import opened UserModel

  /** The body of a settings update: every field may be absent. */
  datatype UserSettingsUpdate = UserSettingsUpdate(systemPrompt: Option<string>, bio: Option<string>, name: Option<string>)

  /** The user after a settings update: given fields replace the old ones, and the user counts as onboarded. */
  function ApplySettings(u: User, s: UserSettingsUpdate): (r: User)
    ensures r.isOnboarded
    ensures r.systemPromptOverride == (if s.systemPrompt.Some? then s.systemPrompt else u.systemPromptOverride)
    ensures r.bio == (if s.bio.Some? then s.bio else u.bio)
    ensures r.name == s.name.GetOr(u.name)
    ensures r.(isOnboarded := u.isOnboarded, systemPromptOverride := u.systemPromptOverride, bio := u.bio, name := u.name) == u
  {
    u.(systemPromptOverride := if s.systemPrompt.Some? then s.systemPrompt else u.systemPromptOverride,
       bio := if s.bio.Some? then s.bio else u.bio,
       name := s.name.GetOr(u.name),
       isOnboarded := true)
  }

  /** An empty update only marks the user onboarded. */
  lemma EmptySettingsOnlyOnboard(u: User)
    ensures ApplySettings(u, UserSettingsUpdate(None, None, None)) == u.(isOnboarded := true)
  {
  }

  /** Applying the same update twice changes nothing more. */
  lemma ApplySettingsIdempotent(u: User, s: UserSettingsUpdate)
    ensures ApplySettings(ApplySettings(u, s), s) == ApplySettings(u, s)
  {
  }

  /** The two routes the module adds to the application. */
  datatype Route = GetMe | PutSettings

  /** What importing the module gives the application: its routes, or the `NameError` that stops the import. */
  datatype ImportOutcome = NameError(name: string) | Served(routes: seq<Route>)

  /** The built-in names the annotations of `UserSettingsUpdate` use. */
  const Builtins: set<string> := {"str"}

  /** The names bound at module level when the body of `UserSettingsUpdate` runs, as the file is written. */
  const BoundAsWritten: set<string> :=
    {"APIRouter", "Depends", "select", "AsyncSession", "get_session", "User", "router", "get_current_user", "BaseModel"}

  /** The same names once `Optional` is imported from `typing`, as the annotations need. */
  const BoundCorrected: set<string> := BoundAsWritten + {"Optional"}

  /** The names the three field annotations look up, in the order Python evaluates them. */
  const AnnotationNames: seq<string> := ["Optional", "str", "Optional", "str", "Optional", "str"]

  /** The first of `names` that is not bound, if any: the name a `NameError` reports. */
  function FirstUnbound(names: seq<string>, bound: set<string>): (r: Option<string>)
    ensures r.None? <==> forall k :: 0 <= k < |names| ==> names[k] in bound
    ensures r.Some? ==> r.value in names && r.value !in bound
    ensures names != [] && names[0] !in bound ==> r == Some(names[0])
  {
    if names == [] then None
    else if names[0] !in bound then Some(names[0])
    else FirstUnbound(names[1..], bound)
  }

  /**
   * Importing the module with `bound` at module level: the class body of `UserSettingsUpdate`
   * evaluates its annotations, and an unbound name aborts the import before `/me/settings` is
   * declared and before the application can include the router.
   */
  function ImportModule(bound: set<string>): (r: ImportOutcome)
    ensures r.NameError? <==> exists k :: 0 <= k < |AnnotationNames| && AnnotationNames[k] !in bound + Builtins
    ensures r.NameError? ==> r.name in AnnotationNames && r.name !in bound + Builtins
    ensures r.Served? ==> r.routes == [GetMe, PutSettings]
  {
    match FirstUnbound(AnnotationNames, bound + Builtins)
    case Some(n) => NameError(n)
    case None => Served([GetMe, PutSettings])
  }

  /** Without `Optional` bound, the import fails on it, so neither `/me` nor `/me/settings` ever answers. */
  lemma ImportFailsWithoutOptional(bound: set<string>)
    requires "Optional" !in bound
    ensures ImportModule(bound) == NameError("Optional")
  {
    assert AnnotationNames[0] == "Optional" && "Optional" !in bound + Builtins;
  }

  /** As written, the module never serves a request: importing it raises `NameError` for `Optional`. */
  lemma EndpointsNeverAnswerAsWritten()
    ensures ImportModule(BoundAsWritten) == NameError("Optional")
    ensures !ImportModule(BoundAsWritten).Served?
  {
    ImportFailsWithoutOptional(BoundAsWritten);
  }

  /** With `Optional` imported, the module serves both routes, modelled by the methods of `UserTable`. */
  lemma CorrectedImportServesBoth()
    ensures ImportModule(BoundCorrected) == Served([GetMe, PutSettings])
  {
    assert forall k :: 0 <= k < |AnnotationNames| ==> AnnotationNames[k] in BoundCorrected + Builtins;
  }

  class UserTable {
    var users: seq<User>

    constructor ()
      ensures users == []
    {
      users := [];
    }

    /** `get_current_user`: the first user, created with the default name when there is none. */
    method GetCurrentUser(now: string) returns (u: User)
      modifies this
      ensures old(users) != [] ==> u == old(users)[0] && users == old(users)
      ensures old(users) == [] ==> u == NewUser(DefaultName, now) && users == [u]
      ensures users != [] && u == users[0]
    {
      if users == [] {
        u := NewUser(DefaultName, now);
        users := [u];
      } else {
        u := users[0];
      }
    }

    /** `update_user_settings`: updates the first user (creating it first when there is none) and marks it onboarded. */
    method UpdateUserSettings(s: UserSettingsUpdate, now: string) returns (u: User)
      modifies this
      ensures old(users) != [] ==> u == ApplySettings(old(users)[0], s) && users == old(users)[0 := u]
      ensures old(users) == [] ==> u == ApplySettings(NewUser(DefaultName, now), s) && users == [u]
      ensures u.isOnboarded && users != [] && users[0] == u
    {
      var current := if users == [] then NewUser(DefaultName, now) else users[0];
      u := ApplySettings(current, s);
      if users == [] {
        users := [u];
      } else {
        users := users[0 := u];
      }
    }
  }
}
