/**
 * The authentication settings' role table: the check of custom role names
 * and camera lists, and the built-in "admin" and "viewer" roles added after
 * it, plus the bounds on the session settings.
 */
module Auth {
  import opened Wrappers
  import Text

  /** A role table: role names in insertion order and each role's camera list. */
  datatype RoleMap = RoleMap(names: seq<string>, cameras: map<string, seq<string>>)

  /** The camera list of a role, empty when the role is absent. */
  function CamerasOf(r: RoleMap, name: string): seq<string> {
    if name in r.cameras then r.cameras[name] else []
  }

  /** `roles[name] = cameras`: an existing role keeps its place, a new one goes last. */
  function Assign(r: RoleMap, name: string, cameras: seq<string>): RoleMap {
    RoleMap(if name in r.cameras then r.names else r.names + [name], r.cameras[name := cameras])
  }

  /** The names are distinct and are exactly the keys. */
  ghost predicate WellFormed(r: RoleMap) {
    && (forall i, j :: 0 <= i < j < |r.names| ==> r.names[i] != r.names[j])
    && (forall k :: k in r.cameras <==> k in r.names)
  }

  /** `s.replace("_", "")`. */
  function WithoutUnderscores(s: string): (t: string)
    ensures forall i :: 0 <= i < |t| ==> t[i] != '_' && t[i] in s
    ensures (forall i :: 0 <= i < |s| ==> s[i] == '_') <==> t == []
  {
    if s == [] then []
    else (if s[0] == '_' then [] else [s[0]]) + WithoutUnderscores(s[1..])
  }

  /** `str.isalnum()` on ASCII text: non-empty, letters and digits only. */
  predicate IsAlnum(s: string) {
    s != [] && forall i :: 0 <= i < |s| ==> Text.IsLetter(s[i]) || Text.IsDigit(s[i])
  }

  /** A role name is letters, digits and underscores, with at least one letter or digit. */
  predicate ValidRoleName(name: string) {
    IsAlnum(WithoutUnderscores(name))
  }

  /** A name made of underscores only, or empty, is refused. */
  lemma UnderscoresOnlyInvalid(name: string)
    requires forall i :: 0 <= i < |name| ==> name[i] == '_'
    ensures !ValidRoleName(name)
  {
  }

  /** A name of ASCII letters, digits and underscores with one letter or digit is accepted. */
  lemma {:induction false} WordNameValid(name: string)
    requires forall i :: 0 <= i < |name| ==> Text.IsLetter(name[i]) || Text.IsDigit(name[i]) || name[i] == '_'
    requires exists i :: 0 <= i < |name| && name[i] != '_'
    ensures ValidRoleName(name)
  {
    var t := WithoutUnderscores(name);
    forall i | 0 <= i < |t|
      ensures Text.IsLetter(t[i]) || Text.IsDigit(t[i])
    {
      var j :| 0 <= j < |name| && name[j] == t[i];
    }
  }

  /** The roles that may not be defined in the configuration. */
  const ReservedRoles: set<string> := {"admin", "viewer"}

  /** Why `validate_roles` rejects a table, naming the offending role where the message does. */
  datatype RoleCheck = Valid | InvalidName(role: string) | ReservedName | NoCameras(role: string)

  /** The first name, in order, that is not a valid role name. */
  function FirstInvalidName(names: seq<string>): (r: Option<string>)
    ensures r.None? <==> forall i :: 0 <= i < |names| ==> ValidRoleName(names[i])
    ensures r.Some? ==> exists i :: 0 <= i < |names| && names[i] == r.value && !ValidRoleName(r.value)
                                    && forall j :: 0 <= j < i ==> ValidRoleName(names[j])
  {
    if names == [] then None
    else if !ValidRoleName(names[0]) then Some(names[0])
    else
      var rest := FirstInvalidName(names[1..]);
      if rest.Some? then
        var i :| 0 <= i < |names[1..]| && names[1..][i] == rest.value && !ValidRoleName(rest.value)
                 && forall j :: 0 <= j < i ==> ValidRoleName(names[1..][j]);
        assert names[i + 1] == rest.value;
        rest
      else rest
  }

  /** The first role, in order, whose camera list is empty. */
  function FirstWithoutCameras(r: RoleMap, names: seq<string>): (found: Option<string>)
    ensures found.None? <==> forall i :: 0 <= i < |names| ==> CamerasOf(r, names[i]) != []
    ensures found.Some? ==> exists i :: 0 <= i < |names| && names[i] == found.value && CamerasOf(r, found.value) == []
                                        && forall j :: 0 <= j < i ==> CamerasOf(r, names[j]) != []
  {
    if names == [] then None
    else if CamerasOf(r, names[0]) == [] then Some(names[0])
    else
      var rest := FirstWithoutCameras(r, names[1..]);
      if rest.Some? then
        var i :| 0 <= i < |names[1..]| && names[1..][i] == rest.value && CamerasOf(r, rest.value) == []
                 && forall j :: 0 <= j < i ==> CamerasOf(r, names[1..][j]) != [];
        assert names[i + 1] == rest.value;
        rest
      else rest
  }

  /**
   * `validate_roles`: first every name must be valid, then none may be
   * reserved, then every role needs a camera; the first failure found is
   * the error.
   */
  function ValidateRoles(r: RoleMap): (check: RoleCheck)
    ensures check == Valid <==>
              && (forall i :: 0 <= i < |r.names| ==> ValidRoleName(r.names[i]))
              && (forall i :: 0 <= i < |r.names| ==> r.names[i] !in ReservedRoles)
              && (forall i :: 0 <= i < |r.names| ==> CamerasOf(r, r.names[i]) != [])
    ensures check.ReservedName? ==> exists i :: 0 <= i < |r.names| && r.names[i] in ReservedRoles
    ensures check.InvalidName? ==> !ValidRoleName(check.role) && check.role in r.names
    ensures check.NoCameras? ==> CamerasOf(r, check.role) == [] && check.role in r.names
  {
    var invalid := FirstInvalidName(r.names);
    if invalid.Some? then InvalidName(invalid.value)
    else if exists i :: 0 <= i < |r.names| && r.names[i] in ReservedRoles then ReservedName
    else
      var empty := FirstWithoutCameras(r, r.names);
      if empty.Some? then NoCameras(empty.value) else Valid
  }

  /** `ensure_default_roles` on the table: "admin" and "viewer" are set to the empty list. */
  function WithDefaultRoles(r: RoleMap): RoleMap {
    Assign(Assign(r, "admin", []), "viewer", [])
  }

  /**
   * A table that passes validation ends with exactly the custom roles, in
   * order, each with its own non-empty camera list, followed by "admin" and
   * "viewer" with the empty list (access to every camera).
   */
  lemma ValidatedRolesFinal(r: RoleMap)
    requires WellFormed(r) && ValidateRoles(r) == Valid
    ensures var d := WithDefaultRoles(r);
            && WellFormed(d)
            && d.names == r.names + ["admin", "viewer"]
            && CamerasOf(d, "admin") == [] && CamerasOf(d, "viewer") == []
            && forall name :: name in r.names ==> CamerasOf(d, name) == CamerasOf(r, name) != []
  {
    var d := WithDefaultRoles(r);
    assert forall i :: 0 <= i < |r.names| ==> r.names[i] !in ReservedRoles && CamerasOf(r, r.names[i]) != [];
    assert "admin" !in r.names && "viewer" !in r.names;
    DefaultsAppended(r);
    DefaultRolesAlwaysSet(r);
  }

  /** Adding both built-in roles to a table without them appends them, in that order. */
  lemma DefaultsAppended(r: RoleMap)
    requires WellFormed(r) && "admin" !in r.names && "viewer" !in r.names
    ensures WellFormed(WithDefaultRoles(r)) && WithDefaultRoles(r).names == r.names + ["admin", "viewer"]
  {
    assert "admin" != "viewer" by {
      assert "admin"[0] != "viewer"[0];
    }
    assert WithDefaultRoles(r).names == r.names + ["admin"] + ["viewer"];
  }

  /** Whatever the table held, the built-in roles end with the empty list and every other role keeps its list. */
  lemma DefaultRolesAlwaysSet(r: RoleMap)
    ensures var d := WithDefaultRoles(r);
            && CamerasOf(d, "admin") == [] && CamerasOf(d, "viewer") == []
            && forall name :: name !in ReservedRoles ==> CamerasOf(d, name) == CamerasOf(r, name)
  {
  }

  // ------------------------------------------------------------- session settings

  /** `^[a-z_]+$`. */
  predicate CookieNameValid(name: string) {
    name != [] && forall i :: 0 <= i < |name| ==> Text.IsLower(name[i]) || name[i] == '_'
  }

  /** The field bounds: session length at least 60 s, refresh window at least 30 s, a lower-case cookie name. */
  predicate SessionSettingsValid(sessionLength: int, refreshTime: int, cookieName: string) {
    sessionLength >= 60 && refreshTime >= 30 && CookieNameValid(cookieName)
  }

  /** The authentication settings whose roles are checked and completed. */
  class AuthConfig {
    var roles: RoleMap
    var sessionLength: int
    var refreshTime: int
    var cookieName: string

    /** The defaults: no roles, a day-long session, a half-hour refresh window, cookie "frigate_token". */
    constructor ()
      ensures roles == RoleMap([], map[]) && sessionLength == 86400 && refreshTime == 1800 && cookieName == "frigate_token"
      ensures SessionSettingsValid(sessionLength, refreshTime, cookieName)
    {
      roles := RoleMap([], map[]);
      sessionLength := 86400;
      refreshTime := 1800;
      cookieName := "frigate_token";
    }

    /** `ensure_default_roles`. */
    method EnsureDefaultRoles()
      modifies this
      ensures roles == WithDefaultRoles(old(roles))
      ensures sessionLength == old(sessionLength) && refreshTime == old(refreshTime) && cookieName == old(cookieName)
    {
      roles := Assign(roles, "admin", []);
      roles := Assign(roles, "viewer", []);
    }
  }
}
