/** src/bms/app/auth.py: role updates over the users file and the roles file, written one after the other. */
module Identity {
  import opened Status

  datatype Role = Admin | Accountant | Cashier

  datatype User = User(actorId: string, displayName: string, active: bool)

  datatype Assignment = Assignment(actorId: string, roles: seq<Role>)

  datatype Files = Files(users: seq<User>, assignments: seq<Assignment>)

  datatype UpdateError = NoRoles | UnknownUser | LastAdmin

  datatype Update = Update(actorId: string, roles: seq<Role>, active: bool)

  /** The schemas accept each actor once in either file. */
  predicate Unique(f: Files) {
    && (forall i, j :: 0 <= i < j < |f.users| ==> f.users[i].actorId != f.users[j].actorId)
    && (forall i, j :: 0 <= i < j < |f.assignments| ==> f.assignments[i].actorId != f.assignments[j].actorId)
  }

  predicate IsUser(f: Files, actorId: string) { exists i :: 0 <= i < |f.users| && f.users[i].actorId == actorId }

  predicate ActiveUser(f: Files, actorId: string) {
    exists i :: 0 <= i < |f.users| && f.users[i].actorId == actorId && f.users[i].active
  }

  predicate AdminRole(f: Files, actorId: string) {
    exists i :: 0 <= i < |f.assignments| && f.assignments[i].actorId == actorId && Admin in f.assignments[i].roles
  }

  ghost predicate ActiveAdmin(f: Files) { exists id :: ActiveUser(f, id) && AdminRole(f, id) }

  function UpdatedUser(u: User, c: Update): User { if u.actorId == c.actorId then u.(active := c.active) else u }

  function UpdatedUsers(us: seq<User>, c: Update): (r: seq<User>)
    ensures |r| == |us| && forall i :: 0 <= i < |us| ==> r[i] == UpdatedUser(us[i], c)
  {
    seq(|us|, i requires 0 <= i < |us| => UpdatedUser(us[i], c))
  }

  /** dict.fromkeys: the roles without repetition, in order. */
  function WithoutRepetition(roles: seq<Role>): (r: seq<Role>)
    ensures forall x :: x in r <==> x in roles
  {
    if roles == [] then [] else
    var before := WithoutRepetition(roles[..|roles| - 1]);
    var x := roles[|roles| - 1];
    assert roles == roles[..|roles| - 1] + [x];
    if x in before then before else before + [x]
  }

  function Replaced(xs: seq<Assignment>, x: Assignment): (r: seq<Assignment>)
    ensures |r| == |xs| && forall i :: 0 <= i < |xs| ==> r[i] == if xs[i].actorId == x.actorId then x else xs[i]
  {
    seq(|xs|, i requires 0 <= i < |xs| => if xs[i].actorId == x.actorId then x else xs[i])
  }

  /** _replace_role_assignment. */
  function ReplaceAssignment(xs: seq<Assignment>, x: Assignment): seq<Assignment> {
    Replaced(xs, x) + (if exists i :: 0 <= i < |xs| && xs[i].actorId == x.actorId then [] else [x])
  }

  function Updated(f: Files, c: Update): Files {
    Files(UpdatedUsers(f.users, c), ReplaceAssignment(f.assignments, Assignment(c.actorId, WithoutRepetition(c.roles))))
  }

  ghost function RefuseUpdate(f: Files, c: Update): Option<UpdateError> {
    if c.roles == [] then Some(NoRoles)
    else if !IsUser(f, c.actorId) then Some(UnknownUser)
    else if !ActiveAdmin(Updated(f, c)) then Some(LastAdmin)
    else None
  }

  /** The files after the first k writes of an update: users first, then roles. */
  ghost function AfterWrites(f: Files, c: Update, k: nat): Files {
    if RefuseUpdate(f, c).Some? || k == 0 then f
    else if k == 1 then f.(users := Updated(f, c).users)
    else Updated(f, c)
  }

  class IdentityService {
    var users: seq<User>
    var assignments: seq<Assignment>

    function View(): Files
      reads this
    {
      Files(users, assignments)
    }

    method ReplaceRoleAssignment(x: Assignment) returns (r: seq<Assignment>)
      ensures r == ReplaceAssignment(assignments, x)
    {
      var found := false;
      r := [];
      var xs := assignments;
      for i := 0 to |xs|
        invariant found <==> exists k :: 0 <= k < i && xs[k].actorId == x.actorId
        invariant r == Replaced(xs, x)[..i]
      {
        if xs[i].actorId == x.actorId {
          found := true;
          r := r + [x];
        } else {
          r := r + [xs[i]];
        }
      }
      if !found {
        r := r + [x];
      }
    }

    method ActiveAdminRemains(us: seq<User>, xs: seq<Assignment>) returns (remains: bool)
      ensures remains <==> ActiveAdmin(Files(us, xs))
    {
      var active := set u | u in us && u.active :: u.actorId;
      ghost var f := Files(us, xs);
      forall id
        ensures id in active <==> ActiveUser(f, id)
      {
        ActiveIds(f, id, active);
      }
      for i := 0 to |xs|
        invariant forall k :: 0 <= k < i ==> !(xs[k].actorId in active && Admin in xs[k].roles)
      {
        if xs[i].actorId in active && Admin in xs[i].roles {
          assert ActiveUser(f, xs[i].actorId) && AdminRole(f, xs[i].actorId);
          return true;
        }
      }
      return false;
    }

    method UpdateUserRoles(c: Update) returns (error: Option<UpdateError>)
      modifies this
      ensures View() == AfterWrites(old(View()), c, 2) && error == RefuseUpdate(old(View()), c)
    {
      hide ActiveAdmin, UpdatedUsers, WithoutRepetition, ReplaceAssignment;
      if c.roles == [] {
        return Some(NoRoles);
      }
      if !IsUser(View(), c.actorId) {
        return Some(UnknownUser);
      }
      var updatedUsers := UpdatedUsers(users, c);
      var updatedAssignments := ReplaceRoleAssignment(Assignment(c.actorId, WithoutRepetition(c.roles)));
      var remains := ActiveAdminRemains(updatedUsers, updatedAssignments);
      if !remains {
        return Some(LastAdmin);
      }
      users := updatedUsers;
      assignments := updatedAssignments;
      return None;
    }
  }

  lemma ActiveIds(f: Files, id: string, active: set<string>)
    requires active == set u | u in f.users && u.active :: u.actorId
    ensures id in active <==> ActiveUser(f, id)
  {
    if id in active {
      var u :| u in f.users && u.active && u.actorId == id;
      var i :| 0 <= i < |f.users| && f.users[i] == u;
    }
    if ActiveUser(f, id) {
      var i :| 0 <= i < |f.users| && f.users[i].actorId == id && f.users[i].active;
      assert f.users[i] in f.users;
    }
  }

  // ---------------------------------------------------------------- an active admin remains

  /** The update touches only its own actor. */
  lemma OthersKeepStanding(f: Files, c: Update, id: string)
    requires id != c.actorId
    ensures ActiveUser(Updated(f, c), id) <==> ActiveUser(f, id)
    ensures AdminRole(Updated(f, c), id) <==> AdminRole(f, id)
  {
    var r := Updated(f, c);
    if i :| 0 <= i < |f.users| && f.users[i].actorId == id && f.users[i].active {
      assert r.users[i] == f.users[i];
    }
    if i :| 0 <= i < |r.users| && r.users[i].actorId == id && r.users[i].active {
      assert r.users[i] == f.users[i];
    }
    if i :| 0 <= i < |f.assignments| && f.assignments[i].actorId == id && Admin in f.assignments[i].roles {
      assert r.assignments[i] == f.assignments[i];
    }
    if i :| 0 <= i < |r.assignments| && r.assignments[i].actorId == id && Admin in r.assignments[i].roles {
      assert i < |f.assignments| && r.assignments[i] == f.assignments[i];
    }
  }

  lemma SameUsers(f: Files, g: Files, id: string)
    ensures f.users == g.users ==> ActiveUser(f, id) == ActiveUser(g, id)
    ensures f.assignments == g.assignments ==> AdminRole(f, id) == AdminRole(g, id)
  {
  }

  /** Between the two writes: the new users under the old roles still hold an active admin. */
  lemma AdminBetweenWrites(f: Files, c: Update)
    requires ActiveAdmin(f) && RefuseUpdate(f, c).None?
    ensures ActiveAdmin(f.(users := Updated(f, c).users))
  {
    hide ActiveUser, AdminRole, Updated, IsUser;
    var r, m := Updated(f, c), f.(users := Updated(f, c).users);
    var before :| ActiveUser(f, before) && AdminRole(f, before);
    var after :| ActiveUser(r, after) && AdminRole(r, after);
    SameUsers(m, r, before);
    SameUsers(m, r, after);
    SameUsers(m, f, before);
    SameUsers(m, f, after);
    if before != c.actorId {
      OthersKeepStanding(f, c, before);
      assert ActiveUser(m, before) && AdminRole(m, before);
    } else {
      if after != c.actorId {
        OthersKeepStanding(f, c, after);
      }
      assert ActiveUser(m, after) && AdminRole(m, after);
    }
  }

  lemma UniqueRemains(f: Files, c: Update, k: nat)
    requires Unique(f)
    ensures Unique(AfterWrites(f, c, k))
  {
    hide ActiveAdmin, WithoutRepetition, IsUser;
  }

  /** An update that stopped after some of its two writes. */
  datatype Attempt = Attempt(update: Update, writes: nat)

  ghost function RunUpdates(f: Files, attempts: seq<Attempt>): Files {
    if attempts == [] then f else
    var last := attempts[|attempts| - 1];
    AfterWrites(RunUpdates(f, attempts[..|attempts| - 1]), last.update, last.writes)
  }

  lemma AttemptKeepsAdmin(f: Files, c: Update, k: nat)
    requires ActiveAdmin(f)
    ensures ActiveAdmin(AfterWrites(f, c, k))
  {
    hide ActiveAdmin, Updated, IsUser;
    if RefuseUpdate(f, c).None? {
      AdminBetweenWrites(f, c);
    }
  }

  /** Starting from an active admin, one remains in every state of every run of role updates, each of them
      cut in front of, between or behind its two writes; and no actor ever gets a second user or assignment. */
  lemma {:induction false} AdminAlwaysRemains(f: Files, attempts: seq<Attempt>)
    requires ActiveAdmin(f)
    ensures ActiveAdmin(RunUpdates(f, attempts))
    ensures Unique(f) ==> Unique(RunUpdates(f, attempts))
  {
    hide ActiveAdmin, Unique, AfterWrites;
    if attempts != [] {
      var n := |attempts| - 1;
      AdminAlwaysRemains(f, attempts[..n]);
      var r, last := RunUpdates(f, attempts[..n]), attempts[n];
      AttemptKeepsAdmin(r, last.update, last.writes);
      if Unique(r) {
        UniqueRemains(r, last.update, last.writes);
      }
    }
  }

  // ---------------------------------------------------------------- what an update stores

  /** Every requested role once, in the order of first occurrence. */
  predicate InOrder(requested: seq<Role>, roles: seq<Role>) {
    && (forall x :: x in roles <==> x in requested)
    && (forall i, j :: 0 <= i < j < |roles| ==> roles[i] != roles[j] && Earlier(requested, roles[i], roles[j]))
  }

  /** The first x comes in front of every y. */
  predicate Earlier(requested: seq<Role>, x: Role, y: Role) {
    exists a :: 0 <= a < |requested| && requested[a] == x && y !in requested[..a]
  }

  lemma EarlierStays(requested: seq<Role>, last: Role, x: Role, y: Role)
    requires Earlier(requested, x, y)
    ensures Earlier(requested + [last], x, y)
  {
    var a :| 0 <= a < |requested| && requested[a] == x && y !in requested[..a];
    assert (requested + [last])[a] == x && (requested + [last])[..a] == requested[..a];
  }

  lemma {:induction false} OrderOfRoles(requested: seq<Role>)
    ensures InOrder(requested, WithoutRepetition(requested))
  {
    if requested != [] {
      var n := |requested| - 1;
      var last, before, roles := requested[n], WithoutRepetition(requested[..n]), WithoutRepetition(requested);
      OrderOfRoles(requested[..n]);
      assert requested == requested[..n] + [last];
      forall i, j | 0 <= i < j < |roles|
        ensures roles[i] != roles[j] && Earlier(requested, roles[i], roles[j])
      {
        if j < |before| {
          EarlierStays(requested[..n], last, roles[i], roles[j]);
        } else {
          assert roles[i] in requested[..n];
          var a :| 0 <= a < n && requested[a] == roles[i];
          assert last !in requested[..n];
          assert last !in requested[..a];
        }
      }
    }
  }

  /** Users keep their places, names and, but for the actor, their active flags; the actor's is the requested
      one. Assignments keep their places too, a first one is added behind them, and only the actor's
      changes: it holds the requested roles. */
  lemma UpdateStores(f: Files, c: Update)
    requires RefuseUpdate(f, c).None?
    ensures var r := AfterWrites(f, c, 2);
      && |r.users| == |f.users|
      && (forall i :: 0 <= i < |f.users| ==>
            && r.users[i].actorId == f.users[i].actorId && r.users[i].displayName == f.users[i].displayName
            && r.users[i].active == if f.users[i].actorId == c.actorId then c.active else f.users[i].active)
      && |r.assignments| == |f.assignments|
           + (if exists i :: 0 <= i < |f.assignments| && f.assignments[i].actorId == c.actorId then 0 else 1)
      && (forall i :: 0 <= i < |r.assignments| && (i == |f.assignments| || f.assignments[i].actorId == c.actorId) ==>
            r.assignments[i].actorId == c.actorId && InOrder(c.roles, r.assignments[i].roles))
      && (forall i :: 0 <= i < |f.assignments| && f.assignments[i].actorId != c.actorId ==>
           r.assignments[i] == f.assignments[i])
  {
    OrderOfRoles(c.roles);
    hide ActiveAdmin, IsUser, InOrder, WithoutRepetition;
  }

  /** So the actor is an admin exactly when the role was requested, and active exactly when that was. */
  lemma UpdateGrants(f: Files, c: Update)
    requires RefuseUpdate(f, c).None?
    ensures var r := AfterWrites(f, c, 2);
      (AdminRole(r, c.actorId) <==> Admin in c.roles) && (ActiveUser(r, c.actorId) <==> c.active)
  {
    UpdateStores(f, c);
    assert IsUser(f, c.actorId);
    hide AfterWrites, RefuseUpdate;
    var r := AfterWrites(f, c, 2);
    var k :| 0 <= k < |f.users| && f.users[k].actorId == c.actorId;
    assert r.users[k].actorId == c.actorId && r.users[k].active == c.active;
    if i :| 0 <= i < |f.assignments| && f.assignments[i].actorId == c.actorId {
      assert r.assignments[i].actorId == c.actorId && InOrder(c.roles, r.assignments[i].roles);
    } else {
      assert r.assignments[|f.assignments|].actorId == c.actorId
        && InOrder(c.roles, r.assignments[|f.assignments|].roles);
    }
  }

  /** An update is refused exactly when it asks for no role, names no user, or would leave no active admin:
      neither the actor himself nor anybody else. */
  lemma RefusedExactly(f: Files, c: Update)
    ensures RefuseUpdate(f, c).None? <==>
      && c.roles != [] && IsUser(f, c.actorId)
      && ((c.active && Admin in c.roles) || exists id :: id != c.actorId && ActiveUser(f, id) && AdminRole(f, id))
  {
    var r := Updated(f, c);
    if c.roles != [] && IsUser(f, c.actorId) {
      OwnStanding(f, c);
      hide Updated, IsUser, ActiveUser, AdminRole;
      if ActiveAdmin(r) {
        var id :| ActiveUser(r, id) && AdminRole(r, id);
        if id != c.actorId {
          OthersKeepStanding(f, c, id);
        }
      }
      if c.active && Admin in c.roles {
        assert ActiveUser(r, c.actorId) && AdminRole(r, c.actorId);
      }
      if id :| id != c.actorId && ActiveUser(f, id) && AdminRole(f, id) {
        OthersKeepStanding(f, c, id);
        assert ActiveUser(r, id) && AdminRole(r, id);
      }
    }
  }

  lemma OwnStanding(f: Files, c: Update)
    requires IsUser(f, c.actorId)
    ensures ActiveUser(Updated(f, c), c.actorId) <==> c.active
    ensures AdminRole(Updated(f, c), c.actorId) <==> Admin in c.roles
  {
    var r := Updated(f, c);
    var k :| 0 <= k < |f.users| && f.users[k].actorId == c.actorId;
    assert r.users[k].actorId == c.actorId && r.users[k].active == c.active;
    if i :| 0 <= i < |f.assignments| && f.assignments[i].actorId == c.actorId {
      assert r.assignments[i] == Assignment(c.actorId, WithoutRepetition(c.roles));
    } else {
      assert r.assignments[|f.assignments|] == Assignment(c.actorId, WithoutRepetition(c.roles));
    }
  }
}
