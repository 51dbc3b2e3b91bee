/** The project list of a user: one entry per user binding, then group bindings that add a project or
    a higher role. */
module ProjectRoles {

  datatype ProjectGroup = ProjectGroup(id: string, role: string)

  /** The role of a user binding is the prefix of its group name up to the first dash. */
  datatype UserBinding = UserBinding(project: string, groupName: string)

  datatype GroupBinding = GroupBinding(project: string, role: string)

  /** RolePriority, with 0 for a role that is not in the table. */
  function Priority(role: string): nat
  {
    if role == "owners" then 1000
    else if role == "projectmanagers" then 100
    else if role == "editors" then 10
    else if role == "viewers" then 1
    else 0
  }

  /** The roles by rank, the highest first. */
  const ROLES: seq<string> := ["owners", "projectmanagers", "editors", "viewers"]

  /** One role ranks above another one; any other role ranks below these four. */
  predicate Outranks(a: string, b: string)
  {
    exists i :: 0 <= i < |ROLES| && ROLES[i] == a && b !in ROLES[..i + 1]
  }

  function GroupPrefix(groupName: string): string
  {
    if groupName == "" || groupName[0] == '-' then "" else [groupName[0]] + GroupPrefix(groupName[1..])
  }

  /** The prefix has no dash, and either is the whole name or is followed by the first dash. */
  lemma {:induction false} PrefixEndsAtFirstDash(groupName: string)
    ensures '-' !in GroupPrefix(groupName)
    ensures GroupPrefix(groupName) <= groupName
    ensures GroupPrefix(groupName) == groupName || groupName[|GroupPrefix(groupName)|] == '-'
  {
    if groupName != "" && groupName[0] != '-' {
      PrefixEndsAtFirstDash(groupName[1..]);
    }
  }

  function FromUser(b: UserBinding): ProjectGroup
  {
    ProjectGroup(b.project, GroupPrefix(b.groupName))
  }

  function FromGroup(b: GroupBinding): ProjectGroup
  {
    ProjectGroup(b.project, b.role)
  }

  function UserEntries(bindings: seq<UserBinding>): seq<ProjectGroup>
  {
    seq(|bindings|, i requires 0 <= i < |bindings| => FromUser(bindings[i]))
  }

  function GroupEntries(bindings: seq<GroupBinding>): seq<ProjectGroup>
  {
    seq(|bindings|, i requires 0 <= i < |bindings| => FromGroup(bindings[i]))
  }

  /** Every binding of the user, as an entry. */
  function AllBindings(users: seq<UserBinding>, groups: seq<GroupBinding>): seq<ProjectGroup>
  {
    UserEntries(users) + GroupEntries(groups)
  }

  /** The position of the first entry of a project, or the length of the list. */
  function First(list: seq<ProjectGroup>, project: string): (i: nat)
    ensures i <= |list|
    ensures i < |list| ==> list[i].id == project
    ensures forall j :: 0 <= j < i ==> list[j].id != project
  {
    if list == [] then 0
    else if list[0].id == project then 0
    else
      var i := First(list[1..], project) + 1;
      assert forall j :: 0 < j < i ==> list[j] == list[1..][j - 1];
      i
  }

  /** Whether the inner loop adds the entry: the project is new, or the role beats its first entry. */
  predicate Adds(list: seq<ProjectGroup>, entry: ProjectGroup)
  {
    var i := First(list, entry.id);
    i == |list| || Priority(entry.role) > Priority(list[i].role)
  }

  function Merged(list: seq<ProjectGroup>, groups: seq<GroupBinding>): seq<ProjectGroup>
  {
    if groups == [] then list
    else
      var before := Merged(list, groups[..|groups| - 1]);
      var entry := FromGroup(groups[|groups| - 1]);
      if Adds(before, entry) then before + [entry] else before
  }

  function Projects(users: seq<UserBinding>, groups: seq<GroupBinding>): seq<ProjectGroup>
  {
    Merged(UserEntries(users), groups)
  }

  method ExtractGroupPrefix(groupName: string) returns (prefix: string)
    ensures prefix == GroupPrefix(groupName)
  {
    // The first piece of the name split at dashes.
    var i := 0;
    assert groupName[0..] == groupName;
    while i < |groupName| && groupName[i] != '-'
      invariant 0 <= i <= |groupName|
      invariant GroupPrefix(groupName) == groupName[..i] + GroupPrefix(groupName[i..])
    {
      assert groupName[i..][1..] == groupName[i + 1..];
      assert groupName[..i] + ([groupName[i]] + GroupPrefix(groupName[i + 1..]))
          == groupName[..i + 1] + GroupPrefix(groupName[i + 1..]);
      i := i + 1;
    }
    prefix := groupName[..i];
    assert GroupPrefix(groupName[i..]) == "";
    assert groupName[..i] + "" == groupName[..i];
  }

  /** The inner loop: look for the first entry of the project, then append or not. */
  method MergeBinding(projects: seq<ProjectGroup>, binding: GroupBinding) returns (r: seq<ProjectGroup>)
    ensures r == if Adds(projects, FromGroup(binding)) then projects + [FromGroup(binding)] else projects
  {
    var overwriteRole, bindingAlreadyExists := false, false;
    var k := 0;
    while k < |projects|
      invariant 0 <= k <= |projects|
      invariant !overwriteRole && !bindingAlreadyExists
      invariant forall j :: 0 <= j < k ==> projects[j].id != binding.project
    {
      var pg := projects[k];
      if pg.id == binding.project {
        bindingAlreadyExists := true;
        if Priority(binding.role) > Priority(pg.role) {
          overwriteRole := true;
        }
        break;
      }
      k := k + 1;
    }
    assert k == First(projects, binding.project);
    r := projects;
    if overwriteRole || !bindingAlreadyExists {
      r := r + [ProjectGroup(binding.project, binding.role)];
    }
  }

  method ConvertInternalUserToExternal(users: seq<UserBinding>, groups: seq<GroupBinding>)
    returns (projects: seq<ProjectGroup>)
    ensures projects == Projects(users, groups)
  {
    projects := [];
    var i := 0;
    while i < |users|
      invariant 0 <= i <= |users|
      invariant projects == UserEntries(users)[..i]
    {
      var groupPrefix := ExtractGroupPrefix(users[i].groupName);
      projects := projects + [ProjectGroup(users[i].project, groupPrefix)];
      i := i + 1;
    }
    assert projects == UserEntries(users);
    i := 0;
    while i < |groups|
      invariant 0 <= i <= |groups|
      invariant projects == Merged(UserEntries(users), groups[..i])
    {
      projects := MergeBinding(projects, groups[i]);
      assert groups[..i + 1][..i] == groups[..i];
      i := i + 1;
    }
    assert groups[..i] == groups;
  }

  lemma BindingsOneMore(users: seq<UserBinding>, groups: seq<GroupBinding>)
    requires groups != []
    ensures AllBindings(users, groups)
         == AllBindings(users, groups[..|groups| - 1]) + [FromGroup(groups[|groups| - 1])]
  {
  }

  /** The numbers of the table say the same as the rank by name. */
  lemma PriorityIsRank(a: string, b: string)
    ensures Priority(a) > Priority(b) <==> Outranks(a, b)
  {
    assert ROLES[0] == "owners" && ROLES[1] == "projectmanagers" && ROLES[2] == "editors" && ROLES[3] == "viewers";
    assert ROLES[..1] == ["owners"];
    assert ROLES[..2] == ["owners", "projectmanagers"];
    assert ROLES[..3] == ["owners", "projectmanagers", "editors"];
    assert ROLES[..4] == ["owners", "projectmanagers", "editors", "viewers"];
  }

  // ----- the best role of a project -----

  /** The highest priority over all entries of a project; 0 when there is none. */
  function Best(list: seq<ProjectGroup>, project: string): nat
  {
    if list == [] then 0
    else
      var last := list[|list| - 1];
      var rest := Best(list[..|list| - 1], project);
      if last.id == project && Priority(last.role) > rest then Priority(last.role) else rest
  }

  predicate Lists(list: seq<ProjectGroup>, project: string)
  {
    exists i :: 0 <= i < |list| && list[i].id == project
  }

  lemma {:induction false} BestIsLargest(list: seq<ProjectGroup>, project: string)
    ensures forall i :: 0 <= i < |list| && list[i].id == project ==> Priority(list[i].role) <= Best(list, project)
    ensures Lists(list, project) ==>
              exists i :: 0 <= i < |list| && list[i].id == project && Priority(list[i].role) == Best(list, project)
    ensures !Lists(list, project) ==> Best(list, project) == 0
  {
    if list != [] {
      var n := |list| - 1;
      BestIsLargest(list[..n], project);
      if Lists(list, project) && !(list[n].id == project && Priority(list[n].role) >= Best(list[..n], project)) {
        var i :| 0 <= i < |list| && list[i].id == project;
        assert Lists(list[..n], project) by {
          if i < n { assert list[..n][i].id == project; }
        }
        var j :| 0 <= j < n && list[..n][j].id == project && Priority(list[..n][j].role) == Best(list[..n], project);
        assert list[j].id == project;
      }
    }
  }

  lemma BestOneMore(list: seq<ProjectGroup>, entry: ProjectGroup, project: string)
    ensures Best(list + [entry], project)
         == if entry.id == project && Priority(entry.role) > Best(list, project)
            then Priority(entry.role) else Best(list, project)
    ensures Lists(list + [entry], project) <==> Lists(list, project) || entry.id == project
  {
    var more := list + [entry];
    assert more[..|list|] == list;
    assert more[|list|] == entry;
    if i :| 0 <= i < |list| && list[i].id == project {
      assert more[i].id == project;
    }
  }

  /** The best role of every project is the best over all its bindings, and exactly the projects with a
      binding are listed. */
  lemma {:induction false} BestRoleIsKept(users: seq<UserBinding>, groups: seq<GroupBinding>, project: string)
    ensures Best(Projects(users, groups), project) == Best(AllBindings(users, groups), project)
    ensures Lists(Projects(users, groups), project) <==> Lists(AllBindings(users, groups), project)
  {
    if groups == [] {
      assert AllBindings(users, []) == UserEntries(users);
    } else {
      var n := |groups| - 1;
      var before := Projects(users, groups[..n]);
      var entry := FromGroup(groups[n]);
      BestRoleIsKept(users, groups[..n], project);
      BindingsOneMore(users, groups);
      BestOneMore(AllBindings(users, groups[..n]), entry, project);
      BestOneMore(before, entry, project);
      if !Adds(before, entry) && entry.id == project {
        BestIsLargest(before, project);
        assert before[First(before, project)].id == project;
      }
    }
  }

  /** Some entry of the project has the role. */
  predicate HasRole(list: seq<ProjectGroup>, project: string, role: string)
  {
    exists i :: 0 <= i < |list| && list[i] == ProjectGroup(project, role)
  }

  lemma RolesAbove()
    ensures forall role :: !Outranks(role, "owners")
    ensures forall role :: Outranks(role, "projectmanagers") <==> role == "owners"
    ensures forall role :: Outranks(role, "editors") <==> role == "owners" || role == "projectmanagers"
    ensures forall role :: Outranks(role, "viewers")
                           <==> role == "owners" || role == "projectmanagers" || role == "editors"
  {
    forall role
      ensures !Outranks(role, "owners")
      ensures Outranks(role, "projectmanagers") <==> role == "owners"
      ensures Outranks(role, "editors") <==> role == "owners" || role == "projectmanagers"
      ensures Outranks(role, "viewers") <==> role == "owners" || role == "projectmanagers" || role == "editors"
    {
      PriorityIsRank(role, "owners");
      PriorityIsRank(role, "projectmanagers");
      PriorityIsRank(role, "editors");
      PriorityIsRank(role, "viewers");
    }
  }

  lemma SamePriority(a: string, b: string)
    requires Priority(a) == Priority(b) && b in ROLES
    ensures a == b
  {
  }

  /** The role of a binding is in the list for its project, or one that is not below it is. */
  lemma KeptOrOutranked(users: seq<UserBinding>, groups: seq<GroupBinding>, project: string, role: string)
    requires role in ROLES
    ensures HasRole(AllBindings(users, groups), project, role) ==>
              || HasRole(Projects(users, groups), project, role)
              || exists higher :: Outranks(higher, role) && HasRole(Projects(users, groups), project, higher)
  {
    var all, list := AllBindings(users, groups), Projects(users, groups);
    if HasRole(all, project, role) {
      var i :| 0 <= i < |all| && all[i] == ProjectGroup(project, role);
      BestRoleIsKept(users, groups, project);
      BestIsLargest(all, project);
      BestIsLargest(list, project);
      assert Lists(all, project) by { assert all[i].id == project; }
      var j :| 0 <= j < |list| && list[j].id == project && Priority(list[j].role) == Best(list, project);
      assert Priority(list[j].role) >= Priority(role);
      assert list[j] == ProjectGroup(project, list[j].role);
      assert HasRole(list, project, list[j].role);
      if Priority(list[j].role) > Priority(role) {
        PriorityIsRank(list[j].role, role);
      } else {
        SamePriority(list[j].role, role);
      }
    }
  }

  /** The user entries are a prefix of the list, in their order; behind them come group bindings in
      their order, some left out. */
  lemma {:induction false} UserEntriesComeFirst(users: seq<UserBinding>, groups: seq<GroupBinding>)
    returns (picked: seq<nat>)
    ensures |picked| <= |groups|
    ensures forall i :: 0 <= i < |picked| ==> picked[i] < |groups|
    ensures forall i, j :: 0 <= i < j < |picked| ==> picked[i] < picked[j]
    ensures var list := Projects(users, groups);
            && |list| == |users| + |picked|
            && (forall i :: 0 <= i < |users| ==>
                  list[i] == ProjectGroup(users[i].project, GroupPrefix(users[i].groupName)))
            && forall i :: 0 <= i < |picked| ==>
                 list[|users| + i] == ProjectGroup(groups[picked[i]].project, groups[picked[i]].role)
  {
    picked := [];
    if groups != [] {
      var n := |groups| - 1;
      picked := UserEntriesComeFirst(users, groups[..n]);
      if Adds(Projects(users, groups[..n]), FromGroup(groups[n])) {
        picked := picked + [n];
      }
    }
  }

  lemma NoRoleIsInvented(users: seq<UserBinding>, groups: seq<GroupBinding>, project: string, role: string)
    requires HasRole(Projects(users, groups), project, role)
    ensures HasRole(AllBindings(users, groups), project, role)
  {
    var picked := UserEntriesComeFirst(users, groups);
    var list, all := Projects(users, groups), AllBindings(users, groups);
    var i :| 0 <= i < |list| && list[i] == ProjectGroup(project, role);
    if i < |users| {
      assert all[i] == list[i];
    } else {
      assert all[|users| + picked[i - |users|]] == list[i];
    }
  }

  /** Some binding gives the role for the project: a user binding by the prefix of its group name, or a
      group binding. */
  predicate Gives(users: seq<UserBinding>, groups: seq<GroupBinding>, project: string, role: string)
  {
    || (exists i :: 0 <= i < |users| && users[i].project == project && GroupPrefix(users[i].groupName) == role)
    || (exists i :: 0 <= i < |groups| && groups[i] == GroupBinding(project, role))
  }

  lemma GivesIff(users: seq<UserBinding>, groups: seq<GroupBinding>, project: string, role: string)
    ensures Gives(users, groups, project, role) <==> HasRole(AllBindings(users, groups), project, role)
  {
    var all := AllBindings(users, groups);
    if i :| 0 <= i < |users| && users[i].project == project && GroupPrefix(users[i].groupName) == role {
      assert all[i] == ProjectGroup(project, role);
    }
    if i :| 0 <= i < |groups| && groups[i] == GroupBinding(project, role) {
      assert all[|users| + i] == ProjectGroup(project, role);
    }
    if i :| 0 <= i < |all| && all[i] == ProjectGroup(project, role) {
      if i < |users| {
        assert users[i].project == project && GroupPrefix(users[i].groupName) == role;
      } else {
        assert groups[i - |users|] == GroupBinding(project, role);
      }
    }
  }

  /** The best role by name: of the four roles, the highest one that any binding gives for a project is
      in the list for it, and the list gives no role that no binding gives. */
  lemma BestRoleByName(users: seq<UserBinding>, groups: seq<GroupBinding>, project: string)
    ensures var list := Projects(users, groups);
            && (Gives(users, groups, project, "owners") ==> HasRole(list, project, "owners"))
            && (Gives(users, groups, project, "projectmanagers") ==>
                  HasRole(list, project, "owners") || HasRole(list, project, "projectmanagers"))
            && (Gives(users, groups, project, "editors") ==>
                  || HasRole(list, project, "owners") || HasRole(list, project, "projectmanagers")
                  || HasRole(list, project, "editors"))
            && (Gives(users, groups, project, "viewers") ==>
                  || HasRole(list, project, "owners") || HasRole(list, project, "projectmanagers")
                  || HasRole(list, project, "editors") || HasRole(list, project, "viewers"))
            && forall role :: HasRole(list, project, role) ==> Gives(users, groups, project, role)
  {
    GivesIff(users, groups, project, "owners");
    GivesIff(users, groups, project, "projectmanagers");
    GivesIff(users, groups, project, "editors");
    GivesIff(users, groups, project, "viewers");
    KeptOrOutranked(users, groups, project, "owners");
    KeptOrOutranked(users, groups, project, "projectmanagers");
    KeptOrOutranked(users, groups, project, "editors");
    KeptOrOutranked(users, groups, project, "viewers");
    forall role | HasRole(Projects(users, groups), project, role)
      ensures Gives(users, groups, project, role)
    {
      GivesIff(users, groups, project, role);
      NoRoleIsInvented(users, groups, project, role);
    }
    RolesAbove();
  }

  lemma SameEntry(users: seq<UserBinding>, a: seq<GroupBinding>, b: seq<GroupBinding>, i: nat) returns (j: nat)
    requires multiset(a) == multiset(b) && i < |AllBindings(users, a)|
    ensures j < |AllBindings(users, b)| && AllBindings(users, b)[j] == AllBindings(users, a)[i]
  {
    if i < |users| {
      j := i;
    } else {
      var g := a[i - |users|];
      assert g in multiset(a);
      assert g in multiset(b);
      var k :| 0 <= k < |b| && b[k] == g;
      j := |users| + k;
    }
  }

  lemma NoBetterAfterReordering(users: seq<UserBinding>, a: seq<GroupBinding>, b: seq<GroupBinding>, project: string)
    requires multiset(a) == multiset(b)
    ensures Best(AllBindings(users, a), project) <= Best(AllBindings(users, b), project)
    ensures Lists(AllBindings(users, a), project) ==> Lists(AllBindings(users, b), project)
  {
    var x, y := AllBindings(users, a), AllBindings(users, b);
    BestIsLargest(x, project);
    BestIsLargest(y, project);
    if Lists(x, project) {
      var i :| 0 <= i < |x| && x[i].id == project && Priority(x[i].role) == Best(x, project);
      var j := SameEntry(users, a, b, i);
      assert y[j].id == project;
    }
  }

  /** Neither the best role nor the listed projects depend on the order of the group bindings. */
  lemma BestRoleIgnoresGroupOrder(users: seq<UserBinding>, a: seq<GroupBinding>, b: seq<GroupBinding>, project: string)
    requires multiset(a) == multiset(b)
    ensures Best(Projects(users, a), project) == Best(Projects(users, b), project)
    ensures Lists(Projects(users, a), project) <==> Lists(Projects(users, b), project)
  {
    BestRoleIsKept(users, a, project);
    BestRoleIsKept(users, b, project);
    NoBetterAfterReordering(users, a, b, project);
    NoBetterAfterReordering(users, b, a, project);
  }

  // ----- repeated projects -----

  predicate OncePerProject(list: seq<ProjectGroup>)
  {
    forall i, j :: 0 <= i < j < |list| ==> list[i].id != list[j].id
  }

  lemma FirstOneMore(list: seq<ProjectGroup>, entry: ProjectGroup, project: string)
    ensures First(list + [entry], project)
         == if First(list, project) < |list| then First(list, project)
            else if entry.id == project then |list| else |list| + 1
  {
    var more := list + [entry];
    var i := First(more, project);
    assert forall j :: 0 <= j < |list| ==> more[j] == list[j];
    assert more[|list|] == entry;
  }

  /** The first entry of a project in the result is its first binding. */
  lemma {:induction false} FirstEntryIsFirstBinding(users: seq<UserBinding>, groups: seq<GroupBinding>, project: string)
    ensures var list, all := Projects(users, groups), AllBindings(users, groups);
            var i, j := First(list, project), First(all, project);
            && (i == |list| <==> j == |all|)
            && (i < |list| ==> list[i] == all[j])
  {
    if groups == [] {
      assert AllBindings(users, []) == UserEntries(users);
    } else {
      var n := |groups| - 1;
      var entry := FromGroup(groups[n]);
      FirstEntryIsFirstBinding(users, groups[..n], project);
      BindingsOneMore(users, groups);
      FirstOneMore(AllBindings(users, groups[..n]), entry, project);
      FirstOneMore(Projects(users, groups[..n]), entry, project);
    }
  }

  /** A group binding outranks the first binding of its project, which is an earlier one. */
  predicate Overrides(users: seq<UserBinding>, groups: seq<GroupBinding>, g: nat)
    requires g < |groups|
  {
    var all := AllBindings(users, groups);
    var i := First(all, groups[g].project);
    i < |users| + g && Outranks(groups[g].role, all[i].role)
  }

  lemma OverridesOneMore(users: seq<UserBinding>, groups: seq<GroupBinding>, g: nat)
    requires g < |groups| - 1
    ensures Overrides(users, groups, g) <==> Overrides(users, groups[..|groups| - 1], g)
  {
    var n, project := |groups| - 1, groups[g].project;
    var fewer, entry := AllBindings(users, groups[..n]), FromGroup(groups[n]);
    BindingsOneMore(users, groups);
    FirstOneMore(fewer, entry, project);
    assert fewer[|users| + g].id == project;
    var i := First(fewer, project);
    assert i <= |users| + g < |fewer|;
    assert First(AllBindings(users, groups), project) == i;
    assert AllBindings(users, groups)[i] == (fewer + [entry])[i] == fewer[i];
    assert groups[..n][g] == groups[g];
  }

  lemma OnceOneMore(list: seq<ProjectGroup>, entry: ProjectGroup)
    ensures OncePerProject(list + [entry]) <==> OncePerProject(list) && First(list, entry.id) == |list|
  {
    var more := list + [entry];
    assert forall j :: 0 <= j < |list| ==> more[j] == list[j];
    assert more[|list|] == entry;
    var i := First(list, entry.id);
    if i < |list| {
      assert more[i].id == more[|list|].id;
      assert !OncePerProject(more);
    }
  }

  /** Every project has one entry if and only if the user bindings are for different projects and no
      group binding outranks the first binding of its project: a better role is appended, it does not
      replace the entry. */
  lemma {:induction false} OncePerProjectIff(users: seq<UserBinding>, groups: seq<GroupBinding>)
    ensures OncePerProject(Projects(users, groups))
            <==> && OncePerProject(UserEntries(users))
                 && forall g :: 0 <= g < |groups| ==> !Overrides(users, groups, g)
  {
    if groups != [] {
      var n := |groups| - 1;
      OncePerProjectIff(users, groups[..n]);
      var before := Projects(users, groups[..n]);
      var entry := FromGroup(groups[n]);
      BindingsOneMore(users, groups);
      forall g | 0 <= g < n
        ensures Overrides(users, groups, g) <==> Overrides(users, groups[..n], g)
      {
        OverridesOneMore(users, groups, g);
      }
      FirstEntryIsFirstBinding(users, groups[..n], entry.id);
      FirstOneMore(AllBindings(users, groups[..n]), entry, entry.id);
      var i := First(before, entry.id);
      assert Overrides(users, groups, n) <==> i < |before| && Outranks(entry.role, before[i].role);
      if i < |before| { PriorityIsRank(entry.role, before[i].role); }
      assert Adds(before, entry) <==> i == |before| || Overrides(users, groups, n);
      OnceOneMore(before, entry);
      assert Projects(users, groups) == if Adds(before, entry) then before + [entry] else before;
    }
  }

  /** One user binding and one group binding for a project: the group is listed as well exactly when its
      role outranks the one of the user. */
  lemma TwoBindings(user: UserBinding, group: GroupBinding)
    requires user.project == group.project
    ensures Projects([user], [group])
         == if Outranks(group.role, GroupPrefix(user.groupName)) then [FromUser(user), FromGroup(group)]
            else [FromUser(user)]
  {
    var entries := UserEntries([user]);
    PriorityIsRank(group.role, GroupPrefix(user.groupName));
    assert entries == [FromUser(user)];
    assert [group][..0] == [];
    assert Merged(entries, [group][..0]) == entries;
    assert First(entries, group.project) == 0;
  }

  lemma {:induction false} PrefixOf(prefix: string, rest: string)
    requires '-' !in prefix && rest != "" && rest[0] == '-'
    ensures GroupPrefix(prefix + rest) == prefix
  {
    if prefix != "" {
      PrefixOf(prefix[1..], rest);
      assert (prefix + rest)[1..] == prefix[1..] + rest;
    } else {
      assert prefix + rest == rest;
    }
  }

  lemma ViewersPrefix()
    ensures GroupPrefix("viewers-p") == "viewers"
  {
    PrefixOf("viewers", "-p");
    assert "viewers" + "-p" == "viewers-p";
  }

  /** A viewer of a project whose group edits it is listed twice. */
  lemma ViewerAndEditor()
    ensures Projects([UserBinding("p", "viewers-p")], [GroupBinding("p", "editors")])
         == [ProjectGroup("p", "viewers"), ProjectGroup("p", "editors")]
  {
    ViewersPrefix();
    RolesAbove();
    TwoBindings(UserBinding("p", "viewers-p"), GroupBinding("p", "editors"));
  }
}
