/**
 * The role list of the system screen (`RoleList`): roles with permission lists, a
 * modal that edits one role's name, description and permissions, and the
 * permission overview badges shown on each role card.
 */
module Roles {
  import opened Options
  import opened Seqs
  import opened Text

  datatype Role = Role(id: int, name: string, description: string, users: nat, permissions: seq<string>)

  function RoleId(r: Role): int { r.id }

  /** One checkbox of the permission tree. */
  datatype Permission = Permission(id: string, name: string)

  /** One group of the permission tree: a module and its permissions. */
  datatype PermissionGroup = PermissionGroup(id: string, name: string, children: seq<Permission>)

  /** The permission `action` of module `m`, whose id is `m.action`. */
  function Leaf(m: string, action: string, name: string): Permission {
    Permission(m + "." + action, name)
  }

  /** The permission that stands for every permission. */
  const All: string := "all"

  const PermissionTree: seq<PermissionGroup> := [
    PermissionGroup("ingestion", "数据接入", [
      Leaf("ingestion", "read", "查看源数据"),
      Leaf("ingestion", "write", "配置数据源"),
      Leaf("ingestion", "delete", "删除数据源")]),
    PermissionGroup("processing", "可视化处理", [
      Leaf("processing", "read", "查看流程"),
      Leaf("processing", "write", "编辑流程"),
      Leaf("processing", "execute", "执行流程")]),
    PermissionGroup("system", "系统管理", [
      Leaf("system", "users", "用户管理"),
      Leaf("system", "roles", "角色管理"),
      Leaf("system", "config", "系统配置")])
  ]

  function PermissionIds(ps: seq<Permission>): (r: seq<string>)
    ensures |r| == |ps|
    ensures forall i :: 0 <= i < |ps| ==> r[i] == ps[i].id
  {
    if ps == [] then [] else [ps[0].id] + PermissionIds(ps[1..])
  }

  /** `tree.flatMap(g => g.children.map(c => c.id))`: every leaf id, group by group. */
  function LeafIds(tree: seq<PermissionGroup>): (r: seq<string>)
    ensures forall x :: x in r <==> exists g :: g in tree && x in PermissionIds(g.children)
  {
    if tree == [] then []
    else
      var rest := LeafIds(tree[1..]);
      assert forall g :: g in tree <==> g == tree[0] || g in tree[1..];
      PermissionIds(tree[0].children) + rest
  }

  /** Expanding `'all'` selects the nine leaf ids of the tree, in tree order and without repeats. */
  lemma AllExpandsToNineLeaves()
    ensures LeafIds(PermissionTree) == [
      "ingestion.read", "ingestion.write", "ingestion.delete",
      "processing.read", "processing.write", "processing.execute",
      "system.users", "system.roles", "system.config"]
    ensures Distinct(LeafIds(PermissionTree))
  {
    var t := PermissionTree;
    GroupIds();
    assert t[1..][1..][1..] == [];
    assert LeafIds(t[1..][1..]) == PermissionIds(t[2].children);
    assert LeafIds(t[1..]) == PermissionIds(t[1].children) + PermissionIds(t[2].children);
  }

  /** The ids of each group written out. */
  lemma GroupIds()
    ensures PermissionIds(PermissionTree[0].children) == ["ingestion.read", "ingestion.write", "ingestion.delete"]
    ensures PermissionIds(PermissionTree[1].children) == ["processing.read", "processing.write", "processing.execute"]
    ensures PermissionIds(PermissionTree[2].children) == ["system.users", "system.roles", "system.config"]
  {
    IngestionIds();
    ProcessingIds();
    SystemIds();
  }

  lemma IngestionIds()
    ensures "ingestion" + "." + "read" == "ingestion.read"
    ensures "ingestion" + "." + "write" == "ingestion.write"
    ensures "ingestion" + "." + "delete" == "ingestion.delete"
  {
  }

  lemma ProcessingIds()
    ensures "processing" + "." + "read" == "processing.read"
    ensures "processing" + "." + "write" == "processing.write"
    ensures "processing" + "." + "execute" == "processing.execute"
  {
  }

  lemma SystemIds()
    ensures "system" + "." + "users" == "system.users"
    ensures "system" + "." + "roles" == "system.roles"
    ensures "system" + "." + "config" == "system.config"
  {
  }

  /** The permissions the modal starts from when a role is edited. */
  function InitialSelection(permissions: seq<string>): (r: seq<string>)
    ensures All in permissions ==> r == LeafIds(PermissionTree)
    ensures All !in permissions ==> r == permissions
  {
    if All in permissions then LeafIds(PermissionTree) else permissions
  }

  // ---------------------------------------------------------------------------
  // the permission overview of a role card
  // ---------------------------------------------------------------------------

  datatype PermissionBadge = AllPermissions | ModuleBadge(text: string) | MoreBadge(count: nat)

  const ModuleLabels: map<string, string> := map[
    "ingestion" := "数据接入",
    "processing" := "可视化处理",
    "api" := "API管理",
    "analysis" := "智能分析",
    "system" := "系统管理"
  ]

  /** `labels[p.split('.')[0]] || p.split('.')[0]`: the module's display name, or the module itself. */
  function PermissionLabel(p: string): (r: string)
    ensures var m := BeforeFirst(p, '.'); r == if m in ModuleLabels then ModuleLabels[m] else m
    ensures '.' !in r
  {
    var m := BeforeFirst(p, '.');
    if m in ModuleLabels then ModuleLabels[m] else m
  }

  /** The label of `m.action` is the label of the module `m`. */
  lemma LabelOfQualifiedId(m: string, action: string)
    requires '.' !in m
    ensures PermissionLabel(m + "." + action) == if m in ModuleLabels then ModuleLabels[m] else m
  {
    BeforeFirstOfJoin(m, '.', action);
  }

  /** A badge for a permission of the tree shows the name of its group. */
  lemma TreePermissionsShowGroupName(gi: int, pi: int)
    requires 0 <= gi < |PermissionTree| && 0 <= pi < |PermissionTree[gi].children|
    ensures PermissionLabel(PermissionTree[gi].children[pi].id) == PermissionTree[gi].name
  {
    if gi == 0 {
      IngestionLeafLabels(pi);
    } else if gi == 1 {
      ProcessingLeafLabels(pi);
    } else {
      SystemLeafLabels(pi);
    }
  }

  lemma IngestionLeafLabels(pi: int)
    requires 0 <= pi < 3
    ensures PermissionLabel(PermissionTree[0].children[pi].id) == PermissionTree[0].name
  {
    if pi == 0 {
      LabelOfQualifiedId("ingestion", "read");
    } else if pi == 1 {
      LabelOfQualifiedId("ingestion", "write");
    } else {
      LabelOfQualifiedId("ingestion", "delete");
    }
  }

  lemma ProcessingLeafLabels(pi: int)
    requires 0 <= pi < 3
    ensures PermissionLabel(PermissionTree[1].children[pi].id) == PermissionTree[1].name
  {
    if pi == 0 {
      LabelOfQualifiedId("processing", "read");
    } else if pi == 1 {
      LabelOfQualifiedId("processing", "write");
    } else {
      LabelOfQualifiedId("processing", "execute");
    }
  }

  lemma SystemLeafLabels(pi: int)
    requires 0 <= pi < 3
    ensures PermissionLabel(PermissionTree[2].children[pi].id) == PermissionTree[2].name
  {
    if pi == 0 {
      LabelOfQualifiedId("system", "users");
    } else if pi == 1 {
      LabelOfQualifiedId("system", "roles");
    } else {
      LabelOfQualifiedId("system", "config");
    }
  }

  function ModuleBadges(ps: seq<string>): (r: seq<PermissionBadge>)
    ensures |r| == |ps|
    ensures forall i :: 0 <= i < |ps| ==> r[i] == ModuleBadge(PermissionLabel(ps[i]))
  {
    if ps == [] then [] else [ModuleBadge(PermissionLabel(ps[0]))] + ModuleBadges(ps[1..])
  }

  /**
   * The overview: one badge for `'all'`; otherwise a badge for each of the first three
   * permissions and, exactly when there are more than three, a `+n` badge counting
   * the rest.
   */
  function OverviewBadges(permissions: seq<string>): (r: seq<PermissionBadge>)
    ensures All in permissions ==> r == [AllPermissions]
    ensures All !in permissions ==>
              var shown := if |permissions| < 3 then |permissions| else 3;
              && |r| == shown + (if |permissions| > 3 then 1 else 0)
              && (forall i :: 0 <= i < shown ==> r[i] == ModuleBadge(PermissionLabel(permissions[i])))
              && (|permissions| > 3 ==> r[3] == MoreBadge(|permissions| - 3))
    ensures 1 <= |r| <= 4 || (|r| == 0 && permissions == [])
    ensures AllPermissions in r <==> All in permissions
  {
    if All in permissions then [AllPermissions]
    else if |permissions| <= 3 then ModuleBadges(permissions)
    else ModuleBadges(permissions[..3]) + [MoreBadge(|permissions| - 3)]
  }

  // ---------------------------------------------------------------------------
  // the component
  // ---------------------------------------------------------------------------

  class RoleList {
    var roles: seq<Role>
    var isModalOpen: bool
    var editingRole: Option<Role>
    var selectedPerms: seq<string>

    /** Role ids are unique. */
    ghost predicate Valid()
      reads this
    {
      UniqueKeys(roles, RoleId)
    }

    constructor (initial: seq<Role>)
      requires UniqueKeys(initial, RoleId)
      ensures Valid()
      ensures roles == initial && !isModalOpen && editingRole == None && selectedPerms == []
    {
      roles := initial;
      isModalOpen := false;
      editingRole := None;
      selectedPerms := [];
    }

    /** `handleEdit`: opens the modal on `role`, with `'all'` expanded to every leaf of the tree. */
    method Edit(role: Role)
      requires Valid()
      modifies this`editingRole, this`selectedPerms, this`isModalOpen
      ensures Valid()
      ensures editingRole == Some(role) && isModalOpen
      ensures selectedPerms == InitialSelection(role.permissions)
    {
      editingRole := Some(role);
      selectedPerms := InitialSelection(role.permissions);
      isModalOpen := true;
    }

    /** The create button: opens the modal on a new role with nothing selected. */
    method Create()
      requires Valid()
      modifies this`editingRole, this`selectedPerms, this`isModalOpen
      ensures Valid()
      ensures editingRole == None && selectedPerms == [] && isModalOpen
    {
      editingRole := None;
      selectedPerms := [];
      isModalOpen := true;
    }

    /** `handlePermToggle`: removes every occurrence of a selected id, appends an unselected one. */
    method PermToggle(permId: string)
      requires Valid()
      modifies this`selectedPerms
      ensures Valid()
      ensures selectedPerms == Toggle(old(selectedPerms), permId)
      ensures permId in selectedPerms <==> permId !in old(selectedPerms)
      ensures permId !in old(selectedPerms) ==> selectedPerms == old(selectedPerms) + [permId]
      ensures permId in old(selectedPerms) ==>
                selectedPerms == Without(old(selectedPerms), permId) && IsSubseq(selectedPerms, old(selectedPerms))
    {
      selectedPerms := Toggle(selectedPerms, permId);
    }

    /**
     * `handleSaveRole`: the form's name and description with the selected permissions.
     * Editing replaces the role with the edited id in place, keeping its id and user
     * count; creating appends a role with no users under the supplied fresh id
     * (`Date.now()`). The modal closes; `editingRole` is left as it was.
     */
    method SaveRole(name: string, description: string, freshId: int)
      requires Valid()
      requires editingRole.None? ==> !HasKey(roles, RoleId, freshId)
      modifies this`roles, this`isModalOpen
      ensures Valid()
      ensures !isModalOpen
      ensures old(editingRole).Some? ==>
                var e := old(editingRole).value;
                roles == ReplaceKey(old(roles), RoleId, e.id, Role(e.id, name, description, e.users, selectedPerms))
      ensures old(editingRole).None? ==>
                roles == old(roles) + [Role(freshId, name, description, 0, selectedPerms)]
    {
      if editingRole.Some? {
        var e := editingRole.value;
        var updated := Role(e.id, name, description, e.users, selectedPerms);
        MapKeyKeepsKeys(roles, RoleId, e.id, _ => updated);
        roles := ReplaceKey(roles, RoleId, e.id, updated);
      } else {
        var created := Role(freshId, name, description, 0, selectedPerms);
        AppendFreshKeepsUnique(roles, RoleId, created);
        roles := roles + [created];
      }
      isModalOpen := false;
    }

    /** The modal's close and cancel buttons. */
    method CloseModal()
      requires Valid()
      modifies this`isModalOpen
      ensures Valid() && !isModalOpen
    {
      isModalOpen := false;
    }
  }

  /**
   * Saving an edit replaces exactly the role with that id: the count is unchanged, the
   * replaced role keeps its id and user count, and every other role is untouched.
   */
  lemma SaveEditReplacesInPlace(roles: seq<Role>, e: Role, name: string, description: string, perms: seq<string>)
    requires UniqueKeys(roles, RoleId) && HasKey(roles, RoleId, e.id)
    ensures var r := ReplaceKey(roles, RoleId, e.id, Role(e.id, name, description, e.users, perms));
            && |r| == |roles|
            && (forall i :: 0 <= i < |roles| && roles[i].id != e.id ==> r[i] == roles[i])
            && (exists i :: 0 <= i < |roles| && roles[i].id == e.id &&
                  r[i] == Role(e.id, name, description, e.users, perms))
            && UniqueKeys(r, RoleId)
  {
    MapKeyKeepsKeys(roles, RoleId, e.id, _ => Role(e.id, name, description, e.users, perms));
  }
}
