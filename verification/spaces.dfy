/** The project spaces service: which EOS projects and Windows spaces a user
    may see, derived from the user's `cernbox-project-<name>-<level>` groups
    and the table of known projects. The user's groups, the gateway's answer
    and the table's rows are parameters. */
module CernboxSpaces {
  import opened Wrappers
  import opened GoStrings
  import opened Seqs
  import ShareSql

  // ---------------------------------------------------------------------
  // Permission levels

  const Admins: string := "admins"
  const Writers: string := "writers"
  const Readers: string := "readers"

  /** The three level names the group pattern accepts. */
  predicate IsPermissionName(p: string)
  {
    p == Admins || p == Writers || p == Readers
  }

  /** permissionsLevel: a smaller level is more privileged; a name outside
      the table reads as Go's zero value 0. */
  function PermissionLevel(p: string): (r: nat)
    ensures IsPermissionName(p) <==> 1 <= r <= 3
    ensures p == Admins <==> r == 1
  {
    if p == Admins then 1
    else if p == Writers then 2
    else if p == Readers then 3
    else 0
  }

  lemma PermissionLevelInjective(p: string, q: string)
    requires IsPermissionName(p) && IsPermissionName(q)
    requires PermissionLevel(p) == PermissionLevel(q)
    ensures p == q
  {
  }

  /** getHigherPermission: the second permission when the first is empty
      (no permission recorded yet), otherwise the one of lower level,
      the second on a tie. */
  function GetHigherPermission(perm1: string, perm2: string): (r: string)
    ensures perm1 == "" ==> r == perm2
    ensures r == perm1 || r == perm2
  {
    if perm1 == "" then perm2
    else if PermissionLevel(perm1) < PermissionLevel(perm2) then perm1
    else perm2
  }

  /** Of two level names, the result is the more privileged one. */
  lemma HigherPermissionMostPrivileged(p: string, q: string)
    requires IsPermissionName(p) && IsPermissionName(q)
    ensures IsPermissionName(GetHigherPermission(p, q))
    ensures PermissionLevel(GetHigherPermission(p, q)) <= PermissionLevel(p)
    ensures PermissionLevel(GetHigherPermission(p, q)) <= PermissionLevel(q)
  {
  }

  lemma HigherPermissionSymmetric(p: string, q: string)
    requires IsPermissionName(p) && IsPermissionName(q)
    ensures GetHigherPermission(p, q) == GetHigherPermission(q, p)
  {
    if PermissionLevel(p) == PermissionLevel(q) {
      PermissionLevelInjective(p, q);
    }
  }

  lemma HigherPermissionIdempotent(p: string)
    ensures GetHigherPermission(p, p) == p
  {
  }

  lemma HigherPermissionAssociative(p: string, q: string, s: string)
    requires IsPermissionName(p) && IsPermissionName(q) && IsPermissionName(s)
    ensures GetHigherPermission(GetHigherPermission(p, q), s) == GetHigherPermission(p, GetHigherPermission(q, s))
  {
    HigherPermissionMostPrivileged(p, q);
    HigherPermissionMostPrivileged(q, s);
  }

  // ---------------------------------------------------------------------
  // Project groups

  const GroupPrefix: string := "cernbox-project-"

  datatype ProjectGroup = ProjectGroup(name: string, permission: string)

  /** The level name a group ends with, after a dash, or "". */
  function PermissionSuffix(g: string): (r: string)
    ensures r != "" ==> IsPermissionName(r) && HasSuffix(g, "-" + r)
  {
    if HasSuffix(g, "-" + Admins) then Admins
    else if HasSuffix(g, "-" + Writers) then Writers
    else if HasSuffix(g, "-" + Readers) then Readers
    else ""
  }

  /** A match of the project-group pattern: the prefix, a name of at least
      one character other than a newline, a dash and a level name, up to
      the end of the group. */
  function ParseProjectGroup(g: string): (r: Option<ProjectGroup>)
    ensures r.Some? ==>
              IsPermissionName(r.value.permission) && r.value.name != [] && '\n' !in r.value.name
              && g == GroupPrefix + r.value.name + "-" + r.value.permission
  {
    var perm := PermissionSuffix(g);
    if perm != "" && HasPrefix(g, GroupPrefix) && |GroupPrefix| + |perm| + 1 < |g| then
      var name := g[|GroupPrefix|..|g| - |perm| - 1];
      assert g == GroupPrefix + name + "-" + perm by {
        assert g == g[..|GroupPrefix|] + name + g[|g| - |perm| - 1..];
      }
      if '\n' in name then None else Some(ProjectGroup(name, perm))
    else None
  }

  lemma HasSuffixOfAppend(x: string, y: string, z: string)
    requires |z| <= |y|
    ensures HasSuffix(x + y, z) <==> HasSuffix(y, z)
  {
    assert (x + y)[|x + y| - |z|..] == y[|y| - |z|..];
  }

  /** A group ending in a dash and a level name reads back that level. */
  lemma PermissionSuffixOf(s: string, perm: string)
    requires IsPermissionName(perm)
    ensures PermissionSuffix(s + ("-" + perm)) == perm
  {
    var d := "-" + perm;
    var a := "-" + Admins;
    var w := "-" + Writers;
    HasSuffixOfAppend(s, d, a);
    if perm == Admins {
      assert HasSuffix(d, a);
    } else {
      assert d[1] != '-' && a[0] == '-';
      assert d[|d| - |a|..][0] != a[0];
      assert !HasSuffix(d, a);
      HasSuffixOfAppend(s, d, w);
      if perm == Writers {
        assert HasSuffix(d, w);
      } else {
        assert d[1] == 'r' && w[1] == 'w';
        assert !HasSuffix(d, w);
        HasSuffixOfAppend(s, d, "-" + Readers);
        assert HasSuffix(d, "-" + Readers);
      }
    }
  }

  /** Every group of the pattern's form parses back into its parts. */
  lemma ParseProjectGroupOf(name: string, perm: string)
    requires IsPermissionName(perm) && name != [] && '\n' !in name
    ensures ParseProjectGroup(GroupPrefix + name + "-" + perm) == Some(ProjectGroup(name, perm))
  {
    var g := GroupPrefix + name + "-" + perm;
    assert g == (GroupPrefix + name) + ("-" + perm);
    PermissionSuffixOf(GroupPrefix + name, perm);
    assert g[..|GroupPrefix|] == GroupPrefix;
    assert g[|GroupPrefix|..|g| - |perm| - 1] == name;
  }

  /** The admin group the share manager looks for is a project group at
      the admin level. */
  lemma AdminGroupIsProjectGroup(name: string)
    requires name != [] && '\n' !in name
    ensures ParseProjectGroup(ShareSql.AdminGroup(name)) == Some(ProjectGroup(name, Admins))
  {
    assert ShareSql.AdminGroup(name) == GroupPrefix + name + "-" + Admins;
    ParseProjectGroupOf(name, Admins);
  }

  // ---------------------------------------------------------------------
  // The user's projects

  /** The project groups among the user's groups, in order. */
  function ParsedGroups(groups: seq<string>): (pgs: seq<ProjectGroup>)
    ensures forall k :: 0 <= k < |pgs| ==> IsPermissionName(pgs[k].permission)
  {
    ParsedGroupsLevels(groups);
    FilterMap(ParseProjectGroup, groups)
  }

  lemma ParsedGroupsLevels(groups: seq<string>)
    ensures forall k :: 0 <= k < |FilterMap(ParseProjectGroup, groups)| ==>
              IsPermissionName(FilterMap(ParseProjectGroup, groups)[k].permission)
  {
    var r := FilterMap(ParseProjectGroup, groups);
    FilterMapElements(ParseProjectGroup, groups);
    forall k | 0 <= k < |r|
      ensures IsPermissionName(r[k].permission)
    {
      assert r[k] in r;
      var j :| 0 <= j < |groups| && ParseProjectGroup(groups[j]) == Some(r[k]);
    }
  }

  function GroupName(pg: ProjectGroup): string { pg.name }

  /** The user's project names, each once, in the order of the first group
      that names it. */
  function UserProjectKeys(groups: seq<string>): (keys: seq<string>)
    ensures Distinct(keys)
  {
    Dedup(MapSeq(GroupName, ParsedGroups(groups)))
  }

  /** Reading a Go map: the zero value "" for a missing key. */
  function Lookup(m: map<string, string>, k: string): (r: string)
    ensures k in m ==> r == m[k]
    ensures k !in m ==> r == ""
  {
    if k in m then m[k] else ""
  }

  /** The permission kept per project after folding the project groups in
      order. */
  function BestOf(pgs: seq<ProjectGroup>): map<string, string>
  {
    if pgs == [] then map[]
    else
      var m := BestOf(pgs[..|pgs| - 1]);
      var pg := pgs[|pgs| - 1];
      m[pg.name := GetHigherPermission(Lookup(m, pg.name), pg.permission)]
  }

  function BestPermissions(groups: seq<string>): map<string, string>
  {
    BestOf(ParsedGroups(groups))
  }

  predicate AllLevels(pgs: seq<ProjectGroup>)
  {
    forall k :: 0 <= k < |pgs| ==> IsPermissionName(pgs[k].permission)
  }

  /** The projects with a permission are exactly those some group names. */
  lemma {:induction false} BestOfDomain(pgs: seq<ProjectGroup>)
    ensures forall k :: k in BestOf(pgs) <==> exists i :: 0 <= i < |pgs| && pgs[i].name == k
  {
    if pgs != [] {
      var init := pgs[..|pgs| - 1];
      BestOfDomain(init);
      assert forall i :: 0 <= i < |init| ==> init[i] == pgs[i];
    }
  }

  /** The permission kept for a project is a level that one of its groups
      grants. */
  lemma {:induction false} BestOfAttained(pgs: seq<ProjectGroup>)
    requires AllLevels(pgs)
    ensures forall k :: k in BestOf(pgs) ==>
              IsPermissionName(BestOf(pgs)[k])
              && exists i :: 0 <= i < |pgs| && pgs[i] == ProjectGroup(k, BestOf(pgs)[k])
  {
    if pgs != [] {
      var init := pgs[..|pgs| - 1];
      BestOfAttained(init);
      assert forall i :: 0 <= i < |init| ==> init[i] == pgs[i];
      var pg := pgs[|pgs| - 1];
      if pg.name in BestOf(init) {
        HigherPermissionMostPrivileged(BestOf(init)[pg.name], pg.permission);
      }
    }
  }

  /** The permission kept for a project is at least as privileged as every
      group of it grants. */
  lemma {:induction false} BestOfBest(pgs: seq<ProjectGroup>, i: nat)
    requires AllLevels(pgs) && i < |pgs|
    ensures pgs[i].name in BestOf(pgs)
    ensures PermissionLevel(BestOf(pgs)[pgs[i].name]) <= PermissionLevel(pgs[i].permission)
  {
    var init := pgs[..|pgs| - 1];
    var pg := pgs[|pgs| - 1];
    var m := BestOf(init);
    assert pgs == init + [pg];
    BestOfSnoc(init, pg);
    var best := GetHigherPermission(Lookup(m, pg.name), pg.permission);
    assert BestOf(pgs) == m[pg.name := best];
    assert AllLevels(init) by {
      assert forall k :: 0 <= k < |init| ==> init[k] == pgs[k];
    }
    if pg.name in m {
      BestOfAttained(init);
      HigherPermissionMostPrivileged(m[pg.name], pg.permission);
    }
    if i < |init| {
      assert init[i] == pgs[i];
      BestOfBest(init, i);
    }
  }

  /** The project keys and the projects with a permission are the same, and
      every kept permission is a level name. */
  lemma KeysAreDomain(groups: seq<string>)
    ensures forall k :: k in UserProjectKeys(groups) <==> k in BestPermissions(groups)
    ensures forall k :: k in BestPermissions(groups) ==> IsPermissionName(BestPermissions(groups)[k])
  {
    var pgs := ParsedGroups(groups);
    BestOfDomain(pgs);
    BestOfAttained(pgs);
    assert forall k :: k in MapSeq(GroupName, pgs) <==> exists i :: 0 <= i < |pgs| && pgs[i].name == k by {
      forall k ensures k in MapSeq(GroupName, pgs) <==> exists i :: 0 <= i < |pgs| && pgs[i].name == k {
        if k in MapSeq(GroupName, pgs) {
          var i :| 0 <= i < |pgs| && MapSeq(GroupName, pgs)[i] == k;
        }
        if exists i :: 0 <= i < |pgs| && pgs[i].name == k {
          var i :| 0 <= i < |pgs| && pgs[i].name == k;
          assert MapSeq(GroupName, pgs)[i] == k;
        }
      }
    }
  }

  lemma DedupSnoc(s: seq<string>, x: string)
    ensures Dedup(s + [x]) == if x in Dedup(s) then Dedup(s) else Dedup(s) + [x]
  {
    assert (s + [x])[..|s|] == s;
  }

  lemma BestOfSnoc(pgs: seq<ProjectGroup>, pg: ProjectGroup)
    ensures BestOf(pgs + [pg]) == BestOf(pgs)[pg.name := GetHigherPermission(Lookup(BestOf(pgs), pg.name), pg.permission)]
  {
    assert (pgs + [pg])[..|pgs|] == pgs;
  }

  lemma ParsedGroupsSnoc(groups: seq<string>, i: nat)
    requires i < |groups|
    ensures ParseProjectGroup(groups[i]).None? ==> ParsedGroups(groups[..i + 1]) == ParsedGroups(groups[..i])
    ensures ParseProjectGroup(groups[i]).Some? ==>
              ParsedGroups(groups[..i + 1]) == ParsedGroups(groups[..i]) + [ParseProjectGroup(groups[i]).value]
  {
    assert groups[..i + 1][..i] == groups[..i];
  }

  /** One step of the loop over the user's groups. */
  method AddGroup(keys: seq<string>, perms: map<string, string>, pg: ProjectGroup)
    returns (keys': seq<string>, perms': map<string, string>)
    requires forall k :: k in keys <==> k in perms
    requires forall k :: k in perms ==> IsPermissionName(perms[k])
    requires IsPermissionName(pg.permission)
    ensures keys' == if pg.name in keys then keys else keys + [pg.name]
    ensures perms' == perms[pg.name := GetHigherPermission(Lookup(perms, pg.name), pg.permission)]
  {
    keys' := keys;
    if Lookup(perms, pg.name) == "" {
      keys' := keys + [pg.name];
    }
    perms' := perms[pg.name := GetHigherPermission(Lookup(perms, pg.name), pg.permission)];
  }

  /** The loop over the user's groups: the project keys in first-seen order
      and the best permission per project. */
  method GroupProjects(groups: seq<string>) returns (keys: seq<string>, perms: map<string, string>)
    ensures keys == UserProjectKeys(groups)
    ensures perms == BestPermissions(groups)
  {
    keys := [];
    perms := map[];
    for i := 0 to |groups|
      invariant keys == UserProjectKeys(groups[..i])
      invariant perms == BestPermissions(groups[..i])
    {
      KeysAreDomain(groups[..i]);
      ParsedGroupsSnoc(groups, i);
      match ParseProjectGroup(groups[i]) {
        case Some(pg) =>
          var names := MapSeq(GroupName, ParsedGroups(groups[..i]));
          MapSeqAppend(GroupName, ParsedGroups(groups[..i]), pg);
          DedupSnoc(names, pg.name);
          BestOfSnoc(ParsedGroups(groups[..i]), pg);
          keys, perms := AddGroup(keys, perms, pg);
        case None =>
      }
    }
    assert groups[..|groups|] == groups;
  }

  // ---------------------------------------------------------------------
  // The project table

  /** A row of the project table. */
  datatype DbRow = DbRow(name: string, relativePath: string, storage: string)

  /** The kind of spaces asked for; any other value of the Go enumeration
      behaves like `SpaceInvalid`. */
  datatype SpaceType = SpaceInvalid | SpaceAll | SpaceEosProject | SpaceWinspace

  /** The storage the query selects on, none for all spaces, or the error
      for a type without a query. */
  function StorageFilter(t: SpaceType): (r: Result<Option<string>>)
    ensures r.Err? <==> t == SpaceInvalid
    ensures t == SpaceAll ==> r == Ok(None)
  {
    match t
    case SpaceEosProject => Ok(Some("eos"))
    case SpaceWinspace => Ok(Some("cephfs"))
    case SpaceAll => Ok(None)
    case SpaceInvalid => Err(BadRequest("Invalid space type"))
  }

  /** The rows the query returns, in table order. */
  function Selected(table: seq<DbRow>, storage: Option<string>): (r: seq<DbRow>)
    ensures forall row :: row in r <==> row in table && (storage.Some? ==> row.storage == storage.value)
  {
    if table == [] then []
    else
      var prev := Selected(table[..|table| - 1], storage);
      var row := table[|table| - 1];
      assert table == table[..|table| - 1] + [row];
      if storage.None? || row.storage == storage.value then prev + [row] else prev
  }

  function NameOf(row: DbRow): string { row.name }
  function RelativePathOf(row: DbRow): string { row.relativePath }
  function StorageOf(row: DbRow): string { row.storage }

  /** A column per project name, as filled row by row: the last row with a
      name wins. */
  function LastBy(rows: seq<DbRow>, column: DbRow -> string): (m: map<string, string>)
    ensures forall k :: k in m <==> exists i :: 0 <= i < |rows| && rows[i].name == k
  {
    if rows == [] then map[]
    else
      var init := rows[..|rows| - 1];
      var row := rows[|rows| - 1];
      var m := LastBy(init, column);
      assert forall i :: 0 <= i < |init| ==> init[i] == rows[i];
      m[row.name := column(row)]
  }

  /** The value kept for a name is the column of the last row with it. */
  lemma {:induction false} LastByLast(rows: seq<DbRow>, column: DbRow -> string, i: nat)
    requires i < |rows|
    requires forall j :: i < j < |rows| ==> rows[j].name != rows[i].name
    ensures LastBy(rows, column)[rows[i].name] == column(rows[i])
  {
    if i < |rows| - 1 {
      var init := rows[..|rows| - 1];
      LastByLast(init, column, i);
    }
  }

  /** The loop over the query's rows. */
  method ScanRows(rows: seq<DbRow>) returns (names: seq<string>, paths: map<string, string>, storages: map<string, string>)
    ensures names == MapSeq(NameOf, rows)
    ensures paths == LastBy(rows, RelativePathOf)
    ensures storages == LastBy(rows, StorageOf)
  {
    names := [];
    paths := map[];
    storages := map[];
    for i := 0 to |rows|
      invariant names == MapSeq(NameOf, rows[..i])
      invariant paths == LastBy(rows[..i], RelativePathOf)
      invariant storages == LastBy(rows[..i], StorageOf)
    {
      MapSeqSnoc(NameOf, rows, i);
      assert rows[..i + 1][..i] == rows[..i];
      names := names + [rows[i].name];
      paths := paths[rows[i].name := rows[i].relativePath];
      storages := storages[rows[i].name := rows[i].storage];
    }
    assert rows[..|rows|] == rows;
  }

  /** The names of `a` that also occur in `b`, in the order of `a`. */
  function KeepIn(a: seq<string>, b: seq<string>): (r: seq<string>)
    ensures forall x :: x in r <==> x in a && x in b
  {
    if a == [] then []
    else
      var prev := KeepIn(a[..|a| - 1], b);
      var x := a[|a| - 1];
      assert a == a[..|a| - 1] + [x];
      if x in b then prev + [x] else prev
  }

  /** The intersection of the table's names and the user's project keys. */
  function Intersect(dbNames: seq<string>, keys: seq<string>): (r: seq<string>)
    ensures forall x :: x in r <==> x in dbNames && x in keys
  {
    Dedup(KeepIn(dbNames, keys))
  }

  // ---------------------------------------------------------------------
  // Spaces

  /** A space as the service lists it. */
  datatype Project = Project(name: string, path: string, permissions: string)

  /** The level name without its final character ("admin", "writer",
      "reader"). */
  function Singular(perm: string): (r: string)
    requires perm != ""
    ensures r + [perm[|perm| - 1]] == perm
  {
    perm[..|perm| - 1]
  }

  /** The space for one valid project name, if its storage is EOS or
      CephFS. */
  function ProjectOf(name: string, perms: map<string, string>, paths: map<string, string>, storages: map<string, string>): (r: Option<Project>)
    requires Lookup(perms, name) != ""
  {
    var storage := Lookup(storages, name);
    if storage == "eos" then
      Some(Project(name, "/eos/project/" + Lookup(paths, name), Singular(Lookup(perms, name))))
    else if storage == "cephfs" then
      Some(Project(name, "/winspaces/" + Lookup(paths, name), Singular(Lookup(perms, name))))
    else None
  }

  /** The spaces for the valid names, in order. */
  function ProjectsFor(valid: seq<string>, perms: map<string, string>, paths: map<string, string>, storages: map<string, string>): (r: seq<Project>)
    requires forall n :: n in valid ==> Lookup(perms, n) != ""
  {
    if valid == [] then []
    else
      var prev := ProjectsFor(valid[..|valid| - 1], perms, paths, storages);
      match ProjectOf(valid[|valid| - 1], perms, paths, storages)
      case Some(p) => prev + [p]
      case None => prev
  }

  /** A space is listed for a valid name exactly when its storage is EOS or
      CephFS; every listed space is built by `ProjectOf` from its name. */
  lemma {:induction false} ProjectsForMeaning(valid: seq<string>, perms: map<string, string>, paths: map<string, string>, storages: map<string, string>)
    requires forall n :: n in valid ==> Lookup(perms, n) != ""
    ensures forall p :: p in ProjectsFor(valid, perms, paths, storages) ==>
              p.name in valid && ProjectOf(p.name, perms, paths, storages) == Some(p)
    ensures forall n :: n in valid && Lookup(storages, n) in {"eos", "cephfs"} ==>
              exists p :: p in ProjectsFor(valid, perms, paths, storages) && p.name == n
  {
    if valid != [] {
      var init := valid[..|valid| - 1];
      var n := valid[|valid| - 1];
      assert valid == init + [n];
      ProjectsForMeaning(init, perms, paths, storages);
      var prev := ProjectsFor(init, perms, paths, storages);
      forall m | m in valid && Lookup(storages, m) in {"eos", "cephfs"}
        ensures exists p :: p in ProjectsFor(valid, perms, paths, storages) && p.name == m
      {
        if m != n {
          var p :| p in prev && p.name == m;
          assert p in ProjectsFor(valid, perms, paths, storages);
        } else {
          var p := ProjectOf(n, perms, paths, storages).value;
          assert p in ProjectsFor(valid, perms, paths, storages);
        }
      }
    }
  }

  /** The loop that builds the listed spaces. */
  method BuildProjects(valid: seq<string>, perms: map<string, string>, paths: map<string, string>, storages: map<string, string>)
    returns (projects: seq<Project>)
    requires forall n :: n in valid ==> Lookup(perms, n) != ""
    ensures projects == ProjectsFor(valid, perms, paths, storages)
  {
    projects := [];
    for i := 0 to |valid|
      invariant projects == ProjectsFor(valid[..i], perms, paths, storages)
    {
      assert valid[..i + 1][..i] == valid[..i];
      var name := valid[i];
      var permissions := Lookup(perms, name);
      var storage := Lookup(storages, name);
      if storage == "eos" {
        projects := projects + [Project(name, "/eos/project/" + Lookup(paths, name), permissions[..|permissions| - 1])];
      } else if storage == "cephfs" {
        projects := projects + [Project(name, "/winspaces/" + Lookup(paths, name), permissions[..|permissions| - 1])];
      }
    }
    assert valid[..|valid|] == valid;
  }

  /** The answers of the services getSpaces consults: whether the user's
      groups are taken from the gateway instead of the token, the gateway's
      answer, and the project table (or the query's error). */
  datatype SpacesEnv = SpacesEnv(
    skipUserGroupsInToken: bool,
    gatewayGroups: Result<seq<string>>,
    table: Result<seq<DbRow>>)

  /** The groups getSpaces works with. */
  function UserGroups(tokenGroups: seq<string>, env: SpacesEnv): (r: Result<seq<string>>)
    ensures !env.skipUserGroupsInToken ==> r == Ok(tokenGroups)
    ensures env.skipUserGroupsInToken && env.gatewayGroups.Ok? ==> r == env.gatewayGroups
    ensures env.skipUserGroupsInToken && env.gatewayGroups.Err? ==>
              r == Err(Wrapped("error getting user groups", env.gatewayGroups.error))
  {
    if env.skipUserGroupsInToken then
      match env.gatewayGroups
      case Ok(gs) => Ok(gs)
      case Err(e) => Err(Wrapped("error getting user groups", e))
    else Ok(tokenGroups)
  }

  lemma ValidHavePermissions(groups: seq<string>, dbNames: seq<string>)
    ensures forall n :: n in Intersect(dbNames, UserProjectKeys(groups)) ==>
              Lookup(BestPermissions(groups), n) != "" && IsPermissionName(Lookup(BestPermissions(groups), n))
  {
    KeysAreDomain(groups);
  }

  /** The spaces listed for a user with these groups, given the rows the
      query returned. */
  function ListedSpaces(groups: seq<string>, rows: seq<DbRow>): seq<Project>
  {
    var dbNames := MapSeq(NameOf, rows);
    ValidHavePermissions(groups, dbNames);
    ProjectsFor(Intersect(dbNames, UserProjectKeys(groups)), BestPermissions(groups),
                LastBy(rows, RelativePathOf), LastBy(rows, StorageOf))
  }

  /** getSpaces for a user given by the groups of their token (none when
      nobody is logged in): no user is an error, a user without project
      groups has no spaces whatever the type asked for, and otherwise the
      type must have a query and the query must succeed. */
  function SpacesSpec(user: Option<seq<string>>, sType: SpaceType, env: SpacesEnv): (r: Result<seq<Project>>)
    ensures user.None? ==> r == Err(UserRequired(""))
    ensures user.Some? && UserGroups(user.value, env).Err? ==> r == Err(UserGroups(user.value, env).error)
    ensures user.Some? && UserGroups(user.value, env).Ok? && UserProjectKeys(UserGroups(user.value, env).value) == [] ==>
              r == Ok([])
    ensures (user.Some? && UserGroups(user.value, env).Ok? && UserProjectKeys(UserGroups(user.value, env).value) != []
             && sType == SpaceInvalid) ==> r == Err(BadRequest("Invalid space type"))
    ensures (user.Some? && UserGroups(user.value, env).Ok? && UserProjectKeys(UserGroups(user.value, env).value) != []
             && sType != SpaceInvalid && env.table.Err?) ==> r == Err(Wrapped("error getting projects from db", env.table.error))
    ensures (user.Some? && UserGroups(user.value, env).Ok? && UserProjectKeys(UserGroups(user.value, env).value) != []
             && sType != SpaceInvalid && env.table.Ok?) ==>
              r == Ok(ListedSpaces(UserGroups(user.value, env).value, Selected(env.table.value, StorageFilter(sType).value)))
  {
    if user.None? then Err(UserRequired(""))
    else
      match UserGroups(user.value, env)
      case Err(e) => Err(e)
      case Ok(groups) =>
        if UserProjectKeys(groups) == [] then Ok([])
        else
          match StorageFilter(sType)
          case Err(e) => Err(e)
          case Ok(storage) =>
            match env.table
            case Err(e) => Err(Wrapped("error getting projects from db", e))
            case Ok(table) => Ok(ListedSpaces(groups, Selected(table, storage)))
  }

  /** getSpaces: the user's project keys, and for a non-empty set of keys
      the query, the rows and the spaces built from them. */
  method GetSpaces(user: Option<seq<string>>, sType: SpaceType, env: SpacesEnv) returns (r: Result<seq<Project>>)
    ensures r == SpacesSpec(user, sType, env)
  {
    if user.None? {
      return Err(UserRequired(""));
    }
    var groups := user.value;
    if env.skipUserGroupsInToken {
      if env.gatewayGroups.Err? {
        return Err(Wrapped("error getting user groups", env.gatewayGroups.error));
      }
      groups := env.gatewayGroups.value;
    }
    var keys, perms := GroupProjects(groups);
    if |keys| == 0 {
      return Ok([]);
    }
    var storage := StorageFilter(sType);
    if storage.Err? {
      return Err(storage.error);
    }
    if env.table.Err? {
      return Err(Wrapped("error getting projects from db", env.table.error));
    }
    var rows := Selected(env.table.value, storage.value);
    var dbProjects, paths, storages := ScanRows(rows);
    var valid := Intersect(dbProjects, keys);
    ValidHavePermissions(groups, dbProjects);
    var projects := BuildProjects(valid, perms, paths, storages);
    r := Ok(projects);
  }

  /** The position of the last row with a name that occurs. */
  function LastIndexOf(rows: seq<DbRow>, name: string): (i: nat)
    ensures (exists k :: 0 <= k < |rows| && rows[k].name == name) ==>
              i < |rows| && rows[i].name == name && forall j :: i < j < |rows| ==> rows[j].name != name
  {
    if rows == [] then 0
    else if rows[|rows| - 1].name == name then |rows| - 1
    else
      var init := rows[..|rows| - 1];
      assert forall k :: 0 <= k < |init| ==> init[k] == rows[k];
      LastIndexOf(init, name)
  }

  /** A space built for a name lies under its storage's root at the name's
      relative path and carries the name's level without its final
      character. */
  lemma ProjectOfMeaning(name: string, perms: map<string, string>, paths: map<string, string>, storages: map<string, string>, p: Project)
    requires IsPermissionName(Lookup(perms, name))
    requires ProjectOf(name, perms, paths, storages) == Some(p)
    ensures p.name == name
    ensures p.permissions + "s" == Lookup(perms, name)
    ensures (Lookup(storages, name) == "eos" && p.path == "/eos/project/" + Lookup(paths, name))
            || (Lookup(storages, name) == "cephfs" && p.path == "/winspaces/" + Lookup(paths, name))
  {
    SingularOfLevel(Lookup(perms, name));
  }

  lemma SingularOfLevel(perm: string)
    requires IsPermissionName(perm)
    ensures perm != "" && Singular(perm) + "s" == perm
  {
  }

  /** A listed space is built by `ProjectOf` from a name that is both a
      project key and a returned row's name. */
  lemma ListedSpacesFrom(groups: seq<string>, rows: seq<DbRow>, p: Project)
    requires p in ListedSpaces(groups, rows)
    ensures p.name in MapSeq(NameOf, rows) && p.name in UserProjectKeys(groups)
    ensures IsPermissionName(Lookup(BestPermissions(groups), p.name))
    ensures ProjectOf(p.name, BestPermissions(groups), LastBy(rows, RelativePathOf), LastBy(rows, StorageOf)) == Some(p)
  {
    var dbNames := MapSeq(NameOf, rows);
    var valid := Intersect(dbNames, UserProjectKeys(groups));
    ValidHavePermissions(groups, dbNames);
    ProjectsForMeaning(valid, BestPermissions(groups), LastBy(rows, RelativePathOf), LastBy(rows, StorageOf));
  }

  lemma NamesOfRows(rows: seq<DbRow>, name: string)
    ensures name in MapSeq(NameOf, rows) <==> exists k :: 0 <= k < |rows| && rows[k].name == name
  {
    if name in MapSeq(NameOf, rows) {
      var k :| 0 <= k < |rows| && MapSeq(NameOf, rows)[k] == name;
      assert rows[k].name == name;
    }
    if exists k :: 0 <= k < |rows| && rows[k].name == name {
      var k :| 0 <= k < |rows| && rows[k].name == name;
      assert MapSeq(NameOf, rows)[k] == name;
    }
  }

  /** The column kept for a name is that of its last row. */
  lemma LookupLastBy(rows: seq<DbRow>, column: DbRow -> string, name: string)
    requires exists k :: 0 <= k < |rows| && rows[k].name == name
    ensures Lookup(LastBy(rows, column), name) == column(rows[LastIndexOf(rows, name)])
  {
    LastByLast(rows, column, LastIndexOf(rows, name));
  }

  /** Every listed space is one of the user's projects and carries the
      user's best level for it without its final character. */
  lemma ListedSpacesSound(groups: seq<string>, rows: seq<DbRow>, p: Project)
    requires p in ListedSpaces(groups, rows)
    ensures p.name in UserProjectKeys(groups)
    ensures IsPermissionName(p.permissions + "s")
    ensures p.permissions + "s" == Lookup(BestPermissions(groups), p.name)
  {
    ListedSpacesFrom(groups, rows, p);
    ProjectOfMeaning(p.name, BestPermissions(groups), LastBy(rows, RelativePathOf), LastBy(rows, StorageOf), p);
  }

  /** A space built for a returned name lies under its storage's root at
      the relative path of the last row with that name. */
  lemma ProjectPathFromRows(rows: seq<DbRow>, perms: map<string, string>, p: Project)
    requires IsPermissionName(Lookup(perms, p.name)) && p.name in MapSeq(NameOf, rows)
    requires ProjectOf(p.name, perms, LastBy(rows, RelativePathOf), LastBy(rows, StorageOf)) == Some(p)
    ensures exists k :: 0 <= k < |rows| && rows[k].name == p.name
    ensures var row := rows[LastIndexOf(rows, p.name)];
            (row.storage == "eos" && p.path == "/eos/project/" + row.relativePath)
            || (row.storage == "cephfs" && p.path == "/winspaces/" + row.relativePath)
  {
    var paths := LastBy(rows, RelativePathOf);
    var storages := LastBy(rows, StorageOf);
    ProjectOfMeaning(p.name, perms, paths, storages, p);
    NamesOfRows(rows, p.name);
    var row := rows[LastIndexOf(rows, p.name)];
    LookupLastBy(rows, RelativePathOf, p.name);
    LookupLastBy(rows, StorageOf, p.name);
    assert Lookup(paths, p.name) == row.relativePath;
    assert Lookup(storages, p.name) == row.storage;
  }

  /** Every listed space has a returned row and lies under its storage's
      root at the relative path of the last row with its name. */
  lemma ListedSpacesPath(groups: seq<string>, rows: seq<DbRow>, p: Project)
    requires p in ListedSpaces(groups, rows)
    ensures exists k :: 0 <= k < |rows| && rows[k].name == p.name
    ensures var row := rows[LastIndexOf(rows, p.name)];
            (row.storage == "eos" && p.path == "/eos/project/" + row.relativePath)
            || (row.storage == "cephfs" && p.path == "/winspaces/" + row.relativePath)
  {
    ListedSpacesFrom(groups, rows, p);
    ProjectPathFromRows(rows, BestPermissions(groups), p);
  }

  /** Every project of the user with a returned row whose last occurrence is
      on EOS or CephFS is listed. */
  lemma ListedSpacesComplete(groups: seq<string>, rows: seq<DbRow>, name: string)
    requires name in UserProjectKeys(groups)
    requires exists k :: 0 <= k < |rows| && rows[k].name == name
    requires rows[LastIndexOf(rows, name)].storage in {"eos", "cephfs"}
    ensures exists p :: p in ListedSpaces(groups, rows) && p.name == name
  {
    var dbNames := MapSeq(NameOf, rows);
    var k :| 0 <= k < |rows| && rows[k].name == name;
    assert dbNames[k] == name;
    ValidHavePermissions(groups, dbNames);
    LastByLast(rows, StorageOf, LastIndexOf(rows, name));
    ProjectsForMeaning(Intersect(dbNames, UserProjectKeys(groups)), BestPermissions(groups),
                       LastBy(rows, RelativePathOf), LastBy(rows, StorageOf));
  }

  /** The search loop of userHasAccessToProject. */
  method FindSpace(spaces: seq<Project>, spaceName: string) returns (found: bool)
    ensures found <==> exists p :: p in spaces && p.name == spaceName
  {
    for i := 0 to |spaces|
      invariant forall k :: 0 <= k < i ==> spaces[k].name != spaceName
    {
      if spaces[i].name == spaceName {
        return true;
      }
    }
    return false;
  }

  /** userHasAccessToProject: whether the list of all spaces holds one with
      exactly this name; false when the list cannot be built. */
  method UserHasAccessToProject(user: Option<seq<string>>, spaceName: string, env: SpacesEnv) returns (r: bool)
    ensures r <==> SpacesSpec(user, SpaceAll, env).Ok?
                   && exists p :: p in SpacesSpec(user, SpaceAll, env).value && p.name == spaceName
  {
    var spaces := GetSpaces(user, SpaceAll, env);
    if spaces.Err? {
      return false;
    }
    r := FindSpace(spaces.value, spaceName);
  }
}
