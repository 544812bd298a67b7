/** The EOS storage wrapper for project spaces: membership checks derived
    from the `cernbox-project-<name>-<level>` groups, which gate file
    revisions and deny grants, the extra sharing permissions of project
    admins, and the configuration defaults of the driver's constructor.
    The resource path, the user's groups and the wrapped driver's answers
    are parameters. */
module EosWrapper {
  import opened Wrappers
  import opened GoStrings
  import ShareSql
  import CernboxSpaces

  const EosProjectsNamespace: string := "/eos/project"

  const ProjectSpaceGroupsPrefix: string := "cernbox-project-"
  const AdminsGroupSuffix: string := "-admins"
  const WritersGroupSuffix: string := "-writers"
  const ReadersGroupSuffix: string := "-readers"

  /** The membership levels a caller can require. */
  const RequireAdmin: int := 2
  const RequireWriter: int := 1
  const RequireReader: int := 0

  // ---------------------------------------------------------------------
  // Project membership

  /** The project a resource path names: the third `/`-part of a path
      resembling /c/cernbox or /c/cernbox/minutes/..., and none for paths
      with fewer parts such as / or /c. */
  function ProjectOfPath(path: string): (r: Option<string>)
    ensures r.Some? <==> |SplitN(path, '/', 4)| in {3, 4}
    ensures r.Some? ==> r.value == SplitN(path, '/', 4)[2]
  {
    var parts := SplitN(path, '/', 4);
    if |parts| != 4 && |parts| != 3 then None else Some(parts[2])
  }

  /** A path /<letter>/<name> or /<letter>/<name>/... names project <name>. */
  lemma ProjectOfLetterPath(letter: string, name: string, tail: string)
    requires '/' !in letter && '/' !in name
    requires tail == [] || tail[0] == '/'
    ensures ProjectOfPath(['/'] + (letter + ['/'] + (name + tail))) == Some(name)
  {
    var s1 := letter + ['/'] + (name + tail);
    assert ['/'] + s1 == [] + ['/'] + s1;
    SplitNOfJoin([], '/', s1, 4);
    SplitNOfJoin(letter, '/', name + tail, 3);
    ShareSql.SplitNHead(name, tail, 2);
    var p0 := SplitN(['/'] + s1, '/', 4);
    var p1 := SplitN(s1, '/', 3);
    var p2 := SplitN(name + tail, '/', 2);
    assert p0[1..] == p1;
    assert p1[1..] == p2;
    assert p0[2] == p2[0];
  }

  /** The root and a letter directory name no project. */
  lemma NoProjectAboveProjects(letter: string)
    requires '/' !in letter
    ensures ProjectOfPath("/") == None
    ensures ProjectOfPath("/" + letter) == None
  {
    assert "/" == [] + ['/'] + [];
    SplitNOfJoin([], '/', [], 4);
    assert IndexByte([], '/') == -1;
    assert "/" + letter == [] + ['/'] + letter;
    SplitNOfJoin([], '/', letter, 4);
    assert IndexByte(letter, '/') == -1;
  }

  function GroupOf(project: string, suffix: string): string
  {
    ProjectSpaceGroupsPrefix + project + suffix
  }

  /** Whether one group makes its member a member of `project` at the
      required level: admins at every level up to admin, writers up to
      writer, readers only at reader. */
  predicate Grants(g: string, project: string, requiredLevel: int)
  {
    (g == GroupOf(project, AdminsGroupSuffix) && requiredLevel <= RequireAdmin)
    || (g == GroupOf(project, WritersGroupSuffix) && requiredLevel <= RequireWriter)
    || (g == GroupOf(project, ReadersGroupSuffix) && requiredLevel <= RequireReader)
  }

  /** userIsProjectMember: nothing is checked outside the project
      namespace or for a path naming no project; an error of the metadata
      lookup is passed on; otherwise one of the user's groups must grant
      the required level. */
  function UserIsProjectMember(namespace: string, md: Result<string>, groups: seq<string>, requiredLevel: int): (r: Result<()>)
    ensures !HasPrefix(namespace, EosProjectsNamespace) ==> r == Ok(())
    ensures HasPrefix(namespace, EosProjectsNamespace) && md.Err? ==> r == Err(md.error)
    ensures HasPrefix(namespace, EosProjectsNamespace) && md.Ok? && ProjectOfPath(md.value).None? ==> r == Ok(())
    ensures r.Err? && md.Ok? ==> r.error == PermissionDenied("")
  {
    if !HasPrefix(namespace, EosProjectsNamespace) then Ok(())
    else
      match md
      case Err(e) => Err(e)
      case Ok(path) =>
        match ProjectOfPath(path)
        case None => Ok(())
        case Some(project) =>
          if exists i :: 0 <= i < |groups| && Grants(groups[i], project, requiredLevel) then Ok(())
          else Err(PermissionDenied(""))
  }

  /** Passing the check at one level passes it at every lower level. */
  lemma MembershipMonotone(namespace: string, md: Result<string>, groups: seq<string>, level: int, lower: int)
    requires lower <= level
    requires UserIsProjectMember(namespace, md, groups, level).Ok?
    ensures UserIsProjectMember(namespace, md, groups, lower).Ok?
  {
    if HasPrefix(namespace, EosProjectsNamespace) && md.Ok? && ProjectOfPath(md.value).Some? {
      var project := ProjectOfPath(md.value).value;
      var i :| 0 <= i < |groups| && Grants(groups[i], project, level);
      assert Grants(groups[i], project, lower);
    }
  }

  /** For a path naming a project, the three levels as group memberships:
      admin needs the admins group, writer the admins or writers group,
      reader any of the three. */
  lemma MembershipLevels(namespace: string, path: string, groups: seq<string>)
    requires HasPrefix(namespace, EosProjectsNamespace) && ProjectOfPath(path).Some?
    ensures UserIsProjectMember(namespace, Ok(path), groups, RequireAdmin).Ok?
            <==> GroupOf(ProjectOfPath(path).value, AdminsGroupSuffix) in groups
    ensures UserIsProjectMember(namespace, Ok(path), groups, RequireWriter).Ok?
            <==> (GroupOf(ProjectOfPath(path).value, AdminsGroupSuffix) in groups
                  || GroupOf(ProjectOfPath(path).value, WritersGroupSuffix) in groups)
    ensures UserIsProjectMember(namespace, Ok(path), groups, RequireReader).Ok?
            <==> (GroupOf(ProjectOfPath(path).value, AdminsGroupSuffix) in groups
                  || GroupOf(ProjectOfPath(path).value, WritersGroupSuffix) in groups
                  || GroupOf(ProjectOfPath(path).value, ReadersGroupSuffix) in groups)
  {
  }

  /** A group that grants a level is a project group in the sense of the
      spaces service, of the same project, at a level at least as
      privileged there (admins 1, writers 2, readers 3). */
  lemma GrantingGroupIsProjectGroup(g: string, project: string, requiredLevel: int)
    requires Grants(g, project, requiredLevel)
    requires project != [] && '\n' !in project
    ensures CernboxSpaces.ParseProjectGroup(g).Some?
    ensures CernboxSpaces.ParseProjectGroup(g).value.name == project
    ensures CernboxSpaces.PermissionLevel(CernboxSpaces.ParseProjectGroup(g).value.permission) <= 3 - requiredLevel
  {
    var perm := if g == GroupOf(project, AdminsGroupSuffix) && requiredLevel <= RequireAdmin then CernboxSpaces.Admins
                else if g == GroupOf(project, WritersGroupSuffix) && requiredLevel <= RequireWriter then CernboxSpaces.Writers
                else CernboxSpaces.Readers;
    assert g == CernboxSpaces.GroupPrefix + project + "-" + perm;
    CernboxSpaces.ParseProjectGroupOf(project, perm);
  }

  /** The admin group checked here is the one the share manager checks. */
  lemma AdminsGroupIsShareAdminGroup(project: string)
    ensures GroupOf(project, AdminsGroupSuffix) == ShareSql.AdminGroup(project)
  {
  }

  // ---------------------------------------------------------------------
  // Gated operations

  /** ListRevisions: readers and above, then the wrapped driver's answer. */
  function ListRevisions<T>(namespace: string, md: Result<string>, groups: seq<string>, inner: Result<T>): (r: Result<T>)
    ensures UserIsProjectMember(namespace, md, groups, RequireReader).Err? ==>
              r == Err(PermissionDenied("eosfs: files revisions can only be accessed by project memners"))
    ensures UserIsProjectMember(namespace, md, groups, RequireReader).Ok? ==> r == inner
  {
    if UserIsProjectMember(namespace, md, groups, RequireReader).Err? then
      Err(PermissionDenied("eosfs: files revisions can only be accessed by project memners"))
    else inner
  }

  /** DownloadRevision: readers and above. */
  function DownloadRevision<T>(namespace: string, md: Result<string>, groups: seq<string>, inner: Result<T>): (r: Result<T>)
    ensures UserIsProjectMember(namespace, md, groups, RequireReader).Err? ==>
              r == Err(PermissionDenied("eosfs: files revisions can only be downloaded by project memners"))
    ensures UserIsProjectMember(namespace, md, groups, RequireReader).Ok? ==> r == inner
  {
    if UserIsProjectMember(namespace, md, groups, RequireReader).Err? then
      Err(PermissionDenied("eosfs: files revisions can only be downloaded by project memners"))
    else inner
  }

  /** RestoreRevision: writers and admins. */
  function RestoreRevision(namespace: string, md: Result<string>, groups: seq<string>, inner: Result<()>): (r: Result<()>)
    ensures UserIsProjectMember(namespace, md, groups, RequireWriter).Err? ==>
              r == Err(PermissionDenied("eosfs: files revisions can only be restored by project writers or admins"))
    ensures UserIsProjectMember(namespace, md, groups, RequireWriter).Ok? ==> r == inner
  {
    if UserIsProjectMember(namespace, md, groups, RequireWriter).Err? then
      Err(PermissionDenied("eosfs: files revisions can only be restored by project writers or admins"))
    else inner
  }

  /** DenyGrant: not supported outside the project namespace; inside it
      only admins reach the wrapped driver. */
  function DenyGrant(namespace: string, md: Result<string>, groups: seq<string>, inner: Result<()>): (r: Result<()>)
    ensures !HasPrefix(namespace, EosProjectsNamespace) ==>
              r == Err(NotSupported("eosfs: deny grant is only enabled for project spaces"))
    ensures HasPrefix(namespace, EosProjectsNamespace) && UserIsProjectMember(namespace, md, groups, RequireAdmin).Err? ==>
              r == Err(PermissionDenied("eosfs: deny grant can only be set by project admins"))
    ensures HasPrefix(namespace, EosProjectsNamespace) && UserIsProjectMember(namespace, md, groups, RequireAdmin).Ok? ==>
              r == inner
  {
    if HasPrefix(namespace, EosProjectsNamespace) then
      if UserIsProjectMember(namespace, md, groups, RequireAdmin).Err? then
        Err(PermissionDenied("eosfs: deny grant can only be set by project admins"))
      else inner
    else Err(NotSupported("eosfs: deny grant is only enabled for project spaces"))
  }

  /** Whoever may restore a revision may list and download revisions, and
      whoever may deny grants may restore revisions. */
  lemma GatesNest(namespace: string, md: Result<string>, groups: seq<string>)
    ensures RestoreRevision(namespace, md, groups, Ok(())).Ok? ==> ListRevisions(namespace, md, groups, Ok(())).Ok?
    ensures RestoreRevision(namespace, md, groups, Ok(())).Ok? ==> DownloadRevision(namespace, md, groups, Ok(())).Ok?
    ensures DenyGrant(namespace, md, groups, Ok(())).Ok? ==> RestoreRevision(namespace, md, groups, Ok(())).Ok?
  {
    if UserIsProjectMember(namespace, md, groups, RequireWriter).Ok? {
      MembershipMonotone(namespace, md, groups, RequireWriter, RequireReader);
    }
    if UserIsProjectMember(namespace, md, groups, RequireAdmin).Ok? {
      MembershipMonotone(namespace, md, groups, RequireAdmin, RequireWriter);
    }
  }

  // ---------------------------------------------------------------------
  // Sharing permissions of project admins

  /** The flags of a resource's permission set (the CS3 resource
      permissions); a set of them holds the flags that are true. */
  datatype Permission =
    | AddGrant | CreateContainer | Delete | GetPath | GetQuota
    | InitiateFileDownload | InitiateFileUpload | ListGrants | ListContainer
    | ListFileVersions | ListRecycle | Move | RemoveGrant | PurgeRecycle
    | RestoreFileVersion | RestoreRecycleItem | Stat | UpdateGrant | DenyGrant

  type PermissionSet = set<Permission>

  /** The metadata of a resource, as far as the wrapper reads and updates
      it. */
  class ResourceInfo {
    var path: string
    var permissionSet: PermissionSet

    constructor (path: string, permissionSet: PermissionSet)
      ensures this.path == path && this.permissionSet == permissionSet
    {
      this.path := path;
      this.permissionSet := permissionSet;
    }
  }

  /** Whether the user is in the admin group of the project a path names,
      on a project-space instance. */
  predicate IsSpaceAdmin(namespace: string, path: string, groups: seq<string>)
  {
    HasPrefix(namespace, EosProjectsNamespace)
    && ProjectOfPath(path).Some?
    && GroupOf(ProjectOfPath(path).value, AdminsGroupSuffix) in groups
  }

  /** The sharing permissions of an admin are exactly those of a user
      passing the admin membership check, on a path naming a project. */
  lemma SpaceAdminIsAdminMember(namespace: string, path: string, groups: seq<string>)
    ensures IsSpaceAdmin(namespace, path, groups) <==>
              HasPrefix(namespace, EosProjectsNamespace) && ProjectOfPath(path).Some?
              && UserIsProjectMember(namespace, Ok(path), groups, RequireAdmin).Ok?
  {
    if HasPrefix(namespace, EosProjectsNamespace) && ProjectOfPath(path).Some? {
      MembershipLevels(namespace, path, groups);
    }
  }

  /** setProjectSharingPermissions: for a member of the project's admin
      group, grant management and the quota become allowed, and denying
      grants too unless the user acts through a public share; nothing else
      changes, and nothing at all for other users. */
  method SetProjectSharingPermissions(r: ResourceInfo, namespace: string, groups: seq<string>, isPublicShare: bool)
    modifies r
    ensures r.path == old(r.path)
    ensures !IsSpaceAdmin(namespace, r.path, groups) ==> r.permissionSet == old(r.permissionSet)
    ensures IsSpaceAdmin(namespace, r.path, groups) ==> r.permissionSet == AdminPermissions(old(r.permissionSet), isPublicShare)
  {
    if HasPrefix(namespace, EosProjectsNamespace) {
      var parts := SplitN(r.path, '/', 4);
      if |parts| != 4 && |parts| != 3 {
        return;
      }
      var adminGroup := GroupOf(parts[2], AdminsGroupSuffix);
      for i := 0 to |groups|
        invariant r.permissionSet == old(r.permissionSet)
        invariant adminGroup !in groups[..i]
      {
        if groups[i] == adminGroup {
          GrantAdminPermissions(r, isPublicShare);
          return;
        }
        assert groups[..i + 1] == groups[..i] + [groups[i]];
      }
      assert groups[..|groups|] == groups;
    }
  }

  /** The permissions of a project admin: grant management and the quota,
      and denying grants unless acting through a public share; the rest as
      before. */
  function AdminPermissions(p: PermissionSet, isPublicShare: bool): (q: PermissionSet)
    ensures AddGrant in q && RemoveGrant in q && UpdateGrant in q && ListGrants in q && GetQuota in q
    ensures Permission.DenyGrant in q <==> Permission.DenyGrant in p || !isPublicShare
    ensures p <= q
    ensures forall f :: f in q && f !in p ==> f in {AddGrant, RemoveGrant, UpdateGrant, ListGrants, GetQuota, Permission.DenyGrant}
  {
    p + {AddGrant, RemoveGrant, UpdateGrant, ListGrants, GetQuota} + (if isPublicShare then {} else {Permission.DenyGrant})
  }

  /** The flag-by-flag update for an admin. */
  method GrantAdminPermissions(r: ResourceInfo, isPublicShare: bool)
    modifies r
    ensures r.path == old(r.path)
    ensures r.permissionSet == AdminPermissions(old(r.permissionSet), isPublicShare)
  {
    r.permissionSet := r.permissionSet + {AddGrant};
    r.permissionSet := r.permissionSet + {RemoveGrant};
    r.permissionSet := r.permissionSet + {UpdateGrant};
    r.permissionSet := r.permissionSet + {ListGrants};
    r.permissionSet := r.permissionSet + {GetQuota};
    if !isPublicShare {
      r.permissionSet := r.permissionSet + {Permission.DenyGrant};
    }
  }

  // ---------------------------------------------------------------------
  // Construction

  /** The part of the EOS driver's configuration the constructor adjusts. */
  class EosConfig {
    var namespace: string
    var enableHome: bool
    var versionInvariant: bool
    var allowPathRecycleOperations: bool

    constructor (namespace: string, enableHome: bool, versionInvariant: bool, allowPathRecycleOperations: bool)
      ensures this.namespace == namespace && this.enableHome == enableHome
      ensures this.versionInvariant == versionInvariant
      ensures this.allowPathRecycleOperations == allowPathRecycleOperations
    {
      this.namespace := namespace;
      this.enableHome := enableHome;
      this.versionInvariant := versionInvariant;
      this.allowPathRecycleOperations := allowPathRecycleOperations;
    }
  }

  const DefaultMountIdTemplate: string := "eoshome-{{ trimAll \"/\" .Path | substr 0 1 }}"

  /** The defaults the constructor applies to a decoded configuration:
      version invariance when the key is absent, path recycle operations
      for a project-space instance without home directories. */
  method ApplyConfigDefaults(c: EosConfig, versionInvariantConfigured: bool)
    modifies c
    ensures c.namespace == old(c.namespace) && c.enableHome == old(c.enableHome)
    ensures c.versionInvariant == (old(c.versionInvariant) || !versionInvariantConfigured)
    ensures c.allowPathRecycleOperations ==
              (old(c.allowPathRecycleOperations) || (!c.enableHome && HasPrefix(c.namespace, EosProjectsNamespace)))
  {
    if !versionInvariantConfigured {
      c.versionInvariant := true;
    }
    if !c.enableHome && HasPrefix(c.namespace, EosProjectsNamespace) {
      c.allowPathRecycleOperations := true;
    }
  }

  /** The mount-ID template: the configured one unless it is absent, not a
      string (both `None` here) or empty. */
  function MountIdTemplate(configured: Option<string>): (t: string)
    ensures t != ""
    ensures configured.Some? && configured.value != "" ==> t == configured.value
    ensures configured.None? || configured.value == "" ==> t == DefaultMountIdTemplate
  {
    if configured.None? || configured.value == "" then DefaultMountIdTemplate else configured.value
  }

  /** The rest of the constructor as written: the driver's result is
      converted to the concrete EOS driver type before its error is
      looked at, so a failed construction panics on the nil driver. */
  function NewOutcomeAsWritten(newEosFs: Result<()>, template: string, parse: string -> Option<Error>): (r: Result<string>)
  {
    if newEosFs.Err? then Err(Panic("interface conversion: storage.FS is nil, not *eosfs.Eosfs"))
    else match parse(template)
      case Some(e) => Err(e)
      case None => Ok(template)
  }

  /** A failed driver construction ends in a panic, not in its error. */
  lemma NewPanicsOnDriverError(e: Error, template: string, parse: string -> Option<Error>)
    ensures NewOutcomeAsWritten(Err(e), template, parse).Err?
    ensures NewOutcomeAsWritten(Err(e), template, parse).error.Panic?
  {
  }

  /** The rest of the constructor with the error looked at first: the
      driver's error, then the template's parse error, else the wrapper
      with its template. */
  function NewOutcome(newEosFs: Result<()>, template: string, parse: string -> Option<Error>): (r: Result<string>)
    ensures newEosFs.Err? ==> r == Err(newEosFs.error)
    ensures newEosFs.Ok? && parse(template).Some? ==> r == Err(parse(template).value)
    ensures newEosFs.Ok? && parse(template).None? ==> r == Ok(template)
  {
    if newEosFs.Err? then Err(newEosFs.error)
    else match parse(template)
      case Some(e) => Err(e)
      case None => Ok(template)
  }

  /** The two agree whenever the driver is built. */
  lemma NewOutcomeAgrees(newEosFs: Result<()>, template: string, parse: string -> Option<Error>)
    requires newEosFs.Ok?
    ensures NewOutcome(newEosFs, template, parse) == NewOutcomeAsWritten(newEosFs, template, parse)
  {
  }

  /** New: decode (given), apply the defaults, choose the mount-ID
      template, build the driver and parse the template, as written: a
      failed driver construction panics. The result is the template of the
      new wrapper. */
  method New(c: EosConfig, versionInvariantConfigured: bool, mountIdTemplate: Option<string>,
             newEosFs: Result<()>, parse: string -> Option<Error>) returns (r: Result<string>)
    modifies c
    ensures c.namespace == old(c.namespace) && c.enableHome == old(c.enableHome)
    ensures c.versionInvariant == (old(c.versionInvariant) || !versionInvariantConfigured)
    ensures c.allowPathRecycleOperations ==
              (old(c.allowPathRecycleOperations) || (!c.enableHome && HasPrefix(c.namespace, EosProjectsNamespace)))
    ensures r == NewOutcomeAsWritten(newEosFs, MountIdTemplate(mountIdTemplate), parse)
    ensures newEosFs.Err? ==> r.Err? && r.error.Panic?
    ensures newEosFs.Ok? ==> r == NewOutcome(newEosFs, MountIdTemplate(mountIdTemplate), parse)
  {
    ApplyConfigDefaults(c, versionInvariantConfigured);
    var t := MountIdTemplate(mountIdTemplate);
    r := NewOutcomeAsWritten(newEosFs, t, parse);
  }
}
