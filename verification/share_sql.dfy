/** Query and parameter construction of the SQL share manager: the filters
    on listed shares, the restriction to the user's own shares, the
    received-share lookups and the recipient-state update.

    A query is kept as a sequence of pieces: fixed SQL text (one of the
    fragments below) or a `?` placeholder. `Render` gives the text sent to
    the database; the invariant the code keeps is that a query has exactly
    one placeholder per parameter. */
module ShareSql {
  import opened Wrappers
  import opened GoStrings
  import opened Cs3

  // ---------------------------------------------------------------------
  // Queries as text and placeholders

  /** The fixed SQL text the share manager writes. None of them contains a
      `?`; the multi-line column lists are written on one line. */
  datatype Fragment =
    | OpenParen | CloseParen | OrSep | AndSep | AndOpen
    | ResourceIdPrefix | ResourceIdItemSource | ShareTypeEq | PermissionsPositive
    | UidOwnerEq | OrUidInitiatorEq
    | SharesSelect | SharesOrShareType
    | ReceivedSelect | ReceivedWhere | ReceivedAndInitiator
    | ByIdSelect | ByIdWhere
    | ByKeySelect | ByKeyWhere | ByKeyPrefix | ByKeyItemSource | ByKeyShareType | ByKeyShareWith
    | GroupsUser | GroupsIn | Comma | GroupsClose
    | NoGroupsUser | NoGroupsClose | NoGroupsByIdClose
    | StatusInsert | ListSep | StatusOnDuplicate

  function FragmentText(f: Fragment): string
  {
    match f
    case OpenParen => "("
    case CloseParen => ")"
    case OrSep => " OR "
    case AndSep => " AND "
    case AndOpen => " AND ("
    case ResourceIdPrefix => "(fileid_prefix ="
    case ResourceIdItemSource => " AND item_source="
    case ShareTypeEq => "share_type="
    case PermissionsPositive => "(permissions > 0)"
    case UidOwnerEq => "uid_owner="
    case OrUidInitiatorEq => " or uid_initiator="
    case SharesSelect =>
      "select coalesce(uid_owner, '') as uid_owner, coalesce(uid_initiator, '') as uid_initiator, "
      + "lower(coalesce(share_with, '')) as share_with, coalesce(fileid_prefix, '') as fileid_prefix, "
      + "coalesce(item_source, '') as item_source, coalesce(item_type, '') as item_type, "
      + "id, stime, permissions, share_type FROM oc_share WHERE (orphan = 0 or orphan IS NULL) AND (share_type="
    case SharesOrShareType => " OR share_type="
    case ReceivedSelect =>
      "SELECT coalesce(uid_owner, '') as uid_owner, coalesce(uid_initiator, '') as uid_initiator, "
      + "lower(coalesce(share_with, '')) as share_with, coalesce(fileid_prefix, '') as fileid_prefix, "
      + "coalesce(item_source, '') as item_source, coalesce(item_type, '') as item_type, "
      + "ts.id, stime, permissions, share_type, coalesce(tr.state, 0) as state "
      + "FROM oc_share ts LEFT JOIN oc_share_status tr ON (ts.id = tr.id AND tr.recipient = "
    case ReceivedWhere => ") WHERE (orphan = 0 or orphan IS NULL) AND (uid_owner != "
    case ReceivedAndInitiator => " AND uid_initiator != "
    case ByIdSelect =>
      "select coalesce(uid_owner, '') as uid_owner, coalesce(uid_initiator, '') as uid_initiator, "
      + "lower(coalesce(share_with, '')) as share_with, coalesce(fileid_prefix, '') as fileid_prefix, "
      + "coalesce(item_source, '') as item_source, coalesce(item_type, '') as item_type, "
      + "stime, permissions, share_type, coalesce(tr.state, 0) as state "
      + "FROM oc_share ts LEFT JOIN oc_share_status tr ON (ts.id = tr.id AND tr.recipient = "
    case ByIdWhere => ") WHERE (orphan = 0 or orphan IS NULL) AND ts.id="
    case ByKeySelect =>
      "select coalesce(uid_owner, '') as uid_owner, coalesce(uid_initiator, '') as uid_initiator, "
      + "lower(coalesce(share_with, '')) as share_with, coalesce(fileid_prefix, '') as fileid_prefix, "
      + "coalesce(item_source, '') as item_source, coalesce(item_type, '') as item_type, "
      + "ts.id, stime, permissions, share_type, coalesce(tr.state, 0) as state "
      + "FROM oc_share ts LEFT JOIN oc_share_status tr ON (ts.id = tr.id AND tr.recipient = "
    case ByKeyWhere => ") WHERE (orphan = 0 or orphan IS NULL) AND uid_owner="
    case ByKeyPrefix => " AND fileid_prefix="
    case ByKeyItemSource => " AND item_source="
    case ByKeyShareType => " AND share_type="
    case ByKeyShareWith => " AND lower(share_with)=lower("
    case GroupsUser => " AND ((lower(share_with)=lower("
    case GroupsIn => ") AND share_type = 0) OR (share_type = 1 AND lower(share_with) in ("
    case Comma => ","
    case GroupsClose => ")))"
    case NoGroupsUser => " AND (lower(share_with)=lower("
    case NoGroupsClose => ") AND share_type = 0)"
    case NoGroupsByIdClose => ")  AND share_type = 0)"
    case StatusInsert => "insert into oc_share_status(id, recipient, state) values("
    case ListSep => ", "
    case StatusOnDuplicate => ") ON DUPLICATE KEY UPDATE state = "
  }

  datatype Piece = Text(f: Fragment) | Placeholder

  type Query = seq<Piece>

  /** The query text as the database receives it. */
  function Render(q: Query): string
  {
    if q == [] then ""
    else Render(q[..|q| - 1]) + (match q[|q| - 1] case Text(f) => FragmentText(f) case Placeholder => "?")
  }

  /** The number of `?` placeholders in a query. */
  function Placeholders(q: Query): nat
  {
    if q == [] then 0
    else Placeholders(q[..|q| - 1]) + (if q[|q| - 1] == Placeholder then 1 else 0)
  }

  lemma {:induction false} PlaceholdersAppend(a: Query, b: Query)
    ensures Placeholders(a + b) == Placeholders(a) + Placeholders(b)
    decreases |b|
  {
    if b == [] {
      assert a + b == a;
    } else {
      assert (a + b)[..|a + b| - 1] == a + b[..|b| - 1];
      PlaceholdersAppend(a, b[..|b| - 1]);
    }
  }

  /** The placeholder count is the number of occurrences of `Placeholder`. */
  lemma {:induction false} PlaceholdersCount(q: Query)
    ensures Placeholders(q) == multiset(q)[Placeholder]
    decreases |q|
  {
    if q != [] {
      PlaceholdersCount(q[..|q| - 1]);
      assert q == q[..|q| - 1] + [q[|q| - 1]];
    }
  }

  lemma PlaceholdersText(f: Fragment)
    ensures Placeholders([Text(f)]) == 0
  {
    assert [Text(f)][..0] == [];
  }

  lemma PlaceholdersOne()
    ensures Placeholders([Placeholder]) == 1
  {
    assert [Placeholder][..0] == [];
  }

  /** A database parameter: the share manager binds strings and integers. */
  datatype Param = StrParam(s: string) | IntParam(n: int)

  /** One placeholder per parameter. */
  predicate Balanced(q: Query, params: seq<Param>)
  {
    Placeholders(q) == |params|
  }

  lemma BalancedAppend(q1: Query, p1: seq<Param>, q2: Query, p2: seq<Param>)
    requires Balanced(q1, p1) && Balanced(q2, p2)
    ensures Balanced(q1 + q2, p1 + p2)
  {
    PlaceholdersAppend(q1, q2);
  }

  // ---------------------------------------------------------------------
  // Share types

  const ShareTypeUser: int := 0
  const ShareTypeGroup: int := 1

  /** granteeTypeToShareType: users are stored as 0, groups as 1, anything
      else as -1. */
  function GranteeTypeToShareType(g: GranteeType): (r: int)
    ensures r == ShareTypeUser <==> g == GranteeTypeUser
    ensures r == ShareTypeGroup <==> g == GranteeTypeGroup
    ensures r == -1 <==> g == GranteeTypeInvalid
  {
    match g
    case GranteeTypeUser => ShareTypeUser
    case GranteeTypeGroup => ShareTypeGroup
    case GranteeTypeInvalid => -1
  }

  // ---------------------------------------------------------------------
  // Project administrators

  const ProjectPathPrefix: string := "/eos/project/"

  /** The group whose members administer a project. */
  function AdminGroup(project: string): (r: string)
    ensures HasPrefix(r, "cernbox-project-") && HasSuffix(r, "-admins")
  {
    "cernbox-project-" + project + "-admins"
  }

  /** isProjectAdmin: the path lies in the project area, has a fifth
      `/`-separated part (the project name), and the user is in that
      project's admin group. */
  predicate IsProjectAdmin(userGroups: seq<string>, path: string)
  {
    HasPrefix(path, ProjectPathPrefix)
    && var parts := SplitN(path, '/', 6);
       |parts| >= 5 && AdminGroup(parts[4]) in userGroups
  }

  /** The first `/`-separated part of a name followed by nothing or by a
      further `/`-part is that name. */
  lemma SplitNHead(name: string, tail: string, n: nat)
    requires n >= 2 && '/' !in name
    requires tail == [] || tail[0] == '/'
    ensures SplitN(name + tail, '/', n)[0] == name
  {
    if tail == [] {
      assert name + tail == name;
      assert IndexByte(name, '/') == -1;
    } else {
      assert name + tail == name + ['/'] + tail[1..];
      SplitNOfJoin(name, '/', tail[1..], n);
    }
  }

  /** The project path prefix as its `/`-separated parts. */
  lemma ProjectPathPrefixParts(rest: string)
    ensures ProjectPathPrefix + rest == "" + ['/'] + ("eos" + ['/'] + ("project" + ['/'] + rest))
    ensures '/' !in "" && '/' !in "eos" && '/' !in "project"
  {
  }

  /** Splitting /eos/project/<letter>/<rest> into at most six parts gives
      four leading parts, and then <rest> split in two. */
  lemma ProjectPathSplit(letter: string, rest: string)
    requires '/' !in letter
    ensures var parts := SplitN(ProjectPathPrefix + (letter + ['/'] + rest), '/', 6);
            |parts| >= 4 && parts[4..] == SplitN(rest, '/', 2)
  {
    var s3 := letter + ['/'] + rest;
    var s2 := "project" + ['/'] + s3;
    var s1 := "eos" + ['/'] + s2;
    ProjectPathPrefixParts(s3);
    SplitNOfJoin("", '/', s1, 6);
    SplitNOfJoin("eos", '/', s2, 5);
    SplitNOfJoin("project", '/', s3, 4);
    SplitNOfJoin(letter, '/', rest, 3);
    var p0 := SplitN(ProjectPathPrefix + s3, '/', 6);
    var p1 := SplitN(s1, '/', 5);
    var p2 := SplitN(s2, '/', 4);
    var p3 := SplitN(s3, '/', 3);
    assert p0[1..] == p1;
    assert p1[1..] == p2;
    assert p2[1..] == p3;
    assert p3[1..] == SplitN(rest, '/', 2);
    assert p0[4..] == p3[1..];
  }

  /** Under /eos/project/<letter>/<name>, a user is a project admin exactly
      when they are in the admin group of <name>. */
  lemma ProjectAdminOfPath(userGroups: seq<string>, letter: string, name: string, tail: string)
    requires '/' !in letter && '/' !in name
    requires tail == [] || tail[0] == '/'
    ensures IsProjectAdmin(userGroups, ProjectPathPrefix + (letter + ['/'] + (name + tail)))
            <==> AdminGroup(name) in userGroups
  {
    var path := ProjectPathPrefix + (letter + ['/'] + (name + tail));
    ProjectPathSplit(letter, name + tail);
    SplitNHead(name, tail, 2);
    assert SplitN(path, '/', 6)[4] == SplitN(path, '/', 6)[4..][0];
    assert path[..|ProjectPathPrefix|] == ProjectPathPrefix;
  }

  /** A path that stops at the letter level names no project. */
  lemma NoProjectAdminAtLetter(userGroups: seq<string>, letter: string)
    requires '/' !in letter
    ensures !IsProjectAdmin(userGroups, ProjectPathPrefix + letter)
  {
    ProjectPathPrefixParts(letter);
    SplitNOfJoin("", '/', "eos" + ['/'] + ("project" + ['/'] + letter), 6);
    SplitNOfJoin("eos", '/', "project" + ['/'] + letter, 5);
    SplitNOfJoin("project", '/', letter, 4);
    assert IndexByte(letter, '/') == -1;
  }

  /** isProjectAdminFromCtx: without a resource path in the request context
      nobody is a project admin. */
  predicate IsProjectAdminFromCtx(userGroups: seq<string>, resourcePath: Option<string>)
  {
    resourcePath.Some? && IsProjectAdmin(userGroups, resourcePath.value)
  }

  // ---------------------------------------------------------------------
  // Restricting to the user's own shares

  /** uidOwnerFilters: a project admin sees every share of the resource;
      anyone else only the shares they own or created. */
  function UidOwnerFilters(uid: string, isProjectAdmin: bool): (r: (Query, seq<Param>))
    ensures isProjectAdmin ==> r == ([], [])
    ensures !isProjectAdmin ==> r.1 == [StrParam(uid), StrParam(uid)] && r.0 != []
    ensures Balanced(r.0, r.1)
  {
    if isProjectAdmin then ([], [])
    else
      var q := [Text(UidOwnerEq), Placeholder, Text(OrUidInitiatorEq), Placeholder];
      PlaceholdersAppend([Text(UidOwnerEq), Placeholder], [Text(OrUidInitiatorEq), Placeholder]);
      PlaceholdersAppend([Text(UidOwnerEq)], [Placeholder]);
      PlaceholdersAppend([Text(OrUidInitiatorEq)], [Placeholder]);
      PlaceholdersText(UidOwnerEq);
      PlaceholdersText(OrUidInitiatorEq);
      PlaceholdersOne();
      assert q == [Text(UidOwnerEq), Placeholder] + [Text(OrUidInitiatorEq), Placeholder];
      (q, [StrParam(uid), StrParam(uid)])
  }

  /** `query AND (clause)`, as the `"%s AND (%s)"` format builds it. */
  function AndClause(query: Query, clause: Query): (r: Query)
    ensures Placeholders(r) == Placeholders(query) + Placeholders(clause)
  {
    PlaceholdersAppend(query, [Text(AndOpen)]);
    PlaceholdersAppend(query + [Text(AndOpen)], clause);
    PlaceholdersAppend(query + [Text(AndOpen)] + clause, [Text(CloseParen)]);
    PlaceholdersText(AndOpen);
    PlaceholdersText(CloseParen);
    query + [Text(AndOpen)] + clause + [Text(CloseParen)]
  }

  /** appendUidOwnerFilters: the parameters always grow by the filter's
      parameters; the query gets ` AND (...)` only when the filter is not
      empty. A balanced query stays balanced. */
  function AppendUidOwnerFilters(query: Query, params: seq<Param>, uid: string, isProjectAdmin: bool): (r: (Query, seq<Param>))
    ensures isProjectAdmin ==> r == (query, params)
    ensures !isProjectAdmin ==> r.1 == params + [StrParam(uid), StrParam(uid)] && |r.0| > |query| && r.0[..|query|] == query
    ensures Balanced(query, params) ==> Balanced(r.0, r.1)
  {
    var (q, p) := UidOwnerFilters(uid, isProjectAdmin);
    var query' := if q != [] then AndClause(query, q) else query;
    assert !isProjectAdmin ==> query'[..|query|] == query;
    assert isProjectAdmin ==> params + p == params;
    (query', params + p)
  }

  // ---------------------------------------------------------------------
  // Filters on listed shares

  /** The filter kinds a share listing can carry. A filter's kind is that
      of its term; `OtherType` stands for the kinds this manager does not
      support. */
  datatype FilterType = ResourceIdType | GranteeTypeType | ExcludeDenialsType | OtherType(code: int)

  datatype ShareFilter =
    | ByResourceId(id: ResourceId)
    | ByGranteeType(granteeType: GranteeType)
    | ExcludeDenials
    | OtherFilter(code: int)
  {
    function Type(): FilterType
    {
      match this
      case ByResourceId(_) => ResourceIdType
      case ByGranteeType(_) => GranteeTypeType
      case ExcludeDenials => ExcludeDenialsType
      case OtherFilter(c) => OtherType(c)
    }
  }

  /** One entry of the filters grouped by type, in the order the map is
      iterated. */
  datatype FilterGroup = FilterGroup(ftype: FilterType, filters: seq<ShareFilter>)

  /** As the grouping builds them: every filter sits in its own type's
      group. */
  predicate WellGrouped(groups: seq<FilterGroup>)
  {
    forall k, j :: 0 <= k < |groups| && 0 <= j < |groups[k].filters| ==> groups[k].filters[j].Type() == groups[k].ftype
  }

  predicate Supported(t: FilterType)
  {
    !t.OtherType?
  }

  /** The condition one filter adds to its group. */
  function Condition(f: ShareFilter): (r: Query)
    ensures f.ByResourceId? ==> Placeholders(r) == 2
    ensures f.ByGranteeType? ==> Placeholders(r) == 1
  {
    match f
    case ByResourceId(_) =>
      var q := [Text(ResourceIdPrefix), Placeholder, Text(ResourceIdItemSource), Placeholder, Text(CloseParen)];
      assert q == [Text(ResourceIdPrefix)] + [Placeholder] + [Text(ResourceIdItemSource)] + [Placeholder] + [Text(CloseParen)];
      PlaceholdersAppend([Text(ResourceIdPrefix)], [Placeholder]);
      PlaceholdersAppend([Text(ResourceIdPrefix)] + [Placeholder], [Text(ResourceIdItemSource)]);
      PlaceholdersAppend([Text(ResourceIdPrefix)] + [Placeholder] + [Text(ResourceIdItemSource)], [Placeholder]);
      PlaceholdersAppend([Text(ResourceIdPrefix)] + [Placeholder] + [Text(ResourceIdItemSource)] + [Placeholder], [Text(CloseParen)]);
      PlaceholdersText(ResourceIdPrefix);
      PlaceholdersText(ResourceIdItemSource);
      PlaceholdersText(CloseParen);
      PlaceholdersOne();
      q
    case ByGranteeType(_) =>
      PlaceholdersAppend([Text(ShareTypeEq)], [Placeholder]);
      PlaceholdersText(ShareTypeEq);
      PlaceholdersOne();
      assert [Text(ShareTypeEq), Placeholder] == [Text(ShareTypeEq)] + [Placeholder];
      [Text(ShareTypeEq), Placeholder]
    case _ => []
  }

  /** The parameters one filter binds: storage and opaque id of a resource,
      or the stored share type of a grantee type. */
  function ConditionParams(f: ShareFilter): (r: seq<Param>)
    ensures f.ByResourceId? ==> r == [StrParam(f.id.storageId), StrParam(f.id.opaqueId)]
    ensures f.ByGranteeType? ==> r == [IntParam(GranteeTypeToShareType(f.granteeType))]
    ensures !f.ByResourceId? && !f.ByGranteeType? ==> r == []
  {
    match f
    case ByResourceId(id) => [StrParam(id.storageId), StrParam(id.opaqueId)]
    case ByGranteeType(g) => [IntParam(GranteeTypeToShareType(g))]
    case _ => []
  }

  lemma ConditionBalanced(f: ShareFilter)
    requires f.ByResourceId? || f.ByGranteeType?
    ensures Balanced(Condition(f), ConditionParams(f))
  {
  }

  /** The conditions of `fs`, separated by ` OR `. */
  function OrOf(fs: seq<ShareFilter>): Query
  {
    if fs == [] then []
    else if |fs| == 1 then Condition(fs[0])
    else OrOf(fs[..|fs| - 1]) + [Text(OrSep)] + Condition(fs[|fs| - 1])
  }

  /** All parameters the filters bind, in order. */
  function OrParams(fs: seq<ShareFilter>): seq<Param>
  {
    if fs == [] then [] else OrParams(fs[..|fs| - 1]) + ConditionParams(fs[|fs| - 1])
  }

  lemma {:induction false} OrOfBalanced(fs: seq<ShareFilter>)
    requires forall j :: 0 <= j < |fs| ==> fs[j].ByResourceId? || fs[j].ByGranteeType?
    ensures Balanced(OrOf(fs), OrParams(fs))
    decreases |fs|
  {
    if |fs| == 1 {
      ConditionBalanced(fs[0]);
      assert fs[..0] == [];
    } else if |fs| > 1 {
      var init := fs[..|fs| - 1];
      OrOfBalanced(init);
      ConditionBalanced(fs[|fs| - 1]);
      PlaceholdersText(OrSep);
      BalancedAppend(OrOf(init), OrParams(init), [Text(OrSep)], []);
      BalancedAppend(OrOf(init) + [Text(OrSep)], OrParams(init), Condition(fs[|fs| - 1]), ConditionParams(fs[|fs| - 1]));
      assert OrParams(init) + [] == OrParams(init);
    }
  }

  /** The clause one group contributes: its conditions joined by ` OR `
      inside parentheses, or the fixed test for exclude-denials. */
  function Clause(g: FilterGroup): Query
  {
    match g.ftype
    case ResourceIdType => [Text(OpenParen)] + OrOf(g.filters) + [Text(CloseParen)]
    case GranteeTypeType => [Text(OpenParen)] + OrOf(g.filters) + [Text(CloseParen)]
    case ExcludeDenialsType => [Text(PermissionsPositive)]
    case OtherType(_) => []
  }

  function ClauseParams(g: FilterGroup): seq<Param>
  {
    match g.ftype
    case ResourceIdType => OrParams(g.filters)
    case GranteeTypeType => OrParams(g.filters)
    case _ => []
  }

  lemma ClauseBalanced(g: FilterGroup)
    requires WellGrouped([g])
    ensures Balanced(Clause(g), ClauseParams(g))
  {
    if g.ftype == ResourceIdType || g.ftype == GranteeTypeType {
      forall j | 0 <= j < |g.filters|
        ensures g.filters[j].ByResourceId? || g.filters[j].ByGranteeType?
      {
        assert g.filters[j].Type() == [g][0].ftype;
      }
      OrOfBalanced(g.filters);
      PlaceholdersText(OpenParen);
      PlaceholdersText(CloseParen);
      BalancedAppend([Text(OpenParen)], [], OrOf(g.filters), OrParams(g.filters));
      BalancedAppend([Text(OpenParen)] + OrOf(g.filters), OrParams(g.filters), [Text(CloseParen)], []);
      assert [] + OrParams(g.filters) + [] == OrParams(g.filters);
    } else if g.ftype == ExcludeDenialsType {
      PlaceholdersText(PermissionsPositive);
    }
  }

  /** The group clauses, separated by ` AND `. */
  function AndOf(groups: seq<FilterGroup>): Query
  {
    if groups == [] then []
    else if |groups| == 1 then Clause(groups[0])
    else AndOf(groups[..|groups| - 1]) + [Text(AndSep)] + Clause(groups[|groups| - 1])
  }

  function AndParams(groups: seq<FilterGroup>): seq<Param>
  {
    if groups == [] then [] else AndParams(groups[..|groups| - 1]) + ClauseParams(groups[|groups| - 1])
  }

  predicate AllSupported(groups: seq<FilterGroup>)
  {
    forall k :: 0 <= k < |groups| ==> Supported(groups[k].ftype)
  }

  lemma AllSupportedSnoc(groups: seq<FilterGroup>, k: nat)
    requires k < |groups|
    ensures AllSupported(groups[..k + 1]) <==> AllSupported(groups[..k]) && Supported(groups[k].ftype)
    ensures !Supported(groups[k].ftype) ==> !AllSupported(groups)
  {
    assert groups[..k + 1][k] == groups[k];
    if !Supported(groups[k].ftype) {
      assert !Supported(groups[k].ftype);
    }
  }

  /** translateFilters as a function of the groups in iteration order:
      an error as soon as one group has an unsupported type, otherwise the
      clauses joined by ` AND ` and their parameters. */
  function TranslateSpec(groups: seq<FilterGroup>): Result<(Query, seq<Param>)>
  {
    if AllSupported(groups) then Ok((AndOf(groups), AndParams(groups)))
    else Err(Internal("filter type is not supported"))
  }

  lemma {:induction false} AndOfBalanced(groups: seq<FilterGroup>)
    requires WellGrouped(groups)
    ensures Balanced(AndOf(groups), AndParams(groups))
    decreases |groups|
  {
    if |groups| == 1 {
      assert WellGrouped([groups[0]]) by { assert [groups[0]] == groups; }
      ClauseBalanced(groups[0]);
      assert groups[..0] == [];
    } else if |groups| > 1 {
      var init := groups[..|groups| - 1];
      var last := groups[|groups| - 1];
      assert WellGrouped(init) by {
        forall k, j | 0 <= k < |init| && 0 <= j < |init[k].filters|
          ensures init[k].filters[j].Type() == init[k].ftype
        {
          assert init[k] == groups[k];
        }
      }
      assert WellGrouped([last]) by {
        forall k, j | 0 <= k < 1 && 0 <= j < |[last][k].filters|
          ensures [last][k].filters[j].Type() == [last][k].ftype
        {
          assert [last][k] == groups[|groups| - 1];
        }
      }
      AndOfBalanced(init);
      ClauseBalanced(last);
      PlaceholdersText(AndSep);
      BalancedAppend(AndOf(init), AndParams(init), [Text(AndSep)], []);
      BalancedAppend(AndOf(init) + [Text(AndSep)], AndParams(init), Clause(last), ClauseParams(last));
      assert AndParams(init) + [] == AndParams(init);
    }
  }

  /** translateFilters keeps one placeholder per parameter: two for every
      resource-id filter, one for every grantee-type filter and none for
      exclude-denials. */
  lemma TranslateBalanced(groups: seq<FilterGroup>)
    requires WellGrouped(groups)
    ensures TranslateSpec(groups).Ok? ==> Balanced(TranslateSpec(groups).value.0, TranslateSpec(groups).value.1)
  {
    AndOfBalanced(groups);
  }

  /** No groups give an empty query and no parameters. */
  lemma TranslateEmpty()
    ensures TranslateSpec([]) == Ok(([], []))
  {
  }

  /** The joined clauses never end in a dangling ` AND `: a non-empty list
      of supported groups ends with a closing parenthesis or with the
      exclude-denials test. */
  lemma AndOfEnds(groups: seq<FilterGroup>)
    requires |groups| > 0 && Supported(groups[|groups| - 1].ftype)
    ensures |AndOf(groups)| > 0
    ensures AndOf(groups)[|AndOf(groups)| - 1] in {Text(CloseParen), Text(PermissionsPositive)}
  {
  }

  /** The `?` count of the rendered condition matches the filter kind. */
  lemma ConditionPlaceholders(f: ShareFilter)
    ensures |ConditionParams(f)| == (if f.ByResourceId? then 2 else if f.ByGranteeType? then 1 else 0)
  {
  }

  /** translateFilters as the code runs it: a counter over the groups puts
      ` AND ` after every group but the last, and inside a group ` OR `
      after every filter but the last. */
  method TranslateFilters(groups: seq<FilterGroup>) returns (r: Result<(Query, seq<Param>)>)
    requires WellGrouped(groups)
    ensures r == TranslateSpec(groups)
    ensures r.Ok? ==> Balanced(r.value.0, r.value.1)
  {
    var filterQuery: Query := [];
    var params: seq<Param> := [];
    var filterCounter := 0;
    while filterCounter < |groups|
      invariant 0 <= filterCounter <= |groups|
      invariant AllSupported(groups[..filterCounter])
      invariant filterQuery == AndOf(groups[..filterCounter]) + Separator(AndSep, filterCounter, |groups|)
      invariant params == AndParams(groups[..filterCounter])
    {
      var clause := GroupClause(groups[filterCounter]);
      AllSupportedSnoc(groups, filterCounter);
      if clause.None? {
        return Err(Internal("filter type is not supported"));
      }
      AndOfSnoc(groups, filterCounter, filterQuery);
      filterQuery := filterQuery + clause.value.0;
      params := params + clause.value.1;
      if filterCounter != |groups| - 1 {
        filterQuery := filterQuery + [Text(AndSep)];
      }
      filterCounter := filterCounter + 1;
    }
    assert groups[..filterCounter] == groups;
    assert filterQuery == AndOf(groups) + [];
    assert filterQuery == AndOf(groups);
    TranslateBalanced(groups);
    return Ok((filterQuery, params));
  }

  /** The clause of one group as the loop body builds it; nothing for an
      unsupported type. */
  method GroupClause(g: FilterGroup) returns (r: Option<(Query, seq<Param>)>)
    ensures r.Some? <==> Supported(g.ftype)
    ensures r.Some? ==> r.value == (Clause(g), ClauseParams(g))
  {
    match g.ftype {
      case ResourceIdType =>
        var q, p := OrClause(g.filters);
        r := Some((q, p));
      case GranteeTypeType =>
        var q, p := OrClause(g.filters);
        r := Some((q, p));
      case ExcludeDenialsType =>
        r := Some(([Text(PermissionsPositive)], []));
      case OtherType(_) =>
        r := None;
    }
  }

  /** The separator the loops leave after the `i`-th of `n` items: one
      after every item but the last. */
  function Separator(f: Fragment, i: nat, n: nat): Query
  {
    if 0 < i < n then [Text(f)] else []
  }

  /** One step of the outer loop: adding the next group's clause. */
  lemma AndOfSnoc(groups: seq<FilterGroup>, k: nat, sofar: Query)
    requires k < |groups|
    requires sofar == AndOf(groups[..k]) + Separator(AndSep, k, |groups|)
    ensures sofar + Clause(groups[k]) == AndOf(groups[..k + 1])
    ensures AndParams(groups[..k + 1]) == AndParams(groups[..k]) + ClauseParams(groups[k])
  {
    assert groups[..k + 1][..k] == groups[..k];
    if k == 0 {
      assert AndOf(groups[..0]) == [];
      assert groups[..1] == [groups[0]];
    }
  }

  /** The parenthesised ` OR ` list of one group, built filter by filter. */
  method OrClause(fs: seq<ShareFilter>) returns (clause: Query, params: seq<Param>)
    ensures clause == [Text(OpenParen)] + OrOf(fs) + [Text(CloseParen)]
    ensures params == OrParams(fs)
  {
    var body: Query := [];
    params := [];
    var i := 0;
    while i < |fs|
      invariant 0 <= i <= |fs|
      invariant body == OrOf(fs[..i]) + Separator(OrSep, i, |fs|)
      invariant params == OrParams(fs[..i])
    {
      OrOfSnoc(fs, i, body);
      body := body + Condition(fs[i]);
      params := params + ConditionParams(fs[i]);
      if i != |fs| - 1 {
        body := body + [Text(OrSep)];
      }
      i := i + 1;
    }
    assert fs[..i] == fs;
    clause := [Text(OpenParen)] + body + [Text(CloseParen)];
  }

  lemma OrOfSnoc(fs: seq<ShareFilter>, i: nat, sofar: Query)
    requires i < |fs|
    requires sofar == OrOf(fs[..i]) + Separator(OrSep, i, |fs|)
    ensures sofar + Condition(fs[i]) == OrOf(fs[..i + 1])
    ensures OrParams(fs[..i + 1]) == OrParams(fs[..i]) + ConditionParams(fs[i])
  {
    assert fs[..i + 1][..i] == fs[..i];
    if i == 0 {
      assert OrOf(fs[..0]) == [];
      assert fs[..1] == [fs[0]];
    }
  }

  // ---------------------------------------------------------------------
  // Listing shares

  /** `query AND (filter)` when the filter query is not empty. */
  function WithFilter(query: Query, filterQuery: Query): (r: Query)
    ensures filterQuery == [] ==> r == query
    ensures Placeholders(r) == Placeholders(query) + Placeholders(filterQuery)
  {
    if filterQuery != [] then AndClause(query, filterQuery) else query
  }

  /** The shares with users and groups that are not orphans. */
  function SharesBase(): (r: (Query, seq<Param>))
    ensures Balanced(r.0, r.1)
  {
    var q := [Text(SharesSelect), Placeholder, Text(SharesOrShareType), Placeholder, Text(CloseParen)];
    PlaceholdersCount(q);
    (q, [IntParam(ShareTypeUser), IntParam(ShareTypeGroup)])
  }

  /** ListShares' query: the base query, the translated filters, and the
      restriction to the user's shares unless they administer the project
      of the resource in the request. */
  function ListSharesSpec(uid: string, isProjectAdmin: bool, filters: seq<FilterGroup>): Result<(Query, seq<Param>)>
  {
    match TranslateSpec(filters)
    case Err(e) => Err(e)
    case Ok((fq, fp)) =>
      var (q, p) := SharesBase();
      Ok(AppendUidOwnerFilters(WithFilter(q, fq), p + fp, uid, isProjectAdmin))
  }

  /** The listing query binds one parameter per placeholder. */
  lemma ListSharesBalanced(uid: string, isProjectAdmin: bool, filters: seq<FilterGroup>)
    requires WellGrouped(filters)
    ensures ListSharesSpec(uid, isProjectAdmin, filters).Ok? <==> AllSupported(filters)
    ensures ListSharesSpec(uid, isProjectAdmin, filters).Ok? ==>
              Balanced(ListSharesSpec(uid, isProjectAdmin, filters).value.0, ListSharesSpec(uid, isProjectAdmin, filters).value.1)
  {
    TranslateBalanced(filters);
  }

  method ListSharesQuery(uid: string, isProjectAdmin: bool, filters: seq<FilterGroup>) returns (r: Result<(Query, seq<Param>)>)
    requires WellGrouped(filters)
    ensures r == ListSharesSpec(uid, isProjectAdmin, filters)
  {
    var (query, params) := SharesBase();
    if |filters| > 0 {
      var t := TranslateFilters(filters);
      if t.Err? {
        return Err(t.error);
      }
      params := params + t.value.1;
      if t.value.0 != [] {
        query := AndClause(query, t.value.0);
      }
    } else {
      assert TranslateSpec(filters) == Ok(([], []));
      assert params + [] == params;
    }
    r := Ok(AppendUidOwnerFilters(query, params, uid, isProjectAdmin));
  }

  // ---------------------------------------------------------------------
  // Received shares

  /** The user's groups as parameters, in order. */
  function GroupParams(groups: seq<string>): (r: seq<Param>)
    ensures |r| == |groups|
    ensures forall i :: 0 <= i < |groups| ==> r[i] == StrParam(groups[i])
  {
    if groups == [] then [] else GroupParams(groups[..|groups| - 1]) + [StrParam(groups[|groups| - 1])]
  }

  /** The loop that appends one parameter per group. */
  method AppendGroupParams(params: seq<Param>, groups: seq<string>) returns (r: seq<Param>)
    ensures r == params + GroupParams(groups)
  {
    r := params;
    var i := 0;
    while i < |groups|
      invariant 0 <= i <= |groups|
      invariant r == params + GroupParams(groups[..i])
    {
      assert groups[..i + 1][..i] == groups[..i];
      r := r + [StrParam(groups[i])];
      i := i + 1;
    }
    assert groups[..i] == groups;
  }

  /** `,?` repeated `n` times. */
  function CommaPlaceholders(n: nat): (r: Query)
    ensures Placeholders(r) == n
  {
    if n == 0 then []
    else
      PlaceholdersAppend(CommaPlaceholders(n - 1), [Text(Comma), Placeholder]);
      PlaceholdersCount([Text(Comma), Placeholder]);
      CommaPlaceholders(n - 1) + [Text(Comma), Placeholder]
  }

  /** Who a received share is for: the user by name, or, when the user is
      in groups, also any of the groups through an `in (?,?,...)` list. */
  function RecipientClause(nGroups: nat, noGroupsClose: Fragment): (r: Query)
    ensures Placeholders(r) == (if nGroups > 0 then nGroups + 1 else 1)
  {
    if nGroups > 0 then
      var head := [Text(GroupsUser), Placeholder, Text(GroupsIn), Placeholder];
      PlaceholdersCount(head);
      PlaceholdersCount([Text(GroupsClose)]);
      PlaceholdersAppend(head, CommaPlaceholders(nGroups - 1));
      PlaceholdersAppend(head + CommaPlaceholders(nGroups - 1), [Text(GroupsClose)]);
      head + CommaPlaceholders(nGroups - 1) + [Text(GroupsClose)]
    else
      PlaceholdersCount([Text(NoGroupsUser), Placeholder, Text(noGroupsClose)]);
      [Text(NoGroupsUser), Placeholder, Text(noGroupsClose)]
  }

  function ReceivedBase(): (r: Query)
    ensures Placeholders(r) == 3
  {
    var q := [Text(ReceivedSelect), Placeholder, Text(ReceivedWhere), Placeholder, Text(ReceivedAndInitiator), Placeholder, Text(CloseParen)];
    PlaceholdersCount(q);
    q
  }

  /** ListReceivedShares' query: shares someone else owns and created,
      addressed to the user or one of their groups, with the translated
      filters. The user's id is bound four times, then the groups, then
      the filters' parameters. */
  function ListReceivedSpec(uid: string, userGroups: seq<string>, filters: seq<FilterGroup>): Result<(Query, seq<Param>)>
  {
    match TranslateSpec(filters)
    case Err(e) => Err(e)
    case Ok((fq, fp)) =>
      Ok((WithFilter(ReceivedBase() + RecipientClause(|userGroups|, NoGroupsClose), fq),
          [StrParam(uid), StrParam(uid), StrParam(uid), StrParam(uid)] + GroupParams(userGroups) + fp))
  }

  lemma ListReceivedBalanced(uid: string, userGroups: seq<string>, filters: seq<FilterGroup>)
    requires WellGrouped(filters)
    ensures ListReceivedSpec(uid, userGroups, filters).Ok? <==> AllSupported(filters)
    ensures ListReceivedSpec(uid, userGroups, filters).Ok? ==>
              Balanced(ListReceivedSpec(uid, userGroups, filters).value.0, ListReceivedSpec(uid, userGroups, filters).value.1)
  {
    TranslateBalanced(filters);
    PlaceholdersAppend(ReceivedBase(), RecipientClause(|userGroups|, NoGroupsClose));
  }

  method ListReceivedQuery(uid: string, userGroups: seq<string>, filters: seq<FilterGroup>) returns (r: Result<(Query, seq<Param>)>)
    requires WellGrouped(filters)
    ensures r == ListReceivedSpec(uid, userGroups, filters)
  {
    var params := AppendGroupParams([StrParam(uid), StrParam(uid), StrParam(uid), StrParam(uid)], userGroups);
    var query := ReceivedBase() + RecipientClause(|userGroups|, NoGroupsClose);
    var t := TranslateFilters(filters);
    if t.Err? {
      return Err(t.error);
    }
    params := params + t.value.1;
    if t.value.0 != [] {
      query := AndClause(query, t.value.0);
    }
    return Ok((query, params));
  }

  function ByIdBase(): (r: Query)
    ensures Placeholders(r) == 2
  {
    var q := [Text(ByIdSelect), Placeholder, Text(ByIdWhere), Placeholder];
    PlaceholdersCount(q);
    q
  }

  /** getReceivedByID's query: the share with that id, addressed to the
      user or one of their groups. */
  method ReceivedByIdQuery(uid: string, id: string, userGroups: seq<string>) returns (query: Query, params: seq<Param>)
    ensures params == [StrParam(uid), StrParam(id), StrParam(uid)] + GroupParams(userGroups)
    ensures query == ByIdBase() + RecipientClause(|userGroups|, NoGroupsByIdClose)
    ensures Balanced(query, params)
  {
    params := AppendGroupParams([StrParam(uid), StrParam(id), StrParam(uid)], userGroups);
    query := ByIdBase() + RecipientClause(|userGroups|, NoGroupsByIdClose);
    PlaceholdersAppend(ByIdBase(), RecipientClause(|userGroups|, NoGroupsByIdClose));
  }

  function ByKeyBase(): (r: Query)
    ensures Placeholders(r) == 6
  {
    var q := [Text(ByKeySelect), Placeholder, Text(ByKeyWhere), Placeholder, Text(ByKeyPrefix), Placeholder,
              Text(ByKeyItemSource), Placeholder, Text(ByKeyShareType), Placeholder, Text(ByKeyShareWith), Placeholder,
              Text(CloseParen)];
    PlaceholdersCount(q);
    q
  }

  /** getReceivedByKey's query: the share of that owner on that resource
      with that grantee, addressed to the user or one of their groups.
      The grantee is bound as its share type and name; the name twice. */
  method ReceivedByKeyQuery(uid: string, ownerUid: string, resource: ResourceId, shareType: int, shareWith: string, userGroups: seq<string>)
    returns (query: Query, params: seq<Param>)
    ensures params == [StrParam(uid), StrParam(ownerUid), StrParam(resource.storageId), StrParam(resource.opaqueId),
                       IntParam(shareType), StrParam(shareWith), StrParam(shareWith)] + GroupParams(userGroups)
    ensures query == ByKeyBase() + RecipientClause(|userGroups|, NoGroupsClose)
    ensures Balanced(query, params)
  {
    var head := [StrParam(uid), StrParam(ownerUid), StrParam(resource.storageId), StrParam(resource.opaqueId),
                 IntParam(shareType), StrParam(shareWith), StrParam(shareWith)];
    params := AppendGroupParams(head, userGroups);
    query := ByKeyBase() + RecipientClause(|userGroups|, NoGroupsClose);
    PlaceholdersAppend(ByKeyBase(), RecipientClause(|userGroups|, NoGroupsClose));
  }

  // ---------------------------------------------------------------------
  // Updating a received share

  /** The state stored for a recipient: rejected is -1, accepted 1, and
      anything else 0. */
  function StateCode(s: ShareState): (r: int)
    ensures r == -1 <==> s == StateRejected
    ensures r == 1 <==> s == StateAccepted
    ensures r == 0 <==> s != StateRejected && s != StateAccepted
  {
    match s
    case StateRejected => -1
    case StateAccepted => 1
    case _ => 0
  }

  predicate OnlyState(paths: seq<string>)
  {
    forall i :: 0 <= i < |paths| ==> paths[i] == "state"
  }

  /** UpdateReceivedShare: look the share up, apply the field mask, where
      only "state" may be updated, and store the resulting state for the
      recipient. Returns the new state with the statement and its
      parameters. */
  method UpdateReceivedShare(fetched: Result<ShareState>, requested: ShareState, paths: seq<string>, shareId: string, uid: string)
    returns (r: Result<(ShareState, Query, seq<Param>)>)
    ensures fetched.Err? ==> r == Err(fetched.error)
    ensures fetched.Ok? ==> (r.Ok? <==> OnlyState(paths))
    ensures fetched.Ok? && r.Err? ==>
              exists i :: 0 <= i < |paths| && OnlyState(paths[..i]) && paths[i] != "state"
                          && r.error == NotSupported("updating " + paths[i] + " is not supported")
    ensures r.Ok? ==> r.value.0 == (if |paths| > 0 then requested else fetched.value)
    ensures r.Ok? ==> r.value.2 == [StrParam(shareId), StrParam(uid), IntParam(StateCode(r.value.0)), IntParam(StateCode(r.value.0))]
    ensures r.Ok? ==> Balanced(r.value.1, r.value.2)
  {
    if fetched.Err? {
      return Err(fetched.error);
    }
    var state := fetched.value;
    var i := 0;
    while i < |paths|
      invariant 0 <= i <= |paths|
      invariant OnlyState(paths[..i])
      invariant state == (if i > 0 then requested else fetched.value)
    {
      if paths[i] != "state" {
        return Err(NotSupported("updating " + paths[i] + " is not supported"));
      }
      state := requested;
      assert paths[..i + 1] == paths[..i] + [paths[i]];
      i := i + 1;
    }
    assert paths[..i] == paths;
    var code := StateCode(state);
    var query := [Text(StatusInsert), Placeholder, Text(ListSep), Placeholder, Text(ListSep), Placeholder,
                  Text(StatusOnDuplicate), Placeholder];
    PlaceholdersCount(query);
    return Ok((state, query, [StrParam(shareId), StrParam(uid), IntParam(code), IntParam(code)]));
  }
}
