/** The user provider backed by the identity service: configuration
    defaults, the classification of identity-service accounts into CS3
    user types, the namespace filter of user searches and group
    membership. The identity service, the user and group caches and the
    token manager are parameters. */
module UserRest {
  import opened Wrappers
  import opened GoStrings
  import opened Cs3
  import Seqs

  // ---------------------------------------------------------------------
  // Configuration

  const DefaultUserGroupsCacheExpiration: int := 5
  const DefaultRedisAddress: string := ":6379"
  const DefaultApiBaseUrl: string := "https://authorization-service-api-dev.web.cern.ch"
  const DefaultTargetApi: string := "authorization-service-api"
  const DefaultOidcTokenEndpoint: string := "https://keycloak-dev.cern.ch/auth/realms/cern/api-access/token"
  const DefaultIdProvider: string := "http://cernbox.cern.ch"
  const DefaultUserFetchInterval: int := 3600

  /** The values of the driver's configuration. */
  datatype ConfigValue = ConfigValue(
    redisAddress: string,
    redisUsername: string,
    redisPassword: string,
    userGroupsCacheExpiration: int,
    idProvider: string,
    apiBaseUrl: string,
    clientId: string,
    clientSecret: string,
    oidcTokenEndpoint: string,
    targetApi: string,
    userFetchInterval: int)

  /** Every field that has a default is set. */
  predicate Complete(c: ConfigValue)
  {
    c.userGroupsCacheExpiration != 0 && c.redisAddress != "" && c.apiBaseUrl != ""
    && c.targetApi != "" && c.oidcTokenEndpoint != "" && c.idProvider != ""
    && c.userFetchInterval != 0
  }

  /** A text setting, or its default when it is empty. */
  function OrDefault(s: string, default: string): string
  {
    if s == "" then default else s
  }

  /** A number setting, or its default when it is 0. */
  function OrDefaultInt(x: int, default: int): int
  {
    if x == 0 then default else x
  }

  /** The configuration after the defaults: each field with a default that
      holds its zero value gets the default. */
  function WithDefaults(c: ConfigValue): (r: ConfigValue)
    ensures Complete(r)
    ensures Complete(c) ==> r == c
    ensures r.redisUsername == c.redisUsername && r.redisPassword == c.redisPassword
    ensures r.clientId == c.clientId && r.clientSecret == c.clientSecret
  {
    c.(userGroupsCacheExpiration := OrDefaultInt(c.userGroupsCacheExpiration, DefaultUserGroupsCacheExpiration),
       redisAddress := OrDefault(c.redisAddress, DefaultRedisAddress),
       apiBaseUrl := OrDefault(c.apiBaseUrl, DefaultApiBaseUrl),
       targetApi := OrDefault(c.targetApi, DefaultTargetApi),
       oidcTokenEndpoint := OrDefault(c.oidcTokenEndpoint, DefaultOidcTokenEndpoint),
       idProvider := OrDefault(c.idProvider, DefaultIdProvider),
       userFetchInterval := OrDefaultInt(c.userFetchInterval, DefaultUserFetchInterval))
  }

  /** Applying the defaults twice is applying them once. */
  lemma WithDefaultsIdempotent(c: ConfigValue)
    ensures WithDefaults(WithDefaults(c)) == WithDefaults(c)
  {
    assert Complete(WithDefaults(c));
  }

  /** A field that is already set keeps its value. */
  lemma WithDefaultsKeepsSetFields(c: ConfigValue)
    ensures c.userGroupsCacheExpiration != 0 ==> WithDefaults(c).userGroupsCacheExpiration == c.userGroupsCacheExpiration
    ensures c.redisAddress != "" ==> WithDefaults(c).redisAddress == c.redisAddress
    ensures c.apiBaseUrl != "" ==> WithDefaults(c).apiBaseUrl == c.apiBaseUrl
    ensures c.targetApi != "" ==> WithDefaults(c).targetApi == c.targetApi
    ensures c.oidcTokenEndpoint != "" ==> WithDefaults(c).oidcTokenEndpoint == c.oidcTokenEndpoint
    ensures c.idProvider != "" ==> WithDefaults(c).idProvider == c.idProvider
    ensures c.userFetchInterval != 0 ==> WithDefaults(c).userFetchInterval == c.userFetchInterval
  {
  }

  /** The driver's configuration, which the defaults update in place. */
  class Config {
    var redisAddress: string
    var redisUsername: string
    var redisPassword: string
    var userGroupsCacheExpiration: int
    var idProvider: string
    var apiBaseUrl: string
    var clientId: string
    var clientSecret: string
    var oidcTokenEndpoint: string
    var targetApi: string
    var userFetchInterval: int

    /** The current values of the fields. */
    function Value(): ConfigValue
      reads this
    {
      ConfigValue(redisAddress, redisUsername, redisPassword, userGroupsCacheExpiration, idProvider,
                  apiBaseUrl, clientId, clientSecret, oidcTokenEndpoint, targetApi, userFetchInterval)
    }

    /** A configuration as decoded from the driver's settings. */
    constructor (v: ConfigValue)
      ensures Value() == v
    {
      redisAddress := v.redisAddress;
      redisUsername := v.redisUsername;
      redisPassword := v.redisPassword;
      userGroupsCacheExpiration := v.userGroupsCacheExpiration;
      idProvider := v.idProvider;
      apiBaseUrl := v.apiBaseUrl;
      clientId := v.clientId;
      clientSecret := v.clientSecret;
      oidcTokenEndpoint := v.oidcTokenEndpoint;
      targetApi := v.targetApi;
      userFetchInterval := v.userFetchInterval;
    }

    /** ApplyDefaults: each field with a default is replaced by the default
        when it holds its zero value, so the fields become the
        configuration with defaults, which is complete afterwards; an
        already complete configuration is left as it is. */
    method ApplyDefaults()
      modifies this
      ensures Value() == WithDefaults(old(Value()))
      ensures Complete(Value())
      ensures old(Complete(Value())) ==> Value() == old(Value())
    {
      userGroupsCacheExpiration := OrDefaultInt(userGroupsCacheExpiration, DefaultUserGroupsCacheExpiration);
      redisAddress := OrDefault(redisAddress, DefaultRedisAddress);
      apiBaseUrl := OrDefault(apiBaseUrl, DefaultApiBaseUrl);
      targetApi := OrDefault(targetApi, DefaultTargetApi);
      oidcTokenEndpoint := OrDefault(oidcTokenEndpoint, DefaultOidcTokenEndpoint);
      idProvider := OrDefault(idProvider, DefaultIdProvider);
      userFetchInterval := OrDefaultInt(userFetchInterval, DefaultUserFetchInterval);
    }
  }

  // ---------------------------------------------------------------------
  // Accounts

  /** An account as the identity service describes it. */
  datatype Identity = Identity(
    primaryAccountEmail: string,
    accountType: string,
    upn: string,
    displayName: string,
    source: string,
    activeUser: bool,
    uid: int,
    gid: int)

  /** A CS3 user, as far as the searches look at it. */
  datatype User = User(id: UserId, mail: string, displayName: string, uidNumber: int, gidNumber: int)

  /** The CS3 type of an account: applications, services and secondary
      accounts keep their kind; a person is a primary account when it is
      a CERN account with a positive uid and a lightweight one otherwise;
      any other kind is invalid. */
  function UserTypeOf(i: Identity): (t: UserType)
    ensures t == Application <==> i.accountType == "Application"
    ensures t == Service <==> i.accountType == "Service"
    ensures t == Secondary <==> i.accountType == "Secondary"
    ensures t == Primary <==> i.accountType == "Person" && i.source == "cern" && i.uid > 0
    ensures t == Lightweight <==> i.accountType == "Person" && !(i.source == "cern" && i.uid > 0)
    ensures t == InvalidUser <==> i.accountType !in {"Application", "Service", "Secondary", "Person"}
    ensures t != Guest && t != Federated && t != SpaceOwner
  {
    match i.accountType
    case "Application" => Application
    case "Service" => Service
    case "Secondary" => Secondary
    case "Person" => if i.source == "cern" && i.uid > 0 then Primary else Lightweight
    case _ => InvalidUser
  }

  /** isUserAnyType: whether the user's type is one of `types` (never for
      an empty list). */
  function UserIsAnyType(u: User, types: seq<UserType>): (r: bool)
    ensures r <==> u.id.userType in types
  {
    if types == [] then false
    else if u.id.userType == types[0] then true
    else UserIsAnyType(u, types[1..])
  }

  // ---------------------------------------------------------------------
  // Searching users

  /** The namespace of a search query, up to its first `:`, and the rest
      as the query proper; without a `:` the namespace is empty and the
      query is unchanged. */
  function SplitNamespace(query: string): (r: (string, string))
    ensures ':' !in query ==> r == ("", query)
    ensures ':' in query ==> ':' !in r.0 && r.0 + [':'] + r.1 == query
  {
    SplitNTwo(query, ':');
    var parts := SplitN(query, ':', 2);
    if |parts| == 2 then (parts[0], parts[1]) else ("", query)
  }

  /** Splitting into at most two parts cuts at the first separator. */
  lemma SplitNTwo(s: string, sep: char)
    ensures sep !in s ==> SplitN(s, sep, 2) == [s]
    ensures sep in s ==> |SplitN(s, sep, 2)| == 2 && SplitN(s, sep, 2)[0] + [sep] + SplitN(s, sep, 2)[1] == s
  {
    if sep in s {
      SplitNTwoWith(s, sep);
    } else {
      SplitNTwoWithout(s, sep);
    }
  }

  /** Without the separator, splitting into at most two parts leaves the
      string whole. */
  lemma SplitNTwoWithout(s: string, sep: char)
    requires sep !in s
    ensures SplitN(s, sep, 2) == [s]
  {
  }

  /** With the separator, splitting into at most two parts cuts at its
      first occurrence. */
  lemma SplitNTwoWith(s: string, sep: char)
    requires sep in s
    ensures |SplitN(s, sep, 2)| == 2
    ensures SplitN(s, sep, 2)[0] + [sep] + SplitN(s, sep, 2)[1] == s
  {
    var i := IndexByte(s, sep);
    var head, tail := s[..i], s[i + 1..];
    assert s[i] == sep;
    assert s == head + [sep] + tail;
    SplitNOfJoin(head, sep, tail, 2);
    assert SplitN(tail, sep, 1) == [tail];
  }

  /** A namespace without `:` followed by `:` and a query splits back into
      the two. */
  lemma SplitNamespaceOf(namespace: string, query: string)
    requires ':' !in namespace
    ensures SplitNamespace(namespace + [':'] + query) == (namespace, query)
  {
    SplitNOfJoin(namespace, ':', query, 2);
  }

  /** The account types each namespace searches: none gives primary
      accounts, "a" primary, secondary and service accounts, "l"
      lightweight and federated accounts, and any other namespace none. */
  function AccountsFilter(namespace: string): (types: seq<UserType>)
    ensures types == [] <==> namespace !in {"", "a", "l"}
    ensures InvalidUser !in types && Application !in types
  {
    match namespace
    case "" => [Primary]
    case "a" => [Primary, Secondary, Service]
    case "l" => [Lightweight, Federated]
    case _ => []
  }

  /** The primary accounts are in the "a" namespace too, and "a" and "l"
      share no type. */
  lemma NamespacesNest(t: UserType)
    ensures t in AccountsFilter("") ==> t in AccountsFilter("a")
    ensures !(t in AccountsFilter("a") && t in AccountsFilter("l"))
  {
  }

  /** The users of `users` whose type is one of `types`, in their order. */
  function KeepTypes(users: seq<User>, types: seq<UserType>): (r: seq<User>)
    ensures |r| <= |users|
    ensures forall u :: u in r <==> u in users && u.id.userType in types
  {
    if users == [] then []
    else
      var init := KeepTypes(users[..|users| - 1], types);
      var last := users[|users| - 1];
      assert users == users[..|users| - 1] + [last];
      if UserIsAnyType(last, types) then init + [last] else init
  }

  /** Filtering a concatenation filters each part: the result is the
      order-preserving subsequence of the kept users. */
  lemma {:induction false} KeepTypesAppend(a: seq<User>, b: seq<User>, types: seq<UserType>)
    ensures KeepTypes(a + b, types) == KeepTypes(a, types) + KeepTypes(b, types)
    decreases |b|
  {
    if b == [] {
      assert a + b == a;
    } else {
      var b' := b[..|b| - 1];
      assert (a + b)[..|a + b| - 1] == a + b';
      assert (a + b)[|a + b| - 1] == b[|b| - 1];
      KeepTypesAppend(a, b', types);
    }
  }

  /** A single user is kept exactly when its type is in the filter. */
  lemma KeepTypesSingle(u: User, types: seq<UserType>)
    ensures KeepTypes([u], types) == if u.id.userType in types then [u] else []
  {
    assert [u][..0] == [];
  }

  /** FindUsers: split off the namespace, look the query up among the
      cached users and keep, in order, those of the namespace's types. */
  method FindUsers(query: string, findCached: string -> Result<seq<User>>) returns (r: Result<seq<User>>)
    ensures findCached(SplitNamespace(query).1).Err? ==> r == Err(findCached(SplitNamespace(query).1).error)
    ensures findCached(SplitNamespace(query).1).Ok? ==>
              r == Ok(KeepTypes(findCached(SplitNamespace(query).1).value, AccountsFilter(SplitNamespace(query).0)))
  {
    var parts := SplitN(query, ':', 2);
    var namespace := "";
    var q := query;
    if |parts| == 2 {
      namespace, q := parts[0], parts[1];
    }
    var found := findCached(q);
    if found.Err? {
      return Err(found.error);
    }
    var users := found.value;
    var userSlice: seq<User> := [];
    var accountsFilters := AccountsFilter(namespace);
    for i := 0 to |users|
      invariant userSlice == KeepTypes(users[..i], accountsFilters)
    {
      assert users[..i + 1][..i] == users[..i];
      if UserIsAnyType(users[i], accountsFilters) {
        userSlice := userSlice + [users[i]];
      }
    }
    assert users[..|users|] == users;
    return Ok(userSlice);
  }

  /** A search in an unknown namespace finds nobody, and no search finds
      an application account or an invalid one. */
  lemma SearchesSkip(users: seq<User>, namespace: string, u: User)
    ensures namespace !in {"", "a", "l"} ==> KeepTypes(users, AccountsFilter(namespace)) == []
    ensures u in KeepTypes(users, AccountsFilter(namespace)) ==> u.id.userType !in {InvalidUser, Application}
  {
  }

  // ---------------------------------------------------------------------
  // Groups

  /** GetUserGroups: the cached groups when there are any, else the
      identity service's error, else its group names in lower case. */
  function UserGroups(cached: Result<seq<string>>, fetched: Result<seq<string>>): (r: Result<seq<string>>)
    ensures cached.Ok? ==> r == cached
    ensures cached.Err? && fetched.Err? ==> r == Err(fetched.error)
    ensures cached.Err? && fetched.Ok? ==>
              r.Ok? && |r.value| == |fetched.value|
              && forall i :: 0 <= i < |r.value| ==> r.value[i] == ToLower(fetched.value[i])
  {
    if cached.Ok? then cached
    else if fetched.Err? then Err(fetched.error)
    else Ok(Seqs.MapSeq(ToLower, fetched.value))
  }

  /** Whether `group` is one of `groups`, compared exactly. */
  function ContainsGroup(groups: seq<string>, group: string): (found: bool)
    ensures found <==> group in groups
  {
    if groups == [] then false
    else if groups[0] == group then true
    else ContainsGroup(groups[1..], group)
  }

  /** IsInGroup: the error of the group lookup, or whether the group is
      exactly one of the user's groups. */
  function IsInGroup(userGroups: Result<seq<string>>, group: string): (r: Result<bool>)
    ensures userGroups.Err? ==> r == Err(userGroups.error)
    ensures userGroups.Ok? ==> r == Ok(group in userGroups.value)
  {
    match userGroups
    case Err(e) => Err(e)
    case Ok(groups) => Ok(ContainsGroup(groups, group))
  }

  /** Since fetched group names are lower-cased and the comparison is
      exact, a group name with an upper-case letter is never found among
      freshly fetched groups. */
  lemma UpperCaseGroupNotFetched(cacheMiss: Error, names: seq<string>, group: string, k: nat)
    requires k < |group| && 'A' <= group[k] <= 'Z'
    ensures IsInGroup(UserGroups(Err(cacheMiss), Ok(names)), group) == Ok(false)
  {
    var groups := UserGroups(Err(cacheMiss), Ok(names)).value;
    if group in groups {
      assert false;
    }
  }
}
