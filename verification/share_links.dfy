/** The public-link part of the SQL share manager: grouping of listing
    filters, expiry and visibility of stored links, link creation and the
    single-column updates. The link table is a parameter: the rows in
    primary-key order. */
module PublicLinks {
  import opened Wrappers
  import opened GoStrings
  import opened GoInts
  import opened Cs3
  import opened ShareModel

  // ---------------------------------------------------------------------
  // Listing filters

  datatype LinkFilterType = LinkResourceIdType | OwnerType | CreatorType | OtherLinkType(code: int)

  /** A listing filter; only its type matters to the grouping. */
  datatype LinkFilter = LinkFilter(ftype: LinkFilterType, resourceId: Option<ResourceId>, user: Option<UserId>)

  /** The filters of one type, in their original order. */
  function OfType(filters: seq<LinkFilter>, t: LinkFilterType): (r: seq<LinkFilter>)
    ensures |r| <= |filters|
  {
    if filters == [] then []
    else
      var last := filters[|filters| - 1];
      OfType(filters[..|filters| - 1], t) + (if last.ftype == t then [last] else [])
  }

  /** Every filter of a group has the group's type and comes from the
      input: the grouping adds nothing. */
  lemma {:induction false} OfTypeSound(filters: seq<LinkFilter>, t: LinkFilterType)
    ensures forall g :: g in OfType(filters, t) ==> g.ftype == t && g in filters
  {
    if filters != [] {
      var init := filters[..|filters| - 1];
      OfTypeSound(init, t);
      forall g | g in init ensures g in filters {
        var i :| 0 <= i < |init| && init[i] == g;
        assert filters[i] == g;
      }
    }
  }

  /** Every filter lands in its own type's group: the grouping drops
      nothing. */
  lemma {:induction false} OfTypeComplete(filters: seq<LinkFilter>, i: nat)
    requires i < |filters|
    ensures filters[i] in OfType(filters, filters[i].ftype)
  {
    var init := filters[..|filters| - 1];
    if i < |filters| - 1 {
      OfTypeComplete(init, i);
      assert init[i] == filters[i];
    }
  }

  /** groupFiltersByType: one map entry per type present, holding that
      type's filters in their original order. */
  method GroupFiltersByType(filters: seq<LinkFilter>) returns (grouped: map<LinkFilterType, seq<LinkFilter>>)
    ensures forall t :: t in grouped <==> OfType(filters, t) != []
    ensures forall t :: t in grouped ==> grouped[t] == OfType(filters, t)
  {
    grouped := map[];
    var i := 0;
    while i < |filters|
      invariant 0 <= i <= |filters|
      invariant forall t :: t in grouped <==> OfType(filters[..i], t) != []
      invariant forall t :: t in grouped ==> grouped[t] == OfType(filters[..i], t)
    {
      var f := filters[i];
      var current := if f.ftype in grouped then grouped[f.ftype] else [];
      assert filters[..i + 1][..i] == filters[..i];
      grouped := grouped[f.ftype := current + [f]];
      i := i + 1;
    }
    assert filters[..i] == filters;
  }

  // ---------------------------------------------------------------------
  // Expiry and visibility

  /** isExpired: a link without an expiration never expires; otherwise it
      has expired once the current time is strictly after it. */
  predicate IsExpired(expiration: Option<int>, now: int)
  {
    expiration.Some? && now > expiration.value
  }

  /** Raising the clock never un-expires a link. */
  lemma ExpiryMonotone(expiration: Option<int>, now: int, later: int)
    requires IsExpired(expiration, now) && now <= later
    ensures IsExpired(expiration, later)
  {
  }

  /** The check every lookup makes on the row it read: no row, an orphan
      or an expired link is reported as not found. */
  function Visible(row: Option<PublicLink>, now: int, key: string): (r: Result<PublicLink>)
    ensures r.Ok? <==> row.Some? && !row.value.proto.orphan && !IsExpired(row.value.proto.expiration, now)
    ensures r.Ok? ==> r.value == row.value
    ensures r.Err? ==> r.error == NotFound(key)
  {
    if row.None? || row.value.proto.orphan || IsExpired(row.value.proto.expiration, now) then Err(NotFound(key))
    else Ok(row.value)
  }

  /** The first row satisfying `p`, as `First` with a condition reads it. */
  function FirstWhere(links: seq<PublicLink>, p: PublicLink -> bool): (r: Option<PublicLink>)
    ensures r.Some? ==> r.value in links && p(r.value)
    ensures r.None? <==> forall i :: 0 <= i < |links| ==> !p(links[i])
    ensures r.Some? ==> exists i :: 0 <= i < |links| && links[i] == r.value && forall j :: 0 <= j < i ==> !p(links[j])
  {
    if links == [] then None
    else if p(links[0]) then Some(links[0])
    else
      var rest := FirstWhere(links[1..], p);
      if rest.Some? then
        var i :| 0 <= i < |links[1..]| && links[1..][i] == rest.value && forall j :: 0 <= j < i ==> !p(links[1..][j]);
        assert links[i + 1] == rest.value;
        rest
      else rest
  }

  /** The primary key the ORM reads from an id passed as a string: a
      plain decimal number. */
  function KeyOf(opaqueId: string): (r: Option<nat>)
  {
    if opaqueId != "" && AllDigits(opaqueId) then Some(DecimalValue(opaqueId)) else None
  }

  /** getLinkByID: the row whose primary key the id names, if visible. */
  function GetLinkById(links: seq<PublicLink>, opaqueId: string, now: int): (r: Result<PublicLink>)
    ensures r.Ok? ==> r.value in links && KeyOf(opaqueId) == Some(r.value.proto.id) && !r.value.proto.orphan
    ensures r.Ok? ==> !IsExpired(r.value.proto.expiration, now)
    ensures (forall i :: 0 <= i < |links| ==> KeyOf(opaqueId) != Some(links[i].proto.id)) ==> r == Err(NotFound(opaqueId))
  {
    match KeyOf(opaqueId)
    case None => Err(NotFound(opaqueId))
    case Some(key) => Visible(FirstWhere(links, (l: PublicLink) => l.proto.id == key), now, opaqueId)
  }

  /** A visible link whose key no other row shares is found by the decimal
      form of its key. */
  lemma GetLinkByIdFinds(links: seq<PublicLink>, i: nat, now: int)
    requires i < |links| && !links[i].proto.orphan && !IsExpired(links[i].proto.expiration, now)
    requires forall j :: 0 <= j < |links| && j != i ==> links[j].proto.id != links[i].proto.id
    ensures GetLinkById(links, FormatInt(links[i].proto.id), now) == Ok(links[i])
  {
    var k := links[i].proto.id;
    DecimalValueOfNat(k);
    assert KeyOf(FormatInt(k)) == Some(k);
    var found := FirstWhere(links, (l: PublicLink) => l.proto.id == k);
    assert links[i].proto.id == k;
    var j :| 0 <= j < |links| && links[j] == found.value;
  }

  /** getLinkByToken as written: `First` runs before the token condition
      is attached, so the lookup reads the first row of the table whatever
      the token. */
  function GetLinkByTokenAsWritten(links: seq<PublicLink>, token: string, now: int): (r: Result<PublicLink>)
    ensures links == [] ==> r == Err(NotFound(token))
    ensures r.Ok? ==> r.value == links[0]
  {
    Visible(if links == [] then None else Some(links[0]), now, token)
  }

  /** The token plays no part in which row the written lookup returns. */
  lemma TokenIgnoredAsWritten(l: PublicLink, token: string, now: int)
    requires !l.proto.orphan && !IsExpired(l.proto.expiration, now)
    requires l.token != token
    ensures GetLinkByTokenAsWritten([l], token, now) == Ok(l)
    ensures GetLinkByTokenAsWritten([l], token, now).value.token != token
    ensures GetLinkByToken([l], token, now) == Err(NotFound(token))
  {
  }

  /** getLinkByToken as intended: the first visible-or-not row with that
      token, then the visibility check. */
  function GetLinkByToken(links: seq<PublicLink>, token: string, now: int): (r: Result<PublicLink>)
    ensures r.Ok? ==> r.value in links && r.value.token == token && !r.value.proto.orphan
    ensures r.Ok? ==> !IsExpired(r.value.proto.expiration, now)
    ensures (forall i :: 0 <= i < |links| ==> links[i].token != token) ==> r == Err(NotFound(token))
  {
    Visible(FirstWhere(links, (l: PublicLink) => l.token == token), now, token)
  }

  /** A reference to a public link: by id (as the request carries it) or
      by token. */
  datatype LinkRef = RefById(opaqueId: string) | RefByToken(token: string)

  /** The link GetPublicShare reads: by id, else by a non-empty token with
      the token lookup as written, which reads the first row. */
  function LookupLink(links: seq<PublicLink>, ref: LinkRef, now: int): (r: Result<PublicLink>)
    ensures ref.RefById? && r.Ok? ==> r.value in links && KeyOf(ref.opaqueId) == Some(r.value.proto.id)
    ensures ref.RefByToken? && r.Ok? ==> links != [] && r.value == links[0]
    ensures ref.RefByToken? && ref.token == "" ==> r == Err(NotFound(""))
    ensures r.Ok? ==> !r.value.proto.orphan && !IsExpired(r.value.proto.expiration, now)
  {
    match ref
    case RefById(opaqueId) => GetLinkById(links, opaqueId, now)
    case RefByToken(token) => if token != "" then GetLinkByTokenAsWritten(links, token, now) else Err(NotFound(""))
  }

  /** GetPublicShare: the CS3 form of the link the reference designates;
      when asked to sign, a password-protected link is passed to the
      signing step (a parameter, with its own failure). */
  function GetPublicShare(links: seq<PublicLink>, ref: LinkRef, now: int, sign: bool, conv: Conversions,
                          addSignature: (Cs3PublicShare, string) -> Result<Cs3PublicShare>): (r: Result<Cs3PublicShare>)
    ensures LookupLink(links, ref, now).Err? ==> r == Err(LookupLink(links, ref, now).error)
    ensures LookupLink(links, ref, now).Ok? && (!sign || LookupLink(links, ref, now).value.password == "") ==>
              r == Ok(AsCs3PublicShare(LookupLink(links, ref, now).value, conv))
    ensures LookupLink(links, ref, now).Ok? && sign && LookupLink(links, ref, now).value.password != "" ==>
              r == addSignature(AsCs3PublicShare(LookupLink(links, ref, now).value, conv),
                                LookupLink(links, ref, now).value.password)
    ensures ref.RefByToken? && r.Ok? && !sign ==> r.value == AsCs3PublicShare(links[0], conv)
  {
    match LookupLink(links, ref, now)
    case Err(e) => Err(e)
    case Ok(l) =>
      var share := AsCs3PublicShare(l, conv);
      if l.password != "" && sign then addSignature(share, l.password) else Ok(share)
  }

  // ---------------------------------------------------------------------
  // Creating links

  /** hashPassword: the bcrypt digest with the `1|` scheme prefix; the
      digest (salted at random) and the hashing error are parameters. */
  function HashPassword(digest: string, err: Option<Error>): (r: (string, Option<Error>))
    ensures HasPrefix(r.0, "1|") && r.0[2..] == digest
    ensures r.1 == err
  {
    ("1|" + digest, err)
  }

  /** Decimal syntax as strconv reads it: an optional sign and at least
      one digit. */
  predicate DecimalSyntax(s: string)
  {
    |s| >= 1 &&
    var digits := if s[0] == '+' || s[0] == '-' then s[1..] else s;
    digits != [] && AllDigits(digits)
  }

  /** The text of the error strconv.Atoi returns. */
  function AtoiError(id: string, reason: string): string
  {
    "strconv.Atoi: parsing \"" + id + "\": " + reason
  }

  /** emptyLinkWithId: the id parsed as a decimal int and converted to the
      unsigned key; every other field is zero. */
  function EmptyLinkWithId(id: string): (r: Result<PublicLink>)
    ensures r.Err? <==> ParseInt(id).None?
    ensures r.Ok? ==> r.value == ZeroLink().(proto := ZeroProto().(id := ToUint64(ParseInt(id).value)))
    ensures r.Ok? && 0 <= ParseInt(id).value ==> r.value.proto.id == ParseInt(id).value
    ensures r.Err? && !DecimalSyntax(id) ==> r == Err(Internal(AtoiError(id, "invalid syntax")))
    ensures r.Err? && DecimalSyntax(id) ==> r == Err(Internal(AtoiError(id, "value out of range")))
  {
    match ParseInt(id)
    case None => Err(Internal(AtoiError(id, if DecimalSyntax(id) then "value out of range" else "invalid syntax")))
    case Some(n) => Ok(ZeroLink().(proto := ZeroProto().(id := ToUint64(n))))
  }

  function ZeroProto(): ProtoShare
  {
    ProtoShare(0, 0, 0, "", "", "", "", "", 0, "", 0, "", false, "", None)
  }

  function ZeroLink(): PublicLink
  {
    PublicLink(ZeroProto(), "", false, false, "", "", "")
  }

  /** The stored item type of a resource type. */
  function ItemTypeOf(t: ResourceType): (r: string)
    ensures r == "folder" <==> t == ContainerType
  {
    match t
    case ContainerType => "folder"
    case FileType => "file"
  }

  /** What CreatePublicShare receives: the resource, the requested grant
      and the link options. `permissionBits` is the grant's permissions
      as the host framework encodes them as an integer. */
  datatype LinkRequest = LinkRequest(
    ownerUid: string,
    resourcePath: string,
    resourceType: ResourceType,
    resourceId: ResourceId,
    metadata: map<string, string>,
    permissionBits: int,
    password: string,
    expirationSeconds: Option<Uint64>,
    description: string,
    internal: bool,
    notifyUploads: bool,
    notifyUploadsExtraRecipients: string)

  /** The environment of one creation: the random token, the salted
      password digest, the database's id and clock, and the outcomes of
      hashing and saving. */
  datatype CreateEnv = CreateEnv(
    token: string,
    digest: string,
    hashError: Option<Error>,
    saveError: Option<Error>,
    assignedId: Uint64,
    now: int)

  function MetadataOr(m: map<string, string>, key: string, default: string): string
  {
    if key in m then m[key] else default
  }

  /** CreatePublicShare: the new link is built field by field, saved, and
      returned with its CS3 form. */
  method CreatePublicShare(creatorUid: string, req: LinkRequest, env: CreateEnv, conv: Conversions)
    returns (r: Result<(PublicLink, Cs3PublicShare)>)
    ensures req.password != "" && env.hashError.Some? ==> r == Err(Wrapped("could not hash link password", env.hashError.value))
    ensures (req.password == "" || env.hashError.None?) && env.saveError.Some? ==> r == Err(env.saveError.value)
    ensures r.Ok? <==> (req.password == "" || env.hashError.None?) && env.saveError.None?
    ensures r.Ok? ==> r.value.1 == AsCs3PublicShare(r.value.0, conv)
    ensures r.Ok? ==> var l := r.value.0;
      && l.token == env.token
      && l.linkName == MetadataOr(req.metadata, "name", env.token)
      && l.quicklink == (ParseBool(MetadataOr(req.metadata, "quicklink", "")) == Some(true))
      && l.notifyUploads == req.notifyUploads
      && l.notifyUploadsExtraRecipients == req.notifyUploadsExtraRecipients
      && l.password == (if req.password != "" then "1|" + env.digest else "")
      && l.proto.orphan == false
      && l.proto.uidOwner == req.ownerUid && l.proto.uidInitiator == creatorUid
      && l.proto.initialPath == req.resourcePath
      && l.proto.itemType == ItemTypeOf(req.resourceType)
      && l.proto.inode == req.resourceId.opaqueId && l.proto.instance == req.resourceId.storageId
      && l.proto.permissions == ToUint8(req.permissionBits)
      && l.proto.expiration == (if req.expirationSeconds.Some? && req.expirationSeconds.value != 0
                                then Some(ToInt64(req.expirationSeconds.value)) else None)
      && l.proto.description == ""
      && l.proto.id == env.assignedId && l.proto.createdAt == env.now
  {
    var quicklink := ParseBool(MetadataOr(req.metadata, "quicklink", "")) == Some(true);
    var displayName := MetadataOr(req.metadata, "name", env.token);
    var link := ZeroLink().(quicklink := quicklink, token := env.token, linkName := displayName,
                            notifyUploads := req.notifyUploads,
                            notifyUploadsExtraRecipients := req.notifyUploadsExtraRecipients);
    link := link.(proto := link.proto.(
      uidOwner := req.ownerUid,
      uidInitiator := creatorUid,
      initialPath := req.resourcePath,
      itemType := ItemTypeOf(req.resourceType),
      inode := req.resourceId.opaqueId,
      instance := req.resourceId.storageId,
      permissions := ToUint8(req.permissionBits),
      orphan := false));
    if req.password != "" {
      var (hashed, err) := HashPassword(env.digest, env.hashError);
      if err.Some? {
        return Err(Wrapped("could not hash link password", err.value));
      }
      link := link.(password := hashed);
    }
    if req.expirationSeconds.Some? && req.expirationSeconds.value != 0 {
      link := link.(proto := link.proto.(expiration := Some(ToInt64(req.expirationSeconds.value))));
    }
    if env.saveError.Some? {
      return Err(env.saveError.value);
    }
    // Saving assigns the key and the creation and update times.
    link := link.(proto := link.proto.(id := env.assignedId, createdAt := env.now, updatedAt := env.now));
    return Ok((link, AsCs3PublicShare(link, conv)));
  }

  // ---------------------------------------------------------------------
  // Updating links

  datatype UpdateType =
    | UpdateDisplayName | UpdatePermissions | UpdateExpiration | UpdatePassword
    | UpdateDescription | UpdateNotifyUploads | UpdateNotifyUploadsExtraRecipients
    | UpdateOther(name: string)

  /** The update request: its type and every value it may carry. */
  datatype LinkUpdate = LinkUpdate(
    utype: UpdateType,
    displayName: string,
    permissionBits: int,
    expirationSeconds: Option<Uint64>,
    password: string,
    description: string,
    notifyUploads: bool,
    notifyUploadsExtraRecipients: string)

  datatype ColumnValue = StrValue(s: string) | IntValue(n: int) | BoolValue(b: bool)

  /** The column an update type writes. */
  function ColumnOf(t: UpdateType): (c: string)
    requires !t.UpdateOther?
  {
    match t
    case UpdateDisplayName => "link_name"
    case UpdatePermissions => "permissions"
    case UpdateExpiration => "expiration"
    case UpdatePassword => "password"
    case UpdateDescription => "description"
    case UpdateNotifyUploads => "notify_uploads"
    case UpdateNotifyUploadsExtraRecipients => "notify_uploads_extra_recipients"
  }

  /** The single column UpdatePublicShare writes and its new value; the
      digest and hashing error for a new password are parameters. */
  function UpdateColumn(u: LinkUpdate, digest: string, hashError: Option<Error>): (r: Result<(string, ColumnValue)>)
    ensures u.utype.UpdateOther? <==> r.Err? && r.error.Internal?
    ensures r.Ok? ==> !u.utype.UpdateOther? && r.value.0 == ColumnOf(u.utype)
    ensures u.utype == UpdatePassword && u.password == "" ==> r == Ok(("password", StrValue("")))
    ensures u.utype == UpdatePassword && u.password != "" ==>
              r == (if hashError.Some? then Err(Wrapped("could not hash share password", hashError.value))
                    else Ok(("password", StrValue("1|" + digest))))
    ensures u.utype == UpdatePermissions ==> r == Ok(("permissions", IntValue(ToUint8(u.permissionBits))))
    ensures u.utype == UpdateExpiration && u.expirationSeconds.None? ==> r.Err? && r.error.Panic?
  {
    match u.utype
    case UpdateDisplayName => Ok(("link_name", StrValue(u.displayName)))
    case UpdatePermissions => Ok(("permissions", IntValue(ToUint8(u.permissionBits))))
    case UpdateExpiration =>
      if u.expirationSeconds.None? then Err(Panic("invalid memory address"))
      else Ok(("expiration", IntValue(ToInt64(u.expirationSeconds.value))))
    case UpdatePassword =>
      if u.password == "" then Ok(("password", StrValue("")))
      else
        var (hashed, err) := HashPassword(digest, hashError);
        if err.Some? then Err(Wrapped("could not hash share password", err.value))
        else Ok(("password", StrValue(hashed)))
    case UpdateDescription => Ok(("description", StrValue(u.description)))
    case UpdateNotifyUploads => Ok(("notify_uploads", BoolValue(u.notifyUploads)))
    case UpdateNotifyUploadsExtraRecipients => Ok(("notify_uploads_extra_recipients", StrValue(u.notifyUploadsExtraRecipients)))
    case UpdateOther(name) => Err(Internal("invalid update type: " + name))
  }

  /** Writing a column of a stored link. */
  function SetColumn(l: PublicLink, column: string, v: ColumnValue): PublicLink
  {
    match (column, v)
    case ("link_name", StrValue(s)) => l.(linkName := s)
    case ("permissions", IntValue(n)) => if 0 <= n < Two8 then l.(proto := l.proto.(permissions := n)) else l
    case ("expiration", IntValue(n)) => l.(proto := l.proto.(expiration := Some(n)))
    case ("password", StrValue(s)) => l.(password := s)
    case ("description", StrValue(s)) => l.(proto := l.proto.(description := s))
    case ("notify_uploads", BoolValue(b)) => l.(notifyUploads := b)
    case ("notify_uploads_extra_recipients", StrValue(s)) => l.(notifyUploadsExtraRecipients := s)
    case _ => l
  }

  /** Each update type changes exactly its own field of the link. */
  lemma UpdateChangesOneField(l: PublicLink, u: LinkUpdate, digest: string, hashError: Option<Error>)
    requires UpdateColumn(u, digest, hashError).Ok?
    ensures var (c, v) := UpdateColumn(u, digest, hashError).value;
      var l' := SetColumn(l, c, v);
      match u.utype
      case UpdateDisplayName => l' == l.(linkName := u.displayName)
      case UpdatePermissions => l' == l.(proto := l.proto.(permissions := ToUint8(u.permissionBits)))
      case UpdateExpiration => l' == l.(proto := l.proto.(expiration := Some(ToInt64(u.expirationSeconds.value))))
      case UpdatePassword => l' == l.(password := if u.password == "" then "" else "1|" + digest)
      case UpdateDescription => l' == l.(proto := l.proto.(description := u.description))
      case UpdateNotifyUploads => l' == l.(notifyUploads := u.notifyUploads)
      case UpdateNotifyUploadsExtraRecipients => l' == l.(notifyUploadsExtraRecipients := u.notifyUploadsExtraRecipients)
      case UpdateOther(_) => false
  {
  }

  /** A row after the ORM's single-column update: the column changes and
      the update time is set. */
  function Written(l: PublicLink, column: string, v: ColumnValue, now: int): PublicLink
  {
    var l' := SetColumn(l, column, v);
    l'.(proto := l'.proto.(updatedAt := now))
  }

  /** The table after updating the rows with primary key `key`. */
  function WriteColumn(links: seq<PublicLink>, key: Uint64, column: string, v: ColumnValue, now: int): seq<PublicLink>
  {
    seq(|links|, i requires 0 <= i < |links| => if links[i].proto.id == key then Written(links[i], column, v, now) else links[i])
  }

  /** The row UpdatePublicShare writes to: a zero link carrying the parsed
      id, or the link the token lookup as written reads (the first row,
      even for an empty token). */
  function UpdateTarget(links: seq<PublicLink>, ref: LinkRef, now: int): (r: Result<PublicLink>)
    ensures ref.RefById? ==> r == EmptyLinkWithId(ref.opaqueId)
    ensures ref.RefByToken? && r.Ok? ==> links != [] && r.value == links[0]
  {
    match ref
    case RefById(opaqueId) => EmptyLinkWithId(opaqueId)
    case RefByToken(token) => GetLinkByTokenAsWritten(links, token, now)
  }

  /** UpdatePublicShare: find the row, write the one column (a zero key is
      refused by the ORM, and the database's own failure is a parameter),
      then read the link back through GetPublicShare, signing it. The
      result is the new table and the answer. */
  function UpdatePublicShare(links: seq<PublicLink>, ref: LinkRef, u: LinkUpdate, now: int, digest: string,
                             hashError: Option<Error>, writeError: Option<Error>, conv: Conversions,
                             addSignature: (Cs3PublicShare, string) -> Result<Cs3PublicShare>)
    : (r: Result<(seq<PublicLink>, Cs3PublicShare)>)
    ensures UpdateTarget(links, ref, now).Err? ==> r == Err(UpdateTarget(links, ref, now).error)
    ensures u.utype.UpdateOther? ==> r.Err?
    ensures (UpdateTarget(links, ref, now).Ok? && UpdateColumn(u, digest, hashError).Ok? &&
             UpdateTarget(links, ref, now).value.proto.id != 0 && writeError.Some?) ==> r == Err(writeError.value)
    ensures r.Ok? ==> UpdateTarget(links, ref, now).Ok? && UpdateColumn(u, digest, hashError).Ok? && writeError.None?
    ensures r.Ok? ==>
              var key := UpdateTarget(links, ref, now).value.proto.id;
              var (c, v) := UpdateColumn(u, digest, hashError).value;
              key != 0 && |r.value.0| == |links| &&
              forall i :: 0 <= i < |links| ==>
                r.value.0[i] == (if links[i].proto.id == key then Written(links[i], c, v, now) else links[i])
    ensures r.Ok? ==> GetPublicShare(r.value.0, ref, now, true, conv, addSignature) == Ok(r.value.1)
    ensures r.Ok? && ref.RefByToken? ==>
              var (c, v) := UpdateColumn(u, digest, hashError).value;
              r.value.0[0] == Written(links[0], c, v, now)
  {
    match UpdateTarget(links, ref, now)
    case Err(e) => Err(e)
    case Ok(target) =>
      match UpdateColumn(u, digest, hashError)
      case Err(e) => Err(e)
      case Ok((c, v)) =>
        if target.proto.id == 0 then Err(Internal("WHERE conditions required"))
        else if writeError.Some? then Err(writeError.value)
        else
          var table := WriteColumn(links, target.proto.id, c, v, now);
          match GetPublicShare(table, ref, now, true, conv, addSignature)
          case Err(e) => Err(e)
          case Ok(share) => Ok((table, share))
  }

  /** Renaming an unprotected visible link by the decimal form of its key
      answers the CS3 form of the renamed row, which carries the new name. */
  lemma RenameByIdReadsBack(links: seq<PublicLink>, i: nat, u: LinkUpdate, now: int, digest: string,
                            hashError: Option<Error>, conv: Conversions,
                            addSignature: (Cs3PublicShare, string) -> Result<Cs3PublicShare>)
    requires i < |links| && 0 < links[i].proto.id < Two63
    requires forall j :: 0 <= j < |links| && j != i ==> links[j].proto.id != links[i].proto.id
    requires !links[i].proto.orphan && !IsExpired(links[i].proto.expiration, now) && links[i].password == ""
    requires u.utype == UpdateDisplayName
    ensures var r := UpdatePublicShare(links, RefById(FormatInt(links[i].proto.id)), u, now, digest, hashError, None, conv, addSignature);
            var w := Written(links[i], "link_name", StrValue(u.displayName), now);
            r.Ok? && r.value.0[i] == w && r.value.1 == AsCs3PublicShare(w, conv) && r.value.1.displayName == u.displayName
  {
    var k := links[i].proto.id;
    ParseFormatInt(k);
    var table := WriteColumn(links, k, "link_name", StrValue(u.displayName), now);
    assert table[i] == Written(links[i], "link_name", StrValue(u.displayName), now);
    GetLinkByIdFinds(table, i, now);
  }
}
