/** The migration of rows of the old share tables into the new records:
    one old share becomes a user/group share or a public link, and one old
    recipient state becomes a share-state row. The lookup of a resource's
    path is a parameter. */
module ShareMigrate {
  import opened Wrappers
  import opened GoInts
  import opened Cs3
  import opened ShareModel
  import opened ShareSql

  /** A row of the old share table. */
  datatype OldShareEntry = OldShareEntry(
    id: int,
    uidOwner: string,
    uidInitiator: string,
    prefix: string,
    itemSource: string,
    itemType: string,
    shareWith: string,
    token: string,
    expiration: Option<int>,
    permissions: int,
    shareType: int,
    shareName: string,
    stime: int,
    fileTarget: string,
    state: int,
    quicklink: bool,
    description: string,
    notifyUploads: bool,
    notifyUploadsExtraRecipients: string,
    orphan: bool)

  /** A row of the old recipient-state table. */
  datatype OldShareState = OldShareState(id: int, recipient: string, state: int)

  datatype ShareOrLink = IsShare(share: Share) | IsLink(link: PublicLink)

  /** The outcome of looking up a resource's current path. */
  datatype PathOutcome = PathOk(path: string) | PathErr(err: Error)

  /** errors.Is: the error or any error it wraps equals the target. */
  predicate ErrorIs(e: Error, target: Error)
  {
    e == target || (e.Wrapped? && ErrorIs(e.cause, target))
  }

  /** handleSingleState: the state row of a migrated recipient, hidden
      exactly when the old state was -1 (rejected). */
  function HandleSingleState(s: OldShareState): (r: ShareStateRow)
    ensures r.hidden <==> s.state == -1
    ensures !r.synced
    ensures r.user == s.recipient
    ensures 0 <= s.id < Two64 ==> r.shareId == s.id
  {
    ShareStateRow(ToUint64(s.id), s.recipient, false, s.state == -1)
  }

  /** oldShareToNewShare: copy the common fields, find the path of
      non-orphans (a not-found resource makes the share an orphan), and
      classify by share type: 0 and 1 are user and group shares, 3 is a
      public link, anything else is rejected. */
  method OldShareToNewShare(s: OldShareEntry, now: int, lookup: PathOutcome) returns (r: Result<ShareOrLink>)
    ensures r.Err? <==> s.shareType !in {0, 1, 3}
    ensures r.Err? ==> r.error == Internal("Invalid share type")
    ensures r.Ok? ==> (r.value.IsShare? <==> s.shareType in {0, 1})
    ensures r.Ok? ==> ProtoOf(r.value) == MigratedProto(s, now, lookup)
    ensures r.Ok? && r.value.IsShare? ==>
              r.value.share.shareWith == s.shareWith
              && r.value.share.sharedWithIsGroup == (s.shareType == 1)
    ensures r.Ok? && r.value.IsShare? ==> r.value.share.proto.description == s.description
    ensures r.Ok? && r.value.IsLink? ==> r.value.link.proto.description == ""
    ensures r.Ok? && r.value.IsLink? ==>
              r.value.link.password == s.shareWith && r.value.link.linkName == s.shareName
              && r.value.link.token == s.token && r.value.link.quicklink == s.quicklink
              && r.value.link.notifyUploads == s.notifyUploads
              && r.value.link.notifyUploadsExtraRecipients == s.notifyUploadsExtraRecipients
  {
    var createdAt: int, updatedAt: int;
    if s.stime != 0 {
      createdAt := s.stime;
      updatedAt := s.stime;
    } else {
      createdAt := now;
      updatedAt := now;
    }
    var proto := ProtoShare(
      ToUint64(s.id), createdAt, updatedAt, s.uidOwner, s.uidInitiator, s.itemType, "",
      s.itemSource, 0, "", ToUint8(s.permissions), s.prefix, s.orphan, "", s.expiration);
    if !proto.orphan {
      match lookup {
        case PathOk(path) =>
          proto := proto.(initialPath := path);
        case PathErr(e) =>
          if ErrorIs(e, NotFound(proto.inode)) {
            proto := proto.(orphan := true);
          }
      }
    }
    if s.shareType == 0 || s.shareType == 1 {
      return Ok(IsShare(Share(proto.(description := s.description), s.shareWith, s.shareType == 1)));
    } else if s.shareType == 3 {
      return Ok(IsLink(PublicLink(proto, s.token, s.quicklink, s.notifyUploads, s.notifyUploadsExtraRecipients,
                                  s.shareWith, s.shareName)));
    } else {
      return Err(Internal("Invalid share type"));
    }
  }

  /** The common fields of a migrated record, with the description
      cleared (only shares carry one over). */
  function ProtoOf(x: ShareOrLink): ProtoShare
  {
    match x
    case IsShare(sh) => sh.proto.(description := "")
    case IsLink(l) => l.proto.(description := "")
  }

  /** The common fields as the migration sets them: times from the old
      share time (or the clock when it is 0), the key and permissions
      truncated to the new widths, the resource from prefix and item
      source, and the path or orphan flag from the lookup. */
  function MigratedProto(s: OldShareEntry, now: int, lookup: PathOutcome): (p: ProtoShare)
    ensures s.stime != 0 ==> p.createdAt == p.updatedAt == s.stime
    ensures s.stime == 0 ==> p.createdAt == p.updatedAt == now
    ensures 0 <= s.id < Two64 ==> p.id == s.id
    ensures p.permissions == ToUint8(s.permissions)
    ensures p.inode == s.itemSource && p.instance == s.prefix
    ensures p.uidOwner == s.uidOwner && p.uidInitiator == s.uidInitiator
    ensures !s.orphan && lookup.PathOk? ==> p.initialPath == lookup.path && !p.orphan
    ensures !s.orphan && lookup.PathErr? && ErrorIs(lookup.err, NotFound(s.itemSource)) ==> p.initialPath == "" && p.orphan
    ensures !s.orphan && lookup.PathErr? && !ErrorIs(lookup.err, NotFound(s.itemSource)) ==> p.initialPath == "" && !p.orphan
    ensures s.orphan ==> p.initialPath == "" && p.orphan
    ensures p.expiration == s.expiration && p.description == ""
  {
    var t := if s.stime != 0 then s.stime else now;
    var orphan := s.orphan || (lookup.PathErr? && ErrorIs(lookup.err, NotFound(s.itemSource)));
    var path := if !s.orphan && lookup.PathOk? then lookup.path else "";
    ProtoShare(ToUint64(s.id), t, t, s.uidOwner, s.uidInitiator, s.itemType, path,
               s.itemSource, 0, "", ToUint8(s.permissions), s.prefix, orphan, "", s.expiration)
  }

  /** With the intended conversion, a migrated user or group share converts
      to a CS3 share whose grantee kind maps back to the old share type
      (0 user, 1 group). */
  lemma MigratedShareGranteeType(s: OldShareEntry, share: Share, gtype: UserType, conv: Conversions)
    requires s.shareType in {0, 1}
    requires share.shareWith == s.shareWith && share.sharedWithIsGroup == (s.shareType == 1)
    ensures GranteeTypeToShareType(AsCs3ShareIntended(share, gtype, conv).grantee.Type()) == s.shareType
    ensures AsCs3ShareIntended(share, gtype, conv).grantee.UserGrantee? ==>
              AsCs3ShareIntended(share, gtype, conv).grantee.userId == UserId("", s.shareWith, gtype)
  {
  }

  /** With the conversion as written, a migrated group share (old type 1)
      comes out with a user grantee, and every migrated user or group share
      maps back to the other share type. */
  lemma MigratedGroupShareGranteeAsWritten(s: OldShareEntry, share: Share, gtype: UserType, conv: Conversions)
    requires s.shareType in {0, 1}
    requires share.shareWith == s.shareWith && share.sharedWithIsGroup == (s.shareType == 1)
    ensures s.shareType == 1 ==> AsCs3Share(share, gtype, conv).grantee == UserGrantee(UserId("", s.shareWith, gtype))
    ensures GranteeTypeToShareType(AsCs3Share(share, gtype, conv).grantee.Type()) == 1 - s.shareType
  {
  }

  /** The state code the share manager stores (-1 rejected, 1 accepted,
      0 otherwise) migrates to a hidden share exactly for a rejection. */
  lemma StoredStateMigratesToHidden(id: int, recipient: string, st: ShareState)
    ensures HandleSingleState(OldShareState(id, recipient, StateCode(st))).hidden <==> st == StateRejected
  {
  }
}
