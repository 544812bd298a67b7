/** The share records kept in the database (user shares, public links and
    the per-recipient state of a share) and their conversion to the CS3
    API messages. */
module ShareModel {
  import opened Wrappers
  import opened GoStrings
  import opened GoInts
  import opened Cs3

  /** The fields user shares and public links have in common. Times are
      Unix seconds; `expiration` is absent when the column is NULL. */
  datatype ProtoShare = ProtoShare(
    id: Uint64,
    createdAt: int,
    updatedAt: int,
    uidOwner: string,
    uidInitiator: string,
    itemType: string,
    initialPath: string,
    inode: string,
    fileSource: int,
    fileTarget: string,
    permissions: Uint8,
    instance: string,
    orphan: bool,
    description: string,
    expiration: Option<int>)

  /** A share with a user or a group. */
  datatype Share = Share(proto: ProtoShare, shareWith: string, sharedWithIsGroup: bool)

  /** A public link; `password` holds the hashed password or "". */
  datatype PublicLink = PublicLink(
    proto: ProtoShare,
    token: string,
    quicklink: bool,
    notifyUploads: bool,
    notifyUploadsExtraRecipients: string,
    password: string,
    linkName: string)

  /** What one recipient did with a share. */
  datatype ShareStateRow = ShareStateRow(shareId: Uint64, user: string, synced: bool, hidden: bool)

  // ---------------------------------------------------------------------
  // CS3 messages

  /** The roles a share can grant; each stands for a fixed CS3 permission
      set defined by the host framework. */
  datatype Role = Viewer | Editor | FileEditor | Uploader

  datatype SharePermissions = RolePermissions(role: Role) | NoPermissions

  datatype Cs3Share = Cs3Share(
    id: string,
    resourceId: ResourceId,
    permissions: SharePermissions,
    grantee: Grantee,
    owner: UserId,
    creator: UserId,
    ctime: Uint64,
    mtime: Uint64)

  datatype Cs3ReceivedShare = Cs3ReceivedShare(share: Cs3Share, state: ShareState, hidden: bool)

  datatype Cs3PublicShare = Cs3PublicShare(
    id: string,
    resourceId: ResourceId,
    permissions: SharePermissions,
    owner: UserId,
    creator: UserId,
    token: string,
    displayName: string,
    passwordProtected: bool,
    expiration: Option<Uint64>,
    ctime: Uint64,
    mtime: Uint64,
    quicklink: bool,
    description: string,
    notifyUploads: bool,
    notifyUploadsExtraRecipients: string)

  /** The host framework's helpers the conversions call: building a user id
      from a stored uid, and its own integer-to-permissions mapping. They
      are not part of this model. */
  datatype Conversions = Conversions(
    makeUserId: string -> UserId,
    intToSharePerm: (int, string) -> SharePermissions)

  // ---------------------------------------------------------------------
  // Permissions

  /** The permission integer a role is stored as. */
  function RoleBits(r: Role): int
  {
    match r
    case Viewer => 1
    case Editor => 15
    case FileEditor => 15
    case Uploader => 4
  }

  /** intTosharePerm: 1 is a viewer, 15 an editor on folders and a file
      editor otherwise, 4 an uploader, anything else no permission. */
  function IntToSharePerm(p: int, itemType: string): (r: SharePermissions)
    ensures r == RolePermissions(Viewer) <==> p == 1
    ensures r == RolePermissions(Uploader) <==> p == 4
    ensures r == RolePermissions(Editor) <==> p == 15 && itemType == "folder"
    ensures r == RolePermissions(FileEditor) <==> p == 15 && itemType != "folder"
    ensures r == NoPermissions <==> p != 1 && p != 4 && p != 15
  {
    if p == 1 then RolePermissions(Viewer)
    else if p == 15 then
      if itemType == "folder" then RolePermissions(Editor) else RolePermissions(FileEditor)
    else if p == 4 then RolePermissions(Uploader)
    else NoPermissions
  }

  /** Whether a role can be stored on an item of this type: editors on
      folders, file editors on anything else. */
  predicate RoleFits(r: Role, itemType: string)
  {
    (r == Editor ==> itemType == "folder") && (r == FileEditor ==> itemType != "folder")
  }

  /** Storing a role as its integer and reading it back gives the role. */
  lemma IntToSharePermRoleBits(r: Role, itemType: string)
    requires RoleFits(r, itemType)
    ensures IntToSharePerm(RoleBits(r), itemType) == RolePermissions(r)
  {
  }

  // ---------------------------------------------------------------------
  // Grantees

  /** extractGrantee as written: a share with a group yields a USER grantee
      carrying the user type, and any other share a GROUP grantee. */
  function ExtractGranteeAsWritten(sharedWithIsGroup: bool, g: string, gtype: UserType): (r: Grantee)
    ensures r.Type() == GranteeTypeUser <==> sharedWithIsGroup
    ensures r.UserGrantee? ==> r.userId == UserId("", g, gtype)
    ensures r.GroupGrantee? ==> r.groupId == GroupId("", g)
  {
    if sharedWithIsGroup then UserGrantee(UserId("", g, gtype)) else GroupGrantee(GroupId("", g))
  }

  /** The grantee a share's recipient denotes: a group grantee for a share
      with a group, otherwise a user grantee carrying the user type (the
      type matters only for users). */
  function ExtractGrantee(sharedWithIsGroup: bool, g: string, gtype: UserType): (r: Grantee)
    ensures r.Type() == GranteeTypeGroup <==> sharedWithIsGroup
    ensures r.UserGrantee? ==> r.userId == UserId("", g, gtype)
    ensures r.GroupGrantee? ==> r.groupId == GroupId("", g)
  {
    if sharedWithIsGroup then GroupGrantee(GroupId("", g)) else UserGrantee(UserId("", g, gtype))
  }

  /** The written conversion gives every share the other kind of grantee:
      it is the intended one with the flag negated. */
  lemma ExtractGranteeSwapsKinds(sharedWithIsGroup: bool, g: string, gtype: UserType)
    ensures ExtractGranteeAsWritten(sharedWithIsGroup, g, gtype).Type()
            != ExtractGrantee(sharedWithIsGroup, g, gtype).Type()
    ensures ExtractGranteeAsWritten(sharedWithIsGroup, g, gtype) == ExtractGrantee(!sharedWithIsGroup, g, gtype)
  {
  }

  // ---------------------------------------------------------------------
  // Conversions

  /** The share id as CS3 carries it: the decimal form of the key read as a
      signed 64-bit number. */
  function OpaqueIdOf(id: Uint64): (r: string)
    ensures id < Two63 ==> ParseInt(r) == Some(id)
  {
    ParseFormatInt(ToInt64(id));
    FormatInt(ToInt64(id))
  }

  /** A stored time as a CS3 timestamp. */
  function TimestampOf(t: int): (r: Uint64)
    ensures t >= 0 && t < Two64 ==> r == t
  {
    ToUint64(t)
  }

  /** A share as a CS3 share, with the grantee conversion as written: both
      times are the creation time, the id is the decimal key, the resource
      is (instance, inode), and the grantee is a group exactly for a share
      with a user. */
  function AsCs3Share(s: Share, granteeType: UserType, conv: Conversions): (r: Cs3Share)
    ensures r.id == OpaqueIdOf(s.proto.id)
    ensures r.resourceId == ResourceId(s.proto.instance, s.proto.inode)
    ensures r.permissions == conv.intToSharePerm(s.proto.permissions, s.proto.itemType)
    ensures r.grantee == ExtractGranteeAsWritten(s.sharedWithIsGroup, s.shareWith, granteeType)
    ensures r.grantee.Type() == GranteeTypeGroup <==> !s.sharedWithIsGroup
    ensures r.owner == conv.makeUserId(s.proto.uidOwner) && r.creator == conv.makeUserId(s.proto.uidInitiator)
    ensures r.ctime == r.mtime == TimestampOf(s.proto.createdAt)
  {
    var ts := TimestampOf(s.proto.createdAt);
    Cs3Share(
      OpaqueIdOf(s.proto.id),
      ResourceId(s.proto.instance, s.proto.inode),
      conv.intToSharePerm(s.proto.permissions, s.proto.itemType),
      ExtractGranteeAsWritten(s.sharedWithIsGroup, s.shareWith, granteeType),
      conv.makeUserId(s.proto.uidOwner),
      conv.makeUserId(s.proto.uidInitiator),
      ts, ts)
  }

  /** The conversion with the grantee the design intends: the same CS3
      share except that the grantee is a group exactly for a share with a
      group. */
  function AsCs3ShareIntended(s: Share, granteeType: UserType, conv: Conversions): (r: Cs3Share)
    ensures r.grantee == ExtractGrantee(s.sharedWithIsGroup, s.shareWith, granteeType)
    ensures r.grantee.Type() == GranteeTypeGroup <==> s.sharedWithIsGroup
    ensures r.(grantee := AsCs3Share(s, granteeType, conv).grantee) == AsCs3Share(s, granteeType, conv)
  {
    AsCs3Share(s, granteeType, conv).(grantee := ExtractGrantee(s.sharedWithIsGroup, s.shareWith, granteeType))
  }

  /** A received share is always reported as accepted; only `hidden`
      comes from the recipient's state. */
  function AsCs3ReceivedShare(s: Share, state: ShareStateRow, granteeType: UserType, conv: Conversions): (r: Cs3ReceivedShare)
    ensures r.state == StateAccepted
    ensures r.hidden == state.hidden
    ensures r.share == AsCs3Share(s, granteeType, conv)
  {
    Cs3ReceivedShare(AsCs3Share(s, granteeType, conv), StateAccepted, state.hidden)
  }

  /** A link as a CS3 public share: password protected exactly when a
      password hash is stored, an expiration exactly when the column is
      set, and the creation time as both times. */
  function AsCs3PublicShare(p: PublicLink, conv: Conversions): (r: Cs3PublicShare)
    ensures r.passwordProtected <==> p.password != ""
    ensures r.expiration.Some? <==> p.proto.expiration.Some?
    ensures p.proto.expiration.Some? ==> r.expiration.value == TimestampOf(p.proto.expiration.value)
    ensures r.ctime == r.mtime == TimestampOf(p.proto.createdAt)
    ensures r.id == OpaqueIdOf(p.proto.id)
    ensures r.resourceId == ResourceId(p.proto.instance, p.proto.inode)
    ensures r.permissions == conv.intToSharePerm(p.proto.permissions, p.proto.itemType)
    ensures r.owner == conv.makeUserId(p.proto.uidOwner) && r.creator == conv.makeUserId(p.proto.uidInitiator)
    ensures r.token == p.token && r.displayName == p.linkName && r.quicklink == p.quicklink
    ensures r.description == p.proto.description
    ensures r.notifyUploads == p.notifyUploads && r.notifyUploadsExtraRecipients == p.notifyUploadsExtraRecipients
  {
    var ts := TimestampOf(p.proto.createdAt);
    var expires := match p.proto.expiration
      case Some(e) => Some(TimestampOf(e))
      case None => None;
    Cs3PublicShare(
      OpaqueIdOf(p.proto.id),
      ResourceId(p.proto.instance, p.proto.inode),
      conv.intToSharePerm(p.proto.permissions, p.proto.itemType),
      conv.makeUserId(p.proto.uidOwner),
      conv.makeUserId(p.proto.uidInitiator),
      p.token,
      p.linkName,
      p.password != "",
      expires,
      ts, ts,
      p.quicklink,
      p.proto.description,
      p.notifyUploads,
      p.notifyUploadsExtraRecipients)
  }
}
