/** The CS3 API records the plugins produce and consume: resource and user
    identifiers, resource metadata, grantees and share states. */
module Cs3 {
  import opened Wrappers

  datatype ResourceId = ResourceId(storageId: string, opaqueId: string)

  /** The CS3 user types, in the order of their protobuf numbers. */
  datatype UserType =
    | InvalidUser | Primary | Secondary | Service | Application | Guest
    | Federated | Lightweight | SpaceOwner

  datatype UserId = UserId(idp: string, opaqueId: string, userType: UserType)

  datatype GroupId = GroupId(idp: string, opaqueId: string)

  datatype ResourceType = FileType | ContainerType

  /** The two permission sets the backup browser hands out; their flags are
      defined outside the modelled files. */
  datatype PermissionSet = PermFile | PermDir

  /** The metadata of a file or folder. MIME type and checksum are not
      modelled. */
  datatype ResourceInfo = ResourceInfo(
    kind: ResourceType,
    id: ResourceId,
    parentId: Option<ResourceId>,
    etag: string,
    mtime: nat,
    path: string,
    perms: PermissionSet,
    size: nat,
    owner: UserId)

  datatype GranteeType = GranteeTypeInvalid | GranteeTypeUser | GranteeTypeGroup

  datatype Grantee =
    | UserGrantee(userId: UserId)
    | GroupGrantee(groupId: GroupId)
  {
    function Type(): GranteeType
    {
      if UserGrantee? then GranteeTypeUser else GranteeTypeGroup
    }
  }

  datatype ShareState = StateInvalid | StatePending | StateAccepted | StateRejected
}
