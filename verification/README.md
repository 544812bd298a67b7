# reva-plugins core, modelled in Dafny

This project models the decision logic of the CERNBox plugins for the Reva
storage and sharing framework, and proves properties of that model. It
covers three groups of components.

- **The cback backup browser** (`cback/storage`, `cback/utils`) is a
  read-only storage driver. It presents a user's backups as a directory
  tree: `<source>/<snapshot>/<path>`. The model covers:
  - path resolution against the backup list (`split`);
  - the opaque resource-id codec: `#`-joined fields, then standard Base64 as
    in section 4 of RFC 4648;
  - the segment-wise ancestor test;
  - how `GetMD`, `ListFolder` and `Download` choose their answers;
  - the cache-aside layer in front of the backup catalogue. It is a class
    holding a `map`, with a stub client that records every call.
- **Sharing** (`share/`). The model covers:
  - how the SQL share manager builds its queries and parameters. The
    invariant is one `?` per parameter;
  - project-admin detection from a path;
  - the received-share state code;
  - public-link lookup, expiry, creation and update dispatch;
  - conversion of database records to CS3 messages;
  - migration of rows from the old share tables.
- **Group-name authorisation.** The model covers:
  - the project spaces service (`cernboxspaces`): parsing
    `cernbox-project-<name>-<level>` groups, ranking levels, selecting the
    user's spaces;
  - the EOS wrapper (`storage/eoswrapper`): project membership levels,
    revision and deny-grant gating, admin sharing permissions, config
    defaults;
  - the REST user provider (`user/rest.go`): config defaults, account-type
    classification, the namespace filter of user search, group membership.

Databases, gRPC and HTTP calls, templates, clocks and password hashing are
parameters of the model. Their outcomes (`Result` values, functions
`string -> string`, a `now` timestamp, a digest) are passed in.

One Dafny module covers each area:

| module | covers |
|---|---|
| `Wrappers`, `GoStrings`, `GoInts`, `GoPath`, `Seqs` | Go's `strings.SplitN`/`Split`/`HasPrefix`, `strconv` decimal formatting and parsing, fixed-width truncation, `filepath.Join`/`Dir`/`Base`/`Rel` |
| `Base64` | standard Base64, with its round trip |
| `Cs3` | the CS3 messages used (resource ids and infos, user ids, grantees, errors) |
| `CbackTypes`, `CbackFs`, `CbackCache`, `CbackStorage` | the cback driver |
| `ShareModel`, `ShareSql`, `PublicLinks`, `ShareMigrate` | the SQL share manager, public links, the records, the migration |
| `CernboxSpaces` | the project spaces service |
| `EosWrapper` | the EOS wrapper |
| `UserRest` | the REST user provider |

## Model

| member | source | states |
|---|---|---|
| CbackTypes.DirFileExclusive | cback/utils/structs.go:94-101 | A resource is never both a directory and a file; a type other than "dir" or "file" makes it neither |
| CbackFs.SplitPath | cback/storage/cback.go:101-123 | Resolution fails, with all-zero fields, exactly when no backup source is a plain string prefix of the path; otherwise the answer is taken from the FIRST backup in list order whose source is a prefix |
| CbackFs.Within | cback/storage/cback.go:107-119 | Inside a matched backup: at the source itself, snapshot and path are empty; below it, the snapshot is a non-empty name with no '/', and the path is the rest |
| CbackFs.WithinRejoin | cback/storage/cback.go:107-119 | For a path at or below the source (segment-wise), joining source, snapshot and relative path gives back the original path |
| CbackFs.WithinNotAtName | cback/storage/cback.go:103-107 | When the source is a string prefix but not a segment prefix (e.g. /a/b against /a/bc), the "snapshot" is ".." because HasPrefix is not segment-aware |
| CbackFs.ChildRel | cback/storage/cback.go:107 | A clean path strictly below a directory is that directory joined with the relative path between them |
| CbackFs.EncodeBackupInResourceId | cback/storage/cback.go:159-166 | An encoded id always lives in the "cback" storage |
| CbackFs.DecodeResourceId | cback/storage/cback.go:169-186 | A failed decode returns all-zero fields; a successful one came from a present id, with a 64-bit backup id and no '#' in snapshot or source |
| CbackFs.DecodeRejects | cback/storage/cback.go:170-176 | A missing id, or an opaque id that is not valid Base64, decodes to the failure value |
| CbackFs.DecodeEncodeResourceId | cback/storage/cback.go:159-186 | Round trip: decoding an encoded id gives back (source, snapshot, path, backup id, ok) whenever snapshot and source contain no '#'; the path may contain '#' |
| Base64.DecodeEncode | cback/storage/cback.go:161-173 | Standard Base64 decoding inverts encoding for every byte string |
| Base64.DecodeEncodeString | cback/storage/cback.go:161-173 | The same round trip for a Go string converted to bytes and back |
| CbackFs.GetBackupInfo | cback/storage/cback.go:189-192 | Succeeds exactly when the id decodes |
| CbackFs.GetBackupInfoOfEncoded | cback/storage/cback.go:189-192 | For an encoded id it returns source joined with path, the snapshot and the backup id |
| CbackFs.TimeToTimestamp | cback/storage/cback.go:309-313 | The Unix time as an unsigned 64-bit number: unchanged when in range, wrapped modulo 2^64 when negative |
| CbackFs.ConvertToResourceInfo | cback/storage/cback.go:132-157 | A catalogue entry becomes a container exactly when it is a directory, with folder permissions exactly then; the etag is the decimal form of the ctime, which is also the mtime |
| CbackFs.PlaceholderResourceInfo | cback/storage/cback.go:194-220 | A placeholder is an empty container with folder permissions and no parent; the id defaults to the path in the "cback" storage and the time to 0 |
| CbackFs.NamesHavePrefix | cback/storage/cback.go:222-229 | The element-wise prefix test panics exactly when the list is a proper prefix of the expected prefix (the missing length guard), and is true exactly for a genuine element-wise prefix |
| CbackFs.IsParentOfBackup | cback/storage/cback.go:231-243 | When no comparison can panic, the path is a parent exactly when its segments are an element-wise prefix of some backup source's segments; a panic needs a backup on which the comparison panics |
| CbackFs.NoPanicWhenUnmatched | cback/storage/cback.go:222-243 | For a backup whose source is not a prefix of the path, the comparison cannot panic, and an ancestor source has more segments than the path |
| CbackFs.OneBackupAncestors | cback/storage/cback.go:231-243 | Concrete case with the single backup /x/y: "" and /x are parents, and /z is not |
| CbackFs.NextEntry | cback/storage/cback.go:390-394 | For an unmatched path, a backup contributes a next segment exactly when the path is its ancestor |
| CbackFs.NextPathsElements | cback/storage/cback.go:390-401 | The candidate entries are exactly the next segments of the backups below the path |
| CbackFs.AncestorListing | cback/storage/cback.go:383-407 | Listing outside every backup is NotFound exactly when no backup lies below the path; otherwise one placeholder folder per distinct next segment, in first-seen order, never empty |
| CbackFs.Placeholders | cback/storage/cback.go:396-399 | One placeholder per path, in order |
| CbackFs.GetMDLocation | cback/storage/cback.go:261-269 | With an id, GetMD resolves by decoding it; with a path, by splitting it, and a failed split leaves the source as the template applied to "" |
| CbackFs.PlanGetMD | cback/storage/cback.go:271-306 | The ids GetMD reports for a stat or a snapshot folder always live in the "cback" storage |
| CbackFs.GetMDStatsInsideSnapshot | cback/storage/cback.go:272-286 | For a path inside a snapshot with a non-empty rest, GetMD stats the templated source joined with the rest in that snapshot, reports the path templated-source/snapshot/rest, the id encode(backup, snapshot, templated source, rest) and the parent id with Dir(rest) |
| CbackFs.GetMDParent | cback/storage/cback.go:283-284 | The parent id of a stat answer decodes to the same location with the path replaced by its Dir |
| CbackFs.GetMDById | cback/storage/cback.go:261-286 | Asking again by the id GetMD reported chooses the same answer |
| CbackFs.GetMDUnmatchedIgnoresPath | cback/storage/cback.go:267-268 | When a path matches no backup, GetMD's choice does not depend on the path at all, because the ancestor test runs on the resolved source and not on the path |
| CbackFs.GetMDAncestorQuirk | cback/storage/cback.go:267-306 | Concrete case: with backup /x/y and a template mapping "" to "", the unrelated path /z is reported as the folder "" and not as NotFound, and /x likewise becomes "" |
| CbackFs.GetMDNoPanic | cback/storage/cback.go:302 | GetMD's ancestor test on "" never panics when the template maps "" to "" |
| CbackFs.SnapshotEntries | cback/storage/cback.go:353-364 | One entry per catalogue item of a snapshot folder, in order |
| CbackFs.SnapshotEntryIds | cback/storage/cback.go:354-361 | An entry's id decodes to the folder's location extended by the item's base name, and its parent id decodes to the folder's location |
| CbackFs.SnapshotEntryStat | cback/storage/cback.go:354-361 | GetMD on a listed entry's id stats exactly that entry |
| CbackFs.SnapshotFolders | cback/storage/cback.go:373-377 | One folder per snapshot, named by the formatted snapshot time, in order |
| CbackFs.SnapshotFolderId | cback/storage/cback.go:376 | GetMD on a listed snapshot folder's id resolves to that snapshot folder |
| CbackFs.FindSnapshot | cback/storage/cback.go:324-329 | Returns a snapshot with exactly the requested time, and none exactly when no snapshot has that time |
| CbackFs.DownloadTarget | cback/storage/cback.go:421-430 | Downloading anything but a file is BadRequest "cback: can only download files"; a download goes ahead only for an id that decodes |
| CbackFs.DownloadRejectsFolders | cback/storage/cback.go:421-423 | Every placeholder folder is refused |
| CbackFs.DownloadByPathTemplatesTwice | cback/storage/cback.go:268-430 | Downloading a file found by path applies the cback template twice to the source: once while resolving and once before the download |
| CbackFs.Refuse | cback/storage/cback.go:441-571 | Every write or advanced operation is NotSupported "Operation Not Permitted" |
| CbackCache.KeyFamiliesDiffer | cback/storage/cache.go:30-73 | Keys of different operations never coincide, thanks to the distinct "backups:", "stat:", "list:" and "snapshots:" tags |
| CbackCache.KeyInjective | cback/storage/cache.go:30-73 | Two requests with no ':' inside their fields and the same key are the same request |
| CbackCache.BackupsKeyUnique | cback/storage/cache.go:30 | The backups key of a user is shared with no other request |
| CbackCache.StatKeyCollision | cback/storage/cache.go:46 | A ':' inside a snapshot name makes two different stat requests share a key |
| CbackCache.RewriteSources | cback/storage/cache.go:38-40 | Every backup keeps its fields, except that its source is passed through the to-storage template |
| CbackCache.Truncate | cback/storage/cache.go:81-85 | A snapshot time becomes the time parsed back from its formatted form, or the zero time when that parse fails |
| CbackCache.TruncateTimes | cback/storage/cache.go:81-85 | Every snapshot keeps its fields, except that its time is replaced by the time parsed from its formatted form (the zero time when that fails) |
| CbackCache.TruncateIdempotent | cback/storage/cache.go:81-85 | Truncating a time twice is the same as truncating once, when formatting is stable on truncated times |
| CbackStorage.Fs.constructor | cback/storage/cback.go:92-98 | A new driver starts with an empty cache that satisfies the cache invariant |
| CbackStorage.Fs.CachedAnswer | cback/storage/cache.go:29-88 | A cached entry is what the catalogue answers to the request it was stored for, of the same kind as the request asking for it, and for a request with an unambiguous key it is that very request's answer |
| CbackStorage.Fs.CachedListBackups | cback/storage/cache.go:29-43 | Returns the catalogue's backups with rewritten sources. A hit returns the stored value with no client call. A miss makes exactly one call; an error leaves the cache unchanged; a success may store the value (a failed insert is ignored) |
| CbackStorage.Fs.CachedStat | cback/storage/cache.go:45-56 | The same cache-aside contract for stat entries |
| CbackStorage.Fs.CachedListFolder | cback/storage/cache.go:58-70 | The same contract for folder listings; the key uses the un-templated path while the client receives the to-cback templated path |
| CbackStorage.Fs.CachedListSnapshots | cback/storage/cache.go:72-88 | The same contract for snapshot lists, whose times are truncated before storing and returning |
| CbackStorage.Fs.GetSnapshotSpec | cback/storage/cback.go:315-330 | A found snapshot belongs to the backup's snapshots and has the parsed time; with a list and a parsable time, NotFound exactly when no snapshot has that time |
| CbackStorage.Fs.GetSnapshot | cback/storage/cback.go:315-330 | Through the cache it answers as GetSnapshotSpec, with at most one client call |
| CbackStorage.Fs.PlanAnswer | cback/storage/cback.go:271-306 | Every answer belongs to the calling user; a file answer comes only from a stat with the reported id; a folder plan gives a placeholder; an unknown path gives NotFound |
| CbackStorage.Fs.GetMDSpec | cback/storage/cback.go:245-307 | No user gives UserRequired; every answer belongs to the user; a file always has a "cback" id |
| CbackStorage.Fs.GetMD | cback/storage/cback.go:245-307 | Keeps the cache invariant and answers as GetMDSpec; without a user it touches neither cache nor client |
| CbackStorage.Fs.AnswerAt | cback/storage/cback.go:271-306 | Carrying out the chosen plan through the cache gives PlanAnswer |
| CbackStorage.Fs.ListSnapshotFolders | cback/storage/cback.go:373-377 | The loop builds exactly SnapshotFolders |
| CbackStorage.Fs.ListFolderSpec | cback/storage/cback.go:332-408 | No user gives UserRequired; the three listing branches are the functions SnapshotEntries, SnapshotFolders and AncestorListing |
| CbackStorage.ListSnapshotContent | cback/storage/cback.go:353-364 | The loop builds exactly SnapshotEntries |
| CbackStorage.ListAncestors | cback/storage/cback.go:383-407 | The loop with its set of seen paths builds exactly AncestorListing |
| CbackStorage.Fs.ListFolder | cback/storage/cback.go:332-408 | Keeps the cache invariant and answers as ListFolderSpec; without a user it touches neither cache nor client |
| CbackStorage.Fs.DownloadSpec | cback/storage/cback.go:410-431 | No user gives UserRequired; a resource GetMD reports as a non-file gives BadRequest |
| CbackStorage.Fs.Download | cback/storage/cback.go:410-431 | Keeps the cache invariant and answers as DownloadSpec |
| ShareSql.GranteeTypeToShareType | share/sql/sql.go:683-691 | User grantees map to 0, groups to 1, and anything else to -1, each in both directions |
| ShareSql.AdminGroup | share/sql/sql.go:405 | A project's admin group starts with "cernbox-project-" and ends with "-admins"; it parses back to the project, see CernboxSpaces.AdminGroupIsProjectGroup |
| ShareSql.ProjectAdminOfPath | share/sql/sql.go:397-423 | For /eos/project/<letter>/<name>[/...], the user is a project admin exactly when their groups contain the admin group of <name> |
| ShareSql.NoProjectAdminAtLetter | share/sql/sql.go:400-403 | Nobody is a project admin of /eos/project/<letter> itself |
| ShareSql.UidOwnerFilters | share/sql/sql.go:669-681 | For a project admin, no condition and no parameters; otherwise a non-empty condition with the uid twice; always one '?' per parameter |
| ShareSql.AppendUidOwnerFilters | share/sql/sql.go:655-667 | A project admin's query and parameters are unchanged; otherwise the query is extended after its original text and the uid is appended twice; the balance is kept |
| ShareSql.ConditionParams | share/sql/sql.go:707-728 | A resource-id filter contributes storage id and opaque id, a grantee-type filter its share type code, anything else nothing |
| ShareSql.Condition | share/sql/sql.go:707-728 | A resource-id condition holds two placeholders and a grantee-type condition one |
| ShareSql.ConditionBalanced | share/sql/sql.go:707-728 | Each supported filter has one '?' per parameter |
| ShareSql.ConditionPlaceholders | share/sql/sql.go:707-728 | 2 parameters per resource-id filter, 1 per grantee-type filter, 0 otherwise |
| ShareSql.OrOfBalanced | share/sql/sql.go:708-728 | Filters of one type joined by OR stay balanced |
| ShareSql.ClauseBalanced | share/sql/sql.go:705-734 | The parenthesised clause of a supported group is balanced with its parameters |
| ShareSql.AndOfBalanced | share/sql/sql.go:700-739 | Type groups joined by AND stay balanced |
| ShareSql.AndOfEnds | share/sql/sql.go:735-737 | The joined clause ends with a clause, never with a trailing AND |
| ShareSql.TranslateEmpty | share/sql/sql.go:694-698 | No filters give an empty clause and no parameters |
| ShareSql.TranslateBalanced | share/sql/sql.go:694-741 | A successful translation has one '?' per parameter |
| ShareSql.TranslateFilters | share/sql/sql.go:694-741 | The loop with its group counter computes the specification, and its successful result is balanced |
| ShareSql.GroupClause | share/sql/sql.go:706-734 | A group gives a clause exactly when its type is supported, and an unsupported type is the error case |
| ShareSql.OrClause | share/sql/sql.go:708-728 | The inner loop builds the parenthesised OR of the group's conditions and their parameters |
| ShareSql.WithFilter | share/sql/sql.go:439-441 | An empty filter leaves the query unchanged; placeholders add up |
| ShareSql.SharesBase | share/sql/sql.go:426-430 | The base query of ListShares is balanced with its two share-type parameters |
| ShareSql.ListSharesBalanced | share/sql/sql.go:425-447 | The ListShares query fails exactly on an unsupported filter type; otherwise it has one '?' per parameter |
| ShareSql.ListSharesQuery | share/sql/sql.go:425-447 | Computes that specification |
| ShareSql.GroupParams | share/sql/sql.go:480-482 | One string parameter per user group, in order |
| ShareSql.CommaPlaceholders | share/sql/sql.go:490 | The comma-separated list for n groups holds n placeholders |
| ShareSql.AppendGroupParams | share/sql/sql.go:480-482 | The loop appends exactly those parameters |
| ShareSql.RecipientClause | share/sql/sql.go:489-493 | The recipient clause has n+1 placeholders for n > 0 groups, and 1 without groups |
| ShareSql.ReceivedBase | share/sql/sql.go:484-488 | The base query of received shares holds three placeholders: the recipient of the state join, then the owner and the initiator the user must not be |
| ShareSql.ByIdBase | share/sql/sql.go:541-545 | The base query by id holds two placeholders |
| ShareSql.ByKeyBase | share/sql/sql.go:571-575 | The base query by key holds six placeholders |
| ShareSql.ListReceivedBalanced | share/sql/sql.go:475-504 | The received-shares query fails exactly on an unsupported filter type; otherwise it has one '?' per parameter |
| ShareSql.ListReceivedQuery | share/sql/sql.go:475-504 | Computes that specification |
| ShareSql.ReceivedByIdQuery | share/sql/sql.go:531-550 | Parameters are uid, id, uid and then the groups; the query is balanced for every number of groups |
| ShareSql.ReceivedByKeyQuery | share/sql/sql.go:560-580 | Parameters are uid, owner, storage id, opaque id, share type, recipient twice and then the groups; the query is balanced |
| ShareSql.StateCode | share/sql/sql.go:632-638 | Rejected is stored as -1, accepted as 1, every other state as 0, each in both directions |
| ShareSql.UpdateReceivedShare | share/sql/sql.go:615-653 | A failed fetch is returned; the update fails exactly when some field-mask path is not "state", with NotSupported naming the first such path; otherwise the requested state is kept (when there is a path) and the statement is balanced with the state code twice |
| PublicLinks.OfType | share/sql/public_link.go:330-336 | A group never has more filters than the input |
| PublicLinks.OfTypeSound | share/sql/public_link.go:330-336 | A group holds only filters of its own type that come from the input |
| PublicLinks.OfTypeComplete | share/sql/public_link.go:330-336 | Every filter lands in the group of its own type |
| PublicLinks.GroupFiltersByType | share/sql/public_link.go:330-336 | The loop's map has a key exactly for the types that occur, each holding exactly the filters OfType selects for that type |
| PublicLinks.ExpiryMonotone | share/sql/public_link.go:262-268 | Once a link has expired, it stays expired at every later time |
| PublicLinks.Visible | share/sql/public_link.go:237-239 | A row is returned exactly when it exists, is not an orphan and has not expired; otherwise NotFound with the lookup key |
| PublicLinks.FirstWhere | share/sql/public_link.go:235 | Returns the first row satisfying the condition, and none exactly when no row does |
| PublicLinks.GetLinkById | share/sql/public_link.go:233-242 | A returned link is a row whose primary key is the id read as a decimal number, is not an orphan and has not expired; when no row has that key the answer is NotFound with the id |
| PublicLinks.GetLinkByIdFinds | share/sql/public_link.go:233-242 | A visible link whose key no other row shares is found by the decimal form of its key |
| PublicLinks.GetLinkByTokenAsWritten | share/sql/public_link.go:245-255 | As written, the lookup returns the first link of the table, whatever its token |
| PublicLinks.TokenIgnoredAsWritten | share/sql/public_link.go:245-255 | A table with one visible link of another token returns that link as written, while the corrected lookup answers NotFound |
| PublicLinks.GetLinkByToken | share/sql/public_link.go:244-255 | A returned link has the requested token, is not an orphan and has not expired; an unknown token is NotFound |
| PublicLinks.LookupLink | share/sql/public_link.go:153-164 | By id: a visible row with the key the id names; by a non-empty token: the first row of the table (the lookup as written), if visible; an empty token is NotFound |
| PublicLinks.GetPublicShare | share/sql/public_link.go:151-174 | A lookup error is returned; otherwise the CS3 form of the link found, passed to the signing step (whose error is returned) exactly when signing is asked for and the link has a password; a token reference answers the first row |
| PublicLinks.HashPassword | share/sql/public_link.go:257-260 | The stored hash always begins with "1\|" followed by the digest; the hashing error is passed on |
| PublicLinks.EmptyLinkWithId | share/sql/public_link.go:270-283 | Fails exactly when strconv.Atoi rejects the id, with its "invalid syntax" or "value out of range" message; otherwise a zero link whose only set field is the id, converted to unsigned |
| PublicLinks.ItemTypeOf | share/sql/public_link.go:69 | The item type is "folder" exactly for containers |
| PublicLinks.CreatePublicShare | share/sql/public_link.go:47-97 | A hashing error or a save error is returned; otherwise the link has the new token, the "name" metadata or the token as its name, a quicklink exactly when the "quicklink" metadata value is true for Go's ParseBool, no orphan flag, a password hash only for a non-empty password, and an expiration only for non-zero seconds; the answer is its CS3 form |
| PublicLinks.UpdateColumn | share/sql/public_link.go:113-142 | Each known update type writes its own column; an empty password stores ""; a non-empty one stores the hash or returns the hashing error; an unknown type is an error naming the type |
| PublicLinks.UpdateChangesOneField | share/sql/public_link.go:113-142 | Applying an update changes exactly the one field of its type and nothing else |
| PublicLinks.UpdateTarget | share/sql/public_link.go:102-109 | By id: the zero link carrying the parsed id, or Atoi's error; by token: the first row of the table (the lookup as written) |
| PublicLinks.UpdatePublicShare | share/sql/public_link.go:99-149 | The target's or the column's error is returned; unknown types fail; a database error is returned; on success the rows with the target's key, and only they, get the column UpdateColumn chooses and the update time, and the answer is what GetPublicShare (signing) reads from the new table; an update by token writes the first row |
| PublicLinks.RenameByIdReadsBack | share/sql/public_link.go:99-149 | Renaming an unprotected visible link by its id writes the new name to that row and answers its CS3 form, which carries the new name |
| ShareModel.IntToSharePerm | share/model.go:174-189 | 1 is viewer, 4 uploader, 15 editor for folders and file editor otherwise, anything else no permissions, each in both directions |
| ShareModel.IntToSharePermRoleBits | share/model.go:174-189 | Storing a role's integer and reading it back gives the role |
| ShareModel.ExtractGranteeAsWritten | share/model.go:193-209 | As written: a share with a group gives a USER grantee carrying the user type, any other share a GROUP grantee |
| ShareModel.ExtractGrantee | share/model.go:191-209 | Corrected: the grantee is a group exactly for a share with a group; a user grantee carries the user type |
| ShareModel.ExtractGranteeSwapsKinds | share/model.go:193-209 | The written conversion always gives the other kind of grantee: it equals the corrected one with the flag negated |
| ShareModel.OpaqueIdOf | share/model.go:102 | The share id's decimal text parses back to the id for every id below 2^63 |
| ShareModel.TimestampOf | share/model.go:97-99 | A stored time in range is the timestamp's seconds |
| ShareModel.AsCs3Share | share/model.go:96-116 | The CS3 share carries the decimal id, (instance, inode) as resource, the converted permissions, the grantee as written (a group exactly for a share with a user), and the creation time as both ctime and mtime |
| ShareModel.AsCs3ShareIntended | share/model.go:96-116 | Corrected: the same CS3 share except for the grantee, which is a group exactly for a share with a group |
| ShareModel.AsCs3ReceivedShare | share/model.go:118-124 | A received share is always accepted, takes only "hidden" from the state record, and carries the share as AsCs3Share converts it (grantee as written) |
| ShareModel.AsCs3PublicShare | share/model.go:126-167 | Password protected exactly when a hash is stored; an expiration exactly when one is set; ctime = mtime = creation time; token, name, quicklink, description and notification fields copied |
| ShareMigrate.HandleSingleState | share/sql/migrate.go:320-326 | A migrated state is hidden exactly when the old state was -1, never synced, and keeps share id and recipient |
| ShareMigrate.StoredStateMigratesToHidden | share/sql/migrate.go:324 | A state stored by the share manager migrates to hidden exactly when it was a rejection |
| ShareMigrate.MigratedProto | share/sql/migrate.go:334-378 | Times come from the old share time or the clock when it is 0; id, owner, initiator, inode and instance are copied; permissions are truncated to 8 bits; a found path is set, NotFound marks an orphan, other errors change nothing, orphans skip the lookup |
| ShareMigrate.OldShareToNewShare | share/sql/migrate.go:333-412 | Types 0 and 1 become shares with "shared with group" exactly for 1; type 3 becomes a link with password from ShareWith, name from ShareName and token, quicklink and notification fields copied; any other type is "Invalid share type"; a share keeps the old description, a link has none |
| ShareMigrate.MigratedShareGranteeType | share/sql/migrate.go:385-394 | With the corrected conversion, a migrated user or group share gets a CS3 grantee whose kind maps back to the old share type |
| ShareMigrate.MigratedGroupShareGranteeAsWritten | share/sql/migrate.go:385-394 | With the conversion as written (AsCs3Share), a migrated group share gets a user grantee, and every migrated user or group share maps back to the other share type |
| CernboxSpaces.PermissionLevel | cernboxspaces/cernboxspaces.go:377-381 | Admins rank 1, writers 2, readers 3; only those three names have a level |
| CernboxSpaces.PermissionLevelInjective | cernboxspaces/cernboxspaces.go:377-381 | Different level names have different ranks |
| CernboxSpaces.GetHigherPermission | cernboxspaces/cernboxspaces.go:383-391 | With no current permission the new one wins; the result is always one of the two arguments |
| CernboxSpaces.HigherPermissionMostPrivileged | cernboxspaces/cernboxspaces.go:383-391 | For level names, the result is a level name at least as privileged as both arguments |
| CernboxSpaces.HigherPermissionSymmetric | cernboxspaces/cernboxspaces.go:383-391 | For level names, argument order does not matter |
| CernboxSpaces.HigherPermissionIdempotent | cernboxspaces/cernboxspaces.go:383-391 | Combining a permission with itself gives it back |
| CernboxSpaces.HigherPermissionAssociative | cernboxspaces/cernboxspaces.go:383-391 | For level names, combining in any grouping gives the same result |
| CernboxSpaces.PermissionSuffix | cernboxspaces/cernboxspaces.go:72 | A recognised suffix is a level name that ends the group name after a '-' |
| CernboxSpaces.PermissionSuffixOf | cernboxspaces/cernboxspaces.go:72 | A name ending in "-" + level has that level as its suffix |
| CernboxSpaces.ParseProjectGroup | cernboxspaces/cernboxspaces.go:72 | A parsed group is exactly "cernbox-project-" + name + "-" + level, with a non-empty name without newline |
| CernboxSpaces.ParseProjectGroupOf | cernboxspaces/cernboxspaces.go:72 | Every such group name parses back to its name and level |
| CernboxSpaces.AdminGroupIsProjectGroup | cernboxspaces/cernboxspaces.go:72 | The share manager's admin group of a project parses as that project with level admins |
| CernboxSpaces.ParsedGroups | cernboxspaces/cernboxspaces.go:290-292 | Every parsed group has a level name |
| CernboxSpaces.UserProjectKeys | cernboxspaces/cernboxspaces.go:287-298 | Each project appears once among the user's projects |
| CernboxSpaces.BestOfDomain | cernboxspaces/cernboxspaces.go:290-298 | A project has a permission exactly when one of the user's groups names it |
| CernboxSpaces.BestOfAttained | cernboxspaces/cernboxspaces.go:290-298 | A project's stored permission is the level of one of its groups |
| CernboxSpaces.BestOfBest | cernboxspaces/cernboxspaces.go:293-296 | A project's stored permission is at least as privileged as every group of it |
| CernboxSpaces.KeysAreDomain | cernboxspaces/cernboxspaces.go:287-298 | The project list and the permission map have the same projects, all with level names |
| CernboxSpaces.AddGroup | cernboxspaces/cernboxspaces.go:291-297 | One step adds a new project to the key list and keeps the more privileged permission |
| CernboxSpaces.GroupProjects | cernboxspaces/cernboxspaces.go:287-298 | The loop builds exactly the distinct project list and the best-permission map |
| CernboxSpaces.StorageFilter | cernboxspaces/cernboxspaces.go:309-317 | An invalid space type is the only error; ALL applies no storage filter |
| CernboxSpaces.Selected | cernboxspaces/cernboxspaces.go:308-318 | The selected rows are the table rows of the requested storage, or all rows |
| CernboxSpaces.LastBy | cernboxspaces/cernboxspaces.go:331-333 | The per-project column maps have an entry exactly for the names in the rows |
| CernboxSpaces.LastByLast | cernboxspaces/cernboxspaces.go:331-333 | The last row of a project decides its path and storage |
| CernboxSpaces.ScanRows | cernboxspaces/cernboxspaces.go:323-334 | The scanning loop builds the name list and the last-row-wins path and storage maps |
| CernboxSpaces.Intersect | cernboxspaces/cernboxspaces.go:336 | A project is valid exactly when it is both in the table and among the user's projects |
| CernboxSpaces.KeepIn | cernboxspaces/cernboxspaces.go:336 | The kept names are exactly those in both lists |
| CernboxSpaces.ValidHavePermissions | cernboxspaces/cernboxspaces.go:336-341 | Every project in the intersection has a level name as its best permission, so building it never reads an empty permission |
| CernboxSpaces.Singular | cernboxspaces/cernboxspaces.go:347 | The reported permission is the level name without its last character |
| CernboxSpaces.SingularOfLevel | cernboxspaces/cernboxspaces.go:347 | For a level name, the reported permission plus "s" is the level again |
| CernboxSpaces.ProjectsForMeaning | cernboxspaces/cernboxspaces.go:338-358 | Every built project is a valid one built from its name; every valid project on eos or cephfs is built |
| CernboxSpaces.BuildProjects | cernboxspaces/cernboxspaces.go:338-358 | The loop builds exactly that list |
| CernboxSpaces.UserGroups | cernboxspaces/cernboxspaces.go:278-285 | Groups come from the token, or from the gateway when configured, whose error is wrapped |
| CernboxSpaces.SpacesSpec | cernboxspaces/cernboxspaces.go:272-361 | No user: UserRequired; group error: wrapped; no project groups: empty list before any type check; invalid type: BadRequest; database error: wrapped; otherwise the listed spaces of the selected rows |
| CernboxSpaces.GetSpaces | cernboxspaces/cernboxspaces.go:272-361 | Computes that specification |
| CernboxSpaces.ListedSpacesSound | cernboxspaces/cernboxspaces.go:336-358 | A listed space is one of the user's projects, and its permission plus "s" is the user's best level for it |
| CernboxSpaces.ListedSpacesFrom | cernboxspaces/cernboxspaces.go:336-358 | A listed space is in the table and among the user's projects, and is built from its own rows |
| CernboxSpaces.ListedSpacesPath | cernboxspaces/cernboxspaces.go:342-354 | A listed space's path is /eos/project/<rel> for eos or /winspaces/<rel> for cephfs, from the project's last row |
| CernboxSpaces.ListedSpacesComplete | cernboxspaces/cernboxspaces.go:336-358 | Every project of the user in the table whose last row is on eos or cephfs is listed |
| CernboxSpaces.ProjectOfMeaning | cernboxspaces/cernboxspaces.go:340-354 | A built project carries its name, its level without the last letter, and the storage's path prefix |
| CernboxSpaces.FindSpace | cernboxspaces/cernboxspaces.go:214-219 | The search finds a space exactly when one has that exact name |
| CernboxSpaces.UserHasAccessToProject | cernboxspaces/cernboxspaces.go:208-220 | True exactly when listing ALL spaces succeeds and includes one with that name; false on error |
| EosWrapper.ProjectOfPath | storage/eoswrapper/eoswrapper.go:239-249 | A project is named exactly when the path splits into 3 or 4 parts, and it is the third part |
| EosWrapper.ProjectOfLetterPath | storage/eoswrapper/eoswrapper.go:239-249 | /<letter>/<name>[/...] names project <name> |
| EosWrapper.NoProjectAboveProjects | storage/eoswrapper/eoswrapper.go:241-245 | / and /<letter> name no project |
| EosWrapper.UserIsProjectMember | storage/eoswrapper/eoswrapper.go:228-261 | Outside /eos/project, anyone passes; a stat error is returned; a path naming no project passes; any other failure is PermissionDenied |
| EosWrapper.MembershipLevels | storage/eoswrapper/eoswrapper.go:247-260 | Admin level needs the admins group; writer level admins or writers; reader level any of the three |
| EosWrapper.MembershipMonotone | storage/eoswrapper/eoswrapper.go:252-260 | Passing at one level implies passing at every lower level |
| EosWrapper.GrantingGroupIsProjectGroup | storage/eoswrapper/eoswrapper.go:247-249 | A group that grants a level is a project group of that project, parsed as the spaces service parses it, with a rank that suffices |
| EosWrapper.AdminsGroupIsShareAdminGroup | storage/eoswrapper/eoswrapper.go:206 | The wrapper's admin group is the share manager's admin group |
| EosWrapper.ListRevisions | storage/eoswrapper/eoswrapper.go:149-155 | Listing revisions needs reader level, otherwise PermissionDenied with the source's message |
| EosWrapper.DownloadRevision | storage/eoswrapper/eoswrapper.go:157-163 | Downloading a revision needs reader level |
| EosWrapper.RestoreRevision | storage/eoswrapper/eoswrapper.go:165-171 | Restoring a revision needs writer level |
| EosWrapper.DenyGrant | storage/eoswrapper/eoswrapper.go:173-183 | Outside /eos/project, NotSupported; inside, only admins pass, others get PermissionDenied |
| EosWrapper.GatesNest | storage/eoswrapper/eoswrapper.go:149-183 | Whoever may deny grants may restore, and whoever may restore may list and download |
| EosWrapper.SpaceAdminIsAdminMember | storage/eoswrapper/eoswrapper.go:196-212 | The sharing-permission test is exactly admin-level membership of a named project in the project namespace |
| EosWrapper.AdminPermissions | storage/eoswrapper/eoswrapper.go:213-220 | Adds add, remove, update and list grants and quota; deny grant is added only without a public-share role; nothing is removed and nothing else is added |
| EosWrapper.GrantAdminPermissions | storage/eoswrapper/eoswrapper.go:213-220 | The flag-by-flag update gives exactly AdminPermissions and leaves the path alone |
| EosWrapper.SetProjectSharingPermissions | storage/eoswrapper/eoswrapper.go:196-226 | For a project admin, the permissions become AdminPermissions of the old ones; for anyone else nothing changes |
| EosWrapper.ApplyConfigDefaults | storage/eoswrapper/eoswrapper.go:82-90 | Version invariance is switched on when the key is absent; path recycle operations are allowed when home is off and the namespace is under /eos/project; nothing else changes |
| EosWrapper.MountIdTemplate | storage/eoswrapper/eoswrapper.go:92-95 | A configured non-empty template is kept; otherwise the default; never empty |
| EosWrapper.NewPanicsOnDriverError | storage/eoswrapper/eoswrapper.go:97-101 | As written, a driver error makes New panic instead of returning the error |
| EosWrapper.NewOutcome | storage/eoswrapper/eoswrapper.go:97-108 | Corrected: a driver error is returned, then a template parse error, otherwise the template is used |
| EosWrapper.NewOutcomeAgrees | storage/eoswrapper/eoswrapper.go:97-108 | Without a driver error, the corrected and the written outcomes agree |
| EosWrapper.New | storage/eoswrapper/eoswrapper.go:76-109 | Applies the config defaults and answers the written outcome with the chosen mount template: a driver error is a panic; without one it agrees with NewOutcome |
| UserRest.WithDefaults | user/rest.go:84-106 | The defaulted config is complete, a complete config is unchanged, and the fields without defaults are untouched |
| UserRest.WithDefaultsKeepsSetFields | user/rest.go:84-106 | Every field that was set keeps its value |
| UserRest.WithDefaultsIdempotent | user/rest.go:84-106 | Applying the defaults twice is the same as once |
| UserRest.Config.ApplyDefaults | user/rest.go:84-106 | The new state is the defaulted old state: complete, and unchanged when it was complete |
| UserRest.UserTypeOf | user/rest.go:177-196 | Application, Service and Secondary map directly; Person is primary exactly for source "cern" with a positive uid and lightweight otherwise; anything else is invalid; never guest, federated or space owner |
| UserRest.UserIsAnyType | user/rest.go:318-325 | True exactly when the user's type is in the list |
| UserRest.SplitNamespace | user/rest.go:283-289 | Without ':' the namespace is "" and the query unchanged; otherwise the namespace is the text before the first ':' and the query the rest |
| UserRest.SplitNamespaceOf | user/rest.go:283-289 | A namespace without ':' followed by ':' and a query splits back into the two |
| UserRest.AccountsFilter | user/rest.go:298-306 | The filter is empty exactly for a namespace other than "", "a" and "l"; it never admits invalid or application accounts |
| UserRest.NamespacesNest | user/rest.go:298-306 | What the default namespace finds, "a" also finds; "a" and "l" find disjoint types |
| UserRest.KeepTypes | user/rest.go:308-312 | The kept users are exactly the users whose type is in the filter |
| UserRest.KeepTypesAppend | user/rest.go:308-312 | Filtering keeps order: filtering a concatenation is concatenating the filtered parts |
| UserRest.KeepTypesSingle | user/rest.go:308-312 | A single user is kept exactly when its type is admitted |
| UserRest.FindUsers | user/rest.go:277-315 | A search error is returned; otherwise the result is the order-preserving selection of the cached users whose type the namespace admits |
| UserRest.SearchesSkip | user/rest.go:298-312 | An unknown namespace finds nobody; nobody found is invalid or an application |
| UserRest.UserGroups | user/rest.go:341-363 | Cached groups win; otherwise the fetch error, or the fetched names lowercased, one per name |
| UserRest.ContainsGroup | user/rest.go:373-377 | The search finds the group exactly when it is in the list |
| UserRest.IsInGroup | user/rest.go:365-379 | An error is passed on; otherwise true exactly for an exact, case-sensitive member |
| UserRest.UpperCaseGroupNotFetched | user/rest.go:341-379 | After a cache miss, a group name with an upper-case letter is never found among freshly fetched groups, which are lowercased |

## Left out

- Databases (`database/sql`, gorm), gRPC gateway calls, the cback HTTP client, redis and HTTP handlers are not modelled. Their answers are parameters: `Result` values, a stub catalogue client with fixed answers, a table of rows, a path-lookup outcome.
- Text templates (`convertTemplate`, `getMountID`, the mount-id template), time parsing and formatting, the clock, bcrypt, random tokens and `mime.Detect` are parameters or are left out. The MIME type and checksum fields of a resource info are not modelled.
- gcache LRU eviction and expiry are not modelled: the cache is a map that only grows, and a store may be skipped, like a failed insert.
- Concurrency in the migration (worker pools, channels) and the periodic user fetch are not modelled. `handleSingleShare`, `RunMigration`, `getAllShares` and `getCount` are not part of this model.
- Share manager operations that are only database plumbing (`Share`, `GetShare`, `Unshare`, `UpdateShare`, `getByID`, `getByKey`, `getPath`, `getUserType`, `ListPublicShares`, `RevokePublicShare`, `GetPublicShareByToken`, `appendLinkFiltersToQuery`) are not part of this model. Only the query construction and decision logic around them is.
- `GetProjectAdmins`, `getProjectAdmins` and the spaces HTTP handlers are not part of this model.
- The user provider's `GetUser`, `GetUserByClaim`, `parseAndCacheUser`, `fetchAllUserAccounts`, `Configure` and `New` are not part of this model; the cached search is a function parameter of `FindUsers`.
- The EOS wrapper's `GetMD`, `ListFolder` and `ListWithRegex` overrides are not modelled; they only apply the mount-id template and then `setProjectSharingPermissions`, which is.
- `appctx.ContextMustGetUser` panics without a user; the model always has one where the source uses it.
- SQL text is modelled as a sequence of fixed fragments and placeholders; exact whitespace is not reproduced.
- CbackFs.SplitPath: requires clean absolute paths and sources, since `filepath.Rel` is only modelled for a path at or below the source as a string prefix.
- CbackStorage.Fs.ListFolderSpec: its own contract only states the missing-user case; its branches are the functions whose properties are proved (`AncestorListing`, `SnapshotEntries`, `SnapshotFolders`).
- CbackStorage.Fs.CachedStat: equals a fresh fetch only for requests whose key no other request shares (no ':' inside user, snapshot or tag); `CbackCache.StatKeyCollision` shows why. The same holds for `CachedListFolder`, `CachedListSnapshots`, `GetMD`, `ListFolder` and `Download`.
- CernboxSpaces.Intersect: the output order of `intersect.Simple` is not visible, so the model keeps database order, and only order-free facts are proved about the listed spaces.
- CernboxSpaces.ParseProjectGroup: Go's `.` does not match a newline, so a project name containing one is rejected; other regular-expression details are reduced to the prefix and suffix match.
- EosWrapper.SetProjectSharingPermissions: the CS3 permission record is modelled as the set of its true flags.
- PublicLinks.GetLinkById: the ORM takes an id that is a plain decimal number as the primary key and any other string as a raw SQL condition; the model treats such an id as matching no row.
- PublicLinks.LookupLink: the NotFound for an empty token carries "" rather than the reference's protobuf text.
- PublicLinks.EmptyLinkWithId: the id is quoted in the error as is, without Go's escaping of quotes, backslashes and non-printable characters.
- PublicLinks.UpdateColumn: an unknown update type is named by a string the caller gives, standing for the enum name Go prints.
- PublicLinks.ItemTypeOf: only files and containers are resource types in this model; the host framework's mapping of the other types is not part of this model.
- PublicLinks.UpdatePublicShare: the database's failure is a parameter; the ORM refusing a zero key is the only write error modelled from the code.
- UserRest.UserGroups: group names are lowercased for ASCII letters only; Go's `strings.ToLower` also folds other Unicode letters.
- UserRest.Config.ApplyDefaults: the seven conditional assignments are written as assignments of "the value, or the default when zero", which has the same effect.
- UserRest.UserTypeOf: never yields a federated account, so the "l" namespace in practice finds lightweight accounts only.
- The field names of the share records follow the newer record layout used by the migration and the public-link code (`LinkName`, a description on the record).

## Findings

| source | as written | input that shows it | evidently intended | confidence | as-written member | corrected member |
|---|---|---|---|---|---|---|
| share/sql/public_link.go:245-255 | `First` runs before `Where("token = ?")`, so the token never restricts the lookup | a table holding one visible link whose token differs from the requested one: that link is returned | return only a link with the requested token, NotFound otherwise | high, not executed | PublicLinks.GetLinkByTokenAsWritten, PublicLinks.TokenIgnoredAsWritten | PublicLinks.GetLinkByToken |
| storage/eoswrapper/eoswrapper.go:97-101 | the driver is type-asserted before the error is checked | `NewEOSFS` returning a nil driver with an error: the assertion panics | return the driver error | medium, not executed | EosWrapper.NewOutcomeAsWritten, EosWrapper.NewPanicsOnDriverError | EosWrapper.NewOutcome |
| share/model.go:193-209 | a share with a group yields a USER grantee and any other share a GROUP grantee | a migrated group share (old type 1): its CS3 grantee is a user, which maps back to share type 0 | a group grantee for a group share, a user grantee with the user type otherwise | high, not executed | ShareModel.ExtractGranteeAsWritten, ShareModel.AsCs3Share, ShareMigrate.MigratedGroupShareGranteeAsWritten | ShareModel.ExtractGrantee, ShareModel.AsCs3ShareIntended, ShareMigrate.MigratedShareGranteeType |
