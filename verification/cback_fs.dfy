/** The backup browser as a read-only storage driver: a cache of catalogue
    answers in front of the catalogue client (cback/storage/cache.go), and
    GetMD, ListFolder and Download built on it (cback/storage/cback.go). */
module CbackStorage {
  import opened Wrappers
  import opened GoStrings
  import opened GoPath
  import opened Cs3
  import opened CbackTypes
  import opened CbackFs
  import opened CbackCache
  import opened Seqs

  /** The user found in the request context. */
  datatype User = User(username: string, id: UserId)

  /** Every backup source the catalogue reports is, once passed through the
      to-storage template, a clean absolute path: the paths split resolves
      against. */
  ghost predicate CatalogClean(backupsOf: string -> Result<seq<Backup>>, tplStorage: string -> string)
  {
    forall u :: backupsOf(u).Ok? ==> SourcesClean(RewriteSources(backupsOf(u).value, tplStorage))
  }

  /** The entries of a folder inside a snapshot, in the catalogue's
      order, each with its own id and the folder's id as parent. */
  method ListSnapshotContent(content: seq<Resource>, loc: Location, owner: UserId) returns (res: seq<ResourceInfo>)
    ensures res == SnapshotEntries(content, loc, owner)
  {
    res := [];
    var i := 0;
    while i < |content|
      invariant 0 <= i <= |content|
      invariant res == SnapshotEntries(content[..i], loc, owner)
    {
      var info := SnapshotEntry(content[i], loc, owner);
      MapSeqSnoc(EntryOf(loc, owner), content, i);
      res := res + [info];
      i := i + 1;
    }
    assert content[..i] == content;
  }

  /** No backup holds the path: one placeholder folder per name leading
      towards a backup below it, each once, in order of first
      occurrence; NotFound when there is none. */
  method ListAncestors(path: string, backups: seq<Backup>, owner: UserId) returns (r: Result<seq<ResourceInfo>>)
    requires Unmatched(path, backups)
    ensures r == AncestorListing(path, backups, owner)
  {
    var resSet: set<string> := {};
    var resources: seq<ResourceInfo> := [];
    var sourceSplit := if path != "/" then Split(path, '/') else [""];
    assert sourceSplit == PathNames(path);
    var i := 0;
    ghost var paths: seq<string> := [];
    while i < |backups|
      invariant 0 <= i <= |backups|
      invariant paths == NextPaths(path, backups[..i])
      invariant resources == Placeholders(Dedup(paths), owner)
      invariant SameElements(resSet, paths)
    {
      var b := backups[i];
      var backupSplit := Split(b.source, '/');
      ghost var next := NextPaths(path, backups[..i + 1]);
      AncestorEntry(path, backups, i, backupSplit, sourceSplit, paths, next);
      match NamesHavePrefix(backupSplit, sourceSplit) {
        case IndexPanic =>
          assert false;
        case Done(isPrefix) =>
          if isPrefix {
            var entry := Join([path, backupSplit[|sourceSplit|]]);
            DedupStep(paths, entry, resSet, resources, owner);
            if entry !in resSet {
              resources := resources + [PlaceholderResourceInfo(entry, owner, None, None)];
              resSet := resSet + {entry};
            }
          }
      }
      paths := next;
      i := i + 1;
    }
    assert backups[..i] == backups;
    if |resources| != 0 {
      r := Ok(resources);
      return;
    }
    r := Err(NotFound("path " + path + " does not exist"));
  }

  class Fs {
    const client: CatalogClient
    /** The to-storage and to-cback path templates. */
    const tplStorage: string -> string
    const tplCback: string -> string
    /** The configured timestamp format, both ways; parsing may fail. */
    const formatTime: int -> string
    const parseTime: string -> Option<int>
    var cache: map<string, CacheValue>
    /** The request each cached entry was stored for. */
    ghost var origin: map<string, Request>

    // -------------------------------------------------------------------
    // What the catalogue answers, after the rewriting the cache applies

    function FetchBackups(user: string): Result<seq<Backup>>
    {
      match client.backupsOf(user)
      case Err(e) => Err(e)
      case Ok(backups) => Ok(RewriteSources(backups, tplStorage))
    }

    function FetchStat(user: string, id: int, snapshot: string, path: string): Result<Resource>
    {
      client.statOf(user, id, snapshot, path)
    }

    /** The listing is asked for at the to-cback templated path. */
    function FetchListing(user: string, id: int, snapshot: string, path: string): Result<seq<Resource>>
    {
      client.listingOf(user, id, snapshot, tplCback(path))
    }

    function FetchSnapshots(user: string, id: int): Result<seq<Snapshot>>
    {
      match client.snapshotsOf(user, id)
      case Err(e) => Err(e)
      case Ok(snaps) => Ok(TruncateTimes(snaps, formatTime, parseTime))
    }

    function Fetch(req: Request): Result<CacheValue>
    {
      match req
      case BackupsOf(u) =>
        (match FetchBackups(u) case Err(e) => Err(e) case Ok(v) => Ok(Backups(v)))
      case StatOf(u, id, snap, p) =>
        (match FetchStat(u, id, snap, p) case Err(e) => Err(e) case Ok(v) => Ok(Stat(v)))
      case ListOf(u, id, snap, p) =>
        (match FetchListing(u, id, snap, p) case Err(e) => Err(e) case Ok(v) => Ok(Listing(v)))
      case SnapshotsOf(u, id) =>
        (match FetchSnapshots(u, id) case Err(e) => Err(e) case Ok(v) => Ok(Snapshots(v)))
    }

    /** Every cached entry is what the catalogue answers, rewritten, to the
        request it was stored for, and that request has the entry's key. */
    ghost predicate Valid()
      reads this
    {
      CatalogClean(client.backupsOf, tplStorage) &&
      forall k :: k in cache ==> k in origin && Key(origin[k]) == k && Fetch(origin[k]) == Ok(cache[k])
    }

    /** No entry was stored for a request whose key another request can
        share. */
    ghost predicate OriginsUnambiguous()
      reads this
    {
      forall k :: k in origin ==> Unambiguous(origin[k])
    }

    constructor (client: CatalogClient, tplStorage: string -> string, tplCback: string -> string,
                 formatTime: int -> string, parseTime: string -> Option<int>)
      requires CatalogClean(client.backupsOf, tplStorage)
      ensures this.client == client && this.tplStorage == tplStorage && this.tplCback == tplCback
      ensures this.formatTime == formatTime && this.parseTime == parseTime
      ensures cache == map[] && Valid() && OriginsUnambiguous()
    {
      this.client := client;
      this.tplStorage := tplStorage;
      this.tplCback := tplCback;
      this.formatTime := formatTime;
      this.parseTime := parseTime;
      cache := map[];
      origin := map[];
    }

    /** A hit holds a value of the kind the request asks for, and, when no
        other request can share the key, the answer to that very request. */
    lemma CachedAnswer(req: Request)
      requires Valid() && Key(req) in cache
      ensures Key(req) in origin && Fetch(origin[Key(req)]) == Ok(cache[Key(req)])
      ensures origin[Key(req)].BackupsOf? == req.BackupsOf? && origin[Key(req)].StatOf? == req.StatOf?
      ensures origin[Key(req)].ListOf? == req.ListOf? && origin[Key(req)].SnapshotsOf? == req.SnapshotsOf?
      ensures req.BackupsOf? || (Unambiguous(req) && OriginsUnambiguous()) ==> origin[Key(req)] == req
    {
      var o := origin[Key(req)];
      if o.BackupsOf? != req.BackupsOf? || o.StatOf? != req.StatOf? || o.ListOf? != req.ListOf? {
        KeyFamiliesDiffer(o, req);
      }
      if req.BackupsOf? {
        BackupsKeyUnique(req, o);
      } else if Unambiguous(req) && OriginsUnambiguous() {
        KeyInjective(o, req);
      }
    }

    // -------------------------------------------------------------------
    // The cache-aside operations (cache.go)

    /** listBackups: the user's backups with every source passed through
        the to-storage template. A backup list is never confused with
        another entry, so the answer is always the catalogue's. */
    method CachedListBackups(user: string) returns (r: Result<seq<Backup>>)
      requires Valid()
      modifies this, client
      ensures Valid()
      ensures r == FetchBackups(user)
      ensures old(OriginsUnambiguous()) ==> OriginsUnambiguous()
      ensures Key(BackupsOf(user)) in old(cache) ==>
        r.Ok? && old(cache)[Key(BackupsOf(user))] == Backups(r.value) &&
        cache == old(cache) && client.calls == old(client.calls)
      ensures Key(BackupsOf(user)) !in old(cache) ==>
        client.calls == old(client.calls) + [ListBackupsCall(user)] &&
        (r.Err? ==> cache == old(cache)) &&
        (r.Ok? ==> cache == old(cache) || cache == old(cache)[Key(BackupsOf(user)) := Backups(r.value)])
    {
      var key := "backups:" + user;
      if key in cache {
        CachedAnswer(BackupsOf(user));
        r := Ok(cache[key].backups);
        return;
      }
      var fetched := client.ListBackups(user);
      if fetched.Err? {
        r := Err(fetched.error);
        return;
      }
      var backups := fetched.value;
      var i := 0;
      while i < |backups|
        invariant 0 <= i <= |backups| == |fetched.value|
        invariant forall j :: 0 <= j < i ==> backups[j] == fetched.value[j].(source := tplStorage(fetched.value[j].source))
        invariant forall j :: i <= j < |backups| ==> backups[j] == fetched.value[j]
      {
        backups := backups[i := backups[i].(source := tplStorage(backups[i].source))];
        i := i + 1;
      }
      assert backups == RewriteSources(fetched.value, tplStorage);
      // a failed insert is ignored
      var stored: bool :| true;
      if stored {
        cache := cache[key := Backups(backups)];
        origin := origin[key := BackupsOf(user)];
      }
      r := Ok(backups);
    }

    /** stat: the catalogue's metadata of one entry of a snapshot. */
    method CachedStat(user: string, id: int, snapshot: string, path: string) returns (r: Result<Resource>)
      requires Valid()
      modifies this, client
      ensures Valid()
      ensures Unambiguous(StatOf(user, id, snapshot, path)) && old(OriginsUnambiguous()) ==>
        r == FetchStat(user, id, snapshot, path) && OriginsUnambiguous()
      ensures Key(StatOf(user, id, snapshot, path)) in old(cache) ==>
        r.Ok? && old(cache)[Key(StatOf(user, id, snapshot, path))] == Stat(r.value) &&
        cache == old(cache) && client.calls == old(client.calls)
      ensures Key(StatOf(user, id, snapshot, path)) !in old(cache) ==>
        r == FetchStat(user, id, snapshot, path) &&
        client.calls == old(client.calls) + [StatCall(user, id, snapshot, path)] &&
        (r.Err? ==> cache == old(cache)) &&
        (r.Ok? ==> cache == old(cache) || cache == old(cache)[Key(StatOf(user, id, snapshot, path)) := Stat(r.value)])
    {
      var key := Key(StatOf(user, id, snapshot, path));
      if key in cache {
        CachedAnswer(StatOf(user, id, snapshot, path));
        r := Ok(cache[key].resource);
        return;
      }
      var s := client.Stat(user, id, snapshot, path);
      if s.Err? {
        r := Err(s.error);
        return;
      }
      var stored: bool :| true;
      if stored {
        cache := cache[key := Stat(s.value)];
        origin := origin[key := StatOf(user, id, snapshot, path)];
      }
      r := Ok(s.value);
    }

    /** listFolder: the key holds the path as given, the catalogue is asked
        at the to-cback templated path. */
    method CachedListFolder(user: string, id: int, snapshot: string, path: string) returns (r: Result<seq<Resource>>)
      requires Valid()
      modifies this, client
      ensures Valid()
      ensures Unambiguous(ListOf(user, id, snapshot, path)) && old(OriginsUnambiguous()) ==>
        r == FetchListing(user, id, snapshot, path) && OriginsUnambiguous()
      ensures Key(ListOf(user, id, snapshot, path)) in old(cache) ==>
        r.Ok? && old(cache)[Key(ListOf(user, id, snapshot, path))] == Listing(r.value) &&
        cache == old(cache) && client.calls == old(client.calls)
      ensures Key(ListOf(user, id, snapshot, path)) !in old(cache) ==>
        r == FetchListing(user, id, snapshot, path) &&
        client.calls == old(client.calls) + [ListFolderCall(user, id, snapshot, tplCback(path))] &&
        (r.Err? ==> cache == old(cache)) &&
        (r.Ok? ==> cache == old(cache) || cache == old(cache)[Key(ListOf(user, id, snapshot, path)) := Listing(r.value)])
    {
      var key := Key(ListOf(user, id, snapshot, path));
      if key in cache {
        CachedAnswer(ListOf(user, id, snapshot, path));
        r := Ok(cache[key].entries);
        return;
      }
      var l := client.ListFolder(user, id, snapshot, tplCback(path));
      if l.Err? {
        r := Err(l.error);
        return;
      }
      var stored: bool :| true;
      if stored {
        cache := cache[key := Listing(l.value)];
        origin := origin[key := ListOf(user, id, snapshot, path)];
      }
      r := Ok(l.value);
    }

    /** listSnapshots: the snapshots of a backup with every time cut to
        the precision of the configured format. */
    method CachedListSnapshots(user: string, id: int) returns (r: Result<seq<Snapshot>>)
      requires Valid()
      modifies this, client
      ensures Valid()
      ensures Unambiguous(SnapshotsOf(user, id)) && old(OriginsUnambiguous()) ==>
        r == FetchSnapshots(user, id) && OriginsUnambiguous()
      ensures Key(SnapshotsOf(user, id)) in old(cache) ==>
        r.Ok? && old(cache)[Key(SnapshotsOf(user, id))] == Snapshots(r.value) &&
        cache == old(cache) && client.calls == old(client.calls)
      ensures Key(SnapshotsOf(user, id)) !in old(cache) ==>
        r == FetchSnapshots(user, id) &&
        client.calls == old(client.calls) + [ListSnapshotsCall(user, id)] &&
        (r.Err? ==> cache == old(cache)) &&
        (r.Ok? ==> cache == old(cache) || cache == old(cache)[Key(SnapshotsOf(user, id)) := Snapshots(r.value)])
    {
      var key := Key(SnapshotsOf(user, id));
      if key in cache {
        CachedAnswer(SnapshotsOf(user, id));
        r := Ok(cache[key].snapshots);
        return;
      }
      var fetched := client.ListSnapshots(user, id);
      if fetched.Err? {
        r := Err(fetched.error);
        return;
      }
      var snaps := fetched.value;
      var i := 0;
      while i < |snaps|
        invariant 0 <= i <= |snaps| == |fetched.value|
        invariant forall j :: 0 <= j < i ==>
          snaps[j] == fetched.value[j].(time := Truncate(fetched.value[j].time, formatTime, parseTime))
        invariant forall j :: i <= j < |snaps| ==> snaps[j] == fetched.value[j]
      {
        // a time the format cannot parse back becomes the zero time
        var t := match parseTime(formatTime(snaps[i].time)) case Some(t) => t case None => ZeroTime;
        snaps := snaps[i := snaps[i].(time := t)];
        i := i + 1;
      }
      assert snaps == TruncateTimes(fetched.value, formatTime, parseTime);
      var stored: bool :| true;
      if stored {
        cache := cache[key := Snapshots(snaps)];
        origin := origin[key := SnapshotsOf(user, id)];
      }
      r := Ok(snaps);
    }

    // -------------------------------------------------------------------
    // getSnapshot

    /** The snapshot of a backup taken at the time `timestamp` names. A
        timestamp the format cannot parse is an error, as is a time no
        snapshot was taken at. */
    function GetSnapshotSpec(user: string, backupId: int, timestamp: string): (r: Result<Snapshot>)
      ensures r.Ok? ==> FetchSnapshots(user, backupId).Ok? && r.value in FetchSnapshots(user, backupId).value
      ensures r.Ok? ==> parseTime(timestamp) == Some(r.value.time)
      ensures FetchSnapshots(user, backupId).Ok? && parseTime(timestamp).Some? ==>
        (r.Err? <==> forall s :: s in FetchSnapshots(user, backupId).value ==> s.time != parseTime(timestamp).value)
    {
      match FetchSnapshots(user, backupId)
      case Err(e) => Err(e)
      case Ok(snaps) =>
        match parseTime(timestamp)
        case None => Err(Internal("cannot parse time " + timestamp))
        case Some(t) =>
          match FindSnapshot(snaps, t)
          case Some(s) => Ok(s)
          case None => Err(NotFound("snapshot " + timestamp + " from backup " + FormatInt(backupId) + " not found"))
    }

    method GetSnapshot(user: string, backupId: int, timestamp: string) returns (r: Result<Snapshot>)
      requires Valid()
      modifies this, client
      ensures Valid()
      ensures ':' !in user && old(OriginsUnambiguous()) ==>
        r == GetSnapshotSpec(user, backupId, timestamp) && OriginsUnambiguous()
      ensures client.calls == old(client.calls) || client.calls == old(client.calls) + [ListSnapshotsCall(user, backupId)]
    {
      var snaps := CachedListSnapshots(user, backupId);
      if snaps.Err? {
        r := Err(snaps.error);
        return;
      }
      var t := parseTime(timestamp);
      if t.None? {
        r := Err(Internal("cannot parse time " + timestamp));
        return;
      }
      match FindSnapshot(snaps.value, t.value) {
        case Some(s) => r := Ok(s);
        case None => r := Err(NotFound("snapshot " + timestamp + " from backup " + FormatInt(backupId) + " not found"));
      }
    }

    // -------------------------------------------------------------------
    // GetMD

    /** The cache keys GetMD may use for this user and reference hold no
        ':' of their own, so no entry of another request can answer them. */
    predicate PlainKeys(user: Option<User>, ref: Reference)
      requires CatalogClean(client.backupsOf, tplStorage)
      requires ref.resourceId.None? ==> CleanAbs(ref.path)
    {
      user.Some? ==>
        ':' !in user.value.username &&
        match FetchBackups(user.value.username)
        case Err(_) => true
        case Ok(backups) => ':' !in GetMDLocation(ref, backups, tplCback).snapshot
    }

    /** What GetMD answers once it has chosen `plan` for user `u`. */
    function PlanAnswer(u: User, plan: MDPlan): (r: Result<ResourceInfo>)
      ensures r.Ok? ==> r.value.owner == u.id
      ensures r.Ok? && r.value.kind == FileType ==> plan.StatEntry? && r.value.id == plan.id
      ensures plan.Folder? ==> r == Ok(PlaceholderResourceInfo(plan.path, u.id, None, None))
      ensures plan.NoSuchPath? ==> r.Err? && r.error.NotFound?
    {
      match plan
      case StatEntry(id, snap, statPath, path, rid, pid) =>
        (match FetchStat(u.username, id, snap, statPath)
         case Err(e) => Err(e)
         case Ok(res) => Ok(ConvertToResourceInfo(res, path, rid, pid, u.id)))
      case SnapshotFolder(id, snap, path, rid) =>
        (match GetSnapshotSpec(u.username, id, snap)
         case Err(e) => Err(Wrapped("cback: error getting snapshot", e))
         case Ok(s) => Ok(PlaceholderResourceInfo(path, u.id, Some(TimeToTimestamp(s.time)), Some(rid))))
      case Folder(path) => Ok(PlaceholderResourceInfo(path, u.id, None, None))
      case NoSuchPath(path) => Err(NotFound("path " + path + " does not exist"))
      case AncestorPanic => Err(Panic("index out of range"))
    }

    /** GetMD's answer against the catalogue: the plan PlanGetMD chooses,
        carried out. */
    function GetMDSpec(user: Option<User>, ref: Reference): (r: Result<ResourceInfo>)
      requires CatalogClean(client.backupsOf, tplStorage)
      requires ref.resourceId.None? ==> CleanAbs(ref.path)
      ensures user.None? ==> r == Err(UserRequired("cback: user not found in context"))
      ensures r.Ok? ==> r.value.owner == user.value.id
      ensures r.Ok? && r.value.kind == FileType ==> r.value.id.storageId == CbackStorageId
    {
      if user.None? then Err(UserRequired("cback: user not found in context"))
      else
        match FetchBackups(user.value.username)
        case Err(e) => Err(Wrapped("cback: error listing backups", e))
        case Ok(backups) => PlanAnswer(user.value, PlanGetMD(ref, backups, tplCback))
    }

    method GetMD(user: Option<User>, ref: Reference) returns (r: Result<ResourceInfo>)
      requires Valid() && (ref.resourceId.None? ==> CleanAbs(ref.path))
      modifies this, client
      ensures Valid()
      ensures old(OriginsUnambiguous()) && PlainKeys(user, ref) ==> r == GetMDSpec(user, ref) && OriginsUnambiguous()
      ensures user.None? ==> r.Err? && cache == old(cache) && client.calls == old(client.calls)
    {
      if user.None? {
        r := Err(UserRequired("cback: user not found in context"));
        return;
      }
      var u := user.value;
      var listed := CachedListBackups(u.username);
      if listed.Err? {
        r := Err(Wrapped("cback: error listing backups", listed.error));
        return;
      }
      var backups := listed.value;
      var loc := GetMDLocation(ref, backups, tplCback);
      r := AnswerAt(u, loc, backups);
    }

    /** The branches of GetMD once the location is known: stat an entry of
        a snapshot, fetch a snapshot, or report a folder; when nothing
        matched, the ancestor test runs on the location's source. */
    method AnswerAt(u: User, loc: Location, backups: seq<Backup>) returns (r: Result<ResourceInfo>)
      requires Valid()
      modifies this, client
      ensures Valid()
      ensures old(OriginsUnambiguous()) && ':' !in u.username && ':' !in loc.snapshot ==>
        r == PlanAnswer(u, PlanFor(loc, backups)) && OriginsUnambiguous()
    {
      if loc.ok {
        if loc.snapshot != "" && loc.path != "" {
          var res := CachedStat(u.username, loc.backupId, loc.snapshot, Join([loc.source, loc.path]));
          if res.Err? {
            r := Err(res.error);
            return;
          }
          r := Ok(ConvertToResourceInfo(res.value, Join([loc.source, loc.snapshot, loc.path]),
            EncodeBackupInResourceId(loc.backupId, loc.snapshot, loc.source, loc.path),
            EncodeBackupInResourceId(loc.backupId, loc.snapshot, loc.source, Dir(loc.path)),
            u.id));
          return;
        } else if loc.snapshot != "" {
          var snap := GetSnapshot(u.username, loc.backupId, loc.snapshot);
          if snap.Err? {
            r := Err(Wrapped("cback: error getting snapshot", snap.error));
            return;
          }
          r := Ok(PlaceholderResourceInfo(Join([loc.source, loc.snapshot]), u.id, Some(TimeToTimestamp(snap.value.time)),
            Some(EncodeBackupInResourceId(loc.backupId, loc.snapshot, loc.source, ""))));
          return;
        }
        r := Ok(PlaceholderResourceInfo(loc.source, u.id, None, None));
        return;
      }
      // the ancestor test looks at the source, not at the path asked for
      match IsParentOfBackup(loc.source, backups) {
        case IndexPanic => r := Err(Panic("index out of range"));
        case Done(isParent) =>
          if isParent {
            r := Ok(PlaceholderResourceInfo(loc.source, u.id, None, None));
          } else {
            r := Err(NotFound("path " + loc.source + " does not exist"));
          }
      }
    }

    // -------------------------------------------------------------------
    // ListFolder

    /** ListFolder's answer against the catalogue. Only the path of the
        reference is looked at. */
    function ListFolderSpec(user: Option<User>, path: string): (r: Result<seq<ResourceInfo>>)
      requires CatalogClean(client.backupsOf, tplStorage) && CleanAbs(path)
      ensures user.None? ==> r == Err(UserRequired("cback: user not found in context"))
    {
      if user.None? then Err(UserRequired("cback: user not found in context"))
      else
        var u := user.value;
        match FetchBackups(u.username)
        case Err(e) => Err(Wrapped("cback: error listing backups", e))
        case Ok(backups) =>
          var loc := SplitPath(path, backups);
          if loc.ok then
            if loc.snapshot != "" then
              match FetchListing(u.username, loc.backupId, loc.snapshot, Join([loc.source, loc.path]))
              case Err(e) => Err(e)
              case Ok(content) => Ok(SnapshotEntries(content, loc, u.id))
            else
              match FetchSnapshots(u.username, loc.backupId)
              case Err(e) => Err(e)
              case Ok(snaps) => Ok(SnapshotFolders(snaps, loc, u.id, formatTime))
          else
            AncestorListing(path, backups, u.id)
    }

    method ListFolder(user: Option<User>, ref: Reference) returns (r: Result<seq<ResourceInfo>>)
      requires Valid() && CleanAbs(ref.path)
      modifies this, client
      ensures Valid()
      ensures old(OriginsUnambiguous()) && PlainKeys(user, Reference(None, ref.path)) ==>
        r == ListFolderSpec(user, ref.path) && OriginsUnambiguous()
      ensures user.None? ==> r.Err? && cache == old(cache) && client.calls == old(client.calls)
    {
      if user.None? {
        r := Err(UserRequired("cback: user not found in context"));
        return;
      }
      var u := user.value;
      var listed := CachedListBackups(u.username);
      if listed.Err? {
        r := Err(Wrapped("cback: error listing backups", listed.error));
        return;
      }
      var backups := listed.value;
      var loc := SplitPath(ref.path, backups);
      assert loc.snapshot == GetMDLocation(Reference(None, ref.path), backups, tplCback).snapshot;
      if loc.ok {
        if loc.snapshot != "" {
          var content := CachedListFolder(u.username, loc.backupId, loc.snapshot, Join([loc.source, loc.path]));
          if content.Err? {
            r := Err(content.error);
            return;
          }
          var res := ListSnapshotContent(content.value, loc, u.id);
          r := Ok(res);
          return;
        }
        var snapshots := CachedListSnapshots(u.username, loc.backupId);
        if snapshots.Err? {
          r := Err(snapshots.error);
          return;
        }
        var res := ListSnapshotFolders(snapshots.value, loc, u.id);
        r := Ok(res);
        return;
      }
      r := ListAncestors(ref.path, backups, u.id);
    }

    /** The snapshots of a backup as folders named by their formatted
        times, in the catalogue's order. */
    method ListSnapshotFolders(snaps: seq<Snapshot>, loc: Location, owner: UserId) returns (res: seq<ResourceInfo>)
      ensures res == SnapshotFolders(snaps, loc, owner, formatTime)
    {
      res := [];
      var i := 0;
      while i < |snaps|
        invariant 0 <= i <= |snaps|
        invariant res == SnapshotFolders(snaps[..i], loc, owner, formatTime)
      {
        var snapTime := formatTime(snaps[i].time);
        MapSeqSnoc(FolderOf(loc, owner, formatTime), snaps, i);
        res := res + [SnapshotFolderEntry(snaps[i], snapTime, loc, owner)];
        i := i + 1;
      }
      assert snaps[..i] == snaps;
    }

    // -------------------------------------------------------------------
    // Download

    /** Download's answer against the catalogue: the content of the file
        GetMD reports, fetched at the place its id names. */
    function DownloadSpec(user: Option<User>, ref: Reference): (r: Result<string>)
      requires CatalogClean(client.backupsOf, tplStorage)
      requires ref.resourceId.None? ==> CleanAbs(ref.path)
      ensures user.None? ==> r == Err(UserRequired("cback: user not found in context"))
      ensures user.Some? && GetMDSpec(user, ref).Ok? && GetMDSpec(user, ref).value.kind != FileType ==>
        r == Err(BadRequest("cback: can only download files"))
    {
      if user.None? then Err(UserRequired("cback: user not found in context"))
      else
        match GetMDSpec(user, ref)
        case Err(e) => Err(Wrapped("cback: error statting resource", e))
        case Ok(stat) =>
          match DownloadTarget(stat, tplCback)
          case Err(e) => Err(e)
          case Ok(t) => client.contentOf(user.value.username, t.backupId, t.snapshot, t.path)
    }

    method Download(user: Option<User>, ref: Reference) returns (r: Result<string>)
      requires Valid() && (ref.resourceId.None? ==> CleanAbs(ref.path))
      modifies this, client
      ensures Valid()
      ensures old(OriginsUnambiguous()) && PlainKeys(user, ref) ==> r == DownloadSpec(user, ref) && OriginsUnambiguous()
    {
      if user.None? {
        r := Err(UserRequired("cback: user not found in context"));
        return;
      }
      var stat := GetMD(user, ref);
      if stat.Err? {
        r := Err(Wrapped("cback: error statting resource", stat.error));
        return;
      }
      match DownloadTarget(stat.value, tplCback) {
        case Err(e) => r := Err(e);
        case Ok(t) => r := client.Download(user.value.username, t.backupId, t.snapshot, t.path);
      }
    }
  }
}
