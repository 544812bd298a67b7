/** The pure decisions of the cback backup browser: resolving a virtual path
    onto a backup, the opaque resource-id codec, the ancestor test, the
    record builders, and which branch GetMD and ListFolder take. */
module CbackFs {
  import opened Wrappers
  import opened GoStrings
  import opened GoPath
  import opened Base64
  import opened Cs3
  import opened CbackTypes
  import opened Seqs

  /** Where a virtual path or an opaque id leads: the backup's source
      directory, the snapshot, the path inside the snapshot and the backup
      id; `ok` is false when nothing matched. */
  datatype Location = Location(source: string, snapshot: string, path: string, backupId: int, ok: bool)

  const NoLocation := Location("", "", "", 0, false)

  /** The outcome of code that may index past the end of a slice. */
  datatype Checked<T> = Done(value: T) | IndexPanic

  predicate SourcesClean(backups: seq<Backup>)
  {
    forall i :: 0 <= i < |backups| ==> CleanAbs(backups[i].source)
  }

  /** Backup `k` is the first, in list order, whose source is a string
      prefix of `path`. */
  predicate IsFirstMatch(path: string, backups: seq<Backup>, k: int)
  {
    0 <= k < |backups| && HasPrefix(path, backups[k].source) &&
    forall j :: 0 <= j < k ==> !HasPrefix(path, backups[j].source)
  }

  /** `child` is `dir` itself or lies below it at a name boundary. */
  predicate AtOrBelow(dir: string, child: string)
  {
    HasPrefix(child, dir) && (child == dir || dir == "/" || child[|dir|] == '/')
  }

  /** The entry `name` of directory `dir`. */
  function Child(dir: string, name: string): string
  {
    if dir == "/" then "/" + name else dir + "/" + name
  }

  /** The virtual path a location stands for: the source, then the
      snapshot, then the path inside it. */
  function Rejoin(loc: Location): string
  {
    if loc.snapshot == "" then loc.source
    else if loc.path == "" then Child(loc.source, loc.snapshot)
    else Child(Child(loc.source, loc.snapshot), loc.path)
  }

  lemma SplitRel(rel: string)
    requires rel != "" && rel[0] != '/' && rel[|rel| - 1] != '/'
    ensures var parts := SplitN(rel, '/', 2);
      parts[0] != "" && '/' !in parts[0] &&
      (|parts| == 1 ==> rel == parts[0]) &&
      (|parts| == 2 ==> parts[1] != "" && rel == parts[0] + "/" + parts[1])
  {
    var j := IndexByte(rel, '/');
    if j >= 0 {
      assert rel[..j] + "/" + rel[j + 1..] == rel;
      assert SplitN(rel, '/', 2) == [rel[..j], rel[j + 1..]];
    }
  }

  /** The resolution once backup `b` has matched (cback.go, the body of the
      loop in split). */
  function Within(b: Backup, path: string): (r: Location)
    requires CleanAbs(b.source) && CleanAbs(path) && HasPrefix(path, b.source)
    ensures r.ok && r.source == b.source && r.backupId == b.id
    ensures path == b.source ==> r.snapshot == "" && r.path == ""
    ensures path != b.source ==> r.snapshot != "" && '/' !in r.snapshot
  {
    var rel := Rel(b.source, path);
    RelIsDot(b.source, path);
    if rel == "." then Location(b.source, "", "", b.id, true)
    else
      RelShape(b.source, path);
      SplitRel(rel);
      var parts := SplitN(rel, '/', 2);
      Location(b.source, parts[0], if |parts| == 2 then parts[1] else "", b.id, true)
  }

  /** split: the first backup whose source is a string prefix of the path
      decides; no such backup gives NoLocation. */
  function SplitPath(path: string, backups: seq<Backup>): (r: Location)
    requires CleanAbs(path) && SourcesClean(backups)
    ensures !r.ok <==> forall k :: 0 <= k < |backups| ==> !HasPrefix(path, backups[k].source)
    ensures !r.ok ==> r == NoLocation
    ensures r.ok ==> exists k :: IsFirstMatch(path, backups, k) && r == Within(backups[k], path)
  {
    if backups == [] then NoLocation
    else if HasPrefix(path, backups[0].source) then
      assert IsFirstMatch(path, backups, 0);
      Within(backups[0], path)
    else
      var r := SplitPath(path, backups[1..]);
      assert forall k :: 1 <= k < |backups| ==> backups[k] == backups[1..][k - 1];
      assert r.ok ==> exists k :: IsFirstMatch(path, backups[1..], k) && r == Within(backups[1..][k], path);
      if r.ok then
        var k :| IsFirstMatch(path, backups[1..], k) && r == Within(backups[1..][k], path);
        assert IsFirstMatch(path, backups, k + 1);
        r
      else r
  }

  /** When the match ends at a name boundary, the location rebuilds the
      path: source, snapshot and rest are consecutive pieces of it. */
  lemma WithinRejoin(b: Backup, path: string)
    requires CleanAbs(b.source) && CleanAbs(path) && AtOrBelow(b.source, path)
    ensures Rejoin(Within(b, path)) == path
  {
    if path != b.source {
      var rel := Rel(b.source, path);
      RelIsDot(b.source, path);
      RelShape(b.source, path);
      SplitRel(rel);
      ChildRel(b.source, path);
      var parts := SplitN(rel, '/', 2);
      assert Within(b, path) == Location(b.source, parts[0], if |parts| == 2 then parts[1] else "", b.id, true);
      if |parts| == 2 {
        ChildChild(b.source, parts[0], parts[1]);
      }
    }
  }

  lemma ChildChild(dir: string, a: string, b: string)
    requires a != ""
    ensures Child(Child(dir, a), b) == Child(dir, a + "/" + b)
  {
  }

  lemma ChildRel(dir: string, path: string)
    requires CleanAbs(dir) && CleanAbs(path) && AtOrBelow(dir, path) && path != dir
    ensures path == Child(dir, Rel(dir, path))
  {
    if dir == "/" {
      assert path == [path[0]] + path[1..];
    } else {
      assert path == path[..|dir|] + [path[|dir|]] + path[|dir| + 1..];
    }
  }

  /** Because the match is a plain string prefix, a source "/a/b" also
      matches "/a/bc/x", and the snapshot is then "..". */
  lemma WithinNotAtName(b: Backup, path: string)
    requires CleanAbs(b.source) && CleanAbs(path) && HasPrefix(path, b.source)
    requires !AtOrBelow(b.source, path)
    ensures Within(b, path).snapshot == ".."
  {
    var rel := Rel(b.source, path);
    var rest := path[LastSlash(b.source) + 1..];
    assert rel == ".." + "/" + rest;
    IndexByteOfJoin("..", '/', rest);
  }

  // ---------------------------------------------------------------------
  // The opaque resource id: "<id>#<snapshot>#<source>#<path>" in Base64

  const CbackStorageId := "cback"

  function EncodeBackupInResourceId(backupId: int, snapshot: string, source: string, path: string): (r: ResourceId)
    ensures r.storageId == CbackStorageId
  {
    ResourceId(CbackStorageId, EncodeString(FormatInt(backupId) + "#" + snapshot + "#" + source + "#" + path))
  }

  /** decodeResourceID: fails (with NoLocation) on a missing id, invalid
      Base64, fewer than four '#'-separated fields or a first field that is
      not a 64-bit integer. The storage id is not looked at. */
  function DecodeResourceId(id: Option<ResourceId>): (r: Location)
    ensures !r.ok ==> r == NoLocation
    ensures r.ok ==> id.Some? && IsInt64(r.backupId) && '#' !in r.snapshot && '#' !in r.source
  {
    if id.None? then NoLocation
    else
      match DecodeString(id.value.opaqueId)
      case None => NoLocation
      case Some(data) =>
        var fields := SplitN(data, '#', 4);
        if |fields| != 4 then NoLocation
        else
          match ParseInt(fields[0])
          case None => NoLocation
          case Some(n) => Location(fields[2], fields[1], fields[3], n, true)
  }

  lemma FormatIntByteString(x: int)
    ensures IsByteString(FormatInt(x)) && '#' !in FormatInt(x)
  {
    var s := FormatInt(x);
    assert forall i :: 0 <= i < |s| ==> s[i] != '#';
  }

  lemma SplitFour(a: string, b: string, c: string, d: string)
    requires '#' !in a && '#' !in b && '#' !in c
    ensures SplitN(a + "#" + b + "#" + c + "#" + d, '#', 4) == [a, b, c, d]
  {
    var cd := c + ['#'] + d;
    var bcd := b + ['#'] + cd;
    assert a + "#" + b + "#" + c + "#" + d == a + ['#'] + bcd;
    calc {
      SplitN(a + ['#'] + bcd, '#', 4);
      == { SplitNOfJoin(a, '#', bcd, 4); }
      [a] + SplitN(bcd, '#', 3);
      == { SplitNOfJoin(b, '#', cd, 3); }
      [a] + ([b] + SplitN(cd, '#', 2));
      == { SplitNOfJoin(c, '#', d, 2); }
      [a] + ([b] + ([c] + SplitN(d, '#', 1)));
    }
  }

  /** Decoding an encoded id gives back its four parts, as long as the
      snapshot and the source contain no '#' (the path may). */
  lemma DecodeEncodeResourceId(backupId: int, snapshot: string, source: string, path: string)
    requires IsInt64(backupId) && '#' !in snapshot && '#' !in source
    requires IsByteString(snapshot) && IsByteString(source) && IsByteString(path)
    ensures DecodeResourceId(Some(EncodeBackupInResourceId(backupId, snapshot, source, path)))
         == Location(source, snapshot, path, backupId, true)
  {
    var f := FormatInt(backupId);
    FormatIntByteString(backupId);
    var data := f + "#" + snapshot + "#" + source + "#" + path;
    assert IsByteString(data);
    DecodeEncodeString(data);
    SplitFour(f, snapshot, source, path);
    ParseFormatInt(backupId);
  }

  /** Rejected ids: a missing id, and strings that are not Base64. */
  lemma DecodeRejects(id: ResourceId)
    requires DecodeString(id.opaqueId).None?
    ensures DecodeResourceId(None) == NoLocation
    ensures DecodeResourceId(Some(id)) == NoLocation
  {
  }

  datatype BackupInfo = BackupInfo(path: string, snapshot: string, backupId: int, ok: bool)

  /** GetBackupInfo: the source and the path inside the snapshot joined. */
  function GetBackupInfo(id: Option<ResourceId>): (r: BackupInfo)
    ensures r.ok == DecodeResourceId(id).ok
  {
    var loc := DecodeResourceId(id);
    BackupInfo(Join([loc.source, loc.path]), loc.snapshot, loc.backupId, loc.ok)
  }

  lemma GetBackupInfoOfEncoded(backupId: int, snapshot: string, source: string, path: string)
    requires IsInt64(backupId) && '#' !in snapshot && '#' !in source
    requires IsByteString(snapshot) && IsByteString(source) && IsByteString(path)
    ensures GetBackupInfo(Some(EncodeBackupInResourceId(backupId, snapshot, source, path)))
         == BackupInfo(Join([source, path]), snapshot, backupId, true)
  {
    DecodeEncodeResourceId(backupId, snapshot, source, path);
  }

  // ---------------------------------------------------------------------
  // Record builders

  /** The Unix seconds of a time as the uint64 of a CS3 timestamp: a time
      before 1970 wraps around. */
  function TimeToTimestamp(t: int): (r: nat)
    ensures r < 0x1_0000_0000_0000_0000
    ensures 0 <= t < 0x1_0000_0000_0000_0000 ==> r == t
    ensures t < 0 && -t <= 0x1_0000_0000_0000_0000 ==> r == t + 0x1_0000_0000_0000_0000
  {
    t % 0x1_0000_0000_0000_0000
  }

  /** convertToResourceInfo: a "dir" resource becomes a folder with the
      folder permissions, anything else a file; the change time serves as
      modification time and, in decimal, as etag. */
  function ConvertToResourceInfo(r: Resource, path: string, id: ResourceId, parentId: ResourceId, owner: UserId): (info: ResourceInfo)
    ensures info.kind == ContainerType <==> r.IsDir()
    ensures info.perms == PermDir <==> r.IsDir()
    ensures AllDigits(info.etag) && DecimalValue(info.etag) == info.mtime == r.ctime
    ensures info.path == path && info.id == id && info.parentId == Some(parentId)
    ensures info.size == r.size && info.owner == owner
  {
    DecimalValueOfNat(r.ctime);
    ResourceInfo(
      if r.IsDir() then ContainerType else FileType,
      id, Some(parentId), NatToDecimal(r.ctime), r.ctime, path,
      if r.IsDir() then PermDir else PermFile,
      r.size, owner)
  }

  /** placeholderResourceInfo: an empty folder with the folder permissions,
      no etag and no parent; the time defaults to 0 and the id to the path
      itself in the "cback" storage. */
  function PlaceholderResourceInfo(path: string, owner: UserId, mtime: Option<nat>, id: Option<ResourceId>): (info: ResourceInfo)
    ensures info.kind == ContainerType && info.perms == PermDir && info.size == 0 && info.parentId.None?
    ensures info.path == path && info.owner == owner
    ensures id.None? ==> info.id == ResourceId(CbackStorageId, path)
    ensures id.Some? ==> info.id == id.value
    ensures mtime.None? ==> info.mtime == 0
  {
    ResourceInfo(ContainerType,
      if id.Some? then id.value else ResourceId(CbackStorageId, path),
      None, "", if mtime.Some? then mtime.value else 0, path, PermDir, 0, owner)
  }

  // ---------------------------------------------------------------------
  // The ancestor test

  /** `prefix` is an element-wise prefix of `lst`. */
  predicate IsNamePrefix(prefix: seq<string>, lst: seq<string>)
  {
    |prefix| <= |lst| && lst[..|prefix|] == prefix
  }

  /** hasPrefix: compares lst[i] with prefix[i] for every i of `prefix`,
      stopping at the first difference; it has no length guard, so it reads
      past the end of `lst` when `lst` is a proper prefix of `prefix`. */
  function NamesHavePrefix(lst: seq<string>, prefix: seq<string>): (r: Checked<bool>)
    ensures r == IndexPanic <==> |lst| < |prefix| && prefix[..|lst|] == lst
    ensures r == Done(true) <==> IsNamePrefix(prefix, lst)
  {
    if prefix == [] then Done(true)
    else if lst == [] then IndexPanic
    else if lst[0] != prefix[0] then
      assert lst[..1] != prefix[..1];
      Done(false)
    else
      var r := NamesHavePrefix(lst[1..], prefix[1..]);
      assert lst == [lst[0]] + lst[1..] && prefix == [prefix[0]] + prefix[1..];
      r
  }

  /** The names of a path as isParentOfBackup and ListFolder split it:
      "/" gives [""]. */
  function PathNames(path: string): (names: seq<string>)
    ensures |names| >= 1
  {
    if path == "/" then [""] else Split(path, '/')
  }

  /** The ancestor test indexes past the end on backup `b`. */
  predicate PanicsOn(path: string, b: Backup)
  {
    NamesHavePrefix(Split(b.source, '/'), PathNames(path)) == IndexPanic
  }

  /** `path`, split into names, is a prefix of the names of `b`'s source. */
  predicate IsAncestorOf(path: string, b: Backup)
  {
    IsNamePrefix(PathNames(path), Split(b.source, '/'))
  }

  /** isParentOfBackup: true at the first backup whose names start with
      the names of `path`; IndexPanic when an earlier backup makes
      hasPrefix read past the end. */
  function IsParentOfBackup(path: string, backups: seq<Backup>): (r: Checked<bool>)
    ensures (forall k :: 0 <= k < |backups| ==> !PanicsOn(path, backups[k])) ==>
      (r == Done(true) <==> exists k :: 0 <= k < |backups| && IsAncestorOf(path, backups[k]))
    ensures r == Done(true) ==> exists k :: 0 <= k < |backups| && IsAncestorOf(path, backups[k])
    ensures r == IndexPanic ==> exists k :: 0 <= k < |backups| && PanicsOn(path, backups[k])
  {
    if backups == [] then Done(false)
    else
      match NamesHavePrefix(Split(backups[0].source, '/'), PathNames(path))
      case IndexPanic => IndexPanic
      case Done(true) => Done(true)
      case Done(false) =>
        var r := IsParentOfBackup(path, backups[1..]);
        assert forall k :: 1 <= k < |backups| ==> backups[k] == backups[1..][k - 1];
        r
  }

  /** hasPrefix cannot read past the end for a backup whose source is not a
      string prefix of `path`; and when it reports an ancestor, the backup
      has a name after those of `path` (the one ListFolder reads). */
  lemma NoPanicWhenUnmatched(path: string, b: Backup)
    requires !HasPrefix(path, b.source)
    ensures !PanicsOn(path, b)
    ensures IsAncestorOf(path, b) ==> |Split(b.source, '/')| > |PathNames(path)|
  {
    var names := Split(b.source, '/');
    var p := PathNames(path);
    if path != "/" && |names| < |p| && p[..|names|] == names {
      NamesPrefixIsPrefix(b.source, path);
    }
    if path != "/" {
      AncestorIsLonger(path, b.source);
    }
  }

  lemma AncestorIsLonger(path: string, source: string)
    requires path != source
    ensures var p := Split(path, '/'); var n := Split(source, '/');
      IsNamePrefix(p, n) ==> |n| > |p|
  {
    var p := Split(path, '/');
    var n := Split(source, '/');
    if IsNamePrefix(p, n) && |n| <= |p| {
      assert n == n[..|p|] == p;
      JoinSplit(path, '/');
      JoinSplit(source, '/');
    }
  }

  /** When the names of `s` are a proper prefix of those of `t`, `s` is a
      string prefix of `t`. */
  lemma NamesPrefixIsPrefix(s: string, t: string)
    requires var n := Split(s, '/'); var m := Split(t, '/');
      |n| < |m| && m[..|n|] == n
    ensures HasPrefix(t, s)
  {
    var n := Split(s, '/');
    var m := Split(t, '/');
    JoinSplit(s, '/');
    JoinSplit(t, '/');
    JoinExtends(n, m, '/');
    assert JoinWith(n, '/') == s && JoinWith(m, '/') == t;
  }

  /** No backup's source is a string prefix of `path`: split fails and
      ListFolder falls back to the ancestor listing. */
  predicate Unmatched(path: string, backups: seq<Backup>)
  {
    forall k :: 0 <= k < |backups| ==> !HasPrefix(path, backups[k].source)
  }

  /** The entry of directory `path` that leads towards backup `b`, when
      `path` is an ancestor of it (the body of ListFolder's last loop). A
      backup whose source is a string prefix of `path` never reaches that
      loop; it gets None. */
  function NextEntry(path: string, b: Backup): (r: Option<string>)
    ensures !HasPrefix(path, b.source) ==> (r.Some? <==> IsAncestorOf(path, b))
  {
    if !HasPrefix(path, b.source) && IsAncestorOf(path, b) then
      NoPanicWhenUnmatched(path, b);
      Some(Join([path, Split(b.source, '/')[|PathNames(path)|]]))
    else None
  }

  function NextEntryOf(path: string): Backup -> Option<string>
  {
    (b: Backup) => NextEntry(path, b)
  }

  /** The entries of every backup below `path`, in backup order and with
      repetitions. */
  function NextPaths(path: string, backups: seq<Backup>): (r: seq<string>)
    ensures |r| <= |backups|
  {
    FilterMap(NextEntryOf(path), backups)
  }

  /** The entries are exactly the next names of the backups below `path`. */
  lemma NextPathsElements(path: string, backups: seq<Backup>)
    ensures forall x :: x in NextPaths(path, backups) <==>
      exists k :: 0 <= k < |backups| && NextEntry(path, backups[k]) == Some(x)
  {
    FilterMapElements(NextEntryOf(path), backups);
  }

  /** One more backup adds its next entry, if it has one, at the end. */
  lemma NextPathsSnoc(path: string, backups: seq<Backup>, i: nat)
    requires i < |backups|
    ensures NextPaths(path, backups[..i + 1]) ==
      match NextEntry(path, backups[i])
      case Some(x) => NextPaths(path, backups[..i]) + [x]
      case None => NextPaths(path, backups[..i])
  {
    assert backups[..i + 1][..i] == backups[..i];
  }

  /** The ancestor test on the split names decides NextEntry; it cannot
      read past the end on a backup that did not match. */
  lemma EntryFromNames(path: string, b: Backup)
    requires !HasPrefix(path, b.source)
    ensures var names := Split(b.source, '/');
      match NamesHavePrefix(names, PathNames(path))
      case IndexPanic => false
      case Done(isPrefix) =>
        (isPrefix ==> (|names| > |PathNames(path)| &&
           NextEntry(path, b) == Some(Join([path, names[|PathNames(path)|]])))) &&
        (!isPrefix ==> NextEntry(path, b) == None)
  {
    NoPanicWhenUnmatched(path, b);
  }

  /** One backup of ListFolder's last loop: the ancestor test on its split
      names cannot read past the end, and it adds the backup's next entry
      to the paths seen so far exactly when it succeeds. */
  lemma AncestorEntry(path: string, backups: seq<Backup>, i: nat,
                      names: seq<string>, pathNames: seq<string>, prev: seq<string>, next: seq<string>)
    requires i < |backups| && Unmatched(path, backups)
    requires prev == NextPaths(path, backups[..i]) && next == NextPaths(path, backups[..i + 1])
    requires names == Split(backups[i].source, '/') && pathNames == PathNames(path)
    ensures match NamesHavePrefix(names, pathNames)
      case IndexPanic => false
      case Done(isPrefix) =>
        if !isPrefix then next == prev
        else |names| > |pathNames| && next == prev + [Join([path, names[|pathNames|]])]
  {
    NextPathsSnoc(path, backups, i);
    EntryFromNames(path, backups[i]);
  }

  /** Seeing one more path: the set-guarded append keeps the listing equal
      to the placeholders of the distinct paths and the set equal to their
      elements. */
  lemma DedupStep(prev: seq<string>, x: string, resSet: set<string>, resources: seq<ResourceInfo>, owner: UserId)
    requires resources == Placeholders(Dedup(prev), owner) && SameElements(resSet, prev)
    ensures x in resSet ==>
      resources == Placeholders(Dedup(prev + [x]), owner) && SameElements(resSet, prev + [x])
    ensures x !in resSet ==>
      resources + [PlaceholderResourceInfo(x, owner, None, None)] == Placeholders(Dedup(prev + [x]), owner) &&
      SameElements(resSet + {x}, prev + [x])
  {
    PlaceholdersDedupSnoc(prev, x, owner);
    SameElementsSnoc(resSet, prev, x);
  }

  /** Listing one more path keeps one placeholder per distinct path. */
  lemma PlaceholdersDedupSnoc(paths: seq<string>, x: string, owner: UserId)
    ensures Placeholders(Dedup(paths + [x]), owner) ==
      if x in paths then Placeholders(Dedup(paths), owner)
      else Placeholders(Dedup(paths), owner) + [PlaceholderResourceInfo(x, owner, None, None)]
  {
    assert (paths + [x])[..|paths|] == paths;
    if x !in paths {
      MapSeqAppend(PlaceholderOf(owner), Dedup(paths), x);
    }
  }

  /** ListFolder below an ancestor of backups: one placeholder folder per
      distinct next name, or NotFound when no backup lies below `path`. */
  function AncestorListing(path: string, backups: seq<Backup>, owner: UserId): (r: Result<seq<ResourceInfo>>)
    requires Unmatched(path, backups)
    ensures r.Err? <==> forall k :: 0 <= k < |backups| ==> !IsAncestorOf(path, backups[k])
    ensures r.Ok? ==> |r.value| == |Dedup(NextPaths(path, backups))| >= 1
    ensures r.Ok? ==> forall i :: 0 <= i < |r.value| ==>
      r.value[i] == PlaceholderResourceInfo(Dedup(NextPaths(path, backups))[i], owner, None, None)
  {
    var paths := Dedup(NextPaths(path, backups));
    NextPathsElements(path, backups);
    if paths == [] then
      assert forall k :: 0 <= k < |backups| ==> NextEntry(path, backups[k]).None?;
      Err(NotFound("path " + path + " does not exist"))
    else
      assert paths[0] in NextPaths(path, backups);
      Ok(Placeholders(paths, owner))
  }

  /** One placeholder folder per path, in order. */
  function Placeholders(paths: seq<string>, owner: UserId): (r: seq<ResourceInfo>)
    ensures |r| == |paths|
    ensures forall i :: 0 <= i < |r| ==> r[i] == PlaceholderResourceInfo(paths[i], owner, None, None)
  {
    MapSeq(PlaceholderOf(owner), paths)
  }

  function PlaceholderOf(owner: UserId): string -> ResourceInfo
  {
    (p: string) => PlaceholderResourceInfo(p, owner, None, None)
  }

  // ---------------------------------------------------------------------
  // GetMD: which answer a reference leads to

  /** A CS3 reference: an opaque id, a path, or an id and a path relative
      to it. */
  datatype Reference = Reference(resourceId: Option<ResourceId>, path: string)

  /** What GetMD does once the backups are known: stat an entry inside a
      snapshot, fetch a snapshot, report a folder, or report NotFound. */
  datatype MDPlan =
    | StatEntry(backupId: int, snapshot: string, statPath: string, path: string, id: ResourceId, parentId: ResourceId)
    | SnapshotFolder(backupId: int, snapshot: string, path: string, id: ResourceId)
    | Folder(path: string)
    | NoSuchPath(path: string)
    | AncestorPanic

  /** A path reference is resolved by split, which is modelled on clean
      absolute paths. */
  predicate Resolvable(ref: Reference, backups: seq<Backup>)
  {
    ref.resourceId.None? ==> CleanAbs(ref.path) && SourcesClean(backups)
  }

  /** The location GetMD works on: an id is decoded and `ref.path` joined
      to its path; a path is split and its source passed through the
      to-cback template, even when split found nothing. */
  function GetMDLocation(ref: Reference, backups: seq<Backup>, tplCback: string -> string): (loc: Location)
    requires Resolvable(ref, backups)
    ensures ref.resourceId.Some? ==> loc.ok == DecodeResourceId(ref.resourceId).ok
    ensures ref.resourceId.None? ==> loc.ok == SplitPath(ref.path, backups).ok
    ensures ref.resourceId.None? && !loc.ok ==> loc.source == tplCback("")
  {
    if ref.resourceId.Some? then
      var d := DecodeResourceId(ref.resourceId);
      if ref.path != "" then d.(path := Join([d.path, ref.path])) else d
    else
      var l := SplitPath(ref.path, backups);
      l.(source := tplCback(l.source))
  }

  function PlanFor(loc: Location, backups: seq<Backup>): MDPlan
  {
    if loc.ok then
      if loc.snapshot != "" && loc.path != "" then
        StatEntry(loc.backupId, loc.snapshot, Join([loc.source, loc.path]), Join([loc.source, loc.snapshot, loc.path]),
          EncodeBackupInResourceId(loc.backupId, loc.snapshot, loc.source, loc.path),
          EncodeBackupInResourceId(loc.backupId, loc.snapshot, loc.source, Dir(loc.path)))
      else if loc.snapshot != "" then
        SnapshotFolder(loc.backupId, loc.snapshot, Join([loc.source, loc.snapshot]),
          EncodeBackupInResourceId(loc.backupId, loc.snapshot, loc.source, ""))
      else Folder(loc.source)
    else
      match IsParentOfBackup(loc.source, backups)
      case IndexPanic => AncestorPanic
      case Done(true) => Folder(loc.source)
      case Done(false) => NoSuchPath(loc.source)
  }

  /** GetMD's choice of answer. */
  function PlanGetMD(ref: Reference, backups: seq<Backup>, tplCback: string -> string): (plan: MDPlan)
    requires Resolvable(ref, backups)
    ensures plan.StatEntry? ==> plan.id.storageId == CbackStorageId && plan.parentId.storageId == CbackStorageId
    ensures plan.SnapshotFolder? ==> plan.id.storageId == CbackStorageId
  {
    PlanFor(GetMDLocation(ref, backups, tplCback), backups)
  }

  /** The location an entry or a snapshot folder stands for survives the
      trip through its own opaque id. */
  predicate Encodable(loc: Location)
  {
    IsInt64(loc.backupId) && '#' !in loc.snapshot && '#' !in loc.source &&
    IsByteString(loc.snapshot) && IsByteString(loc.source) && IsByteString(loc.path)
  }

  /** GetMD by the id it reported for an entry or a snapshot folder makes
      the same choice again: the same stat, the same path, the same ids. */
  lemma GetMDById(ref: Reference, backups: seq<Backup>, tplCback: string -> string)
    requires Resolvable(ref, backups)
    requires Encodable(GetMDLocation(ref, backups, tplCback))
    ensures var plan := PlanGetMD(ref, backups, tplCback);
      plan.StatEntry? || plan.SnapshotFolder? ==>
        PlanGetMD(Reference(Some(plan.id), ""), backups, tplCback) == plan
  {
    var loc := GetMDLocation(ref, backups, tplCback);
    var plan := PlanGetMD(ref, backups, tplCback);
    if plan.StatEntry? {
      DecodeEncodeResourceId(loc.backupId, loc.snapshot, loc.source, loc.path);
    } else if plan.SnapshotFolder? {
      DecodeEncodeResourceId(loc.backupId, loc.snapshot, loc.source, "");
    }
  }

  /** The parent id of an entry leads to the directory of its path inside
      the same snapshot. */
  lemma GetMDParent(loc: Location, backups: seq<Backup>)
    requires Encodable(loc) && IsByteString(Dir(loc.path))
    ensures var plan := PlanFor(loc, backups);
      plan.StatEntry? ==> DecodeResourceId(Some(plan.parentId)) == loc.(path := Dir(loc.path))
  {
    if loc.ok && loc.snapshot != "" && loc.path != "" {
      DecodeEncodeResourceId(loc.backupId, loc.snapshot, loc.source, Dir(loc.path));
    }
  }

  /** A path below a backup's snapshot is statted at the templated source
      joined with the rest of the path. */
  lemma GetMDStatsInsideSnapshot(path: string, backups: seq<Backup>, tplCback: string -> string)
    requires CleanAbs(path) && SourcesClean(backups)
    ensures var loc := SplitPath(path, backups); var plan := PlanGetMD(Reference(None, path), backups, tplCback);
      loc.ok && loc.snapshot != "" && loc.path != "" ==>
        plan == StatEntry(loc.backupId, loc.snapshot, Join([tplCback(loc.source), loc.path]),
          Join([tplCback(loc.source), loc.snapshot, loc.path]),
          EncodeBackupInResourceId(loc.backupId, loc.snapshot, tplCback(loc.source), loc.path),
          EncodeBackupInResourceId(loc.backupId, loc.snapshot, tplCback(loc.source), Dir(loc.path)))
  {
  }

  /** When split finds nothing, the ancestor test and the reported folder
      use the templated empty source, whatever path was asked for. */
  lemma GetMDUnmatchedIgnoresPath(p: string, q: string, backups: seq<Backup>, tplCback: string -> string)
    requires CleanAbs(p) && CleanAbs(q) && SourcesClean(backups)
    requires !SplitPath(p, backups).ok && !SplitPath(q, backups).ok
    ensures PlanGetMD(Reference(None, p), backups, tplCback) == PlanGetMD(Reference(None, q), backups, tplCback)
  {
  }

  /** A path of one name below the root. */
  lemma SlashName(x: string)
    requires IsName(x) && '/' !in x
    ensures Split("/" + x, '/') == ["", x] && CleanAbs("/" + x)
  {
    assert "/" + x == "" + ['/'] + x;
    SplitOfJoin("", '/', x);
    assert Split(x, '/') == [x];
    assert ("/" + x)[1..] == x;
  }

  /** A path of two names below the root. */
  lemma SlashTwoNames(x: string, y: string)
    requires IsName(x) && '/' !in x && IsName(y) && '/' !in y
    ensures Split("/" + x + "/" + y, '/') == ["", x, y] && CleanAbs("/" + x + "/" + y)
  {
    var t := x + "/" + y;
    assert t == x + ['/'] + y;
    SplitOfJoin(x, '/', y);
    assert Split(y, '/') == [y];
    assert "/" + x + "/" + y == "" + ['/'] + t;
    SplitOfJoin("", '/', t);
    assert ("/" + x + "/" + y)[1..] == t;
  }

  /** One backup, of /x/y. */
  function OneBackup(x: string, y: string): seq<Backup>
  {
    [Backup(1, Group(1, "g"), "repo", "u", "b", "/" + x + "/" + y)]
  }

  lemma OneBackupAncestors(x: string, y: string, z: string)
    requires IsName(x) && '/' !in x && IsName(y) && '/' !in y && IsName(z) && '/' !in z && z != x
    ensures IsParentOfBackup("/" + z, OneBackup(x, y)) == Done(false)
    ensures IsParentOfBackup("/" + x, OneBackup(x, y)) == Done(true)
    ensures IsParentOfBackup("", OneBackup(x, y)) == Done(true)
  {
    SlashTwoNames(x, y);
    OneBackupNotAncestor(x, y, z);
    OneBackupAncestor(x, y);
    assert PathNames("") == [""];
  }

  lemma OneBackupNotAncestor(x: string, y: string, z: string)
    requires IsName(x) && '/' !in x && IsName(y) && '/' !in y && IsName(z) && '/' !in z && z != x
    requires Split("/" + x + "/" + y, '/') == ["", x, y]
    ensures IsParentOfBackup("/" + z, OneBackup(x, y)) == Done(false)
  {
    SlashName(z);
    var lst := Split("/" + x + "/" + y, '/');
    var pre := PathNames("/" + z);
    assert pre == ["", z];
    assert lst[..|pre|][1] == x;
    assert NamesHavePrefix(lst, pre) == Done(false);
    assert OneBackup(x, y)[1..] == [];
  }

  lemma OneBackupAncestor(x: string, y: string)
    requires IsName(x) && '/' !in x
    requires Split("/" + x + "/" + y, '/') == ["", x, y]
    ensures IsParentOfBackup("/" + x, OneBackup(x, y)) == Done(true)
  {
    SlashName(x);
    var names := ["", x, y];
    assert names[..2] == ["", x];
  }

  lemma OneBackupClean(x: string, y: string)
    requires IsName(x) && '/' !in x && IsName(y) && '/' !in y
    ensures SourcesClean(OneBackup(x, y))
  {
    SlashTwoNames(x, y);
  }

  lemma OneBackupNoMatch(x: string, y: string, z: string)
    requires '/' !in z && CleanAbs("/" + z) && SourcesClean(OneBackup(x, y))
    ensures SplitPath("/" + z, OneBackup(x, y)) == NoLocation
  {
    NotBelowTwoNames(x, y, z);
  }

  lemma OneBackupUnmatched(x: string, y: string, z: string)
    requires IsName(x) && '/' !in x && IsName(y) && '/' !in y && IsName(z) && '/' !in z
    ensures CleanAbs("/" + z) && SourcesClean(OneBackup(x, y))
    ensures SplitPath("/" + z, OneBackup(x, y)) == NoLocation
  {
    SlashName(z);
    OneBackupClean(x, y);
    OneBackupNoMatch(x, y, z);
  }

  lemma NotBelowTwoNames(x: string, y: string, z: string)
    requires '/' !in z
    ensures !HasPrefix("/" + z, "/" + x + "/" + y)
  {
    var source := "/" + x + "/" + y;
    assert source[|x| + 1] == '/';
    if |source| <= |"/" + z| {
      assert ("/" + z)[|x| + 1] == z[|x|];
    }
  }

  /** With one backup of /x/y and a to-cback template that keeps "" as it
      is, GetMD of /z (no backup there, and none below it) reports a folder
      at "" instead of NotFound, and GetMD of the real ancestor /x reports
      its folder at "" instead of at /x: the ancestor test looks at the
      empty source, not at the path asked for. */
  lemma GetMDAncestorQuirk(x: string, y: string, z: string, tplCback: string -> string)
    requires IsName(x) && '/' !in x && IsName(y) && '/' !in y && IsName(z) && '/' !in z
    requires z != x && tplCback("") == ""
    ensures CleanAbs("/" + z) && CleanAbs("/" + x) && SourcesClean(OneBackup(x, y))
    ensures IsParentOfBackup("/" + z, OneBackup(x, y)) == Done(false)
    ensures PlanGetMD(Reference(None, "/" + z), OneBackup(x, y), tplCback) == Folder("")
    ensures IsParentOfBackup("/" + x, OneBackup(x, y)) == Done(true)
    ensures PlanGetMD(Reference(None, "/" + x), OneBackup(x, y), tplCback) == Folder("")
  {
    OneBackupAncestors(x, y, z);
    OneBackupUnmatched(x, y, z);
    OneBackupUnmatched(x, y, x);
  }

  /** GetMD never reaches hasPrefix's out-of-range read when the to-cback
      template maps "" to "". */
  lemma GetMDNoPanic(ref: Reference, backups: seq<Backup>, tplCback: string -> string)
    requires Resolvable(ref, backups) && tplCback("") == ""
    ensures PlanGetMD(ref, backups, tplCback) != AncestorPanic
  {
    var loc := GetMDLocation(ref, backups, tplCback);
    if !loc.ok {
      assert loc.source == "";
      assert PathNames("") == [""];
      forall k | 0 <= k < |backups|
        ensures !PanicsOn("", backups[k])
      {
      }
    }
  }

  // ---------------------------------------------------------------------
  // ListFolder inside a backup

  /** One entry of a folder listed inside a snapshot: the path shown to the
      user, an id for the entry and the id of the folder as parent. */
  function SnapshotEntry(r: Resource, loc: Location, owner: UserId): ResourceInfo
  {
    var base := Base(r.name);
    ConvertToResourceInfo(r, Join([loc.source, loc.snapshot, loc.path, base]),
      EncodeBackupInResourceId(loc.backupId, loc.snapshot, loc.source, Join([loc.path, base])),
      EncodeBackupInResourceId(loc.backupId, loc.snapshot, loc.source, loc.path),
      owner)
  }

  /** The id of a listed entry decodes to the entry's own path inside the
      snapshot and its parent id to the listed folder. */
  lemma SnapshotEntryIds(r: Resource, loc: Location, owner: UserId)
    requires Encodable(loc) && loc.ok
    requires IsByteString(Join([loc.path, Base(r.name)]))
    ensures var e := SnapshotEntry(r, loc, owner);
      DecodeResourceId(Some(e.id)) == loc.(path := Join([loc.path, Base(r.name)])) &&
      DecodeResourceId(Some(e.parentId.value)) == loc
  {
    var p := Join([loc.path, Base(r.name)]);
    var e := SnapshotEntry(r, loc, owner);
    assert e.id == EncodeBackupInResourceId(loc.backupId, loc.snapshot, loc.source, p);
    DecodeEncodeResourceId(loc.backupId, loc.snapshot, loc.source, p);
    DecodeEncodeResourceId(loc.backupId, loc.snapshot, loc.source, loc.path);
  }

  /** GetMD by the id of a listed entry stats the entry at the source as
      listed, without the to-cback template the listing went through. */
  lemma SnapshotEntryStat(r: Resource, loc: Location, owner: UserId, backups: seq<Backup>, tplCback: string -> string)
    requires Encodable(loc) && loc.ok && loc.snapshot != ""
    requires IsByteString(Join([loc.path, Base(r.name)]))
    ensures var e := SnapshotEntry(r, loc, owner);
      var plan := PlanGetMD(Reference(Some(e.id), ""), backups, tplCback);
      plan.StatEntry? && plan.statPath == Join([loc.source, Join([loc.path, Base(r.name)])])
  {
    var p := Join([loc.path, Base(r.name)]);
    SnapshotEntryIds(r, loc, owner);
    BaseNotEmpty(r.name);
    JoinNotEmpty([loc.path, Base(r.name)]);
    var e := SnapshotEntry(r, loc, owner);
    assert GetMDLocation(Reference(Some(e.id), ""), backups, tplCback) == loc.(path := p);
  }

  lemma BaseNotEmpty(p: string)
    ensures Base(p) != ""
  {
  }

  lemma {:induction false} JoinNotEmpty(elems: seq<string>)
    requires exists i :: 0 <= i < |elems| && elems[i] != ""
    ensures Join(elems) != ""
  {
    if elems[0] == "" {
      var i :| 0 <= i < |elems| && elems[i] != "";
      assert elems[1..][i - 1] == elems[i];
      JoinNotEmpty(elems[1..]);
    }
  }

  /** One snapshot shown as a folder of the backup's source: named by its
      formatted time, with the snapshot time as modification time. */
  function SnapshotFolderEntry(s: Snapshot, snapTime: string, loc: Location, owner: UserId): ResourceInfo
  {
    PlaceholderResourceInfo(Join([loc.source, snapTime]), owner, Some(TimeToTimestamp(s.time)),
      Some(EncodeBackupInResourceId(loc.backupId, snapTime, loc.source, "")))
  }

  function EntryOf(loc: Location, owner: UserId): Resource -> ResourceInfo
  {
    (r: Resource) => SnapshotEntry(r, loc, owner)
  }

  function FolderOf(loc: Location, owner: UserId, formatTime: int -> string): Snapshot -> ResourceInfo
  {
    (s: Snapshot) => SnapshotFolderEntry(s, formatTime(s.time), loc, owner)
  }

  /** The entries of a folder listed inside a snapshot, in listing order. */
  function SnapshotEntries(content: seq<Resource>, loc: Location, owner: UserId): (r: seq<ResourceInfo>)
    ensures |r| == |content|
    ensures forall i :: 0 <= i < |r| ==> r[i] == SnapshotEntry(content[i], loc, owner)
  {
    MapSeq(EntryOf(loc, owner), content)
  }

  /** The snapshots of a backup as folders, in listing order. */
  function SnapshotFolders(snaps: seq<Snapshot>, loc: Location, owner: UserId, formatTime: int -> string): (r: seq<ResourceInfo>)
    ensures |r| == |snaps|
    ensures forall i :: 0 <= i < |r| ==> r[i] == SnapshotFolderEntry(snaps[i], formatTime(snaps[i].time), loc, owner)
  {
    MapSeq(FolderOf(loc, owner, formatTime), snaps)
  }

  /** GetMD by the id of a snapshot folder asks for that snapshot of that
      backup. */
  lemma SnapshotFolderId(s: Snapshot, snapTime: string, loc: Location, owner: UserId, backups: seq<Backup>, tplCback: string -> string)
    requires Encodable(loc.(snapshot := snapTime)) && snapTime != ""
    ensures var e := SnapshotFolderEntry(s, snapTime, loc, owner);
      PlanGetMD(Reference(Some(e.id), ""), backups, tplCback)
        == SnapshotFolder(loc.backupId, snapTime, Join([loc.source, snapTime]), e.id)
  {
    DecodeEncodeResourceId(loc.backupId, snapTime, loc.source, "");
  }

  /** The first snapshot taken at time `t` (getSnapshot's search). */
  function FindSnapshot(snaps: seq<Snapshot>, t: int): (r: Option<Snapshot>)
    ensures r.Some? ==> r.value in snaps && r.value.time == t
    ensures r.None? <==> forall i :: 0 <= i < |snaps| ==> snaps[i].time != t
  {
    if snaps == [] then None
    else if snaps[0].time == t then Some(snaps[0])
    else
      var r := FindSnapshot(snaps[1..], t);
      assert forall i :: 1 <= i < |snaps| ==> snaps[i] == snaps[1..][i - 1];
      r
  }

  // ---------------------------------------------------------------------
  // Download

  /** What Download fetches for the metadata GetMD returned: files only,
      at the id's source passed through the to-cback template and joined
      with the id's path. */
  datatype DownloadRequest = DownloadRequest(backupId: int, snapshot: string, path: string)

  function DownloadTarget(stat: ResourceInfo, tplCback: string -> string): (r: Result<DownloadRequest>)
    ensures stat.kind != FileType ==> r == Err(BadRequest("cback: can only download files"))
    ensures r.Ok? ==> DecodeResourceId(Some(stat.id)).ok
  {
    if stat.kind != FileType then Err(BadRequest("cback: can only download files"))
    else
      var loc := DecodeResourceId(Some(stat.id));
      if !loc.ok then Err(BadRequest("cback: can only download files"))
      else Ok(DownloadRequest(loc.backupId, loc.snapshot, Join([tplCback(loc.source), loc.path])))
  }

  /** A file found by path is downloaded from its source passed through the
      to-cback template twice: GetMD already put the templated source in
      the id. */
  lemma DownloadByPathTemplatesTwice(path: string, backups: seq<Backup>, tplCback: string -> string, r: Resource, owner: UserId)
    requires CleanAbs(path) && SourcesClean(backups)
    requires r.IsFile()
    requires var plan := PlanGetMD(Reference(None, path), backups, tplCback);
      plan.StatEntry? && Encodable(GetMDLocation(Reference(None, path), backups, tplCback))
    ensures var plan := PlanGetMD(Reference(None, path), backups, tplCback);
      var loc := SplitPath(path, backups);
      var stat := ConvertToResourceInfo(r, plan.path, plan.id, plan.parentId, owner);
      DownloadTarget(stat, tplCback) == Ok(DownloadRequest(loc.backupId, loc.snapshot, Join([tplCback(tplCback(loc.source)), loc.path])))
  {
    var loc := GetMDLocation(Reference(None, path), backups, tplCback);
    DecodeEncodeResourceId(loc.backupId, loc.snapshot, loc.source, loc.path);
  }

  /** The folders GetMD reports cannot be downloaded. */
  lemma DownloadRejectsFolders(path: string, owner: UserId, mtime: Option<nat>, id: Option<ResourceId>, tplCback: string -> string)
    ensures DownloadTarget(PlaceholderResourceInfo(path, owner, mtime, id), tplCback).Err?
  {
  }

  // ---------------------------------------------------------------------
  // The operations the backup browser refuses

  datatype RefusedOp =
    | GetHome | CreateHome | CreateDir | TouchFile | Delete | Move
    | ListRevisions | DownloadRevision | RestoreRevision | GetPathByID
    | AddGrant | RemoveGrant | UpdateGrant | DenyGrant | ListGrants | GetQuota
    | CreateReference | Shutdown | SetArbitraryMetadata | UnsetArbitraryMetadata
    | EmptyRecycle | CreateStorageSpace | ListRecycle | RestoreRecycleItem
    | PurgeRecycleItem | ListStorageSpaces | UpdateStorageSpace
    | SetLock | GetLock | RefreshLock | Unlock | Upload | InitiateUpload

  /** Every refused operation fails with NotSupported, whatever its
      arguments (which are therefore not modelled). */
  function Refuse(op: RefusedOp): (e: Error)
    ensures e.NotSupported? && e.msg == "Operation Not Permitted"
  {
    NotSupported("Operation Not Permitted")
  }
}
