/** The cache-aside layer of the backup browser (cback/storage/cache.go) and
    the catalogue client it talks to. Every operation builds a key, answers
    from the cache when the key is there, and otherwise asks the catalogue,
    rewrites the answer and stores it. */
module CbackCache {
  import opened Wrappers
  import opened GoStrings
  import opened CbackTypes

  /** One question to the catalogue, as the cache sees it. */
  datatype Request =
    | BackupsOf(user: string)
    | StatOf(user: string, id: int, snapshot: string, path: string)
    | ListOf(user: string, id: int, snapshot: string, path: string)
    | SnapshotsOf(user: string, id: int)

  /** What the cache stores under a key. */
  datatype CacheValue =
    | Backups(backups: seq<Backup>)
    | Stat(resource: Resource)
    | Listing(entries: seq<Resource>)
    | Snapshots(snapshots: seq<Snapshot>)

  /** One call made to the catalogue's HTTP API. */
  datatype Call =
    | ListBackupsCall(user: string)
    | StatCall(user: string, id: int, snapshot: string, path: string)
    | ListFolderCall(user: string, id: int, snapshot: string, path: string)
    | ListSnapshotsCall(user: string, id: int)
    | DownloadCall(user: string, id: int, snapshot: string, path: string)

  /** The cache key of a request: "backups:<user>",
      "stat:<user>:<id>:<snapshot>:<path>", "list:<user>:<id>:<snapshot>:<path>"
      and "snapshots:<user>:<id>". */
  function Key(req: Request): string
  {
    match req
    case BackupsOf(u) => "backups:" + u
    case StatOf(u, id, snap, p) => JoinWith(["stat", u, FormatInt(id), snap, p], ':')
    case ListOf(u, id, snap, p) => JoinWith(["list", u, FormatInt(id), snap, p], ':')
    case SnapshotsOf(u, id) => JoinWith(["snapshots", u, FormatInt(id)], ':')
  }

  /** The four key families never meet: requests of different operations
      have different keys. */
  lemma KeyFamiliesDiffer(a: Request, b: Request)
    requires a.BackupsOf? != b.BackupsOf? || a.StatOf? != b.StatOf? || a.ListOf? != b.ListOf?
    ensures Key(a) != Key(b)
  {
    var ka, kb := Key(a), Key(b);
    assert ka[0] == (if a.BackupsOf? then 'b' else if a.ListOf? then 'l' else 's');
    assert kb[0] == (if b.BackupsOf? then 'b' else if b.ListOf? then 'l' else 's');
    assert a.StatOf? ==> ka[1] == 't';
    assert a.SnapshotsOf? ==> ka[1] == 'n';
    assert b.StatOf? ==> kb[1] == 't';
    assert b.SnapshotsOf? ==> kb[1] == 'n';
  }

  /** A request whose key cannot be mistaken for another's: the fields the
      key separates with ':' contain none. */
  predicate Unambiguous(req: Request)
  {
    match req
    case BackupsOf(_) => true
    case StatOf(u, _, snap, _) => ':' !in u && ':' !in snap
    case ListOf(u, _, snap, _) => ':' !in u && ':' !in snap
    case SnapshotsOf(u, _) => ':' !in u
  }

  lemma FormatIntNoColon(x: int)
    ensures ':' !in FormatInt(x)
  {
    var s := FormatInt(x);
    assert forall i :: 0 <= i < |s| ==> s[i] != ':';
  }

  /** Unambiguous requests with the same key are the same request, so a
      cached answer is the answer to the question asked. */
  lemma KeyInjective(a: Request, b: Request)
    requires Unambiguous(a) && Unambiguous(b) && Key(a) == Key(b)
    ensures a == b
  {
    if a.BackupsOf? != b.BackupsOf? || a.StatOf? != b.StatOf? || a.ListOf? != b.ListOf? {
      KeyFamiliesDiffer(a, b);
    } else if a.BackupsOf? {
      assert a.user == Key(a)[8..] == Key(b)[8..] == b.user;
    } else if a.SnapshotsOf? {
      SnapshotsKeyInjective(a.user, a.id, b.user, b.id);
    } else {
      var tag := if a.StatOf? then "stat" else "list";
      assert Key(a) == JoinWith([tag, a.user, FormatInt(a.id), a.snapshot, a.path], ':');
      assert Key(b) == JoinWith([tag, b.user, FormatInt(b.id), b.snapshot, b.path], ':');
      EntryKeyInjective(tag, a.user, a.id, a.snapshot, a.path, b.user, b.id, b.snapshot, b.path);
    }
  }

  lemma SnapshotsKeyInjective(u: string, id: int, v: string, jd: int)
    requires ':' !in u && ':' !in v
    requires JoinWith(["snapshots", u, FormatInt(id)], ':') == JoinWith(["snapshots", v, FormatInt(jd)], ':')
    ensures u == v && id == jd
  {
    var l1 := ["snapshots", u, FormatInt(id)];
    var l2 := ["snapshots", v, FormatInt(jd)];
    JoinWithInjective(l1, l2, ':');
    assert FormatInt(id) == l1[2] == l2[2] == FormatInt(jd);
    FormatIntInjective(id, jd);
  }

  lemma EntryKeyInjective(tag: string, u: string, id: int, snap: string, p: string, v: string, jd: int, snap2: string, q: string)
    requires ':' !in tag && ':' !in u && ':' !in v && ':' !in snap && ':' !in snap2
    requires JoinWith([tag, u, FormatInt(id), snap, p], ':') == JoinWith([tag, v, FormatInt(jd), snap2, q], ':')
    ensures u == v && id == jd && snap == snap2 && p == q
  {
    FormatIntNoColon(id);
    FormatIntNoColon(jd);
    var l1 := [tag, u, FormatInt(id), snap, p];
    var l2 := [tag, v, FormatInt(jd), snap2, q];
    JoinWithInjective(l1, l2, ':');
    assert FormatInt(id) == l1[2] == l2[2] == FormatInt(jd);
    FormatIntInjective(id, jd);
  }

  /** Nothing but the backup list of the same user has the key of a
      backup list, whatever ':' the other request holds. */
  lemma BackupsKeyUnique(a: Request, b: Request)
    requires a.BackupsOf? && Key(a) == Key(b)
    ensures a == b
  {
    if !b.BackupsOf? {
      KeyFamiliesDiffer(a, b);
    } else {
      assert a.user == Key(a)[8..] == Key(b)[8..] == b.user;
    }
  }

  /** A ':' in a snapshot name makes two different stat requests share a
      key: the second one would be answered from the first one's entry. */
  lemma StatKeyCollision()
    ensures Key(StatOf("u", 1, "a:b", "/x")) == Key(StatOf("u", 1, "a", "b:/x"))
  {
  }

  // ---------------------------------------------------------------------
  // The rewriting the cache applies before storing

  /** Every backup with its source passed through the to-storage template. */
  function RewriteSources(backups: seq<Backup>, tplStorage: string -> string): (r: seq<Backup>)
    ensures |r| == |backups|
    ensures forall i :: 0 <= i < |r| ==> r[i] == backups[i].(source := tplStorage(backups[i].source))
  {
    seq(|backups|, i requires 0 <= i < |backups| => backups[i].(source := tplStorage(backups[i].source)))
  }

  /** The zero time of Go (January 1, year 1, UTC) in Unix seconds: what a
      failed time.Parse returns. */
  const ZeroTime: int := -62135596800

  /** A time cut to the precision of the configured format: formatted, then
      parsed back; a time the format cannot parse back becomes the zero
      time. */
  function Truncate(t: int, formatTime: int -> string, parseTime: string -> Option<int>): (r: int)
    ensures parseTime(formatTime(t)).Some? ==> r == parseTime(formatTime(t)).value
    ensures parseTime(formatTime(t)).None? ==> r == ZeroTime
  {
    match parseTime(formatTime(t))
    case Some(u) => u
    case None => ZeroTime
  }

  /** Every snapshot with its time truncated; nothing else changes. */
  function TruncateTimes(snaps: seq<Snapshot>, formatTime: int -> string, parseTime: string -> Option<int>): (r: seq<Snapshot>)
    ensures |r| == |snaps|
    ensures forall i :: 0 <= i < |r| ==> r[i] == snaps[i].(time := Truncate(snaps[i].time, formatTime, parseTime))
  {
    seq(|snaps|, i requires 0 <= i < |snaps| => snaps[i].(time := Truncate(snaps[i].time, formatTime, parseTime)))
  }

  /** Truncating twice is truncating once, when parsing what was formatted
      and formatting it again gives the same text. */
  lemma TruncateIdempotent(t: int, formatTime: int -> string, parseTime: string -> Option<int>)
    requires parseTime(formatTime(t)).Some?
    requires formatTime(parseTime(formatTime(t)).value) == formatTime(t)
    ensures Truncate(Truncate(t, formatTime, parseTime), formatTime, parseTime) == Truncate(t, formatTime, parseTime)
  {
  }

  // ---------------------------------------------------------------------
  // The catalogue client

  /** The cback HTTP client: the catalogue it answers from is fixed, and the
      client records every call it receives. */
  class CatalogClient {
    const backupsOf: string -> Result<seq<Backup>>
    const statOf: (string, int, string, string) -> Result<Resource>
    const listingOf: (string, int, string, string) -> Result<seq<Resource>>
    const snapshotsOf: (string, int) -> Result<seq<Snapshot>>
    const contentOf: (string, int, string, string) -> Result<string>
    var calls: seq<Call>

    constructor (backupsOf: string -> Result<seq<Backup>>,
                 statOf: (string, int, string, string) -> Result<Resource>,
                 listingOf: (string, int, string, string) -> Result<seq<Resource>>,
                 snapshotsOf: (string, int) -> Result<seq<Snapshot>>,
                 contentOf: (string, int, string, string) -> Result<string>)
      ensures this.backupsOf == backupsOf && this.statOf == statOf && this.listingOf == listingOf
      ensures this.snapshotsOf == snapshotsOf && this.contentOf == contentOf
      ensures calls == []
    {
      this.backupsOf := backupsOf;
      this.statOf := statOf;
      this.listingOf := listingOf;
      this.snapshotsOf := snapshotsOf;
      this.contentOf := contentOf;
      calls := [];
    }

    method ListBackups(user: string) returns (r: Result<seq<Backup>>)
      modifies this
      ensures r == backupsOf(user) && calls == old(calls) + [ListBackupsCall(user)]
    {
      r := backupsOf(user);
      calls := calls + [ListBackupsCall(user)];
    }

    method Stat(user: string, id: int, snapshot: string, path: string) returns (r: Result<Resource>)
      modifies this
      ensures r == statOf(user, id, snapshot, path) && calls == old(calls) + [StatCall(user, id, snapshot, path)]
    {
      r := statOf(user, id, snapshot, path);
      calls := calls + [StatCall(user, id, snapshot, path)];
    }

    method ListFolder(user: string, id: int, snapshot: string, path: string) returns (r: Result<seq<Resource>>)
      modifies this
      ensures r == listingOf(user, id, snapshot, path) && calls == old(calls) + [ListFolderCall(user, id, snapshot, path)]
    {
      r := listingOf(user, id, snapshot, path);
      calls := calls + [ListFolderCall(user, id, snapshot, path)];
    }

    method ListSnapshots(user: string, id: int) returns (r: Result<seq<Snapshot>>)
      modifies this
      ensures r == snapshotsOf(user, id) && calls == old(calls) + [ListSnapshotsCall(user, id)]
    {
      r := snapshotsOf(user, id);
      calls := calls + [ListSnapshotsCall(user, id)];
    }

    method Download(user: string, id: int, snapshot: string, path: string) returns (r: Result<string>)
      modifies this
      ensures r == contentOf(user, id, snapshot, path) && calls == old(calls) + [DownloadCall(user, id, snapshot, path)]
    {
      r := contentOf(user, id, snapshot, path);
      calls := calls + [DownloadCall(user, id, snapshot, path)];
    }
  }
}
