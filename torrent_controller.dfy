/** The decision logic of the HTTP handlers of
    `src/controllers/torrent.controller.ts`: `add` and `del` change the
    Torrent table, the users' lists, the live sessions and the outbox, and
    are methods; `getall` and `get` only read, and are functions of the
    records and the live sessions. */
module TorrentController {
  import opened Seqs
  import opened Types
  import opened Query
  import opened Runtime

  /** What a handler sends back. */
  datatype Body =
    | Added(message: string, torrent: Torrent)
    | Deleted(message: string)
    | Document(torrent: Torrent)

  /** A response, or the `boom` error passed to `next`. */
  datatype Response = Ok(body: Body) | BadRequest(reason: string) | NotFound(reason: string)

  const DownloadExpiration: string := "86400000"

  // ---------------------------------------------------------------------
  // add

  /** `add`: a magnet some record already has is refused; otherwise a new
      record in state `added` is saved, its id pushed onto the current
      user's list, and the record published to DOWNLOAD_TORRENT as a
      persistent message that expires after a day. The id and slug are the
      ones the database and the schema generate. */
  method Add(table: TorrentTable, users: UserTable, publisher: Publisher, currentUser: Id, magnet: string, newId: Id, newSlug: Slug)
    returns (r: Response)
    requires table.Valid()
    requires forall i :: 0 <= i < |table.docs| ==> table.docs[i].id != newId
    modifies table, users, publisher
    ensures table.Valid()
    ensures DoesTorrentAlreadyExist(old(table.docs), magnet) ==>
      && r == BadRequest("torrent already exist")
      && table.docs == old(table.docs)
      && users.torrents == old(users.torrents)
      && publisher.sent == old(publisher.sent)
    ensures !DoesTorrentAlreadyExist(old(table.docs), magnet) ==>
      var doc := NewTorrent(newId, newSlug, magnet);
      && r == Ok(Added("torrent added successfully", doc))
      && table.docs == old(table.docs) + [doc]
      && users.torrents == PushTo(old(users.torrents), currentUser, newId)
      && publisher.sent == old(publisher.sent)
           + [Outgoing(DOWNLOAD_TORRENT, DownloadRequest(doc), Options(true, DownloadExpiration))]
    ensures UniqueMagnets(old(table.docs)) ==> UniqueMagnets(table.docs)
  {
    if DoesTorrentAlreadyExist(table.docs, magnet) {
      return BadRequest("torrent already exist");
    }
    var doc := table.CreateTorrentWithMagnet(newId, newSlug, magnet);
    users.PushTorrent(currentUser, doc.id);
    publisher.SendToQueue(DOWNLOAD_TORRENT, DownloadRequest(doc), Options(true, DownloadExpiration));
    r := Ok(Added("torrent added successfully", doc));
  }

  /** Once a magnet is added, adding it again is refused. */
  lemma AddedMagnetExists(docs: seq<Torrent>, newId: Id, newSlug: Slug, magnet: string)
    ensures DoesTorrentAlreadyExist(docs + [NewTorrent(newId, newSlug, magnet)], magnet)
  {
    var grown := docs + [NewTorrent(newId, newSlug, magnet)];
    assert grown[|docs|].magnet == magnet;
  }

  // ---------------------------------------------------------------------
  // del

  /** A FILE_DELETE message for a path. */
  function DeleteOut(root: TorrentPath, entry: string): Outgoing
  {
    Outgoing(FILE_DELETE, DeleteFile(StoragePath(root, entry)), NoOptions)
  }

  /** The two FILE_DELETE messages per file, in file order: its download
      path, then its subtitles path. */
  function FileDeletes(files: seq<Video>): (r: seq<Outgoing>)
    ensures |r| == 2 * |files|
    ensures forall k :: 0 <= k < |r| ==> r[k].queue == FILE_DELETE && r[k].options == NoOptions
    ensures forall j :: 0 <= j < |files| ==>
      && r[2 * j] == DeleteOut(TorrentPath.DOWNLOAD, files[j].slug)
      && r[2 * j + 1] == DeleteOut(TorrentPath.SUBTITLES, files[j].slug)
    decreases |files|
  {
    if |files| == 0 then []
    else
      var n := |files| - 1;
      var init := FileDeletes(files[..n]);
      assert forall j :: 0 <= j < n ==> files[..n][j] == files[j];
      init + [DeleteOut(TorrentPath.DOWNLOAD, files[n].slug), DeleteOut(TorrentPath.SUBTITLES, files[n].slug)]
  }

  /** Everything `del` publishes for a record: its temporary directory,
      then two paths per file; 1 + 2n messages, all to FILE_DELETE. */
  function DeletionPlan(doc: Torrent): (r: seq<Outgoing>)
    ensures |r| == 1 + 2 * |doc.files|
    ensures r[0] == DeleteOut(TorrentPath.TMP, doc.slug)
    ensures forall k :: 0 <= k < |r| ==> r[k].queue == FILE_DELETE && r[k].options == NoOptions
    ensures forall j :: 0 <= j < |doc.files| ==>
      && r[1 + 2 * j] == DeleteOut(TorrentPath.DOWNLOAD, doc.files[j].slug)
      && r[2 + 2 * j] == DeleteOut(TorrentPath.SUBTITLES, doc.files[j].slug)
  {
    var r := [DeleteOut(TorrentPath.TMP, doc.slug)] + FileDeletes(doc.files);
    assert forall k :: 1 <= k < |r| ==> r[k] == FileDeletes(doc.files)[k - 1];
    assert forall j :: 0 <= j < |doc.files| ==> r[2 + 2 * j] == FileDeletes(doc.files)[2 * j + 1];
    r
  }

  /** The `doc.files.map` of `del`: two FILE_DELETE messages per file. */
  method PublishFileDeletes(publisher: Publisher, files: seq<Video>)
    modifies publisher
    ensures publisher.sent == old(publisher.sent) + FileDeletes(files)
  {
    var j := 0;
    while j < |files|
      invariant 0 <= j <= |files|
      invariant publisher.sent == old(publisher.sent) + FileDeletes(files[..j])
    {
      var file := files[j];
      publisher.SendToQueue(FILE_DELETE, DeleteFile(StoragePath(TorrentPath.DOWNLOAD, file.slug)), NoOptions);
      publisher.SendToQueue(FILE_DELETE, DeleteFile(StoragePath(TorrentPath.SUBTITLES, file.slug)), NoOptions);
      assert files[..j + 1][..j] == files[..j];
      j := j + 1;
    }
    assert files[..|files|] == files;
  }

  /** All of `del`'s publishes for a record. */
  method PublishDeletionPlan(publisher: Publisher, doc: Torrent)
    modifies publisher
    ensures publisher.sent == old(publisher.sent) + DeletionPlan(doc)
  {
    publisher.SendToQueue(FILE_DELETE, DeleteFile(StoragePath(TorrentPath.TMP, doc.slug)), NoOptions);
    PublishFileDeletes(publisher, doc.files);
    assert publisher.sent == old(publisher.sent) + ([DeleteOut(TorrentPath.TMP, doc.slug)] + FileDeletes(doc.files));
  }

  /** `del`: the first record with the slug, whoever owns it, is looked
      up; without one the answer is not-found and nothing changes.
      Otherwise its live session, if any, is destroyed, the deletion plan
      is published, the record is removed and its id pulled from the
      current user's list. */
  method Del(table: TorrentTable, users: UserTable, client: Client, publisher: Publisher, currentUser: Id, slug: Slug)
    returns (r: Response)
    requires table.Valid()
    modifies table, users, client, publisher
    ensures table.Valid()
    ensures GetTorrentBySlug(old(table.docs), slug).None? ==>
      && r == NotFound("torrent not found")
      && table.docs == old(table.docs)
      && users.torrents == old(users.torrents)
      && client.sessions == old(client.sessions)
      && publisher.sent == old(publisher.sent)
    ensures GetTorrentBySlug(old(table.docs), slug).Some? ==>
      var doc := GetTorrentBySlug(old(table.docs), slug).value;
      && r == Ok(Deleted("torrent deleted successfully"))
      && client.sessions == (if LiveSession(old(client.sessions), doc.infoHash).Some?
                             then old(client.sessions) - {doc.infoHash.value}
                             else old(client.sessions))
      && publisher.sent == old(publisher.sent) + DeletionPlan(doc)
      && table.docs == RemoveById(old(table.docs), doc.id)
      && (forall k :: 0 <= k < |table.docs| ==> table.docs[k].id != doc.id)
      && users.torrents == PullFrom(old(users.torrents), currentUser, doc.id)
  {
    var found := GetTorrentBySlug(table.docs, slug);
    if found.None? {
      return NotFound("torrent not found");
    }
    var doc := found.value;
    var live := client.Get(doc.infoHash);
    if live.Some? {
      client.Destroy(doc.infoHash.value);
    }

    PublishDeletionPlan(publisher, doc);
    table.DeleteTorrentByID(doc.id);
    users.PullTorrent(currentUser, doc.id);
    r := Ok(Deleted("torrent deleted successfully"));
  }

  // ---------------------------------------------------------------------
  // getall and get

  /** `getDataFromTorrent`: the live session's transfer snapshot is
      attached to a record that is downloading and has a live session;
      every other record is returned as it is. */
  function WithDownloadInfo(t: Torrent, sessions: map<string, Session>): (r: Torrent)
    ensures r.downloadInfo ==
      if t.status == TorrentState.DOWNLOADING && LiveSession(sessions, t.infoHash).Some?
      then Some(sessions[t.infoHash.value].info)
      else t.downloadInfo
    ensures r.(downloadInfo := t.downloadInfo) == t
  {
    if t.status == TorrentState.DOWNLOADING then
      match LiveSession(sessions, t.infoHash)
      case Some(s) => t.(downloadInfo := Some(s.info))
      case None => t
    else t
  }

  function DownloadInfoFrom(sessions: map<string, Session>): Torrent -> Torrent
  {
    (t: Torrent) => WithDownloadInfo(t, sessions)
  }

  /** `getall`: the listed records in their order, each decorated with its
      session's transfer snapshot when it is downloading. */
  function GetAll(torrents: seq<Torrent>, sessions: map<string, Session>): (r: seq<Torrent>)
    ensures |r| == |torrents|
    ensures forall k :: 0 <= k < |r| ==> r[k] == WithDownloadInfo(torrents[k], sessions)
  {
    Map(torrents, DownloadInfoFrom(sessions))
  }

  /** A record whose status is not `downloading`, or whose session is
      gone, is listed exactly as stored. */
  lemma GetAllUndecorated(torrents: seq<Torrent>, sessions: map<string, Session>, k: nat)
    requires k < |torrents|
    requires torrents[k].status != TorrentState.DOWNLOADING || LiveSession(sessions, torrents[k].infoHash).None?
    ensures GetAll(torrents, sessions)[k] == torrents[k]
  {
    var t := torrents[k];
    assert GetAll(torrents, sessions)[k].(downloadInfo := t.downloadInfo) == t;
  }

  /** A session file with the given name. */
  function NamedFile(name: string): SessionFile -> bool
  {
    (f: SessionFile) => f.name == name
  }

  /** `getDataFromTorrentFile`: a stored file gets the snapshot of the
      first session file with its name, and is kept as it is when there
      is none. */
  function WithFileInfo(v: Video, s: Session): (r: Video)
    ensures r.(downloadInfo := v.downloadInfo) == v
    ensures FirstIndex(s.files, NamedFile(v.name)).None? ==> r == v
    ensures FirstIndex(s.files, NamedFile(v.name)).Some? ==>
      var k := FirstIndex(s.files, NamedFile(v.name)).value;
      s.files[k].name == v.name && r.downloadInfo == Some(s.files[k].info)
  {
    match FirstIndex(s.files, NamedFile(v.name))
    case None => v
    case Some(k) => v.(downloadInfo := Some(s.files[k].info))
  }

  function FileInfoFrom(s: Session): Video -> Video
  {
    (v: Video) => WithFileInfo(v, s)
  }

  /** The record `get` sends: when it is downloading and its session is
      live, the session's snapshot on the record and on each of its files;
      otherwise the record as stored. */
  function Detailed(t: Torrent, sessions: map<string, Session>): (r: Torrent)
    ensures r.downloadInfo == WithDownloadInfo(t, sessions).downloadInfo
    ensures r.(downloadInfo := t.downloadInfo, files := t.files) == t
    ensures |r.files| == |t.files|
    ensures forall j :: 0 <= j < |t.files| ==> r.files[j].(downloadInfo := t.files[j].downloadInfo) == t.files[j]
    ensures LiveSession(sessions, t.infoHash).None? || t.status != TorrentState.DOWNLOADING ==> r == t
    ensures t.status == TorrentState.DOWNLOADING && LiveSession(sessions, t.infoHash).Some? ==>
      forall j :: 0 <= j < |t.files| ==> r.files[j] == WithFileInfo(t.files[j], sessions[t.infoHash.value])
  {
    if t.status == TorrentState.DOWNLOADING then
      match LiveSession(sessions, t.infoHash)
      case Some(s) => t.(downloadInfo := Some(s.info), files := Map(t.files, FileInfoFrom(s)))
      case None => t
    else t
  }

  /** Mongoose `populate`: the records the ids name, in the list's order;
      an id without a record is dropped. */
  function Populate(ids: seq<Id>, docs: seq<Torrent>): (r: seq<Torrent>)
    ensures |r| <= |ids|
    ensures forall k :: 0 <= k < |r| ==> r[k] in docs && r[k].id in ids
    decreases |ids|
  {
    if |ids| == 0 then []
    else
      var n := |ids| - 1;
      var init := Populate(ids[..n], docs);
      assert forall k :: 0 <= k < |init| ==> init[k].id in ids[..n] && ids[..n] <= ids;
      init + match FirstIndex(docs, HasId(ids[n]))
        case None => []
        case Some(i) => [docs[i]]
  }

  function IdOf(t: Torrent): Id { t.id }

  /** An id some record carries. */
  function HasRecord(docs: seq<Torrent>): Id -> bool
  {
    (id: Id) => FirstIndex(docs, HasId(id)).Some?
  }

  /** `populate` exactly: its ids are the user's ids that name a record,
      in the list's order, and each entry is the first record with its
      id. */
  lemma {:induction false} PopulateExact(ids: seq<Id>, docs: seq<Torrent>)
    ensures Map(Populate(ids, docs), IdOf) == Filter(ids, HasRecord(docs))
    ensures forall k :: 0 <= k < |Populate(ids, docs)| ==>
      var t := Populate(ids, docs)[k];
      FirstIndex(docs, HasId(t.id)).Some? && t == docs[FirstIndex(docs, HasId(t.id)).value]
    decreases |ids|
  {
    if |ids| > 0 {
      var n := |ids| - 1;
      PopulateExact(ids[..n], docs);
      var init := Populate(ids[..n], docs);
      var tail: seq<Torrent> := match FirstIndex(docs, HasId(ids[n]))
        case None => []
        case Some(i) => [docs[i]];
      assert Populate(ids, docs) == init + tail;
      MapAppend(init, tail, IdOf);
      assert ids[..n] + [ids[n]] == ids;
      assert Filter(ids, HasRecord(docs))
          == Filter(ids[..n], HasRecord(docs)) + (if HasRecord(docs)(ids[n]) then [ids[n]] else []);
    }
  }

  /** Every id of the user's list that names a record brings that record
      into the populated list. */
  lemma PopulateComplete(ids: seq<Id>, docs: seq<Torrent>, k: nat)
    requires k < |ids| && FirstIndex(docs, HasId(ids[k])).Some?
    ensures docs[FirstIndex(docs, HasId(ids[k])).value] in Populate(ids, docs)
  {
    var r := Populate(ids, docs);
    PopulateExact(ids, docs);
    assert HasRecord(docs)(ids[k]);
    assert ids[k] in Map(r, IdOf);
    var j :| 0 <= j < |r| && Map(r, IdOf)[j] == ids[k];
    assert r[j].id == ids[k];
  }

  /** `get`: among the current user's records, the first with the slug,
      detailed; not-found when the user is unknown or has no such record. */
  function Get(docs: seq<Torrent>, lists: map<Id, seq<Id>>, currentUser: Id, slug: Slug, sessions: map<string, Session>): (r: Response)
    ensures r.NotFound? || r.Ok?
    ensures currentUser !in lists ==> r.NotFound?
    ensures currentUser in lists
      && (forall k :: 0 <= k < |Populate(lists[currentUser], docs)| ==> Populate(lists[currentUser], docs)[k].slug != slug)
      ==> r.NotFound?
    ensures r.NotFound? ==>
      currentUser !in lists
      || forall k :: 0 <= k < |Populate(lists[currentUser], docs)| ==> Populate(lists[currentUser], docs)[k].slug != slug
    ensures r.NotFound? ==> r.reason == "torrent not found"
    ensures r.Ok? ==>
      var owned := Populate(lists[currentUser], docs);
      var t := owned[FirstIndex(owned, HasSlug(slug)).value];
      && r.body == Document(Detailed(t, sessions))
      && t.slug == slug && t in docs && t.id in lists[currentUser]
  {
    if currentUser !in lists then NotFound("torrent not found")
    else
      var owned := Populate(lists[currentUser], docs);
      if |owned| == 0 then NotFound("torrent not found")
      else match FirstIndex(owned, HasSlug(slug))
        case None => NotFound("torrent not found")
        case Some(i) => Ok(Document(Detailed(owned[i], sessions)))
  }

  /** `get` and `getall` agree on a record's transfer snapshot. */
  lemma GetAgreesWithGetAll(docs: seq<Torrent>, lists: map<Id, seq<Id>>, currentUser: Id, slug: Slug, sessions: map<string, Session>)
    requires Get(docs, lists, currentUser, slug, sessions).Ok?
    ensures var t := Get(docs, lists, currentUser, slug, sessions).body.torrent;
      exists k :: 0 <= k < |docs| && docs[k].slug == slug && Detailed(docs[k], sessions) == t
        && GetAll(docs, sessions)[k].downloadInfo == t.downloadInfo
  {
    var owned := Populate(lists[currentUser], docs);
    var t := owned[FirstIndex(owned, HasSlug(slug)).value];
    var k :| 0 <= k < |docs| && docs[k] == t;
    assert GetAll(docs, sessions)[k].downloadInfo == Detailed(t, sessions).downloadInfo;
  }
}
