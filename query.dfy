/** The Torrent collection and the queries of `src/utils/query.ts`.

    The collection is a sequence of records in natural order, so that
    `findOne`, `updateOne` and `deleteOne` act on the FIRST matching
    record, as they do in the database. Reads are functions of that
    sequence; writes are methods of `TorrentTable`, each specified by a
    function of the old sequence. */
module Query {
  import opened Seqs
  import opened Types

  /** The video extensions `getVideoFiles` keeps (its own constant, not
      the configurable allowed set of the download task). */
  const VideoExtensions: set<string> := {"mp4", "mkv", "avi"}

  /** `getAllTorrentsFromDB` returns at most this many records. */
  const ListLimit: nat := 20

  // ---------------------------------------------------------------------
  // Query filters

  /** `{ _id }` */
  function HasId(id: Id): Torrent -> bool { (t: Torrent) => t.id == id }

  /** `{ slug }` */
  function HasSlug(slug: Slug): Torrent -> bool { (t: Torrent) => t.slug == slug }

  /** `{ magnet }` */
  function HasMagnet(magnet: string): Torrent -> bool { (t: Torrent) => t.magnet == magnet }

  /** An element of `files` with the given slug. */
  function SlugIs(slug: Slug): Video -> bool { (v: Video) => v.slug == slug }

  /** `{ 'files.slug': slug }` */
  function ContainsFile(slug: Slug): Torrent -> bool
  {
    (t: Torrent) => FirstIndex(t.files, SlugIs(slug)).Some?
  }

  /** `{ _id, 'files.slug': slug }` */
  function HoldsFile(id: Id, slug: Slug): Torrent -> bool
  {
    (t: Torrent) => t.id == id && FirstIndex(t.files, SlugIs(slug)).Some?
  }

  /** `file.slug === slug && file.status === 'done'` */
  function DoneWithSlug(slug: Slug): Video -> bool
  {
    (v: Video) => v.slug == slug && v.status == VideoState.DONE
  }

  /** A file whose extension is in `exts`. */
  function ExtIn(exts: set<string>): Video -> bool { (v: Video) => v.ext in exts }

  /** No two records share an `_id`. */
  ghost predicate UniqueIds(docs: seq<Torrent>)
  {
    forall i, j :: 0 <= i < j < |docs| ==> docs[i].id != docs[j].id
  }

  /** No two records share a magnet link. */
  ghost predicate UniqueMagnets(docs: seq<Torrent>)
  {
    forall i, j :: 0 <= i < j < |docs| ==> docs[i].magnet != docs[j].magnet
  }

  // ---------------------------------------------------------------------
  // Reads

  /** `doesTorrentAlreadyExist`: some stored record has this magnet. */
  function DoesTorrentAlreadyExist(docs: seq<Torrent>, magnet: string): (r: bool)
    ensures r <==> exists i :: 0 <= i < |docs| && docs[i].magnet == magnet
  {
    FirstIndex(docs, HasMagnet(magnet)).Some?
  }

  /** `getTorrentByMagnet`: the first record with this magnet, or null. */
  function GetTorrentByMagnet(docs: seq<Torrent>, magnet: string): (r: Option<Torrent>)
    ensures r.Some? ==> r.value in docs && r.value.magnet == magnet
    ensures r.None? <==> !DoesTorrentAlreadyExist(docs, magnet)
  {
    match FirstIndex(docs, HasMagnet(magnet))
    case None => None
    case Some(i) => Some(docs[i])
  }

  /** `getTorrentBySlug`: the first record with this slug, or null. */
  function GetTorrentBySlug(docs: seq<Torrent>, slug: Slug): (r: Option<Torrent>)
    ensures r.Some? ==> r.value in docs && r.value.slug == slug
    ensures r.None? <==> forall i :: 0 <= i < |docs| ==> docs[i].slug != slug
  {
    match FirstIndex(docs, HasSlug(slug))
    case None => None
    case Some(i) => Some(docs[i])
  }

  /** `getVideoFiles`: null for an unknown id, otherwise the files of the
      record whose extension is mp4, mkv or avi, in their stored order. */
  function GetVideoFiles(docs: seq<Torrent>, id: Id): (r: Option<seq<Video>>)
    ensures r.None? <==> forall i :: 0 <= i < |docs| ==> docs[i].id != id
    ensures r.Some? ==>
      var files := docs[FirstIndex(docs, HasId(id)).value].files;
      && r.value == Filter(files, ExtIn(VideoExtensions))
      && (forall k :: 0 <= k < |r.value| ==> r.value[k] in files && r.value[k].ext in VideoExtensions)
      && (forall k :: 0 <= k < |files| && files[k].ext in VideoExtensions ==> files[k] in r.value)
  {
    match FirstIndex(docs, HasId(id))
    case None => None
    case Some(i) => Some(Filter(docs[i].files, ExtIn(VideoExtensions)))
  }

  /** What `getVideoFile` resolves to: `null` when no record holds the
      slug, `undefined` when the record holding it has no finished file
      with it. */
  datatype Lookup = Null | Undefined | Found(video: Video)

  /** `getVideoFile`: looks in the first record that holds the slug and
      returns its first finished file with that slug. */
  function GetVideoFile(docs: seq<Torrent>, slug: Slug): (r: Lookup)
    ensures r.Null? <==>
      forall i, k :: 0 <= i < |docs| && 0 <= k < |docs[i].files| ==> docs[i].files[k].slug != slug
    ensures !r.Null? ==>
      var doc := docs[FirstIndex(docs, ContainsFile(slug)).value];
      && (r.Found? ==> r.video in doc.files && r.video.slug == slug && r.video.status == VideoState.DONE)
      && (r.Undefined? <==>
            forall k :: 0 <= k < |doc.files| ==> !(doc.files[k].slug == slug && doc.files[k].status == VideoState.DONE))
  {
    match FirstIndex(docs, ContainsFile(slug))
    case None =>
      assert forall i, k :: 0 <= i < |docs| && 0 <= k < |docs[i].files| ==> docs[i].files[k].slug != slug by {
        forall i, k | 0 <= i < |docs| && 0 <= k < |docs[i].files|
          ensures docs[i].files[k].slug != slug
        {
          assert !ContainsFile(slug)(docs[i]);
        }
      }
      Null
    case Some(i) =>
      match FirstIndex(docs[i].files, DoneWithSlug(slug))
      case None => Undefined
      case Some(k) => Found(docs[i].files[k])
  }

  /** A record as listed, with the `files` field left out of the
      projection. */
  datatype Listing = Listing(
    id: Id,
    slug: Slug,
    magnet: string,
    infoHash: Option<string>,
    name: Option<string>,
    size: Option<nat>,
    isMultiVideos: Option<bool>,
    status: TorrentState,
    downloadInfo: Option<DownloadInfo>)

  /** `select('-files')` of one record. */
  function Summary(t: Torrent): Listing
  {
    Listing(t.id, t.slug, t.magnet, t.infoHash, t.name, t.size, t.isMultiVideos, t.status, t.downloadInfo)
  }

  /** `getAllTorrentsFromDB`: the first twenty records, without files. */
  function GetAllTorrentsFromDB(docs: seq<Torrent>): (r: seq<Listing>)
    ensures |r| <= ListLimit
    ensures |r| == if |docs| < ListLimit then |docs| else ListLimit
    ensures forall k :: 0 <= k < |r| ==> r[k] == Summary(docs[k])
  {
    var n := if |docs| < ListLimit then |docs| else ListLimit;
    Map(docs[..n], Summary)
  }

  // ---------------------------------------------------------------------
  // Writes

  /** The positional `$set` / `$push` updates on `'files.$.…'`. */
  datatype FileEdit =
    | SetStatus(status: VideoState)
    | SetConvertable(convertable: bool)
    | SetConvertProgress(progress: real, state: ConvertState)
    | SetPath(path: string)
    | PushSubtitle(subtitle: Subtitle)

  /** One edit on one file: only the field the edit names changes. */
  function ApplyEdit(v: Video, e: FileEdit): (r: Video)
    ensures r.slug == v.slug && r.name == v.name && r.size == v.size && r.ext == v.ext
    ensures r.downloadInfo == v.downloadInfo
    ensures r.status == if e.SetStatus? then e.status else v.status
    ensures r.isConvertable == if e.SetConvertable? then e.convertable else v.isConvertable
    ensures r.convertStatus == if e.SetConvertProgress? then Some(ConvertStatus(e.progress, e.state)) else v.convertStatus
    ensures r.path == if e.SetPath? then e.path else v.path
    ensures |r.subtitles| == |v.subtitles| + (if e.PushSubtitle? then 1 else 0)
    ensures r.subtitles[..|v.subtitles|] == v.subtitles
    ensures e.PushSubtitle? ==> r.subtitles[|v.subtitles|] == e.subtitle
  {
    match e
    case SetStatus(s) => v.(status := s)
    case SetConvertable(b) => v.(isConvertable := b)
    case SetConvertProgress(p, s) => v.(convertStatus := Some(ConvertStatus(p, s)))
    case SetPath(p) => v.(path := p)
    case PushSubtitle(sub) => v.(subtitles := v.subtitles + [sub])
  }

  /** The record `updateOne({ _id, 'files.slug': slug }, …)` matches. */
  function Target(docs: seq<Torrent>, id: Id, slug: Slug): Option<nat>
  {
    FirstIndex(docs, HoldsFile(id, slug))
  }

  /** `updateOne({ _id, 'files.slug': slug }, { '$set' | '$push': { 'files.$.…' } })`:
      the edit lands on the first file with the slug in the first record
      with the id that holds one; nothing else changes, and nothing at all
      when no record matches. */
  function EditFile(docs: seq<Torrent>, id: Id, slug: Slug, e: FileEdit): (r: seq<Torrent>)
    ensures |r| == |docs|
    ensures Target(docs, id, slug).None? ==> r == docs
    ensures forall i :: 0 <= i < |docs| && Target(docs, id, slug) != Some(i) ==> r[i] == docs[i]
    ensures forall i :: 0 <= i < |docs| ==> r[i].id == docs[i].id && r[i].slug == docs[i].slug
    ensures Target(docs, id, slug).Some? ==>
      var i := Target(docs, id, slug).value;
      var files := docs[i].files;
      var k := FirstIndex(files, SlugIs(slug)).value;
      && docs[i].id == id && files[k].slug == slug
      && (forall j :: 0 <= j < k ==> files[j].slug != slug)
      && r[i].(files := files) == docs[i]
      && |r[i].files| == |files|
      && r[i].files[k] == ApplyEdit(files[k], e)
      && (forall j :: 0 <= j < |files| && j != k ==> r[i].files[j] == files[j])
  {
    match Target(docs, id, slug)
    case None => docs
    case Some(i) =>
      var files := docs[i].files;
      var k := FirstIndex(files, SlugIs(slug)).value;
      docs[i := docs[i].(files := files[k := ApplyEdit(files[k], e)])]
  }

  /** A `Partial<ITorrent>` as `updateTorrentInfo` receives it. */
  datatype TorrentPatch = TorrentPatch(
    name: Option<string>,
    infoHash: Option<string>,
    size: Option<nat>,
    isMultiVideos: Option<bool>,
    files: Option<seq<Video>>,
    status: Option<TorrentState>,
    downloadInfo: Option<DownloadInfo>)

  /** The patch `{ status }`. */
  function StatusPatch(s: TorrentState): TorrentPatch
  {
    TorrentPatch(None, None, None, None, None, Some(s), None)
  }

  /** A patch merged into a record: the fields it gives overwrite, every
      other field is kept, and the identity fields are never written. */
  function ApplyPatch(t: Torrent, p: TorrentPatch): (r: Torrent)
    ensures r.id == t.id && r.slug == t.slug && r.magnet == t.magnet
    ensures r.name == if p.name.Some? then p.name else t.name
    ensures r.infoHash == if p.infoHash.Some? then p.infoHash else t.infoHash
    ensures r.size == if p.size.Some? then p.size else t.size
    ensures r.isMultiVideos == if p.isMultiVideos.Some? then p.isMultiVideos else t.isMultiVideos
    ensures r.files == if p.files.Some? then p.files.value else t.files
    ensures r.status == if p.status.Some? then p.status.value else t.status
    ensures r.downloadInfo == if p.downloadInfo.Some? then p.downloadInfo else t.downloadInfo
  {
    Torrent(
      t.id, t.slug, t.magnet,
      if p.infoHash.Some? then p.infoHash else t.infoHash,
      if p.name.Some? then p.name else t.name,
      if p.size.Some? then p.size else t.size,
      if p.isMultiVideos.Some? then p.isMultiVideos else t.isMultiVideos,
      if p.files.Some? then p.files.value else t.files,
      if p.status.Some? then p.status.value else t.status,
      if p.downloadInfo.Some? then p.downloadInfo else t.downloadInfo)
  }

  /** `findOneAndUpdate({ _id }, data, { new: true })`: the new table and
      the updated record, or null when no record has the id. */
  function PatchById(docs: seq<Torrent>, id: Id, p: TorrentPatch): (r: (seq<Torrent>, Option<Torrent>))
    ensures r.1.None? <==> forall i :: 0 <= i < |docs| ==> docs[i].id != id
    ensures r.1.None? ==> r.0 == docs
    ensures r.1.Some? ==>
      var i := FirstIndex(docs, HasId(id)).value;
      && docs[i].id == id
      && r.1.value == ApplyPatch(docs[i], p)
      && |r.0| == |docs|
      && r.0[i] == r.1.value
      && (forall j :: 0 <= j < |docs| && j != i ==> r.0[j] == docs[j])
  {
    match FirstIndex(docs, HasId(id))
    case None => (docs, None)
    case Some(i) =>
      var t := ApplyPatch(docs[i], p);
      (docs[i := t], Some(t))
  }

  /** `deleteOne({ _id })`: the first record with the id is removed and
      the others keep their order. */
  function RemoveById(docs: seq<Torrent>, id: Id): (r: seq<Torrent>)
    ensures FirstIndex(docs, HasId(id)).None? ==> r == docs
    ensures FirstIndex(docs, HasId(id)).Some? ==>
      var i := FirstIndex(docs, HasId(id)).value;
      |r| == |docs| - 1 && r == docs[..i] + docs[i + 1..]
  {
    match FirstIndex(docs, HasId(id))
    case None => docs
    case Some(i) => docs[..i] + docs[i + 1..]
  }

  // ---------------------------------------------------------------------
  // Properties of the writes

  /** Where each survivor of a removal came from. */
  lemma RemovedAt(docs: seq<Torrent>, i: nat)
    requires i < |docs|
    ensures |docs[..i] + docs[i + 1..]| == |docs| - 1
    ensures forall k :: 0 <= k < i ==> (docs[..i] + docs[i + 1..])[k] == docs[k]
    ensures forall k :: i < k < |docs| ==> (docs[..i] + docs[i + 1..])[k - 1] == docs[k]
  {
  }

  /** Deleting by id keeps every record with another id. */
  lemma RemoveByIdKeepsOthers(docs: seq<Torrent>, id: Id)
    ensures forall k :: 0 <= k < |docs| && docs[k].id != id ==> docs[k] in RemoveById(docs, id)
  {
    var r := RemoveById(docs, id);
    match FirstIndex(docs, HasId(id))
    case None =>
    case Some(i) =>
      RemovedAt(docs, i);
      forall k | 0 <= k < |docs| && docs[k].id != id ensures docs[k] in r {
        if k < i { assert r[k] == docs[k]; } else { assert r[k - 1] == docs[k]; }
      }
  }

  /** In a table whose ids are unique, deleting by id leaves no record
      with that id and keeps the ids unique. */
  lemma RemoveByIdClears(docs: seq<Torrent>, id: Id)
    requires UniqueIds(docs)
    ensures UniqueIds(RemoveById(docs, id))
    ensures forall k :: 0 <= k < |RemoveById(docs, id)| ==> RemoveById(docs, id)[k].id != id
  {
    var r := RemoveById(docs, id);
    match FirstIndex(docs, HasId(id))
    case None =>
    case Some(i) =>
      RemovedAt(docs, i);
      forall k | 0 <= k < |r| ensures r[k].id != id {
        if k < i { assert r[k] == docs[k]; } else { assert r[k] == docs[k + 1]; }
      }
      forall a, b | 0 <= a < b < |r| ensures r[a].id != r[b].id {
        if b < i {
          assert r[a] == docs[a] && r[b] == docs[b];
        } else if a < i {
          assert r[a] == docs[a] && r[b] == docs[b + 1];
        } else {
          assert r[a] == docs[a + 1] && r[b] == docs[b + 1];
        }
      }
  }

  /** A second update by the same id lands on the record the first one
      changed, and the record carries both patches, the later one on top. */
  lemma PatchTwice(docs: seq<Torrent>, id: Id, p1: TorrentPatch, p2: TorrentPatch)
    requires exists i :: 0 <= i < |docs| && docs[i].id == id
    ensures var k := FirstIndex(docs, HasId(id)).value;
      var once := PatchById(docs, id, p1).0;
      var twice := PatchById(once, id, p2);
      && twice.1 == Some(ApplyPatch(ApplyPatch(docs[k], p1), p2))
      && |twice.0| == |docs|
      && twice.0[k] == twice.1.value
      && (forall j :: 0 <= j < |docs| && j != k ==> twice.0[j] == docs[j])
  {
    var once := PatchById(docs, id, p1).0;
    FirstIndexCongruent(docs, once, HasId(id), HasId(id));
  }

  /** Two sequences whose elements agree pointwise on the predicates have
      the same first match. */
  lemma FirstIndexCongruent<T>(xs: seq<T>, ys: seq<T>, p: T -> bool, q: T -> bool)
    requires |xs| == |ys|
    requires forall j :: 0 <= j < |xs| ==> p(xs[j]) == q(ys[j])
    ensures FirstIndex(xs, p) == FirstIndex(ys, q)
  {
    var a := FirstIndex(xs, p);
    if a.Some? {
      assert q(ys[a.value]);
      assert forall j :: 0 <= j < a.value ==> !q(ys[j]);
    } else {
      assert forall j :: 0 <= j < |ys| ==> !q(ys[j]);
    }
  }

  /** An edit keeps the record it targets, and the file within it. */
  lemma EditFileKeepsTarget(docs: seq<Torrent>, id: Id, slug: Slug, e: FileEdit)
    ensures Target(EditFile(docs, id, slug, e), id, slug) == Target(docs, id, slug)
    ensures Target(docs, id, slug).Some? ==>
      var i := Target(docs, id, slug).value;
      FirstIndex(EditFile(docs, id, slug, e)[i].files, SlugIs(slug)) == FirstIndex(docs[i].files, SlugIs(slug))
  {
    var once := EditFile(docs, id, slug, e);
    if Target(docs, id, slug).Some? {
      var i := Target(docs, id, slug).value;
      FirstIndexCongruent(docs[i].files, once[i].files, SlugIs(slug), SlugIs(slug));
      forall j | 0 <= j < |docs|
        ensures HoldsFile(id, slug)(docs[j]) == HoldsFile(id, slug)(once[j])
      {
        if j == i {
          FirstIndexCongruent(docs[i].files, once[i].files, SlugIs(slug), SlugIs(slug));
        }
      }
      FirstIndexCongruent(docs, once, HoldsFile(id, slug), HoldsFile(id, slug));
    }
  }

  /** A positional `$set` is idempotent: applying the same update twice
      leaves the table as applying it once. (A `$push` is not.) */
  lemma SetEditIdempotent(docs: seq<Torrent>, id: Id, slug: Slug, e: FileEdit)
    requires !e.PushSubtitle?
    ensures EditFile(EditFile(docs, id, slug, e), id, slug, e) == EditFile(docs, id, slug, e)
  {
    var once := EditFile(docs, id, slug, e);
    var twice := EditFile(once, id, slug, e);
    EditFileKeepsTarget(docs, id, slug, e);
    if Target(docs, id, slug).Some? {
      var i := Target(docs, id, slug).value;
      var k := FirstIndex(docs[i].files, SlugIs(slug)).value;
      assert ApplyEdit(once[i].files[k], e) == once[i].files[k];
      assert twice[i].files == once[i].files;
      assert twice[i] == once[i];
      assert twice == once;
    }
  }

  /** The Torrent collection. */
  class TorrentTable {
    var docs: seq<Torrent>

    ghost predicate Valid()
      reads this
    {
      UniqueIds(docs)
    }

    constructor ()
      ensures Valid() && docs == []
    {
      docs := [];
    }

    /** `createTorrentWithMagnet`: saves a new record in state `added`.
        The id is the one the database generates, fresh by construction. */
    method CreateTorrentWithMagnet(id: Id, slug: Slug, magnet: string) returns (doc: Torrent)
      requires Valid()
      requires forall i :: 0 <= i < |docs| ==> docs[i].id != id
      modifies this
      ensures Valid()
      ensures doc == NewTorrent(id, slug, magnet)
      ensures doc.magnet == magnet && doc.status == TorrentState.ADDED && doc.files == []
      ensures docs == old(docs) + [doc]
    {
      doc := NewTorrent(id, slug, magnet);
      docs := docs + [doc];
    }

    /** `clearTorrents`: `deleteMany({})`. */
    method ClearTorrents()
      modifies this
      ensures Valid() && docs == []
    {
      docs := [];
    }

    /** `updateTorrentInfo`: merges `data` into the record with the id and
        returns the updated record, or null when there is none. */
    method UpdateTorrentInfo(id: Id, data: TorrentPatch) returns (saved: Option<Torrent>)
      requires Valid()
      modifies this
      ensures Valid()
      ensures (docs, saved) == PatchById(old(docs), id, data)
    {
      var r := PatchById(docs, id, data);
      assert forall i :: 0 <= i < |docs| ==> r.0[i].id == docs[i].id;
      docs, saved := r.0, r.1;
    }

    /** `updateTorrentDownloadInfo`: `$set: { downloadInfo }` by id. */
    method UpdateTorrentDownloadInfo(id: Id, info: DownloadInfo)
      requires Valid()
      modifies this
      ensures Valid()
      ensures docs == PatchById(old(docs), id, TorrentPatch(None, None, None, None, None, None, Some(info))).0
    {
      var r := PatchById(docs, id, TorrentPatch(None, None, None, None, None, None, Some(info)));
      assert forall i :: 0 <= i < |docs| ==> r.0[i].id == docs[i].id;
      docs := r.0;
    }

    /** `updateTorrentFileStatus`: `$set: { 'files.$.status': status }`. */
    method UpdateTorrentFileStatus(id: Id, slug: Slug, status: VideoState)
      requires Valid()
      modifies this
      ensures Valid()
      ensures docs == EditFile(old(docs), id, slug, SetStatus(status))
    {
      docs := EditFile(docs, id, slug, SetStatus(status));
    }

    /** `updateTorrentFileConvertable`: `$set: { 'files.$.isConvertable': bool }`. */
    method UpdateTorrentFileConvertable(id: Id, slug: Slug, convertable: bool)
      requires Valid()
      modifies this
      ensures Valid()
      ensures docs == EditFile(old(docs), id, slug, SetConvertable(convertable))
    {
      docs := EditFile(docs, id, slug, SetConvertable(convertable));
    }

    /** `updateFileConvertProgress`: `$set: { 'files.$.convertStatus': { progress, state } }`. */
    method UpdateFileConvertProgress(id: Id, slug: Slug, progress: real, state: ConvertState)
      requires Valid()
      modifies this
      ensures Valid()
      ensures docs == EditFile(old(docs), id, slug, SetConvertProgress(progress, state))
    {
      docs := EditFile(docs, id, slug, SetConvertProgress(progress, state));
    }

    /** `updateFilePath`: `$set: { 'files.$.path': path }`. */
    method UpdateFilePath(id: Id, slug: Slug, path: string)
      requires Valid()
      modifies this
      ensures Valid()
      ensures docs == EditFile(old(docs), id, slug, SetPath(path))
    {
      docs := EditFile(docs, id, slug, SetPath(path));
    }

    /** `addSubtitleFile`: `$push: { 'files.$.subtitles': subtitleInfo }`. */
    method AddSubtitleFile(id: Id, fileSlug: Slug, subtitle: Subtitle)
      requires Valid()
      modifies this
      ensures Valid()
      ensures docs == EditFile(old(docs), id, fileSlug, PushSubtitle(subtitle))
    {
      docs := EditFile(docs, id, fileSlug, PushSubtitle(subtitle));
    }

    /** `deleteTorrentByID`: `deleteOne({ _id })`. */
    method DeleteTorrentByID(id: Id)
      requires Valid()
      modifies this
      ensures Valid()
      ensures docs == RemoveById(old(docs), id)
      ensures forall k :: 0 <= k < |docs| ==> docs[k].id != id
    {
      RemoveByIdClears(docs, id);
      docs := RemoveById(docs, id);
    }
  }
}
