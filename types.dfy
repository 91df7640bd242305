/** The entities the pipeline stores, publishes and reads from live
    download sessions: the persisted Torrent and its video files, the
    state enums, the queue names and message payloads, and the abstract
    webtorrent session. */
module Types {
  import opened Seqs

  /** A document `_id`. */
  type Id = string
  /** A public short identifier, generated by the schema. */
  type Slug = string

  /** The states a Torrent record can be in. */
  datatype TorrentState = DOWNLOADING | PAUSED | DONE | QUEUED | ERROR | ADDED | PROCESSING

  /** The states a video file can be in, independent of its Torrent's. */
  datatype VideoState = DOWNLOADING | PROCESSING | DONE | ERROR | QUEUED

  /** The state of a file's conversion. */
  datatype ConvertState = PENDING | RUNNING | DONE | ERROR

  /** `convertStatus: { progress, state }` of a file. */
  datatype ConvertStatus = ConvertStatus(progress: real, state: ConvertState)

  datatype Subtitle = Subtitle(fileName: string, title: string, language: string, path: string)

  /** Per-file transfer snapshot of a live session. */
  datatype FileDownloadInfo = FileDownloadInfo(downloaded: real, progress: real)

  /** Whole-torrent transfer snapshot of a live session. */
  datatype DownloadInfo = DownloadInfo(
    downloadSpeed: real,
    uploadSpeed: real,
    progress: real,
    timeRemaining: real,
    paused: bool,
    completed: bool)

  /** A persisted video file, an element of a Torrent's `files` array.
      `convertStatus` is `None` until a conversion worker first writes it;
      `downloadInfo` is only ever attached to a response, never stored. */
  datatype Video = Video(
    slug: Slug,
    name: string,
    path: string,
    size: nat,
    ext: string,
    isConvertable: bool,
    status: VideoState,
    convertStatus: Option<ConvertStatus>,
    subtitles: seq<Subtitle>,
    downloadInfo: Option<FileDownloadInfo>)

  /** A persisted Torrent record. `infoHash`, `name`, `size` and
      `isMultiVideos` are unset until the session's metadata resolves. */
  datatype Torrent = Torrent(
    id: Id,
    slug: Slug,
    magnet: string,
    infoHash: Option<string>,
    name: Option<string>,
    size: Option<nat>,
    isMultiVideos: Option<bool>,
    files: seq<Video>,
    status: TorrentState,
    downloadInfo: Option<DownloadInfo>)

  /** A record as `createTorrentWithMagnet` and `add` first save it. */
  function NewTorrent(id: Id, slug: Slug, magnet: string): Torrent
  {
    Torrent(id, slug, magnet, None, None, None, None, [], TorrentState.ADDED, None)
  }

  /** One file of a live webtorrent session (`file.name`, `file.path`,
      `file.length`) with its transfer snapshot. */
  datatype SessionFile = SessionFile(name: string, path: string, length: nat, info: FileDownloadInfo)

  /** A live webtorrent session once its metadata has resolved. */
  datatype Session = Session(
    name: string,
    infoHash: string,
    length: nat,
    files: seq<SessionFile>,
    info: DownloadInfo)

  /** The storage roots of `TorrentPath`. */
  datatype TorrentPath = TMP | DOWNLOAD | SUBTITLES

  /** The path `${root}/${entry}`. */
  datatype StoragePath = StoragePath(root: TorrentPath, entry: string)

  datatype QueueName = DOWNLOAD_TORRENT | TRACK_TORRENT | CONVERT_VIDEO | FILE_MOVE | FILE_DELETE

  /** Message payloads, one per queue. */
  datatype Message =
    | DownloadRequest(torrent: Torrent)
    | TrackTorrent(torrentId: Id, torrentInfoHash: Option<string>)
    | ConvertVideo(torrentId: Id, file: Video)
    | MoveFile(src: string, dest: string, torrentId: Id, fileSlug: Slug)
    | DeleteFile(target: StoragePath)

  /** Publish options: none, or `{ persistent, expiration }`. */
  datatype PublishOptions = NoOptions | Options(persistent: bool, expiration: string)

  /** One `sendToQueue(queue, body, options)` call. */
  datatype Outgoing = Outgoing(queue: QueueName, body: Message, options: PublishOptions)
}
