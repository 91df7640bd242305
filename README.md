# cloud-torrent-downloader-api, modelled in Dafny

This project models the decision logic of a service that takes magnet links,
downloads them with a webtorrent client, and hands the video files to a
RabbitMQ conversion pipeline. It covers three parts:

- **The DOWNLOAD_TORRENT consumer** (`downloadTorrent`). It classifies the
  session's files by extension and deselects the rest. It then takes one of
  two branches:
  - no media: destroy the session and its store, mark the record, ack;
  - otherwise: save the torrent's metadata and publish one TRACK_TORRENT
    message. On completion it sets the status to `done`, sends each video
    file to CONVERT_VIDEO or FILE_MOVE, acks, and destroys the session.
- **The store helpers of `utils/query`**. They are finds, filters and
  positional updates on the Torrent collection.
- **The torrent controller's handlers**:
  - `add`: rejects a duplicate magnet, otherwise creates, pushes and publishes;
  - `del`: not found, or cancel the session, publish the deletion plan, remove
    and pull;
  - `getall` and `get`: decorate records with live download information.

State is in memory:

- The Torrent collection is a sequence of records in natural order, so "the
  first document a query matches" is the least matching index. It is held by
  the class `Query.TorrentTable`.
- The users' torrent lists are `Runtime.UserTable`.
- The webtorrent client's live sessions are a map from info-hash to an
  abstract session, `Runtime.Client`.
- The publisher channel is an append-only outbox, `Runtime.Publisher`.

The handler `DownloadTask.DownloadTorrent` is a method. It changes the table
and returns, in order, every other effect it has: the session it opens for
the message's magnet under TMP (`client.add`), deselects, publishes, the ack,
session destroys and store calls. It is proved equal to the function
`DownloadTask.Run`, and the lemmas state what a run promises in terms of
`Run`.

Modules:

- `seqs.dfy`: `Option`, and the `filter`, `map` and `find` of arrays with
  their laws.
- `types.dfy`: records, enums, queue names and message payloads.
- `query.dfy`: `utils/query.ts`.
- `runtime.dfy`: the outbox, the session table and the users' lists.
- `download_task.dfy`: `rabbitmq/tasks/task.downloadtorrent.ts`.
- `torrent_controller.dfy`: `controllers/torrent.controller.ts`.

Inputs taken as parameters (`DownloadTask.Env` and method arguments):

- the allowed and convertible extension sets;
- `getFileOutputPath`;
- the slug the schema gives each stored file;
- the id and slug of a new record;
- whether the session's metadata resolves (`session` is `None` when it never
  does);
- whether its `done` event fires.

What the handler does not do, as the code stands:

- **It does not check the record's status.** `downloadTorrent` never reads
  the record before acting, so a redelivered message starts a new download
  and repeats the no-media branch. `updateNoMediaTorrent` is not defined in
  `utils/query.ts`, so the model records the call as an effect and leaves
  the record unchanged.
- **Status updates are unconditional.** Every update helper in
  `utils/query.ts` writes the status it is given, whatever the current one.
- **It does not bound the wait for metadata.** There is no timeout.
- **It does not ack after a failed save.** A missing record makes
  `updateTorrentInfo` return null. Reading `SavedTorrent._id` then throws
  inside the `client.add` callback, outside the `try` whose `catch` is at
  task.downloadtorrent.ts:98. The run ends there: the message is never
  acknowledged and nothing is published (`MissingRecordNotAcked`). The
  unhandled rejection of the callback's promise and the session, which keeps
  running, are not modelled beyond the `Opened` effect that started it.

## Model

| member | source | states |
|---|---|---|
| DownloadTask.Extension | src/rabbitmq/tasks/task.downloadtorrent.ts:25 | the extension contains no dot and is no longer than the name |
| DownloadTask.ExtensionIsLastSegment | src/rabbitmq/tasks/task.downloadtorrent.ts:25 | the extension is a suffix of the name that is the whole name or follows a dot; a name without a dot is its own extension; a name ending in a dot has the empty extension |
| DownloadTask.ExtensionUnique | src/rabbitmq/tasks/task.downloadtorrent.ts:25 | any dot-free suffix that is the whole name or follows a dot is the extension, so the text after the last dot is the only answer |
| DownloadTask.ExtensionOfDotted | src/rabbitmq/tasks/task.downloadtorrent.ts:25 | the extension of `base.e` is `e` whatever dots `base` holds |
| DownloadTask.Classify | src/rabbitmq/tasks/task.downloadtorrent.ts:23-42 | at most one video file per session file, each with an allowed extension |
| DownloadTask.ClassifyAsFilter | src/rabbitmq/tasks/task.downloadtorrent.ts:23-42 | map-then-filter equals filter-then-map: the video files are the allowed session files, described, in session order |
| DownloadTask.ClassifiedFiles | src/rabbitmq/tasks/task.downloadtorrent.ts:26-39 | each video file copies name, path and length of an allowed session file, has status downloading, and is convertible iff its extension is in the convertible set, independently of the allowed set |
| DownloadTask.ClassifyKeeps | src/rabbitmq/tasks/task.downloadtorrent.ts:42 | every session file with an allowed extension is among the video files |
| DownloadTask.DeselectsExactly | src/rabbitmq/tasks/task.downloadtorrent.ts:28-31 | file i is deselected iff it exists and its extension is not allowed; no allowed file is deselected |
| DownloadTask.OnlyDeselections | src/rabbitmq/tasks/task.downloadtorrent.ts:28-31 | the classification step's only effects are deselects |
| DownloadTask.DeselectionsCount | src/rabbitmq/tasks/task.downloadtorrent.ts:28-31 | one deselect per session file outside the video files |
| DownloadTask.KeptPlusDeselected | src/rabbitmq/tasks/task.downloadtorrent.ts:23-42 | video files plus deselected files number the session's files |
| DownloadTask.DescribeFiles | src/rabbitmq/tasks/task.downloadtorrent.ts:23-41 | the loop yields `Map(files, DescribeWith(env.convertible))` and exactly `Deselections(files, env.allowed)` |
| DownloadTask.StoredFiles | src/rabbitmq/tasks/task.downloadtorrent.ts:32-39 | every stored video file has an allowed extension, status downloading, no conversion status, no subtitles, its schema slug, and is convertible iff its extension is convertible |
| DownloadTask.HandlerExits | src/rabbitmq/tasks/task.downloadtorrent.ts:17-22 | a null message does nothing; an unreadable one is only acked (catch at line 98); a readable one whose metadata never resolves only opens a session for its magnet under TMP, and the message stays unacked |
| DownloadTask.NoMediaOutcome | src/rabbitmq/tasks/task.downloadtorrent.ts:22-49 | without video files: the first effect opens the session for the message's magnet under TMP, every file is deselected, the session is destroyed with its store, the record is marked no-media, one ack comes last, nothing is published, the table is unchanged |
| DownloadTask.MediaRecord | src/rabbitmq/tasks/task.downloadtorrent.ts:51-70 | with a video file and a stored record: only that record changes; it gets name, info-hash, size, isMultiVideos iff more than one video file, the stored files, and status downloading, or done once complete |
| DownloadTask.MediaMessages | src/rabbitmq/tasks/task.downloadtorrent.ts:22-66 | the first effect opens the session for the message's magnet under TMP; exactly one TRACK_TORRENT carrying the record's id and the session's info-hash; the message is acked only on completion, then once |
| DownloadTask.DoneFanOut | src/rabbitmq/tasks/task.downloadtorrent.ts:71-91 | on completion each stored file goes to CONVERT_VIDEO (id and file) if convertible, else to FILE_MOVE (path, output path, id, slug); CONVERT_VIDEO gets one message per convertible stored file, FILE_MOVE one per other file, together as many as the video files |
| DownloadTask.DoneAckOrder | src/rabbitmq/tasks/task.downloadtorrent.ts:67-94 | the awaited status update to `done` precedes every CONVERT_VIDEO and FILE_MOVE publish; every FILE_MOVE comes before the ack; the ack is second to last and the destroy, keeping files, is last |
| DownloadTask.MissingRecordNotAcked | src/rabbitmq/tasks/task.downloadtorrent.ts:53-66 | when the record is gone the run publishes nothing, acks nothing and changes nothing |
| DownloadTask.OnDoneStatusFirst | src/rabbitmq/tasks/task.downloadtorrent.ts:67-91 | the `done` callback's first effect is the status update to `done`, and it precedes every CONVERT_VIDEO and FILE_MOVE publish when none came before the callback |
| DownloadTask.OnDoneOrder | src/rabbitmq/tasks/task.downloadtorrent.ts:67-95 | the done callback adds as many CONVERT_VIDEO and FILE_MOVE messages as stored files and ends with the ack and then the destroy |
| DownloadTask.PublishConverts | src/rabbitmq/tasks/task.downloadtorrent.ts:73-81 | one CONVERT_VIDEO per convertible file, in file order |
| DownloadTask.PublishMoves | src/rabbitmq/tasks/task.downloadtorrent.ts:82-91 | one FILE_MOVE per non-convertible file, in file order |
| DownloadTask.Run | src/rabbitmq/tasks/task.downloadtorrent.ts:14-102 | the handler as a function (no contract of its own): null message, unreadable content (acked), or a session opened for the magnet under TMP followed, once metadata resolves, by the metadata callback; its properties are the lemmas of this table and DownloadTorrent is proved equal to it |
| DownloadTask.Opening | src/rabbitmq/tasks/task.downloadtorrent.ts:22 | the `client.add(magnet, { path: TMP })` call of a readable message (no contract of its own); HandlerExits, NoMediaOutcome and MediaMessages state it is the first effect |
| DownloadTask.OnMetadata | src/rabbitmq/tasks/task.downloadtorrent.ts:22-97 | the `client.add` call and its callback (no contract of its own): the opened session, the no-media branch, the save, the stop on a null save, the TRACK publish, and the `done` callback; see NoMediaOutcome, MediaRecord, MediaMessages, MissingRecordNotAcked |
| DownloadTask.OnDone | src/rabbitmq/tasks/task.downloadtorrent.ts:67-95 | the `done` callback (no contract of its own): status `done`, converts, moves, ack, destroy keeping files; see OnDoneOrder, OnDoneExtends, OnDonePublishesEach |
| DownloadTask.OnDoneExtends | src/rabbitmq/tasks/task.downloadtorrent.ts:67-95 | the `done` callback keeps the earlier effects as a prefix, acks once, and publishes to no queue but CONVERT_VIDEO and FILE_MOVE |
| DownloadTask.OnDonePublishesEach | src/rabbitmq/tasks/task.downloadtorrent.ts:71-91 | every stored file is published by the `done` callback, to CONVERT_VIDEO when convertible, else to FILE_MOVE |
| DownloadTask.Deselections | src/rabbitmq/tasks/task.downloadtorrent.ts:28-31 | the deselect calls in file order (no contract of its own); characterised by DeselectsExactly, OnlyDeselections and DeselectionsCount |
| DownloadTask.Describe | src/rabbitmq/tasks/task.downloadtorrent.ts:24-39 | the object built for one session file (no contract of its own); its fields are stated by ClassifiedFiles |
| DownloadTask.InfoPatch | src/rabbitmq/tasks/task.downloadtorrent.ts:51-60 | the update document saved on metadata (no contract of its own); its effect on the record is stated by MediaRecord |
| DownloadTask.PersistAll | src/rabbitmq/tasks/task.downloadtorrent.ts:32-39 | one stored file per video file, in order, each the video file with its schema slug |
| DownloadTask.ConvertPublishes | src/rabbitmq/tasks/task.downloadtorrent.ts:71-81 | the CONVERT_VIDEO publishes of the convertible files, in order (no contract of its own); PublishConverts is proved equal to it and DoneFanOut counts it |
| DownloadTask.MovePublishes | src/rabbitmq/tasks/task.downloadtorrent.ts:82-91 | the FILE_MOVE publishes of the other files, in order (no contract of its own); PublishMoves is proved equal to it and DoneFanOut counts it |
| DownloadTask.DownloadTorrent | src/rabbitmq/tasks/task.downloadtorrent.ts:14-102 | the effects and the new table are those of `Run` on the old table; record ids stay unique |
| Query.DoesTorrentAlreadyExist | src/utils/query.ts:59-63 | true iff some record has the magnet |
| Query.GetTorrentByMagnet | src/utils/query.ts:92-101 | null iff no record has the magnet, else a stored record with it |
| Query.GetTorrentBySlug | src/utils/query.ts:81-90 | null iff no record has the slug, else a stored record with it |
| Query.GetVideoFiles | src/utils/query.ts:7-18 | null iff no record has the id; else the order-preserving sublist of that record's files with extension mp4, mkv or avi, all of them |
| Query.GetVideoFile | src/utils/query.ts:123-132 | null iff no record holds the slug; else, in the first record holding it, a done file with the slug, or undefined iff there is none |
| Query.Summary | src/utils/query.ts:114 | a record without its `files` field, as `select('-files')` returns it (no contract of its own) |
| Query.GetAllTorrentsFromDB | src/utils/query.ts:112-121 | min(n, 20) records, the first ones, each without its files |
| Query.ApplyEdit | src/utils/query.ts:35-79 | only the named file field changes; a subtitle push appends at the end and keeps the earlier entries |
| Query.EditFile | src/utils/query.ts:35-79 | the edit lands on the first file with the slug in the first record with the id holding it; every other file and record is unchanged; no change without a match |
| Query.EditFileKeepsTarget | src/utils/query.ts:35-79 | an edit leaves the same record and file as the match |
| Query.SetEditIdempotent | src/utils/query.ts:35-79 | repeating a `$set` edit changes nothing more |
| Query.ApplyPatch | src/utils/query.ts:24-33 | given fields overwrite, the others are kept, and id, slug and magnet never change |
| Query.PatchById | src/utils/query.ts:24-33 | null iff no record has the id (table unchanged); else the first such record is replaced by the patched one, which is returned, and the others are unchanged |
| Query.PatchTwice | src/utils/query.ts:24-33 | a second update by the same id lands on the same record and carries both patches |
| Query.RemoveById | src/utils/query.ts:103-109 | the first record with the id is removed and the others keep their order; no change without one |
| Query.RemoveByIdKeepsOthers | src/utils/query.ts:103-109 | every record with another id is still there |
| Query.RemoveByIdClears | src/utils/query.ts:103-109 | with unique ids, no record with the id remains and ids stay unique |
| Query.TorrentTable.CreateTorrentWithMagnet | src/utils/query.ts:9-12 | appends a record with the magnet, status added and no files; ids stay unique |
| Query.TorrentTable.ClearTorrents | src/utils/query.ts:20-22 | the table is empty |
| Query.TorrentTable.UpdateTorrentInfo | src/utils/query.ts:24-33 | new table and result are those of PatchById |
| Query.TorrentTable.UpdateTorrentDownloadInfo | src/utils/query.ts:65-71 | only the record's downloadInfo is set |
| Query.TorrentTable.UpdateTorrentFileStatus | src/utils/query.ts:35-37 | the table is EditFile with a status edit |
| Query.TorrentTable.UpdateTorrentFileConvertable | src/utils/query.ts:39-41 | the table is EditFile with an isConvertable edit |
| Query.TorrentTable.UpdateFileConvertProgress | src/utils/query.ts:43-57 | the table is EditFile with a convertStatus edit |
| Query.TorrentTable.UpdateFilePath | src/utils/query.ts:73-79 | the table is EditFile with a path edit |
| Query.TorrentTable.AddSubtitleFile | src/utils/query.ts:134-140 | the table is EditFile with a subtitle push |
| Query.TorrentTable.DeleteTorrentByID | src/utils/query.ts:103-109 | the table is RemoveById and holds no record with the id |
| Runtime.LiveSession | src/controllers/torrent.controller.ts:23-24 | a session iff the record has an info-hash with a live session |
| Runtime.PushTo | src/controllers/torrent.controller.ts:154 | the id is appended to the user's list; other users are unchanged |
| Runtime.PullFrom | src/controllers/torrent.controller.ts:126 | the user's list becomes its order-preserving sublist without the id: every occurrence leaves, every other id stays, nothing is added; other users are unchanged |
| Runtime.Publisher.SendToQueue | src/controllers/torrent.controller.ts:110-121 | the outbox gains exactly the one message, with its queue and options |
| Runtime.Client.Get | src/controllers/torrent.controller.ts:105 | the live session under the record's info-hash, if any (no contract of its own; see LiveSession) |
| Runtime.Client.Destroy | src/controllers/torrent.controller.ts:107 | the session leaves the client; the other sessions stay |
| Runtime.UserTable.PushTorrent | src/controllers/torrent.controller.ts:154 | the users' lists become PushTo of the old lists |
| Runtime.UserTable.PullTorrent | src/controllers/torrent.controller.ts:126 | the users' lists become PullFrom of the old lists |
| TorrentController.Add | src/controllers/torrent.controller.ts:139-169 | duplicate magnet: bad request and nothing changes; else the record is added with status added, its id pushed to the user, and it is published to DOWNLOAD_TORRENT, persistent, expiring after 86400000 ms; unique magnets stay unique |
| TorrentController.AddedMagnetExists | src/controllers/torrent.controller.ts:145-152 | after an add the same magnet is refused |
| TorrentController.FileDeletes | src/controllers/torrent.controller.ts:113-121 | 2n FILE_DELETE messages, the download then the subtitles path of each file in order |
| TorrentController.DeletionPlan | src/controllers/torrent.controller.ts:110-121 | 1 + 2n FILE_DELETE messages, the temporary directory first |
| TorrentController.PublishFileDeletes | src/controllers/torrent.controller.ts:113-121 | the loop publishes exactly FileDeletes of the files, in order |
| TorrentController.PublishDeletionPlan | src/controllers/torrent.controller.ts:110-121 | the outbox gains the deletion plan |
| TorrentController.Del | src/controllers/torrent.controller.ts:94-132 | unknown slug: not found and nothing changes; else a live session is destroyed, the plan published, the record removed and its id pulled from the user |
| TorrentController.WithDownloadInfo | src/controllers/torrent.controller.ts:22-29 | download info is attached iff status is downloading and a live session exists; nothing else changes |
| TorrentController.GetAll | src/controllers/torrent.controller.ts:17-30 | same length and order, each record decorated by WithDownloadInfo |
| TorrentController.GetAllUndecorated | src/controllers/torrent.controller.ts:21-30 | a record not downloading, or without a live session, is returned unchanged |
| TorrentController.WithFileInfo | src/controllers/torrent.controller.ts:70-76 | a file gets the info of the first session file with its name; without one it is unchanged |
| TorrentController.Detailed | src/controllers/torrent.controller.ts:65-81 | a downloading record with a live session gets the session's info, and each file its matched info; otherwise the record is unchanged |
| TorrentController.Populate | src/controllers/torrent.controller.ts:50 | the user's records come from the table and are named by the user's ids |
| TorrentController.PopulateExact | src/controllers/torrent.controller.ts:50 | the populated ids are exactly the user's ids that name a record, in the list's order, and each entry is the first record with its id |
| TorrentController.PopulateComplete | src/controllers/torrent.controller.ts:50 | an owned id that names a record brings that record into the populated list |
| TorrentController.Get | src/controllers/torrent.controller.ts:46-87 | not found iff the user is unknown or no populated record has the slug (both directions, as separate clauses); else the first such record in the user's list, detailed, which is a stored record with the slug and an owned id |
| TorrentController.GetAgreesWithGetAll | src/controllers/torrent.controller.ts:21-29 | the record `get` returns is the detailed form of a stored record with the slug, and `getall` gives that same record the same download info |

## Left out

- HTTP: Express requests and responses, `boom` errors and logging. Handlers return a `Response` datatype. Internal-server-error paths are not modelled.
- Database failures: every store call that logs and returns null (or throws) on a database error is modelled as always succeeding.
- RabbitMQ transport: channels, prefetch, persistence and expiry are not modelled. Every publish is taken to resolve: the DOWNLOAD_TORRENT publish in `add`, the TRACK_TORRENT and CONVERT_VIDEO publishes of the handler, and the FILE_MOVE publishes awaited by `Promise.all` at task.downloadtorrent.ts:82-91. If one of those rejected, the `done` callback would throw before `channel.ack` and `torrent.destroy`; that path is not modelled.
- webtorrent: metadata resolution and piece transfer are not modelled. `getDataFromTorrent` and `getDataFromTorrentFile` become the session's snapshot fields, and floats become `real`.
- `updateNoMediaTorrent`: its definition is not part of this model. The call is recorded as an effect and the table is unchanged.
- `TorrentModel.getTorrents` and `Utils.getDiskSpace`: their code is not part of this model. `getall` takes the fetched records as input, and the disk space in its response is not modelled.
- Mongoose `populate` in `get`: modelled as looking up each id in the table and dropping ids with no record. The order of the list is kept.
- Generated ids and slugs are parameters. A new record's id is required to be unused, as a fresh ObjectId is. No uniqueness of slugs is assumed or proved, because the schema is not part of this model.
- Asynchrony: callback interleaving and the concurrency of `Promise.all` are not modelled. Each handler is a sequential list of steps, and the `done` event runs after the TRACK publish.
- `clearTemp`, `clearAll`, the index bootstrap in `src/index.ts`, `src/controllers/video.controller.ts` and the GraphQL type definitions: filesystem effects and declarations with no decision logic.
- DownloadTask.Classify: its own contract states only the allowed-extension bound. Copying of fields, status and convertibility are proved in ClassifiedFiles and ClassifyAsFilter.
- Query.ApplyPatch: a patch carries only the fields the handler writes (name, infoHash, size, isMultiVideos, files, status, downloadInfo). `updateTorrentInfo` accepts any `Partial<ITorrent>`, including `slug` or `magnet`, so "id, slug and magnet never change" holds for the patches modelled, not for every update document the source accepts.
- DownloadTask.StoredFiles: a stored file's `convertStatus` is `None`, its `subtitles` empty and its `downloadInfo` absent. These are the schema's defaults, and the schema is not part of this model.
