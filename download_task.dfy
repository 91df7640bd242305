/** The DOWNLOAD_TORRENT consumer of
    `src/rabbitmq/tasks/task.downloadtorrent.ts`.

    The handler is a method that changes the Torrent table and returns,
    in order, every other effect it has on the world: the session it opens
    for the message's magnet, files deselected in that session, messages
    published, the ack of the inbound message, the session destroyed, and
    the store calls it makes. `Run` is the same
    behaviour stated as a function of the inputs; the lemmas after it
    state what the handler promises in terms of `Run`. */
module DownloadTask {
  import opened Seqs
  import opened Types
  import opened Query

  /** What the handler takes from code this model does not include: the
      `allowedExt` and `convertableExt` sets and `getFileOutputPath` of
      `utils/misc`, and the slug the schema gives the k-th stored file. */
  datatype Env = Env(
    allowed: set<string>,
    convertible: set<string>,
    slugOf: nat -> Slug,
    outputPath: (string, TorrentPath) -> string)

  // ---------------------------------------------------------------------
  // File classifier

  /** `file.name.split('.').pop() || ''`: the text after the last dot, the
      whole name when there is no dot. */
  function Extension(name: string): (ext: string)
    ensures '.' !in ext
    ensures |ext| <= |name|
  {
    if |name| == 0 then ""
    else if name[|name| - 1] == '.' then ""
    else Extension(name[..|name| - 1]) + [name[|name| - 1]]
  }

  /** The extension is a dot-free suffix of the name that is either the
      whole name or follows a dot: the name itself when it has no dot,
      empty when it ends in one. With `ExtensionUnique` this determines
      it. */
  lemma {:induction false} ExtensionIsLastSegment(name: string)
    ensures var ext := Extension(name);
      && ext == name[|name| - |ext|..]
      && (ext == name || name[|name| - |ext| - 1] == '.')
      && ('.' !in name ==> ext == name)
      && (|name| > 0 && name[|name| - 1] == '.' ==> ext == "")
    decreases |name|
  {
    if |name| > 0 && name[|name| - 1] != '.' {
      var n := |name| - 1;
      ExtensionIsLastSegment(name[..n]);
      var ext := Extension(name[..n]);
      assert Extension(name) == ext + [name[n]];
      assert name[..n][n - |ext|..] + [name[n]] == name[n - |ext|..];
      if ext != name[..n] {
        assert name[..n][n - |ext| - 1] == name[|name| - |ext| - 2];
      }
      if '.' !in name {
        assert '.' !in name[..n];
        assert name[..n] + [name[n]] == name;
      }
    }
  }

  /** Any dot-free suffix that is the whole name or follows a dot is the
      extension: the contract of `Extension` determines it. */
  lemma {:induction false} ExtensionUnique(name: string, e: string)
    requires '.' !in e
    requires |e| <= |name| && e == name[|name| - |e|..]
    requires e == name || name[|name| - |e| - 1] == '.'
    ensures Extension(name) == e
    decreases |name|
  {
    if |e| == 0 {
      ExtensionIsLastSegment(name);
    } else {
      var n := |name| - 1;
      var init := name[..n];
      var e' := e[..|e| - 1];
      assert name[n] == e[|e| - 1];
      assert e' == init[|init| - |e'|..];
      if e != name {
        assert init[|init| - |e'| - 1] == name[|name| - |e| - 1];
      }
      ExtensionUnique(init, e');
      assert e == e' + [name[n]];
    }
  }

  /** The extension of `base.ext` is `ext`, whatever dots `base` holds. */
  lemma ExtensionOfDotted(base: string, e: string)
    requires '.' !in e
    ensures Extension(base + "." + e) == e
  {
    var name := base + "." + e;
    assert name[|name| - |e|..] == e;
    assert name[|name| - |e| - 1] == '.';
    ExtensionUnique(name, e);
  }

  /** The record the source builds for each session file (an `IVideo`
      before the schema gives it a slug). */
  datatype ClassifiedFile = ClassifiedFile(
    name: string,
    path: string,
    size: nat,
    ext: string,
    isConvertable: bool,
    status: VideoState)

  /** The `map` callback, without its `deselect` side effect. */
  function Describe(f: SessionFile, convertible: set<string>): ClassifiedFile
  {
    var ext := Extension(f.name);
    ClassifiedFile(f.name, f.path, f.length, ext, ext in convertible, VideoState.DOWNLOADING)
  }

  function DescribeWith(convertible: set<string>): SessionFile -> ClassifiedFile
  {
    (f: SessionFile) => Describe(f, convertible)
  }

  /** The `filter` callback. */
  function ExtAllowed(allowed: set<string>): ClassifiedFile -> bool
  {
    (c: ClassifiedFile) => c.ext in allowed
  }

  /** A session file whose extension is allowed. */
  function IsVideoFile(allowed: set<string>): SessionFile -> bool
  {
    (f: SessionFile) => Extension(f.name) in allowed
  }

  /** `torrent.files.map(…).filter(…)`: the video files of a session, at
      most one per session file, each with an allowed extension. */
  function Classify(files: seq<SessionFile>, allowed: set<string>, convertible: set<string>): (r: seq<ClassifiedFile>)
    ensures |r| <= |files|
    ensures forall k :: 0 <= k < |r| ==> r[k].ext in allowed
  {
    Filter(Map(files, DescribeWith(convertible)), ExtAllowed(allowed))
  }

  /** Every video file copies the name, path and length of a session file
      whose extension is allowed, has status `downloading`, and is
      convertible exactly when its extension is in the convertible set,
      whether or not that set lies inside the allowed one. */
  lemma ClassifiedFiles(files: seq<SessionFile>, allowed: set<string>, convertible: set<string>)
    ensures var r := Classify(files, allowed, convertible);
      forall k :: 0 <= k < |r| ==>
        && r[k].status == VideoState.DOWNLOADING
        && (r[k].isConvertable <==> r[k].ext in convertible)
        && exists j :: 0 <= j < |files| && Extension(files[j].name) in allowed
             && r[k].name == files[j].name && r[k].path == files[j].path && r[k].size == files[j].length
  {
    ClassifyAsFilter(files, allowed, convertible);
    var kept := Filter(files, IsVideoFile(allowed));
    forall k | 0 <= k < |kept|
      ensures exists j :: 0 <= j < |files| && files[j] == kept[k]
    {
      assert kept[k] in files;
    }
  }

  /** Every session file with an allowed extension is among the video
      files. */
  lemma ClassifyKeeps(files: seq<SessionFile>, allowed: set<string>, convertible: set<string>, j: nat)
    requires j < |files| && Extension(files[j].name) in allowed
    ensures Describe(files[j], convertible) in Classify(files, allowed, convertible)
  {
    var described := Map(files, DescribeWith(convertible));
    assert described[j] == Describe(files[j], convertible);
  }

  /** Map-then-filter equals filter-then-map: the video files are the
      allowed session files, described, in session order. */
  lemma ClassifyAsFilter(files: seq<SessionFile>, allowed: set<string>, convertible: set<string>)
    ensures Classify(files, allowed, convertible)
         == Map(Filter(files, IsVideoFile(allowed)), DescribeWith(convertible))
  {
    FilterMapCommute(files, DescribeWith(convertible), ExtAllowed(allowed), IsVideoFile(allowed));
  }

  // ---------------------------------------------------------------------
  // Effects

  /** A store call the handler makes. `MarkNoMedia` is
      `updateNoMediaTorrent`, whose definition is not part of this model:
      it is recorded, and its effect on the table is not modelled. */
  datatype StoreCall = UpdateInfo(id: Id, patch: TorrentPatch) | MarkNoMedia(id: Id)

  /** One observable step of the handler. */
  datatype Effect =
    | Opened(magnet: string, path: TorrentPath)  // `client.add(magnet, { path })`
    | Deselected(file: nat)          // `file.deselect()` on the session's file at that index
    | Published(out: Outgoing)       // `publisherChannel.sendToQueue`
    | Acked                          // `channel.ack(message)`
    | Destroyed(destroyStore: bool)  // `torrent.destroy(…)`
    | Stored(call: StoreCall)

  /** The deselect calls of the `map`, in file order: each names a file
      whose extension is not allowed. */
  function Deselections(files: seq<SessionFile>, allowed: set<string>): (r: seq<Effect>)
    decreases |files|
  {
    if |files| == 0 then []
    else
      var n := |files| - 1;
      Deselections(files[..n], allowed)
        + (if Extension(files[n].name) !in allowed then [Deselected(n)] else [])
  }

  /** The file at index `i` is deselected exactly when its extension is
      not allowed. */
  lemma {:induction false} DeselectsExactly(files: seq<SessionFile>, allowed: set<string>, i: nat)
    ensures Deselected(i) in Deselections(files, allowed)
        <==> i < |files| && Extension(files[i].name) !in allowed
    decreases |files|
  {
    if |files| > 0 {
      var n := |files| - 1;
      var skipped := Extension(files[n].name) !in allowed;
      var tail := if skipped then [Deselected(n)] else [];
      DeselectsExactly(files[..n], allowed, i);
      assert Deselections(files, allowed) == Deselections(files[..n], allowed) + tail;
      assert Deselected(i) in tail <==> i == n && skipped;
      assert i < n ==> files[..n][i] == files[i];
    }
  }

  /** Deselecting is all `Deselections` does. */
  lemma {:induction false} OnlyDeselections(files: seq<SessionFile>, allowed: set<string>)
    ensures forall k :: 0 <= k < |Deselections(files, allowed)| ==> Deselections(files, allowed)[k].Deselected?
    decreases |files|
  {
    if |files| > 0 {
      OnlyDeselections(files[..|files| - 1], allowed);
    }
  }

  /** As many files are deselected as are left out of the video files. */
  lemma {:induction false} DeselectionsCount(files: seq<SessionFile>, allowed: set<string>)
    ensures |Deselections(files, allowed)| == |Filter(files, Not(IsVideoFile(allowed)))|
    decreases |files|
  {
    if |files| > 0 {
      DeselectionsCount(files[..|files| - 1], allowed);
    }
  }

  /** Each session file is either kept as a video file or deselected. */
  lemma KeptPlusDeselected(files: seq<SessionFile>, allowed: set<string>, convertible: set<string>)
    ensures |Classify(files, allowed, convertible)| + |Deselections(files, allowed)| == |files|
  {
    ClassifyAsFilter(files, allowed, convertible);
    DeselectionsCount(files, allowed);
    FilterPartition(files, IsVideoFile(allowed));
  }

  /** A classified file as the schema stores it, with its slug. */
  function Persisted(c: ClassifiedFile, slug: Slug): Video
  {
    Video(slug, c.name, c.path, c.size, c.ext, c.isConvertable, c.status, None, [], None)
  }

  /** The `files` array `updateTorrentInfo` writes. */
  function PersistAll(videos: seq<ClassifiedFile>, slugOf: nat -> Slug): (r: seq<Video>)
    ensures |r| == |videos|
    ensures forall k :: 0 <= k < |videos| ==> r[k] == Persisted(videos[k], slugOf(k))
  {
    seq(|videos|, k requires 0 <= k < |videos| => Persisted(videos[k], slugOf(k)))
  }

  /** `{ name, infoHash, size, isMultiVideos, files, status: 'downloading' }` */
  function InfoPatch(s: Session, videos: seq<ClassifiedFile>, slugOf: nat -> Slug): TorrentPatch
  {
    TorrentPatch(
      Some(s.name), Some(s.infoHash), Some(s.length), Some(|videos| > 1),
      Some(PersistAll(videos, slugOf)), Some(TorrentState.DOWNLOADING), None)
  }

  /** The TRACK_TORRENT message for the saved record. */
  function TrackOut(saved: Torrent): Outgoing
  {
    Outgoing(TRACK_TORRENT, TrackTorrent(saved.id, saved.infoHash), NoOptions)
  }

  function Convertable(v: Video): bool { v.isConvertable }

  /** The CONVERT_VIDEO publish for one file: the torrent id and the file. */
  function ConvertOut(id: Id): Video -> Effect
  {
    (v: Video) => Published(Outgoing(CONVERT_VIDEO, ConvertVideo(id, v), NoOptions))
  }

  /** The FILE_MOVE publish for one file: from its path to its output path
      under DOWNLOAD, with the torrent id and the file's slug. */
  function MoveOut(id: Id, outputPath: (string, TorrentPath) -> string): Video -> Effect
  {
    (v: Video) => Published(Outgoing(FILE_MOVE, MoveFile(v.path, outputPath(v.name, TorrentPath.DOWNLOAD), id, v.slug), NoOptions))
  }

  /** One CONVERT_VIDEO per convertible file, in file order. */
  function ConvertPublishes(id: Id, files: seq<Video>): seq<Effect>
  {
    Map(Filter(files, Convertable), ConvertOut(id))
  }

  /** One FILE_MOVE per non-convertible file, in file order. */
  function MovePublishes(id: Id, files: seq<Video>, outputPath: (string, TorrentPath) -> string): seq<Effect>
  {
    Map(Filter(files, Not(Convertable)), MoveOut(id, outputPath))
  }

  // ---------------------------------------------------------------------
  // The handler, stated as a function

  /** A delivered message; `content` is `None` when `getMessageContent`
      throws on it. */
  datatype Delivery = Delivery(content: Option<Torrent>)

  /** The effects of one run and the table it leaves. */
  datatype Outcome = Outcome(effects: seq<Effect>, docs: seq<Torrent>)

  /** The first effect of a readable message: a session opened for its
      magnet, downloading under TMP. */
  function Opening(added: Torrent): seq<Effect>
  {
    [Opened(added.magnet, TorrentPath.TMP)]
  }

  /** The whole handler. A null message does nothing; a message whose
      content cannot be read is caught and acked; a readable one opens a
      session, and when its metadata never resolves (`session == None`)
      the session stays pending and the message unacked. */
  function Run(docs: seq<Torrent>, message: Option<Delivery>, session: Option<Session>, done: bool, env: Env): Outcome
  {
    match message
    case None => Outcome([], docs)
    case Some(d) =>
      match d.content
      case None => Outcome([Acked], docs)
      case Some(added) =>
        match session
        case None => Outcome(Opening(added), docs)
        case Some(s) => OnMetadata(docs, added, s, done, env)
  }

  /** The `client.add` callback. When `updateTorrentInfo` finds no record
      it returns null, and reading `SavedTorrent._id` throws inside the
      callback, outside the `try`: the run ends there and the message is
      never acked; the unhandled rejection and the still-running session
      are not modelled. `done` says whether the session's `done` event fires. */
  function OnMetadata(docs: seq<Torrent>, added: Torrent, s: Session, done: bool, env: Env): Outcome
  {
    var id := added.id;
    var deselected := Opening(added) + Deselections(s.files, env.allowed);
    var videos := Classify(s.files, env.allowed, env.convertible);
    if |videos| == 0 then
      Outcome(deselected + [Destroyed(true), Stored(MarkNoMedia(id)), Acked], docs)
    else
      var patch := InfoPatch(s, videos, env.slugOf);
      var updated := PatchById(docs, id, patch);
      var stored := deselected + [Stored(UpdateInfo(id, patch))];
      if updated.1.None? then Outcome(stored, updated.0)
      else
        var saved := updated.1.value;
        var tracked := stored + [Published(TrackOut(saved))];
        if !done then Outcome(tracked, updated.0)
        else OnDone(updated.0, id, saved, env, tracked)
  }

  /** The `done` callback: status `done`, the CONVERT_VIDEO fan-out, the
      FILE_MOVE publishes, then the ack, then the session is destroyed. */
  function OnDone(docs: seq<Torrent>, id: Id, saved: Torrent, env: Env, before: seq<Effect>): Outcome
  {
    var donePatch := StatusPatch(TorrentState.DONE);
    Outcome(
      before + [Stored(UpdateInfo(id, donePatch))]
        + ConvertPublishes(saved.id, saved.files)
        + MovePublishes(saved.id, saved.files, env.outputPath)
        + [Acked, Destroyed(false)],
      PatchById(docs, id, donePatch).0)
  }

  // ---------------------------------------------------------------------
  // What a run promises

  /** A publish to queue `q`. */
  function PublishedTo(q: QueueName): Effect -> bool
  {
    (e: Effect) => e.Published? && e.out.queue == q
  }

  function IsAck(e: Effect): bool { e.Acked? }

  /** How many messages the effects publish to `q`. */
  function Sent(effects: seq<Effect>, q: QueueName): nat
  {
    |Filter(effects, PublishedTo(q))|
  }

  /** How many times the effects ack the inbound message. */
  function Acks(effects: seq<Effect>): nat
  {
    |Filter(effects, IsAck)|
  }

  /** Counts add up over consecutive stretches of effects. */
  lemma CountsAppend(a: seq<Effect>, b: seq<Effect>)
    ensures forall q :: Sent(a + b, q) == Sent(a, q) + Sent(b, q)
    ensures Acks(a + b) == Acks(a) + Acks(b)
  {
    forall q: QueueName
      ensures Sent(a + b, q) == Sent(a, q) + Sent(b, q)
    {
      FilterAppend(a, b, PublishedTo(q));
    }
    FilterAppend(a, b, IsAck);
  }

  /** A stretch of publishes to one queue counts once each there, nowhere
      else, and acks nothing. */
  lemma UniformCounts(seg: seq<Effect>, q0: QueueName)
    requires forall k :: 0 <= k < |seg| ==> PublishedTo(q0)(seg[k])
    ensures forall q :: Sent(seg, q) == if q == q0 then |seg| else 0
    ensures Acks(seg) == 0
  {
    FilterAll(seg, PublishedTo(q0));
    forall q: QueueName | q != q0
      ensures Sent(seg, q) == 0
    {
      FilterNone(seg, PublishedTo(q));
    }
    FilterNone(seg, IsAck);
  }

  /** A stretch that neither publishes nor acks. */
  lemma QuietCounts(seg: seq<Effect>)
    requires forall k :: 0 <= k < |seg| ==> !seg[k].Published? && !seg[k].Acked?
    ensures forall q :: Sent(seg, q) == 0
    ensures Acks(seg) == 0
  {
    forall q: QueueName
      ensures Sent(seg, q) == 0
    {
      FilterNone(seg, PublishedTo(q));
    }
    FilterNone(seg, IsAck);
  }

  /** An effect list that acks nothing holds no ack. */
  lemma NoAckIn(effects: seq<Effect>)
    requires Acks(effects) == 0
    ensures forall k :: 0 <= k < |effects| ==> !effects[k].Acked?
  {
  }

  /** Without any allowed file there are no video files. */
  lemma NoVideoFiles(files: seq<SessionFile>, allowed: set<string>, convertible: set<string>)
    requires forall i :: 0 <= i < |files| ==> Extension(files[i].name) !in allowed
    ensures Classify(files, allowed, convertible) == []
  {
    ClassifyAsFilter(files, allowed, convertible);
    FilterNone(files, IsVideoFile(allowed));
  }

  /** With an allowed file there is a video file. */
  lemma SomeVideoFile(files: seq<SessionFile>, allowed: set<string>, convertible: set<string>, i: nat)
    requires i < |files| && Extension(files[i].name) in allowed
    ensures |Classify(files, allowed, convertible)| > 0
  {
    ClassifyKeeps(files, allowed, convertible, i);
  }

  /** The handler before the session's metadata is in: a null message does
      nothing, an unreadable one is acked and nothing else, and a readable
      one opens a session for its magnet under TMP, which, when its
      metadata never resolves, is all that happens: the message stays
      unacked. */
  lemma HandlerExits(docs: seq<Torrent>, session: Option<Session>, done: bool, env: Env, added: Torrent)
    ensures Run(docs, None, session, done, env) == Outcome([], docs)
    ensures Run(docs, Some(Delivery(None)), session, done, env) == Outcome([Acked], docs)
    ensures Run(docs, Some(Delivery(Some(added))), None, done, env) == Outcome([Opened(added.magnet, TorrentPath.TMP)], docs)
  {
  }

  /** The effects of a run that finds no video file. */
  lemma NoMediaRun(docs: seq<Torrent>, added: Torrent, s: Session, done: bool, env: Env)
    requires forall i :: 0 <= i < |s.files| ==> Extension(s.files[i].name) !in env.allowed
    ensures Run(docs, Some(Delivery(Some(added))), Some(s), done, env)
         == Outcome(Opening(added) + Deselections(s.files, env.allowed) + [Destroyed(true), Stored(MarkNoMedia(added.id)), Acked], docs)
  {
    NoVideoFiles(s.files, env.allowed, env.convertible);
  }

  /** Deselecting publishes and acks nothing. */
  lemma DeselectionsQuiet(files: seq<SessionFile>, allowed: set<string>)
    ensures forall q :: Sent(Deselections(files, allowed), q) == 0
    ensures Acks(Deselections(files, allowed)) == 0
  {
    OnlyDeselections(files, allowed);
    QuietCounts(Deselections(files, allowed));
  }

  /** Opening the session and deselecting publish and ack nothing. */
  lemma PreludeQuiet(added: Torrent, files: seq<SessionFile>, allowed: set<string>)
    ensures forall q :: Sent(Opening(added) + Deselections(files, allowed), q) == 0
    ensures Acks(Opening(added) + Deselections(files, allowed)) == 0
  {
    DeselectionsQuiet(files, allowed);
    QuietCounts(Opening(added));
    CountsAppend(Opening(added), Deselections(files, allowed));
  }

  /** The close of a run without video files acks once and publishes
      nothing. */
  lemma NoMediaTailCounts(id: Id)
    ensures forall q :: Sent([Destroyed(true), Stored(MarkNoMedia(id)), Acked], q) == 0
    ensures Acks([Destroyed(true), Stored(MarkNoMedia(id)), Acked]) == 1
  {
    var tail := [Destroyed(true), Stored(MarkNoMedia(id)), Acked];
    QuietCounts(tail[..2]);
    assert tail == tail[..2] + [Acked];
    CountsAppend(tail[..2], [Acked]);
    assert [Acked][..0] == [];
  }

  /** The effects of a run without video files, on their own. */
  lemma NoMediaEffects(files: seq<SessionFile>, allowed: set<string>, convertible: set<string>, id: Id)
    requires forall i :: 0 <= i < |files| ==> Extension(files[i].name) !in allowed
    ensures var effects := Deselections(files, allowed) + [Destroyed(true), Stored(MarkNoMedia(id)), Acked];
      && |effects| == |files| + 3
      && (forall i :: 0 <= i < |files| ==> Deselected(i) in effects)
      && (forall q :: Sent(effects, q) == 0)
      && Acks(effects) == 1
  {
    var deselected := Deselections(files, allowed);
    NoVideoFiles(files, allowed, convertible);
    KeptPlusDeselected(files, allowed, convertible);
    forall i | 0 <= i < |files|
      ensures Deselected(i) in deselected
    {
      DeselectsExactly(files, allowed, i);
    }
    DeselectionsQuiet(files, allowed);
    NoMediaTailCounts(id);
    CountsAppend(deselected, [Destroyed(true), Stored(MarkNoMedia(id)), Acked]);
  }

  /** No video file in the session: the session is opened for the
      message's magnet under TMP, every file is deselected, the session
      is destroyed together with its store, the record is marked as having
      no media, the message is acked once, last, and nothing is published
      or written to the table. */
  lemma NoMediaOutcome(docs: seq<Torrent>, added: Torrent, s: Session, done: bool, env: Env)
    requires forall i :: 0 <= i < |s.files| ==> Extension(s.files[i].name) !in env.allowed
    ensures var o := Run(docs, Some(Delivery(Some(added))), Some(s), done, env);
      && o.docs == docs
      && |o.effects| == |s.files| + 4
      && o.effects[0] == Opened(added.magnet, TorrentPath.TMP)
      && (forall i :: 0 <= i < |s.files| ==> Deselected(i) in o.effects)
      && Destroyed(true) in o.effects
      && Stored(MarkNoMedia(added.id)) in o.effects
      && (forall q :: Sent(o.effects, q) == 0)
      && Acks(o.effects) == 1
      && o.effects[|o.effects| - 1] == Acked
  {
    var rest := Deselections(s.files, env.allowed) + [Destroyed(true), Stored(MarkNoMedia(added.id)), Acked];
    NoMediaRun(docs, added, s, done, env);
    NoMediaEffects(s.files, env.allowed, env.convertible, added.id);
    assert Run(docs, Some(Delivery(Some(added))), Some(s), done, env).effects == Opening(added) + rest;
    QuietCounts(Opening(added));
    CountsAppend(Opening(added), rest);
  }

  /** The path of a run whose session has a video file and whose record
      is in the table: the update, then the TRACK publish, then (when the
      download completes) the `done` callback. */
  lemma MediaRun(docs: seq<Torrent>, added: Torrent, s: Session, done: bool, env: Env, i: nat, k: nat)
    requires i < |s.files| && Extension(s.files[i].name) in env.allowed
    requires k < |docs| && docs[k].id == added.id
    ensures var videos := Classify(s.files, env.allowed, env.convertible);
      var patch := InfoPatch(s, videos, env.slugOf);
      var updated := PatchById(docs, added.id, patch);
      var tracked := Opening(added) + Deselections(s.files, env.allowed) + [Stored(UpdateInfo(added.id, patch))] + [Published(TrackOut(updated.1.value))];
      && |videos| > 0
      && updated.1.Some?
      && Run(docs, Some(Delivery(Some(added))), Some(s), done, env)
         == if done then OnDone(updated.0, added.id, updated.1.value, env, tracked) else Outcome(tracked, updated.0)
  {
    SomeVideoFile(s.files, env.allowed, env.convertible, i);
  }

  /** Up to the TRACK publish, a saved run publishes that one message and
      acks nothing. */
  lemma TrackedCounts(deselected: seq<Effect>, call: StoreCall, out: Outgoing, added: Torrent, files: seq<SessionFile>, allowed: set<string>)
    requires deselected == Opening(added) + Deselections(files, allowed)
    ensures forall q :: Sent(deselected + [Stored(call)] + [Published(out)], q) == if q == out.queue then 1 else 0
    ensures Acks(deselected + [Stored(call)] + [Published(out)]) == 0
  {
    PreludeQuiet(added, files, allowed);
    QuietCounts([Stored(call)]);
    UniformCounts([Published(out)], out.queue);
    CountsAppend(deselected, [Stored(call)]);
    CountsAppend(deselected + [Stored(call)], [Published(out)]);
  }

  /** The `done` callback adds one CONVERT_VIDEO per convertible file, one
      FILE_MOVE per other file, and one ack. */
  lemma DoneCounts(before: seq<Effect>, call: StoreCall, id: Id, files: seq<Video>, outputPath: (string, TorrentPath) -> string)
    ensures var effects := before + [Stored(call)] + ConvertPublishes(id, files) + MovePublishes(id, files, outputPath) + [Acked, Destroyed(false)];
      && (forall q :: Sent(effects, q) == Sent(before, q)
            + (if q == CONVERT_VIDEO then |Filter(files, Convertable)| else 0)
            + (if q == FILE_MOVE then |Filter(files, Not(Convertable))| else 0))
      && Acks(effects) == Acks(before) + 1
  {
    var converts := ConvertPublishes(id, files);
    var moves := MovePublishes(id, files, outputPath);
    var close: seq<Effect> := [Acked, Destroyed(false)];
    QuietCounts([Stored(call)]);
    UniformCounts(converts, CONVERT_VIDEO);
    UniformCounts(moves, FILE_MOVE);
    QuietCounts(close[1..]);
    assert close == [Acked] + close[1..];
    CountsAppend([Acked], close[1..]);
    assert [Acked][..0] == [];
    CountsAppend(before, [Stored(call)]);
    CountsAppend(before + [Stored(call)], converts);
    CountsAppend(before + [Stored(call)] + converts, moves);
    CountsAppend(before + [Stored(call)] + converts + moves, close);
  }

  /** A session with a video file whose record is in the table: the
      record, and no other, now holds the session's name, info-hash and
      size, `isMultiVideos` exactly when there is more than one video file,
      the video files as stored, and status `downloading`, or `done` once
      the download completes. */
  lemma MediaRecord(docs: seq<Torrent>, added: Torrent, s: Session, done: bool, env: Env, i: nat, k: nat)
    requires i < |s.files| && Extension(s.files[i].name) in env.allowed
    requires k < |docs| && docs[k].id == added.id
    ensures var o := Run(docs, Some(Delivery(Some(added))), Some(s), done, env);
      var videos := Classify(s.files, env.allowed, env.convertible);
      var n := FirstIndex(docs, HasId(added.id)).value;
      && |o.docs| == |docs|
      && (forall j :: 0 <= j < |docs| && j != n ==> o.docs[j] == docs[j])
      && o.docs[n].id == added.id && o.docs[n].slug == docs[n].slug && o.docs[n].magnet == docs[n].magnet
      && o.docs[n].name == Some(s.name)
      && o.docs[n].infoHash == Some(s.infoHash)
      && o.docs[n].size == Some(s.length)
      && o.docs[n].isMultiVideos == Some(|videos| > 1)
      && o.docs[n].files == PersistAll(videos, env.slugOf)
      && o.docs[n].status == (if done then TorrentState.DONE else TorrentState.DOWNLOADING)
  {
    var videos := Classify(s.files, env.allowed, env.convertible);
    var patch := InfoPatch(s, videos, env.slugOf);
    MediaRun(docs, added, s, done, env, i, k);
    if done {
      PatchTwice(docs, added.id, patch, StatusPatch(TorrentState.DONE));
    }
  }

  /** The effects of a saved run up to its TRACK publish, and the
      arguments of its `done` callback. */
  lemma TrackedRun(docs: seq<Torrent>, added: Torrent, s: Session, done: bool, env: Env, i: nat, k: nat)
    returns (tracked: seq<Effect>, saved: Torrent, updated: seq<Torrent>)
    requires i < |s.files| && Extension(s.files[i].name) in env.allowed
    requires k < |docs| && docs[k].id == added.id
    ensures |tracked| > 0
    ensures tracked[0] == Opened(added.magnet, TorrentPath.TMP)
    ensures tracked[|tracked| - 1] == Published(Outgoing(TRACK_TORRENT, TrackTorrent(added.id, Some(s.infoHash)), NoOptions))
    ensures forall q :: Sent(tracked, q) == if q == TRACK_TORRENT then 1 else 0
    ensures Acks(tracked) == 0
    ensures saved.id == added.id
    ensures saved.files == PersistAll(Classify(s.files, env.allowed, env.convertible), env.slugOf)
    ensures Run(docs, Some(Delivery(Some(added))), Some(s), done, env)
         == if done then OnDone(updated, added.id, saved, env, tracked) else Outcome(tracked, updated)
  {
    var videos := Classify(s.files, env.allowed, env.convertible);
    var patch := InfoPatch(s, videos, env.slugOf);
    var deselected := Opening(added) + Deselections(s.files, env.allowed);
    MediaRun(docs, added, s, done, env, i, k);
    updated := PatchById(docs, added.id, patch).0;
    saved := PatchById(docs, added.id, patch).1.value;
    tracked := deselected + [Stored(UpdateInfo(added.id, patch))] + [Published(TrackOut(saved))];
    TrackedCounts(deselected, UpdateInfo(added.id, patch), TrackOut(saved), added, s.files, env.allowed);
  }

  /** A session with a video file whose record is in the table: exactly
      one TRACK_TORRENT message, carrying the record's id and the
      session's info-hash; the message is acked only in the `done`
      callback, and then once. */
  lemma MediaMessages(docs: seq<Torrent>, added: Torrent, s: Session, done: bool, env: Env, i: nat, k: nat)
    requires i < |s.files| && Extension(s.files[i].name) in env.allowed
    requires k < |docs| && docs[k].id == added.id
    ensures var o := Run(docs, Some(Delivery(Some(added))), Some(s), done, env);
      && |o.effects| > 0 && o.effects[0] == Opened(added.magnet, TorrentPath.TMP)
      && Sent(o.effects, TRACK_TORRENT) == 1
      && Published(Outgoing(TRACK_TORRENT, TrackTorrent(added.id, Some(s.infoHash)), NoOptions)) in o.effects
      && Acks(o.effects) == (if done then 1 else 0)
  {
    var tracked, saved, updated := TrackedRun(docs, added, s, done, env, i, k);
    if done {
      OnDoneExtends(updated, added.id, saved, env, tracked);
      var e := OnDone(updated, added.id, saved, env, tracked).effects;
      assert e[|tracked| - 1] == tracked[|tracked| - 1];
      assert e[0] == tracked[0];
    }
  }

  /** The `done` callback keeps the effects before it as a prefix, acks
      once and publishes only CONVERT_VIDEO and FILE_MOVE messages. */
  lemma OnDoneExtends(docs: seq<Torrent>, id: Id, saved: Torrent, env: Env, before: seq<Effect>)
    ensures var e := OnDone(docs, id, saved, env, before).effects;
      && |before| <= |e| && e[..|before|] == before
      && (forall q :: q != CONVERT_VIDEO && q != FILE_MOVE ==> Sent(e, q) == Sent(before, q))
      && Acks(e) == Acks(before) + 1
  {
    DoneCounts(before, UpdateInfo(id, StatusPatch(TorrentState.DONE)), saved.id, saved.files, env.outputPath);
  }

  /** Every stored file is published by the `done` callback: to
      CONVERT_VIDEO when convertible, to FILE_MOVE otherwise. */
  lemma OnDonePublishesEach(docs: seq<Torrent>, id: Id, saved: Torrent, env: Env, before: seq<Effect>)
    ensures var e := OnDone(docs, id, saved, env, before).effects;
      var files := saved.files;
      && (forall j :: 0 <= j < |files| && files[j].isConvertable ==> ConvertOut(saved.id)(files[j]) in e)
      && (forall j :: 0 <= j < |files| && !files[j].isConvertable ==> MoveOut(saved.id, env.outputPath)(files[j]) in e)
  {
    var files := saved.files;
    var converts := Filter(files, Convertable);
    var moves := Filter(files, Not(Convertable));
    forall j | 0 <= j < |files| && files[j].isConvertable
      ensures ConvertOut(saved.id)(files[j]) in ConvertPublishes(saved.id, files)
    {
      var m :| 0 <= m < |converts| && converts[m] == files[j];
      MapMember(converts, m, ConvertOut(saved.id));
    }
    forall j | 0 <= j < |files| && !files[j].isConvertable
      ensures MoveOut(saved.id, env.outputPath)(files[j]) in MovePublishes(saved.id, files, env.outputPath)
    {
      assert Not(Convertable)(files[j]);
      var m :| 0 <= m < |moves| && moves[m] == files[j];
      MapMember(moves, m, MoveOut(saved.id, env.outputPath));
    }
  }

  /** In the `done` callback, CONVERT_VIDEO and FILE_MOVE messages
      together number the stored files; it ends by acking and then
      destroying the session, keeping its files, and when nothing before
      it acked, every FILE_MOVE precedes the ack. */
  lemma OnDoneOrder(docs: seq<Torrent>, id: Id, saved: Torrent, env: Env, before: seq<Effect>)
    ensures var e := OnDone(docs, id, saved, env, before).effects;
      && Sent(e, CONVERT_VIDEO) + Sent(e, FILE_MOVE)
         == Sent(before, CONVERT_VIDEO) + Sent(before, FILE_MOVE) + |saved.files|
      && |e| >= 2 && e[|e| - 2] == Acked && e[|e| - 1] == Destroyed(false)
      && (Acks(before) == 0 ==>
            forall a, b :: 0 <= a < |e| && 0 <= b < |e| && PublishedTo(FILE_MOVE)(e[a]) && e[b].Acked? ==> a < b)
  {
    var files := saved.files;
    var call := UpdateInfo(id, StatusPatch(TorrentState.DONE));
    var body := before + [Stored(call)] + ConvertPublishes(saved.id, files) + MovePublishes(saved.id, files, env.outputPath);
    var e := body + [Acked, Destroyed(false)];
    DoneCounts(before, call, saved.id, files, env.outputPath);
    FilterPartition(files, Convertable);
    if Acks(before) == 0 {
      BodyAcks(before, call, saved.id, files, env.outputPath);
      NoAckIn(body);
      assert forall b :: 0 <= b < |body| ==> !e[b].Acked?;
    }
  }

  /** The `done` callback first awaits the status update to `done`; when
      nothing before it was sent to CONVERT_VIDEO or FILE_MOVE, that update
      precedes every such publish. */
  lemma OnDoneStatusFirst(docs: seq<Torrent>, id: Id, saved: Torrent, env: Env, before: seq<Effect>)
    ensures var e := OnDone(docs, id, saved, env, before).effects;
      && |e| > |before| && e[|before|] == Stored(UpdateInfo(id, StatusPatch(TorrentState.DONE)))
      && (Sent(before, CONVERT_VIDEO) == 0 && Sent(before, FILE_MOVE) == 0 ==>
            forall a :: 0 <= a < |e| && (PublishedTo(CONVERT_VIDEO)(e[a]) || PublishedTo(FILE_MOVE)(e[a])) ==> a > |before|)
  {
    var e := OnDone(docs, id, saved, env, before).effects;
    if Sent(before, CONVERT_VIDEO) == 0 && Sent(before, FILE_MOVE) == 0 {
      NoneSent(before, CONVERT_VIDEO);
      NoneSent(before, FILE_MOVE);
      assert forall a :: 0 <= a < |before| ==> e[a] == before[a];
    }
  }

  /** An effect list that sends nothing to `q` holds no publish to it. */
  lemma NoneSent(effects: seq<Effect>, q: QueueName)
    requires Sent(effects, q) == 0
    ensures forall k :: 0 <= k < |effects| ==> !PublishedTo(q)(effects[k])
  {
  }

  /** Before its closing ack, the `done` callback acks nothing. */
  lemma BodyAcks(before: seq<Effect>, call: StoreCall, id: Id, files: seq<Video>, outputPath: (string, TorrentPath) -> string)
    ensures Acks(before + [Stored(call)] + ConvertPublishes(id, files) + MovePublishes(id, files, outputPath))
         == Acks(before)
  {
    var converts := ConvertPublishes(id, files);
    var moves := MovePublishes(id, files, outputPath);
    QuietCounts([Stored(call)]);
    UniformCounts(converts, CONVERT_VIDEO);
    UniformCounts(moves, FILE_MOVE);
    CountsAppend(before, [Stored(call)]);
    CountsAppend(before + [Stored(call)], converts);
    CountsAppend(before + [Stored(call)] + converts, moves);
  }

  /** The `done` callback's fan-out: every stored video file is published,
      to CONVERT_VIDEO when it is convertible (with the torrent's id and
      the file) and to FILE_MOVE otherwise (from its path to its output
      path, with the torrent's id and the file's slug); CONVERT_VIDEO
      receives one message per convertible file, FILE_MOVE one per other
      file, together as many as there are video files. */
  lemma DoneFanOut(docs: seq<Torrent>, added: Torrent, s: Session, env: Env, i: nat, k: nat)
    requires i < |s.files| && Extension(s.files[i].name) in env.allowed
    requires k < |docs| && docs[k].id == added.id
    ensures var e := Run(docs, Some(Delivery(Some(added))), Some(s), true, env).effects;
      var videos := Classify(s.files, env.allowed, env.convertible);
      var stored := PersistAll(videos, env.slugOf);
      && Sent(e, CONVERT_VIDEO) == |Filter(stored, Convertable)|
      && Sent(e, FILE_MOVE) == |Filter(stored, Not(Convertable))|
      && Sent(e, CONVERT_VIDEO) + Sent(e, FILE_MOVE) == |videos|
      && (forall j :: 0 <= j < |stored| && stored[j].isConvertable ==>
            Published(Outgoing(CONVERT_VIDEO, ConvertVideo(added.id, stored[j]), NoOptions)) in e)
      && (forall j :: 0 <= j < |stored| && !stored[j].isConvertable ==>
            Published(Outgoing(FILE_MOVE, MoveFile(stored[j].path, env.outputPath(stored[j].name, TorrentPath.DOWNLOAD), added.id, stored[j].slug), NoOptions)) in e)
  {
    var tracked, saved, updated := TrackedRun(docs, added, s, true, env, i, k);
    OnDonePublishesEach(updated, added.id, saved, env, tracked);
    OnDoneOrder(updated, added.id, saved, env, tracked);
    DoneCounts(tracked, UpdateInfo(added.id, StatusPatch(TorrentState.DONE)), saved.id, saved.files, env.outputPath);
  }

  /** Once the download completes, the status update to `done` precedes
      every CONVERT_VIDEO and FILE_MOVE publish, the message is acked after
      every FILE_MOVE publish, and the session is destroyed, keeping its
      files, after the ack. */
  lemma DoneAckOrder(docs: seq<Torrent>, added: Torrent, s: Session, env: Env, i: nat, k: nat)
    requires i < |s.files| && Extension(s.files[i].name) in env.allowed
    requires k < |docs| && docs[k].id == added.id
    ensures var e := Run(docs, Some(Delivery(Some(added))), Some(s), true, env).effects;
      && |e| >= 2 && e[|e| - 2] == Acked && e[|e| - 1] == Destroyed(false)
      && (forall a, b :: 0 <= a < |e| && 0 <= b < |e| && PublishedTo(FILE_MOVE)(e[a]) && e[b].Acked? ==> a < b)
      && exists d :: 0 <= d < |e| && e[d] == Stored(UpdateInfo(added.id, StatusPatch(TorrentState.DONE)))
           && forall a :: 0 <= a < |e| && (PublishedTo(CONVERT_VIDEO)(e[a]) || PublishedTo(FILE_MOVE)(e[a])) ==> d < a
  {
    var tracked, saved, updated := TrackedRun(docs, added, s, true, env, i, k);
    OnDoneOrder(updated, added.id, saved, env, tracked);
    OnDoneStatusFirst(updated, added.id, saved, env, tracked);
    var e := Run(docs, Some(Delivery(Some(added))), Some(s), true, env).effects;
    assert e[|tracked|] == Stored(UpdateInfo(added.id, StatusPatch(TorrentState.DONE)));
  }

  /** A session with a video file whose record has gone from the table:
      `updateTorrentInfo` finds nothing, the callback throws, and the run
      ends having published nothing, acked nothing and changed nothing. */
  lemma MissingRecordNotAcked(docs: seq<Torrent>, added: Torrent, s: Session, done: bool, env: Env, i: nat)
    requires i < |s.files| && Extension(s.files[i].name) in env.allowed
    requires forall j :: 0 <= j < |docs| ==> docs[j].id != added.id
    ensures var o := Run(docs, Some(Delivery(Some(added))), Some(s), done, env);
      && o.docs == docs
      && Acks(o.effects) == 0
      && (forall q :: Sent(o.effects, q) == 0)
  {
    var videos := Classify(s.files, env.allowed, env.convertible);
    var patch := InfoPatch(s, videos, env.slugOf);
    var deselected := Opening(added) + Deselections(s.files, env.allowed);
    SomeVideoFile(s.files, env.allowed, env.convertible, i);
    assert Run(docs, Some(Delivery(Some(added))), Some(s), done, env)
        == Outcome(deselected + [Stored(UpdateInfo(added.id, patch))], docs);
    PreludeQuiet(added, s.files, env.allowed);
    QuietCounts([Stored(UpdateInfo(added.id, patch))]);
    CountsAppend(deselected, [Stored(UpdateInfo(added.id, patch))]);
  }

  /** The video files as stored: each has an allowed extension, status
      `downloading`, no conversion status and no subtitles yet, the slug
      the schema gives it, and is convertible exactly when its extension
      is in the convertible set. */
  lemma StoredFiles(files: seq<SessionFile>, env: Env)
    ensures var stored := PersistAll(Classify(files, env.allowed, env.convertible), env.slugOf);
      forall k :: 0 <= k < |stored| ==>
        && stored[k].ext in env.allowed
        && (stored[k].isConvertable <==> stored[k].ext in env.convertible)
        && stored[k].status == VideoState.DOWNLOADING
        && stored[k].convertStatus.None?
        && stored[k].subtitles == []
        && stored[k].slug == env.slugOf(k)
  {
    ClassifiedFiles(files, env.allowed, env.convertible);
  }

  // ---------------------------------------------------------------------
  // The handler

  /** The `map` over the session's files: describe each one, deselecting
      those whose extension is not allowed. */
  method DescribeFiles(files: seq<SessionFile>, env: Env)
    returns (described: seq<ClassifiedFile>, deselected: seq<Effect>)
    ensures described == Map(files, DescribeWith(env.convertible))
    ensures deselected == Deselections(files, env.allowed)
  {
    described, deselected := [], [];
    var i := 0;
    while i < |files|
      invariant 0 <= i <= |files|
      invariant described == Map(files[..i], DescribeWith(env.convertible))
      invariant deselected == Deselections(files[..i], env.allowed)
    {
      var f := files[i];
      var ext := Extension(f.name);
      if ext !in env.allowed {
        deselected := deselected + [Deselected(i)];
      }
      MapSnoc(files, i, DescribeWith(env.convertible));
      assert files[..i + 1][..i] == files[..i];
      described := described + [Describe(f, env.convertible)];
      i := i + 1;
    }
    assert files[..|files|] == files;
  }

  /** `convertableVideoFiles.map(… sendToQueue(CONVERT_VIDEO, …))`. */
  method PublishConverts(id: Id, files: seq<Video>) returns (out: seq<Effect>)
    ensures out == ConvertPublishes(id, files)
  {
    out := [];
    var j := 0;
    while j < |files|
      invariant 0 <= j <= |files|
      invariant out == ConvertPublishes(id, files[..j])
    {
      MapFilterSnoc(files, j, Convertable, ConvertOut(id));
      if files[j].isConvertable {
        out := out + [ConvertOut(id)(files[j])];
      }
      j := j + 1;
    }
    assert files[..|files|] == files;
  }

  /** `nonConvertableVideoFiles.map(… sendToQueue(FILE_MOVE, …))`. */
  method PublishMoves(id: Id, files: seq<Video>, outputPath: (string, TorrentPath) -> string)
    returns (out: seq<Effect>)
    ensures out == MovePublishes(id, files, outputPath)
  {
    out := [];
    var j := 0;
    while j < |files|
      invariant 0 <= j <= |files|
      invariant out == MovePublishes(id, files[..j], outputPath)
    {
      MapFilterSnoc(files, j, Not(Convertable), MoveOut(id, outputPath));
      if !files[j].isConvertable {
        out := out + [MoveOut(id, outputPath)(files[j])];
      }
      j := j + 1;
    }
    assert files[..|files|] == files;
  }

  /** `downloadTorrent(channel, publisherChannel)(message)`, with the
      session's metadata and its `done` event given as inputs. */
  method DownloadTorrent(table: TorrentTable, message: Option<Delivery>, session: Option<Session>, done: bool, env: Env)
    returns (effects: seq<Effect>)
    requires table.Valid()
    modifies table
    ensures table.Valid()
    ensures Run(old(table.docs), message, session, done, env) == Outcome(effects, table.docs)
  {
    effects := [];
    if message.None? {
      return;
    }
    var content := message.value.content;
    if content.None? {
      effects := [Acked];
      return;
    }
    var added := content.value;
    effects := [Opened(added.magnet, TorrentPath.TMP)];
    if session.None? {
      return;
    }
    var s := session.value;
    var described, deselected := DescribeFiles(s.files, env);
    var videofiles := Filter(described, ExtAllowed(env.allowed));
    assert videofiles == Classify(s.files, env.allowed, env.convertible);
    effects := effects + deselected;

    if |videofiles| == 0 {
      effects := effects + [Destroyed(true), Stored(MarkNoMedia(added.id)), Acked];
      return;
    }

    var patch := InfoPatch(s, videofiles, env.slugOf);
    effects := effects + [Stored(UpdateInfo(added.id, patch))];
    ghost var docs0 := table.docs;
    var saved := table.UpdateTorrentInfo(added.id, patch);
    if saved.None? {
      return;
    }
    var doc := saved.value;
    effects := effects + [Published(TrackOut(doc))];
    if !done {
      return;
    }

    ghost var tracked := effects;
    ghost var docs1 := table.docs;
    var donePatch := StatusPatch(TorrentState.DONE);
    effects := effects + [Stored(UpdateInfo(added.id, donePatch))];
    var _ := table.UpdateTorrentInfo(added.id, donePatch);
    var converts := PublishConverts(doc.id, doc.files);
    var moves := PublishMoves(doc.id, doc.files, env.outputPath);
    effects := effects + converts + moves + [Acked, Destroyed(false)];
    assert Outcome(effects, table.docs) == OnDone(docs1, added.id, doc, env, tracked);
  }
}
