/** The media upload pipeline of the mobile client: pick one photo or video,
    normalise it, store it in a storage bucket, then register it as a row of the
    `media` table.

    The storage service and the `media` table are the state of class `Backend`.
    Everything the pipeline asks of the outside world (the picker, the image
    manipulator, the thumbnailer, the clock, the network and the database's
    answer to the insert) is an oracle value in `Oracles`: each either succeeds
    with a value or fails. `Pipeline` is the specification of one run, as the
    effects it performs and the value it returns or the error it throws;
    `Backend.PickAndUploadMedia` performs the run step by step and is proved to
    match it. */
module MediaService {
  import opened Wrappers
  import opened Text
  import Schema

  const MEDIA_BUCKET := "media"
  const THUMB_BUCKET := "media-thumbs"

  /** Two minutes, in milliseconds. */
  const MAX_VIDEO_MS: real := 2.0 * 60.0 * 1000.0
  /** The width the picked photo is resized to before upload. */
  const PHOTO_MAX_WIDTH := 1440
  /** The JPEG quality the resized photo is saved with. */
  const PHOTO_COMPRESS: real := 0.72
  const VIDEO_TOO_LONG_MESSAGE := "Video must be 2 minutes or less."
  const INVALID_URI_MESSAGE := "Invalid media URI"

  // ------------------------------------------------------------ naming

  /** The file extension of a picked asset's URI: the text after the last '.' of the
      part before the first '?', lower-cased, or "jpg" when that text is empty. */
  function GetExt(uri: string): (r: string)
    ensures r != []
    ensures '.' !in r && '?' !in r
    ensures r == "jpg" || |r| <= |uri|
  {
    var p := BeforeFirst(uri, '?');
    var m := AfterLast(p, '.');
    if m == [] then "jpg" else
      LowerKeepsAbsent(m, '.');
      assert '?' !in m by {
        assert forall k :: 0 <= k < |m| ==> m[k] == p[|p| - |m| + k];
      }
      LowerKeepsAbsent(m, '?');
      Lower(m)
  }

  /** A URI written as name '.' extension, optionally followed by a query, yields the
      extension in lower case. */
  lemma GetExtOfNamedFile(name: string, ext: string, query: string)
    requires '?' !in name
    requires ext != [] && '.' !in ext && '?' !in ext
    requires query == [] || query[0] == '?'
    ensures GetExt(name + "." + ext + query) == Lower(ext)
  {
    var uri := name + "." + ext + query;
    var file := name + "." + ext;
    assert uri[..|file|] == file;
    BeforeFirstUnique(uri, '?', file);
    assert file[|file| - |ext|..] == ext;
    AfterLastUnique(file, '.', ext);
  }

  /** A URI whose part before the query ends in '.' has an empty last segment, so the
      extension falls back to "jpg". */
  lemma GetExtTrailingDot(name: string, query: string)
    requires '?' !in name
    requires query == [] || query[0] == '?'
    ensures GetExt(name + "." + query) == "jpg"
  {
    var uri := name + "." + query;
    var file := name + ".";
    assert uri[..|file|] == file;
    BeforeFirstUnique(uri, '?', file);
    assert file[|file| - 0..] == [];
    AfterLastUnique(file, '.', []);
  }

  /** Without a '.' before the query, the whole lower-cased text before the query is
      taken as the extension; "jpg" is used only when that text is empty. */
  lemma GetExtWithoutDot(uri: string)
    requires '.' !in BeforeFirst(uri, '?')
    ensures BeforeFirst(uri, '?') == [] ==> GetExt(uri) == "jpg"
    ensures BeforeFirst(uri, '?') != [] ==> GetExt(uri) == Lower(BeforeFirst(uri, '?'))
  {
    var p := BeforeFirst(uri, '?');
    assert p[|p| - |p|..] == p;
    AfterLastUnique(p, '.', p);
  }

  /** A video is stored as QuickTime exactly when its extension is "mov", otherwise as MP4. */
  function VideoContentType(ext: string): (ct: string)
    ensures ct == "video/quicktime" <==> ext == "mov"
    ensures ct == "video/mp4" <==> ext != "mov"
  {
    if ext == "mov" then "video/quicktime" else "video/mp4"
  }

  /** `{roomId}/{uploaderId}/{timestamp}`, the stem every path of one upload shares. */
  function Stem(roomId: string, uploaderId: string, timestamp: nat): string {
    roomId + "/" + uploaderId + "/" + Decimal(timestamp)
  }

  /** `{roomId}/{uploaderId}/{timestamp}.{ext}` */
  function MediaPath(roomId: string, uploaderId: string, timestamp: nat, ext: string): (p: string)
    ensures StartsWith(p, Stem(roomId, uploaderId, timestamp))
  {
    Stem(roomId, uploaderId, timestamp) + "." + ext
  }

  /** `{roomId}/{uploaderId}/{timestamp}-thumb.jpg` */
  function ThumbPath(roomId: string, uploaderId: string, timestamp: nat): (p: string)
    ensures StartsWith(p, Stem(roomId, uploaderId, timestamp))
  {
    Stem(roomId, uploaderId, timestamp) + "-thumb.jpg"
  }

  /** The parts a media path is made of can be read back from it when the room and
      uploader ids hold no '/', so two uploads share a path only when they share the
      room, the uploader, the millisecond and the extension. */
  lemma MediaPathInjective(r1: string, u1: string, t1: nat, e1: string,
                           r2: string, u2: string, t2: nat, e2: string)
    requires '/' !in r1 && '/' !in u1 && '/' !in r2 && '/' !in u2
    requires MediaPath(r1, u1, t1, e1) == MediaPath(r2, u2, t2, e2)
    ensures r1 == r2 && u1 == u2 && t1 == t2 && e1 == e2
  {
    var d1, d2 := Decimal(t1), Decimal(t2);
    DigitsHaveNoSeparator(t1);
    DigitsHaveNoSeparator(t2);
    var tail1, tail2 := d1 + ['.'] + e1, d2 + ['.'] + e2;
    var rest1, rest2 := u1 + ['/'] + tail1, u2 + ['/'] + tail2;
    assert r1 + ['/'] + rest1 == MediaPath(r1, u1, t1, e1);
    assert r2 + ['/'] + rest2 == MediaPath(r2, u2, t2, e2);
    SplitUnique('/', r1, rest1, r2, rest2);
    SplitUnique('/', u1, tail1, u2, tail2);
    SplitUnique('.', d1, e1, d2, e2);
    DecimalRoundTrip(t1);
    DecimalRoundTrip(t2);
  }

  lemma DigitsHaveNoSeparator(t: nat)
    ensures '/' !in Decimal(t) && '.' !in Decimal(t)
  {
    var d := Decimal(t);
    assert forall k :: 0 <= k < |d| ==> IsDigit(d[k]);
  }

  /** A thumbnail never lands on the path of the video it belongs to. */
  lemma ThumbPathDiffers(roomId: string, uploaderId: string, timestamp: nat, ext: string)
    ensures ThumbPath(roomId, uploaderId, timestamp) != MediaPath(roomId, uploaderId, timestamp, ext)
  {
    var s := Stem(roomId, uploaderId, timestamp);
    assert ThumbPath(roomId, uploaderId, timestamp)[|s|] == '-';
    assert MediaPath(roomId, uploaderId, timestamp, ext)[|s|] == '.';
  }

  // ------------------------------------------------------- the outside world

  /** The kinds of asset the picker reports; only `Video` takes the video path. */
  datatype AssetType = Image | Video | LivePhoto | PairedVideo | Untyped

  /** A picked asset: its local URI (absent or empty when the picker gave none),
      its kind and, for a video, its length in milliseconds when known. */
  datatype Asset = Asset(uri: Option<string>, assetType: AssetType, duration: Option<real>)

  /** What the media library picker gives back: a selection (possibly cancelled or
      empty), or a rejection of the picker's promise. */
  datatype PickResult =
    | PickResult(canceled: bool, assets: Option<seq<Asset>>)
    | PickerThrew

  datatype InsertReply =
    | Inserted(filled: Schema.Defaults)  // the row was stored; the database filled in id and time
    | InsertRejected                     // the database refused the row

  datatype Oracles = Oracles(
    picked: PickResult,          // what the media library picker returned
    now: nat,                    // the clock, in milliseconds
    manipulated: Option<string>, // the URI of the resized JPEG, None when resizing throws
    mainUploadOk: bool,          // whether reading and storing the main file succeeds
    thumbnail: Option<string>,   // the URI of the frame taken at 1500 ms, None when extraction throws
    thumbUploadOk: bool,         // whether reading and storing the thumbnail succeeds
    insert: InsertReply)         // the database's answer to the media insert

  datatype MediaKind = Photo | VideoClip

  function KindName(k: MediaKind): string {
    match k
    case Photo => "photo"
    case VideoClip => "video"
  }

  /** What a completed upload returns. A photo has no thumbnail entry at all; a video's
      is null when no thumbnail could be made; both read as None here. */
  datatype UploadResult = UploadResult(
    mediaId: string, url: string, thumbnailUrl: Option<string>, kind: MediaKind)

  datatype UploadError =
    | PickerFailed        // the media library picker rejected
    | VideoTooLong        // "Video must be 2 minutes or less."
    | InvalidMediaUri     // "Invalid media URI"
    | ManipulateFailed    // resizing the photo threw
    | StorageWriteFailed  // reading the file or the storage upload failed
    | InsertFailed        // the database refused the media row

  /** The message of the errors the upload throws itself; the others carry the
      message of the library or service that failed, which is not modelled. */
  function ThrownMessage(e: UploadError): (m: Option<string>)
    ensures m == Some(VIDEO_TOO_LONG_MESSAGE) <==> e == VideoTooLong
    ensures m == Some(INVALID_URI_MESSAGE) <==> e == InvalidMediaUri
    ensures m.None? <==> !(e.VideoTooLong? || e.InvalidMediaUri?)
  {
    match e
    case VideoTooLong => Some(VIDEO_TOO_LONG_MESSAGE)
    case InvalidMediaUri => Some(INVALID_URI_MESSAGE)
    case _ => None
  }

  /** The object a storage key holds: the file read from `source`, and its declared type. */
  datatype StoredObject = StoredObject(source: string, contentType: string)

  datatype Effect =
    | Put(bucket: string, path: string, obj: StoredObject)
    | Insert(row: Schema.MediaRow)

  datatype Run = Run(effects: seq<Effect>, result: Result<Option<UploadResult>, UploadError>)

  // -------------------------------------------------------- specification

  predicate HasAsset(p: PickResult) {
    p.PickResult? && !p.canceled && p.assets.Some? && |p.assets.value| > 0
  }

  /** The picker answered, but the pick was cancelled or holds no asset. */
  predicate NothingPicked(p: PickResult) {
    p.PickResult? && !HasAsset(p)
  }

  /** `asset.duration && asset.duration > MAX_VIDEO_MS`: a missing or zero length never trips it. */
  predicate TooLong(duration: Option<real>) {
    duration.Some? && duration.value != 0.0 && duration.value > MAX_VIDEO_MS
  }

  predicate MissingUri(uri: Option<string>) {
    uri.None? || uri.value == ""
  }

  function NewMedia(roomId: string, uploaderId: string, kind: MediaKind, url: string,
                    thumbnailUrl: Option<string>): Schema.MediaInsert {
    Schema.MediaInsert(None, None, roomId, thumbnailUrl, KindName(kind), uploaderId, url)
  }

  /** The last step of both paths: register the stored file as a `media` row. */
  function Register(done: seq<Effect>, ins: Schema.MediaInsert, kind: MediaKind,
                    reply: InsertReply): Run
  {
    match reply
    case InsertRejected => Run(done, Failure(InsertFailed))
    case Inserted(filled) =>
      var row := Schema.MediaOf(ins, filled);
      Run(done + [Insert(row)], Success(Some(UploadResult(row.id, ins.url, ins.thumbnailUrl, kind))))
  }

  function PhotoRun(roomId: string, uploaderId: string, o: Oracles, url: (string, string) -> string): Run {
    match o.manipulated
    case None => Run([], Failure(ManipulateFailed))
    case Some(jpeg) =>
      var path := MediaPath(roomId, uploaderId, o.now, "jpg");
      if !o.mainUploadOk then Run([], Failure(StorageWriteFailed))
      else
        Register([Put(MEDIA_BUCKET, path, StoredObject(jpeg, "image/jpeg"))],
                 NewMedia(roomId, uploaderId, Photo, url(MEDIA_BUCKET, path), None),
                 Photo, o.insert)
  }

  /** The thumbnail put of a video run: present when a frame was extracted and stored. */
  function ThumbAttempt(roomId: string, uploaderId: string, o: Oracles): (puts: seq<Effect>)
    ensures Rows(puts) == []
  {
    if o.thumbnail.Some? && o.thumbUploadOk then
      var put := Put(THUMB_BUCKET, ThumbPath(roomId, uploaderId, o.now), StoredObject(o.thumbnail.value, "image/jpeg"));
      RowsSnoc([], put);
      assert [] + [put] == [put];
      [put]
    else []
  }

  function VideoRun(roomId: string, uploaderId: string, source: string, o: Oracles,
                    url: (string, string) -> string): Run {
    var ext := GetExt(source);
    VideoRunAt(roomId, uploaderId, source, MediaPath(roomId, uploaderId, o.now, ext), VideoContentType(ext), o, url)
  }

  /** The video path once the file's storage path and content type are chosen. */
  function VideoRunAt(roomId: string, uploaderId: string, source: string, path: string, contentType: string,
                      o: Oracles, url: (string, string) -> string): Run {
    if !o.mainUploadOk then Run([], Failure(StorageWriteFailed))
    else
      var main := Put(MEDIA_BUCKET, path, StoredObject(source, contentType));
      var thumbs := ThumbAttempt(roomId, uploaderId, o);
      var thumbUrl := if thumbs != [] then Some(url(THUMB_BUCKET, ThumbPath(roomId, uploaderId, o.now))) else None;
      Register([main] + thumbs, NewMedia(roomId, uploaderId, VideoClip, url(MEDIA_BUCKET, path), thumbUrl),
               VideoClip, o.insert)
  }

  /** One run of the pipeline for the given room and uploader: the effects in the
      order they happen, and the outcome. `url` is the storage service's public URL
      of a (bucket, path). */
  function Pipeline(roomId: string, uploaderId: string, o: Oracles,
                    url: (string, string) -> string): Run
  {
    if o.picked.PickerThrew? then Run([], Failure(PickerFailed))
    else if !HasAsset(o.picked) then Run([], Success(None))
    else
      var asset := o.picked.assets.value[0];
      if asset.assetType == Video && TooLong(asset.duration) then Run([], Failure(VideoTooLong))
      else if MissingUri(asset.uri) then Run([], Failure(InvalidMediaUri))
      else if asset.assetType != Video then PhotoRun(roomId, uploaderId, o, url)
      else VideoRun(roomId, uploaderId, asset.uri.value, o, url)
  }

  /** The storage contents after some effects: each put replaces exactly its key. */
  function Stored(s: map<(string, string), StoredObject>, effects: seq<Effect>): map<(string, string), StoredObject> {
    if effects == [] then s
    else
      var e := effects[|effects| - 1];
      var before := Stored(s, effects[..|effects| - 1]);
      if e.Put? then before[(e.bucket, e.path) := e.obj] else before
  }

  /** The rows some effects append to the `media` table, in order. */
  function Rows(effects: seq<Effect>): seq<Schema.MediaRow> {
    if effects == [] then []
    else
      var e := effects[|effects| - 1];
      Rows(effects[..|effects| - 1]) + (if e.Insert? then [e.row] else [])
  }

  lemma StoredSnoc(s: map<(string, string), StoredObject>, effects: seq<Effect>, e: Effect)
    ensures Stored(s, effects + [e]) ==
      if e.Put? then Stored(s, effects)[(e.bucket, e.path) := e.obj] else Stored(s, effects)
  {
    assert (effects + [e])[..|effects|] == effects;
  }

  lemma RowsSnoc(effects: seq<Effect>, e: Effect)
    ensures Rows(effects + [e]) == Rows(effects) + if e.Insert? then [e.row] else []
  {
    assert (effects + [e])[..|effects|] == effects;
  }

  // ------------------------------------------------ what a run guarantees

  /** The asset a run works on: the first one picked. */
  function FirstAsset(p: PickResult): Asset
    requires HasAsset(p)
  {
    p.assets.value[0]
  }

  predicate IsVideo(p: PickResult)
    requires HasAsset(p)
  {
    FirstAsset(p).assetType == Video
  }

  /** The picked asset gets past the cancel check, the duration gate and the URI check. */
  predicate PassesChecks(p: PickResult) {
    HasAsset(p) && !(IsVideo(p) && TooLong(FirstAsset(p).duration)) && !MissingUri(FirstAsset(p).uri)
  }

  /** The run gets as far as storing the main file. */
  predicate StoresMain(o: Oracles) {
    PassesChecks(o.picked) && o.mainUploadOk && (IsVideo(o.picked) || o.manipulated.Some?)
  }

  function Ext(o: Oracles): string
    requires PassesChecks(o.picked)
  {
    GetExt(FirstAsset(o.picked).uri.value)
  }

  /** The put of the main file. */
  function MainPut(roomId: string, uploaderId: string, o: Oracles): Effect
    requires StoresMain(o)
  {
    if IsVideo(o.picked) then
      Put(MEDIA_BUCKET, MediaPath(roomId, uploaderId, o.now, Ext(o)),
          StoredObject(FirstAsset(o.picked).uri.value, VideoContentType(Ext(o))))
    else
      Put(MEDIA_BUCKET, MediaPath(roomId, uploaderId, o.now, "jpg"),
          StoredObject(o.manipulated.value, "image/jpeg"))
  }

  predicate ThumbStored(o: Oracles)
    requires PassesChecks(o.picked)
  {
    IsVideo(o.picked) && o.thumbnail.Some? && o.thumbUploadOk
  }

  /** The put of the thumbnail, when one is made. */
  function ThumbPuts(roomId: string, uploaderId: string, o: Oracles): (puts: seq<Effect>)
    requires PassesChecks(o.picked)
    ensures Rows(puts) == []
  {
    if IsVideo(o.picked) then ThumbAttempt(roomId, uploaderId, o) else []
  }

  /** The media row the run asks the database to insert. */
  function RowRequest(roomId: string, uploaderId: string, o: Oracles, url: (string, string) -> string): Schema.MediaInsert
    requires StoresMain(o)
  {
    NewMedia(roomId, uploaderId, if IsVideo(o.picked) then VideoClip else Photo,
             url(MEDIA_BUCKET, MainPut(roomId, uploaderId, o).path),
             if ThumbStored(o) then Some(url(THUMB_BUCKET, ThumbPath(roomId, uploaderId, o.now))) else None)
  }

  /** Every run has this shape: nothing at all, or the main file, then possibly the
      thumbnail, then possibly the row; and its outcome follows from how far it got. */
  lemma RunShape(roomId: string, uploaderId: string, o: Oracles, url: (string, string) -> string)
    ensures var run := Pipeline(roomId, uploaderId, o, url);
      && (!StoresMain(o) ==> run.effects == [] && (run.result.Success? ==> run.result.value == None))
      && (StoresMain(o) ==>
            var ins := RowRequest(roomId, uploaderId, o, url);
            && run.effects == [MainPut(roomId, uploaderId, o)] + ThumbPuts(roomId, uploaderId, o)
                 + (if o.insert.Inserted? then [Insert(Schema.MediaOf(ins, o.insert.filled))] else [])
            && run.result == (if o.insert.Inserted?
                 then Success(Some(UploadResult(Schema.MediaOf(ins, o.insert.filled).id, ins.url,
                                                ins.thumbnailUrl,
                                                if IsVideo(o.picked) then VideoClip else Photo)))
                 else Failure(InsertFailed)))
  {
    if StoresMain(o) {
      var run := Pipeline(roomId, uploaderId, o, url);
      var kind := if IsVideo(o.picked) then VideoClip else Photo;
      var ins := RowRequest(roomId, uploaderId, o, url);
      var done := [MainPut(roomId, uploaderId, o)] + ThumbPuts(roomId, uploaderId, o);
      assert run == Register(done, ins, kind, o.insert) by {
        if IsVideo(o.picked) {
          VideoRegisters(roomId, uploaderId, o, url);
        } else {
          PhotoRegisters(roomId, uploaderId, o, url);
        }
      }
      if o.insert.InsertRejected? {
        assert done + [] == done;
      }
    }
  }

  lemma PhotoRegisters(roomId: string, uploaderId: string, o: Oracles, url: (string, string) -> string)
    requires StoresMain(o) && !IsVideo(o.picked)
    ensures Pipeline(roomId, uploaderId, o, url) ==
      Register([MainPut(roomId, uploaderId, o)] + ThumbPuts(roomId, uploaderId, o),
               RowRequest(roomId, uploaderId, o, url), Photo, o.insert)
  {
    assert Pipeline(roomId, uploaderId, o, url) == PhotoRun(roomId, uploaderId, o, url);
    assert ThumbPuts(roomId, uploaderId, o) == [];
    assert [MainPut(roomId, uploaderId, o)] + [] == [MainPut(roomId, uploaderId, o)];
  }

  /** The video path, once the main file is stored, registers the main put and the thumbnail put. */
  lemma VideoRunRegisters(roomId: string, uploaderId: string, source: string, o: Oracles,
                          url: (string, string) -> string)
    requires o.mainUploadOk
    ensures var ext := GetExt(source);
      var path := MediaPath(roomId, uploaderId, o.now, ext);
      var thumbs := ThumbAttempt(roomId, uploaderId, o);
      VideoRun(roomId, uploaderId, source, o, url) ==
        Register([Put(MEDIA_BUCKET, path, StoredObject(source, VideoContentType(ext)))] + thumbs,
                 NewMedia(roomId, uploaderId, VideoClip, url(MEDIA_BUCKET, path),
                          if thumbs != [] then Some(url(THUMB_BUCKET, ThumbPath(roomId, uploaderId, o.now))) else None),
                 VideoClip, o.insert)
  {
  }

  lemma VideoRegisters(roomId: string, uploaderId: string, o: Oracles, url: (string, string) -> string)
    requires StoresMain(o) && IsVideo(o.picked)
    ensures Pipeline(roomId, uploaderId, o, url) ==
      Register([MainPut(roomId, uploaderId, o)] + ThumbPuts(roomId, uploaderId, o),
               RowRequest(roomId, uploaderId, o, url), VideoClip, o.insert)
  {
    var source := FirstAsset(o.picked).uri.value;
    assert Pipeline(roomId, uploaderId, o, url) == VideoRun(roomId, uploaderId, source, o, url);
    VideoRunRegisters(roomId, uploaderId, source, o, url);
    var thumbs := ThumbAttempt(roomId, uploaderId, o);
    assert ThumbPuts(roomId, uploaderId, o) == thumbs;
    assert ThumbStored(o) <==> thumbs != [];
  }

  lemma {:induction false} RowsAppend(a: seq<Effect>, b: seq<Effect>)
    ensures Rows(a + b) == Rows(a) + Rows(b)
  {
    if b != [] {
      var b' := b[..|b| - 1];
      assert (a + b)[..|a + b| - 1] == a + b';
      RowsAppend(a, b');
    } else {
      assert a + b == a;
    }
  }

  lemma {:induction false} StoredAppend(s: map<(string, string), StoredObject>, a: seq<Effect>, b: seq<Effect>)
    ensures Stored(s, a + b) == Stored(Stored(s, a), b)
  {
    if b != [] {
      var b' := b[..|b| - 1];
      assert (a + b)[..|a + b| - 1] == a + b';
      StoredAppend(s, a, b');
    } else {
      assert a + b == a;
    }
  }

  /** Storage only ever gains keys. */
  lemma {:induction false} StoredKeepsKeys(s: map<(string, string), StoredObject>, effects: seq<Effect>)
    ensures s.Keys <= Stored(s, effects).Keys
  {
    if effects != [] {
      StoredKeepsKeys(s, effects[..|effects| - 1]);
    }
  }

  /** The rows of the run: the one inserted row, if any. */
  lemma RowsOfRun(roomId: string, uploaderId: string, o: Oracles, url: (string, string) -> string)
    ensures var run := Pipeline(roomId, uploaderId, o, url);
      Rows(run.effects) ==
        if StoresMain(o) && o.insert.Inserted?
        then [Schema.MediaOf(RowRequest(roomId, uploaderId, o, url), o.insert.filled)]
        else []
  {
    RunShape(roomId, uploaderId, o, url);
    if StoresMain(o) {
      var tail := if o.insert.Inserted?
        then [Insert(Schema.MediaOf(RowRequest(roomId, uploaderId, o, url), o.insert.filled))] else [];
      PutsThenRows(MainPut(roomId, uploaderId, o), ThumbPuts(roomId, uploaderId, o), tail);
      if tail != [] {
        RowsSnoc([], tail[0]);
        assert [] + [tail[0]] == tail;
      }
    }
  }

  /** Puts add no rows, so only what follows them does. */
  lemma PutsThenRows(main: Effect, thumbs: seq<Effect>, tail: seq<Effect>)
    requires main.Put? && Rows(thumbs) == []
    ensures Rows([main] + thumbs + tail) == Rows(tail)
  {
    RowsAppend([main] + thumbs, tail);
    RowsAppend([main], thumbs);
    RowsSnoc([], main);
    assert [] + [main] == [main];
  }


  /** A cancelled pick, or one without assets, returns null and touches nothing. */
  lemma CancelTouchesNothing(roomId: string, uploaderId: string, o: Oracles, url: (string, string) -> string)
    requires NothingPicked(o.picked)
    ensures Pipeline(roomId, uploaderId, o, url) == Run([], Success(None))
  {
  }

  /** A run that passes the checks but does not store its main file throws: with
      ManipulateFailed when a photo could not be resized, with StorageWriteFailed when
      the main upload failed. Nothing is stored or inserted, and it never reads as a
      cancelled pick. */
  lemma EarlyFailureThrows(roomId: string, uploaderId: string, o: Oracles, url: (string, string) -> string)
    requires PassesChecks(o.picked) && !StoresMain(o)
    ensures var run := Pipeline(roomId, uploaderId, o, url);
      && run.effects == []
      && run.result == Failure(if !IsVideo(o.picked) && o.manipulated.None? then ManipulateFailed
                               else StorageWriteFailed)
  {
    var asset := FirstAsset(o.picked);
    assert o.picked.PickResult? && o.picked.assets.value[0] == asset;
    if IsVideo(o.picked) {
      var ext := GetExt(asset.uri.value);
      assert Pipeline(roomId, uploaderId, o, url) == VideoRun(roomId, uploaderId, asset.uri.value, o, url);
      assert !o.mainUploadOk;
      assert VideoRun(roomId, uploaderId, asset.uri.value, o, url)
        == VideoRunAt(roomId, uploaderId, asset.uri.value, MediaPath(roomId, uploaderId, o.now, ext),
                      VideoContentType(ext), o, url);
    } else {
      assert Pipeline(roomId, uploaderId, o, url) == PhotoRun(roomId, uploaderId, o, url);
    }
  }

  /** A picker that rejects makes the run throw before anything is stored or inserted,
      and it is the only way to get that error. */
  lemma PickerFailureTouchesNothing(roomId: string, uploaderId: string, o: Oracles, url: (string, string) -> string)
    ensures var run := Pipeline(roomId, uploaderId, o, url);
      run.result == Failure(PickerFailed) <==> o.picked.PickerThrew?
    ensures o.picked.PickerThrew? ==> Pipeline(roomId, uploaderId, o, url).effects == []
  {
    RunShape(roomId, uploaderId, o, url);
  }

  /** The duration gate trips exactly for a video longer than two minutes: a length of
      exactly two minutes, a zero or unknown length, and any photo pass it. When it
      trips nothing has been stored or inserted. */
  lemma DurationGate(roomId: string, uploaderId: string, o: Oracles, url: (string, string) -> string)
    ensures var run := Pipeline(roomId, uploaderId, o, url);
      run.result == Failure(VideoTooLong) <==>
        HasAsset(o.picked) && IsVideo(o.picked) && TooLong(FirstAsset(o.picked).duration)
    ensures Pipeline(roomId, uploaderId, o, url).result == Failure(VideoTooLong) ==>
      Pipeline(roomId, uploaderId, o, url).effects == []
  {
    RunShape(roomId, uploaderId, o, url);
  }

  lemma TwoMinutesExactlyPasses()
    ensures !TooLong(Some(120000.0)) && !TooLong(Some(0.0)) && !TooLong(None)
    ensures TooLong(Some(120000.5))
  {
  }

  /** A missing URI is reported only once the duration gate has passed, and before any upload. */
  lemma MissingUriChecked(roomId: string, uploaderId: string, o: Oracles, url: (string, string) -> string)
    ensures var run := Pipeline(roomId, uploaderId, o, url);
      run.result == Failure(InvalidMediaUri) <==>
        && HasAsset(o.picked)
        && !(IsVideo(o.picked) && TooLong(FirstAsset(o.picked).duration))
        && MissingUri(FirstAsset(o.picked).uri)
    ensures Pipeline(roomId, uploaderId, o, url).result == Failure(InvalidMediaUri) ==>
      Pipeline(roomId, uploaderId, o, url).effects == []
  {
    RunShape(roomId, uploaderId, o, url);
  }

  /** A row is inserted only after the main file was stored: an inserting run starts
      with the put of the main file into `media`, ends with the insert, and the row's
      url is that file's public URL. If the main upload fails, nothing at all is
      stored or inserted. */
  lemma InsertFollowsMainUpload(roomId: string, uploaderId: string, o: Oracles, url: (string, string) -> string)
    ensures var run := Pipeline(roomId, uploaderId, o, url);
      Rows(run.effects) != [] ==>
        && |run.effects| >= 2
        && run.effects[0].Put? && run.effects[0].bucket == MEDIA_BUCKET
        && run.effects[|run.effects| - 1].Insert?
        && Rows(run.effects) == [run.effects[|run.effects| - 1].row]
        && run.effects[|run.effects| - 1].row.url == url(MEDIA_BUCKET, run.effects[0].path)
    ensures !o.mainUploadOk ==> Pipeline(roomId, uploaderId, o, url).effects == []
  {
    RunShape(roomId, uploaderId, o, url);
    RowsOfRun(roomId, uploaderId, o, url);
  }

  /** A refused insert throws, but the file stored just before stays where it is:
      nothing is removed, so the blob is left without a row. */
  lemma InsertFailureOrphansFile(roomId: string, uploaderId: string, o: Oracles,
                                 url: (string, string) -> string, s: map<(string, string), StoredObject>)
    requires StoresMain(o) && o.insert.InsertRejected?
    ensures var run := Pipeline(roomId, uploaderId, o, url);
      && run.result == Failure(InsertFailed)
      && Rows(run.effects) == []
      && run.effects != [] && run.effects[0].Put? && run.effects[0].bucket == MEDIA_BUCKET
      && (MEDIA_BUCKET, run.effects[0].path) in Stored(s, run.effects)
      && Stored(s, run.effects)[(MEDIA_BUCKET, run.effects[0].path)] == run.effects[0].obj
  {
    var run := Pipeline(roomId, uploaderId, o, url);
    RunShape(roomId, uploaderId, o, url);
    RowsOfRun(roomId, uploaderId, o, url);
    var main := MainPut(roomId, uploaderId, o);
    var thumbs := ThumbPuts(roomId, uploaderId, o);
    var k := (MEDIA_BUCKET, main.path);
    assert run.effects == [main] + thumbs by {
      assert [main] + thumbs + [] == [main] + thumbs;
    }
    StoredAppend(s, [main], thumbs);
    StoredSnoc(s, [], main);
    assert [] + [main] == [main];
    StoredKeepsOthers(Stored(s, [main]), thumbs, k);
  }

  /** Puts to other keys leave a stored object as it was. */
  lemma {:induction false} StoredKeepsOthers(s: map<(string, string), StoredObject>, effects: seq<Effect>, k: (string, string))
    requires k in s
    requires forall e :: e in effects && e.Put? ==> (e.bucket, e.path) != k
    ensures k in Stored(s, effects) && Stored(s, effects)[k] == s[k]
  {
    if effects != [] {
      var e := effects[|effects| - 1];
      assert e in effects;
      StoredKeepsOthers(s, effects[..|effects| - 1], k);
    }
  }

  /** Thumbnails are best effort: once the video itself is stored and the row accepted,
      the upload succeeds whatever happened to the thumbnail; the thumbnail URL is set
      exactly when the frame was extracted and stored, and the row records the same. */
  lemma ThumbnailBestEffort(roomId: string, uploaderId: string, o: Oracles, url: (string, string) -> string)
    requires PassesChecks(o.picked) && IsVideo(o.picked)
    requires o.mainUploadOk && o.insert.Inserted?
    ensures var run := Pipeline(roomId, uploaderId, o, url);
      var thumbUrl := if o.thumbnail.Some? && o.thumbUploadOk
        then Some(url(THUMB_BUCKET, ThumbPath(roomId, uploaderId, o.now))) else None;
      && run.result.Success? && run.result.value.Some?
      && run.result.value.value.kind == VideoClip
      && run.result.value.value.thumbnailUrl == thumbUrl
      && |Rows(run.effects)| == 1
      && Rows(run.effects)[0].thumbnailUrl == thumbUrl
      && Rows(run.effects)[0].mediaType == "video"
  {
    RunShape(roomId, uploaderId, o, url);
    RowsOfRun(roomId, uploaderId, o, url);
  }

  /** Photos never get a thumbnail: nothing goes to `media-thumbs`, and neither the
      row nor the result carries a thumbnail URL. */
  lemma PhotosHaveNoThumbnail(roomId: string, uploaderId: string, o: Oracles, url: (string, string) -> string)
    requires HasAsset(o.picked) && !IsVideo(o.picked)
    ensures var run := Pipeline(roomId, uploaderId, o, url);
      && (forall e :: e in run.effects && e.Put? ==> e.bucket == MEDIA_BUCKET)
      && (forall row :: row in Rows(run.effects) ==> row.thumbnailUrl == None && row.mediaType == "photo")
      && (run.result.Success? && run.result.value.Some? ==>
            run.result.value.value.thumbnailUrl == None && run.result.value.value.kind == Photo)
  {
    RunShape(roomId, uploaderId, o, url);
    RowsOfRun(roomId, uploaderId, o, url);
  }

  /** A successful upload reports the kind of the picked asset, and the id, url and
      thumbnail of the one row it inserted, which names the room and the uploader. */
  lemma ResultMatchesRow(roomId: string, uploaderId: string, o: Oracles, url: (string, string) -> string)
    requires Pipeline(roomId, uploaderId, o, url).result.Success?
    requires Pipeline(roomId, uploaderId, o, url).result.value.Some?
    ensures var run := Pipeline(roomId, uploaderId, o, url);
      var u := run.result.value.value;
      && HasAsset(o.picked)
      && u.kind == (if IsVideo(o.picked) then VideoClip else Photo)
      && |Rows(run.effects)| == 1
      && var row := Rows(run.effects)[0];
         row.id == u.mediaId && row.url == u.url && row.thumbnailUrl == u.thumbnailUrl
         && row.mediaType == KindName(u.kind) && row.roomId == roomId && row.uploaderId == uploaderId
  {
    RunShape(roomId, uploaderId, o, url);
    RowsOfRun(roomId, uploaderId, o, url);
  }

  /** Where each file goes: every path of a run shares the stem `{roomId}/{uploaderId}/{now}`;
      a photo is stored in `media` as `.jpg` typed image/jpeg, a video in `media` under its
      own extension typed by VideoContentType, and a thumbnail in `media-thumbs` as
      `-thumb.jpg` typed image/jpeg. */
  /** Where a put of a run lands and what it declares, given the asset that was picked. */
  predicate WellPlaced(roomId: string, uploaderId: string, o: Oracles, e: Effect)
    requires PassesChecks(o.picked)
  {
    e.Put? ==>
      && StartsWith(e.path, Stem(roomId, uploaderId, o.now))
      && (e.bucket == MEDIA_BUCKET && !IsVideo(o.picked) ==>
            e.path == MediaPath(roomId, uploaderId, o.now, "jpg") && e.obj.contentType == "image/jpeg")
      && (e.bucket == MEDIA_BUCKET && IsVideo(o.picked) ==>
            e.path == MediaPath(roomId, uploaderId, o.now, Ext(o))
            && e.obj.contentType == VideoContentType(Ext(o))
            && e.obj.source == FirstAsset(o.picked).uri.value)
      && (e.bucket == THUMB_BUCKET ==>
            IsVideo(o.picked) && e.path == ThumbPath(roomId, uploaderId, o.now)
            && e.obj.contentType == "image/jpeg")
      && (e.bucket == MEDIA_BUCKET || e.bucket == THUMB_BUCKET)
  }

  lemma MainPutPlaced(roomId: string, uploaderId: string, o: Oracles)
    requires StoresMain(o)
    ensures WellPlaced(roomId, uploaderId, o, MainPut(roomId, uploaderId, o))
  {
    assert MEDIA_BUCKET != THUMB_BUCKET;
  }

  lemma ThumbPutsPlaced(roomId: string, uploaderId: string, o: Oracles)
    requires PassesChecks(o.picked)
    ensures forall e :: e in ThumbPuts(roomId, uploaderId, o) ==> WellPlaced(roomId, uploaderId, o, e)
  {
    assert MEDIA_BUCKET != THUMB_BUCKET;
  }

  lemma PathsBucketsAndTypes(roomId: string, uploaderId: string, o: Oracles, url: (string, string) -> string)
    requires PassesChecks(o.picked)
    ensures var run := Pipeline(roomId, uploaderId, o, url);
      forall e :: e in run.effects ==> WellPlaced(roomId, uploaderId, o, e)
  {
    RunShape(roomId, uploaderId, o, url);
    if StoresMain(o) {
      MainPutPlaced(roomId, uploaderId, o);
      ThumbPutsPlaced(roomId, uploaderId, o);
    }
  }

  // ---------------------------------------------------------------- state

  class Backend {
    /** The storage service: object per (bucket, path). */
    var storage: map<(string, string), StoredObject>
    /** The `media` table, in insertion order. */
    var media: seq<Schema.MediaRow>
    /** Every effect so far, in order. */
    ghost var log: seq<Effect>
    /** The public URL the storage service gives a (bucket, path). */
    const publicUrl: (string, string) -> string

    constructor (storage0: map<(string, string), StoredObject>, media0: seq<Schema.MediaRow>,
                 publicUrl: (string, string) -> string)
      ensures storage == storage0 && media == media0 && log == []
      ensures this.publicUrl == publicUrl
    {
      storage, media, log := storage0, media0, [];
      this.publicUrl := publicUrl;
    }

    /** Reads the file at `uri` and stores it at (bucket, path) with upsert: the key is
        replaced whether or not it existed, and every other key is kept. Returns the
        public URL of the key; a failed read or write throws and changes nothing. */
    method UploadFile(bucket: string, path: string, uri: string, contentType: string, ok: bool)
      returns (r: Result<string, UploadError>)
      modifies this`storage, this`log
      ensures ok ==> r == Success(publicUrl(bucket, path))
      ensures ok ==> storage == old(storage)[(bucket, path) := StoredObject(uri, contentType)]
      ensures ok ==> log == old(log) + [Put(bucket, path, StoredObject(uri, contentType))]
      ensures !ok ==> r == Failure(StorageWriteFailed) && storage == old(storage) && log == old(log)
      ensures forall k :: k != (bucket, path) && k in old(storage) ==> k in storage && storage[k] == old(storage)[k]
    {
      if !ok {
        return Failure(StorageWriteFailed);
      }
      var obj := StoredObject(uri, contentType);
      storage := storage[(bucket, path) := obj];
      log := log + [Put(bucket, path, obj)];
      r := Success(publicUrl(bucket, path));
    }

    /** Inserts one `media` row and returns its id; a refusal throws and leaves the table as it was. */
    method InsertMedia(ins: Schema.MediaInsert, reply: InsertReply) returns (r: Result<string, UploadError>)
      modifies this`media, this`log
      ensures reply.InsertRejected? ==> r == Failure(InsertFailed) && media == old(media) && log == old(log)
      ensures reply.Inserted? ==>
        var row := Schema.MediaOf(ins, reply.filled);
        r == Success(row.id) && media == old(media) + [row] && log == old(log) + [Insert(row)]
    {
      if reply.InsertRejected? {
        return Failure(InsertFailed);
      }
      var row := Schema.MediaOf(ins, reply.filled);
      media := media + [row];
      log := log + [Insert(row)];
      r := Success(row.id);
    }

    /** The state is what `effects` made of the state (s0, m0, l0). */
    ghost predicate After(s0: map<(string, string), StoredObject>, m0: seq<Schema.MediaRow>,
                          l0: seq<Effect>, effects: seq<Effect>)
      reads this
    {
      storage == Stored(s0, effects) && media == m0 + Rows(effects) && log == l0 + effects
    }

    /** Lets the user pick one photo or video and uploads it to `roomId` on behalf of
        `uploaderId`. The effects, the new storage and table, and the outcome are
        exactly those of `Pipeline`. */
    method PickAndUploadMedia(roomId: string, uploaderId: string, o: Oracles)
      returns (r: Result<Option<UploadResult>, UploadError>)
      modifies this`storage, this`media, this`log
      ensures var run := Pipeline(roomId, uploaderId, o, publicUrl);
        && r == run.result
        && log == old(log) + run.effects
        && storage == Stored(old(storage), run.effects)
        && media == old(media) + Rows(run.effects)
    {
      var picked := o.picked;
      if picked.PickerThrew? {
        return Failure(PickerFailed);
      }
      if picked.canceled || picked.assets.None? || |picked.assets.value| == 0 {
        return Success(None);
      }
      var asset := picked.assets.value[0];
      var isVideo := asset.assetType == Video;
      if isVideo && asset.duration.Some? && asset.duration.value != 0.0
         && asset.duration.value > MAX_VIDEO_MS {
        return Failure(VideoTooLong);
      }
      if asset.uri.None? || asset.uri.value == "" {
        return Failure(InvalidMediaUri);
      }
      if !isVideo {
        r := UploadPhoto(roomId, uploaderId, o);
      } else {
        r := UploadVideo(roomId, uploaderId, asset.uri.value, o);
      }
    }

    /** The photo path: resize, store as JPEG under `media`, register. */
    method UploadPhoto(roomId: string, uploaderId: string, o: Oracles)
      returns (r: Result<Option<UploadResult>, UploadError>)
      modifies this`storage, this`media, this`log
      ensures var run := PhotoRun(roomId, uploaderId, o, publicUrl);
        r == run.result && After(old(storage), old(media), old(log), run.effects)
    {
      ghost var s0, m0, l0 := storage, media, log;
      ghost var run := PhotoRun(roomId, uploaderId, o, publicUrl);
      if o.manipulated.None? {
        assert run == Run([], Failure(ManipulateFailed));
        assert After(s0, m0, l0, []);
        return Failure(ManipulateFailed);
      }
      var filename := MediaPath(roomId, uploaderId, o.now, "jpg");
      var uploaded := UploadFile(MEDIA_BUCKET, filename, o.manipulated.value, "image/jpeg", o.mainUploadOk);
      if uploaded.Failure? {
        assert run == Run([], Failure(StorageWriteFailed));
        assert After(s0, m0, l0, []);
        return Failure(uploaded.error);
      }
      var ins := NewMedia(roomId, uploaderId, Photo, uploaded.value, None);
      ghost var put := Put(MEDIA_BUCKET, filename, StoredObject(o.manipulated.value, "image/jpeg"));
      StoredSnoc(s0, [], put);
      RowsSnoc([], put);
      assert After(s0, m0, l0, [put]);
      assert run == Register([put], ins, Photo, o.insert);
      r := RegisterRow(ins, Photo, o.insert, s0, m0, l0, [put]);
    }

    /** The video path: store the file as it is under `media`, try to store a
        thumbnail under `media-thumbs`, register. */
    method UploadVideo(roomId: string, uploaderId: string, source: string, o: Oracles)
      returns (r: Result<Option<UploadResult>, UploadError>)
      modifies this`storage, this`media, this`log
      ensures var run := VideoRun(roomId, uploaderId, source, o, publicUrl);
        r == run.result && After(old(storage), old(media), old(log), run.effects)
    {
      var ext := GetExt(source);
      var videoPath := MediaPath(roomId, uploaderId, o.now, ext);
      var videoContentType := VideoContentType(ext);
      r := UploadVideoAt(roomId, uploaderId, source, videoPath, videoContentType, o);
    }

    /** The video path from the upload of the file, stored as it is at `videoPath`. */
    method UploadVideoAt(roomId: string, uploaderId: string, source: string, videoPath: string,
                         videoContentType: string, o: Oracles)
      returns (r: Result<Option<UploadResult>, UploadError>)
      modifies this`storage, this`media, this`log
      ensures var run := VideoRunAt(roomId, uploaderId, source, videoPath, videoContentType, o, publicUrl);
        r == run.result && After(old(storage), old(media), old(log), run.effects)
    {
      ghost var s0, m0, l0 := storage, media, log;
      var videoUploaded := UploadFile(MEDIA_BUCKET, videoPath, source, videoContentType, o.mainUploadOk);
      if videoUploaded.Failure? {
        assert After(s0, m0, l0, []);
        return Failure(videoUploaded.error);
      }
      ghost var main := Put(MEDIA_BUCKET, videoPath, StoredObject(source, videoContentType));
      StoredSnoc(s0, [], main);
      RowsSnoc([], main);
      assert After(s0, m0, l0, [main]);
      var thumbUrl := StoreThumbnail(roomId, uploaderId, o, s0, m0, l0, [main]);
      var ins := NewMedia(roomId, uploaderId, VideoClip, videoUploaded.value, thumbUrl);
      r := RegisterRow(ins, VideoClip, o.insert, s0, m0, l0, [main] + ThumbAttempt(roomId, uploaderId, o));
    }

    /** The best-effort thumbnail step: extract a frame and store it under `media-thumbs`;
        any failure is swallowed and yields no URL. The ghost parameters name the state
        before the run and the effects so far. */
    method StoreThumbnail(roomId: string, uploaderId: string, o: Oracles,
                          ghost s0: map<(string, string), StoredObject>, ghost m0: seq<Schema.MediaRow>,
                          ghost l0: seq<Effect>, ghost done: seq<Effect>)
      returns (thumbUrl: Option<string>)
      requires After(s0, m0, l0, done)
      modifies this`storage, this`log
      ensures After(s0, m0, l0, done + ThumbAttempt(roomId, uploaderId, o))
      ensures thumbUrl == if ThumbAttempt(roomId, uploaderId, o) != []
        then Some(publicUrl(THUMB_BUCKET, ThumbPath(roomId, uploaderId, o.now))) else None
    {
      thumbUrl := None;
      if o.thumbnail.Some? {
        var thumbPath := ThumbPath(roomId, uploaderId, o.now);
        var thumbUploaded := UploadFile(THUMB_BUCKET, thumbPath, o.thumbnail.value, "image/jpeg", o.thumbUploadOk);
        if thumbUploaded.Success? {
          ghost var put := Put(THUMB_BUCKET, thumbPath, StoredObject(o.thumbnail.value, "image/jpeg"));
          assert ThumbAttempt(roomId, uploaderId, o) == [put];
          StoredSnoc(s0, done, put);
          RowsSnoc(done, put);
          thumbUrl := Some(thumbUploaded.value);
          return;
        }
      }
      assert ThumbAttempt(roomId, uploaderId, o) == [];
      assert done + [] == done;
    }

    /** Registers the stored file as a `media` row, the last step of both paths. */
    method RegisterRow(ins: Schema.MediaInsert, kind: MediaKind, reply: InsertReply,
                       ghost s0: map<(string, string), StoredObject>, ghost m0: seq<Schema.MediaRow>,
                       ghost l0: seq<Effect>, ghost done: seq<Effect>)
      returns (r: Result<Option<UploadResult>, UploadError>)
      requires After(s0, m0, l0, done)
      modifies this`media, this`log
      ensures var run := Register(done, ins, kind, reply);
        r == run.result && After(s0, m0, l0, run.effects)
    {
      var inserted := InsertMedia(ins, reply);
      if inserted.Failure? {
        return Failure(inserted.error);
      }
      ghost var row := Schema.MediaOf(ins, reply.filled);
      ghost var effects := done + [Insert(row)];
      StoredSnoc(s0, done, Insert(row));
      RowsSnoc(done, Insert(row));
      assert storage == Stored(s0, effects);
      assert media == m0 + Rows(effects) by {
        assert media == (m0 + Rows(done)) + [row];
      }
      assert log == l0 + effects;
      r := Success(Some(UploadResult(inserted.value, ins.url, ins.thumbnailUrl, kind)));
      assert Register(done, ins, kind, reply) == Run(effects, r);
    }
  }
}
