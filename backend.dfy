/** The request rules of the FastAPI backend: parsing of the comma-separated
    tags field, the file-name checks of the upload endpoints and the storage
    objects derived from the names, the dispatch of GET /news, and the update
    sets built by the two PATCH endpoints. The Supabase client, uuid4(),
    datetime.now() and datetime.fromisoformat are parameters. */
module Backend {
  import opened Basics
  import opened Text
  import opened Records
  import Seqs

  /** An HTTPException: status code and detail message. */
  datatype HttpError = HttpError(status: nat, detail: string)

  /** Python truthiness of an optional string: present and non-empty. */
  predicate Truthy(s: Option<string>) {
    s.Some? && s.value != []
  }

  // ===================== tags =====================

  function IsNonEmpty(t: string): bool {
    t != []
  }

  /** The expression that turns the tags form field into the stored list,
      shared by create_news_post and update_news_post: an empty field gives
      no tags; otherwise split at every comma, strip each piece, keep the
      non-blank ones. */
  function ParseTags(tags: string): (r: seq<string>)
    ensures forall i :: 0 <= i < |r| ==> r[i] != [] && IsPyStripped(r[i])
    ensures tags == [] ==> r == []
  {
    if tags == [] then [] else StrippedPieces(Split(tags, ','))
  }

  /** The stripped pieces that are not blank, in order. */
  function StrippedPieces(pieces: seq<string>): (r: seq<string>)
    ensures forall i :: 0 <= i < |r| ==> r[i] != [] && IsPyStripped(r[i])
  {
    var stripped := Seqs.Map(pieces, PyStrip);
    var r := Seqs.Filter(stripped, IsNonEmpty);
    forall i | 0 <= i < |r| ensures IsPyStripped(r[i]) {
      assert r[i] in multiset(r);
      assert r[i] in multiset(stripped);
      var j :| 0 <= j < |stripped| && stripped[j] == r[i];
    }
    r
  }

  /** Every parsed tag is non-empty and equal to its own strip. */
  lemma ParseTagsStripped(tags: string)
    ensures forall t :: t in ParseTags(tags) ==> t != [] && PyStrip(t) == t
  {
    forall t | t in ParseTags(tags) ensures t != [] && PyStrip(t) == t {
      PyStripFixed(t);
    }
  }

  lemma StrippedPiecesAppend(a: seq<string>, b: seq<string>)
    ensures StrippedPieces(a + b) == StrippedPieces(a) + StrippedPieces(b)
  {
    Seqs.MapAppend(a, b, PyStrip);
    Seqs.FilterAppend(Seqs.Map(a, PyStrip), Seqs.Map(b, PyStrip), IsNonEmpty);
  }

  /** The guard for an empty field changes nothing: "" splits into [""],
      whose only piece is blank. */
  lemma ParseTagsOfSplit(tags: string)
    ensures ParseTags(tags) == StrippedPieces(Split(tags, ','))
  {
    if tags == [] {
      assert Split(tags, ',') == [[]];
      assert Seqs.Map([[]], PyStrip) == [[]];
    }
  }

  /** Order is preserved: the tags of a + "," + b are those of a followed by
      those of b. */
  lemma ParseTagsConcat(a: string, b: string)
    ensures ParseTags(a + "," + b) == ParseTags(a) + ParseTags(b)
  {
    ParseTagsOfSplit(a);
    ParseTagsOfSplit(b);
    ParseTagsOfSplit(a + "," + b);
    SplitConcat(a, b, ',');
    StrippedPiecesAppend(Split(a, ','), Split(b, ','));
  }

  /** Pieces that are already non-blank and stripped pass through unchanged. */
  lemma StrippedPiecesClean(ts: seq<string>)
    requires forall i :: 0 <= i < |ts| ==> ts[i] != [] && IsPyStripped(ts[i])
    ensures StrippedPieces(ts) == ts
  {
    var stripped := Seqs.Map(ts, PyStrip);
    forall i | 0 <= i < |ts| ensures stripped[i] == ts[i] {
      PyStripFixed(ts[i]);
    }
    assert stripped == ts;
    Seqs.FilterKeepsAll(ts, IsNonEmpty);
  }

  /** Round trip: a list of non-blank, stripped, comma-free tags comes back
      from its comma-joined form. */
  lemma ParseTagsJoin(ts: seq<string>)
    requires forall i :: 0 <= i < |ts| ==> ts[i] != [] && IsPyStripped(ts[i]) && ',' !in ts[i]
    ensures ParseTags(Join(ts, ',')) == ts
  {
    if ts != [] {
      SplitJoin(ts, ',');
      ParseTagsOfSplit(Join(ts, ','));
      StrippedPiecesClean(ts);
    }
  }

  // ===================== file names and storage objects =====================

  const AudioBucket := "songs"
  const CoverBucket := "covers"
  const CoverExtensions: seq<string> := [".jpg", ".jpeg", ".png"]
  const NewsImageExtensions: seq<string> := [".jpg", ".jpeg", ".png", ".webp"]

  /** An object written to Supabase storage. */
  datatype StorageObject = StorageObject(bucket: string, path: string, contentType: string)

  /** The song file: accepted exactly when its lower-cased name ends in
      ".mp3"; it is stored as "{id}.mp3" whatever the client called it. */
  function AudioObject(fileName: string, songId: string): (r: Result<StorageObject, HttpError>)
    ensures r.Ok? <==> EndsWith(Lower(fileName), ".mp3")
    ensures r.Ok? ==> r.value == StorageObject(AudioBucket, songId + ".mp3", "audio/mpeg")
    ensures r.Err? ==> r.error.status == 400
  {
    if !EndsWith(Lower(fileName), ".mp3") then Err(HttpError(400, "Solo se permiten archivos MP3"))
    else Ok(StorageObject(AudioBucket, songId + ".mp3", "audio/mpeg"))
  }

  /** The first of the accepted extensions that the (lower-cased) name ends in. */
  function MatchedExtension(name: string, exts: seq<string>): (r: Option<string>)
    ensures r.Some? <==> EndsWithAny(name, exts)
    ensures r.Some? ==> r.value in exts && EndsWith(name, r.value)
  {
    if exts == [] then None
    else if EndsWith(name, exts[0]) then Some(exts[0])
    else
      var r := MatchedExtension(name, exts[1..]);
      assert forall e :: e in exts[1..] ==> e in exts;
      assert forall e :: e in exts ==> e == exts[0] || e in exts[1..];
      r
  }

  function CoverContentType(ext: string): string {
    if ext in [".jpg", ".jpeg"] then "image/jpeg" else "image/png"
  }

  /** The cover rule of upload_song and update_song as written: the check
      uses the whole lower-cased name, the stored path and the content type
      use pathlib's suffix of it. */
  function CoverObjectAsWritten(fileName: string, songId: string): (r: Result<StorageObject, HttpError>)
    ensures r.Ok? <==> EndsWithAny(Lower(fileName), CoverExtensions)
  {
    if !EndsWithAny(Lower(fileName), CoverExtensions) then Err(HttpError(400, "La portada debe ser JPG o PNG"))
    else
      var ext := Lower(PathSuffix(fileName));
      Ok(StorageObject(CoverBucket, songId + ext, CoverContentType(ext)))
  }

  /** The cover rule with the extension the check accepted: .jpg and .jpeg
      are stored as JPEG, .png as PNG, under "{id}{extension}". */
  function CoverObject(fileName: string, songId: string): (r: Result<StorageObject, HttpError>)
    ensures r.Ok? <==> EndsWithAny(Lower(fileName), CoverExtensions)
    ensures r.Err? ==> r.error == HttpError(400, "La portada debe ser JPG o PNG")
    ensures r.Ok? ==> exists e :: e in CoverExtensions && EndsWith(Lower(fileName), e) &&
                        r.value == StorageObject(CoverBucket, songId + e, if e == ".png" then "image/png" else "image/jpeg")
  {
    match MatchedExtension(Lower(fileName), CoverExtensions)
    case None => Err(HttpError(400, "La portada debe ser JPG o PNG"))
    case Some(e) => Ok(StorageObject(CoverBucket, songId + e, CoverContentType(e)))
  }

  function ImageContentType(ext: string): string {
    "image/" + (if ext == [] then [] else ext[1..])
  }

  /** The image rule of create_news_post and update_news_post as written. */
  function NewsImageObjectAsWritten(fileName: string, postId: string): (r: Result<StorageObject, HttpError>)
    ensures r.Ok? <==> EndsWithAny(Lower(fileName), NewsImageExtensions)
  {
    if !EndsWithAny(Lower(fileName), NewsImageExtensions) then Err(HttpError(400, "Image must be JPG, PNG, or WebP"))
    else
      var ext := Lower(PathSuffix(fileName));
      Ok(StorageObject(CoverBucket, "news/" + postId + ext, ImageContentType(ext)))
  }

  /** The image rule with the extension the check accepted: stored under
      "news/{id}{extension}" with content type "image/" and the extension
      without its dot (so .jpg gives "image/jpg"). */
  function NewsImageObject(fileName: string, postId: string): (r: Result<StorageObject, HttpError>)
    ensures r.Ok? <==> EndsWithAny(Lower(fileName), NewsImageExtensions)
    ensures r.Err? ==> r.error == HttpError(400, "Image must be JPG, PNG, or WebP")
    ensures r.Ok? ==> exists e :: e in NewsImageExtensions && EndsWith(Lower(fileName), e) &&
                        r.value == StorageObject(CoverBucket, "news/" + postId + e, "image/" + e[1..])
  {
    match MatchedExtension(Lower(fileName), NewsImageExtensions)
    case None => Err(HttpError(400, "Image must be JPG, PNG, or WebP"))
    case Some(e) => Ok(StorageObject(CoverBucket, "news/" + postId + e, ImageContentType(e)))
  }

  /** An extension: a dot followed by at least one character that is neither
      a dot nor a slash. */
  predicate IsExtension(e: string) {
    |e| >= 2 && e[0] == '.' && forall k :: 1 <= k < |e| ==> e[k] != '.' && e[k] != '/'
  }

  /** The last m characters of the name are a dot followed by characters
      that are neither dots nor slashes. */
  predicate HasExtensionTail(fileName: string, m: nat) {
    2 <= m <= |fileName| && fileName[|fileName| - m] == '.' &&
    forall k :: |fileName| - m < k < |fileName| ==> fileName[k] != '.' && fileName[k] != '/'
  }

  /** A name whose lower-cased form ends in the extension e has such a tail. */
  lemma ExtensionTail(fileName: string, e: string)
    requires IsExtension(e) && EndsWith(Lower(fileName), e)
    ensures HasExtensionTail(fileName, |e|)
    ensures Lower(fileName[|fileName| - |e|..]) == e
  {
    var d := |fileName| - |e|;
    LowerSlice(fileName, d, |fileName|);
    assert LowerChar(fileName[d]) == e[0];
    forall k | d < k < |fileName|
      ensures fileName[k] != '.' && fileName[k] != '/'
    {
      assert LowerChar(fileName[k]) == e[k - d];
    }
  }

  /** The final path component contains the whole tail: a '/' in front of
      the component cannot lie inside the tail. */
  lemma NameHoldsExtension(fileName: string, m: nat)
    requires HasExtensionTail(fileName, m)
    ensures NameStart(fileName) <= |fileName| - m
  {
  }

  /** The last dot of the whole name is the tail's dot. */
  lemma LastDotOfTail(fileName: string, m: nat)
    requires HasExtensionTail(fileName, m)
    ensures LastIndexOf(fileName, '.') == |fileName| - m
  {
    LastIndexOfAt(fileName, '.', |fileName| - m);
  }

  /** For a name with an extension tail of m characters, pathlib's suffix
      is that tail, unless the file's own name is the tail alone (a
      dot-file such as ".jpg"), in which case the suffix is empty. */
  lemma SuffixOfTail(fileName: string, m: nat)
    requires HasExtensionTail(fileName, m)
    ensures NameStart(fileName) <= |fileName| - m
    ensures NameStart(fileName) == |fileName| - m ==>
              PathName(fileName) == fileName[|fileName| - m..] && PathSuffix(fileName) == []
    ensures NameStart(fileName) < |fileName| - m ==> PathSuffix(fileName) == fileName[|fileName| - m..]
  {
    NameHoldsExtension(fileName, m);
    LastDotOfTail(fileName, m);
  }

  /** A final component longer than its extension tail holds a dot after
      its first character, so even lower-cased it is no extension. */
  lemma LongNameNotExtension(fileName: string, m: nat)
    requires HasExtensionTail(fileName, m) && NameStart(fileName) < |fileName| - m
    ensures !IsExtension(Lower(PathName(fileName)))
  {
    var d := |fileName| - m - NameStart(fileName);
    assert PathName(fileName)[d] == fileName[|fileName| - m];
    assert Lower(PathName(fileName))[d] == '.';
  }

  /** Given accepted extensions, the suffix the code stores is the
      extension the check matched, or nothing when the file's own name is
      one of the extensions. */
  lemma SuffixAgainstExtensions(fileName: string, exts: seq<string>)
    requires forall e :: e in exts ==> IsExtension(e)
    requires EndsWithAny(Lower(fileName), exts)
    ensures Lower(PathSuffix(fileName)) ==
              if Lower(PathName(fileName)) in exts then [] else MatchedExtension(Lower(fileName), exts).value
  {
    var e := MatchedExtension(Lower(fileName), exts).value;
    ExtensionTail(fileName, e);
    SuffixOfTail(fileName, |e|);
    if NameStart(fileName) == |fileName| - |e| {
      assert Lower(PathName(fileName)) == e;
      assert Lower(PathSuffix(fileName)) == [];
    } else {
      LongNameNotExtension(fileName, |e|);
    }
  }

  /** A file named by an accepted extension alone passes the check and has
      no suffix. */
  lemma DotFileSuffix(fileName: string, exts: seq<string>)
    requires forall e :: e in exts ==> IsExtension(e)
    requires Lower(PathName(fileName)) in exts
    ensures EndsWithAny(Lower(fileName), exts)
    ensures Lower(PathSuffix(fileName)) == []
  {
    LowerNameEndsName(fileName);
    SuffixAgainstExtensions(fileName, exts);
  }

  lemma CoverExtensionsValid()
    ensures forall e :: e in CoverExtensions ==> IsExtension(e)
  {
    assert IsExtension(".jpg") && IsExtension(".jpeg") && IsExtension(".png");
  }

  lemma NewsImageExtensionsValid()
    ensures forall e :: e in NewsImageExtensions ==> IsExtension(e)
  {
    assert IsExtension(".jpg") && IsExtension(".jpeg") && IsExtension(".png") && IsExtension(".webp");
  }

  /** The final component, lower-cased, is the end of the lower-cased name. */
  lemma LowerNameEndsName(fileName: string)
    ensures EndsWith(Lower(fileName), Lower(PathName(fileName)))
  {
    LowerSlice(fileName, NameStart(fileName), |fileName|);
  }

  /** The cover rule as written agrees with the intended one for every name
      whose final component is more than the extension alone. */
  lemma CoverAsWrittenAgrees(fileName: string, songId: string)
    requires Lower(PathName(fileName)) !in CoverExtensions
    ensures CoverObjectAsWritten(fileName, songId) == CoverObject(fileName, songId)
  {
    if EndsWithAny(Lower(fileName), CoverExtensions) {
      CoverExtensionsValid();
      SuffixAgainstExtensions(fileName, CoverExtensions);
    }
  }

  /** An accepted cover is stored under the song id followed by at least
      four more characters. */
  lemma CoverPathExtends(fileName: string, songId: string)
    requires EndsWithAny(Lower(fileName), CoverExtensions)
    ensures CoverObject(fileName, songId).Ok? && |CoverObject(fileName, songId).value.path| >= |songId| + 4
  {
    var e := MatchedExtension(Lower(fileName), CoverExtensions).value;
    assert e in CoverExtensions;
  }

  /** The discrepancy: a cover whose file name is the extension alone (such
      as ".jpg") passes the check, but is stored without an extension and
      labelled image/png even when it is a JPEG. */
  lemma CoverDotFileAsWritten(fileName: string, songId: string)
    requires Lower(PathName(fileName)) in CoverExtensions
    ensures CoverObjectAsWritten(fileName, songId) == Ok(StorageObject(CoverBucket, songId, "image/png"))
    ensures CoverObject(fileName, songId).Ok? && CoverObject(fileName, songId).value.path != songId
  {
    CoverExtensionsValid();
    DotFileSuffix(fileName, CoverExtensions);
    assert songId + [] == songId;
    CoverPathExtends(fileName, songId);
  }

  /** The name ".jpg" is its own final component, unchanged by lowering. */
  lemma DotJpgName(fileName: string)
    requires fileName == ".jpg"
    ensures Lower(fileName) == fileName && PathName(fileName) == fileName
  {
    assert Lower(fileName) == fileName;
    assert NameStart(fileName) == 0;
  }

  /** The intended rule stores ".jpg" as a JPEG with its extension. */
  lemma CoverDotJpgIntended(fileName: string, songId: string)
    requires fileName == ".jpg"
    ensures CoverObject(fileName, songId) == Ok(StorageObject(CoverBucket, songId + ".jpg", "image/jpeg"))
  {
    DotJpgName(fileName);
    assert EndsWith(Lower(fileName), ".jpg");
    assert MatchedExtension(Lower(fileName), CoverExtensions) == Some(".jpg");
  }

  /** A concrete instance: a JPEG named ".jpg" is stored under the bare
      song id as image/png, where the intended rule keeps ".jpg" and
      image/jpeg. */
  lemma CoverDotJpgExample(fileName: string, songId: string)
    requires fileName == ".jpg"
    ensures CoverObjectAsWritten(fileName, songId) == Ok(StorageObject(CoverBucket, songId, "image/png"))
    ensures CoverObject(fileName, songId) == Ok(StorageObject(CoverBucket, songId + ".jpg", "image/jpeg"))
  {
    DotJpgName(fileName);
    CoverDotFileAsWritten(fileName, songId);
    CoverDotJpgIntended(fileName, songId);
  }

  /** The news image rule as written agrees with the intended one for every
      name whose final component is more than the extension alone. */
  lemma NewsImageAsWrittenAgrees(fileName: string, postId: string)
    requires Lower(PathName(fileName)) !in NewsImageExtensions
    ensures NewsImageObjectAsWritten(fileName, postId) == NewsImageObject(fileName, postId)
  {
    if EndsWithAny(Lower(fileName), NewsImageExtensions) {
      NewsImageExtensionsValid();
      SuffixAgainstExtensions(fileName, NewsImageExtensions);
    }
  }

  /** An accepted news image gets a content type naming its format after
      "image/". */
  lemma NewsImageTypeNamed(fileName: string, postId: string)
    requires EndsWithAny(Lower(fileName), NewsImageExtensions)
    ensures NewsImageObject(fileName, postId).Ok? && |NewsImageObject(fileName, postId).value.contentType| >= 9
  {
    var e := MatchedExtension(Lower(fileName), NewsImageExtensions).value;
    assert e in NewsImageExtensions;
  }

  /** The discrepancy: an image whose file name is the extension alone (such
      as ".webp") passes the check, but is stored as "news/{id}" with the
      content type "image/". */
  lemma NewsImageDotFileAsWritten(fileName: string, postId: string)
    requires Lower(PathName(fileName)) in NewsImageExtensions
    ensures NewsImageObjectAsWritten(fileName, postId) == Ok(StorageObject(CoverBucket, "news/" + postId, "image/"))
    ensures NewsImageObject(fileName, postId).Ok? && NewsImageObject(fileName, postId).value.contentType != "image/"
  {
    NewsImageExtensionsValid();
    DotFileSuffix(fileName, NewsImageExtensions);
    assert "news/" + postId + [] == "news/" + postId;
    assert "image/" + [] == "image/";
    NewsImageTypeNamed(fileName, postId);
  }

  // ===================== POST /songs =====================

  /** The form fields of POST /songs as the framework hands them over;
      category is None when the field was not sent. */
  datatype SongUpload = SongUpload(
    title: string,
    fileName: string,
    coverName: Option<string>,
    description: Option<string>,
    category: Option<string>)

  /** A row of the songs table. */
  datatype SongRow = SongRow(
    id: string,
    title: string,
    audioPath: string,
    coverPath: Option<string>,
    audioUrl: string,
    coverUrl: Option<string>,
    description: Option<string>,
    category: string)

  /** What an upload endpoint leaves behind: the storage objects written, in
      order, and the response or the error raised. */
  datatype Outcome<R> = Outcome(stored: seq<StorageObject>, result: Result<R, HttpError>)

  /** upload_song. songId stands for uuid4(); audioFailure and coverFailure
      are the messages of a failing storage upload, None when it succeeds;
      publicUrl stands for get_public_url(bucket, path). */
  function UploadSong(form: SongUpload, songId: string, audioFailure: Option<string>,
                      coverFailure: Option<string>, publicUrl: (string, string) -> string): (r: Outcome<SongRow>)
    ensures r.result.Ok? <==>
              EndsWith(Lower(form.fileName), ".mp3") && audioFailure.None? &&
              (form.coverName.Some? ==> EndsWithAny(Lower(form.coverName.value), CoverExtensions) && coverFailure.None?)
    ensures !EndsWith(Lower(form.fileName), ".mp3") ==>
              r.stored == [] && r.result == Err(HttpError(400, "Solo se permiten archivos MP3"))
    ensures EndsWith(Lower(form.fileName), ".mp3") && audioFailure.None? ==>
              |r.stored| >= 1 && r.stored[0] == StorageObject(AudioBucket, songId + ".mp3", "audio/mpeg")
    ensures r.result.Ok? ==>
              var row := r.result.value;
              row.id == songId && row.title == form.title &&
              row.audioPath == songId + ".mp3" && row.audioUrl == publicUrl(AudioBucket, songId + ".mp3") &&
              (row.coverPath.Some? <==> form.coverName.Some?) && (row.coverUrl.Some? <==> form.coverName.Some?) &&
              row.description == form.description &&
              row.category == (if form.category.Some? then form.category.value else "original") &&
              |r.stored| == (if form.coverName.Some? then 2 else 1)
    ensures r.result.Ok? && form.coverName.Some? ==>
              var row := r.result.value;
              r.stored[1] == CoverObject(form.coverName.value, songId).value &&
              row.coverPath == Some(r.stored[1].path) &&
              row.coverUrl == Some(publicUrl(CoverBucket, r.stored[1].path))
    ensures EndsWith(Lower(form.fileName), ".mp3") && audioFailure.Some? ==>
              r.stored == [] && r.result == Err(HttpError(500, "Error subiendo audio: " + audioFailure.value))
    ensures EndsWith(Lower(form.fileName), ".mp3") && audioFailure.None? && form.coverName.Some? &&
            !EndsWithAny(Lower(form.coverName.value), CoverExtensions) ==>
              |r.stored| == 1 && r.result == Err(HttpError(400, "La portada debe ser JPG o PNG"))
    ensures EndsWith(Lower(form.fileName), ".mp3") && audioFailure.None? && form.coverName.Some? &&
            EndsWithAny(Lower(form.coverName.value), CoverExtensions) && coverFailure.Some? ==>
              |r.stored| == 1 && r.result == Err(HttpError(500, "Error subiendo portada: " + coverFailure.value))
  {
    match AudioObject(form.fileName, songId)
    case Err(e) => Outcome([], Err(e))
    case Ok(audio) =>
      if audioFailure.Some? then Outcome([], Err(HttpError(500, "Error subiendo audio: " + audioFailure.value)))
      else
        var audioUrl := publicUrl(AudioBucket, audio.path);
        var category := if form.category.Some? then form.category.value else "original";
        match form.coverName
        case None =>
          Outcome([audio], Ok(SongRow(songId, form.title, audio.path, None, audioUrl, None, form.description, category)))
        case Some(name) =>
          match CoverObject(name, songId)
          case Err(e) => Outcome([audio], Err(e))
          case Ok(cover) =>
            if coverFailure.Some? then Outcome([audio], Err(HttpError(500, "Error subiendo portada: " + coverFailure.value)))
            else
              var coverUrl := publicUrl(CoverBucket, cover.path);
              Outcome([audio, cover],
                      Ok(SongRow(songId, form.title, audio.path, Some(cover.path), audioUrl, Some(coverUrl), form.description, category)))
  }

  /** The Song that the endpoints return for a row. */
  function SongOf(row: SongRow): (s: Song)
    ensures s.id == row.id && s.audioUrl == row.audioUrl && s.coverUrl == row.coverUrl
  {
    Song(row.id, row.title, row.audioUrl, row.coverUrl, row.description, Some(row.category))
  }

  // ===================== POST /news =====================

  /** The form fields of POST /news as the framework hands them over. */
  datatype NewsForm = NewsForm(
    title: string,
    content: string,
    excerpt: Option<string>,
    category: string,
    sourceUrl: Option<string>,
    sourceName: Option<string>,
    author: Option<string>,
    publishedDate: string,
    isFeatured: bool,
    tags: string,
    imageName: Option<string>)

  /** A row of the news_posts table: the post and its two timestamps. */
  datatype NewsRow = NewsRow(post: NewsPost, createdAt: string, updatedAt: string)

  /** Every 'Z' replaced by "+00:00", as the endpoint does before parsing the date. */
  function ReplaceZulu(s: string): (r: string)
    ensures 'Z' !in r
    ensures |r| >= |s|
    ensures 'Z' !in s ==> r == s
  {
    if s == [] then [] else ZuluChar(s[0]) + ReplaceZulu(s[1..])
  }

  /** One character after the replacement. */
  function ZuluChar(c: char): (r: string)
    ensures 'Z' !in r && |r| >= 1
    ensures c != 'Z' ==> r == [c]
  {
    if c == 'Z' then "+00:00" else [c]
  }

  /** The replacement works character by character: replacing in a + b is
      replacing in a, then in b. */
  lemma {:induction false} ReplaceZuluAppend(a: string, b: string)
    ensures ReplaceZulu(a + b) == ReplaceZulu(a) + ReplaceZulu(b)
  {
    if a == [] {
      assert a + b == b;
    } else {
      assert (a + b)[0] == a[0];
      assert (a + b)[1..] == a[1..] + b;
      ReplaceZuluAppend(a[1..], b);
    }
  }

  /** A date with a trailing 'Z' gets the "+00:00" offset in its place. */
  lemma ZuluSuffix(date: string)
    requires 'Z' !in date
    ensures ReplaceZulu(date + "Z") == date + "+00:00"
  {
    ReplaceZuluAppend(date, "Z");
  }

  /** create_news_post. postId stands for uuid4(), createdAt and updatedAt
      for the two datetime.now() calls, parseIso for
      datetime.fromisoformat(...).isoformat() (None when it raises
      ValueError), imageFailure for a failing storage upload. */
  function CreateNewsPost(form: NewsForm, postId: string, createdAt: string, updatedAt: string,
                          parseIso: string -> Option<string>, imageFailure: Option<string>,
                          publicUrl: (string, string) -> string): (r: Outcome<NewsRow>)
    ensures r.result.Ok? <==>
              (form.imageName.Some? ==> EndsWithAny(Lower(form.imageName.value), NewsImageExtensions) && imageFailure.None?) &&
              parseIso(ReplaceZulu(form.publishedDate)).Some?
    ensures r.result.Ok? ==>
              var post := r.result.value.post;
              post.id == postId && post.tags == ParseTags(form.tags) &&
              (post.imageUrl.Some? <==> form.imageName.Some?) &&
              post.publishedDate == parseIso(ReplaceZulu(form.publishedDate)).value &&
              r.result.value.createdAt == createdAt && r.result.value.updatedAt == updatedAt
    ensures r.result.Ok? ==>
              var post := r.result.value.post;
              post.title == form.title && post.content == form.content && post.excerpt == form.excerpt &&
              post.category == form.category && post.sourceUrl == form.sourceUrl &&
              post.sourceName == form.sourceName && post.author == form.author && post.isFeatured == form.isFeatured
    ensures r.result.Ok? && form.imageName.None? ==> r.stored == []
    ensures r.result.Ok? && form.imageName.Some? ==>
              r.stored == [NewsImageObject(form.imageName.value, postId).value] &&
              r.result.value.post.imageUrl == Some(publicUrl(CoverBucket, r.stored[0].path))
    ensures form.imageName.Some? && !EndsWithAny(Lower(form.imageName.value), NewsImageExtensions) ==>
              r.stored == [] && r.result == Err(HttpError(400, "Image must be JPG, PNG, or WebP"))
    ensures form.imageName.Some? && EndsWithAny(Lower(form.imageName.value), NewsImageExtensions) && imageFailure.Some? ==>
              r.stored == [] && r.result == Err(HttpError(500, "Error uploading image: " + imageFailure.value))
    ensures (form.imageName.Some? ==> EndsWithAny(Lower(form.imageName.value), NewsImageExtensions) && imageFailure.None?) &&
            parseIso(ReplaceZulu(form.publishedDate)).None? ==>
              r.result == Err(HttpError(400, "Invalid date format. Use ISO format.")) &&
              |r.stored| == (if form.imageName.Some? then 1 else 0)
  {
    var image: Result<Option<StorageObject>, HttpError> :=
      match form.imageName
      case None => Ok(None)
      case Some(name) =>
        match NewsImageObject(name, postId)
        case Err(e) => Err(e)
        case Ok(obj) =>
          if imageFailure.Some? then Err(HttpError(500, "Error uploading image: " + imageFailure.value)) else Ok(Some(obj));
    var stored := if image.Ok? && image.value.Some? then [image.value.value] else [];
    if image.Err? then Outcome(stored, Err(image.error))
    else
      var tagList := ParseTags(form.tags);
      match parseIso(ReplaceZulu(form.publishedDate))
      case None => Outcome(stored, Err(HttpError(400, "Invalid date format. Use ISO format.")))
      case Some(date) =>
        var imageUrl := if image.value.Some? then Some(publicUrl(CoverBucket, image.value.value.path)) else None;
        var post := NewsPost(postId, form.title, form.content, form.excerpt, form.category, form.sourceUrl,
                             form.sourceName, form.author, imageUrl, date, form.isFeatured, tagList);
        Outcome(stored, Ok(NewsRow(post, createdAt, updatedAt)))
  }

  // ===================== GET /news =====================

  /** Which query list_news runs. */
  datatype NewsQuery = FeaturedPosts | PostsInCategory(name: string) | AllPosts

  /** The dispatch of list_news: a truthy featured wins over category; an
      empty category counts as absent. */
  function NewsQueryFor(category: Option<string>, featured: Option<bool>): (q: NewsQuery)
    ensures featured == Some(true) <==> q == FeaturedPosts
    ensures q.PostsInCategory? <==> featured != Some(true) && Truthy(category)
    ensures q.PostsInCategory? ==> q.name == category.value
  {
    if featured == Some(true) then FeaturedPosts
    else if Truthy(category) then PostsInCategory(category.value)
    else AllPosts
  }

  predicate Selects(q: NewsQuery, p: NewsPost) {
    match q
    case FeaturedPosts => p.isFeatured
    case PostsInCategory(name) => p.category == name
    case AllPosts => true
  }

  /** list_news over the table, given in the published_date order the queries sort by. */
  function ListNews(table: seq<NewsPost>, category: Option<string>, featured: Option<bool>): (r: seq<NewsPost>)
    ensures Seqs.IsSubsequence(r, table)
    ensures forall p :: multiset(r)[p] == if Selects(NewsQueryFor(category, featured), p) then multiset(table)[p] else 0
  {
    var q := NewsQueryFor(category, featured);
    Seqs.Filter(table, p => Selects(q, p))
  }

  /** With featured=true the category does not matter and exactly the
      featured posts come back, in table order. */
  lemma ListNewsFeaturedWins(table: seq<NewsPost>, c1: Option<string>, c2: Option<string>)
    ensures ListNews(table, c1, Some(true)) == ListNews(table, c2, Some(true))
    ensures forall p :: p in ListNews(table, c1, Some(true)) ==> p.isFeatured
    ensures forall p :: p in table && p.isFeatured ==> p in ListNews(table, c1, Some(true))
    ensures Seqs.IsSubsequence(ListNews(table, c1, Some(true)), table)
  {
    var r := ListNews(table, c1, Some(true));
    forall p | p in r ensures p.isFeatured {
      var i :| 0 <= i < |r| && r[i] == p;
    }
    forall p | p in table && p.isFeatured ensures p in r {
      assert multiset(r)[p] == multiset(table)[p];
    }
  }

  /** Without a truthy featured flag, a non-empty category returns exactly
      the posts of that category, in table order. */
  lemma ListNewsByCategory(table: seq<NewsPost>, name: string, featured: Option<bool>)
    requires featured != Some(true) && name != []
    ensures forall p :: p in ListNews(table, Some(name), featured) <==> p in table && p.category == name
    ensures Seqs.IsSubsequence(ListNews(table, Some(name), featured), table)
  {
    var r := ListNews(table, Some(name), featured);
    forall p ensures p in r <==> p in table && p.category == name {
      assert p in r <==> multiset(r)[p] > 0;
      assert p in table <==> multiset(table)[p] > 0;
    }
  }

  /** With neither filter every post comes back, in table order. */
  lemma ListNewsAll(table: seq<NewsPost>, category: Option<string>, featured: Option<bool>)
    requires featured != Some(true) && !Truthy(category)
    ensures ListNews(table, category, featured) == table
  {
    Seqs.FilterKeepsAll(table, p => Selects(AllPosts, p));
  }

  // ===================== PATCH /songs/{id} =====================

  /** The columns that the PATCH endpoints write, by their table names. */
  datatype Column =
    | Title | Description | Category | CoverPath | CoverUrl
    | UpdatedAt | Content | Excerpt | SourceUrl | SourceName | Author | IsFeatured | Tags | ImageUrl

  function ColumnName(c: Column): string {
    match c
    case Title => "title"
    case Description => "description"
    case Category => "category"
    case CoverPath => "cover_path"
    case CoverUrl => "cover_url"
    case UpdatedAt => "updated_at"
    case Content => "content"
    case Excerpt => "excerpt"
    case SourceUrl => "source_url"
    case SourceName => "source_name"
    case Author => "author"
    case IsFeatured => "is_featured"
    case Tags => "tags"
    case ImageUrl => "image_url"
  }

  /** Distinct columns have distinct names, so a map keyed by Column is a
      dictionary keyed by column name. */
  lemma ColumnNamesDistinct(c1: Column, c2: Column)
    requires ColumnName(c1) == ColumnName(c2)
    ensures c1 == c2
  {
  }

  /** A value in an update set. */
  datatype Value = Str(s: string) | Bool(b: bool) | StrList(items: seq<string>)

  /** The form fields of PATCH /songs/{id}. */
  datatype SongPatch = SongPatch(
    title: Option<string>,
    description: Option<string>,
    category: Option<string>,
    coverName: Option<string>)

  /** What update_song does: the update set, the old cover it removes from
      storage, the cover it uploads, and whether it writes the table. */
  datatype SongPatchPlan = SongPatchPlan(
    updates: map<Column, Value>,
    removedCover: Option<string>,
    uploadedCover: Option<StorageObject>,
    writesTable: bool)

  /** The update set of update_song: title and category only when non-empty,
      description whenever it was sent (even empty), and the new cover's path
      and URL when a cover was sent. Nothing else. */
  ghost predicate IsSongUpdateSet(u: map<Column, Value>, patch: SongPatch, cover: Option<(string, string)>) {
    && (Title in u <==> Truthy(patch.title))
    && (Truthy(patch.title) ==> u[Title] == Str(patch.title.value))
    && (Description in u <==> patch.description.Some?)
    && (patch.description.Some? ==> u[Description] == Str(patch.description.value))
    && (Category in u <==> Truthy(patch.category))
    && (Truthy(patch.category) ==> u[Category] == Str(patch.category.value))
    && (CoverPath in u <==> cover.Some?) && (CoverUrl in u <==> cover.Some?)
    && (cover.Some? ==> u[CoverPath] == Str(cover.value.0) && u[CoverUrl] == Str(cover.value.1))
    && u.Keys <= {Title, Description, Category, CoverPath, CoverUrl}
  }

  /** The text fields of the update set, built as update_song builds them:
      a field set for exactly the parts the patch sends. */
  method SongFieldUpdates(patch: SongPatch) returns (u: map<Column, Value>)
    ensures IsSongUpdateSet(u, patch, None)
  {
    u := map[];
    if Truthy(patch.title) {
      u := u[Title := Str(patch.title.value)];
    }
    if patch.description.Some? {
      u := u[Description := Str(patch.description.value)];
    }
    if Truthy(patch.category) {
      u := u[Category := Str(patch.category.value)];
    }
  }

  /** Adding the new cover's path and URL to the field set gives the update
      set for that cover. */
  lemma AddCoverUpdates(u: map<Column, Value>, patch: SongPatch, path: string, url: string)
    requires IsSongUpdateSet(u, patch, None)
    ensures IsSongUpdateSet(u[CoverPath := Str(path)][CoverUrl := Str(url)], patch, Some((path, url)))
  {
  }

  /** update_song. row is what fetch_song_row returned; publicUrl stands for
      get_public_url(bucket, path). */
  method PlanSongUpdate(row: Option<SongRow>, songId: string, patch: SongPatch,
                        publicUrl: (string, string) -> string) returns (r: Result<SongPatchPlan, HttpError>)
    ensures row.None? ==> r == Err(HttpError(404, "Canción no encontrada"))
    ensures r.Ok? <==> row.Some? && (patch.coverName.Some? ==> EndsWithAny(Lower(patch.coverName.value), CoverExtensions))
    ensures row.Some? && r.Err? ==> r.error == HttpError(400, "La portada debe ser JPG o PNG")
    ensures r.Ok? ==>
              var plan := r.value;
              var cover := if plan.uploadedCover.Some? then Some((plan.uploadedCover.value.path, publicUrl(CoverBucket, plan.uploadedCover.value.path))) else None;
              IsSongUpdateSet(plan.updates, patch, cover) &&
              (plan.uploadedCover.Some? <==> patch.coverName.Some?) &&
              (patch.coverName.Some? ==> plan.uploadedCover == Some(CoverObject(patch.coverName.value, songId).value)) &&
              plan.removedCover == (if patch.coverName.Some? && Truthy(row.value.coverPath) then row.value.coverPath else None) &&
              (plan.writesTable <==> plan.updates != map[])
  {
    if row.None? {
      return Err(HttpError(404, "Canción no encontrada"));
    }
    var updates := SongFieldUpdates(patch);
    var removed: Option<string> := None;
    var uploaded: Option<StorageObject> := None;
    if patch.coverName.Some? {
      var obj := CoverObject(patch.coverName.value, songId);
      if obj.Err? {
        return Err(obj.error);
      }
      if Truthy(row.value.coverPath) {
        removed := row.value.coverPath;
      }
      uploaded := Some(obj.value);
      var url := publicUrl(CoverBucket, obj.value.path);
      AddCoverUpdates(updates, patch, obj.value.path, url);
      updates := updates[CoverPath := Str(obj.value.path)][CoverUrl := Str(url)];
    }
    r := Ok(SongPatchPlan(updates, removed, uploaded, updates != map[]));
  }

  /** The row after the table update: every key of the update set overwrites its column. */
  function ApplySongUpdates(row: SongRow, u: map<Column, Value>): (r: SongRow)
    ensures r.id == row.id && r.audioPath == row.audioPath && r.audioUrl == row.audioUrl
    ensures u == map[] ==> r == row
    ensures Title in u && u[Title].Str? ==> r.title == u[Title].s
    ensures CoverUrl in u && u[CoverUrl].Str? ==> r.coverUrl == Some(u[CoverUrl].s)
  {
    row.(
      title := if Title in u && u[Title].Str? then u[Title].s else row.title,
      description := if Description in u && u[Description].Str? then Some(u[Description].s) else row.description,
      category := if Category in u && u[Category].Str? then u[Category].s else row.category,
      coverPath := if CoverPath in u && u[CoverPath].Str? then Some(u[CoverPath].s) else row.coverPath,
      coverUrl := if CoverUrl in u && u[CoverUrl].Str? then Some(u[CoverUrl].s) else row.coverUrl)
  }

  /** A patch never blanks the title or the category, never touches the id
      or the audio, and leaves every field it did not send as it was. */
  lemma SongPatchEffect(row: SongRow, u: map<Column, Value>, patch: SongPatch, cover: Option<(string, string)>)
    requires IsSongUpdateSet(u, patch, cover)
    ensures var after := ApplySongUpdates(row, u);
      && after.id == row.id && after.audioPath == row.audioPath && after.audioUrl == row.audioUrl
      && after.title == (if Truthy(patch.title) then patch.title.value else row.title)
      && (row.title != [] ==> after.title != [])
      && after.category == (if Truthy(patch.category) then patch.category.value else row.category)
      && (row.category != [] ==> after.category != [])
      && after.description == (if patch.description.Some? then patch.description else row.description)
      && (cover.None? ==> after.coverPath == row.coverPath && after.coverUrl == row.coverUrl)
  {
  }

  /** The update set is determined by the request: two sets built from the
      same patch and cover are equal. */
  lemma SongUpdateSetUnique(u1: map<Column, Value>, u2: map<Column, Value>, patch: SongPatch, cover: Option<(string, string)>)
    requires IsSongUpdateSet(u1, patch, cover) && IsSongUpdateSet(u2, patch, cover)
    ensures u1 == u2
  {
    assert u1.Keys == u2.Keys;
  }

  /** An empty patch writes nothing. */
  lemma EmptySongPatchWritesNothing(u: map<Column, Value>, patch: SongPatch)
    requires patch == SongPatch(None, None, None, None)
    requires IsSongUpdateSet(u, patch, None)
    ensures u == map[]
  {
    assert u.Keys == {};
  }

  // ===================== PATCH /news/{id} =====================

  /** The form fields of PATCH /news/{id}. */
  datatype NewsPatch = NewsPatch(
    title: Option<string>,
    content: Option<string>,
    excerpt: Option<string>,
    category: Option<string>,
    sourceUrl: Option<string>,
    sourceName: Option<string>,
    author: Option<string>,
    isFeatured: Option<bool>,
    tags: Option<string>,
    imageName: Option<string>)

  /** What update_news_post does: the update set, the image it uploads, and
      whether it writes the table. */
  datatype NewsPatchPlan = NewsPatchPlan(updates: map<Column, Value>, uploadedImage: Option<StorageObject>, writesTable: bool)

  /** An optional text field that is set whenever it was sent. */
  ghost predicate SetWhenSent(u: map<Column, Value>, key: Column, v: Option<string>) {
    (key in u <==> v.Some?) && (v.Some? ==> u[key] == Str(v.value))
  }

  /** A required text field that is set only when non-empty. */
  ghost predicate SetWhenNonEmpty(u: map<Column, Value>, key: Column, v: Option<string>) {
    (key in u <==> Truthy(v)) && (Truthy(v) ==> u[key] == Str(v.value))
  }

  /** The form-field part of the update set of update_news_post: always
      updated_at; title, content and category only when non-empty; every
      other field whenever it was sent; tags parsed like on creation. */
  ghost predicate IsNewsFieldSet(u: map<Column, Value>, patch: NewsPatch, now: string) {
    && UpdatedAt in u && u[UpdatedAt] == Str(now)
    && SetWhenNonEmpty(u, Title, patch.title)
    && SetWhenNonEmpty(u, Content, patch.content)
    && SetWhenSent(u, Excerpt, patch.excerpt)
    && SetWhenNonEmpty(u, Category, patch.category)
    && SetWhenSent(u, SourceUrl, patch.sourceUrl)
    && SetWhenSent(u, SourceName, patch.sourceName)
    && SetWhenSent(u, Author, patch.author)
    && (IsFeatured in u <==> patch.isFeatured.Some?)
    && (patch.isFeatured.Some? ==> u[IsFeatured] == Bool(patch.isFeatured.value))
    && (Tags in u <==> patch.tags.Some?)
    && (patch.tags.Some? ==> u[Tags] == StrList(ParseTags(patch.tags.value)))
    && u.Keys <= {UpdatedAt, Title, Content, Excerpt, Category, SourceUrl,
                  SourceName, Author, IsFeatured, Tags}
  }

  /** The whole update set: the form fields and the new image's URL, nothing else. */
  ghost predicate IsNewsUpdateSet(u: map<Column, Value>, patch: NewsPatch, now: string, imageUrl: Option<string>) {
    && SetWhenSent(u, ImageUrl, imageUrl)
    && IsNewsFieldSet(u - {ImageUrl}, patch, now)
  }

  /** The fields that carry text, set first. */
  ghost predicate IsNewsTextSet(u: map<Column, Value>, patch: NewsPatch, now: string) {
    && UpdatedAt in u && u[UpdatedAt] == Str(now)
    && SetWhenNonEmpty(u, Title, patch.title)
    && SetWhenNonEmpty(u, Content, patch.content)
    && SetWhenSent(u, Excerpt, patch.excerpt)
    && SetWhenNonEmpty(u, Category, patch.category)
    && u.Keys <= {UpdatedAt, Title, Content, Excerpt, Category}
  }

  /** updated_at and the text fields of update_news_post. */
  method NewsTextUpdates(patch: NewsPatch, now: string) returns (updates: map<Column, Value>)
    ensures IsNewsTextSet(updates, patch, now)
  {
    updates := map[UpdatedAt := Str(now)];
    if Truthy(patch.title) {
      updates := updates[Title := Str(patch.title.value)];
    }
    if Truthy(patch.content) {
      updates := updates[Content := Str(patch.content.value)];
    }
    if patch.excerpt.Some? {
      updates := updates[Excerpt := Str(patch.excerpt.value)];
    }
    if Truthy(patch.category) {
      updates := updates[Category := Str(patch.category.value)];
    }
  }

  /** The fields that are set whenever they were sent, set after the text fields. */
  ghost predicate IsNewsOtherSet(u: map<Column, Value>, patch: NewsPatch) {
    && SetWhenSent(u, SourceUrl, patch.sourceUrl)
    && SetWhenSent(u, SourceName, patch.sourceName)
    && SetWhenSent(u, Author, patch.author)
    && (IsFeatured in u <==> patch.isFeatured.Some?)
    && (patch.isFeatured.Some? ==> u[IsFeatured] == Bool(patch.isFeatured.value))
    && (Tags in u <==> patch.tags.Some?)
    && (patch.tags.Some? ==> u[Tags] == StrList(ParseTags(patch.tags.value)))
  }

  /** Adds source_url, source_name, author, is_featured and tags to the text updates. */
  method AddNewsOtherUpdates(text: map<Column, Value>, patch: NewsPatch) returns (updates: map<Column, Value>)
    requires text.Keys <= {UpdatedAt, Title, Content, Excerpt, Category}
    ensures IsNewsOtherSet(updates, patch)
    ensures updates.Keys <= text.Keys + {SourceUrl, SourceName, Author, IsFeatured, Tags}
    ensures forall k :: k in text ==> k in updates && updates[k] == text[k]
  {
    updates := text;
    if patch.sourceUrl.Some? {
      updates := updates[SourceUrl := Str(patch.sourceUrl.value)];
    }
    if patch.sourceName.Some? {
      updates := updates[SourceName := Str(patch.sourceName.value)];
    }
    if patch.author.Some? {
      updates := updates[Author := Str(patch.author.value)];
    }
    if patch.isFeatured.Some? {
      updates := updates[IsFeatured := Bool(patch.isFeatured.value)];
    }
    if patch.tags.Some? {
      updates := updates[Tags := StrList(ParseTags(patch.tags.value))];
    }
  }

  /** The form-field updates of update_news_post, in the order the code adds them. */
  method NewsFieldUpdates(patch: NewsPatch, now: string) returns (updates: map<Column, Value>)
    ensures IsNewsFieldSet(updates, patch, now)
  {
    var text := NewsTextUpdates(patch, now);
    updates := AddNewsOtherUpdates(text, patch);
  }

  /** update_news_post. row is what fetch_news_post returned; now stands for
      datetime.now().isoformat(). */
  method PlanNewsUpdate(row: Option<NewsRow>, postId: string, patch: NewsPatch, now: string,
                        publicUrl: (string, string) -> string) returns (r: Result<NewsPatchPlan, HttpError>)
    ensures row.None? ==> r == Err(HttpError(404, "News post not found"))
    ensures r.Ok? <==> row.Some? && (patch.imageName.Some? ==> EndsWithAny(Lower(patch.imageName.value), NewsImageExtensions))
    ensures row.Some? && r.Err? ==> r.error == HttpError(400, "Image must be JPG, PNG, or WebP")
    ensures r.Ok? ==>
              var plan := r.value;
              var imageUrl := if plan.uploadedImage.Some? then Some(publicUrl(CoverBucket, plan.uploadedImage.value.path)) else None;
              IsNewsUpdateSet(plan.updates, patch, now, imageUrl) &&
              (plan.uploadedImage.Some? <==> patch.imageName.Some?) &&
              (patch.imageName.Some? ==> plan.uploadedImage == Some(NewsImageObject(patch.imageName.value, postId).value)) &&
              (plan.writesTable <==> plan.updates != map[])
  {
    if row.None? {
      return Err(HttpError(404, "News post not found"));
    }
    var updates := NewsFieldUpdates(patch, now);
    assert updates - {ImageUrl} == updates;
    var uploaded: Option<StorageObject> := None;
    if patch.imageName.Some? {
      var obj := NewsImageObject(patch.imageName.value, postId);
      if obj.Err? {
        return Err(obj.error);
      }
      uploaded := Some(obj.value);
      var fields := updates;
      updates := updates[ImageUrl := Str(publicUrl(CoverBucket, obj.value.path))];
      assert updates - {ImageUrl} == fields;
    }
    r := Ok(NewsPatchPlan(updates, uploaded, updates != map[]));
  }

  /** Because updated_at is always in it, a news update set is never empty,
      so the table is written on every successful PATCH, even one that
      sends no field. */
  lemma NewsPatchAlwaysWrites(u: map<Column, Value>, patch: NewsPatch, now: string, imageUrl: Option<string>)
    requires IsNewsUpdateSet(u, patch, now, imageUrl)
    ensures u != map[]
    ensures patch == NewsPatch(None, None, None, None, None, None, None, None, None, None) && imageUrl.None? ==>
              u == map[UpdatedAt := Str(now)]
  {
    assert UpdatedAt in u - {ImageUrl};
    if patch == NewsPatch(None, None, None, None, None, None, None, None, None, None) && imageUrl.None? {
      assert u == u - {ImageUrl};
      assert u.Keys == {UpdatedAt};
    }
  }
}
