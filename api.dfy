/** The API client of the frontend: the base URL, the media URL builders,
    the localStorage cache of GET /songs and the form that uploadSong posts.
    fetch, FormData and localStorage are modelled as values: a response is a
    parameter, a form is a sequence of fields, the storage is a map. */
module Api {
  import opened Basics
  import opened Text
  import opened Records
  import Backend

  const DefaultApi := "http://localhost:8000"

  // ===================== base URL =====================

  /** VITE_API with one trailing '/' removed; the default when the variable
      is unset or what is left is empty. */
  function BaseUrl(viteApi: Option<string>): (r: string)
    ensures r != []
    ensures viteApi.None? || viteApi.value == [] || viteApi.value == "/" ==> r == DefaultApi
    ensures viteApi.Some? && viteApi.value != [] && viteApi.value != "/" ==>
              viteApi.value == r || viteApi.value == r + "/"
    ensures viteApi.Some? && viteApi.value != [] && viteApi.value[|viteApi.value| - 1] != '/' ==> r == viteApi.value
    ensures viteApi.Some? && |viteApi.value| >= 2 && viteApi.value[|viteApi.value| - 1] == '/' ==> r + "/" == viteApi.value
  {
    match viteApi
    case None => DefaultApi
    case Some(v) =>
      var stripped := if v != [] && v[|v| - 1] == '/' then v[..|v| - 1] else v;
      if stripped == [] then DefaultApi else stripped
  }

  /** Only one slash is removed: a value ending in two keeps one. */
  lemma BaseUrlStripsOneSlash(host: string)
    requires host != []
    ensures BaseUrl(Some(host + "//")) == host + "/"
  {
    var v := host + "//";
    assert v[..|v| - 1] == host + "/";
  }

  // ===================== media URLs =====================

  /** getSongFileUrl: the backend route that redirects to the audio file. */
  function SongFileUrl(api: string, id: string): (r: string)
    ensures |r| == |api| + |id| + 12
  {
    api + "/songs/" + id + "/file"
  }

  /** getSongCoverUrl: the backend route that redirects to the cover. */
  function SongCoverUrl(api: string, id: string): (r: string)
    ensures |r| == |api| + |id| + 13
  {
    api + "/songs/" + id + "/cover"
  }

  /** The id sits between the route prefix and the given ending. */
  lemma IdInsideUrl(api: string, id: string, ending: string)
    ensures (api + "/songs/" + id + ending)[|api| + 7..|api| + 7 + |id|] == id
  {
    var u := api + "/songs/" + id + ending;
    assert u == (api + "/songs/") + id + ending;
  }

  /** Distinct songs get distinct file URLs, and distinct cover URLs. */
  lemma {:induction false} SongUrlsInjective(api: string, id1: string, id2: string)
    ensures SongFileUrl(api, id1) == SongFileUrl(api, id2) ==> id1 == id2
    ensures SongCoverUrl(api, id1) == SongCoverUrl(api, id2) ==> id1 == id2
  {
    IdInsideUrl(api, id1, "/file");
    IdInsideUrl(api, id2, "/file");
    IdInsideUrl(api, id1, "/cover");
    IdInsideUrl(api, id2, "/cover");
  }

  /** A file URL is never a cover URL, whatever the two ids. */
  lemma FileUrlIsNotCoverUrl(api: string, id1: string, id2: string)
    ensures SongFileUrl(api, id1) != SongCoverUrl(api, id2)
  {
    var f := SongFileUrl(api, id1);
    var c := SongCoverUrl(api, id2);
    assert f[|f| - 1] == 'e';
    assert c[|c| - 1] == 'r';
  }

  // ===================== the songs cache =====================

  const CacheKey := "songs_cache_v1"
  const CacheTtlMs := 10 * 60 * 1000

  /** What JSON.parse gives for a stored string: either nothing usable (the
      text does not parse, or parses to a falsy value), or an object whose
      ts may be missing or not a number and whose data is the list. */
  datatype Stored = Unusable | Entry(ts: Option<int>, data: seq<Song>)

  /** The entry is fresh: its ts is a number and now - ts < 10 minutes. A
      missing ts makes the difference NaN, and the comparison false. */
  predicate IsFresh(entry: Stored, now: int) {
    entry.Entry? && entry.ts.Some? && now - entry.ts.value < CacheTtlMs
  }

  /** The cache decision of getSongs at time now: the cached list when the
      entry under CacheKey is there and fresh, a miss otherwise. */
  function CacheLookup(storage: map<string, Stored>, now: int): (r: Option<seq<Song>>)
    ensures r.Some? ==> CacheKey in storage && storage[CacheKey].Entry? && r.value == storage[CacheKey].data
    ensures CacheKey !in storage ==> r.None?
    ensures CacheKey in storage && storage[CacheKey] == Unusable ==> r.None?
  {
    if CacheKey in storage && IsFresh(storage[CacheKey], now) then Some(storage[CacheKey].data) else None
  }

  /** An entry written at time t is served exactly while now < t + 10
      minutes: one exactly ten minutes old is a miss. */
  lemma CacheWriteThenRead(storage: map<string, Stored>, data: seq<Song>, t: int, now: int)
    ensures CacheLookup(storage[CacheKey := Entry(Some(t), data)], now) == Some(data) <==> now < t + 600000
    ensures CacheLookup(storage[CacheKey := Entry(Some(t), data)], t + 600000) == None
  {
  }

  /** An entry with no usable ts is never served. */
  lemma CacheWithoutTsMisses(storage: map<string, Stored>, now: int)
    requires CacheKey in storage && storage[CacheKey].Entry? && storage[CacheKey].ts.None?
    ensures CacheLookup(storage, now) == None
  {
  }

  /** What fetch gives: a rejected promise, or a response with its ok flag
      and the parsed JSON body. */
  datatype Response = NetworkError(reason: string) | Response(ok: bool, body: seq<Song>)

  /** localStorage, restricted to what getSongs reads and writes. */
  class SongsCache {
    var storage: map<string, Stored>

    constructor(initial: map<string, Stored>)
      ensures storage == initial
    {
      storage := initial;
    }

    /** getSongs. readNow and writeNow are the two Date.now() calls;
        response is what fetch(API + "/songs") gives on a miss; writable is
        false when setItem throws (the error is swallowed). requested is the
        URL fetched, None when the cache answered. */
    method GetSongs(api: string, readNow: int, response: Response, writeNow: int, writable: bool)
      returns (requested: Option<string>, r: Result<seq<Song>, string>)
      modifies this
      ensures old(CacheLookup(storage, readNow)).Some? ==>
                requested.None? && r == Ok(old(CacheLookup(storage, readNow)).value) && storage == old(storage)
      ensures old(CacheLookup(storage, readNow)).None? ==> requested == Some(api + "/songs")
      ensures old(CacheLookup(storage, readNow)).None? && response.NetworkError? ==>
                r == Err(response.reason) && storage == old(storage)
      ensures old(CacheLookup(storage, readNow)).None? && response.Response? && !response.ok ==>
                r == Err("Error al obtener canciones") && storage == old(storage)
      ensures old(CacheLookup(storage, readNow)).None? && response.Response? && response.ok ==>
                r == Ok(response.body) &&
                storage == if writable then old(storage)[CacheKey := Entry(Some(writeNow), response.body)] else old(storage)
    {
      var cached := CacheLookup(storage, readNow);
      if cached.Some? {
        return None, Ok(cached.value);
      }
      requested := Some(api + "/songs");
      match response
      case NetworkError(reason) =>
        r := Err(reason);
      case Response(ok, body) =>
        if !ok {
          r := Err("Error al obtener canciones");
          return;
        }
        if writable {
          storage := storage[CacheKey := Entry(Some(writeNow), body)];
        }
        r := Ok(body);
    }
  }

  // ===================== the upload form =====================

  datatype FormValue = Text(s: string) | File(fileName: string)

  datatype FormField = FormField(name: string, value: FormValue)

  /** The value of the first field with the given name. A FastAPI form
      parameter reads the last field of a repeated name instead; the forms
      uploadSong builds never repeat a name, so the two agree on them. */
  function FirstValue(form: seq<FormField>, name: string): (r: Option<FormValue>)
    ensures r.Some? <==> exists i :: 0 <= i < |form| && form[i].name == name
  {
    if form == [] then None
    else if form[0].name == name then Some(form[0].value)
    else
      var r := FirstValue(form[1..], name);
      assert forall i :: 1 <= i < |form| ==> form[i] == form[1..][i - 1];
      r
  }

  /** The value found is that of the first field with the name. */
  lemma {:induction false} FirstValueIsFirst(form: seq<FormField>, name: string)
    requires FirstValue(form, name).Some?
    ensures exists i :: 0 <= i < |form| && form[i] == FormField(name, FirstValue(form, name).value) &&
                        forall j :: 0 <= j < i ==> form[j].name != name
  {
    if form[0].name != name {
      FirstValueIsFirst(form[1..], name);
      var i :| 0 <= i < |form[1..]| && form[1..][i] == FormField(name, FirstValue(form[1..], name).value) &&
               forall j :: 0 <= j < i ==> form[1..][j].name != name;
      assert form[i + 1] == form[1..][i];
      assert forall j :: 1 <= j < i + 1 ==> form[j] == form[1..][j - 1];
    } else {
      assert form[0] == FormField(name, FirstValue(form, name).value);
    }
  }

  /** Appending a field only answers lookups that found nothing before. */
  lemma {:induction false} FirstValueAppend(form: seq<FormField>, f: FormField, name: string)
    ensures FirstValue(form + [f], name) ==
              if FirstValue(form, name).Some? then FirstValue(form, name)
              else if f.name == name then Some(f.value) else None
  {
    if form != [] {
      assert (form + [f])[1..] == form[1..] + [f];
      FirstValueAppend(form[1..], f, name);
    }
  }

  function TextOf(v: Option<FormValue>): Option<string> {
    if v.Some? && v.value.Text? then Some(v.value.s) else None
  }

  function FileOf(v: Option<FormValue>): Option<string> {
    if v.Some? && v.value.File? then Some(v.value.fileName) else None
  }

  /** The fields of POST /songs as the backend reads them from the form;
      None when the required title or file is missing. */
  function ReceivedSongUpload(form: seq<FormField>): (r: Option<Backend.SongUpload>)
    ensures r.Some? ==> TextOf(FirstValue(form, "title")).Some? && FileOf(FirstValue(form, "file")).Some?
  {
    var title := TextOf(FirstValue(form, "title"));
    var file := FileOf(FirstValue(form, "file"));
    if title.None? || file.None? then None
    else Some(Backend.SongUpload(title.value, file.value, FileOf(FirstValue(form, "cover")),
                                 TextOf(FirstValue(form, "description")), TextOf(FirstValue(form, "category"))))
  }

  /** The fields uploadSong appends, in order: title and file always, the
      cover when one was chosen, the description only when it is a
      non-empty string. */
  function UploadFields(title: string, mp3Name: string, coverName: Option<string>, description: Option<string>)
    : (form: seq<FormField>)
    ensures |form| >= 2 && form[0] == FormField("title", Text(title)) && form[1] == FormField("file", File(mp3Name))
    ensures |form| == 2 + (if coverName.Some? then 1 else 0) + (if Backend.Truthy(description) then 1 else 0)
  {
    [FormField("title", Text(title)), FormField("file", File(mp3Name))]
    + (if coverName.Some? then [FormField("cover", File(coverName.value))] else [])
    + (if Backend.Truthy(description) then [FormField("description", Text(description.value))] else [])
  }

  /** What the five upload fields look up to in form. */
  ghost predicate UploadLookups(form: seq<FormField>, title: FormValue, file: FormValue,
                                cover: Option<FormValue>, description: Option<FormValue>) {
    && FirstValue(form, "title") == Some(title)
    && FirstValue(form, "file") == Some(file)
    && FirstValue(form, "cover") == cover
    && FirstValue(form, "description") == description
    && FirstValue(form, "category") == None
  }

  lemma UploadFieldsBase(title: string, mp3Name: string)
    ensures UploadLookups([FormField("title", Text(title)), FormField("file", File(mp3Name))],
                          Text(title), File(mp3Name), None, None)
  {
    var form := [FormField("title", Text(title)), FormField("file", File(mp3Name))];
    assert form[1..] == [FormField("file", File(mp3Name))];
    assert form[1..][1..] == [];
  }

  /** A field named cover or description appended where that name was not
      yet sent answers its own name and nothing else. */
  lemma {:induction false} AppendOptional(form: seq<FormField>, title: FormValue, file: FormValue,
                                          cover: Option<FormValue>, description: Option<FormValue>, f: FormField)
    requires UploadLookups(form, title, file, cover, description)
    requires (f.name == "cover" && cover.None?) || (f.name == "description" && description.None?)
    ensures f.name == "cover" ==> UploadLookups(form + [f], title, file, Some(f.value), description)
    ensures f.name == "description" ==> UploadLookups(form + [f], title, file, cover, Some(f.value))
  {
    FirstValueAppend(form, f, "title");
    FirstValueAppend(form, f, "file");
    FirstValueAppend(form, f, "cover");
    FirstValueAppend(form, f, "description");
    FirstValueAppend(form, f, "category");
  }

  /** The backend receives the title, the file, the cover and the
      description as sent, an empty description as no description, and no
      category, so it stores the song as "original". */
  lemma UploadFieldsReceived(title: string, mp3Name: string, coverName: Option<string>, description: Option<string>)
    ensures ReceivedSongUpload(UploadFields(title, mp3Name, coverName, description)) ==
              Some(Backend.SongUpload(title, mp3Name, coverName,
                                      if Backend.Truthy(description) then description else None, None))
  {
    var base := [FormField("title", Text(title)), FormField("file", File(mp3Name))];
    UploadFieldsBase(title, mp3Name);
    var withCover := base;
    var coverValue: Option<FormValue> := None;
    if coverName.Some? {
      AppendOptional(base, Text(title), File(mp3Name), None, None, FormField("cover", File(coverName.value)));
      withCover := base + [FormField("cover", File(coverName.value))];
      coverValue := Some(File(coverName.value));
    }
    var form := withCover;
    var descriptionValue: Option<FormValue> := None;
    if Backend.Truthy(description) {
      AppendOptional(withCover, Text(title), File(mp3Name), coverValue, None, FormField("description", Text(description.value)));
      form := withCover + [FormField("description", Text(description.value))];
      descriptionValue := Some(Text(description.value));
    }
    assert form == UploadFields(title, mp3Name, coverName, description);
    assert UploadLookups(form, Text(title), File(mp3Name), coverValue, descriptionValue);
  }

  /** uploadSong's FormData, appended field by field. */
  method UploadForm(title: string, mp3Name: string, coverName: Option<string>, description: Option<string>)
    returns (form: seq<FormField>)
    ensures form == UploadFields(title, mp3Name, coverName, description)
  {
    form := [];
    form := form + [FormField("title", Text(title))];
    form := form + [FormField("file", File(mp3Name))];
    if coverName.Some? {
      form := form + [FormField("cover", File(coverName.value))];
    }
    if Backend.Truthy(description) {
      form := form + [FormField("description", Text(description.value))];
    }
  }

  /** What the upload's fetch gives: a rejection (a network failure, whose
      error uploadSong passes on), or a response with its ok flag and the
      created song as its JSON body. */
  datatype UploadResponse = UploadRejected(reason: string) | UploadReply(ok: bool, song: Song)

  /** uploadSong: the form it posts and the result; a rejected fetch passes
      its error on, and a response that is not ok is thrown as an error. */
  method UploadSong(title: string, mp3Name: string, coverName: Option<string>, description: Option<string>,
                    response: UploadResponse) returns (form: seq<FormField>, r: Result<Song, string>)
    ensures form == UploadFields(title, mp3Name, coverName, description)
    ensures response.UploadRejected? ==> r == Err(response.reason)
    ensures response.UploadReply? ==> r == if response.ok then Ok(response.song) else Err("Error al subir canción")
  {
    form := UploadForm(title, mp3Name, coverName, description);
    match response
    case UploadRejected(reason) =>
      r := Err(reason);
    case UploadReply(ok, song) =>
      if !ok {
        return form, Err("Error al subir canción");
      }
      r := Ok(song);
  }
}
