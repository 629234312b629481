/** The songs page: which songs are listed under the current filter, which
    card is active, the mm:ss labels of the players, and the App state that
    the upload form and the admin login change. */
module SongsApp {
  import opened Basics
  import opened Text
  import opened Records
  import Seqs
  import Api
  import Backend

  // ===================== the song list =====================

  /** A song is listed under filter when the filter is 'all' or its
      category is exactly the filter (a song without category only under
      'all'). */
  predicate Listed(filter: string, s: Song) {
    filter == "all" || s.category == Some(filter)
  }

  /** songs.filter(s => filter === 'all' || s.category === filter) */
  function VisibleSongs(songs: seq<Song>, filter: string): (r: seq<Song>)
    ensures Seqs.IsSubsequence(r, songs)
    ensures forall s :: multiset(r)[s] == if Listed(filter, s) then multiset(songs)[s] else 0
  {
    Seqs.Filter(songs, s => Listed(filter, s))
  }

  /** Under 'all' every song is listed, in order. */
  lemma VisibleAll(songs: seq<Song>)
    ensures VisibleSongs(songs, "all") == songs
  {
    Seqs.FilterKeepsAll(songs, s => Listed("all", s));
  }

  /** Under any other filter exactly the songs of that category are listed,
      each as often as in the list, in their original order. */
  lemma VisibleByCategory(songs: seq<Song>, filter: string)
    requires filter != "all"
    ensures forall s :: s in VisibleSongs(songs, filter) <==> s in songs && s.category == Some(filter)
    ensures forall s: Song :: s.category == Some(filter) ==> multiset(VisibleSongs(songs, filter))[s] == multiset(songs)[s]
    ensures Seqs.IsSubsequence(VisibleSongs(songs, filter), songs)
  {
    var r := VisibleSongs(songs, filter);
    forall s ensures s in r <==> s in songs && s.category == Some(filter) {
      assert s in r <==> multiset(r)[s] > 0;
      assert s in songs <==> multiset(songs)[s] > 0;
    }
  }

  /** The Artworks view: the songs that have a cover URL. */
  function SongsWithCover(songs: seq<Song>): (r: seq<Song>)
    ensures forall i :: 0 <= i < |r| ==> r[i].coverUrl.Some? && r[i].coverUrl.value != []
  {
    Seqs.Filter(songs, (s: Song) => s.coverUrl.Some? && s.coverUrl.value != [])
  }

  // ===================== the active card =====================

  /** active = s.id === currentSong?.id */
  predicate IsActive(s: Song, currentSong: Option<Song>) {
    currentSong.Some? && s.id == currentSong.value.id
  }

  /** The number of active cards. */
  function ActiveCount(songs: seq<Song>, currentSong: Option<Song>): nat {
    if songs == [] then 0
    else (if IsActive(songs[0], currentSong) then 1 else 0) + ActiveCount(songs[1..], currentSong)
  }

  predicate DistinctIds(songs: seq<Song>) {
    forall i, j :: 0 <= i < j < |songs| ==> songs[i].id != songs[j].id
  }

  lemma {:induction false} NoneActive(songs: seq<Song>, currentSong: Option<Song>)
    requires forall i :: 0 <= i < |songs| ==> !IsActive(songs[i], currentSong)
    ensures ActiveCount(songs, currentSong) == 0
  {
    if songs != [] {
      NoneActive(songs[1..], currentSong);
    }
  }

  /** With distinct ids at most one card is active, and none when no song
      is current. */
  lemma {:induction false} AtMostOneActive(songs: seq<Song>, currentSong: Option<Song>)
    requires DistinctIds(songs)
    ensures ActiveCount(songs, currentSong) <= 1
    ensures currentSong.None? ==> ActiveCount(songs, currentSong) == 0
  {
    if songs != [] {
      var rest := songs[1..];
      if IsActive(songs[0], currentSong) {
        forall i | 0 <= i < |rest| ensures !IsActive(rest[i], currentSong) {
          assert rest[i] == songs[i + 1];
        }
        NoneActive(rest, currentSong);
      } else {
        AtMostOneActive(rest, currentSong);
      }
    }
  }

  /** Filtering never adds an active card. */
  lemma {:induction false} ActiveCountFilter(songs: seq<Song>, keep: Song -> bool, currentSong: Option<Song>)
    ensures ActiveCount(Seqs.Filter(songs, keep), currentSong) <= ActiveCount(songs, currentSong)
  {
    if songs != [] {
      ActiveCountFilter(songs[1..], keep, currentSong);
      if keep(songs[0]) {
        assert ([songs[0]] + Seqs.Filter(songs[1..], keep))[1..] == Seqs.Filter(songs[1..], keep);
      }
    }
  }

  /** The single-active-song rule on the page: whatever the filter, at
      most one listed card is active. */
  lemma OneActiveCard(songs: seq<Song>, filter: string, currentSong: Option<Song>)
    requires DistinctIds(songs)
    ensures ActiveCount(VisibleSongs(songs, filter), currentSong) <= 1
    ensures currentSong.None? ==> ActiveCount(VisibleSongs(songs, filter), currentSong) == 0
  {
    ActiveCountFilter(songs, s => Listed(filter, s), currentSong);
    AtMostOneActive(songs, currentSong);
  }

  // ===================== mm:ss =====================

  /** A number below 100 has at most two digits. */
  lemma SmallNumeral(n: nat)
    requires n < 100
    ensures |NatToString(n)| <= 2
  {
    if n >= 10 {
      assert NatToString(n) == NatToString(n / 10) + [DigitChar(n % 10)];
    }
  }

  /** secondsToMinSec for a whole number of seconds: minutes and seconds,
      each padded with zeros to two digits, joined by ':'. */
  function SecondsToMinSec(sec: nat): (r: string)
    ensures |r| >= 5 && r[|r| - 3] == ':'
  {
    SmallNumeral(sec % 60);
    PadStart(NatToString(sec / 60), 2, '0') + ":" + PadStart(NatToString(sec % 60), 2, '0')
  }

  /** Padding with zeros keeps a numeral's value. */
  lemma PaddedValue(n: nat)
    ensures IsDigits(PadStart(NatToString(n), 2, '0'))
    ensures DecimalValue(PadStart(NatToString(n), 2, '0')) == n
  {
    var s := NatToString(n);
    var p := PadStart(s, 2, '0');
    var z := p[..|p| - |s|];
    assert p == z + s;
    LeadingZeros(z, s);
  }

  /** The label is the padded minutes, ':', and the two padded digits of
      the seconds. */
  lemma MinSecShape(sec: nat)
    ensures var r := SecondsToMinSec(sec);
            && r[..|r| - 3] == PadStart(NatToString(sec / 60), 2, '0')
            && r[|r| - 2..] == PadStart(NatToString(sec % 60), 2, '0')
  {
    var mm := PadStart(NatToString(sec / 60), 2, '0');
    var ss := PadStart(NatToString(sec % 60), 2, '0');
    SmallNumeral(sec % 60);
    var r := mm + ":" + ss;
    assert |ss| == 2;
    assert r[..|r| - 3] == mm;
    assert r[|r| - 2..] == ss;
  }

  /** Reading a label back into minutes and seconds: at least one digit of
      minutes, a ':', and two digits of seconds below 60. */
  function ParseMinSec(shown: string): Option<(nat, nat)> {
    if |shown| < 4 then None
    else if shown[|shown| - 3] != ':' then None
    else
      var m := shown[..|shown| - 3];
      var s := shown[|shown| - 2..];
      if IsDigits(m) && IsDigits(s) && DecimalValue(s) < 60 then Some((DecimalValue(m), DecimalValue(s)))
      else None
  }

  /** Minutes, ':' and two digits of seconds below 60 read back as the two
      numbers. */
  lemma ParseJoined(m: string, s: string)
    requires |m| >= 1 && IsDigits(m) && |s| == 2 && IsDigits(s) && DecimalValue(s) < 60
    ensures ParseMinSec(m + ":" + s) == Some((DecimalValue(m), DecimalValue(s)))
  {
    var shown := m + ":" + s;
    assert shown[..|shown| - 3] == m;
    assert shown[|shown| - 2..] == s;
  }

  /** The label reads back as the whole minutes and the remaining seconds
      of the time it shows. */
  lemma MinSecRoundTrip(sec: nat)
    ensures ParseMinSec(SecondsToMinSec(sec)) == Some((sec / 60, sec % 60))
  {
    var mm := PadStart(NatToString(sec / 60), 2, '0');
    var ss := PadStart(NatToString(sec % 60), 2, '0');
    SmallNumeral(sec % 60);
    PaddedValue(sec / 60);
    PaddedValue(sec % 60);
    ParseJoined(mm, ss);
  }

  // ===================== the App component =====================

  datatype View = SongsView | CoversView | UploadView

  const AdminPassword := "ado2025"

  /** The arguments handleSubmit passes to uploadSong. */
  datatype UploadCall = UploadCall(title: string, mp3Name: string, coverName: Option<string>, description: string)

  /** The guard of handleSubmit and the arguments it passes to uploadSong:
      no call with a title that is blank after trimming or without an mp3
      file; otherwise the trimmed title, the files and the trimmed
      description. */
  function SubmitCall(title: string, mp3File: Option<string>, coverFile: Option<string>, description: string)
    : (call: Option<UploadCall>)
    ensures call.Some? <==> JsTrim(title) != [] && mp3File.Some?
    ensures call.Some? ==> call.value.title == JsTrim(title) && call.value.mp3Name == mp3File.value &&
                           call.value.coverName == coverFile && call.value.description == JsTrim(description)
  {
    var trimmedTitle := JsTrim(title);
    if trimmedTitle == [] || mp3File.None? then None
    else Some(UploadCall(trimmedTitle, mp3File.value, coverFile, JsTrim(description)))
  }

  /** The state of App that its handlers change; files are kept by name. */
  class App {
    var view: View
    var filter: string
    var admin: bool
    var title: string
    var mp3File: Option<string>
    var coverFile: Option<string>
    var description: string
    var currentSong: Option<Song>

    constructor()
      ensures view == SongsView && filter == "all" && !admin
      ensures title == "" && mp3File.None? && coverFile.None? && description == "" && currentSong.None?
    {
      view := SongsView;
      filter := "all";
      admin := false;
      title := "";
      mp3File := None;
      coverFile := None;
      description := "";
      currentSong := None;
    }

    /** The card callback onPlay: the song becomes current, or none. */
    method SetCurrentSong(song: Option<Song>)
      modifies this
      ensures currentSong == song
      ensures view == old(view) && filter == old(filter) && admin == old(admin)
      ensures title == old(title) && mp3File == old(mp3File) && coverFile == old(coverFile) && description == old(description)
    {
      currentSong := song;
    }

    /** The form reset after a successful upload: title, files and
        description are emptied, the rest of the state is kept. */
    method ClearForm()
      modifies this
      ensures title == "" && mp3File.None? && coverFile.None? && description == ""
      ensures view == old(view) && filter == old(filter) && admin == old(admin) && currentSong == old(currentSong)
    {
      title := "";
      mp3File := None;
      coverFile := None;
      description := "";
    }

    /** handleSubmit. It returns at once, with no upload call and no
        change, unless SubmitCall gives a call; then it calls uploadSong
        with it, and when that succeeds (uploadOk) it clears the form,
        reloads the list (reload) and shows the songs; when it fails only
        an alert is shown. */
    method HandleSubmit(uploadOk: bool) returns (call: Option<UploadCall>, reload: bool)
      modifies this
      ensures call == SubmitCall(old(title), old(mp3File), old(coverFile), old(description))
      ensures call.Some? && uploadOk ==>
                reload && title == "" && mp3File.None? && coverFile.None? && description == "" && view == SongsView
      ensures call.None? || !uploadOk ==>
                !reload && title == old(title) && mp3File == old(mp3File) &&
                coverFile == old(coverFile) && description == old(description) && view == old(view)
      ensures filter == old(filter) && admin == old(admin) && currentSong == old(currentSong)
    {
      call := SubmitCall(title, mp3File, coverFile, description);
      reload := false;
      if call.Some? && uploadOk {
        ClearForm();
        reload := true;
        view := SongsView;
      }
    }

    /** doLogin: pwd is what prompt returned (None when cancelled). The
        right password opens the upload view as admin; anything else
        changes nothing. */
    method DoLogin(pwd: Option<string>)
      modifies this
      ensures pwd == Some(AdminPassword) ==> admin && view == UploadView
      ensures pwd != Some(AdminPassword) ==> admin == old(admin) && view == old(view)
      ensures filter == old(filter) && currentSong == old(currentSong)
      ensures title == old(title) && mp3File == old(mp3File) && coverFile == old(coverFile) && description == old(description)
    {
      if pwd == Some(AdminPassword) {
        admin := true;
        view := UploadView;
      }
    }
  }

  /** What the backend receives for the call handleSubmit makes: the
      title, the files, and the description only when it is not empty, so
      a description of spaces alone, trimmed to "", is not sent. */
  lemma SubmittedUploadReceived(call: UploadCall)
    ensures Api.ReceivedSongUpload(Api.UploadFields(call.title, call.mp3Name, call.coverName, Some(call.description))) ==
              Some(Backend.SongUpload(call.title, call.mp3Name, call.coverName,
                                      if call.description == [] then None else Some(call.description), None))
  {
    Api.UploadFieldsReceived(call.title, call.mp3Name, call.coverName, Some(call.description));
  }
}
