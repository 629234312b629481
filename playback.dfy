/** The player of one song card: the playing flag of the component, the
    state of its audio element, and the events that change them (the play
    button, the active prop changing, the play() promise resolving, the
    track ending and the card being unmounted). SongCard is declared inside
    App, so every render of App mounts every card afresh: a card lives only
    until the next change of App's state, such as a new current song.
    Progress, duration, volume and seeking are not modelled. */
module Playback {

  /** What the card asks of the page through onPlay: nothing, to make its
      song the current one (onPlay(song)), or to clear the current song
      (onPlay(null)). */
  datatype PlayRequest = NoRequest | RequestSong | RequestNone

  class SongCard {
    /** The active prop: the card's song is the current song. */
    var active: bool
    /** The component's playing state, which drives the button label. */
    var playing: bool
    /** The audio element is playing: play() was called and neither
        pause() nor the end of the track followed. */
    var audioPlaying: bool
    /** play() promises not yet settled; pause() rejects them all, so their
        then-callbacks never run. */
    var pendingPlays: nat

    /** What the page promises: a card that is not active is silent and not
        shown as playing, a card shown as playing is audible, and a pending
        play() is on an audible element. */
    predicate Consistent()
      reads this
    {
      && (!active ==> !audioPlaying && !playing)
      && (playing ==> audioPlaying)
      && (pendingPlays > 0 ==> audioPlaying)
    }

    /** Mounting the card: the state starts idle and the active effect runs
        once, starting the track when the card is mounted active. */
    constructor(active: bool)
      ensures this.active == active && !playing
      ensures audioPlaying == active && pendingPlays == (if active then 1 else 0)
      ensures Consistent()
    {
      this.active := active;
      playing := false;
      audioPlaying := active;
      pendingPlays := if active then 1 else 0;
    }

    /** audio.play(), with the onended handler installed beside it. */
    method Play()
      modifies this
      ensures audioPlaying && pendingPlays == old(pendingPlays) + 1
      ensures active == old(active) && playing == old(playing)
    {
      audioPlaying := true;
      pendingPlays := pendingPlays + 1;
    }

    /** audio.pause(): the element stops and pending play() promises are
        rejected. */
    method Pause()
      modifies this
      ensures !audioPlaying && pendingPlays == 0
      ensures active == old(active) && playing == old(playing)
    {
      audioPlaying := false;
      pendingPlays := 0;
    }

    /** The card leaving the page when App renders again: its audio element
        is removed from the document, which pauses it and rejects its
        pending play() promises. */
    method Unmount()
      modifies this
      ensures !audioPlaying && pendingPlays == 0
      ensures active == old(active) && playing == old(playing)
    {
      Pause();
    }

    /** togglePlay. An inactive card only asks to become current. An active
        playing card pauses, stops showing as playing and clears the
        current song. An active card that is not playing starts the track;
        playing becomes true only when the promise resolves. */
    method TogglePlay() returns (request: PlayRequest)
      modifies this
      ensures !old(active) ==> request == RequestSong && playing == old(playing) &&
                               audioPlaying == old(audioPlaying) && pendingPlays == old(pendingPlays)
      ensures old(active) && old(playing) ==> request == RequestNone && !playing && !audioPlaying && pendingPlays == 0
      ensures old(active) && !old(playing) ==> request == NoRequest && !playing && audioPlaying &&
                                               pendingPlays == old(pendingPlays) + 1
      ensures active == old(active)
      ensures old(Consistent()) ==> Consistent()
    {
      if !active {
        return RequestSong;
      }
      if playing {
        Pause();
        playing := false;
        request := RequestNone;
      } else {
        Play();
        request := NoRequest;
      }
    }

    /** The effect on the active prop, on a card that stays mounted while
        the prop changes: when the card becomes active and is not playing
        it starts the track; when it becomes inactive it pauses only if
        playing is already true. In the program the prop changes only
        through a render of App, which mounts a new card instead. */
    method SetActiveAsWritten(newActive: bool)
      modifies this
      ensures active == newActive
      ensures newActive == old(active) ==>
                playing == old(playing) && audioPlaying == old(audioPlaying) && pendingPlays == old(pendingPlays)
      ensures newActive && !old(active) && !old(playing) ==>
                !playing && audioPlaying && pendingPlays == old(pendingPlays) + 1
      ensures !newActive && old(active) && old(playing) ==> !playing && !audioPlaying && pendingPlays == 0
      ensures !newActive && old(active) && !old(playing) ==>
                playing == old(playing) && audioPlaying == old(audioPlaying) && pendingPlays == old(pendingPlays)
    {
      var changed := newActive != active;
      active := newActive;
      if changed {
        if active && !playing {
          Play();
        }
        if !active && playing {
          Pause();
          playing := false;
        }
      }
    }

    /** The then-callback of play(): playing becomes true whether or not
        the card is still active. On a consistent card a pending play() is
        on an audible, hence active, card, so the callback keeps it
        consistent. */
    method PlayResolvedAsWritten()
      requires pendingPlays > 0
      modifies this
      ensures playing && pendingPlays == old(pendingPlays) - 1
      ensures active == old(active) && audioPlaying == old(audioPlaying)
      ensures old(Consistent()) ==> Consistent()
    {
      playing := true;
      pendingPlays := pendingPlays - 1;
    }

    /** An effect that pauses whenever the card stops being active,
        whatever the playing flag says: on a card that stays mounted it
        keeps the card consistent, as the remount does in the program. */
    method SetActive(newActive: bool)
      modifies this
      ensures active == newActive
      ensures newActive == old(active) ==>
                playing == old(playing) && audioPlaying == old(audioPlaying) && pendingPlays == old(pendingPlays)
      ensures newActive && !old(active) && !old(playing) ==>
                !playing && audioPlaying && pendingPlays == old(pendingPlays) + 1
      ensures !newActive && old(active) ==> !playing && !audioPlaying && pendingPlays == 0
      ensures old(Consistent()) ==> Consistent()
    {
      var changed := newActive != active;
      active := newActive;
      if changed {
        if active && !playing {
          Play();
        }
        if !active {
          Pause();
          playing := false;
        }
      }
    }

    /** A then-callback that sets playing only on a card that is still
        active. */
    method PlayResolved()
      requires pendingPlays > 0
      modifies this
      ensures playing == (old(playing) || active) && pendingPlays == old(pendingPlays) - 1
      ensures active == old(active) && audioPlaying == old(audioPlaying)
      ensures old(Consistent()) ==> Consistent()
    {
      if active {
        playing := true;
      }
      pendingPlays := pendingPlays - 1;
    }

    /** The onended handler: the track ended after its play() promises
        settled; playing becomes false and the current song is cleared. */
    method Ended() returns (request: PlayRequest)
      requires audioPlaying && pendingPlays == 0
      modifies this
      ensures request == RequestNone && !playing && !audioPlaying
      ensures active == old(active) && pendingPlays == 0
      ensures old(Consistent()) ==> Consistent()
    {
      audioPlaying := false;
      playing := false;
      request := RequestNone;
    }
  }

  /** The card state after a trace: the user presses play on an inactive
      card, the page makes it current, then the user picks another song
      before the track has started. */
  datatype CardState = CardState(active: bool, playing: bool, audible: bool, pendingPlays: nat)

  /** The trace as the program runs it: each change of the current song
      renders App again, which unmounts the card and mounts a new one. The
      card mounted active starts the track; picking another song removes
      it while its play() is pending, so it falls silent, and the card
      shown in its place is inactive, silent and not playing. */
  method PickAnotherSongWhileStarting() returns (removed: CardState, shown: CardState)
    ensures !removed.audible && removed.pendingPlays == 0
    ensures !shown.active && !shown.playing && !shown.audible && shown.pendingPlays == 0
  {
    var first := new SongCard(false);
    var request := first.TogglePlay();
    assert request == RequestSong;
    first.Unmount();
    var current := new SongCard(true);
    assert current.pendingPlays == 1;
    current.Unmount();
    var next := new SongCard(false);
    removed := CardState(current.active, current.playing, current.audioPlaying, current.pendingPlays);
    shown := CardState(next.active, next.playing, next.audioPlaying, next.pendingPlays);
  }

  /** The same trace on one card that stays mounted, with the effect that
      pauses on every deactivation: the pause rejects the pending play(),
      so no callback follows and the card ends as the program's does,
      silent and not shown as playing. */
  method DeactivateWhileStarting() returns (s: CardState)
    ensures !s.active && !s.audible && !s.playing && s.pendingPlays == 0
  {
    var card := new SongCard(false);
    var request := card.TogglePlay();
    assert request == RequestSong;
    card.SetActive(true);
    card.SetActive(false);
    s := CardState(card.active, card.playing, card.audioPlaying, card.pendingPlays);
  }
}
