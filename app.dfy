/**
 * The top-level coordinator: the landing screen, then the intro, then the main view
 * (gallery and lyrics), with the audio element mounted from the start on. Its state is
 * four flags shared with the children through callbacks.
 */
module Shell {
  import opened Catalog
  import Cyclic

  datatype View = Landing | IntroView | MainView

  /** Which view is on screen for the two progress flags. */
  function ActiveView(hasStarted: bool, introComplete: bool): (v: View)
    ensures v == Landing <==> !hasStarted
    ensures v == IntroView <==> hasStarted && !introComplete
    ensures v == MainView <==> hasStarted && introComplete
  {
    if !hasStarted then Landing else if !introComplete then IntroView else MainView
  }

  class App {
    var hasStarted: bool
    var introComplete: bool
    var isPlaying: bool
    var currentSongIndex: nat

    /** The shared song index always names a song of the playlist. */
    ghost predicate Valid()
      reads this
    {
      currentSongIndex < |Playlist|
    }

    constructor ()
      ensures Valid()
      ensures !hasStarted && !introComplete && !isPlaying && currentSongIndex == 0
    {
      hasStarted, introComplete, isPlaying, currentSongIndex := false, false, false, 0;
    }

    /** The landing button: start, and start the music. */
    method HandleStart()
      requires Valid()
      modifies this`hasStarted, this`isPlaying
      ensures Valid() && hasStarted && isPlaying
    {
      hasStarted, isPlaying := true, true;
    }

    /** The intro's `onComplete`: the main view begins from the first song. */
    method HandleIntroComplete()
      requires Valid()
      modifies this`introComplete, this`currentSongIndex
      ensures Valid() && introComplete && currentSongIndex == 0
    {
      introComplete, currentSongIndex := true, 0;
    }

    /** The audio's `onNext`: the following song, from the last back to the first. */
    method HandleNextSong()
      requires Valid()
      modifies this`currentSongIndex
      ensures Valid()
      ensures currentSongIndex == Cyclic.Next(old(currentSongIndex), |Playlist|)
    {
      currentSongIndex := (currentSongIndex + 1) % |Playlist|;
    }

    /** The intro's `onSongChange`, which it only calls with one of its chapter indices. */
    method SongChange(index: nat)
      requires Valid() && index < |Playlist|
      modifies this`currentSongIndex
      ensures Valid() && currentSongIndex == index
    {
      currentSongIndex := index;
    }

    /** The view on screen now: the landing screen until started, then the intro until it completes. */
    function View(): (v: View)
      reads this
      ensures v == Landing <==> !hasStarted
      ensures v == IntroView <==> hasStarted && !introComplete
      ensures v == MainView <==> hasStarted && introComplete
    {
      ActiveView(hasStarted, introComplete)
    }

    /** The audio element is mounted exactly once the experience has started. */
    function AudioMounted(): (mounted: bool)
      reads this
      ensures mounted <==> View() != Landing
    {
      hasStarted
    }

    /** The lyric list handed to the caption: the current song's. */
    function CurrentLyrics(): (lyrics: seq<string>)
      reads this
      requires Valid()
      ensures lyrics == Playlist[currentSongIndex].lyrics && |lyrics| == 2
    {
      PlaylistLyrics();
      Playlist[currentSongIndex].lyrics
    }
  }

  /** The handlers the children and the landing button can call. */
  datatype Input = Start | IntroDone | NextSong | IntroSongChange(index: nat)

  /**
   * A fresh app driven by any sequence of handler calls (the intro reports only
   * indices of the playlist): the song index stays in range, the music plays exactly
   * once started and is never switched off, and the view follows the two flags.
   */
  method Drive(inputs: seq<Input>) returns (view: View, playing: bool, songIndex: nat)
    requires forall k | 0 <= k < |inputs| :: inputs[k].IntroSongChange? ==> inputs[k].index < |Playlist|
    ensures songIndex < |Playlist|
    ensures playing <==> Start in inputs
    ensures view == Landing <==> Start !in inputs
    ensures view == MainView <==> Start in inputs && IntroDone in inputs
  {
    var app := new App();
    for k := 0 to |inputs|
      invariant fresh(app) && app.Valid()
      invariant app.hasStarted <==> Start in inputs[..k]
      invariant app.isPlaying <==> Start in inputs[..k]
      invariant app.introComplete <==> IntroDone in inputs[..k]
    {
      assert inputs[..k + 1] == inputs[..k] + [inputs[k]];
      match inputs[k]
      case Start => app.HandleStart();
      case IntroDone => app.HandleIntroComplete();
      case NextSong => app.HandleNextSong();
      case IntroSongChange(i) => app.SongChange(i);
    }
    assert inputs[..|inputs|] == inputs;
    view, playing, songIndex := app.View(), app.isPlaying, app.currentSongIndex;
  }
}
