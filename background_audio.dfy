/**
 * The hidden audio element shared by the intro and the main view. On every change of
 * the song or of the playing flag it cancels its stop timer, seeks to the song's
 * highlight, starts playback and, when the song has a duration, arms a timer that asks
 * the app for the next song.
 */
module Audio {
  import opened Wrappers
  import opened Timing
  import opened Catalog

  /** The media element as the component sees it: a playback position (s) and whether it plays. */
  datatype Element = Element(position: nat, playing: bool)

  /** Where playback starts: `startTime || 0`. */
  function StartOffset(song: Song): (seconds: nat)
    ensures song.startTime.Some? ==> seconds == song.startTime.value
    ensures song.startTime.None? ==> seconds == 0
  {
    song.startTime.GetOr(0)
  }

  /** The stop timer's delay in ms, if one is armed: only when `duration` is truthy (present and non-zero). */
  function StopDelay(song: Song): (r: Option<nat>)
    ensures r.Some? <==> song.duration.Some? && song.duration.value != 0
    ensures r.Some? ==> r.value == song.duration.value * 1000 && r.value >= 1000
  {
    if song.duration.Some? && song.duration.value != 0 then Some(song.duration.value * 1000) else None
  }

  /** Every catalogue song starts at its highlight and is cut after 10 s, the length of an intro chapter. */
  lemma {:induction false} CatalogueStopDelays()
    ensures forall i | 0 <= i < |Playlist| ::
      StopDelay(Playlist[i]) == Some(10000) && StartOffset(Playlist[i]) == Playlist[i].startTime.value
  {
    PlaylistTiming();
  }

  class BackgroundAudio {
    const playlist: seq<Song>
    /** Whether `audioRef.current` is attached. */
    const hasElement: bool

    var songIndex: nat
    var isPlaying: bool
    var element: Element

    var now: nat
    /** `timeoutRef.current`: the id of the last stop timer armed (it may already have fired). */
    var timeoutRef: Option<nat>
    /** Stop timers armed and neither fired nor cleared: id to due time. */
    var pending: map<nat, nat>
    var nextId: nat
    /** How many times `onNext` has been called. */
    var nextRequests: nat
    var mounted: bool

    /** At most one stop timer is pending, and it is the one the ref holds; after unmount none is. */
    ghost predicate Valid()
      reads this
    {
      songIndex < |playlist|
      && NotBefore(pending, now)
      && (!mounted ==> pending == map[])
      && (forall id | id in pending :: timeoutRef == Some(id) && id < nextId)
    }

    /** Mount: the effect runs once with an empty ref. `playOk` is the outcome of `play()`. */
    constructor (playlist: seq<Song>, hasElement: bool, songIndex: nat, isPlaying: bool, initial: Element, playOk: bool)
      requires songIndex < |playlist|
      ensures Valid() && mounted
      ensures this.playlist == playlist && this.hasElement == hasElement
      ensures this.songIndex == songIndex && this.isPlaying == isPlaying
      ensures now == 0 && nextRequests == 0
      ensures hasElement && isPlaying ==>
        element == Element(StartOffset(playlist[songIndex]), playOk)
        && (StopDelay(playlist[songIndex]).Some? <==> timeoutRef.Some?)
        && (timeoutRef.Some? ==> pending == map[timeoutRef.value := StopDelay(playlist[songIndex]).value])
      ensures hasElement && !isPlaying ==>
        element == initial.(playing := false) && pending == map[]
      ensures !hasElement ==> element == initial && pending == map[] && timeoutRef == None
    {
      this.playlist, this.hasElement := playlist, hasElement;
      this.songIndex, this.isPlaying := songIndex, isPlaying;
      element := initial;
      now, nextRequests, nextId := 0, 0, 0;
      timeoutRef, pending := None, map[];
      mounted := true;
      new;
      RunEffect(playOk);
    }

    /**
     * The effect body. Without an element it does nothing. Otherwise it first clears the
     * stored timer and nulls the ref; then, if playing, it seeks to the start offset,
     * asks the element to play (a rejection is logged and changes nothing else) and arms
     * the stop timer when the song has a duration; if not playing it pauses and leaves
     * the position alone.
     */
    method RunEffect(playOk: bool)
      requires mounted && songIndex < |playlist| && NotBefore(pending, now)
      requires forall id | id in pending :: timeoutRef == Some(id) && id < nextId
      modifies this`element, this`timeoutRef, this`pending, this`nextId
      ensures Valid()
      ensures !hasElement ==>
        element == old(element) && timeoutRef == old(timeoutRef) && pending == old(pending)
      ensures hasElement ==> forall id | id in pending :: old(nextId) <= id
      ensures hasElement && isPlaying ==>
        element == Element(StartOffset(playlist[songIndex]), playOk)
        && (StopDelay(playlist[songIndex]).Some? <==> timeoutRef.Some?)
        && (timeoutRef.Some? ==> pending == map[timeoutRef.value := now + StopDelay(playlist[songIndex]).value])
        && (timeoutRef.None? ==> pending == map[])
      ensures hasElement && !isPlaying ==>
        element == old(element).(playing := false) && timeoutRef == None && pending == map[]
    {
      if hasElement {
        if timeoutRef.Some? {
          pending := pending - {timeoutRef.value};
          timeoutRef := None;
        }
        var song := playlist[songIndex];
        if isPlaying {
          element := Element(StartOffset(song), playOk);
          var delay := StopDelay(song);
          if delay.Some? {
            pending := pending[nextId := now + delay.value];
            timeoutRef := Some(nextId);
            nextId := nextId + 1;
          }
        } else {
          element := element.(playing := false);
        }
      }
    }

    /**
     * New props, at time `at`. When the song or the playing flag changed, the previous
     * run's cleanup clears the stored timer and the effect runs again; otherwise nothing
     * happens.
     */
    method Update(at: nat, newIndex: nat, newPlaying: bool, playOk: bool)
      requires Valid() && mounted && now <= at && NotBefore(pending, at) && newIndex < |playlist|
      modifies this`now, this`songIndex, this`isPlaying, this`element, this`timeoutRef, this`pending, this`nextId
      ensures Valid() && mounted && now == at && songIndex == newIndex && isPlaying == newPlaying
      ensures newIndex == old(songIndex) && newPlaying == old(isPlaying) ==>
        element == old(element) && timeoutRef == old(timeoutRef) && pending == old(pending)
      ensures newIndex != old(songIndex) || newPlaying != old(isPlaying) ==>
        (forall id | id in old(pending) :: id !in pending)
      ensures (newIndex != old(songIndex) || newPlaying != old(isPlaying)) && hasElement && newPlaying ==>
        element == Element(StartOffset(playlist[newIndex]), playOk)
        && (StopDelay(playlist[newIndex]).Some? <==> timeoutRef.Some?)
        && (timeoutRef.Some? ==> pending == map[timeoutRef.value := now + StopDelay(playlist[newIndex]).value])
      ensures (newIndex != old(songIndex) || newPlaying != old(isPlaying)) && hasElement && !newPlaying ==>
        element == old(element).(playing := false) && pending == map[]
      ensures (newIndex != old(songIndex) || newPlaying != old(isPlaying)) && !hasElement ==>
        element == old(element) && pending == map[]
    {
      now := at;
      if newIndex != songIndex || newPlaying != isPlaying {
        if timeoutRef.Some? {
          pending := pending - {timeoutRef.value};
        }
        songIndex, isPlaying := newIndex, newPlaying;
        RunEffect(playOk);
      }
    }

    /** The stop timer fires and calls `onNext`; the ref keeps the spent id. */
    method FireStop(id: nat)
      requires Valid() && mounted && IsNext(pending, id)
      modifies this`now, this`pending, this`nextRequests
      ensures Valid() && mounted
      ensures now == old(pending[id]) && pending == map[]
      ensures nextRequests == old(nextRequests) + 1
    {
      now := pending[id];
      pending := pending - {id};
      nextRequests := nextRequests + 1;
    }

    /** The element's `ended` event, at time `at`, calls `onNext` whatever the duration. */
    method Ended(at: nat)
      requires Valid() && mounted && hasElement && now <= at && NotBefore(pending, at)
      modifies this`now, this`nextRequests
      ensures Valid() && mounted && now == at && pending == old(pending)
      ensures nextRequests == old(nextRequests) + 1
    {
      now := at;
      nextRequests := nextRequests + 1;
    }

    /** Unmount: the cleanup clears the stored timer; the element's events no longer reach the app. */
    method Teardown()
      requires Valid()
      modifies this`pending, this`mounted
      ensures Valid() && !mounted && pending == map[]
    {
      if timeoutRef.Some? {
        pending := pending - {timeoutRef.value};
      }
      mounted := false;
    }
  }

  /**
   * The example of a song with start 45 and duration 10: playing it seeks to 45 s, and
   * the one pending timer calls `onNext` 10 s later, whether or not `play()` succeeded.
   */
  method PlayOneSong(song: Song, playOk: bool) returns (position: nat, stopAt: nat, requests: nat)
    requires song.startTime == Some(45) && song.duration == Some(10)
    ensures position == 45 && stopAt == 10000 && requests == 1
  {
    var audio := new BackgroundAudio([song], true, 0, true, Element(0, false), playOk);
    position := audio.element.position;
    var id := audio.timeoutRef.value;
    audio.FireStop(id);
    stopAt, requests := audio.now, audio.nextRequests;
  }
}
