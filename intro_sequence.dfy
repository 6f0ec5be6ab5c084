/** The letter table of the intro's closing phrase, and its lookup by title position. */
module Intro {
  import opened Wrappers
  import opened Catalog

  // ---------------------------------------------------------------------------------
  // The letter table (pure configuration)
  // ---------------------------------------------------------------------------------

  /** One letter of the final phrase and the title position it is taken from; a space uses -1, -1. */
  datatype TargetChar = TargetChar(id: string, songIndex: int, charIndex: int, ch: char)

  const TargetChars: seq<TargetChar> := [
    TargetChar("T1", 3, 0, 'T'),
    TargetChar("E1", 1, 1, 'E'),
    TargetChar("space1", -1, -1, ' '),
    TargetChar("A1", 5, 0, 'A'),
    TargetChar("M1", 5, 7, 'M'),
    TargetChar("O1", 0, 2, 'O'),
    TargetChar("space2", -1, -1, ' '),
    TargetChar("A2", 6, 0, 'A'),
    TargetChar("N1", 3, 3, 'N'),
    TargetChar("Y1", 7, 5, 'Y'),
    TargetChar("A3", 2, 14, 'A'),
    TargetChar("R1", 2, 0, 'R'),
    TargetChar("I1", 4, 5, 'I')
  ]

  /** The phrase the table is written to spell. */
  const Phrase: string := "TE AMO ANYARI"

  /** ASCII upper case; other characters are left alone. */
  function Upper(c: char): char {
    if 'a' <= c <= 'z' then (c as int - 32) as char else c
  }

  /** The letters of a table, in order. */
  function Letters(table: seq<TargetChar>): string {
    seq(|table|, k requires 0 <= k < |table| => table[k].ch)
  }

  predicate Matches(t: TargetChar, songIndex: int, charIndex: int) {
    t.songIndex == songIndex && t.charIndex == charIndex
  }

  /**
   * `targetChars.find(...)`: the first entry taken from title position
   * (`songIndex`, `charIndex`), if any. A title letter is highlighted iff this is `Some`.
   */
  function FindTarget(table: seq<TargetChar>, songIndex: int, charIndex: int): (r: Option<TargetChar>)
    ensures r.None? <==> forall k | 0 <= k < |table| :: !Matches(table[k], songIndex, charIndex)
    ensures r.Some? ==> exists k | 0 <= k < |table| ::
      table[k] == r.value && Matches(table[k], songIndex, charIndex)
      && forall j | 0 <= j < k :: !Matches(table[j], songIndex, charIndex)
  {
    if table == [] then None
    else if Matches(table[0], songIndex, charIndex) then Some(table[0])
    else
      var r := FindTarget(table[1..], songIndex, charIndex);
      if r.Some? then
        ghost var k :| 0 <= k < |table[1..]| && table[1..][k] == r.value && Matches(table[1..][k], songIndex, charIndex)
                       && forall j | 0 <= j < k :: !Matches(table[1..][j], songIndex, charIndex);
        assert table[k + 1] == r.value;
        assert forall j | 0 <= j < k + 1 :: !Matches(table[j], songIndex, charIndex) by {
          forall j | 0 <= j < k + 1 ensures !Matches(table[j], songIndex, charIndex) {
            if j > 0 { assert table[j] == table[1..][j - 1]; }
          }
        }
        r
      else
        assert forall k | 0 <= k < |table| :: !Matches(table[k], songIndex, charIndex) by {
          forall k | 0 <= k < |table| ensures !Matches(table[k], songIndex, charIndex) {
            if k > 0 { assert table[k] == table[1..][k - 1]; }
          }
        }
        r
  }

  /** The letters of the table spell the phrase. */
  lemma TableSpellsPhrase()
    ensures Letters(TargetChars) == Phrase
  {
    var s := Letters(TargetChars);
    assert |s| == |Phrase|;
    forall k | 0 <= k < |Phrase| ensures s[k] == Phrase[k] {
      assert s[k] == TargetChars[k].ch;
    }
  }

  /** A space entry points at no title (-1, -1); every other entry names a song and a position inside its title. */
  lemma TableInRange()
    ensures forall k | 0 <= k < |TargetChars| && TargetChars[k].ch == ' ' ::
      TargetChars[k].songIndex == -1 && TargetChars[k].charIndex == -1
    ensures forall k | 0 <= k < |TargetChars| && TargetChars[k].ch != ' ' ::
      0 <= TargetChars[k].songIndex < |Playlist|
      && 0 <= TargetChars[k].charIndex < |Playlist[TargetChars[k].songIndex].title|
  {
  }

  /** Every letter entry names a title character equal to its letter once both are upper-cased. */
  lemma TableMatchesTitlesIgnoringCase()
    ensures forall k | 0 <= k < |TargetChars| && TargetChars[k].ch != ' ' ::
      0 <= TargetChars[k].songIndex < |Playlist|
      && 0 <= TargetChars[k].charIndex < |Playlist[TargetChars[k].songIndex].title|
      && Upper(Playlist[TargetChars[k].songIndex].title[TargetChars[k].charIndex]) == TargetChars[k].ch
  {
  }

  /** ...but not with case: 'Perfect'[1] is 'e' where the entry says 'E'. */
  lemma TableDiffersInCase()
    ensures TargetChars[1].songIndex == 1 && TargetChars[1].charIndex == 1
    ensures Playlist[1].title[1] == 'e' && TargetChars[1].ch == 'E'
  {
  }

  /** No two entries take the same title position. */
  lemma TablePositionsDistinct()
    ensures forall j, k | 0 <= j < k < |TargetChars| && TargetChars[j].ch != ' ' ::
      !Matches(TargetChars[k], TargetChars[j].songIndex, TargetChars[j].charIndex)
  {
  }

  /**
   * The lookup finds each letter entry at its own title position, so every used
   * position is highlighted, with its own entry, exactly once.
   */
  lemma {:induction false} LookupFindsEachEntry(k: nat)
    requires k < |TargetChars| && TargetChars[k].ch != ' '
    ensures FindTarget(TargetChars, TargetChars[k].songIndex, TargetChars[k].charIndex) == Some(TargetChars[k])
  {
    var t := TargetChars[k];
    var r := FindTarget(TargetChars, t.songIndex, t.charIndex);
    assert Matches(TargetChars[k], t.songIndex, t.charIndex);
    var k' :| 0 <= k' < |TargetChars| && TargetChars[k'] == r.value && Matches(TargetChars[k'], t.songIndex, t.charIndex)
              && forall j | 0 <= j < k' :: !Matches(TargetChars[j], t.songIndex, t.charIndex);
    if k' < k {
      TableInRange();
      assert TargetChars[k'].ch != ' ';
      TablePositionsDistinct();
    }
    assert k' >= k;
    assert k' == k;
  }

  /** A title position that no entry names is not highlighted; one that is highlighted is a letter entry. */
  lemma {:induction false} LookupOnTitles(songIndex: nat, charIndex: nat)
    ensures FindTarget(TargetChars, songIndex, charIndex).Some? <==>
      exists k | 0 <= k < |TargetChars| :: TargetChars[k].ch != ' ' && Matches(TargetChars[k], songIndex, charIndex)
  {
    TableInRange();
  }
}

/**
 * The intro choreography: one ten-second chapter per song, then the song titles are
 * shown with some letters highlighted, then those letters fly together to spell the
 * final phrase, and finally the completion callback runs.
 *
 * The component is a class whose fields are its React state (`currentIndex`, `phase`,
 * `showCard`, `mediaOffset`), the pending timers of its effects, the clock, and the log
 * of callbacks it has made to its parent (`onSongChange`, `onComplete`).
 */
module IntroMachine {
  import opened Timing
  import opened Catalog
  import Cyclic

  datatype Phase = Playing | Revealing | Formed

  /** The timers of the two effects: three per chapter, one per closing phase. */
  datatype TimerKind = HideCard | SwapMedia | NextSong | FormPhrase | Finish

  /** Callbacks the component makes to its parent. */
  datatype Event = SongChange(index: nat) | Complete

  const HideCardDelay: nat := 3000
  const SwapMediaDelay: nat := 5000
  const SongDuration: nat := 10000
  const RevealDelay: nat := 3000
  const FormedDelay: nat := 8000

  /** The three timers a chapter's effect arms at time `t`. */
  function ChapterTimers(t: nat): map<TimerKind, nat> {
    map[HideCard := t + HideCardDelay, SwapMedia := t + SwapMediaDelay, NextSong := t + SongDuration]
  }

  /** The index of the background media shown for a chapter: two items per song, wrapping around the list. */
  function MediaIndex(currentIndex: nat, mediaOffset: nat, mediaCount: nat): (r: nat)
    requires mediaCount > 0
    ensures r < mediaCount
  {
    (currentIndex * 2 + mediaOffset) % mediaCount
  }

  /** The swap at five seconds moves to the next item of the media list, cyclically. */
  lemma {:induction false} SwapShowsNextItem(currentIndex: nat, mediaCount: nat)
    requires mediaCount > 0
    ensures MediaIndex(currentIndex, 1, mediaCount) == Cyclic.Next(MediaIndex(currentIndex, 0, mediaCount), mediaCount)
  {
    Cyclic.NextOfRemainder(currentIndex * 2, mediaCount);
  }

  /** The callbacks of a run from mount: one song change per chapter, in order. */
  function SongChanges(n: nat): (s: seq<Event>)
    ensures |s| == n && forall i | 0 <= i < n :: s[i] == SongChange(i)
  {
    if n == 0 then [] else SongChanges(n - 1) + [SongChange(n - 1)]
  }

  class IntroSequence {
    const playlist: seq<Song>
    const mediaItems: seq<MediaItem>

    var currentIndex: nat
    var phase: Phase
    var showCard: bool
    var mediaOffset: nat

    /** The clock (ms since mount), the pending timers, and the callbacks made so far. */
    var now: nat
    var pending: map<TimerKind, nat>
    var events: seq<Event>
    var mounted: bool

    /** When the effect that armed the current timers ran. */
    ghost var scopeStart: nat

    /**
     * The index and offset stay in range; while mounted, exactly the timers of the
     * current scope are pending, each at its fixed delay from the scope's start; after
     * teardown none are.
     */
    ghost predicate Valid()
      reads this
    {
      |playlist| > 0 && |mediaItems| > 0
      && currentIndex < |playlist| && mediaOffset <= 1
      && scopeStart <= now && NotBefore(pending, now)
      && (!mounted ==> pending == map[])
      && (mounted ==> ScopeTimers())
    }

    ghost predicate ScopeTimers()
      reads this
    {
      match phase
      case Playing =>
        pending.Keys <= {HideCard, SwapMedia, NextSong}
        && NextSong in pending && pending[NextSong] == scopeStart + SongDuration
        && (HideCard in pending <==> showCard)
        && (HideCard in pending ==> pending[HideCard] == scopeStart + HideCardDelay)
        && (SwapMedia in pending <==> mediaOffset == 0)
        && (SwapMedia in pending ==> pending[SwapMedia] == scopeStart + SwapMediaDelay)
      case Revealing =>
        pending == map[FormPhrase := scopeStart + RevealDelay]
      case Formed =>
        pending.Keys <= {Finish}
        && (Finish in pending ==> pending[Finish] == scopeStart + FormedDelay)
    }

    /** Mounting runs the chapter effect for song 0. A render needs a song and a media item to show. */
    constructor (playlist: seq<Song>, mediaItems: seq<MediaItem>)
      requires |playlist| > 0 && |mediaItems| > 0
      ensures Valid() && mounted
      ensures this.playlist == playlist && this.mediaItems == mediaItems
      ensures currentIndex == 0 && phase == Playing && showCard && mediaOffset == 0
      ensures now == 0 && pending == ChapterTimers(0) && events == [SongChange(0)]
    {
      this.playlist := playlist;
      this.mediaItems := mediaItems;
      currentIndex, phase, showCard, mediaOffset := 0, Playing, true, 0;
      now, mounted := 0, true;
      events := [SongChange(0)];
      pending := ChapterTimers(0);
      scopeStart := 0;
    }

    /** The background item shown now. */
    function CurrentMediaIndex(): (r: nat)
      reads this
      requires Valid()
      ensures r < |mediaItems|
    {
      MediaIndex(currentIndex, mediaOffset, |mediaItems|)
    }

    /** The card timer (3 s into a chapter) hides the title card. */
    method FireHideCard()
      requires Valid() && IsNext(pending, HideCard)
      modifies this`now, this`pending, this`showCard
      ensures Valid() && mounted && old(phase) == phase == Playing
      ensures now == old(pending[HideCard])
      ensures !showCard && pending == old(pending) - {HideCard}
    {
      now := pending[HideCard];
      pending := pending - {HideCard};
      showCard := false;
    }

    /** The media timer (5 s into a chapter) switches to the chapter's second media item. */
    method FireSwapMedia()
      requires Valid() && IsNext(pending, SwapMedia)
      modifies this`now, this`pending, this`mediaOffset
      ensures Valid() && mounted && old(phase) == phase == Playing
      ensures now == old(pending[SwapMedia])
      ensures mediaOffset == 1 && pending == old(pending) - {SwapMedia}
    {
      now := pending[SwapMedia];
      pending := pending - {SwapMedia};
      mediaOffset := 1;
    }

    /**
     * The chapter timer (10 s): the next chapter if a song remains, else the titles phase.
     * Either way a dependency of the chapter effect changes, so its cleanup cancels what
     * is left of the chapter's timers before the next scope arms its own.
     */
    method FireNextSong()
      requires Valid() && IsNext(pending, NextSong)
      modifies this
      ensures Valid() && mounted && old(phase) == Playing
      ensures now == old(pending[NextSong])
      ensures old(currentIndex) < |playlist| - 1 ==>
        phase == Playing && currentIndex == old(currentIndex) + 1
        && showCard && mediaOffset == 0
        && pending == ChapterTimers(now)
        && events == old(events) + [SongChange(currentIndex)]
      ensures old(currentIndex) == |playlist| - 1 ==>
        phase == Revealing && currentIndex == old(currentIndex)
        && showCard == old(showCard) && mediaOffset == old(mediaOffset)
        && pending == map[FormPhrase := now + RevealDelay]
        && events == old(events)
    {
      now := pending[NextSong];
      pending := map[];
      if currentIndex < |playlist| - 1 {
        currentIndex := currentIndex + 1;
        EnterChapter();
      } else {
        phase := Revealing;
        pending := map[FormPhrase := now + RevealDelay];
        scopeStart := now;
      }
    }

    /** The titles timer (3 s): the phrase forms. */
    method FireFormPhrase()
      requires Valid() && IsNext(pending, FormPhrase)
      modifies this`now, this`pending, this`phase, this`scopeStart
      ensures Valid() && mounted
      ensures now == old(pending[FormPhrase])
      ensures old(phase) == Revealing && phase == Formed
      ensures pending == map[Finish := now + FormedDelay]
    {
      now := pending[FormPhrase];
      phase := Formed;
      pending := map[Finish := now + FormedDelay];
      scopeStart := now;
    }

    /** The phrase timer (8 s): `onComplete`. */
    method FireFinish()
      requires Valid() && IsNext(pending, Finish)
      modifies this`now, this`pending, this`events
      ensures Valid() && mounted
      ensures now == old(pending[Finish])
      ensures phase == Formed && pending == map[]
      ensures events == old(events) + [Complete]
    {
      now := pending[Finish];
      pending := map[];
      events := events + [Complete];
    }

    /** One whole chapter with no interruption: its three timers fire in delay order. */
    method PlayChapter()
      requires Valid() && mounted && phase == Playing && pending == ChapterTimers(now)
      modifies this
      ensures Valid() && mounted
      ensures now == old(now) + SongDuration
      ensures old(currentIndex) < |playlist| - 1 ==>
        phase == Playing && currentIndex == old(currentIndex) + 1
        && pending == ChapterTimers(now)
        && events == old(events) + [SongChange(currentIndex)]
      ensures old(currentIndex) == |playlist| - 1 ==>
        phase == Revealing && currentIndex == old(currentIndex)
        && pending == map[FormPhrase := now + RevealDelay]
        && events == old(events)
    {
      ghost var t := now;
      FireHideCard();
      assert pending == map[SwapMedia := t + SwapMediaDelay, NextSong := t + SongDuration];
      FireSwapMedia();
      assert pending == map[NextSong := t + SongDuration];
      FireNextSong();
    }

    /** The chapter effect: show the card, show the first media item, report the song, arm three timers. */
    method EnterChapter()
      modifies this`showCard, this`mediaOffset, this`events, this`pending, this`scopeStart
      ensures showCard && mediaOffset == 0
      ensures events == old(events) + [SongChange(currentIndex)]
      ensures pending == ChapterTimers(now) && scopeStart == now
    {
      showCard, mediaOffset := true, 0;
      events := events + [SongChange(currentIndex)];
      pending := ChapterTimers(now);
      scopeStart := now;
    }

    /**
     * The parent renders again at time `at` and passes a new `onComplete` closure, which
     * re-runs the closing-phase effect: its timer is cleared and armed again with the full
     * delay from `at`. The chapter effect's dependencies are stable, so a chapter's timers
     * stay as they are.
     */
    method ParentRerender(at: nat)
      requires Valid() && mounted && now <= at && NotBefore(pending, at)
      modifies this`now, this`pending, this`scopeStart
      ensures Valid() && mounted && now == at
      ensures phase == Playing ==> pending == old(pending)
      ensures phase == Revealing ==> pending == map[FormPhrase := at + RevealDelay]
      ensures phase == Formed ==> pending == map[Finish := at + FormedDelay]
    {
      now := at;
      if phase == Revealing {
        pending := map[FormPhrase := now + RevealDelay];
        scopeStart := now;
      } else if phase == Formed {
        pending := map[Finish := now + FormedDelay];
        scopeStart := now;
      }
    }

    /** The skip button, pressed at time `at`, calls `onComplete` at once; it cancels nothing itself. */
    method Skip(at: nat)
      requires Valid() && mounted && now <= at && NotBefore(pending, at)
      modifies this`now, this`events
      ensures Valid() && mounted && now == at
      ensures events == old(events) + [Complete]
    {
      now := at;
      events := events + [Complete];
    }

    /** Unmounting runs every effect cleanup: no timer of the component remains pending. */
    method Teardown()
      requires Valid()
      modifies this`pending, this`mounted
      ensures Valid() && !mounted && pending == map[]
    {
      pending, mounted := map[], false;
    }
  }

  /**
   * The chapters of a fresh intro up to the last one, uninterrupted: the last chapter
   * has just started, each earlier chapter took 10 s and reported its song in order.
   */
  method PlayToLastChapter(playlist: seq<Song>, mediaItems: seq<MediaItem>) returns (intro: IntroSequence)
    requires |playlist| > 0 && |mediaItems| > 0
    ensures fresh(intro) && intro.Valid() && intro.mounted && intro.playlist == playlist
    ensures intro.phase == Playing && intro.currentIndex == |playlist| - 1
    ensures intro.pending == ChapterTimers(intro.now)
    ensures intro.now == (|playlist| - 1) * SongDuration
    ensures intro.events == SongChanges(|playlist|)
  {
    intro := new IntroSequence(playlist, mediaItems);
    while intro.currentIndex < |playlist| - 1
      invariant fresh(intro) && intro.Valid() && intro.mounted && intro.playlist == playlist
      invariant intro.phase == Playing && intro.pending == ChapterTimers(intro.now)
      invariant intro.now == intro.currentIndex * SongDuration
      invariant intro.events == SongChanges(intro.currentIndex + 1)
      decreases |playlist| - intro.currentIndex
    {
      intro.PlayChapter();
    }
  }

  /**
   * Every chapter of a fresh intro, uninterrupted: afterwards the titles are shown, the
   * songs 0, 1, ..., n-1 have been reported in order, and n chapters of 10 s have passed.
   */
  method PlayAllChapters(playlist: seq<Song>, mediaItems: seq<MediaItem>) returns (intro: IntroSequence)
    requires |playlist| > 0 && |mediaItems| > 0
    ensures fresh(intro) && intro.Valid() && intro.mounted && intro.playlist == playlist
    ensures intro.phase == Revealing
    ensures intro.pending == map[FormPhrase := intro.now + RevealDelay]
    ensures intro.now == |playlist| * SongDuration
    ensures intro.events == SongChanges(|playlist|)
  {
    intro := PlayToLastChapter(playlist, mediaItems);
    intro.PlayChapter();
  }

  /**
   * A whole intro without skip and with a stable `onComplete`: the songs are reported as
   * 0, 1, ..., n-1, in order, and `onComplete` runs once, n ten-second chapters plus 3 s
   * of titles plus 8 s of phrase after mount.
   */
  method PlayThrough(playlist: seq<Song>, mediaItems: seq<MediaItem>) returns (trace: seq<Event>, finishedAt: nat)
    requires |playlist| > 0 && |mediaItems| > 0
    ensures trace == SongChanges(|playlist|) + [Complete]
    ensures finishedAt == |playlist| * SongDuration + RevealDelay + FormedDelay
  {
    var intro := PlayAllChapters(playlist, mediaItems);
    intro.FireFormPhrase();
    assert IsNext(intro.pending, Finish);
    intro.FireFinish();
    trace, finishedAt := intro.events, intro.now;
  }

  /**
   * As `PlayThrough`, but the parent renders again `d` ms into the phrase phase, before
   * its timer is due: the 8 s start over from that render, so `onComplete` runs `d` ms
   * later than in an undisturbed run.
   */
  method RerenderDuringFormed(playlist: seq<Song>, mediaItems: seq<MediaItem>, d: nat) returns (trace: seq<Event>, finishedAt: nat)
    requires |playlist| > 0 && |mediaItems| > 0 && d < FormedDelay
    ensures trace == SongChanges(|playlist|) + [Complete]
    ensures finishedAt == |playlist| * SongDuration + RevealDelay + d + FormedDelay
  {
    var intro := PlayAllChapters(playlist, mediaItems);
    intro.FireFormPhrase();
    intro.ParentRerender(intro.now + d);
    assert IsNext(intro.pending, Finish);
    intro.FireFinish();
    trace, finishedAt := intro.events, intro.now;
  }

  /**
   * Skip in any phase, at time `at`, then the parent's unmount: the parent gets
   * `onComplete` once more, and no timer is left that could fire afterwards.
   */
  method SkipThenUnmount(intro: IntroSequence, at: nat)
    requires intro.Valid() && intro.mounted && intro.now <= at && NotBefore(intro.pending, at)
    modifies intro
    ensures intro.events == old(intro.events) + [Complete]
    ensures intro.Valid() && !intro.mounted && intro.pending == map[]
  {
    intro.Skip(at);
    intro.Teardown();
  }
}
