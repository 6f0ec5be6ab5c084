/**
 * The lyric caption of the main view: on every song change it shows the first line for
 * three seconds, and while music plays it steps the line index every four seconds.
 */
module Lyrics {
  import opened Wrappers
  import opened Timing
  import Cyclic

  /** The line index state. `(prev + 1) % 0` is NaN in JavaScript, and NaN stays NaN. */
  datatype LineIndex = At(i: nat) | NaN

  datatype LyricTimer = Hide | Cycle

  const HideDelay: nat := 3000
  const CycleInterval: nat := 4000

  /** The interval's update of the line index. */
  function Step(index: LineIndex, lineCount: nat): (r: LineIndex)
    ensures lineCount > 0 && index.At? && index.i < lineCount ==> r.At? && r.i < lineCount
    ensures lineCount == 0 ==> r == NaN
  {
    match index
    case NaN => NaN
    case At(i) => if lineCount == 0 then NaN else At(Cyclic.Next(i, lineCount))
  }

  /** `k` updates in a row. */
  function StepN(index: LineIndex, lineCount: nat, k: nat): LineIndex {
    if k == 0 then index else Step(StepN(index, lineCount, k - 1), lineCount)
  }

  /** On a non-empty list `k` updates add `k` to the line modulo the number of lines. */
  lemma {:induction false} StepNIsCursor(i: nat, lineCount: nat, k: nat)
    requires 0 < lineCount && i < lineCount
    ensures StepN(At(i), lineCount, k) == At(Cyclic.Steps(i, lineCount, k))
  {
    if k > 0 {
      StepNIsCursor(i, lineCount, k - 1);
    }
  }

  /** The line index cycles with period equal to the number of lines. */
  lemma LinesCycle(i: nat, lineCount: nat)
    requires 0 < lineCount && i < lineCount
    ensures StepN(At(i), lineCount, lineCount) == At(i)
    ensures forall k | 0 < k < lineCount :: StepN(At(i), lineCount, k) != At(i)
  {
    StepNIsCursor(i, lineCount, lineCount);
    Cyclic.FullCycle(i, lineCount);
    forall k | 0 < k < lineCount
      ensures StepN(At(i), lineCount, k) != At(i)
    {
      StepNIsCursor(i, lineCount, k);
    }
  }

  /** The line on screen, if any: nothing for an empty list, else the current line while visible and non-empty. */
  function Shown(lyrics: seq<string>, index: LineIndex, isVisible: bool): (r: Option<string>)
    ensures r.Some? <==> |lyrics| > 0 && isVisible && index.At? && index.i < |lyrics| && lyrics[index.i] != ""
    ensures r.Some? ==> r.value == lyrics[index.i]
  {
    if |lyrics| == 0 then None
    else if isVisible && index.At? && index.i < |lyrics| && lyrics[index.i] != "" then Some(lyrics[index.i])
    else None
  }

  class LyricsDisplay {
    var lyrics: seq<string>
    var isPlaying: bool
    var lineIndex: LineIndex
    var isVisible: bool

    var now: nat
    var pending: map<LyricTimer, nat>
    var mounted: bool
    /** When the lyrics last changed (or the component mounted). */
    ghost var changedAt: nat

    /**
     * On a non-empty list the index is a line of it; the hide timer is pending exactly
     * while the caption is visible and is due 3 s after the last change; the interval is
     * pending exactly while playing.
     */
    ghost predicate Valid()
      reads this
    {
      (|lyrics| > 0 ==> lineIndex.At? && lineIndex.i < |lyrics|)
      && changedAt <= now && NotBefore(pending, now)
      && (!mounted ==> pending == map[])
      && (mounted ==>
            pending.Keys <= {Hide, Cycle}
            && (Hide in pending <==> isVisible)
            && (Hide in pending ==> pending[Hide] == changedAt + HideDelay)
            && (Cycle in pending <==> isPlaying))
    }

    /** Mount: both effects run. */
    constructor (lyrics: seq<string>, isPlaying: bool)
      ensures Valid() && mounted
      ensures this.lyrics == lyrics && this.isPlaying == isPlaying
      ensures lineIndex == At(0) && isVisible && now == 0
      ensures pending == if isPlaying then map[Hide := HideDelay, Cycle := CycleInterval] else map[Hide := HideDelay]
    {
      this.lyrics, this.isPlaying := lyrics, isPlaying;
      lineIndex, isVisible := At(0), true;
      now, mounted, changedAt := 0, true, 0;
      pending := if isPlaying then map[Hide := HideDelay, Cycle := CycleInterval] else map[Hide := HideDelay];
    }

    /**
     * New props, at time `at`. A new lyric list re-runs both effects (line 0, visible, a fresh hide
     * timer, and the interval again if playing); a change of `isPlaying` alone re-runs
     * only the interval effect. Each re-run first clears what its previous run armed.
     */
    method Update(at: nat, newLyrics: seq<string>, newPlaying: bool)
      requires Valid() && mounted && now <= at && NotBefore(pending, at)
      modifies this
      ensures Valid() && mounted && now == at
      ensures lyrics == newLyrics && isPlaying == newPlaying
      ensures newLyrics != old(lyrics) ==>
        lineIndex == At(0) && isVisible && pending[Hide] == now + HideDelay
      ensures newLyrics == old(lyrics) ==>
        lineIndex == old(lineIndex) && isVisible == old(isVisible)
        && (Hide in pending <==> Hide in old(pending))
        && (Hide in pending ==> pending[Hide] == old(pending[Hide]))
      ensures (newLyrics != old(lyrics) || newPlaying != old(isPlaying)) && newPlaying ==>
        pending[Cycle] == now + CycleInterval
      ensures newLyrics == old(lyrics) && newPlaying == old(isPlaying) ==> pending == old(pending)
      ensures !newPlaying ==> Cycle !in pending
    {
      now := at;
      var lyricsChanged := newLyrics != lyrics;
      var playingChanged := newPlaying != isPlaying;
      // cleanups of the effects whose dependencies changed
      if lyricsChanged {
        pending := pending - {Hide};
      }
      if lyricsChanged || playingChanged {
        pending := pending - {Cycle};
      }
      lyrics, isPlaying := newLyrics, newPlaying;
      // the effects themselves, in declaration order
      if lyricsChanged {
        lineIndex, isVisible := At(0), true;
        pending := pending[Hide := now + HideDelay];
        changedAt := now;
      }
      if (lyricsChanged || playingChanged) && isPlaying {
        pending := pending[Cycle := now + CycleInterval];
      }
    }

    /** The hide timer fires: the caption goes away until the next lyric change. */
    method FireHide()
      requires Valid() && IsNext(pending, Hide)
      modifies this`now, this`pending, this`isVisible
      ensures Valid() && mounted
      ensures now == old(pending[Hide]) && now == changedAt + HideDelay
      ensures !isVisible && pending == old(pending) - {Hide}
    {
      now := pending[Hide];
      pending := pending - {Hide};
      isVisible := false;
    }

    /** The interval fires: the next line, and the interval is due again 4 s later. */
    method FireCycle()
      requires Valid() && IsNext(pending, Cycle)
      modifies this`now, this`pending, this`lineIndex
      ensures Valid() && mounted && isPlaying
      ensures now == old(pending[Cycle])
      ensures lineIndex == Step(old(lineIndex), |lyrics|)
      ensures pending == old(pending)[Cycle := now + CycleInterval]
    {
      now := pending[Cycle];
      lineIndex := Step(lineIndex, |lyrics|);
      pending := pending[Cycle := now + CycleInterval];
    }

    /** What is rendered now. */
    function Caption(): (r: Option<string>)
      reads this
      requires Valid()
      ensures r.Some? ==> isVisible && r.value in lyrics && r.value != ""
    {
      Shown(lyrics, lineIndex, isVisible)
    }

    /** Unmount: both cleanups run. */
    method Teardown()
      requires Valid()
      modifies this`pending, this`mounted
      ensures Valid() && !mounted && pending == map[]
    {
      pending, mounted := map[], false;
    }
  }
}
