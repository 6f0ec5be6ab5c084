# Verified model of the "For Anyari" presentation app

A single-page presentation: a landing screen, an intro that plays one ten-second
chapter per song (title card, two background media items), then shows the song
titles with some letters highlighted, gathers those letters into the phrase
"TE AMO ANYARI" and hands over to the main view. The main view shows five strips of
photos and videos that cycle on their own, a lyric caption, and keeps the background
audio playing, one ten-second highlight per song, looping over the playlist.

This Dafny project models the logic under that presentation:

- `Catalog` (`catalog.dfy`): the song and media-item records and the two constant
  lists, with lemmas about their shape.
- `Cyclic` (`cyclic.dfy`): the looping cursor `(prev + 1) % n` shared by the song
  index, the strip cursors and the lyric line index, with its period proved.
- `Timing` (`timing.dfy`): pending timers as a map from timer name to due time (ms).
  The event loop runs a timer that no other pending timer precedes.
- `Intro` and `IntroMachine` (`intro_sequence.dfy`): the letter table and its lookup,
  and the intro as a class. Its state is the index, the phase, the card flag and the
  media offset. It also holds the clock, the pending timers and the log of
  `onSongChange`/`onComplete` calls. Each timer callback is one method. Each method
  cancels the outgoing scope's timers before the next scope arms its own, as the React
  effect cleanups do.
- `Gallery` (`strip_gallery.dfy`): the rotation loop `getStripItems` and a `Strip`
  class holding a cursor and at most one jittered image timer.
- `Lyrics` (`lyrics_display.dfy`): the caption as a class with a hide timer and a
  cycling interval.
- `Audio` (`background_audio.dfy`): the audio coordinator as a class. It holds the
  stored timer id (`timeoutRef`), the pending stop timers and an abstract media element.
- `Shell` (`app.dfy`): the app's four flags and its handlers.

Randomness (`Math.random()`) and the outcome of `play()` are parameters of the methods
that use them. Time advances when a timer fires. An input from outside a component (a
parent's re-render, new props, a click, a media event) carries the time `at` at which
it arrives, which is no earlier than the component's clock and no later than its
earliest pending timer. Callbacks to a parent are recorded as a log or a counter.

Where the code does more or less than its own comments say, the model follows the code:

- The mapping comment at src/components/IntroSequence.tsx:20-30 takes each letter of
  the phrase from a position of a song title. The table matches those titles only up
  to letter case, not exactly (`Intro.TableDiffersInCase`).
- The comment at src/components/BackgroundAudio.tsx:64 calls `onEnded={onNext}` a
  fallback for a song without a duration. The handler is attached whatever the
  duration, so it requests the next song even when a duration is set
  (`Audio.BackgroundAudio.Ended`). Both the stop timer and the end of the track can
  advance.
- The app passes the intro a new `onComplete` closure on every render
  (src/App.tsx:26 and 78), and the intro's closing effect depends on it
  (src/components/IntroSequence.tsx:83-97). Any app re-render during the titles or the
  phrase therefore restarts that phase's timer from the time of the render
  (`IntroMachine.RerenderDuringFormed`). With the eight catalogue songs, the phrase
  forms at 83 s. The audio's stop timer, re-armed at 80 s after the song index wraps
  from 7 to 0, calls `onNext` at 90 s, 7 s into the phrase. The app re-renders, and
  `onComplete` comes at 98 s rather than at 91 s. This follows by reading the code
  with `d = 7000`. The model does not compose the two components to derive it.

## Model

| member | source | states |
|---|---|---|
| `Catalog.PlaylistTiming` | src/data.ts:40-137 | eight songs, each with a start offset and a duration of exactly 10 s |
| `Catalog.PlaylistLyrics` | src/data.ts:40-137 | every song has two lyric lines and none is empty, so the empty-lyrics path is never reached with the catalogue |
| `Catalog.MediaShape` | src/data.ts:139-199 | nine media items alternating image/video from an image; images, and only images, carry a duration, of 5 |
| `Catalog.IdsUnique` | src/data.ts:40-199 | ids are pairwise distinct within the playlist and within the media list |
| `Cyclic.Next` | src/App.tsx:33-35 | the step stays in range, moves one place forward, and wraps from the last position to 0 |
| `Cyclic.StepsIsAddition` | src/components/StripGallery.tsx:55 | k successive steps from i land on (i + k) mod n |
| `Cyclic.FullCycle` | src/components/StripGallery.tsx:69 | a cursor returns to its start after exactly n steps and at no earlier step |
| `Intro.FindTarget` | src/components/IntroSequence.tsx:205 | the lookup returns the first entry naming the title position, and nothing exactly when no entry names it |
| `Intro.TableSpellsPhrase` | src/components/IntroSequence.tsx:19-46 | the table's characters, in order, spell "TE AMO ANYARI" |
| `Intro.TableInRange` | src/components/IntroSequence.tsx:32-46 | spaces use -1/-1; every letter names an existing song and a position inside its title |
| `Intro.TableMatchesTitlesIgnoringCase` | src/components/IntroSequence.tsx:32-46 | each letter equals its title character once that is upper-cased |
| `Intro.TableDiffersInCase` | src/components/IntroSequence.tsx:34 | the match is not exact: 'Perfect'[1] is 'e' where the entry has 'E' |
| `Intro.TablePositionsDistinct` | src/components/IntroSequence.tsx:32-46 | no two entries take the same title position |
| `Intro.LookupFindsEachEntry` | src/components/IntroSequence.tsx:203-207 | the lookup at an entry's position returns that very entry, so each used letter is highlighted exactly once |
| `Intro.LookupOnTitles` | src/components/IntroSequence.tsx:203-207 | a title position is highlighted iff a letter entry (not a space) names it |
| `IntroMachine.MediaIndex` | src/components/IntroSequence.tsx:99 | the background media index always lies inside the media list |
| `IntroMachine.SwapShowsNextItem` | src/components/IntroSequence.tsx:64-66 | the five-second swap shows the item that follows the chapter's first one, cyclically |
| `IntroMachine.IntroSequence.constructor` | src/components/IntroSequence.tsx:14-17 | mount: song 0, phase playing, card shown, offset 0, song 0 reported, the three chapter timers armed at 3, 5 and 10 s |
| `IntroMachine.IntroSequence.CurrentMediaIndex` | src/components/IntroSequence.tsx:99-100 | the media shown is an index of the media list |
| `IntroMachine.IntroSequence.FireHideCard` | src/components/IntroSequence.tsx:59-61 | the card hides; only that timer is consumed; the phase stays playing |
| `IntroMachine.IntroSequence.FireSwapMedia` | src/components/IntroSequence.tsx:64-66 | the media offset becomes 1; only that timer is consumed |
| `IntroMachine.IntroSequence.FireNextSong` | src/components/IntroSequence.tsx:68-81 | before the last song: next index, card and offset reset, the index reported, only the new chapter's timers pending; at the last song: phase revealing with only the 3 s timer pending, nothing reported |
| `IntroMachine.IntroSequence.FireFormPhrase` | src/components/IntroSequence.tsx:84-89 | revealing moves to formed and only the 8 s timer is pending |
| `IntroMachine.IntroSequence.FireFinish` | src/components/IntroSequence.tsx:91-95 | `onComplete` is called once and no timer remains |
| `IntroMachine.IntroSequence.PlayChapter` | src/components/IntroSequence.tsx:54-74 | an uninterrupted chapter fires card, media and advance timers in that order and lasts exactly 10 s |
| `IntroMachine.IntroSequence.EnterChapter` | src/components/IntroSequence.tsx:49-56 | entering a chapter resets card and offset, reports the index and arms exactly the three chapter timers |
| `IntroMachine.IntroSequence.ParentRerender` | src/components/IntroSequence.tsx:83-97 | a new `onComplete` from a parent render at time `at` restarts the revealing or formed timer with its full delay from `at`, and leaves a chapter's timers alone |
| `IntroMachine.IntroSequence.Skip` | src/components/IntroSequence.tsx:264-265 | skip at time `at` calls `onComplete` at once and cancels nothing itself |
| `IntroMachine.IntroSequence.Teardown` | src/components/IntroSequence.tsx:76-80 | unmounting leaves no pending timer |
| `IntroMachine.PlayToLastChapter` | src/components/IntroSequence.tsx:48-81 | from mount, the chapters before the last take 10 s each and report songs 0..n-1 in order |
| `IntroMachine.PlayAllChapters` | src/components/IntroSequence.tsx:48-88 | after all n chapters, at n·10000 ms, the titles phase begins with only its 3 s timer pending |
| `IntroMachine.PlayThrough` | src/components/IntroSequence.tsx:48-97 | without skip and with a stable `onComplete` (no parent re-render during the titles or the phrase), songs 0..n-1 are reported in order, then one completion, at n·10000 + 3000 + 8000 ms |
| `IntroMachine.RerenderDuringFormed` | src/components/IntroSequence.tsx:83-97 | a parent re-render `d` < 8000 ms into the phrase delays the single completion to n·10000 + 3000 + d + 8000 ms |
| `IntroMachine.SkipThenUnmount` | src/components/IntroSequence.tsx:76-95 | skip in any phase, then the parent's unmount: one more completion and no timer left to fire |
| `Gallery.RotateAt` | src/components/StripGallery.tsx:16-22 | a rotation keeps the length and element i is element (i + offset) mod n |
| `Gallery.RotatePermutes` | src/components/StripGallery.tsx:17-21 | a rotation is a permutation of the list |
| `Gallery.RotateZeroAndPeriod` | src/components/StripGallery.tsx:18-19 | offset 0 returns the list unchanged; offsets differing by its length give the same list |
| `Gallery.GetStripItems` | src/components/StripGallery.tsx:16-21 | the loop builds exactly the rotation of the items by the offset |
| `Gallery.AllStripItems` | src/components/StripGallery.tsx:26-29 | five strips, strip i holding the items rotated by 2i |
| `Gallery.StripStartsDistinct` | src/components/StripGallery.tsx:12-29 | with the nine-item catalogue the five strips start on five different items |
| `Gallery.JitteredDelay` | src/components/StripGallery.tsx:52-53 | an image's delay lies in [4000, 8000) ms for any random value in [0, 1) |
| `Gallery.Strip.constructor` | src/components/StripGallery.tsx:41-56 | cursor 0; one timer if the first item is an image, none for a video |
| `Gallery.Strip.ArmForCurrentItem` | src/components/StripGallery.tsx:46-63 | an image arms one jittered timer; a video arms none |
| `Gallery.Strip.Advance` | src/components/StripGallery.tsx:55 | the cursor steps mod n; a changed index clears and re-arms; a one-item strip stays with nothing armed |
| `Gallery.Strip.FireTimer` | src/components/StripGallery.tsx:54-56 | the image timer advances the cursor at its due time and arms the next image's timer; on a one-item strip nothing is armed again |
| `Gallery.Strip.VideoEnded` | src/components/StripGallery.tsx:68-70 | a video's end at time `at` advances the cursor without any timer; a following image's delay starts at `at`; on a one-item strip nothing is armed |
| `Gallery.Strip.Rerender` | src/components/StripGallery.tsx:26-29 | a freshly built item list at time `at` clears the pending timer and re-arms it for the same item, due a fresh 4-8 s after `at` |
| `Gallery.Strip.Teardown` | src/components/StripGallery.tsx:65 | unmounting leaves no pending timer |
| `Lyrics.Step` | src/components/LyricsDisplay.tsx:35-37 | on a non-empty list the line index stays in range; on an empty list the update yields NaN |
| `Lyrics.StepNIsCursor` | src/components/LyricsDisplay.tsx:36 | k interval ticks on a non-empty list are k steps of the looping cursor |
| `Lyrics.LinesCycle` | src/components/LyricsDisplay.tsx:26-37 | the line index returns to its start after exactly as many ticks as there are lines, not earlier |
| `Lyrics.Shown` | src/components/LyricsDisplay.tsx:42-47 | a line shows iff the list is non-empty, the caption is visible and the current line exists and is non-empty |
| `Lyrics.LyricsDisplay.constructor` | src/components/LyricsDisplay.tsx:11-40 | mount: line 0, visible, hide timer at 3 s, interval at 4 s only when playing |
| `Lyrics.LyricsDisplay.Update` | src/components/LyricsDisplay.tsx:14-40 | new props at time `at`: new lyrics reset line and visibility and re-arm both timers from `at`; a playing change alone re-arms only the interval; not playing means no interval |
| `Lyrics.LyricsDisplay.FireHide` | src/components/LyricsDisplay.tsx:19-21 | the caption hides exactly 3 s after the last lyric change |
| `Lyrics.LyricsDisplay.FireCycle` | src/components/LyricsDisplay.tsx:35-37 | the interval steps the line and is due again 4 s later |
| `Lyrics.LyricsDisplay.Caption` | src/components/LyricsDisplay.tsx:47 | a rendered caption is a non-empty line of the lyrics and the caption is visible |
| `Lyrics.LyricsDisplay.Teardown` | src/components/LyricsDisplay.tsx:23-39 | unmounting leaves no hide timer and no interval |
| `Audio.StartOffset` | src/components/BackgroundAudio.tsx:32 | playback starts at the song's start time, or 0 when it has none |
| `Audio.StopDelay` | src/components/BackgroundAudio.tsx:42-46 | a stop timer exists iff the duration is present and non-zero, with delay duration·1000 ms |
| `Audio.CatalogueStopDelays` | src/components/BackgroundAudio.tsx:42-47 | every catalogue song is cut after 10000 ms, the length of an intro chapter |
| `Audio.BackgroundAudio.constructor` | src/components/BackgroundAudio.tsx:18-51 | mount runs the effect once: seek, play and one stop timer when playing; pause otherwise; nothing without an element |
| `Audio.BackgroundAudio.RunEffect` | src/components/BackgroundAudio.tsx:22-51 | the stored timer is cleared first; playing seeks to the start offset and arms at most one timer whatever `play()` returns; pausing keeps the position |
| `Audio.BackgroundAudio.Update` | src/components/BackgroundAudio.tsx:53-58 | new props at time `at` while mounted: a changed song or flag cancels every previously pending timer, with or without an element, before re-running the effect; without an element the effect then does nothing, so the element is untouched and no timer is pending; unchanged props change nothing |
| `Audio.BackgroundAudio.FireStop` | src/components/BackgroundAudio.tsx:43-46 | the stop timer calls `onNext` once and nothing stays pending |
| `Audio.BackgroundAudio.Ended` | src/components/BackgroundAudio.tsx:64 | the end of the track, while mounted, calls `onNext` and leaves the stop timer as it is |
| `Audio.BackgroundAudio.Teardown` | src/components/BackgroundAudio.tsx:53-57 | unmounting leaves no pending stop timer, and no later input reaches the app |
| `Audio.PlayOneSong` | src/components/BackgroundAudio.tsx:30-47 | a song with start 45 and duration 10 seeks to 45 s and calls `onNext` 10000 ms later, whether or not play succeeded |
| `Shell.ActiveView` | src/App.tsx:40-81 | exactly one view: landing iff not started, intro iff started and not complete, main otherwise |
| `Shell.App.constructor` | src/App.tsx:16-19 | not started, intro not complete, not playing, song 0 |
| `Shell.App.HandleStart` | src/App.tsx:21-24 | started and playing; nothing else changes |
| `Shell.App.HandleIntroComplete` | src/App.tsx:26-31 | intro complete and back to the first song |
| `Shell.App.HandleNextSong` | src/App.tsx:33-35 | the song index steps mod the playlist length and stays in range |
| `Shell.App.SongChange` | src/App.tsx:79 | the intro's report sets the shared index, which stays in range |
| `Shell.App.View` | src/App.tsx:39-113 | landing iff not started, intro iff started and not complete, main iff started and complete |
| `Shell.App.AudioMounted` | src/App.tsx:117-124 | the audio is mounted exactly when the view is not the landing screen |
| `Shell.App.CurrentLyrics` | src/App.tsx:108-111 | the caption gets the current song's two lines |
| `Shell.Drive` | src/App.tsx:15-35 | under any sequence of handler calls the index stays in range, music plays iff started and is never switched off, and the view follows the flags |

## Left out

- Rendering, CSS, the motion animations and `layoutId` transitions, and the decorative
  random floating icons of the intro: visual only, no state.
- `VisualsGallery` and `MusicPlayer`: the app never mounts them.
- Asset URLs are opaque strings; the bundler resolves them.
- Browser media: `play()` is an injected success flag and the element an abstract
  (position, playing) record. Loading a new `src`, volume and `timeupdate` are not
  modelled.
- React scheduling (batching, effect order across components, stale closures) is not
  modelled. Props are compared by value, where React compares lists by reference.
  The app's callbacks and the gallery's item lists are recreated on each render. The
  model includes the effects of this on the intro's closing timers (`ParentRerender`,
  `RerenderDuringFormed`) and on the strips' image timers (`Strip.Rerender`). Whether
  and when such a re-render happens is an input to those methods.
- The 98 s completion of the intro with the catalogue is worked out by hand from
  `RerenderDuringFormed` and the audio's timers. It is not proved, because the
  components are not composed.
- The components are separate objects, not one object graph. `Shell.Drive` treats the
  children's callbacks as inputs. The same-instant race between the intro's 10 s
  chapter timer and the audio's 10 s stop timer, both writing the song index, is not
  ordered by the model. Both writers keep the index in range.
- Numbers are whole: start times and durations are naturals. `setTimeout`'s clamping of
  negative delays and fractional seconds do not arise.
- The intro needs a non-empty playlist and media list, because its render reads
  `playlist[currentIndex]` and `mediaItems[...]`. A strip needs a non-empty item list
  for the same reason.
- The commented-out safety timeout for strip videos is not code and is not modelled.
