/**
 * The static catalogue: the song and media-item shapes and the two constant lists that
 * every component reads. Asset URLs are opaque strings (the bundler resolves them).
 * Numeric fields are whole numbers of seconds.
 */
module Catalog {
  import opened Wrappers

  datatype MediaKind = Image | Video

  /** A gallery entry; `duration` is the display time in seconds, meant for images. */
  datatype MediaItem = MediaItem(
    id: string,
    kind: MediaKind,
    url: string,
    caption: Option<string>,
    duration: Option<nat>)

  /** A playlist entry; `startTime` and `duration` (seconds) select the highlight to play. */
  datatype Song = Song(
    id: string,
    title: string,
    artist: string,
    url: string,
    lyrics: seq<string>,
    startTime: Option<nat>,
    duration: Option<nat>)

  const Playlist: seq<Song> := [
    Song("1", "Photograph", "Ed Sheeran", "1.mp4",
         ["We keep this love in a photograph", "We made these memories for ourselves"],
         Some(60), Some(10)),
    Song("2", "Perfect", "Ed Sheeran", "2.mp4",
         ["I found a love for me", "Te amo Anyari"],
         Some(45), Some(10)),
    Song("3", "Rewrite the Stars", "James Arthur & Anne-Marie", "3.mp4",
         ["What if we rewrite the stars?", "Say you were made to be mine"],
         Some(50), Some(10)),
    Song("4", "Thinking Out Loud", "Ed Sheeran", "4.mp4",
         ["Take me into your loving arms", "Kiss me under the light of a thousand stars"],
         Some(40), Some(10)),
    Song("5", "Beautiful Things", "Benson Boone", "5.mp4",
         ["I thank God every day", "For the girl he sent my way"],
         Some(30), Some(10)),
    Song("6", "All of Me", "John Legend", "6.mp4",
         ["Cause all of me", "Loves all of you"],
         Some(65), Some(10)),
    Song("7", "A Thousand Years", "Christina Perri", "7.mp4",
         ["I have loved you for a thousand years", "I'll love you for a thousand more"],
         Some(55), Some(10)),
    Song("8", "Love Yourself", "Justin Bieber", "8.mp4",
         ["You should go and love yourself", "But I love you more"],
         Some(40), Some(10))
  ]

  const MediaItems: seq<MediaItem> := [
    MediaItem("1", Image, "9.jpeg", Some("Every moment with you"), Some(5)),
    MediaItem("2", Video, "14.mp4", Some("Is a memory I treasure"), None),
    MediaItem("3", Image, "10.jpeg", Some("You are my perfect"), Some(5)),
    MediaItem("4", Video, "15.mp4", Some("Rewriting our stars"), None),
    MediaItem("5", Image, "11.jpeg", Some("Thinking out loud"), Some(5)),
    MediaItem("6", Video, "16.mp4", Some("All of me loves all of you"), None),
    MediaItem("7", Image, "12.jpeg", Some("For a thousand years"), Some(5)),
    MediaItem("8", Video, "17.mp4", Some("Love yourself"), None),
    MediaItem("9", Image, "13.jpeg", Some("Forever yours"), Some(5))
  ]

  /** Eight songs, each with a start offset and a ten-second play duration. */
  lemma PlaylistTiming()
    ensures |Playlist| == 8
    ensures forall i | 0 <= i < |Playlist| ::
      Playlist[i].startTime.Some? && Playlist[i].duration == Some(10)
  {
  }

  /** Every song has exactly two lyric lines, and no line is empty. */
  lemma PlaylistLyrics()
    ensures forall i | 0 <= i < |Playlist| ::
      |Playlist[i].lyrics| == 2 && forall j | 0 <= j < 2 :: Playlist[i].lyrics[j] != ""
  {
  }

  /** Nine media items alternating image/video from an image; exactly the images carry a duration, of 5. */
  lemma MediaShape()
    ensures |MediaItems| == 9
    ensures forall i | 0 <= i < |MediaItems| ::
      MediaItems[i].kind == (if i % 2 == 0 then Image else Video)
    ensures forall i | 0 <= i < |MediaItems| ::
      MediaItems[i].duration == (if MediaItems[i].kind == Image then Some(5) else None)
  {
  }

  /** Ids are unique within each list. */
  lemma IdsUnique()
    ensures forall i, j | 0 <= i < j < |Playlist| :: Playlist[i].id != Playlist[j].id
    ensures forall i, j | 0 <= i < j < |MediaItems| :: MediaItems[i].id != MediaItems[j].id
  {
  }
}
