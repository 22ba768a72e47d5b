# Music playlist manager — a Dafny model of its store

The program is a console playlist manager written in Rust. It keeps an
in-memory table `PlaylistManager` that maps a playlist name to a `Playlist`
(its name and an ordered list of `Song`s). A menu loop lets the user create
playlists, append songs, list playlists, list the songs of one playlist,
and save and exit.

This project models that store and the menu loop:

- `decimal.dfy`, module `Decimal`: the `u32` song duration and the decimal
  text Rust's `{}` prints for it. The rendering comes with a round trip in
  both directions: number to text to number, and canonical text to number
  to text.
- `playlists.dfy`, module `Playlists`: `Song`, `Playlist` and the class
  `PlaylistManager`. The class has one field, `playlists: map<string,
  Playlist>`, which its methods update in place as the Rust `HashMap` is.
  Printed messages become returned lines. The functions `WithPlaylist` and
  `WithSong` state what `add_playlist` and `add_song` do to the table. The
  store's invariant, "each playlist's `name` equals its key", is the
  predicate `NamesMatchKeys`. `new` establishes it, and `add_playlist` and
  `add_song` preserve it.
- `session.dfy`, module `Session`: the `main` loop. One turn of the loop is
  given as an `Entry`: the choice typed, plus the name and song lines that
  choice goes on to read. `Replay` folds the turns over the table. `Run` is
  the loop itself over a finite sequence of turns, proved to leave the
  table at `Replay` of the turns it took, stopping right after the first
  `"5"` or after the given turns.

Two facts of the code that the model keeps:

- `add_playlist` does not check for an existing name (src/main.rs:37-43).
  It inserts an empty playlist, which replaces any playlist already stored
  under that name, songs included, and then reports "Playlist created!".
  `WithPlaylist` states this replacement.
- A song has an `album` and an integer `duration: u32` in seconds
  (src/main.rs:8-13, :149).

## Model

| member | source | states |
|---|---|---|
| Decimal.DecimalString | src/main.rs:72-75 | the duration text is a non-empty string of decimal digits with no leading zero (except for 0), and has one digit exactly when the number is below 10 |
| Decimal.ValueOfDecimalString | src/main.rs:72-75 | reading the printed duration back as a decimal number gives the duration: the rendering loses nothing |
| Decimal.DecimalStringInjective | src/main.rs:72-75 | two different durations never print the same text |
| Decimal.DecimalStringOfValue | src/main.rs:72-75 | every digit string without a leading zero is the printed text of the number it denotes, so the texts printed are exactly those strings |
| Playlists.WithPlaylist | src/main.rs:37-42 | after `add_playlist(n)` the keys are the old keys plus `n`; `n` holds a playlist named `n` with no songs, even when `n` was already there, and then the count is unchanged; every other entry is untouched; the name invariant is preserved |
| Playlists.WithSong | src/main.rs:47-53 | `add_song(p, s)` never changes the key set; if `p` is present, its songs become the old songs followed by `s` (one longer) and it keeps its name; if `p` is absent, the table is unchanged; no other entry changes; the name invariant is preserved |
| Playlists.PlaylistLineInjective | src/main.rs:61-62 | two different playlist names never produce the same listing line |
| Playlists.PlaylistLineIsNotEmptyMessage | src/main.rs:58-63 | no playlist line equals the "No playlists available." message |
| Playlists.PlaylistManager.constructor | src/main.rs:30-34 | `new` gives an empty table, which satisfies the name invariant |
| Playlists.PlaylistManager.Load | src/main.rs:90-96 | a file that cannot be read, or does not decode, yields the empty table; a decoded file yields the table it held |
| Playlists.PlaylistManager.AddPlaylist | src/main.rs:37-44 | the new table is `WithPlaylist` of the old one; the invariant is kept; the output is "Playlist created!" |
| Playlists.PlaylistManager.AddSong | src/main.rs:47-54 | reports `SongAdded` exactly when the name was present; the new table is `WithSong` of the old one, and it is unchanged when the status is `PlaylistNotFound`; the invariant is kept; the output is the status message |
| Playlists.PlaylistManager.ListPlaylists | src/main.rs:57-65 | read-only; outputs "No playlists available." exactly when the table is empty; otherwise one distinct line per key, each key's line present and every line some key's, in no fixed order |
| Playlists.PlaylistManager.ListSongs | src/main.rs:68-80 | read-only; for a stored name, a header naming the playlist as asked, then one line per song in playlist order; for an absent name, only "Playlist not found!" |
| Session.Classify | src/main.rs:116-176 | the choices "1" to "5" select the five options one-to-one, and every other string is invalid |
| Session.FirstExit | src/main.rs:171-175 | the position of the first "5" among the turns, or their count: no earlier turn is a "5", and the turn at that position is one |
| Session.ReplayKeepsNames | src/main.rs:101-178 | every run of the loop preserves the name invariant |
| Session.ReplayKeys | src/main.rs:116-123 | playlists are never removed: after a run, the names are the names before it plus those given to choice "1" |
| Session.ReplayQueriesOnly | src/main.rs:163-176 | turns that only list, save and exit, or are invalid leave the table unchanged |
| Session.ReplayAppend | src/main.rs:101-178 | running turns `a` and then turns `b` is the same as running `a + b` |
| Session.Turn | src/main.rs:116-177 | one turn changes the table as `Step` says and ends the session exactly on "5"; it outputs the created message for "1", the available-playlists header and then the add status for "2", and the invalid-option message for anything else |
| Session.Run | src/main.rs:99-179 | over a finite sequence of turns, the loop stops after the first "5" or after the given turns; the final table is `Replay` of the turns taken; the invariant is kept |
| Session.DurationText180 | src/main.rs:72-75 | the duration 180 prints as "180" |
| Session.RoadTripSongLine | src/main.rs:72-75 | the song ("A", "B", "C", 180) prints as "Title: A, Singer: B, Album: C, Duration: 180s" |
| Session.RoadTrip | src/main.rs:30-80 | starting empty, creating "Road Trip", adding one song and listing it prints exactly the header and that song's line |
| Session.CreateThenList | src/main.rs:37-65 | after creating a playlist, listing the playlists shows its name on exactly one line |

## Left out

- `save` (src/main.rs:83-87): serialisation to JSON with `serde_json` and the file write are foreign library calls and file I/O. Choice "5" only returns the messages it prints.
- Playlists.PlaylistManager.Load: reading `playlists.json` and decoding its JSON are not modelled. The constructor takes only which outcome occurred and, for a decoded file, the table it held. Such a table need not satisfy the name invariant, so the model does not claim that `load` establishes it.
- Console I/O in `main` (src/main.rs:102-175): the menu text, prompts, `flush`, `read_line` and `trim` are not modelled. Each turn's lines arrive already trimmed in an `Entry`.
- The panic on a duration that does not parse as `u32` (src/main.rs:158): Rust's string-to-integer parsing is library code. The duration is given as a number below 2^32.
- The order in which `HashMap` yields its keys (src/main.rs:61) is unspecified. `ListPlaylists` takes them in an arbitrary order, and its contract says which lines appear, never their order.
- Session.Run: states the final table, the number of turns taken and whether the session ended, but not the concatenated printed transcript. Each turn's lines are specified by `Turn` and by the listing methods it calls.
- Session.Run: covers a finite prefix of the input only. At end of input the program does not stop: `read_line` (src/main.rs:113) leaves the choice empty, the invalid branch (src/main.rs:176) runs on every turn, and nothing is saved, since only "5" (src/main.rs:171-175) leaves the loop. Those invalid turns leave the table unchanged (`ReplayQueriesOnly`), so the table `Run` reaches is the one the program keeps from then on.
- Session.Turn: for choices "2", "3" and "4" it does not restate the listing lines in its own contract. Those lines are exactly what `ListPlaylists` and `ListSongs` promise.
