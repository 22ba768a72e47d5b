/** The in-memory playlist store: songs, playlists and the manager that
    keeps them in a table keyed by playlist name. */
module Playlists {
  import opened Decimal

  datatype Song = Song(title: string, singer: string, album: string, duration: U32)

  datatype Playlist = Playlist(name: string, songs: seq<Song>)

  /** The table the manager holds: playlist name to playlist. */
  type Table = map<string, Playlist>

  /** What `add_song` reports. */
  datatype AddSongStatus = SongAdded | PlaylistNotFound

  const CreatedMessage := "Playlist created!"
  const SongAddedMessage := "Song added to playlist!"
  const NotFoundMessage := "Playlist not found!"
  const NoPlaylistsMessage := "No playlists available."

  function StatusMessage(status: AddSongStatus): string {
    match status
    case SongAdded => SongAddedMessage
    case PlaylistNotFound => NotFoundMessage
  }

  /** The store's invariant: every playlist carries its own key as its name. */
  ghost predicate NamesMatchKeys(t: Table) {
    forall k :: k in t ==> t[k].name == k
  }

  /** The table after `add_playlist(name)`: `name` now holds an empty playlist,
      whatever it held before, and every other entry is untouched. */
  function WithPlaylist(t: Table, name: string): (r: Table)
    ensures r.Keys == t.Keys + {name}
    ensures r[name].name == name && r[name].songs == []
    ensures forall k :: k in t && k != name ==> r[k] == t[k]
    ensures |r| == if name in t then |t| else |t| + 1
    ensures NamesMatchKeys(t) ==> NamesMatchKeys(r)
  {
    t[name := Playlist(name, [])]
  }

  /** The table after `add_song(name, song)`: when `name` is present its
      playlist gains `song` at the end and keeps its name; otherwise nothing
      changes. No other entry changes either way. */
  function WithSong(t: Table, name: string, song: Song): (r: Table)
    ensures r.Keys == t.Keys
    ensures name in t ==> r[name].name == t[name].name
    ensures name in t ==> r[name].songs == t[name].songs + [song]
    ensures name in t ==> |r[name].songs| == |t[name].songs| + 1
    ensures name !in t ==> r == t
    ensures forall k :: k in t && k != name ==> r[k] == t[k]
    ensures NamesMatchKeys(t) ==> NamesMatchKeys(r)
  {
    if name in t then t[name := t[name].(songs := t[name].songs + [song])] else t
  }

  /** The line `list_playlists` prints for one playlist. */
  function PlaylistLine(name: string): string {
    "Playlist: " + name
  }

  /** The header `list_songs` prints, naming the playlist as it was asked for. */
  function SongsHeader(name: string): string {
    "Songs in playlist " + name + ":"
  }

  /** The line `list_songs` prints for one song. */
  function SongLine(s: Song): string {
    "Title: " + s.title + ", Singer: " + s.singer + ", Album: " + s.album
      + ", Duration: " + DecimalString(s.duration) + "s"
  }

  /** Different playlists give different lines, so a name listed once is
      listed on exactly one line. */
  lemma PlaylistLineInjective(a: string, b: string)
    requires PlaylistLine(a) == PlaylistLine(b)
    ensures a == b
  {
    var p := "Playlist: ";
    assert a == PlaylistLine(a)[|p|..];
    assert b == PlaylistLine(b)[|p|..];
  }

  /** No playlist line can be mistaken for the empty-table message. */
  lemma PlaylistLineIsNotEmptyMessage(name: string)
    ensures PlaylistLine(name) != NoPlaylistsMessage
  {
    assert PlaylistLine(name)[0] == 'P';
  }

  ghost predicate Distinct(lines: seq<string>) {
    forall i, j :: 0 <= i < j < |lines| ==> lines[i] != lines[j]
  }

  /** Where `load` gets its table from. Reading the file and decoding its JSON
      are not modelled; only which of the three outcomes occurred, and in the
      last case the table the file held. */
  datatype LoadSource = ReadFailed | ParseFailed | Parsed(table: Table)

  class PlaylistManager {
    var playlists: Table

    ghost predicate Valid()
      reads this
    {
      NamesMatchKeys(playlists)
    }

    /** `new`: an empty table. */
    constructor ()
      ensures Valid()
      ensures playlists == map[]
    {
      playlists := map[];
    }

    /** `load`: the table the file held, or an empty table when the file
        could not be read or did not decode. A decoded file is taken as it
        is, so the invariant holds afterwards only if the file kept it. */
    constructor Load(source: LoadSource)
      ensures source.Parsed? ==> playlists == source.table
      ensures !source.Parsed? ==> playlists == map[] && Valid()
    {
      playlists := if source.Parsed? then source.table else map[];
    }

    /** `add_playlist`: stores an empty playlist under `name`, replacing any
        playlist already stored there. It always reports success. */
    method AddPlaylist(name: string) returns (output: seq<string>)
      modifies this
      ensures playlists == WithPlaylist(old(playlists), name)
      ensures old(Valid()) ==> Valid()
      ensures output == [CreatedMessage]
    {
      var playlist := Playlist(name, []);
      playlists := playlists[name := playlist];
      output := [CreatedMessage];
    }

    /** `add_song`: appends `song` to the playlist named `name` if there is
        one, and reports whether there was. */
    method AddSong(name: string, song: Song) returns (status: AddSongStatus, output: seq<string>)
      modifies this
      ensures status == SongAdded <==> name in old(playlists)
      ensures playlists == WithSong(old(playlists), name, song)
      ensures status == PlaylistNotFound ==> playlists == old(playlists)
      ensures old(Valid()) ==> Valid()
      ensures output == [StatusMessage(status)]
    {
      if name in playlists {
        var playlist := playlists[name];
        playlists := playlists[name := playlist.(songs := playlist.songs + [song])];
        status := SongAdded;
      } else {
        status := PlaylistNotFound;
      }
      output := [StatusMessage(status)];
    }

    /** `list_playlists`: the empty-table message when there are no
        playlists, and otherwise one line per playlist, each name on exactly
        one line, in an order the table does not fix. */
    method ListPlaylists() returns (lines: seq<string>)
      ensures playlists == map[] <==> lines == [NoPlaylistsMessage]
      ensures playlists != map[] ==> |lines| == |playlists| && Distinct(lines)
      ensures playlists != map[] ==> forall k :: k in playlists <==> PlaylistLine(k) in lines
      ensures playlists != map[] ==>
        forall i :: 0 <= i < |lines| ==> exists k :: k in playlists && lines[i] == PlaylistLine(k)
    {
      if playlists == map[] {
        return [NoPlaylistsMessage];
      }
      lines := [];
      var pending := playlists.Keys;
      ghost var order: seq<string> := [];
      while pending != {}
        invariant pending <= playlists.Keys
        invariant |lines| == |order|
        invariant forall i :: 0 <= i < |order| ==> lines[i] == PlaylistLine(order[i])
        invariant forall k :: k in order <==> k in playlists && k !in pending
        invariant forall i, j :: 0 <= i < j < |order| ==> order[i] != order[j]
        invariant |order| + |pending| == |playlists.Keys|
        decreases pending
      {
        var name :| name in pending;
        lines := lines + [PlaylistLine(name)];
        order := order + [name];
        pending := pending - {name};
      }
      forall i, j | 0 <= i < j < |lines|
        ensures lines[i] != lines[j]
      {
        if lines[i] == lines[j] {
          PlaylistLineInjective(order[i], order[j]);
        }
      }
      forall k | PlaylistLine(k) in lines
        ensures k in playlists
      {
        var i :| 0 <= i < |lines| && lines[i] == PlaylistLine(k);
        PlaylistLineInjective(k, order[i]);
      }
      assert |lines| > 0 by {
        var k :| k in playlists;
        assert k in order;
      }
      PlaylistLineIsNotEmptyMessage(order[0]);
    }

    /** `list_songs`: for a stored playlist, the header followed by one line
        per song in the playlist's order; otherwise the not-found message
        alone. */
    method ListSongs(name: string) returns (lines: seq<string>)
      ensures name !in playlists ==> lines == [NotFoundMessage]
      ensures name in playlists ==>
        |lines| == |playlists[name].songs| + 1 && lines[0] == SongsHeader(name)
      ensures name in playlists ==>
        forall i :: 0 <= i < |playlists[name].songs| ==> lines[i + 1] == SongLine(playlists[name].songs[i])
    {
      if name !in playlists {
        return [NotFoundMessage];
      }
      var songs := playlists[name].songs;
      lines := [SongsHeader(name)];
      for i := 0 to |songs|
        invariant |lines| == i + 1 && lines[0] == SongsHeader(name)
        invariant forall j :: 0 <= j < i ==> lines[j + 1] == SongLine(songs[j])
      {
        lines := lines + [SongLine(songs[i])];
      }
    }
  }
}
