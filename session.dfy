/** The menu loop of `main`: one state, "awaiting a choice", and one
    transition per menu entry. Reading lines from the console is not
    modelled: each turn of the loop is given as an entry holding the choice
    and the lines that choice goes on to read, already trimmed. */
module Session {
  import opened Decimal
  import opened Playlists

  datatype MenuChoice = NewPlaylist | AddSongOption | ShowPlaylists | ShowSongs | SaveAndExit | Invalid

  /** One turn of the loop: the choice typed, the playlist name read by
      choices "1", "2" and "4", and the song read by choice "2". */
  datatype Entry = Entry(choice: string, name: string, song: Song)

  /** The menu's dispatch on the trimmed choice. */
  function Classify(choice: string): (o: MenuChoice)
    ensures o == NewPlaylist <==> choice == "1"
    ensures o == AddSongOption <==> choice == "2"
    ensures o == ShowPlaylists <==> choice == "3"
    ensures o == ShowSongs <==> choice == "4"
    ensures o == SaveAndExit <==> choice == "5"
    ensures o == Invalid <==> choice !in {"1", "2", "3", "4", "5"}
  {
    if choice == "1" then NewPlaylist
    else if choice == "2" then AddSongOption
    else if choice == "3" then ShowPlaylists
    else if choice == "4" then ShowSongs
    else if choice == "5" then SaveAndExit
    else Invalid
  }

  /** The table after one turn: only choices "1" and "2" change it. */
  function Step(t: Table, e: Entry): Table {
    match Classify(e.choice)
    case NewPlaylist => WithPlaylist(t, e.name)
    case AddSongOption => WithSong(t, e.name, e.song)
    case _ => t
  }

  /** One turn keeps the table's invariant. */
  lemma StepKeepsNames(t: Table, e: Entry)
    requires NamesMatchKeys(t)
    ensures NamesMatchKeys(Step(t, e))
  {
  }

  /** The table after the turns `es`, taken in order. */
  function Replay(t: Table, es: seq<Entry>): Table
    decreases |es|
  {
    if es == [] then t else Step(Replay(t, es[..|es| - 1]), es[|es| - 1])
  }

  /** The names choice "1" creates during the turns `es`. */
  function CreatedNames(es: seq<Entry>): set<string>
    decreases |es|
  {
    if es == [] then {}
    else
      var last := es[|es| - 1];
      CreatedNames(es[..|es| - 1]) + (if Classify(last.choice) == NewPlaylist then {last.name} else {})
  }

  ghost predicate Mutates(e: Entry) {
    Classify(e.choice) in {NewPlaylist, AddSongOption}
  }

  /** The table's invariant survives any run of the loop. */
  lemma {:induction false} ReplayKeepsNames(t: Table, es: seq<Entry>)
    requires NamesMatchKeys(t)
    ensures NamesMatchKeys(Replay(t, es))
    decreases |es|
  {
    if es != [] {
      ReplayKeepsNames(t, es[..|es| - 1]);
    }
  }

  /** Playlists are never removed: the names after a run are the names before
      it together with the names choice "1" was given. */
  lemma {:induction false} ReplayKeys(t: Table, es: seq<Entry>)
    ensures Replay(t, es).Keys == t.Keys + CreatedNames(es)
    decreases |es|
  {
    if es != [] {
      ReplayKeys(t, es[..|es| - 1]);
    }
  }

  /** Turns that only list, exit or are invalid leave the table as it was. */
  lemma {:induction false} ReplayQueriesOnly(t: Table, es: seq<Entry>)
    requires forall i :: 0 <= i < |es| ==> !Mutates(es[i])
    ensures Replay(t, es) == t
    decreases |es|
  {
    if es != [] {
      ReplayQueriesOnly(t, es[..|es| - 1]);
    }
  }

  /** Running the turns `a` and then the turns `b` is running `a + b`. */
  lemma {:induction false} ReplayAppend(t: Table, a: seq<Entry>, b: seq<Entry>)
    ensures Replay(Replay(t, a), b) == Replay(t, a + b)
    decreases |b|
  {
    if b == [] {
      assert a + b == a;
    } else {
      ReplayAppend(t, a, b[..|b| - 1]);
      assert (a + b)[..|a + b| - 1] == a + b[..|b| - 1];
      assert (a + b)[|a + b| - 1] == b[|b| - 1];
    }
  }

  /** Index of the first "5" in `es`, or `|es|` if there is none. */
  function FirstExit(es: seq<Entry>): (n: nat)
    ensures n <= |es|
    ensures forall i :: 0 <= i < n ==> Classify(es[i].choice) != SaveAndExit
    ensures n < |es| ==> Classify(es[n].choice) == SaveAndExit
    decreases |es|
  {
    if es == [] then 0
    else if Classify(es[0].choice) == SaveAndExit then 0
    else 1 + FirstExit(es[1..])
  }

  const SavedMessage := "Playlists saved!"
  const GoodbyeMessage := "Exiting... Goodbye!"
  const InvalidMessage := "Invalid option! Try again."
  const AvailableHeader := "Available playlists:"

  /** One turn of the loop on `manager`; returns the lines it prints and
      whether it ends the session. The save that choice "5" performs is not
      modelled. */
  method Turn(manager: PlaylistManager, e: Entry) returns (output: seq<string>, exit: bool)
    modifies manager
    ensures manager.playlists == Step(old(manager.playlists), e)
    ensures exit <==> Classify(e.choice) == SaveAndExit
    ensures old(manager.Valid()) ==> manager.Valid()
    ensures Classify(e.choice) == NewPlaylist ==> output == [CreatedMessage]
    ensures Classify(e.choice) == AddSongOption ==>
      |output| >= 2 && output[0] == AvailableHeader
      && output[|output| - 1] == (if e.name in old(manager.playlists) then SongAddedMessage else NotFoundMessage)
    ensures Classify(e.choice) == SaveAndExit ==> output == [SavedMessage, GoodbyeMessage]
    ensures Classify(e.choice) == Invalid ==> output == [InvalidMessage]
  {
    exit := false;
    match Classify(e.choice) {
    case NewPlaylist =>
      output := manager.AddPlaylist(e.name);
    case AddSongOption =>
      var available := manager.ListPlaylists();
      var status, added := manager.AddSong(e.name, e.song);
      output := [AvailableHeader] + available + added;
      assert output[|output| - 1] == added[0] == StatusMessage(status);
    case ShowPlaylists =>
      output := manager.ListPlaylists();
    case ShowSongs =>
      output := manager.ListSongs(e.name);
    case SaveAndExit =>
      output := [SavedMessage, GoodbyeMessage];
      exit := true;
    case Invalid =>
      output := [InvalidMessage];
    }
    if old(manager.Valid()) {
      StepKeepsNames(old(manager.playlists), e);
    }
  }

  /** The loop of `main` over the turns `es`: it stops after the first "5",
      or after the given turns. `taken` is how many turns ran. */
  method Run(manager: PlaylistManager, es: seq<Entry>) returns (output: seq<string>, taken: nat, exited: bool)
    modifies manager
    ensures exited <==> exists i :: 0 <= i < |es| && Classify(es[i].choice) == SaveAndExit
    ensures taken == if exited then FirstExit(es) + 1 else |es|
    ensures manager.playlists == Replay(old(manager.playlists), es[..taken])
    ensures old(manager.Valid()) ==> manager.Valid()
  {
    ghost var start := manager.playlists;
    output, taken, exited := [], 0, false;
    while taken < |es| && !exited
      invariant taken <= |es|
      invariant manager.playlists == Replay(start, es[..taken])
      invariant exited ==> taken == FirstExit(es) + 1
      invariant !exited ==> taken <= FirstExit(es)
      decreases |es| - taken
    {
      var lines, exit := Turn(manager, es[taken]);
      output := output + lines;
      assert es[..taken + 1][..taken] == es[..taken];
      taken, exited := taken + 1, exit;
    }
    if exited {
      assert Classify(es[FirstExit(es)].choice) == SaveAndExit;
    } else {
      assert taken == |es| == FirstExit(es);
    }
    if NamesMatchKeys(start) {
      ReplayKeepsNames(start, es[..taken]);
    }
  }

  /** The duration 180 prints as "180". */
  lemma DurationText180()
    ensures DecimalString(180) == "180"
  {
    assert DecimalString(18) == "18";
  }

  lemma RoadTripSongLine()
    ensures SongLine(Song("A", "B", "C", 180)) == "Title: A, Singer: B, Album: C, Duration: 180s"
  {
    DurationText180();
  }

  /** A session that creates "Road Trip", adds one song to it and lists it:
      the listing shows the header and exactly that song. */
  method RoadTrip() returns (lines: seq<string>)
    ensures lines == [
      "Songs in playlist Road Trip:",
      "Title: A, Singer: B, Album: C, Duration: 180s"]
  {
    var manager := new PlaylistManager();
    var created := manager.AddPlaylist("Road Trip");
    var song := Song("A", "B", "C", 180);
    var status, added := manager.AddSong("Road Trip", song);
    assert manager.playlists["Road Trip"].songs == [song];
    RoadTripSongLine();
    lines := manager.ListSongs("Road Trip");
    assert SongsHeader("Road Trip") == "Songs in playlist Road Trip:";
    assert lines[0] == "Songs in playlist Road Trip:";
    assert lines[1] == SongLine(manager.playlists["Road Trip"].songs[0]);
    assert lines == [lines[0], lines[1]];
  }

  /** Creating a playlist and then listing the playlists shows the new name
      on exactly one line, whatever the table held before. */
  method CreateThenList(manager: PlaylistManager, name: string) returns (lines: seq<string>)
    modifies manager
    ensures exists i :: 0 <= i < |lines| && lines[i] == PlaylistLine(name) &&
                        forall j :: 0 <= j < |lines| && j != i ==> lines[j] != PlaylistLine(name)
  {
    var created := manager.AddPlaylist(name);
    lines := manager.ListPlaylists();
    assert PlaylistLine(name) in lines;
    var i :| 0 <= i < |lines| && lines[i] == PlaylistLine(name);
  }
}
