/** `groupedSongs`: the loaded songs partitioned by release date for the song list, each
    date's songs in store order, the dates in order of first appearance. */
module Grouping {
  import opened JsObject
  import opened Songs

  const UNKNOWN_RELEASE_DATE: string := "Unknown Release Date"

  /** `song.release_date || "Unknown Release Date"`: a missing, null or empty date is falsy. */
  function DateKey(song: Song): string {
    match song.releaseDate
    case Some(date) => if date != "" then date else UNKNOWN_RELEASE_DATE
    case None => UNKNOWN_RELEASE_DATE
  }

  function DateKeys(songs: seq<Song>): (r: seq<string>)
    ensures |r| == |songs|
    ensures forall i | 0 <= i < |songs| :: r[i] == DateKey(songs[i])
  {
    seq(|songs|, i requires 0 <= i < |songs| => DateKey(songs[i]))
  }

  /** One step of the `reduce`: `if (!acc[date]) acc[date] = []; acc[date].push(song)`. */
  function AddToGroup(acc: Dict<seq<Song>>, song: Song): Dict<seq<Song>> {
    var date := DateKey(song);
    var group := if date in acc.vals then acc.vals[date] else [];
    Set(acc, date, group + [song])
  }

  /** The `reduce` over a prefix `songs` of the store's values, from `{}`. */
  function Grouped(songs: seq<Song>): Dict<seq<Song>> {
    if songs == [] then Empty() else AddToGroup(Grouped(songs[..|songs| - 1]), songs[|songs| - 1])
  }

  /** The songs of `songs` whose date key is `date`, in their order. */
  function SongsOn(songs: seq<Song>, date: string): seq<Song> {
    if songs == [] then []
    else
      var song := songs[|songs| - 1];
      SongsOn(songs[..|songs| - 1], date) + (if DateKey(song) == date then [song] else [])
  }

  /** The total number of songs in the groups of the keys `dates`. */
  function GroupSizes(dates: seq<string>, groups: map<string, seq<Song>>): nat {
    if dates == [] then 0
    else
      var date := dates[|dates| - 1];
      GroupSizes(dates[..|dates| - 1], groups) + (if date in groups then |groups[date]| else 0)
  }

  // ---------------------------------------------------------------------------------------

  /** A song lies in the songs of `date` exactly when it is one of `songs` dated `date`. */
  lemma {:induction false} SongsOnMembers(songs: seq<Song>, date: string)
    ensures forall song :: song in SongsOn(songs, date) <==> song in songs && DateKey(song) == date
  {
    if songs != [] {
      var init := songs[..|songs| - 1];
      SongsOnMembers(init, date);
      assert songs == init + [songs[|songs| - 1]];
    }
  }

  lemma {:induction false} SongsOnAbsent(songs: seq<Song>, date: string)
    requires date !in DateKeys(songs)
    ensures SongsOn(songs, date) == []
  {
    if songs != [] {
      var init := songs[..|songs| - 1];
      assert DateKeys(songs) == DateKeys(init) + [DateKey(songs[|songs| - 1])];
      SongsOnAbsent(init, date);
    }
  }

  /** The group object is well-formed and has one group per distinct date key, the dates in
      order of first appearance. */
  lemma {:induction false} GroupedKeys(songs: seq<Song>)
    ensures WellFormed(Grouped(songs))
    ensures Grouped(songs).keys == FirstOccurrences(DateKeys(songs))
    ensures forall date :: date in Grouped(songs).vals <==> date in DateKeys(songs)
  {
    if songs != [] {
      var init, song := songs[..|songs| - 1], songs[|songs| - 1];
      GroupedKeys(init);
      assert DateKeys(songs) == DateKeys(init) + [DateKey(song)];
      var acc := Grouped(init);
      var group := if DateKey(song) in acc.vals then acc.vals[DateKey(song)] else [];
      SetWellFormed(acc, DateKey(song), group + [song]);
    }
  }

  /** Each group holds exactly the songs of its date, in input order. */
  lemma {:induction false} GroupedValues(songs: seq<Song>)
    ensures forall date | date in Grouped(songs).vals :: Grouped(songs).vals[date] == SongsOn(songs, date)
  {
    if songs != [] {
      var init, song := songs[..|songs| - 1], songs[|songs| - 1];
      GroupedValues(init);
      GroupedKeys(init);
      var acc := Grouped(init);
      if DateKey(song) !in acc.vals {
        SongsOnAbsent(init, DateKey(song));
      }
    }
  }

  lemma {:induction false} GroupSizesFrame(dates: seq<string>, groups: map<string, seq<Song>>, date: string, group: seq<Song>)
    requires date !in dates
    ensures GroupSizes(dates, groups[date := group]) == GroupSizes(dates, groups)
  {
    if dates != [] {
      GroupSizesFrame(dates[..|dates| - 1], groups, date, group);
    }
  }

  lemma {:induction false} GroupSizesUpdate(dates: seq<string>, groups: map<string, seq<Song>>, date: string, group: seq<Song>)
    requires NoDup(dates) && date in dates && date in groups
    ensures GroupSizes(dates, groups[date := group]) == GroupSizes(dates, groups) - |groups[date]| + |group|
  {
    var init, last := dates[..|dates| - 1], dates[|dates| - 1];
    assert dates == init + [last];
    if last == date {
      assert date !in init;
      GroupSizesFrame(init, groups, date, group);
    } else {
      GroupSizesUpdate(init, groups, date, group);
    }
  }

  lemma GroupSizesAppend(dates: seq<string>, groups: map<string, seq<Song>>, date: string, group: seq<Song>)
    requires date !in dates
    ensures GroupSizes(dates + [date], groups[date := group]) == GroupSizes(dates, groups) + |group|
  {
    assert (dates + [date])[..|dates|] == dates;
    GroupSizesFrame(dates, groups, date, group);
  }

  /** Adding a song to a well-formed group object adds one to the group sizes. */
  lemma AddToGroupSize(acc: Dict<seq<Song>>, song: Song)
    requires WellFormed(acc)
    ensures GroupSizes(AddToGroup(acc, song).keys, AddToGroup(acc, song).vals) == GroupSizes(acc.keys, acc.vals) + 1
  {
    var date := DateKey(song);
    var r := AddToGroup(acc, song);
    if date in acc.vals {
      assert r == Dict(acc.keys, acc.vals[date := acc.vals[date] + [song]]);
      GroupSizesUpdate(acc.keys, acc.vals, date, acc.vals[date] + [song]);
    } else {
      assert date !in acc.keys;
      assert [] + [song] == [song];
      assert r == Dict(acc.keys + [date], acc.vals[date := [song]]);
      GroupSizesAppend(acc.keys, acc.vals, date, [song]);
    }
  }

  /** The group sizes add up to the number of songs grouped. */
  lemma {:induction false} GroupedSizes(songs: seq<Song>)
    ensures GroupSizes(Grouped(songs).keys, Grouped(songs).vals) == |songs|
  {
    if songs != [] {
      var init := songs[..|songs| - 1];
      GroupedSizes(init);
      GroupedKeys(init);
      AddToGroupSize(Grouped(init), songs[|songs| - 1]);
    }
  }

  /** Every song lies in the group of its own date key and in no other group. */
  lemma EachSongInOneGroup(songs: seq<Song>, i: nat)
    requires i < |songs|
    ensures DateKey(songs[i]) in Grouped(songs).vals
    ensures songs[i] in Grouped(songs).vals[DateKey(songs[i])]
    ensures forall date | date in Grouped(songs).vals && date != DateKey(songs[i]) ::
              songs[i] !in Grouped(songs).vals[date]
  {
    GroupedKeys(songs);
    GroupedValues(songs);
    forall date
      ensures songs[i] in SongsOn(songs, date) <==> DateKey(songs[i]) == date
    {
      SongsOnMembers(songs, date);
    }
  }

  /** The groups are listed by the first appearance of their date key. */
  lemma GroupOrder(songs: seq<Song>)
    ensures WellFormed(Grouped(songs))
    ensures forall date :: date in Grouped(songs).vals <==> date in DateKeys(songs)
    ensures forall i, j | 0 <= i < j < |Grouped(songs).keys| ::
              FirstIndex(DateKeys(songs), Grouped(songs).keys[i]) < FirstIndex(DateKeys(songs), Grouped(songs).keys[j])
  {
    GroupedKeys(songs);
    FirstOccurrencesSpec(DateKeys(songs));
  }

  /** Toggling a song's checkbox re-derives the same groups, under the same dates in the same
      order: only the toggled song's flag differs. */
  lemma ToggleKeepsGroups(store: Store, url: string)
    requires WellFormed(store) && url in store.vals
    ensures Toggle(store, url).Ok?
    ensures Grouped(Values(Toggle(store, url).value)).keys == Grouped(Values(store)).keys
  {
    var toggled := Toggle(store, url).value;
    ToggleValues(store, url);
    assert DateKeys(Values(toggled)) == DateKeys(Values(store));
    GroupedKeys(Values(toggled));
    GroupedKeys(Values(store));
  }

  // ---------------------------------------------------------------------------------------

  /** `groupedSongs`: the `reduce` over `Object.values(songs)`, pushing onto per-date arrays. */
  method GroupedSongs(songs: Store) returns (groups: Dict<seq<Song>>)
    ensures groups == Grouped(Values(songs))
    ensures WellFormed(groups)
    ensures forall date :: date in groups.vals <==> date in DateKeys(Values(songs))
    ensures forall date | date in groups.vals :: groups.vals[date] == SongsOn(Values(songs), date)
    ensures GroupSizes(groups.keys, groups.vals) == |Values(songs)|
  {
    var list := Values(songs);
    groups := Empty();
    var i := 0;
    while i < |list|
      invariant 0 <= i <= |list|
      invariant groups == Grouped(list[..i])
    {
      var song := list[i];
      var date := DateKey(song);
      assert list[..i + 1][..i] == list[..i];
      assert Grouped(list[..i + 1]) == AddToGroup(groups, song);
      if date !in groups.vals {
        groups := Set(groups, date, []);
      }
      groups := Set(groups, date, groups.vals[date] + [song]);
      i := i + 1;
    }
    assert list[..i] == list;
    GroupedKeys(list);
    GroupedValues(list);
    GroupedSizes(list);
  }
}
