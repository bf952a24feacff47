/** The line-distribution total that `initializeState` computes once on load: every song's
    `line_distribution` re-keyed from artist name to color through the song's own artist list,
    summed per color over the colors of the group roster, then re-keyed to the roster's names. */
module Aggregation {
  import opened JsObject
  import opened Songs

  /** The chart record `currSong` is set to. */
  datatype Aggregate = Aggregate(lineDistribution: Dict<int>, artists: seq<Artist>)

  /** `Object.fromEntries(artistsArray.map(({ name, color }) => [color, name]))`. */
  function ColorMap(roster: seq<Artist>): Dict<string> {
    FromEntries(seq(|roster|, i requires 0 <= i < |roster| => (roster[i].color, roster[i].name)))
  }

  /** `Object.fromEntries(song.artists.map(({ name, color }) => [name, color]))`. */
  function NameToColor(song: Song): Dict<string> {
    FromEntries(seq(|song.artists|, i requires 0 <= i < |song.artists| => (song.artists[i].name, song.artists[i].color)))
  }

  /** `nameToColor[artistName]`: the color a song's own artist list gives a name, if any. */
  function ArtistColor(song: Song, name: string): Option<string> {
    Get(NameToColor(song), name)
  }

  /** A name has a color exactly when the song lists an artist so named, and then it is the
      color of the last such artist. */
  lemma ArtistColorSpec(song: Song, name: string)
    ensures ArtistColor(song, name).Some? <==> exists i | 0 <= i < |song.artists| :: song.artists[i].name == name
    ensures ArtistColor(song, name).Some? ==> exists i | 0 <= i < |song.artists| ::
              && song.artists[i] == Artist(name, ArtistColor(song, name).value)
              && forall j | i < j < |song.artists| :: song.artists[j].name != name
  {
    var es := seq(|song.artists|, i requires 0 <= i < |song.artists| => (song.artists[i].name, song.artists[i].color));
    var names := KeysOf(es);
    assert forall i | 0 <= i < |song.artists| :: song.artists[i].name == names[i];
    if name in names {
      var i := LastIndex(names, name);
      FromEntriesValue(es, name);
      assert song.artists[i] == Artist(name, ArtistColor(song, name).value);
      forall j | i < j < |song.artists|
        ensures song.artists[j].name != name
      {
        assert names[j] == names[i + 1..][j - i - 1];
      }
    } else {
      FromEntriesMissing(es, name);
    }
  }

  /** `(acc[color] || 0)`. */
  function Or0(acc: Dict<int>, color: string): int {
    if color in acc.vals then acc.vals[color] else 0
  }

  /** One step of the `forEach`: `if (color in colorMap) acc[color] = (acc[color] || 0) + value`. */
  function Credit(acc: Dict<int>, colorMap: Dict<string>, color: string, value: int): Dict<int> {
    if color in colorMap.vals then Set(acc, color, Or0(acc, color) + value) else acc
  }

  /** The `forEach` over a prefix `es` of a song's line-distribution entries. A name missing from
      the song's artists looks up `undefined`, which `in` tests as the key "undefined". */
  function AddEntries(acc: Dict<int>, colorMap: Dict<string>, nameToColor: Dict<string>, es: seq<(string, int)>): Dict<int>
    decreases |es|
  {
    if es == [] then acc
    else
      var (artistName, value) := es[|es| - 1];
      Credit(AddEntries(acc, colorMap, nameToColor, es[..|es| - 1]), colorMap, KeyOf(Get(nameToColor, artistName)), value)
  }

  /** The `reduce` over a prefix `songs` of the loaded songs, from `{}`. */
  function Totals(colorMap: Dict<string>, songs: seq<Song>): Dict<int> {
    if songs == [] then Empty()
    else
      var song := songs[|songs| - 1];
      AddEntries(Totals(colorMap, songs[..|songs| - 1]), colorMap, NameToColor(song), Entries(song.lineDistribution))
  }

  /** `colorMap[color]` as a key: a roster name. */
  function Rekey(totals: Dict<int>, colorMap: Dict<string>): Dict<int> {
    FromEntries(Renamed(totals, colorMap))
  }

  /** `Object.entries(totalLineDistribution).map(([color, value]) => [colorMap[color], value])`. */
  function Renamed(totals: Dict<int>, colorMap: Dict<string>): seq<(string, int)> {
    var es := Entries(totals);
    seq(|es|, i requires 0 <= i < |es| => (KeyOf(Get(colorMap, es[i].0)), es[i].1))
  }

  // ---------------------------------------------------------------------------------------
  // The meaning of the totals: per roster color, the sum of the values of the names that the
  // song's own artist list gives that color; the key "undefined" also collects the values of
  // the names that the list does not know.

  function EntriesShare(nameToColor: Dict<string>, es: seq<(string, int)>, color: string): int {
    if es == [] then 0
    else
      var (artistName, value) := es[|es| - 1];
      EntriesShare(nameToColor, es[..|es| - 1], color) + (if Get(nameToColor, artistName) == Some(color) then value else 0)
  }

  /** What one song contributes to `color`. */
  function SongShare(song: Song, color: string): int {
    EntriesShare(NameToColor(song), Entries(song.lineDistribution), color)
  }

  /** What all `songs` contribute to `color`. */
  function ColorTotal(songs: seq<Song>, color: string): int {
    if songs == [] then 0 else ColorTotal(songs[..|songs| - 1], color) + SongShare(songs[|songs| - 1], color)
  }

  /** The values of the names of `es` that have no color: they are filed under "undefined". */
  function UnknownShare(nameToColor: Dict<string>, es: seq<(string, int)>): int {
    if es == [] then 0
    else
      var (artistName, value) := es[|es| - 1];
      UnknownShare(nameToColor, es[..|es| - 1]) + (if Get(nameToColor, artistName).None? then value else 0)
  }

  /** What one song gives names missing from its own artist list. */
  function SongUnknown(song: Song): int {
    UnknownShare(NameToColor(song), Entries(song.lineDistribution))
  }

  /** What all `songs` give names missing from their own artist lists. */
  function UnknownTotal(songs: seq<Song>): int {
    if songs == [] then 0 else UnknownTotal(songs[..|songs| - 1]) + SongUnknown(songs[|songs| - 1])
  }

  /** What the code as written credits to a roster color over all `songs`: what their artist
      lists give that color and, for the color "undefined", what they give unknown names. */
  function CreditedTotal(songs: seq<Song>, color: string): int {
    ColorTotal(songs, color) + (if color == UNDEFINED_KEY then UnknownTotal(songs) else 0)
  }

  /** Some entry of `es` is credited to `color` by the code as written. */
  predicate CreditsEntries(nameToColor: Dict<string>, es: seq<(string, int)>, color: string) {
    exists j | 0 <= j < |es| :: KeyOf(Get(nameToColor, es[j].0)) == color
  }

  /** Some line-distribution entry of `song` is credited to `color` by the code as written. */
  predicate Credits(song: Song, color: string) {
    CreditsEntries(NameToColor(song), Entries(song.lineDistribution), color)
  }

  // ---------------------------------------------------------------------------------------

  /** The per-song `forEach` adds to a roster color the values of the names the song gives that
      color, and to the color "undefined" also those of the names it does not know; other
      colors gain nothing. */
  lemma {:induction false} AddEntriesValue(acc: Dict<int>, colorMap: Dict<string>, nameToColor: Dict<string>, es: seq<(string, int)>, color: string)
    ensures Or0(AddEntries(acc, colorMap, nameToColor, es), color) ==
            Or0(acc, color) +
              (if color in colorMap.vals
               then EntriesShare(nameToColor, es, color) + (if color == UNDEFINED_KEY then UnknownShare(nameToColor, es) else 0)
               else 0)
  {
    if es != [] {
      AddEntriesValue(acc, colorMap, nameToColor, es[..|es| - 1], color);
    }
  }

  lemma CreditKeys(acc: Dict<int>, colorMap: Dict<string>, credited: string, value: int, color: string)
    ensures color in Credit(acc, colorMap, credited, value).vals <==>
            color in acc.vals || (color in colorMap.vals && credited == color)
  {
  }

  lemma {:induction false} AddEntriesKeys(acc: Dict<int>, colorMap: Dict<string>, nameToColor: Dict<string>, es: seq<(string, int)>, color: string)
    ensures color in AddEntries(acc, colorMap, nameToColor, es).vals <==>
            color in acc.vals || (color in colorMap.vals && CreditsEntries(nameToColor, es, color))
  {
    if es != [] {
      var init, last := es[..|es| - 1], es[|es| - 1];
      var credited := KeyOf(Get(nameToColor, last.0));
      AddEntriesKeys(acc, colorMap, nameToColor, init, color);
      CreditKeys(AddEntries(acc, colorMap, nameToColor, init), colorMap, credited, last.1, color);
      assert forall j | 0 <= j < |init| :: es[j] == init[j];
    }
  }

  /** The fold as written gives a roster color exactly what the songs' own artist lists credit
      to it, and the color "undefined" also the values of the names those lists do not know;
      any other color gets nothing. */
  lemma {:induction false} TotalsValue(colorMap: Dict<string>, songs: seq<Song>, color: string)
    ensures Or0(Totals(colorMap, songs), color) == if color in colorMap.vals then CreditedTotal(songs, color) else 0
  {
    if songs != [] {
      var song := songs[|songs| - 1];
      TotalsValue(colorMap, songs[..|songs| - 1], color);
      AddEntriesValue(Totals(colorMap, songs[..|songs| - 1]), colorMap, NameToColor(song), Entries(song.lineDistribution), color);
    }
  }

  /** One more song adds to the totals' keys the roster colors that song credits. */
  lemma TotalsStepKeys(colorMap: Dict<string>, songs: seq<Song>, color: string)
    requires songs != []
    ensures color in Totals(colorMap, songs).vals <==>
            color in Totals(colorMap, songs[..|songs| - 1]).vals || (color in colorMap.vals && Credits(songs[|songs| - 1], color))
  {
    var song := songs[|songs| - 1];
    AddEntriesKeys(Totals(colorMap, songs[..|songs| - 1]), colorMap, NameToColor(song), Entries(song.lineDistribution), color);
  }

  /** Some song of `songs` credits `color`, as a fold from the end. */
  predicate AnyCredits(songs: seq<Song>, color: string) {
    songs != [] && (AnyCredits(songs[..|songs| - 1], color) || Credits(songs[|songs| - 1], color))
  }

  /** The fold form agrees with "some song credits the color". */
  lemma {:induction false} AnyCreditsSpec(songs: seq<Song>, color: string)
    ensures AnyCredits(songs, color) <==> exists i | 0 <= i < |songs| :: Credits(songs[i], color)
  {
    if songs != [] {
      var init := songs[..|songs| - 1];
      AnyCreditsSpec(init, color);
      if exists i | 0 <= i < |songs| :: Credits(songs[i], color) {
        var i :| 0 <= i < |songs| && Credits(songs[i], color);
        if i < |init| {
          assert Credits(init[i], color);
        }
      }
      if exists i | 0 <= i < |init| :: Credits(init[i], color) {
        var i :| 0 <= i < |init| && Credits(init[i], color);
        assert Credits(songs[i], color);
      }
    }
  }

  /** The totals have a key for a color exactly when it is a roster color some song credits,
      stated song by song. */
  lemma {:induction false} TotalsCredited(colorMap: Dict<string>, songs: seq<Song>, color: string)
    ensures color in Totals(colorMap, songs).vals <==> color in colorMap.vals && AnyCredits(songs, color)
  {
    if songs != [] {
      TotalsCredited(colorMap, songs[..|songs| - 1], color);
      TotalsStepKeys(colorMap, songs, color);
    }
  }

  /** The totals have a key for a color exactly when it is a roster color that some song credits. */
  lemma TotalsKeys(colorMap: Dict<string>, songs: seq<Song>, color: string)
    ensures color in Totals(colorMap, songs).vals <==>
            color in colorMap.vals && exists i | 0 <= i < |songs| :: Credits(songs[i], color)
  {
    TotalsCredited(colorMap, songs, color);
    AnyCreditsSpec(songs, color);
  }

  lemma {:induction false} AddEntriesWellFormed(acc: Dict<int>, colorMap: Dict<string>, nameToColor: Dict<string>, es: seq<(string, int)>)
    requires WellFormed(acc)
    ensures WellFormed(AddEntries(acc, colorMap, nameToColor, es))
  {
    if es != [] {
      var acc' := AddEntries(acc, colorMap, nameToColor, es[..|es| - 1]);
      AddEntriesWellFormed(acc, colorMap, nameToColor, es[..|es| - 1]);
      var color := KeyOf(Get(nameToColor, es[|es| - 1].0));
      SetWellFormed(acc', color, Or0(acc', color) + es[|es| - 1].1);
    }
  }

  /** The totals object is a well-formed object. */
  lemma {:induction false} TotalsWellFormed(colorMap: Dict<string>, songs: seq<Song>)
    ensures WellFormed(Totals(colorMap, songs))
  {
    if songs != [] {
      var song := songs[|songs| - 1];
      TotalsWellFormed(colorMap, songs[..|songs| - 1]);
      AddEntriesWellFormed(Totals(colorMap, songs[..|songs| - 1]), colorMap, NameToColor(song), Entries(song.lineDistribution));
    }
  }

  /** Every key of the totals is a roster color. */
  lemma TotalsWithinRoster(colorMap: Dict<string>, songs: seq<Song>)
    ensures forall color | color in Totals(colorMap, songs).vals :: color in colorMap.vals
  {
    forall color | color in Totals(colorMap, songs).vals
      ensures color in colorMap.vals
    {
      TotalsKeys(colorMap, songs, color);
    }
  }

  /** As written, a line-distribution name missing from the song's artist list reaches the
      totals after all when the roster has an artist whose color is the text "undefined". */
  lemma UnknownNameCountsAsUndefined(colorMap: Dict<string>, song: Song, artistName: string)
    requires UNDEFINED_KEY in colorMap.vals
    requires song.lineDistribution.keys == [artistName] && artistName in song.lineDistribution.vals
    requires forall i | 0 <= i < |song.artists| :: song.artists[i].name != artistName
    ensures Totals(colorMap, [song]).vals == map[UNDEFINED_KEY := song.lineDistribution.vals[artistName]]
  {
    var es := Entries(song.lineDistribution);
    EntriesOfSpec(song.lineDistribution.keys, song.lineDistribution.vals);
    assert es == [(artistName, song.lineDistribution.vals[artistName])];
    assert ArtistColor(song, artistName) == None by {
      ArtistColorSpec(song, artistName);
    }
    assert [song][..0] == [] && es[..0] == [];
    assert Totals(colorMap, [song]) == AddEntries(Empty(), colorMap, NameToColor(song), es);
  }

  // ---------------------------------------------------------------------------------------

  /** The per-song fold adds no key other than roster colors. */
  lemma AddEntriesWithin(acc: Dict<int>, colorMap: Dict<string>, nameToColor: Dict<string>, es: seq<(string, int)>)
    ensures forall color | color in AddEntries(acc, colorMap, nameToColor, es).vals :: color in acc.vals || color in colorMap.vals
  {
    forall color | color in AddEntries(acc, colorMap, nameToColor, es).vals
      ensures color in acc.vals || color in colorMap.vals
    {
      AddEntriesKeys(acc, colorMap, nameToColor, es, color);
    }
  }

  /** The `forEach` over a song's line-distribution entries, updating the accumulator in place. */
  method CreditEntries(acc0: Dict<int>, colorMap: Dict<string>, nameToColor: Dict<string>, entries: seq<(string, int)>)
    returns (acc: Dict<int>)
    ensures acc == AddEntries(acc0, colorMap, nameToColor, entries)
    ensures forall color | color in acc.vals :: color in acc0.vals || color in colorMap.vals
  {
    acc := acc0;
    var j := 0;
    while j < |entries|
      invariant 0 <= j <= |entries|
      invariant acc == AddEntries(acc0, colorMap, nameToColor, entries[..j])
    {
      var (artistName, value) := entries[j];
      var color := KeyOf(Get(nameToColor, artistName));
      assert entries[..j + 1][..j] == entries[..j];
      assert AddEntries(acc0, colorMap, nameToColor, entries[..j + 1]) == Credit(acc, colorMap, color, value);
      if color in colorMap.vals {
        acc := Set(acc, color, Or0(acc, color) + value);
      }
      j := j + 1;
    }
    assert entries[..j] == entries;
    AddEntriesWithin(acc0, colorMap, nameToColor, entries);
  }

  /** The `reduce` callback for one song: the song's name-to-color table, then the `forEach`
      over its line-distribution entries. */
  method AddSong(acc0: Dict<int>, colorMap: Dict<string>, song: Song) returns (acc: Dict<int>)
    ensures acc == AddEntries(acc0, colorMap, NameToColor(song), Entries(song.lineDistribution))
    ensures forall color | color in acc.vals :: color in acc0.vals || color in colorMap.vals
  {
    var nameToColor := NameToColor(song);
    acc := CreditEntries(acc0, colorMap, nameToColor, Entries(song.lineDistribution));
  }

  /** The whole `reduce` of `initializeState` over the loaded songs, from `{}`: its result keys
      only roster colors; each roster color gets what the songs' own artist lists credit to it,
      and the color "undefined" also the values of the names those lists do not know. */
  method TotalLineDistribution(songs: seq<Song>, colorMap: Dict<string>) returns (acc: Dict<int>)
    ensures acc == Totals(colorMap, songs)
    ensures forall color | color in acc.vals :: color in colorMap.vals
    ensures forall color | color in colorMap.vals ::
              Or0(acc, color) == CreditedTotal(songs, color)
  {
    acc := Empty();
    var i := 0;
    while i < |songs|
      invariant 0 <= i <= |songs|
      invariant acc == Totals(colorMap, songs[..i])
    {
      acc := AddSong(acc, colorMap, songs[i]);
      assert songs[..i + 1][..i] == songs[..i];
      i := i + 1;
    }
    assert songs[..i] == songs;
    TotalsWithinRoster(colorMap, songs);
    forall color | color in colorMap.vals
      ensures Or0(acc, color) == CreditedTotal(songs, color)
    {
      TotalsValue(colorMap, songs, color);
    }
  }

  // ---------------------------------------------------------------------------------------
  // The roster tables and the final re-keying from color to name.

  /** No two roster artists share a color. */
  predicate DistinctColors(roster: seq<Artist>) {
    forall i, j | 0 <= i < j < |roster| :: roster[i].color != roster[j].color
  }

  /** No two roster artists share a name. */
  predicate DistinctNames(roster: seq<Artist>) {
    forall i, j | 0 <= i < j < |roster| :: roster[i].name != roster[j].name
  }

  predicate DistinctRoster(roster: seq<Artist>) {
    DistinctColors(roster) && DistinctNames(roster)
  }

  /** The roster's color table has exactly the roster's colors, each giving the name of an
      artist with that color. */
  lemma ColorMapSpec(roster: seq<Artist>)
    ensures WellFormed(ColorMap(roster))
    ensures forall c :: c in ColorMap(roster).vals <==> exists i | 0 <= i < |roster| :: roster[i].color == c
    ensures forall c | c in ColorMap(roster).vals :: exists i | 0 <= i < |roster| ::
              roster[i].color == c && ColorMap(roster).vals[c] == roster[i].name
  {
    var es := seq(|roster|, i requires 0 <= i < |roster| => (roster[i].color, roster[i].name));
    var colors := KeysOf(es);
    FromEntriesKeys(es);
    assert forall i | 0 <= i < |roster| :: colors[i] == roster[i].color;
    forall c | c in colors
      ensures exists i | 0 <= i < |roster| :: roster[i].color == c && ColorMap(roster).vals[c] == roster[i].name
    {
      FromEntriesValue(es, c);
      var i := LastIndex(colors, c);
      assert roster[i].color == c;
    }
  }

  /** Each artist's color is in the table; with distinct colors it names that artist. */
  lemma ColorMapOfArtist(roster: seq<Artist>, a: nat)
    requires a < |roster|
    ensures roster[a].color in ColorMap(roster).vals
    ensures DistinctColors(roster) ==> ColorMap(roster).vals[roster[a].color] == roster[a].name
  {
    ColorMapSpec(roster);
    var c := roster[a].color;
    var b :| 0 <= b < |roster| && roster[b].color == c && ColorMap(roster).vals[c] == roster[b].name;
    if DistinctColors(roster) {
      assert b == a;
    }
  }

  /** With distinct names, a roster color is the only color whose table entry is that artist's name. */
  lemma ColorMapInjective(roster: seq<Artist>, c: string, a: nat)
    requires DistinctNames(roster) && a < |roster|
    requires c in ColorMap(roster).vals && ColorMap(roster).vals[c] == roster[a].name
    ensures c == roster[a].color
  {
    ColorMapSpec(roster);
    var b :| 0 <= b < |roster| && roster[b].color == c && ColorMap(roster).vals[c] == roster[b].name;
    assert roster[b].name == roster[a].name;
  }

  /** The renamed entries pair each roster color of the totals, in key order, with its name. */
  lemma RenamedSpec(totals: Dict<int>, colorMap: Dict<string>)
    requires WellFormed(totals)
    requires forall c | c in totals.vals :: c in colorMap.vals
    ensures |Renamed(totals, colorMap)| == |totals.keys|
    ensures forall k | 0 <= k < |totals.keys| ::
              Renamed(totals, colorMap)[k] == (colorMap.vals[totals.keys[k]], totals.vals[totals.keys[k]])
  {
    EntriesOfSpec(totals.keys, totals.vals);
  }

  /** Re-keying the totals by the roster's color table names only roster artists. */
  lemma RekeyNames(totals: Dict<int>, roster: seq<Artist>)
    requires WellFormed(totals)
    requires forall c | c in totals.vals :: c in ColorMap(roster).vals
    ensures forall n | n in Rekey(totals, ColorMap(roster)).vals :: exists i | 0 <= i < |roster| :: roster[i].name == n
  {
    var named := Renamed(totals, ColorMap(roster));
    RenamedSpec(totals, ColorMap(roster));
    FromEntriesKeys(named);
    ColorMapSpec(roster);
    forall n | n in Rekey(totals, ColorMap(roster)).vals
      ensures exists i | 0 <= i < |roster| :: roster[i].name == n
    {
      var k :| 0 <= k < |named| && KeysOf(named)[k] == n;
      assert totals.keys[k] in totals.vals;
    }
  }

  /** With a roster of distinct colors and names, the chart's entry for artist `a` is there
      exactly when the totals have the artist's color, and holds that color's total. */
  lemma RekeyArtist(totals: Dict<int>, roster: seq<Artist>, a: nat)
    requires WellFormed(totals) && DistinctRoster(roster) && a < |roster|
    requires forall c | c in totals.vals :: c in ColorMap(roster).vals
    ensures roster[a].name in Rekey(totals, ColorMap(roster)).vals <==> roster[a].color in totals.vals
    ensures roster[a].color in totals.vals ==>
              Rekey(totals, ColorMap(roster)).vals[roster[a].name] == totals.vals[roster[a].color]
  {
    var colorMap := ColorMap(roster);
    var named := Renamed(totals, colorMap);
    var names := KeysOf(named);
    var name := roster[a].name;
    RenamedSpec(totals, colorMap);
    ColorMapOfArtist(roster, a);
    if roster[a].color in totals.vals {
      var k :| 0 <= k < |totals.keys| && totals.keys[k] == roster[a].color;
      assert names[k] == name;
    }
    if name in names {
      var k :| 0 <= k < |names| && names[k] == name;
      ColorMapInjective(roster, totals.keys[k], a);
      FromEntriesValue(named, name);
      var last := LastIndex(names, name);
      ColorMapInjective(roster, totals.keys[last], a);
    } else {
      FromEntriesMissing(named, name);
    }
  }

  /** Loading no songs gives a chart with an empty distribution, not a missing chart. */
  lemma EmptyLoadGivesEmptyChart(roster: seq<Artist>)
    ensures Rekey(Totals(ColorMap(roster), Values(Load([]))), ColorMap(roster)) == Empty()
  {
    assert Values(Load([])) == [];
    assert Entries(Totals(ColorMap(roster), [])) == [];
  }

  // ---------------------------------------------------------------------------------------

  /** `initializeState(songsArray, artistsArray)`: the new `songs`, `artists` and `currSong`
      state. The chart names only roster artists, and no songs give an empty chart. With a
      roster of distinct colors and names, an artist appears in the chart exactly when some
      loaded song credits the artist's color, and then with everything the loaded songs credit
      to that color. */
  method InitializeState(songsArray: seq<Song>, artistsArray: seq<Artist>)
    returns (songs: Store, artists: seq<Artist>, currSong: Aggregate)
    ensures songs == Load(songsArray)
    ensures artists == artistsArray && currSong.artists == artistsArray
    ensures forall n | n in currSong.lineDistribution.vals ::
              exists i | 0 <= i < |artistsArray| :: artistsArray[i].name == n
    ensures songsArray == [] ==> currSong.lineDistribution == Empty()
    ensures DistinctRoster(artistsArray) ==>
              forall i | 0 <= i < |artistsArray| ::
                && (artistsArray[i].name in currSong.lineDistribution.vals <==>
                      exists k | 0 <= k < |Values(songs)| :: Credits(Values(songs)[k], artistsArray[i].color))
                && (artistsArray[i].name in currSong.lineDistribution.vals ==>
                      currSong.lineDistribution.vals[artistsArray[i].name] == CreditedTotal(Values(songs), artistsArray[i].color))
  {
    songs := Load(songsArray);
    artists := artistsArray;
    var colorMap := ColorMap(artistsArray);
    var totals := TotalLineDistribution(Values(songs), colorMap);
    currSong := Aggregate(Rekey(totals, colorMap), artistsArray);

    TotalsWellFormed(colorMap, Values(songs));
    RekeyNames(totals, artistsArray);
    if songsArray == [] {
      EmptyLoadGivesEmptyChart(artistsArray);
    }
    if DistinctRoster(artistsArray) {
      forall i | 0 <= i < |artistsArray|
        ensures artistsArray[i].name in currSong.lineDistribution.vals <==>
                  exists k | 0 <= k < |Values(songs)| :: Credits(Values(songs)[k], artistsArray[i].color)
        ensures artistsArray[i].name in currSong.lineDistribution.vals ==>
                  currSong.lineDistribution.vals[artistsArray[i].name] == CreditedTotal(Values(songs), artistsArray[i].color)
      {
        ColorMapOfArtist(artistsArray, i);
        RekeyArtist(totals, artistsArray, i);
        TotalsKeys(colorMap, Values(songs), artistsArray[i].color);
      }
    }
  }
}
