/** The songs of a group page and the selection store keyed by song url:
    loading it (`songsMap` in `initializeState`) and toggling one checkbox (`handleChange`). */
module Songs {
  import opened JsObject

  datatype Artist = Artist(name: string, color: string)

  /** A song record as the page receives it, plus the `checked` flag the page layers on top.
      `releaseDate` is `None` when the record has no (or a null) `release_date`. */
  datatype Song = Song(
    url: string,
    name: string,
    releaseDate: Option<string>,
    artists: seq<Artist>,
    lineDistribution: Dict<int>,
    checked: bool)

  /** The `songs` state: song url -> song, in load order. */
  type Store = Dict<Song>

  datatype Result<T, E> = Ok(value: T) | Err(error: E)

  /** Reading `.checked` of `prev[songUrl]` when that entry is `undefined` throws. */
  datatype ToggleError = TypeError(url: string)

  function Urls(songs: seq<Song>): (r: seq<string>)
    ensures |r| == |songs|
    ensures forall i | 0 <= i < |songs| :: r[i] == songs[i].url
  {
    seq(|songs|, i requires 0 <= i < |songs| => songs[i].url)
  }

  /** Every entry of the store is filed under its own url. */
  predicate KeyedByUrl(store: Store) {
    forall u | u in store.vals :: store.vals[u].url == u
  }

  /** `Object.fromEntries(songsArray.map(song => [song.song_url, { ...song, checked: true }]))`. */
  function Load(songs: seq<Song>): Store {
    FromEntries(seq(|songs|, i requires 0 <= i < |songs| => (songs[i].url, songs[i].(checked := true))))
  }

  /** The loaded store has one entry per distinct url of the input, urls that first appear
      earlier listed first; each entry is the last input song with that url, checked and
      otherwise as given. */
  lemma LoadSpec(songs: seq<Song>)
    ensures WellFormed(Load(songs))
    ensures forall u :: u in Load(songs).vals <==> u in Urls(songs)
    ensures forall i, j | 0 <= i < j < |Load(songs).keys| ::
              FirstIndex(Urls(songs), Load(songs).keys[i]) < FirstIndex(Urls(songs), Load(songs).keys[j])
    ensures forall u | u in Load(songs).vals ::
              Load(songs).vals[u] == songs[LastIndex(Urls(songs), u)].(checked := true)
    ensures KeyedByUrl(Load(songs))
    ensures forall u | u in Load(songs).vals :: Load(songs).vals[u].checked
  {
    var es := seq(|songs|, i requires 0 <= i < |songs| => (songs[i].url, songs[i].(checked := true)));
    assert KeysOf(es) == Urls(songs);
    FromEntriesKeys(es);
    FirstOccurrencesSpec(Urls(songs));
    forall u | u in Urls(songs)
      ensures Load(songs).vals[u] == songs[LastIndex(Urls(songs), u)].(checked := true)
    {
      FromEntriesValue(es, u);
    }
  }

  /** `{ ...prev, [songUrl]: { ...prev[songUrl], checked: !prev[songUrl].checked } }`. */
  function Toggle(store: Store, url: string): (r: Result<Store, ToggleError>)
    ensures r.Ok? <==> url in store.vals
    ensures r.Err? ==> r.error == TypeError(url)
    ensures r.Ok? && WellFormed(store) ==> r.value.keys == store.keys
    ensures r.Ok? ==> r.value.vals.Keys == store.vals.Keys
    ensures r.Ok? ==> r.value.vals[url].checked == !store.vals[url].checked
    ensures r.Ok? ==> r.value.vals[url] == store.vals[url].(checked := r.value.vals[url].checked)
    ensures r.Ok? ==> forall u | u in store.vals && u != url :: r.value.vals[u] == store.vals[u]
  {
    if url in store.vals then
      var song := store.vals[url];
      Ok(Set(store, url, song.(checked := !song.checked)))
    else
      Err(TypeError(url))
  }

  /** Toggling the same url twice gives back the store it started from. */
  lemma ToggleTwice(store: Store, url: string)
    requires WellFormed(store) && url in store.vals
    ensures Toggle(store, url).Ok?
    ensures Toggle(Toggle(store, url).value, url) == Ok(store)
  {
    var once := Toggle(store, url).value;
    var twice := Toggle(once, url).value;
    assert twice.vals == store.vals;
  }

  /** Toggles of two urls can be applied in either order. */
  lemma ToggleCommutes(store: Store, u: string, v: string)
    requires WellFormed(store) && u in store.vals && v in store.vals
    ensures Toggle(Toggle(store, u).value, v).Ok? && Toggle(Toggle(store, v).value, u).Ok?
    ensures Toggle(Toggle(store, u).value, v) == Toggle(Toggle(store, v).value, u)
  {
    var uv := Toggle(Toggle(store, u).value, v).value;
    var vu := Toggle(Toggle(store, v).value, u).value;
    assert uv.vals == vu.vals;
  }

  /** A toggle never files a song under another url. */
  lemma ToggleKeepsKeyedByUrl(store: Store, url: string)
    requires KeyedByUrl(store) && url in store.vals
    ensures Toggle(store, url).Ok? && KeyedByUrl(Toggle(store, url).value)
  {
  }

  /** A toggle keeps a well-formed store well-formed, leaves the songs in their order and
      changes only the one song's flag. */
  lemma ToggleValues(store: Store, url: string)
    requires WellFormed(store) && url in store.vals
    ensures Toggle(store, url).Ok? && WellFormed(Toggle(store, url).value)
    ensures |Values(Toggle(store, url).value)| == |Values(store)| == |store.keys|
    ensures forall i | 0 <= i < |store.keys| ::
              Values(Toggle(store, url).value)[i] ==
                if store.keys[i] == url
                then Values(store)[i].(checked := !Values(store)[i].checked)
                else Values(store)[i]
  {
    var toggled := Toggle(store, url).value;
    ValuesOfSpec(store.keys, store.vals);
    ValuesOfSpec(toggled.keys, toggled.vals);
  }
}
