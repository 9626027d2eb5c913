/**
 * Values exchanged with the Spotify wrapper of `spotipy_framework.py`: the dynamically typed
 * arguments its `_check_*` validators normalise, the records the catalogue API answers with,
 * the reshaped records the wrapper hands back, and the pure definitions that say what the
 * wrapper's loops compute (grouping, filtering, enumerating and batching).
 */
module SpotifyValues {
  import opened Outcomes

  // ---------------------------------------------------------------------------
  // Dynamically typed arguments and their validators
  // ---------------------------------------------------------------------------

  /** A Python argument as the validators see it: `None`, a `str`, a `list`, or anything else. */
  datatype Dyn = DNone | DStr(s: string) | DList(items: seq<string>) | DOther

  /** `_check_country`: no country means the United States; otherwise a two-character string. */
  function CheckCountry(country: Dyn): (r: Result<string>)
    ensures r.Ok? <==> country.DNone? || (country.DStr? && |country.s| == 2)
    ensures r.Err? ==> r.error == TypeError
    ensures r.Ok? ==> |r.value| == 2
    ensures country.DNone? ==> r == Ok("US")
    ensures country.DStr? && r.Ok? ==> r.value == country.s
  {
    match country
    case DNone => Ok("US")
    case DStr(s) => if |s| == 2 then Ok(s) else Err(TypeError)
    case _ => Err(TypeError)
  }

  /**
   * `_check_album_ids`, `_check_artist_ids`, `_check_track_ids` and `_check_qs`, which are
   * four copies of one case split: a list passes unchanged, a string becomes a one-element
   * list, `None` stays `None`, anything else is a TypeError.
   */
  function CheckIdList(ids: Dyn): (r: Result<Option<seq<string>>>)
    ensures r.Err? <==> ids.DOther?
    ensures r.Err? ==> r.error == TypeError
    ensures r == Ok(None) <==> ids.DNone?
    ensures ids.DList? ==> r == Ok(Some(ids.items))
    ensures ids.DStr? ==> r == Ok(Some([ids.s]))
  {
    match ids
    case DNone => Ok(None)
    case DStr(s) => Ok(Some([s]))
    case DList(items) => Ok(Some(items))
    case DOther => Err(TypeError)
  }

  /** `_check_album_type`: a string passes, `None` stays `None`, anything else is a TypeError. */
  function CheckAlbumType(albumType: Dyn): (r: Result<Option<string>>)
    ensures r.Err? <==> albumType.DList? || albumType.DOther?
    ensures r.Err? ==> r.error == TypeError
    ensures albumType.DNone? ==> r == Ok(None)
    ensures albumType.DStr? ==> r == Ok(Some(albumType.s))
  {
    match albumType
    case DNone => Ok(None)
    case DStr(s) => Ok(Some(s))
    case _ => Err(TypeError)
  }

  /** The value a normalised id list has as an argument again. */
  function AsDyn(ids: Option<seq<string>>): Dyn {
    match ids
    case None => DNone
    case Some(items) => DList(items)
  }

  /**
   * Normalisation is a fixed point: feeding what a validator returned back into it (as the
   * sticky attributes are, on the next call) gives the same value back.
   */
  lemma CheckIdListIdempotent(ids: Dyn)
    requires CheckIdList(ids).Ok?
    ensures CheckIdList(AsDyn(CheckIdList(ids).value)) == CheckIdList(ids)
  {
  }

  // ---------------------------------------------------------------------------
  // Records of the catalogue API and of the wrapper's answers
  // ---------------------------------------------------------------------------

  /**
   * A `(name, id)` pair: an artist object of the API (`artist['name']`, `artist['id']`) and
   * the `[name, id]` lists the wrapper builds from it carry the same two strings.
   */
  datatype NamedId = NamedId(name: string, id: string)

  /** An album object, as listed by `new_releases` and `artist_albums`. */
  datatype Release = Release(name: string, id: string, albumType: string, artists: seq<NamedId>)

  /** A track object, as listed by `search` and returned by `track`. */
  datatype TrackItem = TrackItem(name: string, id: string, popularity: int, artists: seq<NamedId>)

  /** An audio-features object of `audio_features`. */
  datatype AudioFeatures = AudioFeatures(
    danceability: real, energy: real, loudness: real, mode: int, speechiness: real,
    acousticness: real, instrumentalness: real, liveness: real, valence: real, tempo: real,
    durationMs: int, key: int, timeSignature: int)

  /** One release in `get_new_releases`: artists flattened as name, id, name, id, ... */
  datatype ReleaseEntry = ReleaseEntry(artists: seq<string>, name: string, id: string)

  /** The dictionary `get_new_releases` returns. */
  datatype NewReleases = NewReleases(albums: seq<ReleaseEntry>, singles: seq<ReleaseEntry>,
                                     compilations: seq<ReleaseEntry>)

  /** One entry of `get_artist_albums`: `[[artist_name, artist_id], [album_name, album_id]]`. */
  datatype Credit = Credit(artist: NamedId, album: NamedId)

  /** One hit of `search_tracks`. */
  datatype SearchHit = SearchHit(artists: seq<NamedId>, track: NamedId, popularity: int)

  /** One value of `get_tracks_info`. */
  datatype TrackInfo = TrackInfo(artists: seq<NamedId>, track: string, popularity: int)

  // ---------------------------------------------------------------------------
  // Reshaping
  // ---------------------------------------------------------------------------

  /** The flat artist list of a new release: each artist's name followed by its id. */
  function Interleave(artists: seq<NamedId>): seq<string> {
    if artists == [] then [] else [artists[0].name, artists[0].id] + Interleave(artists[1..])
  }

  /** The flat artist list alternates name and id, artist by artist, in response order. */
  lemma {:induction false} InterleaveAlternates(artists: seq<NamedId>)
    ensures |Interleave(artists)| == 2 * |artists|
    ensures forall i :: 0 <= i < |artists| ==>
      Interleave(artists)[2 * i] == artists[i].name && Interleave(artists)[2 * i + 1] == artists[i].id
  {
    if artists != [] {
      InterleaveAlternates(artists[1..]);
      var rest := Interleave(artists[1..]);
      assert Interleave(artists) == [artists[0].name, artists[0].id] + rest;
      forall i | 1 <= i < |artists|
        ensures Interleave(artists)[2 * i] == artists[i].name
        ensures Interleave(artists)[2 * i + 1] == artists[i].id
      {
        assert Interleave(artists)[2 * i] == rest[2 * (i - 1)];
        assert Interleave(artists)[2 * i + 1] == rest[2 * (i - 1) + 1];
      }
    }
  }

  /** What `get_new_releases` keeps of one release. */
  function EntryOf(release: Release): ReleaseEntry {
    ReleaseEntry(Interleave(release.artists), release.name, release.id)
  }

  /** The entries of the releases of type `albumType`, in response order. */
  function EntriesOfType(releases: seq<Release>, albumType: string): seq<ReleaseEntry> {
    if releases == [] then []
    else
      var last := releases[|releases| - 1];
      EntriesOfType(releases[..|releases| - 1], albumType)
        + (if last.albumType == albumType then [EntryOf(last)] else [])
  }

  /** The three release types `get_new_releases` sorts into. */
  predicate IsGrouped(albumType: string) {
    albumType == "album" || albumType == "single" || albumType == "compilation"
  }

  /** How many releases carry one of the three grouped types. */
  function CountGrouped(releases: seq<Release>): nat {
    if releases == [] then 0
    else CountGrouped(releases[..|releases| - 1]) + (if IsGrouped(releases[|releases| - 1].albumType) then 1 else 0)
  }

  /**
   * Every release of a grouped type lands in exactly one group, and every other release in
   * none: the three groups together hold exactly the grouped releases.
   */
  lemma {:induction false} GroupsPartitionReleases(releases: seq<Release>)
    ensures |EntriesOfType(releases, "album")| + |EntriesOfType(releases, "single")|
            + |EntriesOfType(releases, "compilation")| == CountGrouped(releases)
  {
    if releases != [] {
      GroupsPartitionReleases(releases[..|releases| - 1]);
    }
  }

  /** A release with a type outside the three groups contributes to none of them. */
  lemma {:induction false} UngroupedReleaseDropped(releases: seq<Release>, other: Release)
    requires !IsGrouped(other.albumType)
    ensures EntriesOfType(releases + [other], "album") == EntriesOfType(releases, "album")
    ensures EntriesOfType(releases + [other], "single") == EntriesOfType(releases, "single")
    ensures EntriesOfType(releases + [other], "compilation") == EntriesOfType(releases, "compilation")
  {
    assert (releases + [other])[..|releases|] == releases;
  }

  /** The credits `get_artist_albums` draws from one album: one per artist except 'Various Artists'. */
  function CreditsOf(album: Release, artists: seq<NamedId>): seq<Credit> {
    if artists == [] then []
    else
      var last := artists[|artists| - 1];
      CreditsOf(album, artists[..|artists| - 1])
        + (if last.name != "Various Artists" then [Credit(last, NamedId(album.name, album.id))] else [])
  }

  /** The credits of one page of albums, album by album. */
  function PageCredits(albums: seq<Release>): seq<Credit> {
    if albums == [] then []
    else PageCredits(albums[..|albums| - 1]) + CreditsOf(albums[|albums| - 1], albums[|albums| - 1].artists)
  }

  /** A credit names the album it came from and an artist of that album other than 'Various Artists'. */
  lemma {:induction false} CreditsOfSound(album: Release, artists: seq<NamedId>, c: Credit)
    requires c in CreditsOf(album, artists)
    ensures c.artist in artists && c.artist.name != "Various Artists"
    ensures c.album == NamedId(album.name, album.id)
  {
    if artists != [] {
      var init := artists[..|artists| - 1];
      if c in CreditsOf(album, init) {
        CreditsOfSound(album, init, c);
      }
    }
  }

  /** Every artist of the album not named 'Various Artists' receives a credit. */
  lemma {:induction false} CreditsOfComplete(album: Release, artists: seq<NamedId>, a: NamedId)
    requires a in artists && a.name != "Various Artists"
    ensures Credit(a, NamedId(album.name, album.id)) in CreditsOf(album, artists)
  {
    var init := artists[..|artists| - 1];
    if a != artists[|artists| - 1] {
      assert artists == init + [artists[|artists| - 1]];
      CreditsOfComplete(album, init, a);
    }
  }

  /** A search hit as `search_tracks` reshapes it. */
  function HitOf(item: TrackItem): SearchHit {
    SearchHit(item.artists, NamedId(item.name, item.id), item.popularity)
  }

  /** The hits of one query, keyed by their position in the response. */
  function HitsOf(items: seq<TrackItem>): (hits: map<nat, SearchHit>)
    ensures forall n: nat :: n in hits <==> n < |items|
    ensures forall n: nat :: n < |items| ==> hits[n] == HitOf(items[n])
  {
    map n: nat | n < |items| :: HitOf(items[n])
  }

  /** A track as `get_tracks_info` reshapes it. */
  function InfoOf(item: TrackItem): TrackInfo {
    TrackInfo(item.artists, item.name, item.popularity)
  }

  // ---------------------------------------------------------------------------
  // Batching for `audio_features`
  // ---------------------------------------------------------------------------

  /** The provider's per-call limit on track ids. */
  const BatchSize: nat := 50

  function Min(a: int, b: int): int { if a <= b then a else b }

  /** The concatenation of a list of lists. */
  function Concat<T>(xss: seq<seq<T>>): seq<T> {
    if xss == [] then [] else Concat(xss[..|xss| - 1]) + xss[|xss| - 1]
  }

  /** How many batches `n` ids need: the ceiling of n / 50. */
  function BatchCount(n: nat): nat {
    (n + BatchSize - 1) / BatchSize
  }

  /** The `k`-th batch: the ids from position 50k up to 50 further, or to the end. */
  function BatchAt(ids: seq<string>, k: nat): seq<string>
    requires k < BatchCount(|ids|)
  {
    ids[BatchSize * k .. Min(BatchSize * k + BatchSize, |ids|)]
  }

  /** The batches `get_audio_features` requests, in order. */
  function Batches(ids: seq<string>): (bs: seq<seq<string>>)
    ensures |bs| == BatchCount(|ids|)
    ensures forall k :: 0 <= k < |bs| ==> bs[k] == BatchAt(ids, k)
  {
    seq(BatchCount(|ids|), k requires 0 <= k < BatchCount(|ids|) => BatchAt(ids, k))
  }

  /** Every batch holds between 1 and 50 ids, and every batch but the last exactly 50. */
  lemma BatchSizes(ids: seq<string>)
    ensures forall k :: 0 <= k < |Batches(ids)| ==> 0 < |Batches(ids)[k]| <= BatchSize
    ensures forall k :: 0 <= k < |Batches(ids)| - 1 ==> |Batches(ids)[k]| == BatchSize
  {
  }

  /** Concatenating the first `m` batches gives the first min(50m, n) ids. */
  lemma {:induction false} BatchesPrefix(ids: seq<string>, m: nat)
    requires m <= BatchCount(|ids|)
    ensures Concat(Batches(ids)[..m]) == ids[..Min(BatchSize * m, |ids|)]
  {
    if m > 0 {
      var bs := Batches(ids);
      BatchesPrefix(ids, m - 1);
      assert bs[..m][..m - 1] == bs[..m - 1];
      assert Concat(bs[..m]) == Concat(bs[..m - 1]) + bs[m - 1];
      assert BatchSize * (m - 1) < |ids|;
      assert ids[..Min(BatchSize * m, |ids|)]
          == ids[..BatchSize * (m - 1)] + ids[BatchSize * (m - 1) .. Min(BatchSize * m, |ids|)];
    }
  }

  /** The batches are consecutive slices that concatenate back to the ids, in order. */
  lemma BatchesConcat(ids: seq<string>)
    ensures Concat(Batches(ids)) == ids
  {
    var bs := Batches(ids);
    BatchesPrefix(ids, |bs|);
    assert bs[..|bs|] == bs;
  }

  /** `Concat` distributes over `+`, which is what makes appending batch by batch correct. */
  lemma {:induction false} ConcatAppend<T>(xss: seq<seq<T>>, yss: seq<seq<T>>)
    ensures Concat(xss + yss) == Concat(xss) + Concat(yss)
  {
    if yss != [] {
      var init := yss[..|yss| - 1];
      assert (xss + yss)[..|xss + yss| - 1] == xss + init;
      ConcatAppend(xss, init);
    } else {
      assert xss + yss == xss;
    }
  }

  /** The responses of `audio_features`, one per batch, in batch order. */
  function Responses<F>(batches: seq<seq<string>>, audioFeatures: seq<string> -> seq<F>): (rs: seq<seq<F>>)
    ensures |rs| == |batches|
    ensures forall k :: 0 <= k < |rs| ==> rs[k] == audioFeatures(batches[k])
  {
    seq(|batches|, k requires 0 <= k < |batches| => audioFeatures(batches[k]))
  }

  /** 120 ids are fetched in three calls of 50, 50 and 20 ids. */
  lemma HundredTwentyIdsTakeThreeCalls(ids: seq<string>)
    requires |ids| == 120
    ensures |Batches(ids)| == 3
    ensures |Batches(ids)[0]| == 50 && |Batches(ids)[1]| == 50 && |Batches(ids)[2]| == 20
  {
  }

  /** Without ids no batch is formed, so the API is never called and nothing is returned. */
  lemma NoIdsNoCall<F>(audioFeatures: seq<string> -> seq<F>)
    ensures Batches([]) == []
    ensures Concat(Responses(Batches([]), audioFeatures)) == []
  {
  }
}
