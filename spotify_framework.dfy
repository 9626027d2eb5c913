/**
 * The `Spotify` wrapper class of `spotipy_framework.py`, limited to what the hit predictor
 * uses and the getters that share its sticky-parameter discipline. Every getter first
 * overwrites the sticky attributes it is given arguments for (validating each in turn, so an
 * error part-way leaves the earlier ones updated), then reshapes the catalogue's answers.
 * Each catalogue endpoint is a function parameter: the model fixes what is asked of it and
 * how the answers are combined, not what it answers.
 */
module SpotifyFramework {
  import opened Outcomes
  import opened SpotifyValues

  // ---------------------------------------------------------------------------
  // The loops of the getters
  // ---------------------------------------------------------------------------

  /** `get_audio_features`' batching loop: steps of 50, the last batch cut at the end of the ids. */
  method MakeBatches(ids: seq<string>) returns (batches: seq<seq<string>>)
    ensures batches == Batches(ids)
  {
    var count := |ids|;
    batches := [];
    var i := 0;
    while i < count
      invariant i == BatchSize * |batches|
      invariant |batches| <= BatchCount(count)
      invariant i < count ==> |batches| < BatchCount(count)
      invariant i >= count ==> |batches| == BatchCount(count)
      invariant forall k :: 0 <= k < |batches| ==> batches[k] == BatchAt(ids, k)
    {
      var x := BatchSize;
      if i + x > count {
        x := x - (i + x - count);
      }
      batches := batches + [ids[i .. i + x]];
      i := i + BatchSize;
    }
  }

  /** `get_audio_features`' fetching loop: one call per batch, every answer appended in order. */
  method FetchBatches<F>(batches: seq<seq<string>>, audioFeatures: seq<string> -> seq<F>)
    returns (features: seq<F>)
    ensures features == Concat(Responses(batches, audioFeatures))
  {
    features := [];
    var rs := Responses(batches, audioFeatures);
    for b := 0 to |batches|
      invariant features == Concat(rs[..b])
    {
      var response := audioFeatures(batches[b]);
      var j := 0;
      while j < |response|
        invariant j <= |response|
        invariant features == Concat(rs[..b]) + response[..j]
      {
        features := features + [response[j]];
        j := j + 1;
      }
      assert response[..j] == response;
      assert rs[..b + 1][..b] == rs[..b];
    }
    assert rs[..|batches|] == rs;
  }

  /** `EntriesOfType` of a list grows by the matching entries of what is appended. */
  lemma {:induction false} EntriesOfTypeConcat(xs: seq<Release>, ys: seq<Release>, albumType: string)
    ensures EntriesOfType(xs + ys, albumType) == EntriesOfType(xs, albumType) + EntriesOfType(ys, albumType)
  {
    if ys == [] {
      assert xs + ys == xs;
    } else {
      var init := ys[..|ys| - 1];
      assert (xs + ys)[..|xs + ys| - 1] == xs + init;
      EntriesOfTypeConcat(xs, init, albumType);
    }
  }

  /** The inner loop of `get_new_releases`: one page of releases sorted into the three lists. */
  method SortReleases(page: seq<Release>, albums: seq<ReleaseEntry>, singles: seq<ReleaseEntry>,
                      compilations: seq<ReleaseEntry>)
    returns (albums': seq<ReleaseEntry>, singles': seq<ReleaseEntry>, compilations': seq<ReleaseEntry>)
    ensures albums' == albums + EntriesOfType(page, "album")
    ensures singles' == singles + EntriesOfType(page, "single")
    ensures compilations' == compilations + EntriesOfType(page, "compilation")
  {
    albums', singles', compilations' := albums, singles, compilations;
    for i := 0 to |page|
      invariant albums' == albums + EntriesOfType(page[..i], "album")
      invariant singles' == singles + EntriesOfType(page[..i], "single")
      invariant compilations' == compilations + EntriesOfType(page[..i], "compilation")
    {
      var release := page[i];
      var entry := ReleaseEntry(Interleave(release.artists), release.name, release.id);
      assert page[..i + 1][..i] == page[..i];
      if release.albumType == "album" {
        albums' := albums' + [entry];
      } else if release.albumType == "single" {
        singles' := singles' + [entry];
      } else if release.albumType == "compilation" {
        compilations' := compilations' + [entry];
      }
    }
    assert page[..|page|] == page;
  }

  /** `CreditsOf` grows by the credit of the appended artist, unless it is 'Various Artists'. */
  lemma CreditsOfStep(album: Release, k: nat)
    requires k < |album.artists|
    ensures CreditsOf(album, album.artists[..k + 1]) == CreditsOf(album, album.artists[..k])
      + (if album.artists[k].name != "Various Artists"
         then [Credit(album.artists[k], NamedId(album.name, album.id))] else [])
  {
    assert album.artists[..k + 1][..k] == album.artists[..k];
  }

  /** The `for track in check` loop of `get_artist_albums`: the credits of one page appended. */
  method AppendPageCredits(tracks: seq<Credit>, page: seq<Release>) returns (tracks': seq<Credit>)
    ensures tracks' == tracks + PageCredits(page)
  {
    tracks' := tracks;
    for i := 0 to |page|
      invariant tracks' == tracks + PageCredits(page[..i])
    {
      var album := page[i];
      assert page[..i + 1][..i] == page[..i];
      ghost var before := tracks';
      for k := 0 to |album.artists|
        invariant tracks' == before + CreditsOf(album, album.artists[..k])
      {
        CreditsOfStep(album, k);
        var artist := album.artists[k];
        if artist.name != "Various Artists" {
          tracks' := tracks' + [Credit(artist, NamedId(album.name, album.id))];
        }
      }
      assert album.artists[..|album.artists|] == album.artists;
    }
    assert page[..|page|] == page;
  }

  /** The `enumerate` loop of `search_tracks`: hit `n` of the response is stored under key `n`. */
  method EnumerateHits(items: seq<TrackItem>) returns (tracks: map<nat, SearchHit>)
    ensures tracks == HitsOf(items)
  {
    tracks := map[];
    for n := 0 to |items|
      invariant tracks == HitsOf(items[..n])
    {
      var track := items[n];
      tracks := tracks[n := SearchHit(track.artists, NamedId(track.name, track.id), track.popularity)];
    }
    assert items[..|items|] == items;
  }

  // ---------------------------------------------------------------------------
  // What the getters return
  // ---------------------------------------------------------------------------

  /** A dictionary built by `for key in keys: d[key] = f(key)`. */
  function MapOver<V>(keys: seq<string>, f: string -> V): (m: map<string, V>)
    ensures forall k :: k in m <==> k in keys
    ensures forall k :: k in keys ==> m[k] == f(k)
  {
    map k | k in keys :: f(k)
  }

  lemma MapOverStep<V>(keys: seq<string>, i: nat, f: string -> V)
    requires i < |keys|
    ensures MapOver(keys[..i + 1], f) == MapOver(keys[..i], f)[keys[i] := f(keys[i])]
  {
    assert keys[..i + 1] == keys[..i] + [keys[i]];
  }

  /** The credits of every artist, keyed by artist id (a repeated id is simply stored again). */
  function AlbumsByArtist(ids: seq<string>, albums: ArtistAlbumsApi, albumType: Option<string>, country: string,
                          end: nat): map<string, seq<Credit>>
  {
    MapOver(ids, CreditsOfArtist(albums, albumType, country, end))
  }

  function CreditsOfArtist(albums: ArtistAlbumsApi, albumType: Option<string>, country: string, end: nat)
    : string -> seq<Credit>
  {
    id => CreditsFrom(albums, id, albumType, country, 0, end)
  }

  /** The info of every track, keyed by track id. */
  function InfoByTrack(ids: seq<string>, track: string -> TrackItem): map<string, TrackInfo> {
    MapOver(ids, InfoOfTrack(track))
  }

  function InfoOfTrack(track: string -> TrackItem): string -> TrackInfo {
    id => InfoOf(track(id))
  }

  /** The hits of every query, keyed by the query text. */
  function HitsByQuery(queries: seq<string>, search: (string, int, Option<string>) -> seq<TrackItem>,
                       limit: int, market: Option<string>): map<string, map<nat, SearchHit>>
  {
    MapOver(queries, HitsOfQuery(search, limit, market))
  }

  function HitsOfQuery(search: (string, int, Option<string>) -> seq<TrackItem>, limit: int, market: Option<string>)
    : string -> map<nat, SearchHit>
  {
    q => HitsOf(search(q, limit, market))
  }

  /** The page of albums of `artist_albums` at `offset`, 50 at a time. */
  type ArtistAlbumsApi = (string, Option<string>, string, nat) -> seq<Release>

  /** The API serves no album at or beyond `end`: the artist's catalogue is finite. */
  ghost predicate EndsBy(albums: ArtistAlbumsApi, end: nat) {
    forall id, albumType, country, offset: nat {:trigger albums(id, albumType, country, offset)} ::
      offset >= end ==> albums(id, albumType, country, offset) == []
  }

  /**
   * The credits `get_artist_albums` collects for one artist from `offset` on: page after page,
   * 50 albums apart, up to the first empty page.
   */
  function CreditsFrom(albums: ArtistAlbumsApi, id: string, albumType: Option<string>, country: string,
                       offset: nat, end: nat): seq<Credit>
    decreases if offset <= end then end - offset else 0
  {
    var page := albums(id, albumType, country, offset);
    if page == [] || offset >= end then []
    else PageCredits(page) + CreditsFrom(albums, id, albumType, country, offset + BatchSize, end)
  }

  /** The credits do not depend on which bound on the catalogue is used to define them. */
  lemma {:induction false} CreditsFromBoundIrrelevant(albums: ArtistAlbumsApi, id: string,
                                                      albumType: Option<string>, country: string,
                                                      offset: nat, end1: nat, end2: nat)
    requires EndsBy(albums, end1) && EndsBy(albums, end2)
    ensures CreditsFrom(albums, id, albumType, country, offset, end1)
         == CreditsFrom(albums, id, albumType, country, offset, end2)
    decreases if offset <= end1 then end1 - offset else 0
  {
    var page := albums(id, albumType, country, offset);
    if page != [] {
      assert offset < end1 && offset < end2;
      CreditsFromBoundIrrelevant(albums, id, albumType, country, offset + BatchSize, end1, end2);
    }
  }

  lemma AppendAssociative<T>(a: seq<T>, b: seq<T>, c: seq<T>)
    ensures (a + b) + c == a + (b + c)
  {
  }

  /** One step of `CreditsFrom`: an empty page ends the collection, any other is taken whole. */
  lemma CreditsFromUnfold(albums: ArtistAlbumsApi, id: string, albumType: Option<string>, country: string,
                          offset: nat, end: nat)
    requires EndsBy(albums, end)
    ensures albums(id, albumType, country, offset) == [] ==> CreditsFrom(albums, id, albumType, country, offset, end) == []
    ensures albums(id, albumType, country, offset) != [] ==>
      offset < end &&
      CreditsFrom(albums, id, albumType, country, offset, end)
        == PageCredits(albums(id, albumType, country, offset))
           + CreditsFrom(albums, id, albumType, country, offset + BatchSize, end)
  {
  }

  /**
   * The `while check` loop of `get_artist_albums` for one artist: ask for the page at
   * `offset`, stop at the first empty one, otherwise take its credits and move 50 further.
   */
  method CollectCredits(albums: ArtistAlbumsApi, artistId: string, albumType: Option<string>, country: string,
                        ghost end: nat)
    returns (tracks: seq<Credit>)
    requires EndsBy(albums, end)
    ensures tracks == CreditsFrom(albums, artistId, albumType, country, 0, end)
  {
    tracks := [];
    var offset: nat := 0;
    var check := true;
    while check
      invariant check ==> tracks + CreditsFrom(albums, artistId, albumType, country, offset, end)
                          == CreditsFrom(albums, artistId, albumType, country, 0, end)
      invariant !check ==> tracks == CreditsFrom(albums, artistId, albumType, country, 0, end)
      decreases if check && offset <= end then end - offset + 1 else if check then 1 else 0
    {
      var page := albums(artistId, albumType, country, offset);
      CreditsFromUnfold(albums, artistId, albumType, country, offset, end);
      check := page != [];
      if check {
        ghost var rest := CreditsFrom(albums, artistId, albumType, country, offset + BatchSize, end);
        var tracks' := AppendPageCredits(tracks, page);
        AppendAssociative(tracks, PageCredits(page), rest);
        tracks, offset := tracks', offset + BatchSize;
      }
    }
  }

  // ---------------------------------------------------------------------------
  // The wrapper object
  // ---------------------------------------------------------------------------

  /** A `Spotify` wrapper: the sticky parameters every getter may overwrite and then reuses. */
  class SpotifyClient {
    var country: string
    var albumIds: Option<seq<string>>
    var artistIds: Option<seq<string>>
    var albumType: Option<string>
    var trackIds: Option<seq<string>>
    var qs: Option<seq<string>>

    /** The stored country is always one `_check_country` accepted. */
    ghost predicate Valid()
      reads this
    {
      |country| == 2
    }

    /** Stores already validated parameters; `Create` is the `__init__` that validates them. */
    constructor Init(country: string, albumIds: Option<seq<string>>, artistIds: Option<seq<string>>,
                     albumType: Option<string>, trackIds: Option<seq<string>>, qs: Option<seq<string>>)
      requires |country| == 2
      ensures Valid()
      ensures this.country == country && this.albumIds == albumIds && this.artistIds == artistIds
      ensures this.albumType == albumType && this.trackIds == trackIds && this.qs == qs
    {
      this.country := country;
      this.albumIds := albumIds;
      this.artistIds := artistIds;
      this.albumType := albumType;
      this.trackIds := trackIds;
      this.qs := qs;
    }

    /**
     * `__init__`: each argument goes through its validator, in declaration order; the first
     * one rejected raises TypeError and no object results.
     */
    static method Create(country: Dyn, albumIds: Dyn, artistIds: Dyn, albumType: Dyn, trackIds: Dyn, qs: Dyn)
      returns (r: Result<SpotifyClient>)
      ensures r.Err? <==> (CheckCountry(country).Err? || CheckIdList(albumIds).Err?
                           || CheckIdList(artistIds).Err? || CheckAlbumType(albumType).Err?
                           || CheckIdList(trackIds).Err? || CheckIdList(qs).Err?)
      ensures r.Err? ==> r.error == TypeError
      ensures r.Ok? ==> fresh(r.value) && r.value.Valid()
      ensures r.Ok? ==> (r.value.country == CheckCountry(country).value
                         && r.value.albumIds == CheckIdList(albumIds).value
                         && r.value.artistIds == CheckIdList(artistIds).value
                         && r.value.albumType == CheckAlbumType(albumType).value
                         && r.value.trackIds == CheckIdList(trackIds).value
                         && r.value.qs == CheckIdList(qs).value)
    {
      var c := CheckCountry(country);
      if c.Err? { return Err(c.error); }
      var al := CheckIdList(albumIds);
      if al.Err? { return Err(al.error); }
      var ar := CheckIdList(artistIds);
      if ar.Err? { return Err(ar.error); }
      var t := CheckAlbumType(albumType);
      if t.Err? { return Err(t.error); }
      var tr := CheckIdList(trackIds);
      if tr.Err? { return Err(tr.error); }
      var q := CheckIdList(qs);
      if q.Err? { return Err(q.error); }
      var client := new SpotifyClient.Init(c.value, al.value, ar.value, t.value, tr.value, q.value);
      return Ok(client);
    }

    /**
     * `get_new_releases`: the two pages of 50 new releases (offsets 0 and 50) in the stored
     * country, each release sorted by its type into albums, singles or compilations.
     */
    method GetNewReleases(country: Dyn, newReleases: (string, nat) -> seq<Release>)
      returns (r: Result<NewReleases>)
      requires Valid()
      modifies this`country
      ensures Valid()
      ensures CheckCountry(country).Err? ==> r == Err(TypeError) && this.country == old(this.country)
      ensures CheckCountry(country).Ok? ==>
        this.country == (if country.DNone? then old(this.country) else CheckCountry(country).value)
      ensures CheckCountry(country).Ok? ==>
        var releases := newReleases(this.country, 0) + newReleases(this.country, BatchSize);
        r == Ok(NewReleases(EntriesOfType(releases, "album"), EntriesOfType(releases, "single"),
                            EntriesOfType(releases, "compilation")))
    {
      if !country.DNone? {
        var c := CheckCountry(country);
        if c.Err? { return Err(c.error); }
        this.country := c.value;
      }
      var albums, singles, compilations := [], [], [];
      ghost var seen: seq<Release> := [];
      var offset := 0;
      while offset < 100
        modifies {}
        invariant offset == 0 || offset == BatchSize || offset == 100
        invariant seen == if offset == 0 then [] else if offset == BatchSize then newReleases(this.country, 0)
                          else newReleases(this.country, 0) + newReleases(this.country, BatchSize)
        invariant albums == EntriesOfType(seen, "album")
        invariant singles == EntriesOfType(seen, "single")
        invariant compilations == EntriesOfType(seen, "compilation")
      {
        var page := newReleases(this.country, offset);
        albums, singles, compilations := SortReleases(page, albums, singles, compilations);
        EntriesOfTypeConcat(seen, page, "album");
        EntriesOfTypeConcat(seen, page, "single");
        EntriesOfTypeConcat(seen, page, "compilation");
        seen := seen + page;
        offset := offset + BatchSize;
      }
      return Ok(NewReleases(albums, singles, compilations));
    }

    /**
     * `get_artist_albums`: for every stored artist, pages of 50 of its albums of the stored type
     * in the stored country, until the first empty page; one credit per (album, artist) pair
     * for every artist but 'Various Artists'. Iterating no stored artists is a TypeError.
     */
    method GetArtistAlbums(artistIds: Dyn, albumType: Dyn, country: Dyn, albums: ArtistAlbumsApi, ghost end: nat)
      returns (r: Result<map<string, seq<Credit>>>)
      requires Valid()
      requires EndsBy(albums, end)
      modifies this`artistIds, this`albumType, this`country
      ensures Valid()
      ensures this.artistIds == if CheckIdList(artistIds).Ok? && !artistIds.DNone?
                                then CheckIdList(artistIds).value else old(this.artistIds)
      ensures this.albumType == if CheckIdList(artistIds).Ok? && CheckAlbumType(albumType).Ok? && !albumType.DNone?
                                then CheckAlbumType(albumType).value else old(this.albumType)
      ensures this.country == if CheckIdList(artistIds).Ok? && CheckAlbumType(albumType).Ok?
                                 && CheckCountry(country).Ok? && !country.DNone?
                              then CheckCountry(country).value else old(this.country)
      ensures CheckIdList(artistIds).Err? || CheckAlbumType(albumType).Err? || CheckCountry(country).Err?
              ==> r == Err(TypeError)
      ensures CheckIdList(artistIds).Ok? && CheckAlbumType(albumType).Ok? && CheckCountry(country).Ok? ==>
        r == match this.artistIds
             case None => Err(TypeError)
             case Some(ids) =>
               Ok(AlbumsByArtist(ids, albums, this.albumType, this.country, end))
    {
      if !artistIds.DNone? {
        var a := CheckIdList(artistIds);
        if a.Err? { return Err(a.error); }
        this.artistIds := a.value;
      }
      if !albumType.DNone? {
        var t := CheckAlbumType(albumType);
        if t.Err? { return Err(t.error); }
        this.albumType := t.value;
      }
      if !country.DNone? {
        var c := CheckCountry(country);
        if c.Err? { return Err(c.error); }
        this.country := c.value;
      }
      if this.artistIds.None? {
        return Err(TypeError);
      }
      var ids, storedType, storedCountry := this.artistIds.value, this.albumType, this.country;
      ghost var f := CreditsOfArtist(albums, storedType, storedCountry, end);
      var albumsDict := map[];
      for i := 0 to |ids|
        modifies {}
        invariant albumsDict == MapOver(ids[..i], f)
      {
        var artistId := ids[i];
        var tracks := CollectCredits(albums, artistId, storedType, storedCountry, end);
        MapOverStep(ids, i, f);
        albumsDict := albumsDict[artistId := tracks];
      }
      assert ids[..|ids|] == ids;
      assert albumsDict == AlbumsByArtist(ids, albums, storedType, storedCountry, end);
      return Ok(albumsDict);
    }

    /**
     * `get_audio_features`: the stored track ids in consecutive batches of at most 50, one
     * `audio_features` call per batch, the answers concatenated in batch order. Measuring
     * absent track ids is a TypeError.
     */
    method GetAudioFeatures<F>(trackIds: Dyn, audioFeatures: seq<string> -> seq<F>) returns (r: Result<seq<F>>)
      modifies this`trackIds
      ensures CheckIdList(trackIds).Err? ==> r == Err(TypeError) && this.trackIds == old(this.trackIds)
      ensures CheckIdList(trackIds).Ok? ==>
        this.trackIds == if trackIds.DNone? then old(this.trackIds) else CheckIdList(trackIds).value
      ensures CheckIdList(trackIds).Ok? ==>
        r == match this.trackIds
             case None => Err(TypeError)
             case Some(ids) => Ok(Concat(Responses(Batches(ids), audioFeatures)))
    {
      if !trackIds.DNone? {
        var t := CheckIdList(trackIds);
        if t.Err? { return Err(t.error); }
        this.trackIds := t.value;
      }
      if this.trackIds.None? {
        return Err(TypeError);
      }
      var batches := MakeBatches(this.trackIds.value);
      var features := FetchBatches(batches, audioFeatures);
      return Ok(features);
    }

    /**
     * `get_tracks_info`: validates its argument by its own inline copy of the id check, and
     * raises AttributeError when neither an argument nor stored ids are there.
     */
    method GetTracksInfo(trackIds: Dyn, track: string -> TrackItem) returns (r: Result<map<string, TrackInfo>>)
      modifies this`trackIds
      ensures trackIds.DOther? ==> r == Err(TypeError)
      ensures trackIds.DNone? && old(this.trackIds).None? ==> r == Err(AttributeError)
      ensures this.trackIds == if trackIds.DList? || trackIds.DStr? then CheckIdList(trackIds).value
                               else old(this.trackIds)
      ensures (trackIds.DList? || trackIds.DStr? || old(this.trackIds).Some?) && !trackIds.DOther? ==>
        this.trackIds.Some? && r == Ok(InfoByTrack(this.trackIds.value, track))
    {
      if !trackIds.DNone? {
        match trackIds
        case DList(items) => this.trackIds := Some(items);
        case DStr(s) => this.trackIds := Some([s]);
        case _ => return Err(TypeError);
      } else if this.trackIds.None? {
        return Err(AttributeError);
      }
      var ids := this.trackIds.value;
      ghost var f := InfoOfTrack(track);
      var tracks := map[];
      for i := 0 to |ids|
        modifies {}
        invariant tracks == MapOver(ids[..i], f)
      {
        var response := track(ids[i]);
        MapOverStep(ids, i, f);
        tracks := tracks[ids[i] := TrackInfo(response.artists, response.name, response.popularity)];
      }
      assert ids[..|ids|] == ids;
      assert tracks == InfoByTrack(ids, track);
      return Ok(tracks);
    }

    /**
     * `search_tracks`: one search per stored query, its hits keyed 0, 1, ... in response
     * order. The `market` sent is the `country` argument as given (absent when it is
     * `None`), never the stored country.
     */
    method SearchTracks(qs: Dyn, country: Dyn, limit: int, search: (string, int, Option<string>) -> seq<TrackItem>)
      returns (r: Result<map<string, map<nat, SearchHit>>>)
      requires Valid()
      modifies this`qs, this`country
      ensures Valid()
      ensures this.qs == if CheckIdList(qs).Ok? && !qs.DNone? then CheckIdList(qs).value else old(this.qs)
      ensures this.country == if CheckIdList(qs).Ok? && CheckCountry(country).Ok? && !country.DNone?
                              then CheckCountry(country).value else old(this.country)
      ensures CheckIdList(qs).Err? || CheckCountry(country).Err? ==> r == Err(TypeError)
      ensures CheckIdList(qs).Ok? && CheckCountry(country).Ok? ==>
        r == match this.qs
             case None => Err(TypeError)
             case Some(queries) => Ok(HitsByQuery(queries, search, limit, Market(country)))
    {
      if !qs.DNone? {
        var q := CheckIdList(qs);
        if q.Err? { return Err(q.error); }
        this.qs := q.value;
      }
      if !country.DNone? {
        var c := CheckCountry(country);
        if c.Err? { return Err(c.error); }
        this.country := c.value;
      }
      if this.qs.None? {
        return Err(TypeError);
      }
      var queries := this.qs.value;
      var market := if country.DStr? then Some(country.s) else None;
      assert market == Market(country);
      ghost var f := HitsOfQuery(search, limit, market);
      var findedTracks := map[];
      for i := 0 to |queries|
        modifies {}
        invariant findedTracks == MapOver(queries[..i], f)
      {
        var q := queries[i];
        var response := search(q, limit, market);
        var tracks := EnumerateHits(response);
        MapOverStep(queries, i, f);
        findedTracks := findedTracks[q := tracks];
      }
      assert queries[..|queries|] == queries;
      assert findedTracks == HitsByQuery(queries, search, limit, market);
      return Ok(findedTracks);
    }
  }

  /** The `market` a search is sent with: the raw `country` argument, `None` when it was `None`. */
  function Market(country: Dyn): (m: Option<string>)
    ensures m.Some? <==> country.DStr?
  {
    if country.DStr? then Some(country.s) else None
  }
}
