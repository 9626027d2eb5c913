/**
 * `predictor.py` past its module-level set-up: `_search_track` resolves a query to the first
 * hit of a search, and `predict` fetches that track's audio features, builds and preprocesses
 * the feature row and reads the hit probability off the classifier.
 *
 * The fitted scaler, the forest's `predict_proba`, `np.log` and the catalogue endpoints are
 * parameters; the shared `Spotify` wrapper is the `client` every call goes through.
 */
module Predictor {
  import opened Outcomes
  import opened SpotifyValues
  import opened SpotifyFramework
  import opened FeatureRow

  /** The catalogue's text search: query, result limit and market to the list of track objects. */
  type SearchApi = (string, int, Option<string>) -> seq<TrackItem>

  /** The catalogue's `audio_features`: one entry per id, `None` for an id it does not know. */
  type FeaturesApi = seq<string> -> seq<Option<AudioFeatures>>

  /** The forest's `predict_proba`: one row of class probabilities per input row. */
  type Classifier = seq<real> -> seq<seq<real>>

  /** What `_search_track` returns when the query has a hit. */
  datatype TrackMatch = TrackMatch(artistName: string, trackName: string, trackId: string)

  /** The dictionary `predict` returns. */
  datatype Prediction = Prediction(artistName: string, trackName: string, hitProba: real)

  /** The result limit `search_tracks` uses by default. */
  const SearchLimit: int := 50

  // ---------------------------------------------------------------------------
  // The artist name of a hit
  // ---------------------------------------------------------------------------

  /** Artist names joined with ", ", in response order. */
  function JoinNames(artists: seq<NamedId>): string {
    if artists == [] then ""
    else if |artists| == 1 then artists[0].name
    else artists[0].name + ", " + JoinNames(artists[1..])
  }

  /** What the loop of `_search_track` accumulates: every name followed by ", ". */
  function Suffixed(artists: seq<NamedId>): string {
    if artists == [] then "" else Suffixed(artists[..|artists| - 1]) + artists[|artists| - 1].name + ", "
  }

  /**
   * Cutting the trailing ", " off the accumulated names leaves exactly the names joined with
   * ", ": the trim at the end of the loop never eats into a name.
   */
  lemma {:induction false} TrimmedSuffixedIsJoined(artists: seq<NamedId>)
    requires artists != []
    ensures |Suffixed(artists)| >= 2
    ensures Suffixed(artists)[..|Suffixed(artists)| - 2] == JoinNames(artists)
  {
    if |artists| == 1 {
      assert artists[..0] == [];
    } else {
      var tail := artists[1..];
      TrimmedSuffixedIsJoined(tail);
      SuffixedCons(artists);
      var st := Suffixed(tail);
      assert Suffixed(artists) == artists[0].name + ", " + st;
      assert Suffixed(artists)[..|Suffixed(artists)| - 2] == artists[0].name + ", " + st[..|st| - 2];
    }
  }

  /** `Suffixed` read from the front: the first name, ", ", then the rest. */
  lemma {:induction false} SuffixedCons(artists: seq<NamedId>)
    requires artists != []
    ensures Suffixed(artists) == artists[0].name + ", " + Suffixed(artists[1..])
    decreases |artists|
  {
    if |artists| > 1 {
      var init := artists[..|artists| - 1];
      SuffixedCons(init);
      assert init[1..] == artists[1..][..|artists[1..]| - 1];
      assert artists[1..][|artists[1..]| - 1] == artists[|artists| - 1];
    } else {
      assert artists[..0] == [] && artists[1..] == [];
    }
  }

  /**
   * The artist-name loop of `_search_track`: append every name and ", ", then drop the last
   * two characters (Python's `s[:-2]`, which is empty for a string shorter than two).
   */
  method JoinArtistNames(artists: seq<NamedId>) returns (artistName: string)
    ensures artistName == JoinNames(artists)
  {
    artistName := "";
    for i := 0 to |artists|
      invariant artistName == Suffixed(artists[..i])
    {
      assert artists[..i + 1][..i] == artists[..i];
      artistName := artistName + artists[i].name + ", ";
    }
    assert artists[..|artists|] == artists;
    if artists != [] {
      TrimmedSuffixedIsJoined(artists);
    }
    artistName := if |artistName| >= 2 then artistName[..|artistName| - 2] else "";
  }

  // ---------------------------------------------------------------------------
  // Search
  // ---------------------------------------------------------------------------

  /** The match `_search_track` reports for a search answer: its first hit, if any. */
  function FirstMatch(items: seq<TrackItem>): (m: Option<TrackMatch>)
    ensures m.None? <==> items == []
    ensures m.Some? ==> m.value == TrackMatch(JoinNames(items[0].artists), items[0].name, items[0].id)
  {
    if items == [] then None
    else Some(TrackMatch(JoinNames(items[0].artists), items[0].name, items[0].id))
  }

  /**
   * `_search_track`: `search_tracks(q)` through the shared client (so `q` becomes its stored
   * query list), then the first hit of `q`, or nothing when `q` has no hit.
   */
  method SearchTrack(client: SpotifyClient, q: string, search: SearchApi) returns (m: Option<TrackMatch>)
    requires client.Valid()
    modifies client`qs, client`country
    ensures client.Valid()
    ensures client.qs == Some([q]) && client.country == old(client.country)
    ensures m == FirstMatch(search(q, SearchLimit, None))
  {
    var result := client.SearchTracks(DStr(q), DNone, SearchLimit, search);
    assert result == Ok(HitsByQuery([q], search, SearchLimit, None));
    var hits := result.value[q];
    assert hits == HitsOf(search(q, SearchLimit, None));
    if |hits| > 0 {
      assert 0 in hits;
      var first := hits[0];
      var artistName := JoinArtistNames(first.artists);
      m := Some(TrackMatch(artistName, first.track.name, first.track.id));
    } else {
      m := None;
    }
  }

  // ---------------------------------------------------------------------------
  // Prediction
  // ---------------------------------------------------------------------------

  /** One id is fetched in a single batch, so its features are exactly the answer to `[id]`. */
  lemma SingleIdSingleCall<F>(id: string, audioFeatures: seq<string> -> seq<F>)
    ensures Batches([id]) == [[id]]
    ensures Concat(Responses(Batches([id]), audioFeatures)) == audioFeatures([id])
  {
    var bs := Batches([id]);
    assert bs[0] == [id];
    assert bs == [[id]];
    assert Responses(bs, audioFeatures) == [audioFeatures([id])];
    assert Concat([audioFeatures([id])]) == Concat([]) + audioFeatures([id]);
  }

  /** The row the classifier is given for a features record. */
  function ClassifierInput(features: AudioFeatures, log: real -> real, scaler: Scaler): seq<real>
    requires PreservesLength(scaler)
  {
    Preprocessed(CreateRow(features), log, scaler)
  }

  /**
   * What `predict(q)` yields: nothing for a query without a hit or whose hit has an empty
   * id; otherwise the positive-class probability of the first hit's preprocessed row, or the
   * error Python raises indexing a short answer.
   */
  function PredictOutcome(q: string, search: SearchApi, audioFeatures: FeaturesApi, log: real -> real,
                          scaler: Scaler, forest: Classifier): Result<Option<Prediction>>
    requires PreservesLength(scaler)
  {
    match FirstMatch(search(q, SearchLimit, None))
    case None => Ok(None)
    case Some(m) =>
      if m.trackId == "" then Ok(None)
      else
        var features := Concat(Responses(Batches([m.trackId]), audioFeatures));
        if features == [] then Err(IndexError)
        else if features[0].None? then Err(TypeError)
        else
          var proba := forest(ClassifierInput(features[0].value, log, scaler));
          if |proba| == 0 || |proba[0]| < 2 then Err(IndexError)
          else Ok(Some(Prediction(m.artistName, m.trackName, proba[0][1])))
  }

  /**
   * `predict`: search, stop with `None` on a falsy track id, otherwise fetch the features of
   * that single id, build the frame, preprocess it in place and ask the forest.
   */
  method Predict(client: SpotifyClient, q: string, search: SearchApi, audioFeatures: FeaturesApi,
                 log: real -> real, scaler: Scaler, forest: Classifier)
    returns (r: Result<Option<Prediction>>)
    requires client.Valid()
    requires PreservesLength(scaler)
    modifies client`qs, client`country, client`trackIds
    ensures client.Valid()
    ensures client.qs == Some([q]) && client.country == old(client.country)
    ensures client.trackIds == match FirstMatch(search(q, SearchLimit, None))
                               case Some(m) => if m.trackId == "" then old(client.trackIds) else Some([m.trackId])
                               case None => old(client.trackIds)
    ensures r == PredictOutcome(q, search, audioFeatures, log, scaler, forest)
  {
    var m := SearchTrack(client, q, search);
    if m.None? || m.value.trackId == "" {
      return Ok(None);
    }
    var response := client.GetAudioFeatures(DStr(m.value.trackId), audioFeatures);
    SingleIdSingleCall(m.value.trackId, audioFeatures);
    var features := response.value;
    if |features| == 0 {
      return Err(IndexError);
    }
    if features[0].None? {
      return Err(TypeError);
    }
    var row := CreateRow(features[0].value);
    var df := new real[Width](i requires 0 <= i < Width => row[i]);
    assert df[..] == row;
    PreprocessDf(df, log, scaler);
    var proba := forest(df[..]);
    if |proba| == 0 || |proba[0]| < 2 {
      return Err(IndexError);
    }
    return Ok(Some(Prediction(m.value.artistName, m.value.trackName, proba[0][1])));
  }

  /** A query the catalogue has no hit for predicts nothing, whatever the other collaborators do. */
  lemma PredictNotFound(q: string, search: SearchApi, audioFeatures: FeaturesApi, log: real -> real,
                        scaler: Scaler, forest: Classifier)
    requires PreservesLength(scaler)
    requires search(q, SearchLimit, None) == []
    ensures PredictOutcome(q, search, audioFeatures, log, scaler, forest) == Ok(None)
  {
  }

  /**
   * A prediction names the first hit's artists (joined with ", ") and title, and its
   * probability is column 1 of the forest's first answer row for the preprocessed features
   * of that hit's id, fetched alone; a hit with an empty id predicts nothing.
   */
  lemma PredictionOfFirstHit(q: string, search: SearchApi, audioFeatures: FeaturesApi, log: real -> real,
                             scaler: Scaler, forest: Classifier)
    requires PreservesLength(scaler)
    requires PredictOutcome(q, search, audioFeatures, log, scaler, forest).Ok?
    requires PredictOutcome(q, search, audioFeatures, log, scaler, forest).value.Some?
    ensures var items := search(q, SearchLimit, None);
      var p := PredictOutcome(q, search, audioFeatures, log, scaler, forest).value.value;
      items != [] && items[0].id != ""
      && p.artistName == JoinNames(items[0].artists) && p.trackName == items[0].name
      && audioFeatures([items[0].id]) != [] && audioFeatures([items[0].id])[0].Some?
      && var proba := forest(ClassifierInput(audioFeatures([items[0].id])[0].value, log, scaler));
         |proba| > 0 && |proba[0]| >= 2 && p.hitProba == proba[0][1]
  {
    var items := search(q, SearchLimit, None);
    var m := FirstMatch(items);
    assert m.Some? && m.value.trackId != "";
    SingleIdSingleCall(m.value.trackId, audioFeatures);
  }

  /** A hit whose id is empty is falsy in Python: `predict` stops before fetching anything. */
  lemma PredictEmptyId(q: string, search: SearchApi, audioFeatures: FeaturesApi, log: real -> real,
                       scaler: Scaler, forest: Classifier)
    requires PreservesLength(scaler)
    requires search(q, SearchLimit, None) != [] && search(q, SearchLimit, None)[0].id == ""
    ensures PredictOutcome(q, search, audioFeatures, log, scaler, forest) == Ok(None)
  {
  }
}
