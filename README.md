# Hit predictor bot — a Dafny model of its core

The hit predictor bot is a Telegram bot. It takes a track name, looks the track up in the
Spotify catalogue, fetches its audio features, turns them into the 25-cell feature row a
random forest was trained on, normalises the row with a fitted scaler, and replies with the
forest's probability that the track is a hit. Only users named in a permissions file are
served.

This project models three parts of that bot in Dafny:

- **the feature row** (`feature_row.dfy`, module `FeatureRow`). `_create_df` lays one
  audio-features record out as 25 named cells in a fixed order: 11 raw descriptors with
  `mode` among them, then `key_1..key_11`, then `time_signature_3..5`. `_preprocess_df`
  rewrites the ten numerical cells of the frame in place, modelled as an `array<real>`.
  It applies `log(x + 1)` to four cells and then runs the fitted scaler over all ten.
- **the predictor** (`predictor.dfy`, module `Predictor`). `_search_track` takes the first
  search hit and joins its artist names with `", "`. `predict` chains search, the feature
  fetch, the row, preprocessing and the forest.
- **the Spotify wrapper** (`spotify_values.dfy` and `spotify_framework.dfy`, modules
  `SpotifyValues` and `SpotifyFramework`). The `_check_*` validators work over a small
  dynamic value: `None`, a `str`, a `list`, or anything else. The class `SpotifyClient`
  holds the sticky parameters that each getter overwrites when given an argument and reuses
  otherwise. The getters batch, paginate, group, filter and enumerate the catalogue's
  answers.
- **the bot's gate** (`hit_predictor_bot.dfy`, module `HitPredictorBot`). It covers parsing
  the allow-list with `rstrip().split('\n')`, exact membership, the `'&'` check, and the
  choice of reply.

Each catalogue endpoint is a function parameter, and so are `np.log`, the scaler's
`transform` and the forest's `predict_proba`. The model fixes what these functions are
asked and how their answers are combined. It does not fix what they compute. Python
exceptions are `Err(TypeError | AttributeError | IndexError)` values (module `Outcomes`).

## Model

| member | source | states |
|---|---|---|
| `SpotifyValues.CheckCountry` | spotipy_framework.py:370-377 | `None` gives `'US'`; a 2-character string is returned unchanged; any other string or type is a TypeError; an accepted country always has 2 characters |
| `SpotifyValues.CheckIdList` | spotipy_framework.py:410-419 | a list is returned as it is, a string becomes a one-element list, `None` stays `None`, and anything else (only that) is a TypeError; the same case split is copied at 379-399 and 421-430 for album, artist and query ids |
| `SpotifyValues.CheckAlbumType` | spotipy_framework.py:401-408 | a string passes, `None` stays `None`, a list or any other type is a TypeError |
| `SpotifyValues.CheckIdListIdempotent` | spotipy_framework.py:379-388 | a normalised id list fed back as an argument is accepted and returned unchanged |
| `SpotifyValues.InterleaveAlternates` | spotipy_framework.py:61-66 | the artist list of a new release has twice as many items as artists, and item 2i is artist i's name and item 2i+1 its id |
| `SpotifyValues.GroupsPartitionReleases` | spotipy_framework.py:70-79 | albums, singles and compilations together hold exactly as many entries as there are releases of those three types, so each such release lands in exactly one group |
| `SpotifyValues.UngroupedReleaseDropped` | spotipy_framework.py:70-75 | a release of any other type (e.g. `appears_on`) changes none of the three groups |
| `SpotifyValues.CreditsOfSound` | spotipy_framework.py:155-161 | every entry of `get_artist_albums` names the album it came from and one of its artists, never 'Various Artists' |
| `SpotifyValues.CreditsOfComplete` | spotipy_framework.py:155-161 | every artist of an album not named 'Various Artists' gets an entry for that album |
| `SpotifyValues.HitsOf` | spotipy_framework.py:314-327 | a query's hits are keyed exactly 0..k-1, and key n holds the n-th track of the response |
| `SpotifyValues.Batches` | spotipy_framework.py:240-246 | there are ceil(n/50) batches, and batch k is the slice of ids from 50k to min(50k+50, n) |
| `SpotifyValues.BatchSizes` | spotipy_framework.py:242-246 | every batch holds 1 to 50 ids, and every batch but the last holds exactly 50 |
| `SpotifyValues.BatchesConcat` | spotipy_framework.py:240-246 | the batches concatenate back to the track ids, in order |
| `SpotifyValues.Responses` | spotipy_framework.py:248-250 | one `audio_features` answer per batch, in batch order |
| `SpotifyValues.HundredTwentyIdsTakeThreeCalls` | spotipy_framework.py:240-250 | 120 ids make three calls, of 50, 50 and 20 ids |
| `SpotifyValues.NoIdsNoCall` | spotipy_framework.py:240-254 | with no ids there is no batch, so no API call, and the result is empty |
| `SpotifyFramework.MakeBatches` | spotipy_framework.py:240-246 | the batching loop, including the computation of `x`, returns exactly `Batches(ids)` |
| `SpotifyFramework.FetchBatches` | spotipy_framework.py:248-254 | the features are the per-batch answers concatenated in batch order |
| `SpotifyFramework.SortReleases` | spotipy_framework.py:58-75 | each list grows by exactly the entries of that list's release type in the page, in response order |
| `SpotifyFramework.AppendPageCredits` | spotipy_framework.py:155-161 | a page's credits are appended album by album and artist by artist, skipping 'Various Artists' |
| `SpotifyFramework.EnumerateHits` | spotipy_framework.py:316-327 | the enumerate loop builds exactly `HitsOf(items)` |
| `SpotifyFramework.CollectCredits` | spotipy_framework.py:148-164 | the pagination loop asks for offsets 0, 50, 100, … and stops at the first empty page; it returns the credits of all the pages before that one |
| `SpotifyFramework.CreditsFromBoundIrrelevant` | spotipy_framework.py:151-162 | the collected credits do not depend on which bound on the catalogue's size is assumed |
| `SpotifyFramework.Market` | spotipy_framework.py:312 | the search market is present exactly when a `country` argument is given as a string |
| `SpotifyFramework.SpotifyClient.Create` | spotipy_framework.py:7-32 | the arguments are validated in declaration order; the client is created iff all pass; its fields hold the normalised values |
| `SpotifyFramework.SpotifyClient.GetNewReleases` | spotipy_framework.py:34-81 | a given country overwrites the stored one, and only that field changes; a bad country is a TypeError; the result groups both pages (offsets 0 and 50) of the stored country by type |
| `SpotifyFramework.SpotifyClient.GetArtistAlbums` | spotipy_framework.py:122-166 | artist ids, album type and country are validated and overwritten in that order, so a TypeError part-way leaves the earlier fields updated; no stored artists is a TypeError; otherwise each artist id maps to its collected credits |
| `SpotifyFramework.SpotifyClient.GetAudioFeatures` | spotipy_framework.py:229-254 | given ids overwrite the stored ones, and absent ids are kept; no stored ids is a TypeError; the result is the concatenated answers for `Batches(ids)` |
| `SpotifyFramework.SpotifyClient.GetTracksInfo` | spotipy_framework.py:256-291 | a list or string overwrites the stored ids; any other type is a TypeError; no argument and no stored ids is an AttributeError; each id maps to its track info |
| `SpotifyFramework.SpotifyClient.SearchTracks` | spotipy_framework.py:293-331 | queries and country are validated and overwritten in that order; each stored query maps to its enumerated hits; the market sent is the raw `country` argument, never the stored country |
| `FeatureRow.ColumnNames` | predictor.py:33-59 | the 25 column names are distinct, and `key_k` / `time_signature_t` sit at the positions `KeyColumn(k)` / `TimeSignatureColumn(t)` |
| `FeatureRow.CreateRow` | predictor.py:32-60 | the row has 25 cells; the first 11 are the record's fields unchanged, in column order, with `mode` copied rather than one-hot encoded; `key_k` is 1 iff key == k; `time_signature_t` is 1 iff the signature is t; every indicator is 0 or 1 |
| `FeatureRow.KeyGroupOneHot` | predictor.py:45-55 | the key indicators sum to 1 for a key in 1..11 and to 0 for any other key; no two are both 1 |
| `FeatureRow.TimeSignatureGroupOneHot` | predictor.py:56-58 | the time-signature indicators sum to 1 for 3, 4 or 5 and to 0 otherwise, with no error; no two are both 1 |
| `FeatureRow.KeyExamples` | predictor.py:45-55 | key 0 sets no key indicator; key 5 sets `key_5` and nothing else |
| `FeatureRow.NumericalColumnsByName` | predictor.py:64-69 | the positions the scaler reads match the names listed for it, in order; the four log positions are exactly duration_ms, instrumentalness, liveness and speechiness |
| `FeatureRow.ScalerInput` | predictor.py:64-70 | the scaler receives the ten numerical cells in listed order; the four skewed ones arrive as `log(x + 1)` and the other six raw, so the log comes before scaling |
| `FeatureRow.LogStep` | predictor.py:66-69 | the four log assignments change exactly those four cells |
| `FeatureRow.Preprocessed` | predictor.py:63-71 | the row keeps 25 cells; every non-numerical cell (`mode`, all `key_*`, all `time_signature_*`) is unchanged; numerical column j holds the scaler's j-th output |
| `FeatureRow.PreprocessDf` | predictor.py:63-71 | preprocessing the frame in place leaves it equal to `Preprocessed` of its old contents |
| `FeatureRow.PreprocessedRowKeepsEncoding` | predictor.py:32-71 | after preprocessing a fresh row, `mode` and all 14 indicator cells still hold the record's encoding |
| `FeatureRow.ZeroDurationFeedsLogOne` | predictor.py:66 | a duration of 0 reaches the scaler as log(1) |
| `Predictor.TrimmedSuffixedIsJoined` | predictor.py:21-24 | appending "name, " per artist and cutting the last two characters gives the names joined with ", " |
| `Predictor.JoinArtistNames` | predictor.py:21-24 | the artist-name loop returns the artist names joined with ", " in response order, or "" for no artists |
| `Predictor.FirstMatch` | predictor.py:20-29 | no match iff the search has no hits; otherwise the match is item 0's joined artists, name and id |
| `Predictor.SearchTrack` | predictor.py:18-29 | searches `q` with the default limit and no market, which leaves `[q]` as the client's stored queries, and returns `FirstMatch` of the hits |
| `Predictor.SingleIdSingleCall` | predictor.py:79 | one track id makes one batch, so the features fetched are the answer to `[id]` |
| `Predictor.Predict` | predictor.py:74-86 | returns `PredictOutcome`; the stored queries become `[q]`, and the stored track ids become `[id]` only when a non-empty id was found |
| `Predictor.PredictNotFound` | predictor.py:75-77 | a query without hits predicts `None`, whatever the other collaborators do |
| `Predictor.PredictEmptyId` | predictor.py:76-77 | a first hit with an empty (falsy) id predicts `None` |
| `Predictor.PredictionOfFirstHit` | predictor.py:75-86 | a prediction carries the first hit's joined artists and name; its `hit_proba` is `predict_proba(row)[0][1]` for the preprocessed row of the features of that id, fetched alone |
| `HitPredictorBot.RStrip` | hit_predictor_bot.py:10 | `rstrip()` keeps a prefix that does not end in whitespace, and everything it drops is whitespace |
| `HitPredictorBot.Split` | hit_predictor_bot.py:10 | `split('\n')` gives at least one part, and no part contains a newline |
| `HitPredictorBot.JoinSplit` | hit_predictor_bot.py:10 | joining the parts with '\n' gives the text back |
| `HitPredictorBot.SplitJoin` | hit_predictor_bot.py:10 | newline-free parts joined with '\n' split back into the same parts |
| `HitPredictorBot.AllowListOfLines` | hit_predictor_bot.py:9-10 | a file of one username per line, followed by any trailing whitespace, grants exactly those usernames |
| `HitPredictorBot.KnownOnlyByExactLine` | hit_predictor_bot.py:12-18 | a user is known iff the username equals one of the lines exactly |
| `HitPredictorBot.Start` | hit_predictor_bot.py:21-38 | the greeting goes only to known users; everyone else gets the refusal |
| `HitPredictorBot.BotPredict` | hit_predictor_bot.py:41-64 | unknown users get the refusal and nothing else happens; text with '&' gets the warning and never reaches `predict`; other text calls `predict` exactly once; `None` gives "nothing found" and a result gives the formatted reply |
| `HitPredictorBot.BotWithPredictor` | hit_predictor_bot.py:41-54 | wired to the predictor, a known user's '&' query never reaches the search, and a query without hits gets "nothing found" |

## Left out

- Loading the pickled forest and scaler, and logging in to Spotify (predictor.py:9-15, spotipy_framework.py:24-25): file and network I/O. They become function parameters.
- The arithmetic of `np.log`, `scaler.transform` and `forest.predict_proba`: floating-point code in foreign libraries. They are uninterpreted parameters. The scaler is only required to preserve length. Nothing bounds `hit_proba` to [0, 1], and the source does not establish that bound either.
- Floating-point values are modelled as `real`, so rounding is not modelled.
- The catalogue endpoints are functions of their arguments, which makes them deterministic. Network, rate-limit and authentication errors are not modelled, because the source neither raises nor catches them.
- `CollectCredits` and `SpotifyClient.GetArtistAlbums` need a ghost bound past which the `artist_albums` endpoint serves only empty pages. The Python loop would never end for an endpoint that always returns a full page.
- Lists in dynamic arguments hold strings only. A list is returned by reference in Python, so a caller that later mutates it also changes the stored attribute. That aliasing is not modelled.
- `get_album_tracks`, `get_similar_artists`, `get_artist_top_tracks` and `get_tracks_by_years` (spotipy_framework.py:83-120, 168-227, 333-368) are not part of this model. The predictor does not use them, and they repeat the sticky-parameter and reshaping patterns that are modelled.
- The Telegram plumbing (`Updater`, handlers, `send_message`, polling) and reading `permissions.txt` are not modelled: the file's text is an argument, and each handler returns its reply. A `predict` error is a `Raised` reply, meaning no message is sent and the error escapes to the dispatcher.
- The wording of the replies, including `hit_proba * 100` (hit_predictor_bot.py:13-15, 24-38, 46-64), and the console loop of `predictor.main`: text formatting and interactive I/O.
- `_search_track` returns `(None, None, None)` when nothing is found; the model returns `None`. `predict` only tests the third element, so the two behave the same.
