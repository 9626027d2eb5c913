/**
 * The decisions of the Telegram handlers in `hit_predictor_bot.py`: who is let in (an exact
 * line of the permissions file), which reply a message earns, and whether the predictor is
 * consulted at all. Sending messages and reading the file are not modelled; the file's text is
 * an argument and each handler returns the reply it sends.
 */
module HitPredictorBot {
  import opened Outcomes
  import opened Predictor

  // ---------------------------------------------------------------------------
  // Parsing the allow-list: `file.read().rstrip().split('\n')`
  // ---------------------------------------------------------------------------

  /** The characters Python's `str.isspace` accepts, which a bare `rstrip()` removes. */
  predicate IsSpace(c: char) {
    ('\U{9}' <= c <= '\U{D}') || ('\U{1C}' <= c <= '\U{20}') || c == '\U{85}' || c == '\U{A0}'
    || c == '\U{1680}' || ('\U{2000}' <= c <= '\U{200A}') || c == '\U{2028}' || c == '\U{2029}'
    || c == '\U{202F}' || c == '\U{205F}' || c == '\U{3000}'
  }

  /** `s.rstrip()`: the longest prefix of `s` that does not end in whitespace. */
  function RStrip(s: string): (r: string)
    ensures r <= s
    ensures r == [] || !IsSpace(r[|r| - 1])
    ensures forall i :: |r| <= i < |s| ==> IsSpace(s[i])
  {
    if s != [] && IsSpace(s[|s| - 1]) then RStrip(s[..|s| - 1]) else s
  }

  /** `s.split(sep)`, read character by character: a separator starts a new, empty part. */
  function Split(s: string, sep: char): (parts: seq<string>)
    ensures |parts| >= 1
    ensures forall k :: 0 <= k < |parts| ==> sep !in parts[k]
  {
    if s == [] then [""]
    else
      var parts := Split(s[..|s| - 1], sep);
      var c := s[|s| - 1];
      if c == sep then parts + [""]
      else parts[..|parts| - 1] + [parts[|parts| - 1] + [c]]
  }

  /** `sep.join(parts)`. */
  function Join(parts: seq<string>, sep: char): string
    requires |parts| >= 1
  {
    if |parts| == 1 then parts[0] else Join(parts[..|parts| - 1], sep) + [sep] + parts[|parts| - 1]
  }

  /** Splitting loses nothing: joining the parts back with the separator gives the text. */
  lemma {:induction false} JoinSplit(s: string, sep: char)
    ensures Join(Split(s, sep), sep) == s
  {
    if s != [] {
      var init, c := s[..|s| - 1], s[|s| - 1];
      assert s == init + [c];
      var parts := Split(init, sep);
      JoinSplit(init, sep);
      var result := Split(s, sep);
      var last := parts[|parts| - 1];
      if c == sep {
        assert result == parts + [""];
        assert result[..|result| - 1] == parts;
        assert Join(result, sep) == Join(parts, sep) + [sep] + "";
      } else if |parts| == 1 {
        assert result == [last + [c]];
      } else {
        var front := parts[..|parts| - 1];
        assert result == front + [last + [c]];
        assert result[..|result| - 1] == front;
        assert Join(result, sep) == Join(front, sep) + [sep] + (last + [c]);
        assert Join(parts, sep) == Join(front, sep) + [sep] + last;
      }
    }
  }

  /** Text that ends with a separator and then a separator-free part splits into one more part. */
  lemma {:induction false} SplitAfterSeparator(prefix: string, sep: char, part: string)
    requires sep !in part
    ensures Split(prefix + [sep] + part, sep) == Split(prefix, sep) + [part]
    decreases |part|
  {
    var s := prefix + [sep] + part;
    if part == [] {
      assert s[..|s| - 1] == prefix;
    } else {
      var init := part[..|part| - 1];
      SplitAfterSeparator(prefix, sep, init);
      assert s[..|s| - 1] == prefix + [sep] + init;
      assert init + [part[|part| - 1]] == part;
    }
  }

  /** Joining separator-free parts and splitting again gives the same parts back. */
  lemma {:induction false} SplitJoin(parts: seq<string>, sep: char)
    requires |parts| >= 1
    requires forall k :: 0 <= k < |parts| ==> sep !in parts[k]
    ensures Split(Join(parts, sep), sep) == parts
    decreases |parts|
  {
    if |parts| == 1 {
      SplitSeparatorFree(parts[0], sep);
    } else {
      var init := parts[..|parts| - 1];
      SplitJoin(init, sep);
      SplitAfterSeparator(Join(init, sep), sep, parts[|parts| - 1]);
    }
  }

  /** Text without the separator is a single part. */
  lemma {:induction false} SplitSeparatorFree(s: string, sep: char)
    requires sep !in s
    ensures Split(s, sep) == [s]
    decreases |s|
  {
    if s != [] {
      SplitSeparatorFree(s[..|s| - 1], sep);
      assert s[..|s| - 1] + [s[|s| - 1]] == s;
    }
  }

  /** Whitespace appended to a text is all that `rstrip` removes from it. */
  lemma {:induction false} RStripTrailing(s: string, ws: string)
    requires s != [] && !IsSpace(s[|s| - 1])
    requires forall i :: 0 <= i < |ws| ==> IsSpace(ws[i])
    ensures RStrip(s + ws) == s
    decreases |ws|
  {
    if ws != [] {
      var shorter := ws[..|ws| - 1];
      assert (s + ws)[..|s + ws| - 1] == s + shorter;
      RStripTrailing(s, shorter);
    } else {
      assert s + ws == s;
    }
  }

  /** The list of usernames the permissions file grants. */
  function AllowList(permissions: string): seq<string> {
    Split(RStrip(permissions), '\n')
  }

  /**
   * A permissions file written as one username per line, followed by any trailing blank lines
   * or spaces, grants exactly those usernames.
   */
  lemma AllowListOfLines(names: seq<string>, trailing: string)
    requires |names| >= 1
    requires forall k :: 0 <= k < |names| ==> '\n' !in names[k]
    requires names[|names| - 1] != [] && !IsSpace(names[|names| - 1][|names[|names| - 1]| - 1])
    requires forall i :: 0 <= i < |trailing| ==> IsSpace(trailing[i])
    ensures AllowList(Join(names, '\n') + trailing) == names
  {
    var text := Join(names, '\n');
    JoinEndsWithLastPart(names, '\n');
    RStripTrailing(text, trailing);
    SplitJoin(names, '\n');
  }

  lemma {:induction false} JoinEndsWithLastPart(parts: seq<string>, sep: char)
    requires |parts| >= 1 && parts[|parts| - 1] != []
    ensures var j := Join(parts, sep); |j| >= |parts[|parts| - 1]| && j[|j| - 1] == parts[|parts| - 1][|parts[|parts| - 1]| - 1]
  {
  }

  /** `_is_user_known`: the username is exactly one of the lines; a user without a username never is. */
  predicate IsUserKnown(username: Option<string>, permissions: string) {
    username.Some? && username.value in AllowList(permissions)
  }

  /** A line with extra spaces or a different case does not grant access: membership is exact. */
  lemma KnownOnlyByExactLine(username: string, names: seq<string>, trailing: string)
    requires |names| >= 1
    requires forall k :: 0 <= k < |names| ==> '\n' !in names[k]
    requires names[|names| - 1] != [] && !IsSpace(names[|names| - 1][|names[|names| - 1]| - 1])
    requires forall i :: 0 <= i < |trailing| ==> IsSpace(trailing[i])
    ensures IsUserKnown(Some(username), Join(names, '\n') + trailing) <==> username in names
  {
    AllowListOfLines(names, trailing);
  }

  // ---------------------------------------------------------------------------
  // The handlers
  // ---------------------------------------------------------------------------

  /** The message a handler sends, or the error that escapes it without a message. */
  datatype Reply =
    | Refusal           // "I don't know you", sent by `_is_user_known`
    | Greeting          // the introduction of `start`
    | AmpersandWarning  // '&' cannot be sent to the catalogue
    | NothingFound      // the search found nothing
    | Found(prediction: Prediction)
    | Raised(error: PyError)

  /** `start`: the greeting for a known user, the refusal for anyone else. */
  function Start(username: Option<string>, permissions: string): (reply: Reply)
    ensures reply == Greeting <==> IsUserKnown(username, permissions)
    ensures reply == Refusal <==> !IsUserKnown(username, permissions)
  {
    if IsUserKnown(username, permissions) then Greeting else Refusal
  }

  /** A handler's effect: the reply, and the texts it passed to `predict`, in order. */
  datatype Turn = Turn(reply: Reply, predictCalls: seq<string>)

  /**
   * `bot_predict`: unknown users are refused; a text containing '&' earns the warning
   * without any prediction; any other text is predicted once, and a falsy prediction earns
   * "nothing found".
   */
  function BotPredict(username: Option<string>, permissions: string, text: string,
                      predict: string -> Result<Option<Prediction>>): (turn: Turn)
    ensures !IsUserKnown(username, permissions) ==> turn == Turn(Refusal, [])
    ensures '&' in text ==> turn.predictCalls == []
    ensures IsUserKnown(username, permissions) && '&' in text ==> turn.reply == AmpersandWarning
    ensures IsUserKnown(username, permissions) && '&' !in text ==>
      turn.predictCalls == [text]
      && (turn.reply == NothingFound <==> predict(text) == Ok(None))
      && (turn.reply.Found? <==> predict(text).Ok? && predict(text).value.Some?)
      && (turn.reply.Found? ==> turn.reply.prediction == predict(text).value.value)
  {
    if !IsUserKnown(username, permissions) then Turn(Refusal, [])
    else if '&' in text then Turn(AmpersandWarning, [])
    else
      var reply := match predict(text)
        case Err(e) => Raised(e)
        case Ok(None) => NothingFound
        case Ok(Some(p)) => Found(p);
      Turn(reply, [text])
  }

  /**
   * Wired to the predictor, a known user's query with no catalogue hit gets "nothing found",
   * and a query with '&' never reaches the search.
   */
  lemma BotWithPredictor(username: Option<string>, permissions: string, text: string,
                         search: SearchApi, audioFeatures: FeaturesApi, log: real -> real,
                         scaler: FeatureRow.Scaler, forest: Classifier)
    requires FeatureRow.PreservesLength(scaler)
    requires IsUserKnown(username, permissions)
    ensures var turn := BotPredict(username, permissions, text,
                                   q => PredictOutcome(q, search, audioFeatures, log, scaler, forest));
      ('&' in text ==> turn == Turn(AmpersandWarning, []))
      && ('&' !in text && search(text, SearchLimit, None) == [] ==> turn == Turn(NothingFound, [text]))
  {
    if '&' !in text && search(text, SearchLimit, None) == [] {
      PredictNotFound(text, search, audioFeatures, log, scaler, forest);
    }
  }
}
