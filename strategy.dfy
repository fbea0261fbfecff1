/**
 * Turning the language model's reply into a search strategy
 * (`getSearchQueriesFromClaude` in backend/api/playlist/generate.js): the
 * reply is searched for the pattern `\{[\s\S]*\}`, the matched text is given
 * to a JSON parser, and missing fields get fixed defaults.
 *
 * The JSON parser is a foreign call; it is a parameter of the model.
 */
module SearchStrategy {
  import opened Common

  const DefaultPlaylistName: string := "AI Playlist"
  const DefaultQueries: seq<string> := ["sad songs", "breakup songs"]

  /** The playlist name and the ordered search queries the rest of the request uses. */
  datatype Strategy = Strategy(playlistName: string, queries: seq<string>)

  /**
   * The two fields read from the parsed object. `None` stands for a field that
   * is absent or holds a falsy value (`null`, `false`, `0`); an empty name
   * is `Some("")`, an empty query array `Some([])`.
   */
  datatype ParsedReply = ParsedReply(playlistName: Option<string>, queries: Option<seq<string>>)

  /** `JSON.parse` either yields an object or throws a `SyntaxError`. */
  datatype ParseOutcome = Parsed(reply: ParsedReply) | SyntaxError

  /** The strategy chosen, or the parse error that escapes to the caller. */
  datatype StrategyOutcome = Chosen(strategy: Strategy) | ParseFailed

  function DefaultStrategy(): Strategy
  {
    Strategy(DefaultPlaylistName, DefaultQueries)
  }

  /** `text[i..j]` matches `\{[\s\S]*\}`: it opens with `{` and closes with a later `}`. */
  predicate IsMatch(text: string, i: int, j: int)
  {
    0 <= i && i + 2 <= j <= |text| && text[i] == '{' && text[j - 1] == '}'
  }

  /** The first position at or after `from` that holds `c`. */
  function IndexOf(s: string, c: char, from: nat): (r: Option<nat>)
    decreases |s| - from
    ensures r.Some? ==> from <= r.value < |s| && s[r.value] == c &&
                        forall k :: from <= k < r.value ==> s[k] != c
    ensures r.None? ==> forall k :: from <= k < |s| ==> s[k] != c
  {
    if from >= |s| then None
    else if s[from] == c then Some(from)
    else IndexOf(s, c, from + 1)
  }

  /** The last position of `s` that holds `c`. */
  function LastIndexOf(s: string, c: char): (r: Option<nat>)
    ensures r.Some? ==> r.value < |s| && s[r.value] == c &&
                        forall k :: r.value < k < |s| ==> s[k] != c
    ensures r.None? ==> forall k :: 0 <= k < |s| ==> s[k] != c
  {
    if s == [] then None
    else if s[|s| - 1] == c then Some(|s| - 1)
    else LastIndexOf(s[..|s| - 1], c)
  }

  /**
   * The bounds of what `text.match(/\{[\s\S]*\}/)` returns. A regular
   * expression match starts as far left as possible and the greedy `*` makes
   * it as long as possible from there, so the match runs from the first `{`
   * to the last `}`, and there is none when no `}` follows the first `{`.
   */
  function BraceSpan(text: string): (r: Option<(nat, nat)>)
    ensures r.None? <==> forall i, j :: !IsMatch(text, i, j)
    ensures r.Some? ==> (IsMatch(text, r.value.0, r.value.1) &&
      (forall i, j :: IsMatch(text, i, j) ==> r.value.0 <= i) &&
      (forall j :: IsMatch(text, r.value.0, j) ==> j <= r.value.1))
  {
    var first := IndexOf(text, '{', 0);
    var last := LastIndexOf(text, '}');
    if first.Some? && last.Some? && first.value < last.value then
      assert IsMatch(text, first.value, last.value + 1);
      Some((first.value, last.value + 1))
    else None
  }

  /**
   * The `||` defaults of the returned record: a falsy field is replaced. An
   * array is truthy in JavaScript even when empty, so `queries: []` is kept.
   */
  function WithDefaults(p: ParsedReply): (s: Strategy)
    ensures s.playlistName != ""
    ensures Truthy(p.playlistName) ==> s.playlistName == p.playlistName.value
    ensures !Truthy(p.playlistName) ==> s.playlistName == DefaultPlaylistName
    ensures p.queries.Some? ==> s.queries == p.queries.value
    ensures p.queries == Some([]) ==> s.queries == []
    ensures p.queries.None? ==> s.queries == DefaultQueries
  {
    Strategy(
      if Truthy(p.playlistName) then p.playlistName.value else DefaultPlaylistName,
      if p.queries.Some? then p.queries.value else DefaultQueries)
  }

  /** The strategy for the model's reply `text`. */
  function StrategyFromReply(text: string, parse: string -> ParseOutcome): StrategyOutcome
  {
    match BraceSpan(text)
    case None => Chosen(DefaultStrategy())
    case Some((i, j)) =>
      match parse(text[i..j])
      case SyntaxError => ParseFailed
      case Parsed(p) => Chosen(WithDefaults(p))
  }

  /** A reply with no `}` after its first `{` gets the fixed default strategy, and nothing is parsed. */
  lemma NoBraceSpanGivesDefault(text: string, parse: string -> ParseOutcome)
    requires forall i, j :: 0 <= i < j < |text| && text[i] == '{' ==> text[j] != '}'
    ensures StrategyFromReply(text, parse) == Chosen(Strategy("AI Playlist", ["sad songs", "breakup songs"]))
  {
  }

  /**
   * Otherwise exactly the text from the first `{` to the last `}` is the span
   * handed to the parser; every `{`/`}` pair of the reply lies inside it.
   */
  lemma SpanFromFirstOpenToLastClose(text: string, i: nat, j: nat)
    requires i < j < |text| && text[i] == '{' && text[j] == '}'
    ensures IndexOf(text, '{', 0).Some? && LastIndexOf(text, '}').Some?
    ensures var first, last := IndexOf(text, '{', 0).value, LastIndexOf(text, '}').value;
      first <= i && j <= last &&
      BraceSpan(text) == Some((first, last + 1))
  {
    assert IsMatch(text, i, j + 1);
  }

  /**
   * The reply fails to yield a strategy exactly when it has a brace span the
   * parser rejects, and a chosen strategy always has a non-empty name.
   */
  lemma StrategyOutcomeCases(text: string, parse: string -> ParseOutcome)
    ensures var r, span := StrategyFromReply(text, parse), BraceSpan(text);
      (r.ParseFailed? <==> span.Some? && parse(text[span.value.0..span.value.1]).SyntaxError?) &&
      (r.Chosen? ==> r.strategy.playlistName != "") &&
      (span.None? ==> r == Chosen(DefaultStrategy()))
  {
  }
}
