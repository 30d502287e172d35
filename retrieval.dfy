/**
 * Retrieval over one meeting: semantic search through the vector index,
 * one query per requested role, merged and ranked once; the keyword
 * fallback ranked by shared tokens; the window of utterances around one
 * result; and the prompt text built from a result list.
 */
module Retrieval {
  import opened Wrappers
  import opened Dicts
  import opened Seqs
  import opened Text
  import opened FileSystem
  import opened Schema
  import opened Storage

  /** A search result: the stored utterance, and the similarity score when semantic search attached one. */
  datatype Hit = Hit(utterance: Utterance, score: Option<real>)

  /**
   * The vector index of the meetings: `search(meetingId, query, nResults,
   * speakerFilter)` gives its ranked results, or the message of the error it
   * raised (no collection for the meeting, say).
   */
  type Index = (string, string, int, Option<string>) -> Result<seq<Hit>, string>

  // ---------------------------------------------------------------------------
  // Roles and labels

  /** `{v: k for k, v in speaker_map.items()}` when a non-empty map was loaded, `{}` otherwise. */
  function ReverseMap(loaded: Option<SpeakerMap>): Dict<string, string> {
    match loaded
    case Some(m) => if m != [] then Invert(m) else []
    case None => []
  }

  /** `reverse_map.get(role, role)`: the label of a role, or the role itself when it has none. */
  function ResolveRole(reverse: Dict<string, string>, role: string): string {
    Lookup(reverse, role).GetOr(role)
  }

  /**
   * A role resolves to the LAST label the speaker map maps to it, and passes
   * through verbatim when no label maps to it.
   */
  lemma ResolveRoleMeaning(m: SpeakerMap, role: string)
    ensures (forall i :: 0 <= i < |m| ==> m[i].1 != role) ==> ResolveRole(ReverseMap(Some(m)), role) == role
    ensures forall i :: LastWithValue(m, i, role) ==> ResolveRole(ReverseMap(Some(m)), role) == m[i].0
  {
    if m != [] {
      forall i | LastWithValue(m, i, role) ensures ResolveRole(Invert(m), role) == m[i].0 {
        InvertLastWins(m, role, m[i].0);
      }
      InvertLastWins(m, role, role);
    }
  }

  /** Two labels mapped to one role: the reverse lookup keeps the later one. */
  lemma ResolveRoleCollision()
    ensures ResolveRole(ReverseMap(Some([("SPEAKER_0", "CEO"), ("SPEAKER_1", "CEO")])), "CEO") == "SPEAKER_1"
  {
    var m := [("SPEAKER_0", "CEO"), ("SPEAKER_1", "CEO")];
    ResolveRoleMeaning(m, "CEO");
    assert LastWithValue(m, 1, "CEO");
  }

  // ---------------------------------------------------------------------------
  // Semantic search

  /** `x.get("score", 0)`: a result without a score ranks as 0. */
  function ScoreOf(h: Hit): real {
    h.score.GetOr(0.0)
  }

  /**
   * The results of querying the index once per role, in the given order, each
   * scoped to the role's label and asking for `maxResults`, concatenated; the
   * first failing query's error ends the search.
   */
  function Gathered(index: Index, meetingId: string, query: string, roles: seq<string>, maxResults: int,
                    reverse: Dict<string, string>): Result<seq<Hit>, Error>
  {
    if roles == [] then Success([])
    else
      var n := |roles|;
      var before :- Gathered(index, meetingId, query, roles[..n - 1], maxResults, reverse);
      match index(meetingId, query, maxResults, Some(ResolveRole(reverse, roles[n - 1])))
      case Success(hits) => Success(before + hits)
      case Failure(message) => Failure(Raised(message))
  }

  /** The query for role `role`, as the search sends it to the index. */
  function RoleQuery(index: Index, meetingId: string, query: string, role: string, maxResults: int,
                     reverse: Dict<string, string>): Result<seq<Hit>, string>
  {
    index(meetingId, query, maxResults, Some(ResolveRole(reverse, role)))
  }

  /**
   * What the gathering gives: every result came back from the query of some
   * requested role, and a failure is the failure of some role's query.
   */
  lemma {:induction false} GatheredFrom(index: Index, meetingId: string, query: string, roles: seq<string>, maxResults: int,
                                        reverse: Dict<string, string>)
    ensures var g := Gathered(index, meetingId, query, roles, maxResults, reverse);
      (g.Success? ==> forall h :: h in g.value ==>
        exists i :: 0 <= i < |roles| && RoleQuery(index, meetingId, query, roles[i], maxResults, reverse).Success? &&
          h in RoleQuery(index, meetingId, query, roles[i], maxResults, reverse).value) &&
      (g.Failure? ==> exists i :: (0 <= i < |roles| &&
        RoleQuery(index, meetingId, query, roles[i], maxResults, reverse).Failure? &&
        g.error == Raised(RoleQuery(index, meetingId, query, roles[i], maxResults, reverse).error))) &&
      (g.Success? ==> forall i :: 0 <= i < |roles| ==> RoleQuery(index, meetingId, query, roles[i], maxResults, reverse).Success?)
  {
    if roles != [] {
      var n := |roles|;
      var init := roles[..n - 1];
      GatheredFrom(index, meetingId, query, init, maxResults, reverse);
      assert forall i :: 0 <= i < n - 1 ==> init[i] == roles[i];
    }
  }

  /** Once the queries of the first roles fail, the search fails with their error. */
  lemma {:induction false} GatheredPrefixFails(index: Index, meetingId: string, query: string, roles: seq<string>, maxResults: int,
                                               reverse: Dict<string, string>, j: nat)
    requires j <= |roles|
    requires Gathered(index, meetingId, query, roles[..j], maxResults, reverse).Failure?
    ensures Gathered(index, meetingId, query, roles, maxResults, reverse) == Gathered(index, meetingId, query, roles[..j], maxResults, reverse)
    decreases |roles|
  {
    if j < |roles| {
      var init := roles[..|roles| - 1];
      assert init[..j] == roles[..j];
      GatheredPrefixFails(index, meetingId, query, init, maxResults, reverse, j);
    } else {
      assert roles[..j] == roles;
    }
  }

  /** What the index returns before ranking: one scoped query per role, or one unscoped query. */
  function Fetched(index: Index, meetingId: string, query: string, roles: seq<string>, maxResults: int,
                   reverse: Dict<string, string>): Result<seq<Hit>, Error>
  {
    if roles != [] then Gathered(index, meetingId, query, roles, maxResults, reverse)
    else
      match index(meetingId, query, maxResults, None)
      case Success(hits) => Success(hits)
      case Failure(message) => Failure(Raised(message))
  }

  /** Ranking: a stable sort by score, best first, cut to `maxResults` (Python slice semantics). */
  function Ranked(all: seq<Hit>, maxResults: int): seq<Hit> {
    Prefix(SortDesc(all, ScoreOf), maxResults)
  }

  /** `_semantic_search`. */
  method SemanticSearch(index: Index, meetingId: string, query: string, roles: seq<string>, maxResults: int,
                        reverse: Dict<string, string>) returns (r: Result<seq<Hit>, Error>)
    ensures var f := Fetched(index, meetingId, query, roles, maxResults, reverse);
      (r.Failure? <==> f.Failure?) && (r.Failure? ==> r.error == f.error) &&
      (r.Success? ==> r.value == Ranked(f.value, maxResults))
  {
    var allResults: seq<Hit> := [];
    if roles != [] {
      var i := 0;
      while i < |roles|
        invariant 0 <= i <= |roles|
        invariant Gathered(index, meetingId, query, roles[..i], maxResults, reverse) == Success(allResults)
      {
        var speakerId := ResolveRole(reverse, roles[i]);
        var results := index(meetingId, query, maxResults, Some(speakerId));
        assert roles[..i + 1][..i] == roles[..i];
        if results.Failure? {
          GatheredPrefixFails(index, meetingId, query, roles, maxResults, reverse, i + 1);
          return Failure(Raised(results.error));
        }
        allResults := allResults + results.value;
        i := i + 1;
      }
      assert roles[..|roles|] == roles;
    } else {
      var results := index(meetingId, query, maxResults, None);
      if results.Failure? {
        return Failure(Raised(results.error));
      }
      allResults := results.value;
    }
    allResults := SortDesc(allResults, ScoreOf);
    return Success(Prefix(allResults, maxResults));
  }

  /**
   * The ranking of the merged results: best first, no longer than asked,
   * made of fetched results only, and nothing that was cut off scores above
   * anything kept, whichever role's query returned it.
   */
  lemma RankedProperties(all: seq<Hit>, maxResults: int)
    ensures var r := Ranked(all, maxResults);
      NonIncreasing(r, ScoreOf) &&
      |r| == (if maxResults < 0 then (if |all| + maxResults >= 0 then |all| + maxResults else 0)
              else if maxResults <= |all| then maxResults else |all|) &&
      multiset(r) <= multiset(all) &&
      forall x, y :: x in multiset(all) - multiset(r) && y in r ==> ScoreOf(y) >= ScoreOf(x)
  {
    PrefixKeeps(SortDesc(all, ScoreOf), ScoreOf, maxResults);
    TopIsBest(all, ScoreOf, maxResults);
  }

  /** Keeping the first `n` elements keeps, for every score, a prefix of the elements with that score. */
  lemma {:induction false} WithKeyPrefix<T>(s: seq<T>, key: T -> real, k: real, n: nat)
    requires n <= |s|
    ensures var w := WithKey(s, key, k); var v := WithKey(s[..n], key, k); |v| <= |w| && v == w[..|v|]
  {
    if n > 0 {
      assert s[..n][0] == s[0] && s[..n][1..] == s[1..][..n - 1];
      WithKeyPrefix(s[1..], key, k, n - 1);
    }
  }

  /** Stability: results of equal score keep the order in which the index returned them. */
  lemma RankedStable(all: seq<Hit>, maxResults: int, k: real)
    ensures var v := WithKey(Ranked(all, maxResults), ScoreOf, k); var w := WithKey(all, ScoreOf, k);
      |v| <= |w| && v == w[..|v|]
  {
    var sorted := SortDesc(all, ScoreOf);
    SortDescStable(all, ScoreOf, k);
    WithKeyPrefix(sorted, ScoreOf, k, |Ranked(all, maxResults)|);
  }

  // ---------------------------------------------------------------------------
  // Keyword search

  /** The distinct words of `s`, lowercased: `set(s.lower().split())`. */
  function Tokens(s: string): set<string> {
    var ws := Words(Lower(s));
    set i | 0 <= i < |ws| :: ws[i]
  }

  /** `len(query_tokens & text_tokens)`. */
  function Overlap(queryTokens: set<string>, text: string): nat {
    |queryTokens * Tokens(text)|
  }

  /** No filter when no roles are given; otherwise the stored speaker must be one of them, as it is. */
  predicate RoleAllowed(roles: seq<string>, u: Utterance) {
    roles == [] || u.speaker in roles
  }

  /** An utterance the keyword search keeps: allowed by the role filter and sharing a token with the query. */
  predicate Qualifies(queryTokens: set<string>, roles: seq<string>, u: Utterance) {
    RoleAllowed(roles, u) && Overlap(queryTokens, u.text) > 0
  }

  /** The `(overlap, utterance)` pairs the scoring loop collects, in transcript order. */
  function Scored(us: seq<Utterance>, queryTokens: set<string>, roles: seq<string>): seq<(nat, Utterance)> {
    if us == [] then []
    else
      var u := us[|us| - 1];
      Scored(us[..|us| - 1], queryTokens, roles) +
        if Qualifies(queryTokens, roles, u) then [(Overlap(queryTokens, u.text), u)] else []
  }

  function OverlapOf(p: (nat, Utterance)): real {
    p.0 as real
  }

  function UtteranceOf(p: (nat, Utterance)): Utterance {
    p.1
  }

  /** The stored utterances of the pairs, without a score. */
  function Unscored(ps: seq<(nat, Utterance)>): (r: seq<Hit>)
    ensures |r| == |ps| && forall i :: 0 <= i < |ps| ==> r[i] == Hit(ps[i].1, None)
  {
    seq(|ps|, i requires 0 <= i < |ps| => Hit(ps[i].1, None))
  }

  /** The pairs scored correctly, one for each qualifying utterance, in order. */
  lemma {:induction false} ScoredShape(us: seq<Utterance>, queryTokens: set<string>, roles: seq<string>)
    ensures var ps := Scored(us, queryTokens, roles);
      |ps| == Count(us, u => Qualifies(queryTokens, roles, u)) &&
      (forall i :: 0 <= i < |ps| ==> ps[i].1 in us && Qualifies(queryTokens, roles, ps[i].1) && ps[i].0 == Overlap(queryTokens, ps[i].1.text))
  {
    if us != [] {
      var init := us[..|us| - 1];
      ScoredShape(init, queryTokens, roles);
      assert us == init + [us[|us| - 1]];
      CountSnoc(init, us[|us| - 1], u => Qualifies(queryTokens, roles, u));
      forall x | x in init ensures x in us {
      }
    }
  }

  /** Scoring one more utterance of a prefix. */
  lemma ScoredStep(us: seq<Utterance>, i: int, queryTokens: set<string>, roles: seq<string>)
    requires 0 <= i < |us|
    ensures Scored(us[..i + 1], queryTokens, roles) ==
      Scored(us[..i], queryTokens, roles) + if Qualifies(queryTokens, roles, us[i]) then [(Overlap(queryTokens, us[i].text), us[i])] else []
  {
    assert us[..i + 1][..i] == us[..i];
  }

  /** The scoring loop of `_keyword_search`, with its role filter and its zero-overlap skip. */
  method ScoreUtterances(us: seq<Utterance>, queryTokens: set<string>, roles: seq<string>) returns (scored: seq<(nat, Utterance)>)
    ensures scored == Scored(us, queryTokens, roles)
  {
    scored := [];
    var i := 0;
    while i < |us|
      invariant 0 <= i <= |us|
      invariant scored == Scored(us[..i], queryTokens, roles)
    {
      var utt := us[i];
      ScoredStep(us, i, queryTokens, roles);
      if roles != [] && utt.speaker !in roles {
        i := i + 1;
        continue;
      }
      var overlap := |queryTokens * Tokens(utt.text)|;
      if overlap > 0 {
        scored := scored + [(overlap, utt)];
      }
      i := i + 1;
    }
    assert us[..|us|] == us;
  }

  /** `[utt for _, utt in pairs]`. */
  method StripScores(pairs: seq<(nat, Utterance)>) returns (r: seq<Hit>)
    ensures r == Unscored(pairs)
  {
    r := [];
    var j := 0;
    while j < |pairs|
      invariant 0 <= j <= |pairs|
      invariant r == Unscored(pairs[..j])
    {
      r := r + [Hit(pairs[j].1, None)];
      j := j + 1;
    }
    assert pairs[..|pairs|] == pairs;
  }

  /** `_keyword_search` on the utterances it loaded. */
  method KeywordRank(us: seq<Utterance>, query: string, roles: seq<string>, maxResults: int) returns (r: seq<Hit>)
    ensures r == Unscored(Prefix(SortDesc(Scored(us, Tokens(query), roles), OverlapOf), maxResults))
  {
    var queryTokens := Tokens(query);
    var scoredUtterances := ScoreUtterances(us, queryTokens, roles);
    scoredUtterances := SortDesc(scoredUtterances, OverlapOf);
    r := StripScores(Prefix(scoredUtterances, maxResults));
  }

  /**
   * Every keyword result shares at least one lowercase token with the query,
   * passes the role filter, is a stored utterance and has no score; results
   * come best overlap first, and as many as qualify up to `maxResults`.
   */
  lemma KeywordProperties(us: seq<Utterance>, query: string, roles: seq<string>, maxResults: int)
    ensures var ps := Prefix(SortDesc(Scored(us, Tokens(query), roles), OverlapOf), maxResults);
      var r := Unscored(ps);
      var n := Count(us, u => Qualifies(Tokens(query), roles, u));
      (forall i :: 0 <= i < |r| ==>
        r[i].score.None? && r[i].utterance in us && RoleAllowed(roles, r[i].utterance) &&
        exists w :: w in Tokens(query) && w in Tokens(r[i].utterance.text)) &&
      (forall i, j :: 0 <= i < j < |ps| ==> ps[i].0 >= ps[j].0) &&
      |r| == (if maxResults < 0 then (if n + maxResults >= 0 then n + maxResults else 0)
              else if maxResults <= n then maxResults else n)
  {
    var qt := Tokens(query);
    var ps0 := Scored(us, qt, roles);
    var sorted := SortDesc(ps0, OverlapOf);
    var ps := Prefix(sorted, maxResults);
    ScoredShape(us, qt, roles);
    forall i | 0 <= i < |ps|
      ensures ps[i].1 in us && Qualifies(qt, roles, ps[i].1)
    {
      assert ps[i] == sorted[i];
      assert ps[i] in multiset(ps0);
    }
    forall i | 0 <= i < |ps| ensures exists w :: w in qt && w in Tokens(ps[i].1.text) {
      assert |qt * Tokens(ps[i].1.text)| > 0;
      var w :| w in qt * Tokens(ps[i].1.text);
    }
    forall i, j | 0 <= i < j < |ps| ensures ps[i].0 >= ps[j].0 {
      assert OverlapOf(sorted[i]) >= OverlapOf(sorted[j]);
    }
  }

  /** No qualifying utterance that was cut off overlaps the query more than one that was kept. */
  lemma KeywordTopIsBest(us: seq<Utterance>, query: string, roles: seq<string>, maxResults: int)
    ensures var all := Scored(us, Tokens(query), roles);
      var kept := Prefix(SortDesc(all, OverlapOf), maxResults);
      forall x, y :: x in multiset(all) - multiset(kept) && y in kept ==> y.0 >= x.0
  {
    var all := Scored(us, Tokens(query), roles);
    var kept := Prefix(SortDesc(all, OverlapOf), maxResults);
    TopIsBest(all, OverlapOf, maxResults);
    forall x, y | x in multiset(all) - multiset(kept) && y in kept ensures y.0 >= x.0 {
      assert OverlapOf(y) >= OverlapOf(x);
    }
  }

  /** Stability: utterances of equal overlap keep their transcript order among the results. */
  lemma KeywordStable(us: seq<Utterance>, query: string, roles: seq<string>, maxResults: int, k: real)
    ensures var all := Scored(us, Tokens(query), roles);
      var v := WithKey(Prefix(SortDesc(all, OverlapOf), maxResults), OverlapOf, k);
      var w := WithKey(all, OverlapOf, k);
      |v| <= |w| && v == w[..|v|]
  {
    var all := Scored(us, Tokens(query), roles);
    var sorted := SortDesc(all, OverlapOf);
    SortDescStable(all, OverlapOf, k);
    WithKeyPrefix(sorted, OverlapOf, k, |Prefix(sorted, maxResults)|);
  }

  /** `_keyword_search`: loads the transcript's utterances and ranks them. */
  method KeywordSearch(files: Files, meetingId: string, query: string, roles: seq<string>, maxResults: int)
    returns (r: Result<seq<Hit>, Error>)
    ensures GetUtterances(files, meetingId).Failure? ==> r == Failure(GetUtterances(files, meetingId).error)
    ensures GetUtterances(files, meetingId).Success? ==>
      r == Success(Unscored(Prefix(SortDesc(Scored(GetUtterances(files, meetingId).value, Tokens(query), roles), OverlapOf), maxResults)))
  {
    var us :- GetUtterances(files, meetingId);
    var hits := KeywordRank(us, query, roles, maxResults);
    return Success(hits);
  }

  /**
   * `search_utterances`: loads the speaker map (a malformed one is an error),
   * then searches semantically with roles resolved to labels, or by keyword
   * with roles compared to the stored speakers as they are. An empty role
   * list means no filter, like `None`.
   */
  method SearchUtterances(files: Files, index: Index, meetingId: string, query: string, roles: seq<string>,
                          maxResults: int, useSemantic: bool) returns (r: Result<seq<Hit>, Error>)
    ensures LoadSpeakerMap(files, meetingId).Failure? ==> r == Failure(LoadSpeakerMap(files, meetingId).error)
    ensures LoadSpeakerMap(files, meetingId).Success? && useSemantic ==>
      var f := Fetched(index, meetingId, query, roles, maxResults, ReverseMap(LoadSpeakerMap(files, meetingId).value));
      r == if f.Success? then Success(Ranked(f.value, maxResults)) else Failure(f.error)
    ensures LoadSpeakerMap(files, meetingId).Success? && !useSemantic ==>
      var all := GetUtterances(files, meetingId);
      r == if all.Success? then Success(Unscored(Prefix(SortDesc(Scored(all.value, Tokens(query), roles), OverlapOf), maxResults)))
           else Failure(all.error)
  {
    var speakerMap :- LoadSpeakerMap(files, meetingId);
    var reverseMap := ReverseMap(speakerMap);
    if useSemantic {
      r := SemanticSearch(index, meetingId, query, roles, maxResults, reverseMap);
    } else {
      r := KeywordSearch(files, meetingId, query, roles, maxResults);
    }
  }

  // ---------------------------------------------------------------------------
  // Context around an utterance

  /** The position of the first utterance carrying `id`. */
  function FirstWithId(us: seq<Utterance>, id: int): (r: Option<nat>)
    ensures r.None? <==> forall k :: 0 <= k < |us| ==> us[k].id != id
    ensures r.Some? ==> r.value < |us| && us[r.value].id == id && forall k :: 0 <= k < r.value ==> us[k].id != id
  {
    if us == [] then None
    else if us[0].id == id then Some(0)
    else
      match FirstWithId(us[1..], id)
      case None => None
      case Some(k) => Some(k + 1)
  }

  /** The linear scan of `get_context_around_utterance`, which stops at the first match. */
  method FindTarget(us: seq<Utterance>, id: int) returns (target: Option<nat>)
    ensures target == FirstWithId(us, id)
  {
    target := None;
    var i := 0;
    while i < |us|
      invariant 0 <= i <= |us|
      invariant forall k :: 0 <= k < i ==> us[k].id != id
    {
      if us[i].id == id {
        target := Some(i);
        break;
      }
      i := i + 1;
    }
  }

  /** A Python slice bound: negative counts from the end, then clamped to `[0, n]`. */
  function SliceBound(b: int, n: nat): (r: nat)
    ensures r <= n
    ensures 0 <= b <= n ==> r == b
  {
    if b < 0 then (if n + b >= 0 then n + b else 0) else if b > n then n else b
  }

  /** `s[a:b]` for any Python integers `a`, `b`. */
  function PySlice<T>(s: seq<T>, a: int, b: int): seq<T> {
    var lo, hi := SliceBound(a, |s|), SliceBound(b, |s|);
    if lo < hi then s[lo..hi] else []
  }

  function Max(a: int, b: int): int {
    if a >= b then a else b
  }

  function Min(a: int, b: int): int {
    if a <= b then a else b
  }

  /** `utterances[max(0, i - k):min(len(utterances), i + k + 1)]`. */
  function Window(us: seq<Utterance>, i: nat, k: int): seq<Utterance> {
    PySlice(us, Max(0, i - k), Min(|us|, i + k + 1))
  }

  /** The context of utterance `id`: empty when no utterance has it, else the window around its first occurrence. */
  function Context(us: seq<Utterance>, id: int, k: int): seq<Utterance> {
    match FirstWithId(us, id)
    case None => []
    case Some(i) => Window(us, i, k)
  }

  /**
   * For a non-negative radius the window is the slice clamped to the list,
   * holds the target, has at most `2k + 1` utterances, and every one lies
   * within `k` positions of the target.
   */
  lemma WindowProperties(us: seq<Utterance>, i: nat, k: nat)
    requires i < |us|
    ensures var lo, hi := Max(0, i - k), Min(|us|, i + k + 1);
      var w := Window(us, i, k);
      w == us[lo..hi] && us[i] in w && w[i - lo] == us[i] &&
      |w| <= 2 * k + 1 &&
      forall j :: 0 <= j < |w| ==> w[j] == us[lo + j] && i - k <= lo + j <= i + k
  {
  }

  /** With ids 1 to 10, the window of radius 2 around id 5 holds ids 3 to 7, and the one around id 1 stops at the start. */
  lemma ContextExample(us: seq<Utterance>)
    requires |us| == 10 && forall j :: 0 <= j < 10 ==> us[j].id == j + 1
    ensures Context(us, 5, 2) == us[2..7] && Context(us, 1, 2) == us[0..3]
  {
    assert FirstWithId(us, 5) == Some(4) by {
      assert us[4].id == 5;
    }
    assert FirstWithId(us, 1) == Some(0) by {
      assert us[0].id == 1;
    }
  }

  /** The body of `get_context_around_utterance` once the utterances are loaded. */
  method ContextAround(utterances: seq<Utterance>, utteranceId: int, contextSize: int) returns (context: seq<Utterance>)
    ensures context == Context(utterances, utteranceId, contextSize)
  {
    var targetIdx := FindTarget(utterances, utteranceId);
    if targetIdx.None? {
      return [];
    }
    var startIdx := Max(0, targetIdx.value - contextSize);
    var endIdx := Min(|utterances|, targetIdx.value + contextSize + 1);
    context := PySlice(utterances, startIdx, endIdx);
  }

  /** `get_context_around_utterance`: a load failure propagates, otherwise the context window. */
  method GetContextAroundUtterance(files: Files, meetingId: string, utteranceId: int, contextSize: int)
    returns (r: Result<seq<Utterance>, Error>)
    ensures GetUtterances(files, meetingId).Failure? ==> r == Failure(GetUtterances(files, meetingId).error)
    ensures GetUtterances(files, meetingId).Success? ==>
      r == Success(Context(GetUtterances(files, meetingId).value, utteranceId, contextSize))
  {
    var loaded := GetUtterances(files, meetingId);
    if loaded.Failure? {
      return Failure(loaded.error);
    }
    var context := ContextAround(loaded.value, utteranceId, contextSize);
    return Success(context);
  }

  // ---------------------------------------------------------------------------
  // Prompt text

  /** The text returned for no results; two literals, so that its first character is cheap to prove. */
  const NoInformation: string := "No relevant" + " information found in the meeting."

  /** How times (`:.1f`) and scores (`:.2f`) are written; float formatting is not modelled. */
  datatype Renderer = Renderer(seconds: real -> string, score: real -> string)

  function Timestamp(u: Utterance, includeTimestamps: bool, render: Renderer): string {
    if includeTimestamps then " [" + render.seconds(u.start) + "s-" + render.seconds(u.end) + "s]" else ""
  }

  function ScoreInfo(h: Hit, render: Renderer): string {
    match h.score
    case Some(s) => " (relevance: " + render.score(s) + ")"
    case None => ""
  }

  /** Entry number `n`: speaker, optional timestamp and relevance, then the text on an indented line. */
  function Entry(n: nat, h: Hit, includeTimestamps: bool, render: Renderer): string {
    NatToString(n) + ". " + h.utterance.speaker + Timestamp(h.utterance, includeTimestamps, render) +
    ScoreInfo(h, render) + ":\n   " + h.utterance.text
  }

  function Entries(results: seq<Hit>, includeTimestamps: bool, render: Renderer): (r: seq<string>)
    ensures |r| == |results|
  {
    seq(|results|, i requires 0 <= i < |results| => Entry(i + 1, results[i], includeTimestamps, render))
  }

  /** What `format_results_for_llm` returns. */
  function Formatted(results: seq<Hit>, includeTimestamps: bool, render: Renderer): string {
    if results == [] then NoInformation else Join(Entries(results, includeTimestamps, render), "\n\n")
  }

  /** `format_results_for_llm`: the numbered entries separated by blank lines, or the fixed sentence for none. */
  method FormatResultsForLlm(results: seq<Hit>, includeTimestamps: bool, render: Renderer) returns (text: string)
    ensures text == Formatted(results, includeTimestamps, render)
  {
    if results == [] {
      return NoInformation;
    }
    var contextParts: seq<string> := [];
    var i := 1;
    while i <= |results|
      invariant 1 <= i <= |results| + 1
      invariant contextParts == Entries(results[..i - 1], includeTimestamps, render)
    {
      var result := results[i - 1];
      var timestamp := if includeTimestamps then " [" + render.seconds(result.utterance.start) + "s-" + render.seconds(result.utterance.end) + "s]" else "";
      var scoreInfo := if result.score.Some? then " (relevance: " + render.score(result.score.value) + ")" else "";
      contextParts := contextParts + [NatToString(i) + ". " + result.utterance.speaker + timestamp + scoreInfo + ":\n   " + result.utterance.text];
      i := i + 1;
    }
    assert results[..|results|] == results;
    return Join(contextParts, "\n\n");
  }

  /** The joined text starts with the first part. */
  lemma JoinStartsWith(parts: seq<string>, sep: string)
    requires parts != []
    ensures IsPrefix(parts[0], Join(parts, sep))
  {
    if |parts| > 1 {
      assert Join(parts, sep) == parts[0] + (sep + Join(parts[1..], sep));
    }
  }

  /** Entry number `n` starts with the number, ". " and the speaker. */
  lemma EntryStart(n: nat, h: Hit, includeTimestamps: bool, render: Renderer)
    ensures IsPrefix(NatToString(n) + ". " + h.utterance.speaker, Entry(n, h, includeTimestamps, render))
  {
    var head := NatToString(n) + ". " + h.utterance.speaker;
    var tail := Timestamp(h.utterance, includeTimestamps, render) + ScoreInfo(h, render) + ":\n   " + h.utterance.text;
    assert Entry(n, h, includeTimestamps, render) == head + tail;
    assert (head + tail)[..|head|] == head;
  }

  /** Any non-empty result list is rendered starting with entry number 1 and the first speaker. */
  lemma FormattedStart(results: seq<Hit>, includeTimestamps: bool, render: Renderer)
    requires results != []
    ensures IsPrefix("1. " + results[0].utterance.speaker, Formatted(results, includeTimestamps, render))
  {
    var es := Entries(results, includeTimestamps, render);
    JoinStartsWith(es, "\n\n");
    EntryStart(1, results[0], includeTimestamps, render);
    assert NatToString(1) == "1";
    assert es[0] == Entry(1, results[0], includeTimestamps, render);
  }

  /** The sentinel starts with a letter, so no numbered entry list can equal it. */
  lemma SentinelStart()
    ensures |NoInformation| > 0 && NoInformation[0] == 'N'
  {
    assert NoInformation[0] == "No relevant"[0];
  }

  /** The fixed sentence is returned exactly for an empty result list. */
  lemma FormattedSentinel(results: seq<Hit>, includeTimestamps: bool, render: Renderer)
    ensures Formatted(results, includeTimestamps, render) == NoInformation <==> results == []
  {
    if results != [] {
      FormattedStart(results, includeTimestamps, render);
      var out := Formatted(results, includeTimestamps, render);
      assert out[0] == ("1. " + results[0].utterance.speaker)[0] == '1';
      SentinelStart();
    }
  }

  /** The relevance note appears exactly on the results that carry a score. */
  lemma ScoreInfoPresent(h: Hit, render: Renderer)
    ensures ScoreInfo(h, render) == "" <==> h.score.None?
  {
  }
}
