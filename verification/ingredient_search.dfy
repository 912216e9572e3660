/**
 * `search_ingredients_fuzzy` (app/crud.py): every ingredient is scored
 * against the query, those scoring at least 60 are kept, ranked by score,
 * usage and name, and the first `limit` are returned. The fuzzy
 * `partial_ratio` score and the usage counts of the database query are
 * inputs.
 */
module IngredientSearch {
  import opened Wrappers
  import opened Text
  import opened Sorting
  import opened Entities

  /** A similarity score in percent, as `partial_ratio` returns it. */
  type Percent = x: int | 0 <= x <= 100

  /** The lowest best score that is still returned. */
  const MinScore: int := 60

  /** One row of the ingredient query: the ingredient and its usage count, which may be null. */
  datatype Candidate = Candidate(ingredient: Ingredient, usage: Option<int>)

  /** A kept result: the ingredient, its best score and its usage count. */
  datatype Scored = Scored(ingredient: Ingredient, score: int, usage: int)

  /** `usage_count or 0`. */
  function UsageOf(c: Candidate): (n: int)
    ensures c.usage.None? ==> n == 0
    ensures c.usage.Some? ==> n == c.usage.value
  {
    if c.usage.Some? && c.usage.value != 0 then c.usage.value else 0
  }

  /**
   * The best of the exact (100), prefix (95), substring (85) and fuzzy
   * scores of a lower-cased name against the lower-cased query.
   */
  function Score(query: string, name: string, fuzzy: Percent): (score: Percent)
    ensures score >= fuzzy
    ensures query == name ==> score == 100
    ensures query <= name ==> score >= 95
    ensures Contains(name, query) ==> score >= 85
    ensures score == 100 || score == 95 || score == 85 || score == fuzzy
    ensures score == 100 ==> query == name || fuzzy == 100
    ensures score == 95 ==> query <= name || fuzzy == 95
    ensures score == 85 ==> Contains(name, query) || fuzzy == 85
  {
    var exact := if query == name then 100 else 0;
    var prefix := if query <= name then 95 else 0;
    var within := if Contains(name, query) then 85 else 0;
    Max(Max(exact, prefix), Max(within, fuzzy))
  }

  function Max(a: Percent, b: Percent): (m: Percent)
    ensures m >= a && m >= b && (m == a || m == b)
  {
    if a >= b then a else b
  }

  /** The best score of a candidate, on lower-cased strings. */
  function ScoreOf(query: string, c: Candidate, ratio: (string, string) -> Percent): Percent {
    var name := Lower(c.ingredient.name);
    Score(Lower(query), name, ratio(Lower(query), name))
  }

  /** The results list after the loop: the candidates scoring at least 60, in query order. */
  function Qualifying(query: string, candidates: seq<Candidate>, ratio: (string, string) -> Percent): seq<Scored> {
    if candidates == [] then []
    else
      var c := candidates[|candidates| - 1];
      Qualifying(query, candidates[..|candidates| - 1], ratio)
      + (if ScoreOf(query, c, ratio) >= MinScore then [Scored(c.ingredient, ScoreOf(query, c, ratio), UsageOf(c))] else [])
  }

  /** The kept results are exactly the candidates scoring at least 60, with their score and usage. */
  lemma QualifyingSpec(query: string, candidates: seq<Candidate>, ratio: (string, string) -> Percent)
    ensures forall s :: s in Qualifying(query, candidates, ratio) ==> s.score >= MinScore
    ensures forall s :: s in Qualifying(query, candidates, ratio) <==>
      exists i :: 0 <= i < |candidates| && ScoreOf(query, candidates[i], ratio) >= MinScore
        && s == Scored(candidates[i].ingredient, ScoreOf(query, candidates[i], ratio), UsageOf(candidates[i]))
  {
    QualifyingSound(query, candidates, ratio);
    QualifyingComplete(query, candidates, ratio);
  }

  /** The result of `Qualifying` for the `i`-th candidate, when it scores at least 60. */
  function KeptAt(query: string, candidates: seq<Candidate>, ratio: (string, string) -> Percent, i: int): Scored
    requires 0 <= i < |candidates|
  {
    Scored(candidates[i].ingredient, ScoreOf(query, candidates[i], ratio), UsageOf(candidates[i]))
  }

  lemma {:induction false} QualifyingSound(query: string, candidates: seq<Candidate>, ratio: (string, string) -> Percent)
    ensures forall s :: s in Qualifying(query, candidates, ratio) ==>
      exists i :: 0 <= i < |candidates| && ScoreOf(query, candidates[i], ratio) >= MinScore && s == KeptAt(query, candidates, ratio, i)
  {
    if candidates != [] {
      var before := candidates[..|candidates| - 1];
      QualifyingSound(query, before, ratio);
      forall s | s in Qualifying(query, candidates, ratio)
        ensures exists i :: 0 <= i < |candidates| && ScoreOf(query, candidates[i], ratio) >= MinScore && s == KeptAt(query, candidates, ratio, i)
      {
        if s in Qualifying(query, before, ratio) {
          var i :| 0 <= i < |before| && ScoreOf(query, before[i], ratio) >= MinScore && s == KeptAt(query, before, ratio, i);
          assert candidates[i] == before[i];
          assert s == KeptAt(query, candidates, ratio, i);
        } else {
          assert s == KeptAt(query, candidates, ratio, |candidates| - 1);
        }
      }
    }
  }

  lemma {:induction false} QualifyingComplete(query: string, candidates: seq<Candidate>, ratio: (string, string) -> Percent)
    ensures forall i :: 0 <= i < |candidates| && ScoreOf(query, candidates[i], ratio) >= MinScore ==>
      KeptAt(query, candidates, ratio, i) in Qualifying(query, candidates, ratio)
  {
    if candidates != [] {
      var before := candidates[..|candidates| - 1];
      QualifyingComplete(query, before, ratio);
      forall i | 0 <= i < |candidates| - 1 && ScoreOf(query, candidates[i], ratio) >= MinScore
        ensures KeptAt(query, candidates, ratio, i) in Qualifying(query, candidates, ratio)
      {
        assert before[i] == candidates[i];
        assert KeptAt(query, before, ratio, i) == KeptAt(query, candidates, ratio, i);
      }
    }
  }

  /** The scoring loop: appends every candidate that scores at least 60. */
  method ScoreCandidates(query: string, candidates: seq<Candidate>, ratio: (string, string) -> Percent)
    returns (results: seq<Scored>)
    ensures results == Qualifying(query, candidates, ratio)
  {
    results := [];
    var queryLower := Lower(query);
    for i := 0 to |candidates|
      invariant results == Qualifying(query, candidates[..i], ratio)
    {
      assert candidates[..i + 1][..i] == candidates[..i];
      var c := candidates[i];
      var nameLower := Lower(c.ingredient.name);
      var exact := if queryLower == nameLower then 100 else 0;
      var prefix := if queryLower <= nameLower then 95 else 0;
      var within := if Contains(nameLower, queryLower) then 85 else 0;
      var fuzzy := ratio(queryLower, nameLower);
      var best := Max(Max(exact, prefix), Max(within, fuzzy));
      if best >= MinScore {
        results := results + [Scored(c.ingredient, best, if c.usage.Some? then c.usage.value else 0)];
      }
    }
    assert candidates[..|candidates|] == candidates;
  }

  // ------------------------------------------------------------ ranking

  /** The sort key `(-score, -usage, name)`: higher score first, then higher usage, then name. */
  predicate RankLe(a: Scored, b: Scored) {
    || a.score > b.score
    || (a.score == b.score && a.usage > b.usage)
    || (a.score == b.score && a.usage == b.usage && StrLe(a.ingredient.name, b.ingredient.name))
  }

  lemma RankLeIsTotalPreorder()
    ensures TotalPreorder(RankLe)
  {
    forall a, b ensures RankLe(a, b) || RankLe(b, a) {
      StrLeTotal(a.ingredient.name, b.ingredient.name);
    }
    forall a, b, c | RankLe(a, b) && RankLe(b, c) ensures RankLe(a, c) {
      if a.score == b.score == c.score && a.usage == b.usage == c.usage {
        StrLeTransitive(a.ingredient.name, b.ingredient.name, c.ingredient.name);
      }
    }
  }

  /** `results.sort(key=...)`: the results in rank order. */
  function Rank(results: seq<Scored>): (r: seq<Scored>)
    ensures Sorted(r, RankLe) && multiset(r) == multiset(results) && |r| == |results|
  {
    RankLeIsTotalPreorder();
    Sort(results, RankLe)
  }

  /** Python's `len(s[:limit])` for a list of length `n`: a negative limit counts from the end. */
  function SliceEnd(n: nat, limit: int): (end: nat)
    ensures end <= n
    ensures limit >= 0 ==> end == if limit < n then limit else n
    ensures limit < 0 ==> end == if n + limit > 0 then n + limit else 0
  {
    if limit >= 0 then (if limit < n then limit else n)
    else if n + limit > 0 then n + limit else 0
  }

  /** The ranked results of a non-empty query. */
  function Ranked(query: string, candidates: seq<Candidate>, ratio: (string, string) -> Percent): seq<Scored> {
    Rank(Qualifying(query, candidates, ratio))
  }

  /**
   * `search_ingredients_fuzzy` over the ingredient rows with their usage
   * counts: an empty query finds nothing; otherwise the first `limit`
   * ingredients of the ranked results.
   */
  method SearchIngredientsFuzzy(query: string, candidates: seq<Candidate>, limit: int, ratio: (string, string) -> Percent)
    returns (found: seq<Ingredient>)
    ensures query == [] ==> found == []
    ensures query != [] ==>
      var ranked := Ranked(query, candidates, ratio);
      && |found| == SliceEnd(|ranked|, limit)
      && forall i :: 0 <= i < |found| ==> found[i] == ranked[i].ingredient
  {
    if query == [] || |query| < 1 {
      return [];
    }
    var results := ScoreCandidates(query, candidates, ratio);
    results := Rank(results);
    var end := SliceEnd(|results|, limit);
    found := seq(end, i requires 0 <= i < end => results[i].ingredient);
  }

  /** At most `limit` ingredients come back when `limit` is not negative. */
  lemma AtMostLimit(query: string, candidates: seq<Candidate>, limit: int, ratio: (string, string) -> Percent)
    requires limit >= 0
    ensures SliceEnd(|Ranked(query, candidates, ratio)|, limit) <= limit
  {
  }

  /**
   * Every ranked result belongs to a candidate whose best score is at least
   * 60, and the results are in order of score, then usage, then name.
   */
  lemma RankedSpec(query: string, candidates: seq<Candidate>, ratio: (string, string) -> Percent)
    ensures forall i :: 0 <= i < |Ranked(query, candidates, ratio)| ==>
      var s := Ranked(query, candidates, ratio)[i];
      && s.score >= MinScore
      && exists j :: 0 <= j < |candidates| && candidates[j].ingredient == s.ingredient
           && ScoreOf(query, candidates[j], ratio) == s.score && UsageOf(candidates[j]) == s.usage
    ensures forall i, j :: 0 <= i < j < |Ranked(query, candidates, ratio)| ==>
      var a := Ranked(query, candidates, ratio)[i];
      var b := Ranked(query, candidates, ratio)[j];
      a.score > b.score || (a.score == b.score && (a.usage > b.usage
        || (a.usage == b.usage && StrLe(a.ingredient.name, b.ingredient.name))))
    ensures multiset(Ranked(query, candidates, ratio)) == multiset(Qualifying(query, candidates, ratio))
  {
    var q := Qualifying(query, candidates, ratio);
    var r := Ranked(query, candidates, ratio);
    QualifyingSpec(query, candidates, ratio);
    forall i | 0 <= i < |r| ensures r[i] in q {
      assert r[i] in multiset(r);
    }
  }

  /** Every candidate that scores at least 60 is among the ranked results, once per query row. */
  lemma QualifiedAreRanked(query: string, candidates: seq<Candidate>, ratio: (string, string) -> Percent, j: int)
    requires 0 <= j < |candidates| && ScoreOf(query, candidates[j], ratio) >= MinScore
    ensures Scored(candidates[j].ingredient, ScoreOf(query, candidates[j], ratio), UsageOf(candidates[j]))
      in Ranked(query, candidates, ratio)
  {
    QualifyingSpec(query, candidates, ratio);
    var s := Scored(candidates[j].ingredient, ScoreOf(query, candidates[j], ratio), UsageOf(candidates[j]));
    assert s in Qualifying(query, candidates, ratio);
    assert s in multiset(Qualifying(query, candidates, ratio));
    assert s in multiset(Ranked(query, candidates, ratio));
  }

  /** An ingredient named like the query, up to case, gets the top score of 100. */
  lemma ExactNameScoresHundred(query: string, c: Candidate, ratio: (string, string) -> Percent)
    requires Lower(c.ingredient.name) == Lower(query)
    ensures ScoreOf(query, c, ratio) == 100
  {
  }
}
