/**
 * The incremental search of the bot and queue pages: the names the fuzzy
 * matcher scores, sorted by descending score with a stable sort.  The
 * matcher itself is a parameter.
 */
module Search {
  import opened Wrappers

  /** The fuzzy matcher: the score of a candidate name against the query, `None` for no match. */
  type Scorer = (string, string) -> Option<int>

  /** A candidate the matcher accepted, with its score. */
  datatype Match = Match(name: string, score: int)

  /** The accepted candidates, in corpus order. */
  function Matches(corpus: seq<string>, query: string, score: Scorer): (ms: seq<Match>)
    ensures |ms| <= |corpus|
  {
    if corpus == [] then []
    else
      var n := |corpus| - 1;
      Matches(corpus[..n], query, score)
        + (match score(corpus[n], query) case Some(s) => [Match(corpus[n], s)] case None => [])
  }

  /** Every match carries the matcher's score of its name. */
  predicate Scored(ms: seq<Match>, query: string, score: Scorer)
  {
    forall i :: 0 <= i < |ms| ==> score(ms[i].name, query) == Some(ms[i].score)
  }

  /** Non-increasing scores. */
  predicate Descending(ms: seq<Match>)
  {
    forall i, j :: 0 <= i < j < |ms| ==> ms[i].score >= ms[j].score
  }

  /** The matches of score `v`, in order. */
  function WithScore(ms: seq<Match>, v: int): seq<Match>
  {
    if ms == [] then []
    else WithScore(ms[..|ms| - 1], v) + (if ms[|ms| - 1].score == v then [ms[|ms| - 1]] else [])
  }

  /** Inserts `x` after every element scoring at least as high: the step of a stable descending sort. */
  function InsertByScore(s: seq<Match>, x: Match): seq<Match>
  {
    if s == [] then [x]
    else if s[|s| - 1].score >= x.score then s + [x]
    else InsertByScore(s[..|s| - 1], x) + [s[|s| - 1]]
  }

  /** `sort_by(|a, b| b.1.cmp(&a.1))`: a stable sort by descending score. */
  function SortByScore(ms: seq<Match>): seq<Match>
  {
    if ms == [] then [] else InsertByScore(SortByScore(ms[..|ms| - 1]), ms[|ms| - 1])
  }

  function Names(ms: seq<Match>): (r: seq<string>)
    ensures |r| == |ms| && forall i :: 0 <= i < |ms| ==> r[i] == ms[i].name
  {
    if ms == [] then [] else Names(ms[..|ms| - 1]) + [ms[|ms| - 1].name]
  }

  /** The search results: the accepted names, best score first. */
  function Ranked(corpus: seq<string>, query: string, score: Scorer): seq<string>
  {
    Names(SortByScore(Matches(corpus, query, score)))
  }

  /**
   * `search_bots` / `search_queues`: scores each name of the corpus in order,
   * keeps the accepted ones with their scores, sorts them and keeps the names.
   */
  method SearchRanked(corpus: seq<string>, query: string, score: Scorer) returns (results: seq<string>)
    ensures results == Ranked(corpus, query, score)
  {
    var matches := [];
    for i := 0 to |corpus|
      invariant matches == Matches(corpus[..i], query, score)
    {
      assert corpus[..i + 1][..i] == corpus[..i];
      var name := corpus[i];
      var s := score(name, query);
      if s.Some? {
        matches := matches + [Match(name, s.value)];
      }
    }
    assert corpus[..|corpus|] == corpus;
    results := Names(SortByScore(matches));
  }

  // ---------------------------------------------------------------------------
  // The insertion step

  lemma {:induction false} InsertMultiset(s: seq<Match>, x: Match)
    ensures multiset(InsertByScore(s, x)) == multiset(s) + multiset{x}
  {
    if s != [] && s[|s| - 1].score < x.score {
      InsertMultiset(s[..|s| - 1], x);
      assert s == s[..|s| - 1] + [s[|s| - 1]];
    }
  }

  /** Appending an element no higher than any present keeps the scores non-increasing. */
  lemma DescendingSnoc(a: seq<Match>, y: Match)
    requires Descending(a)
    requires forall i :: 0 <= i < |a| ==> a[i].score >= y.score
    ensures Descending(a + [y])
  {
    var b := a + [y];
    forall i, j | 0 <= i < j < |b| ensures b[i].score >= b[j].score {
      assert b[i] == a[i];
      if j < |a| { assert b[j] == a[j]; }
    }
  }

  lemma {:induction false} InsertDescending(s: seq<Match>, x: Match)
    requires Descending(s)
    ensures Descending(InsertByScore(s, x))
    ensures InsertByScore(s, x) != [] && InsertByScore(s, x)[0].score >= (if s == [] then x.score else Lower(s[0].score, x.score))
  {
    if s == [] {
      assert InsertByScore(s, x) == [x];
    } else if s[|s| - 1].score >= x.score {
      assert InsertByScore(s, x) == s + [x];
      forall i | 0 <= i < |s| ensures s[i].score >= x.score {
        if i < |s| - 1 { assert s[i].score >= s[|s| - 1].score; }
      }
      DescendingSnoc(s, x);
      assert (s + [x])[0] == s[0];
    } else {
      var init, last := s[..|s| - 1], s[|s| - 1];
      assert Descending(init) by {
        forall i, j | 0 <= i < j < |init| ensures init[i].score >= init[j].score {
          assert init[i] == s[i] && init[j] == s[j];
        }
      }
      InsertDescending(init, x);
      var r := InsertByScore(init, x);
      assert InsertByScore(s, x) == r + [last];
      InsertMultiset(init, x);
      forall i | 0 <= i < |r| ensures r[i].score >= last.score {
        assert r[i] in multiset(r);
        if r[i] != x {
          assert r[i] in multiset(init);
          var k :| 0 <= k < |init| && init[k] == r[i];
          assert s[k] == init[k];
        }
      }
      DescendingSnoc(r, last);
      assert (r + [last])[0] == r[0];
      if init != [] {
        assert init[0] == s[0];
      }
    }
  }

  function Lower(a: int, b: int): int { if a <= b then a else b }

  lemma {:induction false} InsertWithScore(s: seq<Match>, x: Match, v: int)
    ensures WithScore(InsertByScore(s, x), v) == WithScore(s, v) + (if x.score == v then [x] else [])
  {
    if s == [] {
      assert WithScore([x], v) == WithScore([], v) + (if x.score == v then [x] else []) by {
        assert [x][..0] == [];
      }
    } else if s[|s| - 1].score >= x.score {
      assert (s + [x])[..|s|] == s;
    } else {
      var init, last := s[..|s| - 1], s[|s| - 1];
      InsertWithScore(init, x, v);
      var r := InsertByScore(init, x);
      assert (r + [last])[..|r|] == r;
      assert !(last.score == v && x.score == v);
    }
  }

  // ---------------------------------------------------------------------------
  // The sort

  /** Inserting the last element into a permutation of the others gives a permutation of the whole. */
  lemma MultisetSnoc(ms: seq<Match>, init: seq<Match>, last: Match, sorted: seq<Match>, r: seq<Match>)
    requires ms != [] && init == ms[..|ms| - 1] && last == ms[|ms| - 1]
    requires multiset(sorted) == multiset(init) && multiset(r) == multiset(sorted) + multiset{last}
    ensures multiset(r) == multiset(ms)
  {
    assert ms == init + [last];
  }

  lemma {:induction false} SortMultiset(ms: seq<Match>)
    ensures multiset(SortByScore(ms)) == multiset(ms)
  {
    if ms != [] {
      var init, last := ms[..|ms| - 1], ms[|ms| - 1];
      var sorted := SortByScore(init);
      SortMultiset(init);
      InsertMultiset(sorted, last);
      MultisetSnoc(ms, init, last, sorted, InsertByScore(sorted, last));
    }
  }

  lemma {:induction false} SortDescending(ms: seq<Match>)
    ensures Descending(SortByScore(ms))
  {
    if ms != [] {
      SortDescending(ms[..|ms| - 1]);
      InsertDescending(SortByScore(ms[..|ms| - 1]), ms[|ms| - 1]);
    }
  }

  /** Stability: the matches of each score keep their relative order. */
  lemma {:induction false} SortStable(ms: seq<Match>, v: int)
    ensures WithScore(SortByScore(ms), v) == WithScore(ms, v)
  {
    if ms != [] {
      SortStable(ms[..|ms| - 1], v);
      InsertWithScore(SortByScore(ms[..|ms| - 1]), ms[|ms| - 1], v);
    }
  }

  // ---------------------------------------------------------------------------
  // The results

  lemma {:induction false} MatchesScored(corpus: seq<string>, query: string, score: Scorer)
    ensures Scored(Matches(corpus, query, score), query, score)
  {
    if corpus != [] {
      MatchesScored(corpus[..|corpus| - 1], query, score);
    }
  }

  lemma {:induction false} MatchesMembers(corpus: seq<string>, query: string, score: Scorer, x: string)
    ensures (exists m :: m in Matches(corpus, query, score) && m.name == x) <==> x in corpus && score(x, query).Some?
  {
    if corpus != [] {
      var n := |corpus| - 1;
      MatchesMembers(corpus[..n], query, score, x);
      assert corpus == corpus[..n] + [corpus[n]];
      var prefix := Matches(corpus[..n], query, score);
      var tail := match score(corpus[n], query) case Some(s) => [Match(corpus[n], s)] case None => [];
      assert Matches(corpus, query, score) == prefix + tail;
      if x in corpus && score(x, query).Some? {
        if x == corpus[n] {
          assert Match(x, score(x, query).value) in Matches(corpus, query, score);
        } else {
          assert x in corpus[..n];
          var m :| m in prefix && m.name == x;
          assert m in Matches(corpus, query, score);
        }
      }
      if exists m :: m in Matches(corpus, query, score) && m.name == x {
        var m :| m in Matches(corpus, query, score) && m.name == x;
        if m in prefix {
          assert x in corpus[..n] && score(x, query).Some?;
        } else {
          assert m in tail;
        }
      }
    }
  }

  /** The results are exactly the names of the corpus the matcher accepts, and there are no more of them than names. */
  lemma RankedMembers(corpus: seq<string>, query: string, score: Scorer, x: string)
    ensures |Ranked(corpus, query, score)| <= |corpus|
    ensures x in Ranked(corpus, query, score) <==> x in corpus && score(x, query).Some?
  {
    var ms := Matches(corpus, query, score);
    var sorted := SortByScore(ms);
    SortMultiset(ms);
    assert |sorted| == |multiset(sorted)| == |multiset(ms)| == |ms|;
    MatchesMembers(corpus, query, score, x);
    if x in Ranked(corpus, query, score) {
      var i :| 0 <= i < |sorted| && Names(sorted)[i] == x;
      assert sorted[i] in multiset(ms);
    }
    if x in corpus && score(x, query).Some? {
      var m :| m in ms && m.name == x;
      assert m in multiset(sorted);
      var i :| 0 <= i < |sorted| && sorted[i] == m;
      assert Names(sorted)[i] == x;
    }
  }

  /** Results are listed by non-increasing score. */
  lemma RankedOrdered(corpus: seq<string>, query: string, score: Scorer, i: nat, j: nat)
    requires i < j < |Ranked(corpus, query, score)|
    ensures score(Ranked(corpus, query, score)[i], query).Some?
    ensures score(Ranked(corpus, query, score)[j], query).Some?
    ensures score(Ranked(corpus, query, score)[i], query).value >= score(Ranked(corpus, query, score)[j], query).value
  {
    var ms := Matches(corpus, query, score);
    var sorted := SortByScore(ms);
    SortMultiset(ms);
    SortDescending(ms);
    MatchesScored(corpus, query, score);
    assert sorted[i] in multiset(ms) && sorted[j] in multiset(ms);
    var ki :| 0 <= ki < |ms| && ms[ki] == sorted[i];
    var kj :| 0 <= kj < |ms| && ms[kj] == sorted[j];
  }

  /** The corpus names the matcher scores `v`, in corpus order. */
  function NamesScoring(corpus: seq<string>, query: string, score: Scorer, v: int): seq<string>
  {
    if corpus == [] then []
    else
      var n := |corpus| - 1;
      NamesScoring(corpus[..n], query, score, v) + (if score(corpus[n], query) == Some(v) then [corpus[n]] else [])
  }

  lemma {:induction false} NamesConcat(a: seq<Match>, b: seq<Match>)
    ensures Names(a + b) == Names(a) + Names(b)
  {
  }

  lemma {:induction false} NamesWithScore(ms: seq<Match>, query: string, score: Scorer, v: int)
    requires Scored(ms, query, score)
    ensures NamesScoring(Names(ms), query, score, v) == Names(WithScore(ms, v))
  {
    if ms != [] {
      var n := |ms| - 1;
      NamesWithScore(ms[..n], query, score, v);
      assert Names(ms)[..n] == Names(ms[..n]);
      NamesConcat(WithScore(ms[..n], v), if ms[n].score == v then [ms[n]] else []);
    }
  }

  lemma {:induction false} MatchesWithScore(corpus: seq<string>, query: string, score: Scorer, v: int)
    ensures Names(WithScore(Matches(corpus, query, score), v)) == NamesScoring(corpus, query, score, v)
  {
    if corpus != [] {
      var n := |corpus| - 1;
      MatchesWithScore(corpus[..n], query, score, v);
      var prefix := Matches(corpus[..n], query, score);
      var tail := match score(corpus[n], query) case Some(s) => [Match(corpus[n], s)] case None => [];
      WithScoreConcat(prefix, tail, v);
      NamesConcat(WithScore(prefix, v), WithScore(tail, v));
      if tail != [] {
        assert WithScore(tail, v) == WithScore([], v) + (if tail[0].score == v then [tail[0]] else []) by {
          assert tail[..0] == [];
        }
      }
    }
  }

  lemma {:induction false} WithScoreConcat(a: seq<Match>, b: seq<Match>, v: int)
    ensures WithScore(a + b, v) == WithScore(a, v) + WithScore(b, v)
    decreases |b|
  {
    if b == [] {
      assert a + b == a;
    } else {
      var n := |b| - 1;
      WithScoreConcat(a, b[..n], v);
      assert (a + b)[..|a + b| - 1] == a + b[..n];
    }
  }

  /** Ties keep corpus order: the results of each score are the corpus names of that score, in corpus order. */
  lemma RankedStable(corpus: seq<string>, query: string, score: Scorer, v: int)
    ensures NamesScoring(Ranked(corpus, query, score), query, score, v) == NamesScoring(corpus, query, score, v)
  {
    var ms := Matches(corpus, query, score);
    var sorted := SortByScore(ms);
    MatchesScored(corpus, query, score);
    SortMultiset(ms);
    forall i | 0 <= i < |sorted| ensures score(sorted[i].name, query) == Some(sorted[i].score) {
      assert sorted[i] in multiset(ms);
      var k :| 0 <= k < |ms| && ms[k] == sorted[i];
    }
    NamesWithScore(sorted, query, score, v);
    SortStable(ms, v);
    MatchesWithScore(corpus, query, score, v);
  }
}
