/** The list operations `process_query` applies to search matches
    (`backend/services/rag_pipeline.py`): first-seen de-duplication by id,
    a stable sort by descending score, and the selection of context chunks
    above a threshold among the first ten. Scores are only compared. */
module Retrieval {
  import opened Common

  /** A match's `metadata` dict: the entries the pipeline reads. */
  datatype Metadata = Metadata(chunkText: Option<string>, text: Option<string>, documentName: Option<string>)

  /** A Pinecone match. */
  datatype Match = Match(id: string, score: real, metadata: Metadata)

  // ---------------------------------------------------------------------
  // First-seen de-duplication

  /** The ids occurring in `s`. */
  function Ids(s: seq<Match>): set<string> {
    if s == [] then {} else Ids(s[..|s| - 1]) + {s[|s| - 1].id}
  }

  /** An id is in `Ids(s)` exactly when some match of `s` has it. */
  lemma {:induction false} IdsMembers(s: seq<Match>)
    ensures forall i :: 0 <= i < |s| ==> s[i].id in Ids(s)
    ensures forall id :: id in Ids(s) ==> exists i :: 0 <= i < |s| && s[i].id == id
  {
    if s != [] {
      var n := |s| - 1;
      IdsMembers(s[..n]);
      assert forall i :: 0 <= i < n ==> s[..n][i] == s[i];
    }
  }

  /** The position of the first match with this id, or `|s|` when none has it. */
  function FirstIndex(s: seq<Match>, id: string): (r: nat)
    ensures r <= |s|
    ensures r < |s| ==> s[r].id == id
    ensures forall j :: 0 <= j < r ==> s[j].id != id
  {
    if s == [] then 0
    else
      var n := |s| - 1;
      var f := FirstIndex(s[..n], id);
      assert forall j :: 0 <= j < n ==> s[..n][j] == s[j];
      if f < n then f else if s[n].id == id then n else |s|
  }

  /** The `if match['id'] not in seen_ids` filter over the concatenated
      search results: a match is kept when no earlier match had its id. */
  function KeepFirst(s: seq<Match>): seq<Match> {
    if s == [] then []
    else
      var n := |s| - 1;
      var prev := KeepFirst(s[..n]);
      if s[n].id in Ids(prev) then prev else prev + [s[n]]
  }

  /** One more match: kept exactly when its id is new. */
  lemma KeepFirstStep(s: seq<Match>, x: Match)
    ensures KeepFirst(s + [x]) == if x.id in Ids(KeepFirst(s)) then KeepFirst(s) else KeepFirst(s) + [x]
    ensures Ids(KeepFirst(s) + [x]) == Ids(KeepFirst(s)) + {x.id}
  {
  }

  /** The inner `for match in results` loop: appends, in order, the matches
      whose id has not been seen, and records their ids. */
  method MergeNew(allMatches: seq<Match>, seenIds: set<string>, ghost before: seq<Match>, results: seq<Match>)
    returns (merged: seq<Match>, seen: set<string>)
    requires allMatches == KeepFirst(before) && seenIds == Ids(allMatches)
    ensures merged == KeepFirst(before + results) && seen == Ids(merged)
  {
    merged, seen := allMatches, seenIds;
    assert before + results[..0] == before;
    for m := 0 to |results|
      invariant merged == KeepFirst(before + results[..m])
      invariant seen == Ids(merged)
    {
      var hit := results[m];
      SnocSlice(before, results, m);
      KeepFirstStep(before + results[..m], hit);
      if hit.id !in seen {
        merged := merged + [hit];
        seen := seen + {hit.id};
      }
    }
    assert results[..|results|] == results;
  }

  /** De-duplication loses no id. */
  lemma {:induction false} KeepFirstIds(s: seq<Match>)
    ensures Ids(KeepFirst(s)) == Ids(s)
  {
    if s != [] {
      var n := |s| - 1;
      KeepFirstIds(s[..n]);
      assert Ids(s) == Ids(s[..n]) + {s[n].id};
      var prev := KeepFirst(s[..n]);
      if s[n].id !in Ids(prev) {
        assert Ids(prev + [s[n]]) == Ids(prev) + {s[n].id} by {
          assert (prev + [s[n]])[..|prev|] == prev;
        }
      }
    }
  }

  predicate DistinctIds(r: seq<Match>) {
    forall a, b :: 0 <= a < b < |r| ==> r[a].id != r[b].id
  }

  /** No two kept matches share an id. */
  lemma {:induction false} KeepFirstUnique(s: seq<Match>)
    ensures DistinctIds(KeepFirst(s))
  {
    if s != [] {
      var n := |s| - 1;
      KeepFirstUnique(s[..n]);
      var prev := KeepFirst(s[..n]);
      var r := KeepFirst(s);
      if s[n].id !in Ids(prev) {
        assert r == prev + [s[n]];
        forall a, b | 0 <= a < b < |r|
          ensures r[a].id != r[b].id
        {
          if b == |prev| {
            assert r[a] == prev[a] && r[b] == s[n];
            IdsMembers(prev);
          } else {
            assert r[a] == prev[a] && r[b] == prev[b];
            assert prev[a].id != prev[b].id;
          }
        }
      }
    }
  }

  /** Looking one match further does not move an id's first position once
      it has been found. */
  lemma FirstIndexExtend(s: seq<Match>, id: string)
    requires s != []
    ensures var n := |s| - 1;
      FirstIndex(s, id) == (if FirstIndex(s[..n], id) < n then FirstIndex(s[..n], id)
                            else if s[n].id == id then n else |s|)
  {
  }

  /** An id that does not occur in `p` first occurs at `|p|` in `p + [x]`
      when `x` has it. */
  lemma FirstIndexOfNewId(s: seq<Match>)
    requires s != [] && s[|s| - 1].id !in Ids(s[..|s| - 1])
    ensures FirstIndex(s, s[|s| - 1].id) == |s| - 1
  {
    var n := |s| - 1;
    IdsMembers(s[..n]);
    assert forall i :: 0 <= i < n ==> s[..n][i].id != s[n].id;
  }

  /** Each kept match is the first match with its id. */
  lemma {:induction false} KeepFirstFirstOccurrence(s: seq<Match>)
    ensures var r := KeepFirst(s);
      forall k :: 0 <= k < |r| ==> FirstIndex(s, r[k].id) < |s| && r[k] == s[FirstIndex(s, r[k].id)]
  {
    if s != [] {
      var n := |s| - 1;
      var p := s[..n];
      KeepFirstFirstOccurrence(p);
      KeepFirstIds(p);
      var prev := KeepFirst(p);
      var r := KeepFirst(s);
      forall k | 0 <= k < |prev|
        ensures FirstIndex(s, prev[k].id) < |s| && prev[k] == s[FirstIndex(s, prev[k].id)]
      {
        FirstIndexExtend(s, prev[k].id);
        assert p[FirstIndex(p, prev[k].id)] == s[FirstIndex(p, prev[k].id)];
      }
      if s[n].id !in Ids(prev) {
        FirstIndexOfNewId(s);
        assert r == prev + [s[n]];
      }
    }
  }

  /** The kept matches appear in the order their ids first occur. */
  lemma {:induction false} KeepFirstOrder(s: seq<Match>)
    ensures var r := KeepFirst(s);
      forall a, b :: 0 <= a < b < |r| ==> FirstIndex(s, r[a].id) < FirstIndex(s, r[b].id)
  {
    if s != [] {
      var n := |s| - 1;
      var p := s[..n];
      KeepFirstOrder(p);
      KeepFirstFirstOccurrence(p);
      KeepFirstIds(p);
      var prev := KeepFirst(p);
      var r := KeepFirst(s);
      forall k | 0 <= k < |prev|
        ensures FirstIndex(s, prev[k].id) == FirstIndex(p, prev[k].id) < n
      {
        FirstIndexExtend(s, prev[k].id);
      }
      if s[n].id !in Ids(prev) {
        FirstIndexOfNewId(s);
        assert r == prev + [s[n]];
      }
    }
  }

  /** Every id's first match is kept. */
  lemma KeepFirstComplete(s: seq<Match>, i: nat)
    requires i < |s|
    ensures FirstIndex(s, s[i].id) < |s| && s[FirstIndex(s, s[i].id)] in KeepFirst(s)
  {
    KeepFirstIds(s);
    KeepFirstFirstOccurrence(s);
    var r := KeepFirst(s);
    IdsMembers(s);
    IdsMembers(r);
    assert s[i].id in Ids(r);
    var k :| 0 <= k < |r| && r[k].id == s[i].id;
  }

  // ---------------------------------------------------------------------
  // Stable sort by descending score

  predicate SortedByScore(s: seq<Match>) {
    forall i, j :: 0 <= i < j < |s| ==> s[i].score >= s[j].score
  }

  /** Puts `x`, which precedes every match of `r` in the input, before the
      first match of `r` whose score does not exceed its own. */
  function Insert(x: Match, r: seq<Match>): (q: seq<Match>)
    ensures multiset(q) == multiset(r) + multiset{x}
  {
    if r == [] || r[0].score <= x.score then [x] + r
    else
      assert r == [r[0]] + r[1..];
      [r[0]] + Insert(x, r[1..])
  }

  /** Inserting keeps every score under a common bound. */
  lemma {:induction false} InsertBelow(x: Match, r: seq<Match>, bound: real)
    requires x.score <= bound
    requires forall i :: 0 <= i < |r| ==> r[i].score <= bound
    ensures forall i :: 0 <= i < |Insert(x, r)| ==> Insert(x, r)[i].score <= bound
  {
    if r != [] && r[0].score > x.score {
      InsertBelow(x, r[1..], bound);
      assert Insert(x, r) == [r[0]] + Insert(x, r[1..]);
    }
  }

  lemma {:induction false} InsertSorted(x: Match, r: seq<Match>)
    requires SortedByScore(r)
    ensures SortedByScore(Insert(x, r))
  {
    var q := Insert(x, r);
    if r != [] && r[0].score > x.score {
      var rest := Insert(x, r[1..]);
      InsertSorted(x, r[1..]);
      InsertBelow(x, r[1..], r[0].score);
      assert q == [r[0]] + rest;
      forall i, j | 0 <= i < j < |q|
        ensures q[i].score >= q[j].score
      {
        assert q[j] == rest[j - 1];
        if i > 0 {
          assert q[i] == rest[i - 1];
        }
      }
    } else {
      assert q == [x] + r;
      forall i, j | 0 <= i < j < |q|
        ensures q[i].score >= q[j].score
      {
        assert q[j] == r[j - 1];
        if i > 0 {
          assert q[i] == r[i - 1];
        } else if j > 1 {
          assert r[0].score >= r[j - 1].score;
        }
      }
    }
  }

  /** `sorted(all_matches, key=lambda x: x['score'], reverse=True)`. */
  function SortByScore(s: seq<Match>): (r: seq<Match>)
    ensures SortedByScore(r)
    ensures multiset(r) == multiset(s)
  {
    if s == [] then []
    else
      assert s == [s[0]] + s[1..];
      InsertSorted(s[0], SortByScore(s[1..]));
      Insert(s[0], SortByScore(s[1..]))
  }

  /** The matches of `s` with score `v`, in order. */
  function WithScore(s: seq<Match>, v: real): seq<Match> {
    if s == [] then []
    else (if s[0].score == v then [s[0]] else []) + WithScore(s[1..], v)
  }

  lemma WithScoreCons(m: Match, t: seq<Match>, v: real)
    ensures WithScore([m] + t, v) == (if m.score == v then [m] else []) + WithScore(t, v)
  {
  }

  lemma {:induction false} InsertWithScore(x: Match, r: seq<Match>, v: real)
    ensures WithScore(Insert(x, r), v) == (if x.score == v then [x] else []) + WithScore(r, v)
  {
    var head := if x.score == v then [x] else [];
    if r != [] && r[0].score > x.score {
      var rest := Insert(x, r[1..]);
      var first := if r[0].score == v then [r[0]] else [];
      var tail := WithScore(r[1..], v);
      InsertWithScore(x, r[1..], v);
      assert Insert(x, r) == [r[0]] + rest;
      WithScoreCons(r[0], rest, v);
      WithScoreCons(r[0], r[1..], v);
      HeadTail(r);
      // x scores below r[0], so at most one of them has score v
      SwapEmpty(first, head, tail);
    } else {
      assert Insert(x, r) == [x] + r;
      WithScoreCons(x, r, v);
    }
  }

  /** The sort is stable: matches of equal score keep their input order. */
  lemma {:induction false} SortIsStable(s: seq<Match>, v: real)
    ensures WithScore(SortByScore(s), v) == WithScore(s, v)
  {
    if s != [] {
      SortIsStable(s[1..], v);
      InsertWithScore(s[0], SortByScore(s[1..]), v);
    }
  }

  // ---------------------------------------------------------------------
  // Context selection

  const CurrentFileThreshold: real := 0.25
  const GlobalThreshold: real := 0.30
  /** Only the first ten sorted matches are looked at. */
  const TopN: nat := 10

  /** `SIMILARITY_THRESHOLD`: lower when the question is about the current file. */
  function Threshold(isCurrentFile: bool): real {
    if isCurrentFile then CurrentFileThreshold else GlobalThreshold
  }

  /** `all_matches[:10]` */
  function Top(s: seq<Match>): seq<Match> {
    s[..Min(TopN, |s|)]
  }

  /** The matches scoring strictly above the threshold, in order. */
  function Relevant(s: seq<Match>, threshold: real): (r: seq<Match>)
    ensures forall m :: m in r <==> m in s && m.score > threshold
  {
    if s == [] then []
    else
      var n := |s| - 1;
      assert s == s[..n] + [s[n]];
      Relevant(s[..n], threshold) + (if s[n].score > threshold then [s[n]] else [])
  }

  /** `metadata.get('chunk_text', metadata.get('text', ''))` */
  function ChunkTextOf(m: Match): string {
    match m.metadata.chunkText
    case Some(t) => t
    case None => m.metadata.text.GetOr("")
  }

  /** `metadata.get('document_name', 'Unknown')` */
  function DocumentNameOf(m: Match): string {
    m.metadata.documentName.GetOr("Unknown")
  }

  function ChunkTexts(s: seq<Match>): (texts: seq<string>)
    ensures |texts| == |s|
    ensures forall i :: 0 <= i < |s| ==> texts[i] == ChunkTextOf(s[i])
  {
    seq(|s|, i requires 0 <= i < |s| => ChunkTextOf(s[i]))
  }

  function DocumentNames(s: seq<Match>): set<string> {
    set m | m in s :: DocumentNameOf(m)
  }

  /** One step of the selection loop. */
  lemma SelectionStep(top: seq<Match>, i: nat, threshold: real)
    requires i < |top|
    ensures var m := top[i];
      var rel := Relevant(top[..i], threshold);
      var rel' := Relevant(top[..i + 1], threshold);
      ChunkTexts(rel') == ChunkTexts(rel) + (if m.score > threshold then [ChunkTextOf(m)] else [])
      && DocumentNames(rel') == DocumentNames(rel) + (if m.score > threshold then {DocumentNameOf(m)} else {})
  {
    var m := top[i];
    var rel := Relevant(top[..i], threshold);
    assert top[..i + 1][..i] == top[..i];
    if m.score > threshold {
      assert Relevant(top[..i + 1], threshold) == rel + [m];
      assert ChunkTexts(rel + [m]) == ChunkTexts(rel) + [ChunkTextOf(m)];
      assert DocumentNames(rel + [m]) == DocumentNames(rel) + {DocumentNameOf(m)};
    }
  }

  /** The `for match in all_matches[:10]` loop: the context chunks and the
      source names of the relevant matches. */
  method SelectContext(ranked: seq<Match>, threshold: real) returns (contextChunks: seq<string>, sources: set<string>)
    ensures contextChunks == ChunkTexts(Relevant(Top(ranked), threshold))
    ensures sources == DocumentNames(Relevant(Top(ranked), threshold))
  {
    var top := Top(ranked);
    contextChunks := [];
    sources := {};
    for i := 0 to |top|
      invariant contextChunks == ChunkTexts(Relevant(top[..i], threshold))
      invariant sources == DocumentNames(Relevant(top[..i], threshold))
    {
      var m := top[i];
      SelectionStep(top, i, threshold);
      if m.score > threshold {
        contextChunks := contextChunks + [ChunkTextOf(m)];
        sources := sources + {DocumentNameOf(m)};
      }
    }
    assert top[..|top|] == top;
  }

  /** A match gives context exactly when it is among the first ten and
      scores above the threshold; no chunk means no source and vice versa. */
  lemma SelectedMatches(s: seq<Match>, threshold: real, m: Match)
    ensures m in Relevant(Top(s), threshold) <==>
      (exists i :: 0 <= i < Min(TopN, |s|) && s[i] == m) && m.score > threshold
    ensures ChunkTexts(Relevant(Top(s), threshold)) == [] <==> DocumentNames(Relevant(Top(s), threshold)) == {}
  {
    var rel := Relevant(Top(s), threshold);
    if rel != [] {
      assert DocumentNameOf(rel[0]) in DocumentNames(rel);
    }
    if m in Top(s) {
      var i :| 0 <= i < |Top(s)| && Top(s)[i] == m;
      assert s[i] == m;
    }
    if exists i :: 0 <= i < Min(TopN, |s|) && s[i] == m {
      var i :| 0 <= i < Min(TopN, |s|) && s[i] == m;
      assert Top(s)[i] == m;
    }
  }

  /** Matches after the tenth never matter. */
  lemma OnlyFirstTenCount(s: seq<Match>, t: seq<Match>, threshold: real)
    requires |s| >= TopN
    ensures Relevant(Top(s + t), threshold) == Relevant(Top(s), threshold)
  {
    assert Top(s + t) == Top(s);
  }

  /** A score between the two thresholds gives context only when the
      question is about the current file, whether or not a document filter
      was applied to the search. */
  lemma ThresholdFollowsScope(s: seq<Match>, m: Match, isCurrentFile: bool)
    requires m in s
    requires CurrentFileThreshold < m.score <= GlobalThreshold
    ensures m in Relevant(s, Threshold(isCurrentFile)) <==> isCurrentFile
  {
  }
}
