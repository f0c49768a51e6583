/** The back end's stand-in for image similarity (`simulate_image_analysis`): copy the
    catalogue, shuffle the copy, attach a score to each of its first six entries and
    sort those by score, highest first. The random draws are parameters. */
module Analysis {
  import opened JsonValues

  /** How many products a search returns at most. */
  const ResultCount: nat := 6
  /** Scores are two-decimal floats between 0.70 and 0.95; the model keeps hundredths. */
  const MinScore: int := 70
  const MaxScore: int := 95
  const ScoreKey: string := "similarity_score"

  /** A copied catalogue entry together with the score attached to it, in hundredths. */
  datatype Match = Match(entry: Product, score: int)

  function Min(a: nat, b: nat): nat {
    if a <= b then a else b
  }

  /** `random.shuffle` on a list of length n swaps, for i from n-1 down to 1, position i
      with a position j drawn from 0..i; `draws` lists those j in that order. */
  ghost predicate IsShuffleDraws(n: nat, draws: seq<nat>) {
    && |draws| == (if n == 0 then 0 else n - 1)
    && forall k :: 0 <= k < |draws| ==> draws[k] <= n - 1 - k
  }

  /** One `round(random.uniform(0.7, 0.95), 2)` per returned product. */
  ghost predicate IsScoreDraws(n: nat, scores: seq<int>) {
    && |scores| == Min(ResultCount, n)
    && forall k :: 0 <= k < |scores| ==> MinScore <= scores[k] <= MaxScore
  }

  /** The list is ordered by score, highest first (ties in any order). */
  ghost predicate SortedByScore(ms: seq<Match>) {
    forall p, q :: 0 <= p < q < |ms| ==> ms[p].score >= ms[q].score
  }

  function SwapAt<T>(s: seq<T>, i: nat, j: nat): seq<T>
    requires i < |s| && j < |s|
  {
    s[i := s[j]][j := s[i]]
  }

  /** The list `random.shuffle` leaves behind after the swaps that `draws` selects. */
  function Shuffled<T>(s: seq<T>, draws: seq<nat>): (r: seq<T>)
    requires |draws| <= |s|
    requires forall k :: 0 <= k < |draws| ==> draws[k] < |s| - k
    ensures |r| == |s|
  {
    if draws == [] then s
    else
      var k := |draws| - 1;
      SwapAt(Shuffled(s, draws[..k]), |s| - 1 - k, draws[k])
  }

  /** Shuffling only reorders: the shuffled list is a permutation of the original. */
  lemma {:induction false} ShuffledIsPermutation<T>(s: seq<T>, draws: seq<nat>)
    requires |draws| <= |s|
    requires forall k :: 0 <= k < |draws| ==> draws[k] < |s| - k
    ensures multiset(Shuffled(s, draws)) == multiset(s)
  {
    if draws != [] {
      var k := |draws| - 1;
      ShuffledIsPermutation(s, draws[..k]);
    }
  }

  /** The catalogue entries of a list of matches, in order. */
  function Entries(ms: seq<Match>): seq<Product> {
    seq(|ms|, i requires 0 <= i < |ms| => ms[i].entry)
  }

  /** The first entries of the shuffled copy, paired with their scores. */
  function Scored(entries: seq<Product>, scores: seq<int>): seq<Match>
    requires |entries| == |scores|
  {
    seq(|entries|, i requires 0 <= i < |entries| => Match(entries[i], scores[i]))
  }

  /** The JSON object returned for a match: the catalogue entry with only
      `similarity_score` added (or overwritten), holding the score as a two-decimal float. */
  function WithScore(m: Match): (j: Json)
    ensures j.JObj? && j.fields.Keys == m.entry.Keys + {ScoreKey}
    ensures j.fields[ScoreKey] == JFloat(m.score as real / 100.0)
    ensures forall k :: k in m.entry && k != ScoreKey ==> j.fields[k] == m.entry[k]
  {
    JObj(m.entry[ScoreKey := JFloat(m.score as real / 100.0)])
  }

  lemma EntriesConcat(a: seq<Match>, b: seq<Match>)
    ensures Entries(a + b) == Entries(a) + Entries(b)
  {
  }

  /** Reordering matches reorders their entries the same way. */
  lemma {:induction false} EntriesOfPermutation(s: seq<Match>, t: seq<Match>)
    requires multiset(s) == multiset(t)
    ensures multiset(Entries(s)) == multiset(Entries(t))
    decreases |s|
  {
    if s == [] {
      assert |t| == |multiset(t)| == 0;
    } else {
      var x := s[0];
      assert x in multiset(t);
      var i :| 0 <= i < |t| && t[i] == x;
      var rest := t[..i] + t[i + 1..];
      assert t == t[..i] + [x] + t[i + 1..];
      assert s == [x] + s[1..];
      assert multiset(t) == multiset(t[..i]) + multiset{x} + multiset(t[i + 1..]);
      assert multiset(rest) == multiset(t) - multiset{x};
      assert multiset(s[1..]) == multiset(s) - multiset{x};
      assert multiset(s[1..]) == multiset(rest);
      EntriesOfPermutation(s[1..], rest);
      EntriesConcat([x], s[1..]);
      EntriesConcat(t[..i] + [x], t[i + 1..]);
      EntriesConcat(t[..i], [x]);
      EntriesConcat(t[..i], t[i + 1..]);
    }
  }

  /** Whatever order the scored entries end up in, the entries are those of the list
      that was scored, and every score is one of the drawn scores. */
  lemma ScoredProvenance(entries: seq<Product>, scores: seq<int>, results: seq<Match>)
    requires |entries| == |scores|
    requires forall k :: 0 <= k < |scores| ==> MinScore <= scores[k] <= MaxScore
    requires multiset(results) == multiset(Scored(entries, scores))
    ensures multiset(Entries(results)) == multiset(entries)
    ensures forall i :: 0 <= i < |results| ==> MinScore <= results[i].score <= MaxScore
  {
    var scored := Scored(entries, scores);
    assert Entries(scored) == entries;
    EntriesOfPermutation(results, scored);
    forall i | 0 <= i < |results| ensures MinScore <= results[i].score <= MaxScore {
      assert results[i] in multiset(scored);
    }
  }

  /** A prefix of the shuffled copy holds distinct catalogue entries. */
  lemma ShuffledPrefix<T>(s: seq<T>, draws: seq<nat>, n: nat)
    requires |draws| <= |s|
    requires forall k :: 0 <= k < |draws| ==> draws[k] < |s| - k
    requires n <= |s|
    ensures multiset(Shuffled(s, draws)[..n]) <= multiset(s)
  {
    var shuffled := Shuffled(s, draws);
    ShuffledIsPermutation(s, draws);
    assert shuffled == shuffled[..n] + shuffled[n..];
  }

  method Swap<T>(a: array<T>, i: nat, j: nat)
    requires i < a.Length && j < a.Length
    modifies a
    ensures a[..] == SwapAt(old(a[..]), i, j)
    ensures multiset(a[..]) == old(multiset(a[..]))
  {
    a[i], a[j] := a[j], a[i];
  }

  /** `random.shuffle(a)`, the Fisher-Yates shuffle, with its random draws given. */
  method Shuffle<T>(a: array<T>, draws: seq<nat>)
    requires IsShuffleDraws(a.Length, draws)
    modifies a
    ensures a[..] == Shuffled(old(a[..]), draws)
  {
    var k := 0;
    while k < |draws|
      invariant 0 <= k <= |draws|
      invariant a[..] == Shuffled(old(a[..]), draws[..k])
    {
      assert draws[..k + 1][..k] == draws[..k];
      Swap(a, a.Length - 1 - k, draws[k]);
      k := k + 1;
    }
    assert draws[..k] == draws;
  }

  /** `results.sort(key=score, reverse=True)`: an insertion sort that moves an element
      past its predecessor only when the predecessor's score is strictly lower. */
  method SortByScore(a: array<Match>)
    modifies a
    ensures SortedByScore(a[..])
    ensures multiset(a[..]) == old(multiset(a[..]))
  {
    var i := 1;
    while i < a.Length
      invariant a.Length == 0 || 1 <= i <= a.Length
      invariant forall p, q :: 0 <= p < q < i && i <= a.Length ==> a[p].score >= a[q].score
      invariant multiset(a[..]) == old(multiset(a[..]))
    {
      var j := i;
      while j > 0 && a[j - 1].score < a[j].score
        invariant 0 <= j <= i
        invariant forall p, q :: 0 <= p < q <= i && p != j && q != j ==> a[p].score >= a[q].score
        invariant forall q :: j < q <= i ==> a[j].score > a[q].score
        invariant multiset(a[..]) == old(multiset(a[..]))
      {
        Swap(a, j - 1, j);
        j := j - 1;
      }
      i := i + 1;
    }
  }

  /** `simulate_image_analysis()`: the result holds min(6, |catalogue|) matches, sorted by
      score, highest first; up to order it is the first entries of the shuffled copy paired
      with the drawn scores, so its entries are distinct catalogue entries and its scores lie
      in 70..95. The catalogue itself is a value and the shuffle works on a fresh copy. */
  method SimulateImageAnalysis(catalogue: seq<Product>, draws: seq<nat>, scores: seq<int>)
    returns (results: seq<Match>)
    requires IsShuffleDraws(|catalogue|, draws)
    requires IsScoreDraws(|catalogue|, scores)
    ensures |results| == Min(ResultCount, |catalogue|)
    ensures SortedByScore(results)
    ensures multiset(results) == multiset(Scored(Shuffled(catalogue, draws)[..|scores|], scores))
    ensures multiset(Entries(results)) <= multiset(catalogue)
    ensures forall i :: 0 <= i < |results| ==> MinScore <= results[i].score <= MaxScore
  {
    var shuffled := new Product[|catalogue|](i requires 0 <= i < |catalogue| => catalogue[i]);
    assert shuffled[..] == catalogue;
    Shuffle(shuffled, draws);
    assert shuffled[..] == Shuffled(catalogue, draws);
    var taken := Min(ResultCount, shuffled.Length);
    var buffer := new Match[taken];
    for i := 0 to taken
      modifies buffer
      invariant forall t :: 0 <= t < i ==> buffer[t] == Match(shuffled[t], scores[t])
    {
      buffer[i] := Match(shuffled[i], scores[i]);
    }
    ghost var prefix := shuffled[..taken];
    assert buffer[..] == Scored(prefix, scores);
    SortByScore(buffer);
    results := buffer[..];
    assert prefix == Shuffled(catalogue, draws)[..|scores|];
    assert multiset(results) == multiset(Scored(prefix, scores));

    ScoredProvenance(prefix, scores, results);
    ShuffledPrefix(catalogue, draws, taken);
  }
}
