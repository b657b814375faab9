/** Image ranker (backend/src/agent/clipEvaluator.js): every image gets a
    random score, and the images are stably sorted by descending score. */
module ClipEvaluator {

  /** A score in ten-thousandths: `(Math.random() * (0.99 - 0.8) + 0.8).toFixed(4)`
      lies between 0.8000 and 0.9900; `toFixed` rounds to nearest, so 0.9900
      itself can occur. */
  const MinScore: int := 8000
  const MaxScore: int := 9900
  type Score = s: int | MinScore <= s <= MaxScore witness MinScore

  /** `{ url, score, rank }`; `rank` is the image's 1-based position in the
      input list. */
  datatype RankedImage = RankedImage(url: string, score: Score, rank: nat)

  /** The `map` step: the image at index i gets the i-th random draw and rank
      i + 1. */
  function Scored(images: seq<string>, draw: nat -> Score): (r: seq<RankedImage>)
    ensures |r| == |images|
    ensures forall i :: 0 <= i < |r| ==> r[i] == RankedImage(images[i], draw(i), i + 1)
  {
    seq(|images|, i requires 0 <= i < |images| => RankedImage(images[i], draw(i), i + 1))
  }

  /** Scores do not increase along `s`. */
  predicate Descending(s: seq<RankedImage>) {
    forall i, j :: 0 <= i < j < |s| ==> s[i].score >= s[j].score
  }

  /** `a` belongs before `b`: a higher score, or the same score and a lower
      rank. */
  predicate Before(a: RankedImage, b: RankedImage) {
    a.score > b.score || (a.score == b.score && a.rank < b.rank)
  }

  /** Sorted by descending score and, among equal scores, by ascending rank. */
  predicate Ordered(s: seq<RankedImage>) {
    forall i, j :: 0 <= i < j < |s| ==> Before(s[i], s[j])
  }

  /** Ranks strictly increase along `s`, as they do in the output of `Scored`. */
  predicate RanksIncrease(s: seq<RankedImage>) {
    forall i, j :: 0 <= i < j < |s| ==> s[i].rank < s[j].rank
  }

  /** Puts `x` in front of the first element whose score is not above its own. */
  function Insert(x: RankedImage, s: seq<RankedImage>): (r: seq<RankedImage>)
    ensures multiset(r) == multiset(s) + multiset{x}
    ensures |r| == |s| + 1
  {
    if s == [] || x.score >= s[0].score then [x] + s
    else
      assert s == [s[0]] + s[1..];
      [s[0]] + Insert(x, s[1..])
  }

  /** The head of `Insert(x, s)` is `x` or the head of `s`. */
  lemma InsertHead(x: RankedImage, s: seq<RankedImage>)
    ensures Insert(x, s)[0] == x || (s != [] && Insert(x, s)[0] == s[0])
  {}

  lemma {:induction false} InsertDescending(x: RankedImage, s: seq<RankedImage>)
    requires Descending(s)
    ensures Descending(Insert(x, s))
  {
    if !(s == [] || x.score >= s[0].score) {
      InsertDescending(x, s[1..]);
      var rest := Insert(x, s[1..]);
      InsertHead(x, s[1..]);
      assert s[0].score >= rest[0].score;
      assert Insert(x, s) == [s[0]] + rest;
      forall i, j | 0 <= i < j < |rest| + 1 ensures ([s[0]] + rest)[i].score >= ([s[0]] + rest)[j].score {
        if i == 0 && j > 1 {
          assert rest[0].score >= rest[j - 1].score;
        }
      }
    }
  }

  lemma {:induction false} InsertOrdered(x: RankedImage, s: seq<RankedImage>)
    requires Ordered(s)
    requires forall k :: 0 <= k < |s| ==> x.rank < s[k].rank
    ensures Ordered(Insert(x, s))
  {
    if !(s == [] || x.score >= s[0].score) {
      InsertOrdered(x, s[1..]);
      var rest := Insert(x, s[1..]);
      InsertHead(x, s[1..]);
      assert Before(s[0], rest[0]);
      assert Insert(x, s) == [s[0]] + rest;
      forall i, j | 0 <= i < j < |rest| + 1 ensures Before(([s[0]] + rest)[i], ([s[0]] + rest)[j]) {
        if i == 0 && j > 1 {
          assert Before(rest[0], rest[j - 1]);
        }
      }
    }
  }

  /** `array.sort((a, b) => b.score - a.score)`: a stable sort by descending
      score, as insertion sort. */
  function SortByScore(s: seq<RankedImage>): (r: seq<RankedImage>)
    ensures multiset(r) == multiset(s)
    ensures |r| == |s|
    ensures Descending(r)
  {
    if s == [] then []
    else
      assert s == [s[0]] + s[1..];
      var t := SortByScore(s[1..]);
      InsertDescending(s[0], t);
      Insert(s[0], t)
  }

  /** Among equal scores the sort keeps the input order: sorting a sequence
      whose ranks increase orders it by descending score, then ascending rank. */
  lemma {:induction false} SortIsStable(s: seq<RankedImage>)
    requires RanksIncrease(s)
    ensures Ordered(SortByScore(s))
  {
    if s != [] {
      assert RanksIncrease(s[1..]);
      SortIsStable(s[1..]);
      var t := SortByScore(s[1..]);
      forall k | 0 <= k < |t| ensures s[0].rank < t[k].rank {
        assert t[k] in multiset(s[1..]);
        var j :| 0 <= j < |s[1..]| && s[1..][j] == t[k];
        assert s[j + 1] == t[k];
      }
      InsertOrdered(s[0], t);
    }
  }

  /** `evaluateImages(images, textContext)`, with the random draws as input.
      `textContext` is not used. */
  function EvaluateImages(images: seq<string>, textContext: string, draw: nat -> Score): (r: seq<RankedImage>)
    ensures |r| == |images|
    ensures forall i :: 0 <= i < |r| ==>
      1 <= r[i].rank <= |images| && r[i].url == images[r[i].rank - 1] && r[i].score == draw(r[i].rank - 1)
    ensures forall i, j :: 0 <= i < j < |r| ==> r[i].score >= r[j].score
    ensures forall i, j :: 0 <= i < j < |r| && r[i].score == r[j].score ==> r[i].rank < r[j].rank
  {
    var scored := Scored(images, draw);
    var r := SortByScore(scored);
    SortIsStable(scored);
    SortedEntries(images, draw, r);
    r
  }

  /** Each sorted entry is some input image with its own draw and rank. */
  lemma SortedEntries(images: seq<string>, draw: nat -> Score, r: seq<RankedImage>)
    requires r == SortByScore(Scored(images, draw))
    ensures forall i :: 0 <= i < |r| ==>
      1 <= r[i].rank <= |images| && r[i].url == images[r[i].rank - 1] && r[i].score == draw(r[i].rank - 1)
  {
    var scored := Scored(images, draw);
    forall i | 0 <= i < |r|
      ensures 1 <= r[i].rank <= |images| && r[i].url == images[r[i].rank - 1] && r[i].score == draw(r[i].rank - 1)
    {
      assert r[i] in multiset(r);
      assert r[i] in scored;
      var j :| 0 <= j < |scored| && scored[j] == r[i];
    }
  }

  predicate HasRank(r: seq<RankedImage>, n: nat) {
    exists i :: 0 <= i < |r| && r[i].rank == n
  }

  /** Ranks are 1..N, each exactly once. */
  lemma RanksArePermutation(images: seq<string>, textContext: string, draw: nat -> Score)
    ensures var r := EvaluateImages(images, textContext, draw);
      && (forall i, j :: 0 <= i < j < |r| ==> r[i].rank != r[j].rank)
      && (forall n :: 1 <= n <= |images| ==> HasRank(r, n))
  {
    var scored := Scored(images, draw);
    var r := EvaluateImages(images, textContext, draw);
    assert multiset(r) == multiset(scored);
    forall n | 1 <= n <= |images| ensures HasRank(r, n) {
      assert scored[n - 1] in multiset(r);
      var i :| 0 <= i < |r| && r[i] == scored[n - 1];
      assert r[i].rank == n;
    }
  }

  /** The output is the images with their draws, reordered. */
  lemma RankingIsPermutation(images: seq<string>, textContext: string, draw: nat -> Score)
    ensures multiset(EvaluateImages(images, textContext, draw)) == multiset(Scored(images, draw))
  {}

  /** The text context does not influence the ranking. */
  lemma ContextIgnored(images: seq<string>, c1: string, c2: string, draw: nat -> Score)
    ensures EvaluateImages(images, c1, draw) == EvaluateImages(images, c2, draw)
  {}

  /** Ranks give the input position, not the output position: the second image
      with the higher score comes first and keeps rank 2. */
  lemma RankIsInputPosition(a: string, b: string)
    ensures var draw := (i: nat) => if i == 0 then 8000 as Score else 9000 as Score;
      EvaluateImages([a, b], "", draw) == [RankedImage(b, 9000, 2), RankedImage(a, 8000, 1)]
  {
    var draw := (i: nat) => if i == 0 then 8000 as Score else 9000 as Score;
    var scored := Scored([a, b], draw);
    assert scored == [RankedImage(a, 8000, 1), RankedImage(b, 9000, 2)];
    assert SortByScore(scored[1..]) == [RankedImage(b, 9000, 2)];
  }
}
