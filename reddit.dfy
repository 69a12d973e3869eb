/** The keyword score of backend/adapters/reddit.js: each post's text,
    lower-cased, scores +1 for a bullish keyword and −1 for a bearish one,
    and the sentiment is the mean score. The HTTP fetch is an input: the
    posts it returned, or `None` when it or the parsing failed. */
module Reddit {
  import opened Common

  /** `post.data`, of which the scorer reads two fields. */
  datatype Post = Post(title: string, selftext: string)

  /** `title + ' ' + selftext` */
  function Text(p: Post): string
  {
    p.title + " " + p.selftext
  }

  predicate StartsWith(text: string, word: string)
  {
    |word| <= |text| && text[..|word|] == word
  }

  /** `text.includes(word)` */
  predicate Includes(text: string, word: string)
    decreases |text|
  {
    StartsWith(text, word) || (|text| > 0 && Includes(text[1..], word))
  }

  /** `word` sits in `text` at position i. */
  predicate OccursAt(text: string, word: string, i: int)
  {
    0 <= i && i + |word| <= |text| && text[i..i + |word|] == word
  }

  /** `Includes` finds exactly the words that occur at some position. */
  lemma {:induction false} IncludesIffOccurs(text: string, word: string)
    ensures Includes(text, word) <==> exists i :: OccursAt(text, word, i)
    decreases |text|
  {
    if StartsWith(text, word) {
      assert OccursAt(text, word, 0);
    }
    if |text| > 0 {
      IncludesIffOccurs(text[1..], word);
      if exists i :: OccursAt(text[1..], word, i) {
        var i :| OccursAt(text[1..], word, i);
        assert text[i + 1..i + 1 + |word|] == text[1..][i..i + |word|];
        assert OccursAt(text, word, i + 1);
      }
      if exists i :: OccursAt(text, word, i) {
        var i :| OccursAt(text, word, i);
        if i > 0 {
          assert text[1..][i - 1..i - 1 + |word|] == text[i..i + |word|];
          assert OccursAt(text[1..], word, i - 1);
        }
      }
    } else {
      if exists i :: OccursAt(text, word, i) {
        var i :| OccursAt(text, word, i);
        assert text[..|word|] == text[i..i + |word|];
      }
    }
  }

  predicate Bullish(lower: string)
  {
    Includes(lower, "bullish") || Includes(lower, "buy") || Includes(lower, "moon")
  }

  predicate Bearish(lower: string)
  {
    Includes(lower, "bearish") || Includes(lower, "sell") || Includes(lower, "crash")
  }

  /** What one post adds to `score`. */
  function PostScore(text: string): (d: int)
    ensures -1 <= d <= 1
    ensures d == 1 <==> Bullish(Lower(text)) && !Bearish(Lower(text))
    ensures d == -1 <==> !Bullish(Lower(text)) && Bearish(Lower(text))
  {
    var lower := Lower(text);
    (if Bullish(lower) then 1 else 0) - (if Bearish(lower) then 1 else 0)
  }

  /** `score` after the loop over `texts`: each post moves it by at most one. */
  function Score(texts: seq<string>): (score: int)
    ensures -|texts| <= score <= |texts|
    decreases |texts|
  {
    if texts == [] then 0 else Score(texts[..|texts| - 1]) + PostScore(texts[|texts| - 1])
  }

  lemma MeanInUnitRange(score: real, total: real)
    requires total > 0.0 && -total <= score <= total
    ensures -1.0 <= score / total <= 1.0
  {
    assert score / total * total == score;
  }

  /** `total > 0 ? score / total : 0` */
  function Sentiment(texts: seq<string>): (s: real)
    ensures -1.0 <= s <= 1.0
    ensures texts == [] ==> s == 0.0
  {
    if |texts| > 0 then
      MeanInUnitRange(Score(texts) as real, |texts| as real);
      Score(texts) as real / |texts| as real
    else 0.0
  }

  const DefaultSubreddit: string := "cryptocurrency"

  datatype RedditSentiment = RedditSentiment(subreddit: string, sentiment: real)

  /** `fetchRedditSentiment(subreddit)` once the request has settled; an
      omitted subreddit is the default. */
  method FetchRedditSentiment(subreddit: Option<string>, fetched: Option<seq<Post>>) returns (r: RedditSentiment)
    ensures r.subreddit == if subreddit.Some? then subreddit.value else DefaultSubreddit
    ensures fetched.None? ==> r.sentiment == 0.0
    ensures fetched.Some? ==> r.sentiment == Sentiment(seq(|fetched.value|, i requires 0 <= i < |fetched.value| => Text(fetched.value[i])))
  {
    var name := if subreddit.Some? then subreddit.value else DefaultSubreddit;
    if fetched.None? {
      return RedditSentiment(name, 0.0);
    }
    var posts := seq(|fetched.value|, i requires 0 <= i < |fetched.value| => Text(fetched.value[i]));
    var score := 0;
    var total := 0;
    for k := 0 to |posts|
      invariant score == Score(posts[..k]) && total == k
    {
      var lower := Lower(posts[k]);
      if Includes(lower, "bullish") || Includes(lower, "buy") || Includes(lower, "moon") {
        score := score + 1;
      }
      if Includes(lower, "bearish") || Includes(lower, "sell") || Includes(lower, "crash") {
        score := score - 1;
      }
      total := total + 1;
      assert posts[..k + 1][..k] == posts[..k];
    }
    assert posts[..|posts|] == posts;
    var sentiment := if total > 0 then score as real / total as real else 0.0;
    r := RedditSentiment(name, sentiment);
  }

  /** A post naming a bullish and a bearish keyword contributes nothing. */
  lemma MixedPostIsNeutral(text: string)
    requires Bullish(Lower(text)) && Bearish(Lower(text))
    ensures PostScore(text) == 0
  {
  }

  lemma LowerForgetsCase(text: string)
    ensures Lower(Upper(text)) == Lower(text)
  {
    forall i | 0 <= i < |text|
      ensures Lower(Upper(text))[i] == Lower(text)[i]
    {
      var c := text[i];
      if IsLowerLetter(c) {
        assert UpperChar(c) as int == c as int - 32;
        assert LowerChar(UpperChar(c)) == c;
      }
    }
  }

  /** Matching ignores case: shouting a post does not change its score. */
  lemma ScoreIgnoresCase(text: string)
    ensures PostScore(Upper(text)) == PostScore(text)
  {
    LowerForgetsCase(text);
  }

  /** The score is additive over posts: two batches score the sum of their
      scores, so each post contributes on its own. */
  lemma {:induction false} ScoreOfConcat(a: seq<string>, b: seq<string>)
    ensures Score(a + b) == Score(a) + Score(b)
    decreases |b|
  {
    if b == [] {
      assert a + b == a;
    } else {
      ScoreOfConcat(a, b[..|b| - 1]);
      assert (a + b)[..|a + b| - 1] == a + b[..|b| - 1];
    }
  }
}
