// The keyword-scoring classifier shared by the command interpreter and the
// document classifier: each category scores min(base confidence, matches /
// keyword count) on the lower-cased text, and a scan in table order keeps
// the first category with the strictly highest score.

module Keywords {
  import opened Strings

  /** A category of a keyword classifier: its name, its keywords and the
      most confidence a match can earn. */
  datatype Category = Category(name: string, keywords: seq<string>, baseConfidence: real)

  /** The outcome of a scan: the index of the chosen category, if any, and
      its confidence. */
  datatype Choice = Choice(best: Option<nat>, confidence: real)

  /** Python's `min(a, b)`: the first argument unless the second is smaller. */
  function Min(a: real, b: real): (m: real)
    ensures m <= a && m <= b
    ensures m == a || m == b
  {
    if b < a then b else a
  }

  /** How many of the keywords, lower-cased, occur in the text
      (`sum(1 for keyword in keywords if keyword.lower() in text)`). */
  function MatchCount(keywords: seq<string>, text: string): (n: nat)
    ensures n <= |keywords|
  {
    if |keywords| == 0 then 0
    else
      var last := keywords[|keywords| - 1];
      MatchCount(keywords[..|keywords| - 1], text) + if Contains(text, Lower(last)) then 1 else 0
  }

  /** The count is zero exactly when no keyword occurs. */
  lemma {:induction false} MatchCountZero(keywords: seq<string>, text: string)
    ensures MatchCount(keywords, text) == 0 <==>
      forall i :: 0 <= i < |keywords| ==> !Contains(text, Lower(keywords[i]))
  {
    if |keywords| > 0 {
      var init := keywords[..|keywords| - 1];
      MatchCountZero(init, text);
      assert forall i :: 0 <= i < |init| ==> init[i] == keywords[i];
    }
  }

  /** The count is the full keyword count exactly when every keyword occurs. */
  lemma {:induction false} MatchCountAll(keywords: seq<string>, text: string)
    ensures MatchCount(keywords, text) == |keywords| <==>
      forall i :: 0 <= i < |keywords| ==> Contains(text, Lower(keywords[i]))
  {
    if |keywords| > 0 {
      var init := keywords[..|keywords| - 1];
      MatchCountAll(init, text);
      assert forall i :: 0 <= i < |init| ==> init[i] == keywords[i];
    }
  }

  /** Keywords known to be missing from the text leave at most the others
      to be counted. */
  lemma {:induction false} MatchCountWithout(keywords: seq<string>, text: string, missing: set<nat>)
    requires forall i :: i in missing ==> i < |keywords| && !Contains(text, Lower(keywords[i]))
    ensures MatchCount(keywords, text) + |missing| <= |keywords|
  {
    if |keywords| == 0 {
      assert missing == {};
    } else {
      var last := |keywords| - 1;
      var init := keywords[..last];
      var rest := missing - {last};
      assert forall i :: i in rest ==> init[i] == keywords[i];
      MatchCountWithout(init, text, rest);
    }
  }

  /** Keywords known to occur in the text are all counted. */
  lemma {:induction false} MatchCountWith(keywords: seq<string>, text: string, present: set<nat>)
    requires forall i :: i in present ==> i < |keywords| && Contains(text, Lower(keywords[i]))
    ensures |present| <= MatchCount(keywords, text)
  {
    if |keywords| == 0 {
      assert present == {};
    } else {
      var last := |keywords| - 1;
      var init := keywords[..last];
      var rest := present - {last};
      assert forall i :: i in rest ==> init[i] == keywords[i];
      MatchCountWith(init, text, rest);
    }
  }

  /** The confidence a category earns on a text: nothing without a match,
      otherwise the share of its keywords that occur, capped at its base. */
  function Score(c: Category, text: string): (s: real)
    ensures MatchCount(c.keywords, text) == 0 ==> s == 0.0
    ensures MatchCount(c.keywords, text) > 0 ==> s <= c.baseConfidence
    ensures MatchCount(c.keywords, text) > 0 && c.baseConfidence > 0.0 ==> s > 0.0
    ensures s <= 1.0
  {
    var m := MatchCount(c.keywords, text);
    if m == 0 then 0.0 else Min(c.baseConfidence, m as real / |c.keywords| as real)
  }

  /** The category a scan in table order keeps: a category replaces the
      current choice only when it has a match and a strictly higher score. */
  function BestAmong(cats: seq<Category>, text: string): (b: Choice)
    ensures b.best.Some? ==> b.best.value < |cats|
  {
    if |cats| == 0 then Choice(None, 0.0)
    else
      var before := BestAmong(cats[..|cats| - 1], text);
      var c := cats[|cats| - 1];
      if MatchCount(c.keywords, text) > 0 && Score(c, text) > before.confidence
      then Choice(Some(|cats| - 1), Score(c, text))
      else before
  }

  /** When every base confidence is positive, the scan chooses nothing
      exactly when no category has a match; otherwise it chooses a category
      with the highest score, and the first such one in table order. */
  lemma {:induction false} BestIsFirstMaximum(cats: seq<Category>, text: string)
    requires forall k :: 0 <= k < |cats| ==> cats[k].baseConfidence > 0.0
    ensures var b := BestAmong(cats, text);
      (b.best.None? <==> forall k :: 0 <= k < |cats| ==> MatchCount(cats[k].keywords, text) == 0)
      && (b.best.None? ==> b.confidence == 0.0)
      && (b.best.Some? ==> b.confidence == Score(cats[b.best.value], text) && b.confidence > 0.0)
      && (forall k :: 0 <= k < |cats| ==> Score(cats[k], text) <= b.confidence)
      && (b.best.Some? ==> forall k :: 0 <= k < b.best.value ==> Score(cats[k], text) < b.confidence)
  {
    if |cats| > 0 {
      var init := cats[..|cats| - 1];
      assert forall k :: 0 <= k < |init| ==> init[k] == cats[k];
      BestIsFirstMaximum(init, text);
    }
  }

  /** A category one of whose keywords occurs has a match, so the scan
      chooses some category. */
  lemma SomeMatchChooses(cats: seq<Category>, text: string, k: nat, j: nat)
    requires forall c :: 0 <= c < |cats| ==> cats[c].baseConfidence > 0.0
    requires k < |cats| && j < |cats[k].keywords|
    requires Contains(text, Lower(cats[k].keywords[j]))
    ensures BestAmong(cats, text).best.Some?
  {
    MatchCountZero(cats[k].keywords, text);
    BestIsFirstMaximum(cats, text);
  }

  /** The scan of `classify_document` and `process_nlp_command`. */
  method SelectBest(cats: seq<Category>, text: string) returns (best: Option<nat>, confidence: real)
    ensures Choice(best, confidence) == BestAmong(cats, text)
  {
    best, confidence := None, 0.0;
    for i := 0 to |cats|
      invariant Choice(best, confidence) == BestAmong(cats[..i], text)
    {
      assert cats[..i + 1][..i] == cats[..i];
      var matches := MatchCount(cats[i].keywords, text);
      if matches > 0 {
        var score := Min(cats[i].baseConfidence, matches as real / |cats[i].keywords| as real);
        if score > confidence {
          best, confidence := Some(i), score;
        }
      }
    }
    assert cats[..|cats|] == cats;
  }

  /** The first candidate occurring in the text, in list order (a
      `for c in candidates: if c in text: ...; break` loop). */
  function FirstContained(candidates: seq<string>, text: string): Option<string>
  {
    if |candidates| == 0 then None
    else if Contains(text, candidates[0]) then Some(candidates[0])
    else FirstContained(candidates[1..], text)
  }

  /** `FirstContained` finds a candidate exactly when one occurs, and the
      one it finds is the first that occurs. */
  lemma {:induction false} FirstContainedIsFirst(candidates: seq<string>, text: string)
    ensures FirstContained(candidates, text).None? <==>
      forall i :: 0 <= i < |candidates| ==> !Contains(text, candidates[i])
    ensures FirstContained(candidates, text).Some? ==>
      exists i :: 0 <= i < |candidates| && candidates[i] == FirstContained(candidates, text).value
        && Contains(text, candidates[i])
        && forall j :: 0 <= j < i ==> !Contains(text, candidates[j])
  {
    if |candidates| > 0 {
      var rest := candidates[1..];
      FirstContainedIsFirst(rest, text);
      assert forall i :: 1 <= i < |candidates| ==> candidates[i] == rest[i - 1];
      if FirstContained(candidates, text).Some? {
        if Contains(text, candidates[0]) {
          assert candidates[0] == FirstContained(candidates, text).value;
        } else {
          var i :| 0 <= i < |rest| && rest[i] == FirstContained(rest, text).value
            && Contains(text, rest[i]) && forall j :: 0 <= j < i ==> !Contains(text, rest[j]);
          assert candidates[i + 1] == rest[i];
        }
      }
    }
  }

  /** The search loop, stopping at the first candidate found. */
  method FindFirstContained(candidates: seq<string>, text: string) returns (found: Option<string>)
    ensures found == FirstContained(candidates, text)
  {
    var i := 0;
    while i < |candidates|
      invariant 0 <= i <= |candidates|
      invariant FirstContained(candidates[i..], text) == FirstContained(candidates, text)
    {
      assert candidates[i..][1..] == candidates[i + 1..];
      if Contains(text, candidates[i]) {
        return Some(candidates[i]);
      }
      i := i + 1;
    }
    return None;
  }
}
