/**
 The recursive wildcard matcher over path segments (ai_bridge/permissions.py:133-145)
 and what it decides: a pattern covers a candidate when giving each `*` some list of
 segments, possibly none, turns the pattern into a prefix of the candidate.
 */
module PathMatcher {

  const STAR := "*"

  predicate MatchParts(pattern: seq<string>, candidate: seq<string>)
    decreases |pattern|
  {
    if pattern == [] then true
    else if candidate == [] && (exists i :: 0 <= i < |pattern| && pattern[i] != STAR) then false
    else if pattern[0] == STAR then
      exists index :: 0 <= index <= |candidate| && MatchParts(pattern[1..], candidate[index..])
    else if candidate == [] || pattern[0] != candidate[0] then false
    else MatchParts(pattern[1..], candidate[1..])
  }

  // ----- The declarative meaning -----

  function Stars(pattern: seq<string>): nat {
    if pattern == [] then 0
    else (if pattern[0] == STAR then 1 else 0) + Stars(pattern[1..])
  }

  /** The pattern with its stars replaced, in order, by the given segment lists. */
  function Fill(pattern: seq<string>, holes: seq<seq<string>>): seq<string>
    requires |holes| == Stars(pattern)
  {
    if pattern == [] then []
    else if pattern[0] == STAR then holes[0] + Fill(pattern[1..], holes[1..])
    else [pattern[0]] + Fill(pattern[1..], holes)
  }

  ghost predicate Filling(pattern: seq<string>, holes: seq<seq<string>>, candidate: seq<string>) {
    |holes| == Stars(pattern) && Fill(pattern, holes) <= candidate
  }

  ghost predicate Covers(pattern: seq<string>, candidate: seq<string>) {
    exists holes :: Filling(pattern, holes, candidate)
  }

  /** A literal segment survives every filling, so an empty candidate has no room for it. */
  lemma {:induction false} LiteralSurvives(pattern: seq<string>, holes: seq<seq<string>>, i: nat)
    requires |holes| == Stars(pattern) && i < |pattern| && pattern[i] != STAR
    ensures Fill(pattern, holes) != []
  {
    if i > 0 && pattern[0] == STAR {
      LiteralSurvives(pattern[1..], holes[1..], i - 1);
    }
  }

  lemma {:induction false} MatchIsCovered(pattern: seq<string>, candidate: seq<string>)
    returns (holes: seq<seq<string>>)
    requires MatchParts(pattern, candidate)
    ensures Filling(pattern, holes, candidate)
    decreases |pattern|
  {
    if pattern == [] {
      holes := [];
    } else if pattern[0] == STAR {
      var index :| 0 <= index <= |candidate| && MatchParts(pattern[1..], candidate[index..]);
      var rest := MatchIsCovered(pattern[1..], candidate[index..]);
      holes := [candidate[..index]] + rest;
      assert holes[1..] == rest;
      assert candidate == candidate[..index] + candidate[index..];
    } else {
      holes := MatchIsCovered(pattern[1..], candidate[1..]);
      assert candidate == [candidate[0]] + candidate[1..];
    }
  }

  lemma PrefixDrop(front: seq<string>, whole: seq<string>, n: nat)
    requires front <= whole && n <= |front|
    ensures front[n..] <= whole[n..]
    ensures n > 0 ==> front[0] == whole[0]
  {
    assert whole == front + whole[|front|..];
    assert whole[n..] == front[n..] + whole[|front|..];
  }

  lemma {:induction false} CoveredMatches(pattern: seq<string>, candidate: seq<string>, holes: seq<seq<string>>)
    requires Filling(pattern, holes, candidate)
    ensures MatchParts(pattern, candidate)
    decreases |pattern|
  {
    if pattern != [] {
      if candidate == [] {
        forall i | 0 <= i < |pattern| ensures pattern[i] == STAR {
          if pattern[i] != STAR {
            LiteralSurvives(pattern, holes, i);
          }
        }
      }
      if pattern[0] == STAR {
        var index := |holes[0]|;
        var rest := Fill(pattern[1..], holes[1..]);
        assert (holes[0] + rest)[index..] == rest;
        PrefixDrop(holes[0] + rest, candidate, index);
        CoveredMatches(pattern[1..], candidate[index..], holes[1..]);
        assert MatchParts(pattern[1..], candidate[index..]);
      } else {
        var rest := Fill(pattern[1..], holes);
        assert ([pattern[0]] + rest)[1..] == rest;
        PrefixDrop([pattern[0]] + rest, candidate, 1);
        CoveredMatches(pattern[1..], candidate[1..], holes);
      }
    }
  }

  /** The matcher decides its meaning, in both directions, for every pattern and candidate. */
  lemma MatchDecidesCovers(pattern: seq<string>, candidate: seq<string>)
    ensures MatchParts(pattern, candidate) <==> Covers(pattern, candidate)
  {
    if MatchParts(pattern, candidate) {
      var holes := MatchIsCovered(pattern, candidate);
    } else if Covers(pattern, candidate) {
      var holes :| Filling(pattern, holes, candidate);
      CoveredMatches(pattern, candidate, holes);
    }
  }

  // ----- Consequences -----

  lemma MatchClosedUnderExtension(pattern: seq<string>, candidate: seq<string>, deeper: seq<string>)
    requires MatchParts(pattern, candidate)
    ensures MatchParts(pattern, candidate + deeper)
  {
    var holes := MatchIsCovered(pattern, candidate);
    CoveredMatches(pattern, candidate + deeper, holes);
  }

  lemma {:induction false} FillWithoutStars(pattern: seq<string>)
    requires Stars(pattern) == 0
    ensures Fill(pattern, []) == pattern
  {
    if pattern != [] {
      FillWithoutStars(pattern[1..]);
      assert pattern == [pattern[0]] + pattern[1..];
    }
  }

  lemma {:induction false} NoStars(pattern: seq<string>)
    requires STAR !in pattern
    ensures Stars(pattern) == 0
  {
    if pattern != [] {
      assert pattern[0] in pattern;
      assert forall part :: part in pattern[1..] ==> part in pattern;
      NoStars(pattern[1..]);
    }
  }

  /**
   Without a segment that is exactly `*` the matcher is the segment-prefix test; in
   particular a star inside a longer segment stands for itself.
   */
  lemma LiteralPatternIsPrefix(pattern: seq<string>, candidate: seq<string>)
    requires STAR !in pattern
    ensures MatchParts(pattern, candidate) <==> pattern <= candidate
  {
    NoStars(pattern);
    FillWithoutStars(pattern);
    if pattern <= candidate {
      CoveredMatches(pattern, candidate, []);
    }
    if MatchParts(pattern, candidate) {
      var holes := MatchIsCovered(pattern, candidate);
      assert holes == [];
    }
  }

  lemma {:induction false} StarsAppend(front: seq<string>, back: seq<string>)
    ensures Stars(front + back) == Stars(front) + Stars(back)
  {
    if front == [] {
      assert front + back == back;
    } else {
      StarsAppend(front[1..], back);
      assert (front + back)[1..] == front[1..] + back;
    }
  }

  lemma {:induction false} FillAppend(front: seq<string>, back: seq<string>, left: seq<seq<string>>,
                                      right: seq<seq<string>>)
    requires |left| == Stars(front) && |right| == Stars(back)
    ensures |left + right| == Stars(front + back)
    ensures Fill(front + back, left + right) == Fill(front, left) + Fill(back, right)
  {
    StarsAppend(front, back);
    if front == [] {
      assert front + back == back && left + right == right;
    } else {
      assert (front + back)[1..] == front[1..] + back;
      if front[0] == STAR {
        assert (left + right)[1..] == left[1..] + right;
        FillAppend(front[1..], back, left[1..], right);
        assert left[0] + (Fill(front[1..], left[1..]) + Fill(back, right))
          == (left[0] + Fill(front[1..], left[1..])) + Fill(back, right);
      } else {
        FillAppend(front[1..], back, left, right);
        assert [front[0]] + (Fill(front[1..], left) + Fill(back, right))
          == ([front[0]] + Fill(front[1..], left)) + Fill(back, right);
      }
    }
  }

  /** Splits the fillers of `front + back` between the two halves. */
  lemma FillSplit(front: seq<string>, back: seq<string>, holes: seq<seq<string>>)
    requires |holes| == Stars(front + back)
    ensures Stars(front) + Stars(back) == |holes|
    ensures Fill(front + back, holes) == Fill(front, holes[..Stars(front)]) + Fill(back, holes[Stars(front)..])
  {
    StarsAppend(front, back);
    assert holes == holes[..Stars(front)] + holes[Stars(front)..];
    FillAppend(front, back, holes[..Stars(front)], holes[Stars(front)..]);
  }

  /** A star at the end of a pattern adds nothing: a covered path already covers its subtree. */
  lemma TrailingStarRedundant(pattern: seq<string>, candidate: seq<string>)
    ensures MatchParts(pattern + [STAR], candidate) <==> MatchParts(pattern, candidate)
  {
    var starred := pattern + [STAR];
    assert Stars([STAR]) == 1;
    if MatchParts(starred, candidate) {
      var holes := MatchIsCovered(starred, candidate);
      FillSplit(pattern, [STAR], holes);
      CoveredMatches(pattern, candidate, holes[..Stars(pattern)]);
    }
    if MatchParts(pattern, candidate) {
      var holes := MatchIsCovered(pattern, candidate);
      FillAppend(pattern, [STAR], holes, [[]]);
      assert Fill([STAR], [[]]) == [];
      CoveredMatches(starred, candidate, holes + [[]]);
    }
  }

  lemma MergeStars(back: seq<string>, right: seq<seq<string>>, merged: seq<seq<string>>)
    requires |right| == 2 + Stars(back)
    requires merged == [right[0] + right[1]] + right[2..]
    ensures Stars([STAR, STAR] + back) == |right| && Stars([STAR] + back) == |merged|
    ensures Fill([STAR, STAR] + back, right) == Fill([STAR] + back, merged)
  {
    var two, one := [STAR, STAR] + back, [STAR] + back;
    assert two[1..] == one && one[1..] == back;
    assert right[1..][1..] == right[2..] && merged[1..] == right[2..];
    assert Fill(two, right) == right[0] + (right[1] + Fill(back, right[2..]));
    assert Fill(one, merged) == (right[0] + right[1]) + Fill(back, right[2..]);
  }

  /** Two adjacent stars mean what one star means, anywhere in a pattern. */
  lemma AdjacentStarsCollapse(front: seq<string>, back: seq<string>, candidate: seq<string>)
    ensures MatchParts(front + ([STAR, STAR] + back), candidate) <==> MatchParts(front + ([STAR] + back), candidate)
  {
    var two, one := [STAR, STAR] + back, [STAR] + back;
    assert two[1..] == one && one[1..] == back;
    if MatchParts(front + two, candidate) {
      var holes := MatchIsCovered(front + two, candidate);
      FillSplit(front, two, holes);
      var left, right := holes[..Stars(front)], holes[Stars(front)..];
      var merged := [right[0] + right[1]] + right[2..];
      MergeStars(back, right, merged);
      FillAppend(front, one, left, merged);
      CoveredMatches(front + one, candidate, left + merged);
    }
    if MatchParts(front + one, candidate) {
      var holes := MatchIsCovered(front + one, candidate);
      FillSplit(front, one, holes);
      var left, right := holes[..Stars(front)], holes[Stars(front)..];
      var doubled := [right[0], []] + right[1..];
      assert doubled[2..] == right[1..] && right[0] + [] == right[0];
      assert right == [right[0]] + right[1..];
      MergeStars(back, doubled, right);
      FillAppend(front, two, left, doubled);
      CoveredMatches(front + two, candidate, left + doubled);
    }
  }

  // ----- The early exit of lines 136-137 -----

  /** The matcher without the early exit on an exhausted candidate. */
  predicate MatchUnpruned(pattern: seq<string>, candidate: seq<string>)
    decreases |pattern|
  {
    if pattern == [] then true
    else if pattern[0] == STAR then
      exists index :: 0 <= index <= |candidate| && MatchUnpruned(pattern[1..], candidate[index..])
    else candidate != [] && pattern[0] == candidate[0] && MatchUnpruned(pattern[1..], candidate[1..])
  }

  lemma {:induction false} UnprunedFailsOnLiteral(pattern: seq<string>, i: nat)
    requires i < |pattern| && pattern[i] != STAR
    ensures !MatchUnpruned(pattern, [])
  {
    if i > 0 {
      UnprunedFailsOnLiteral(pattern[1..], i - 1);
      var nothing: seq<string> := [];
      assert forall index :: 0 <= index <= 0 ==> nothing[index..] == nothing;
    }
  }

  /** The early exit only saves work: it never changes the answer. */
  lemma {:induction false} EarlyExitSound(pattern: seq<string>, candidate: seq<string>)
    ensures MatchParts(pattern, candidate) <==> MatchUnpruned(pattern, candidate)
    decreases |pattern|
  {
    if pattern == [] {
    } else if candidate == [] && (exists i :: 0 <= i < |pattern| && pattern[i] != STAR) {
      var i :| 0 <= i < |pattern| && pattern[i] != STAR;
      UnprunedFailsOnLiteral(pattern, i);
    } else if pattern[0] == STAR {
      forall index | 0 <= index <= |candidate|
        ensures MatchParts(pattern[1..], candidate[index..]) <==> MatchUnpruned(pattern[1..], candidate[index..])
      {
        EarlyExitSound(pattern[1..], candidate[index..]);
      }
    } else if candidate != [] {
      EarlyExitSound(pattern[1..], candidate[1..]);
    }
  }
}
