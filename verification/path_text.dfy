/**
 Slash-separated text: splitting, joining and the POSIX normal form that the
 path policy compares and dispatches (ai_bridge/permissions.py:117-123).
 */
module PathText {

  predicate NoSlash(part: string) {
    '/' !in part
  }

  /** The parts of a text one character longer: it joins the first part or, as a slash, opens a new one. */
  function Prefixed(c: char, parts: seq<string>): seq<string>
    requires parts != []
  {
    if c == '/' then [""] + parts else [[c] + parts[0]] + parts[1..]
  }

  lemma PrefixedAppend(c: char, parts: seq<string>, more: seq<string>)
    requires parts != []
    ensures Prefixed(c, parts + more) == Prefixed(c, parts) + more
  {
    assert (parts + more)[0] == parts[0] && (parts + more)[1..] == parts[1..] + more;
  }

  /** `path.split("/")`: the parts between slashes, empty ones included. */
  function Split(path: string): (parts: seq<string>)
    ensures |parts| >= 1
    ensures forall i :: 0 <= i < |parts| ==> NoSlash(parts[i])
  {
    if path == "" then [""] else Prefixed(path[0], Split(path[1..]))
  }

  /** `"/".join(parts)`. */
  function Join(parts: seq<string>): string {
    if |parts| == 0 then ""
    else if |parts| == 1 then parts[0]
    else parts[0] + "/" + Join(parts[1..])
  }

  lemma {:induction false} SplitOnePart(part: string)
    requires NoSlash(part)
    ensures Split(part) == [part]
  {
    if part != "" {
      SplitOnePart(part[1..]);
      assert part == [part[0]] + part[1..];
    }
  }

  /** A slash between two texts separates their parts. */
  lemma {:induction false} SplitAtSlash(left: string, right: string)
    ensures Split(left + "/" + right) == Split(left) + Split(right)
  {
    var whole := left + "/" + right;
    if left == "" {
      assert whole[1..] == right;
    } else {
      SplitAtSlash(left[1..], right);
      assert whole[1..] == left[1..] + "/" + right;
      PrefixedAppend(left[0], Split(left[1..]), Split(right));
    }
  }

  lemma {:induction false} SplitJoin(parts: seq<string>)
    requires |parts| >= 1
    requires forall i :: 0 <= i < |parts| ==> NoSlash(parts[i])
    ensures Split(Join(parts)) == parts
  {
    SplitOnePart(parts[0]);
    if |parts| > 1 {
      SplitJoin(parts[1..]);
      SplitAtSlash(parts[0], Join(parts[1..]));
      assert [parts[0]] + parts[1..] == parts;
    }
  }

  lemma {:induction false} JoinAppend(front: seq<string>, back: seq<string>)
    requires front != [] && back != []
    ensures Join(front + back) == Join(front) + "/" + Join(back)
  {
    if |front| == 1 {
      assert (front + back)[1..] == back;
    } else {
      JoinAppend(front[1..], back);
      assert (front + back)[1..] == front[1..] + back;
    }
  }

  // ----- Normalisation -----

  /** A segment that names a directory: not empty, `.`, `..`, and free of slashes. */
  predicate Plain(segment: string) {
    segment != "" && segment != "." && segment != ".." && NoSlash(segment)
  }

  predicate AllPlain(segments: seq<string>) {
    forall i :: 0 <= i < |segments| ==> Plain(segments[i])
  }

  /** POSIX.1-2017 Base Definitions section 4.13: exactly two leading slashes stay two, more become one. */
  function LeadingSlashes(path: string): nat {
    if !("/" <= path) then 0
    else if "//" <= path && !("///" <= path) then 2
    else 1
  }

  function Slashes(count: nat): string {
    seq(count, _ => '/')
  }

  /** One turn of the `posixpath.normpath` loop. */
  function NormStep(slashes: nat, kept: seq<string>, part: string): seq<string> {
    if part == "" || part == "." then kept
    else if part != ".." || (slashes == 0 && kept == []) || (kept != [] && kept[|kept| - 1] == "..") then kept + [part]
    else if kept != [] then kept[..|kept| - 1]
    else kept
  }

  function NormFold(slashes: nat, kept: seq<string>, parts: seq<string>): seq<string>
    decreases |parts|
  {
    if parts == [] then kept
    else NormFold(slashes, NormStep(slashes, kept, parts[0]), parts[1..])
  }

  /** `posixpath.normpath`. */
  function Normpath(path: string): string {
    if path == "" then "."
    else
      var slashes := LeadingSlashes(path);
      var text := Slashes(slashes) + Join(NormFold(slashes, [], Split(path)));
      if text == "" then "." else text
  }

  /** The parts that survive when no `..` is present. */
  function Named(parts: seq<string>): (named: seq<string>)
    ensures forall i :: 0 <= i < |named| ==> named[i] in parts && named[i] != "" && named[i] != "."
    ensures |named| <= |parts|
  {
    if parts == [] then []
    else if parts[0] == "" || parts[0] == "." then Named(parts[1..])
    else [parts[0]] + Named(parts[1..])
  }

  lemma {:induction false} NormFoldWithoutDotDot(slashes: nat, kept: seq<string>, parts: seq<string>)
    requires ".." !in parts && ".." !in kept
    ensures NormFold(slashes, kept, parts) == kept + Named(parts)
    decreases |parts|
  {
    if parts == [] {
      assert kept + Named(parts) == kept;
    } else {
      assert parts[0] in parts;
      var rest := parts[1..];
      if parts[0] == "" || parts[0] == "." {
        NormFoldWithoutDotDot(slashes, kept, rest);
      } else {
        NormFoldWithoutDotDot(slashes, kept + [parts[0]], rest);
        assert kept + [parts[0]] + Named(rest) == kept + ([parts[0]] + Named(rest));
      }
    }
  }

  lemma {:induction false} NamedOfPlain(segments: seq<string>)
    requires AllPlain(segments)
    ensures Named(segments) == segments
  {
    if segments != [] {
      NamedOfPlain(segments[1..]);
      assert segments == [segments[0]] + segments[1..];
    }
  }

  /** The text of a normal form: one or two slashes, then plain segments. */
  function Render(slashes: nat, segments: seq<string>): string {
    Slashes(slashes) + Join(segments)
  }

  lemma NormpathWithoutDotDot(path: string)
    requires "/" <= path && ".." !in Split(path)
    ensures LeadingSlashes(path) in {1, 2}
    ensures Normpath(path) == Render(LeadingSlashes(path), Named(Split(path)))
    ensures AllPlain(Named(Split(path)))
  {
    NormFoldWithoutDotDot(LeadingSlashes(path), [], Split(path));
    assert [] + Named(Split(path)) == Named(Split(path));
    forall i | 0 <= i < |Named(Split(path))|
      ensures Plain(Named(Split(path))[i])
    {
      assert Named(Split(path))[i] in Split(path);
    }
  }

  // ----- Characters -----

  ghost predicate Occurs(c: char, parts: seq<string>) {
    exists i :: 0 <= i < |parts| && c in parts[i]
  }

  lemma OccursFirst(c: char, first: string, rest: seq<string>)
    ensures Occurs(c, [first] + rest) <==> c in first || Occurs(c, rest)
  {
    var parts := [first] + rest;
    assert parts[0] == first && parts[1..] == rest;
    assert forall i :: 0 <= i < |rest| ==> parts[i + 1] == rest[i];
  }

  /** Splitting keeps every character but the slashes. */
  lemma {:induction false} SplitKeeps(path: string, c: char)
    requires c != '/'
    ensures Occurs(c, Split(path)) <==> c in path
  {
    if path == "" {
    } else {
      var rest := Split(path[1..]);
      SplitKeeps(path[1..], c);
      assert path == [path[0]] + path[1..];
      OccursFirst(c, rest[0], rest[1..]);
      assert rest == [rest[0]] + rest[1..];
      OccursFirst(c, "", rest);
      OccursFirst(c, [path[0]] + rest[0], rest[1..]);
    }
  }

  /** The parts that name nothing hold no other character than a dot. */
  lemma {:induction false} NamedKeeps(parts: seq<string>, c: char)
    requires c != '.'
    ensures Occurs(c, Named(parts)) <==> Occurs(c, parts)
  {
    if parts == [] {
    } else {
      NamedKeeps(parts[1..], c);
      assert parts == [parts[0]] + parts[1..];
      OccursFirst(c, parts[0], parts[1..]);
      OccursFirst(c, parts[0], Named(parts[1..]));
    }
  }

  /** Joining adds only slashes. */
  lemma {:induction false} JoinKeeps(parts: seq<string>, c: char)
    requires c != '/'
    ensures c in Join(parts) <==> Occurs(c, parts)
  {
    if parts == [] {
    } else {
      JoinKeeps(parts[1..], c);
      assert parts == [parts[0]] + parts[1..];
      OccursFirst(c, parts[0], parts[1..]);
    }
  }

  /** What splitting a rendered normal form gives back: one empty part a slash, then the segments. */
  function RenderedParts(slashes: nat, segments: seq<string>): seq<string> {
    seq(slashes, _ => "") + if segments == [] then [""] else segments
  }

  lemma SplitSlash(rest: string)
    ensures Split("/" + rest) == [""] + Split(rest)
  {
    assert ("/" + rest)[1..] == rest;
  }

  lemma OneSlash(body: string)
    requires body != "" ==> body[0] != '/'
    ensures LeadingSlashes("/" + body) == 1
  {
    assert "/" <= "/" + body;
    assert body != "" ==> ("/" + body)[1] != "//"[1];
  }

  lemma TwoSlashes(body: string)
    requires body != "" ==> body[0] != '/'
    ensures LeadingSlashes("//" + body) == 2
  {
    assert "//" <= "//" + body;
    assert "/" <= "//" + body;
    assert body != "" ==> ("//" + body)[2] != "///"[2];
  }

  /** Joined plain segments start with the first one, so never with a slash, and never end with one. */
  lemma {:induction false} JoinStart(segments: seq<string>)
    requires AllPlain(segments) && segments != []
    ensures Join(segments) != "" && Join(segments)[0] != '/' && Join(segments)[|Join(segments)| - 1] != '/'
  {
    assert Plain(segments[0]);
    assert segments[0][0] in segments[0];
    assert segments[0][|segments[0]| - 1] in segments[0];
    if |segments| > 1 {
      JoinStart(segments[1..]);
    }
  }

  lemma SplitRender(slashes: nat, segments: seq<string>)
    requires slashes in {1, 2} && AllPlain(segments)
    ensures Split(Render(slashes, segments)) == RenderedParts(slashes, segments)
    ensures LeadingSlashes(Render(slashes, segments)) == slashes
  {
    var body := Join(segments);
    var tail := if segments == [] then [""] else segments;
    assert Split(body) == tail && (body != "" ==> body[0] != '/') by {
      if segments != [] {
        SplitJoin(segments);
        JoinStart(segments);
      }
    }
    SplitSlash(body);
    if slashes == 1 {
      assert Slashes(1) == "/";
      assert RenderedParts(1, segments) == [""] + tail;
      OneSlash(body);
    } else {
      assert Slashes(2) == "//" && "//" + body == "/" + ("/" + body);
      assert RenderedParts(2, segments) == [""] + ([""] + tail);
      SplitSlash("/" + body);
      TwoSlashes(body);
    }
  }

  lemma NamedRender(slashes: nat, segments: seq<string>)
    requires slashes in {1, 2} && AllPlain(segments)
    ensures Named(RenderedParts(slashes, segments)) == segments
    ensures ".." !in RenderedParts(slashes, segments)
  {
    NamedOfPlain(segments);
    var tail := if segments == [] then [""] else segments;
    assert Named([""]) == [];
    assert Named([""] + tail) == Named(tail) by {
      assert ([""] + tail)[1..] == tail;
    }
    if slashes == 1 {
      assert RenderedParts(1, segments) == [""] + tail;
    } else {
      assert RenderedParts(2, segments) == [""] + ([""] + tail);
      assert ([""] + ([""] + tail))[1..] == [""] + tail;
    }
  }

  /** A normal form is its own normal form. */
  lemma NormpathFixed(slashes: nat, segments: seq<string>)
    requires slashes in {1, 2} && AllPlain(segments)
    ensures Normpath(Render(slashes, segments)) == Render(slashes, segments)
    ensures ".." !in Split(Render(slashes, segments))
    ensures "/" <= Render(slashes, segments)
  {
    SplitRender(slashes, segments);
    NamedRender(slashes, segments);
    NormpathWithoutDotDot(Render(slashes, segments));
  }
}
