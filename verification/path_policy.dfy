/**
 The lexical path policy (ai_bridge/permissions.py:38-123): which working directories a
 worker's write list admits, and the text that is dispatched for an admitted one.
 */
module PathPolicy {
  import opened Wrappers
  import opened PathText
  import opened PathMatcher

  /** `_safe_normalize`: None for a path that is not absolute or that has a `..` segment. */
  function SafeNormalize(path: string): Option<string> {
    if !("/" <= path) || ".." in Split(path) then None
    else Some(Normpath(path))
  }

  function NonEmpty(parts: seq<string>): seq<string> {
    if parts == [] then []
    else if parts[0] == "" then NonEmpty(parts[1..])
    else [parts[0]] + NonEmpty(parts[1..])
  }

  /** The non-empty parts of a path, as `_wildcard_prefix_matches` takes them. */
  function Segments(path: string): seq<string> {
    NonEmpty(Split(path))
  }

  function StripTrailingSlashes(path: string): string {
    if path != "" && path[|path| - 1] == '/' then StripTrailingSlashes(path[..|path| - 1])
    else path
  }

  predicate HasStar(path: string) {
    '*' in path
  }

  /** The string comparisons made for an allowed path without a star (lines 75-80). */
  predicate FastAllows(allowed: string, candidate: string) {
    allowed == "/" || candidate == allowed || StripTrailingSlashes(allowed) + "/" <= candidate
  }

  /** One turn of the loop over the allow list (lines 65-80), for a normalised candidate. */
  predicate EntryAllows(entry: string, candidate: string) {
    match SafeNormalize(entry)
    case None => false
    case Some(allowed) =>
      if HasStar(allowed) then MatchParts(Segments(allowed), Segments(candidate))
      else FastAllows(allowed, candidate)
  }

  /** `path_is_allowed` in lexical mode. */
  predicate PathIsAllowed(candidate: string, allowList: seq<string>) {
    match SafeNormalize(candidate)
    case None => false
    case Some(normalized) =>
      exists i :: 0 <= i < |allowList| && "/" <= allowList[i] && EntryAllows(allowList[i], normalized)
  }

  /** `_normalize_for_dispatch` in lexical mode. */
  function NormalizeForDispatch(path: string): string {
    match SafeNormalize(path)
    case None => path
    case Some(normalized) => Normpath(normalized)
  }

  /** A text that the normaliser leaves exactly as it is. */
  predicate Dispatchable(path: string) {
    SafeNormalize(path) == Some(path)
  }

  // ----- The normal form -----

  /** What a normalised path looks like; `slashes` and `segments` are its whole content. */
  predicate NormalForm(path: string, slashes: nat, segments: seq<string>) {
    slashes in {1, 2} && AllPlain(segments) && path == Render(slashes, segments)
  }

  /** The segments the normaliser keeps from a raw path. */
  function PathNames(path: string): seq<string> {
    Named(Split(path))
  }

  /** An absolute path that never goes up, whatever slashes and dots it has besides. */
  predicate Rooted(path: string) {
    "/" <= path && forall i :: 0 <= i < |Split(path)| ==> Split(path)[i] != ".."
  }

  /** Every such path has a normal form, and no other: its leading slashes and the segments that it names. */
  lemma SafeNormalizeForm(path: string)
    ensures SafeNormalize(path).Some? <==> Rooted(path)
    ensures Rooted(path) ==> NormalForm(SafeNormalize(path).value, LeadingSlashes(path), PathNames(path))
  {
    if Rooted(path) {
      NormpathWithoutDotDot(path);
    }
  }

  lemma {:induction false} NonEmptyOfPlain(parts: seq<string>)
    requires AllPlain(parts)
    ensures NonEmpty(parts) == parts
  {
    if parts != [] {
      NonEmptyOfPlain(parts[1..]);
      assert parts == [parts[0]] + parts[1..];
    }
  }

  lemma NonEmptyOfRendered(slashes: nat, segments: seq<string>)
    requires slashes in {1, 2} && AllPlain(segments)
    ensures NonEmpty(RenderedParts(slashes, segments)) == segments
  {
    NonEmptyOfPlain(segments);
    var tail := if segments == [] then [""] else segments;
    assert NonEmpty([""]) == [];
    assert ([""] + tail)[1..] == tail;
    if slashes == 1 {
      assert RenderedParts(1, segments) == [""] + tail;
    } else {
      assert RenderedParts(2, segments) == [""] + ([""] + tail);
      assert ([""] + ([""] + tail))[1..] == [""] + tail;
    }
  }

  /** A normal form is read back from its text: same slashes, same segments. */
  lemma NormalFormReadBack(path: string, slashes: nat, segments: seq<string>)
    requires NormalForm(path, slashes, segments)
    ensures Dispatchable(path)
    ensures LeadingSlashes(path) == slashes && PathNames(path) == segments && Segments(path) == segments
  {
    NormpathFixed(slashes, segments);
    SplitRender(slashes, segments);
    NamedRender(slashes, segments);
    NonEmptyOfRendered(slashes, segments);
  }

  /**
   The dispatched working directory is absolute, has no `..`, `.` or empty segment between
   slashes, and is a fixed point of the normaliser.
   */
  lemma DispatchedFormIsNormal(path: string)
    requires Rooted(path)
    ensures SafeNormalize(path) == Some(NormalizeForDispatch(path))
    ensures NormalForm(NormalizeForDispatch(path), LeadingSlashes(path), PathNames(path))
    ensures Dispatchable(NormalizeForDispatch(path))
  {
    SafeNormalizeForm(path);
    NormalFormReadBack(SafeNormalize(path).value, LeadingSlashes(path), PathNames(path));
  }

  /** Exactly the normal forms are dispatchable. */
  lemma DispatchableIffNormalForm(path: string)
    ensures Dispatchable(path) <==> exists slashes, segments :: NormalForm(path, slashes, segments)
  {
    if Dispatchable(path) {
      SafeNormalizeForm(path);
    }
    forall slashes, segments | NormalForm(path, slashes, segments)
      ensures Dispatchable(path)
    {
      NormalFormReadBack(path, slashes, segments);
    }
  }

  /** Validated path and sent path agree: sending the normal form through the policy again gives the same verdict. */
  lemma SentPathPassesAgain(path: string, allowList: seq<string>)
    ensures PathIsAllowed(NormalizeForDispatch(path), allowList) <==> PathIsAllowed(path, allowList)
  {
    SafeNormalizeForm(path);
    if Rooted(path) {
      DispatchedFormIsNormal(path);
    }
  }

  // ----- The string fast path is the segment-prefix test -----

  /** Segment prefix under the same leading slashes; an allow-listed root admits everything. */
  predicate SegmentPrefix(allowed: string, candidate: string) {
    PathNames(allowed) == []
    || (LeadingSlashes(allowed) == LeadingSlashes(candidate) && PathNames(allowed) <= PathNames(candidate))
  }

  lemma StripRender(slashes: nat, segments: seq<string>)
    requires slashes in {1, 2} && AllPlain(segments)
    ensures StripTrailingSlashes(Render(slashes, segments)) == if segments == [] then "" else Render(slashes, segments)
  {
    if segments == [] {
      assert Render(1, []) == "/" && Render(2, []) == "//";
      assert "//"[..1] == "/" && "/"[..0] == "";
    } else {
      JoinStart(segments);
    }
  }

  lemma PrefixToStrings(allowed: string, candidate: string, k: nat, front: seq<string>, whole: seq<string>)
    requires NormalForm(allowed, k, front) && NormalForm(candidate, k, whole)
    requires front != [] && front <= whole
    ensures FastAllows(allowed, candidate)
  {
    StripRender(k, front);
    if front != whole {
      var back := whole[|front|..];
      assert whole == front + back;
      JoinAppend(front, back);
      assert candidate == (allowed + "/") + Join(back);
    }
  }

  lemma RenderedPrefix(ka: nat, front: seq<string>, kc: nat, whole: seq<string>, rest: seq<string>)
    requires ka in {1, 2} && kc in {1, 2} && AllPlain(front) && AllPlain(whole) && front != [] && rest != []
    requires RenderedParts(kc, whole) == RenderedParts(ka, front) + rest
    ensures ka == kc && front <= whole
  {
    var left, right := RenderedParts(ka, front) + rest, RenderedParts(kc, whole);
    assert left[ka] == front[0] && Plain(front[0]);
    assert whole != [] ==> right[kc] == whole[0] && Plain(whole[0]);
    assert left[1] == "" <==> ka == 2;
    assert whole != [];
    assert left[ka..] == front + rest;
    assert right[kc..] == whole;
  }

  lemma StringsToPrefix(allowed: string, candidate: string, ka: nat, front: seq<string>, kc: nat, whole: seq<string>)
    requires NormalForm(allowed, ka, front) && NormalForm(candidate, kc, whole)
    requires front != [] && allowed + "/" <= candidate
    ensures ka == kc && front <= whole
  {
    var rest := candidate[|allowed| + 1..];
    assert candidate == allowed + "/" + rest;
    SplitAtSlash(allowed, rest);
    SplitRender(ka, front);
    SplitRender(kc, whole);
    RenderedPrefix(ka, front, kc, whole, Split(rest));
  }

  lemma RootHasNoNames()
    ensures PathNames("/") == []
  {
    assert "/"[1..] == "";
    assert Split("/") == [""] + [""];
    assert Named([""]) == [];
    assert ([""] + [""])[1..] == [""];
  }

  /** For normalised, star-free allowed paths the string comparisons are exactly the segment-prefix test. */
  lemma FastPathIsSegmentPrefix(allowed: string, candidate: string)
    requires Dispatchable(allowed) && Dispatchable(candidate)
    ensures FastAllows(allowed, candidate) <==> SegmentPrefix(allowed, candidate)
  {
    SafeNormalizeForm(allowed);
    SafeNormalizeForm(candidate);
    var ka, front := LeadingSlashes(allowed), PathNames(allowed);
    var kc, whole := LeadingSlashes(candidate), PathNames(candidate);
    StripRender(ka, front);
    if front == [] {
      assert "/" <= candidate;
    } else {
      RootHasNoNames();
      if ka == kc && front <= whole {
        PrefixToStrings(allowed, candidate, ka, front, whole);
      }
      if allowed + "/" <= candidate {
        StringsToPrefix(allowed, candidate, ka, front, kc, whole);
      }
    }
  }

  // ----- The meaning of the whole policy -----

  /** Normalising neither adds nor drops a star. */
  lemma StarKept(path: string)
    requires Rooted(path)
    ensures '*' in NormalizeForDispatch(path) <==> '*' in path
  {
    DispatchedFormIsNormal(path);
    SplitKeeps(path, '*');
    NamedKeeps(Split(path), '*');
    JoinKeeps(PathNames(path), '*');
  }

  /** An allow-list entry, read by segments: the matcher's covering when a star is present, segment prefix otherwise. */
  ghost predicate EntryCovers(entry: string, candidate: string) {
    Rooted(entry)
    && if '*' in entry then Covers(PathNames(entry), PathNames(candidate)) else SegmentPrefix(entry, candidate)
  }

  lemma EntryMeaning(entry: string, candidate: string)
    requires Rooted(candidate)
    ensures SafeNormalize(candidate).Some?
    ensures EntryAllows(entry, SafeNormalize(candidate).value) <==> EntryCovers(entry, candidate)
  {
    SafeNormalizeForm(entry);
    SafeNormalizeForm(candidate);
    if Rooted(entry) {
      var allowed, normalized := SafeNormalize(entry).value, SafeNormalize(candidate).value;
      DispatchedFormIsNormal(entry);
      StarKept(entry);
      NormalFormReadBack(allowed, LeadingSlashes(entry), PathNames(entry));
      NormalFormReadBack(normalized, LeadingSlashes(candidate), PathNames(candidate));
      MatchDecidesCovers(PathNames(entry), PathNames(candidate));
      FastPathIsSegmentPrefix(allowed, normalized);
    }
  }

  /**
   `path_is_allowed` decides, for every candidate and allow list, whether some entry covers the candidate's segments.
   */
  lemma PolicyMeaning(candidate: string, allowList: seq<string>)
    ensures PathIsAllowed(candidate, allowList)
      <==> Rooted(candidate) && exists i :: 0 <= i < |allowList| && EntryCovers(allowList[i], candidate)
  {
    SafeNormalizeForm(candidate);
    if Rooted(candidate) {
      forall i | 0 <= i < |allowList|
        ensures ("/" <= allowList[i] && EntryAllows(allowList[i], SafeNormalize(candidate).value))
          <==> EntryCovers(allowList[i], candidate)
      {
        EntryMeaning(allowList[i], candidate);
      }
    }
  }

  lemma PrefixRest(front: seq<string>, whole: seq<string>)
    requires front <= whole
    ensures whole == front + whole[|front|..]
  {
  }

  /** What an entry admits, it admits with its whole subtree. */
  lemma AllowedSubtree(candidate: string, deeper: string, allowList: seq<string>)
    requires PathIsAllowed(candidate, allowList)
    requires Rooted(deeper)
    requires LeadingSlashes(candidate) == LeadingSlashes(deeper) && PathNames(candidate) <= PathNames(deeper)
    ensures PathIsAllowed(deeper, allowList)
  {
    PolicyMeaning(candidate, allowList);
    PolicyMeaning(deeper, allowList);
    var i :| 0 <= i < |allowList| && EntryCovers(allowList[i], candidate);
    var names := PathNames(candidate);
    PrefixRest(names, PathNames(deeper));
    if '*' in allowList[i] {
      MatchDecidesCovers(PathNames(allowList[i]), names);
      MatchClosedUnderExtension(PathNames(allowList[i]), names, PathNames(deeper)[|names|..]);
      MatchDecidesCovers(PathNames(allowList[i]), PathNames(deeper));
    }
    assert EntryCovers(allowList[i], deeper);
  }

  // ----- Resolving a submission's directory -----

  /** What reading the prompt's frontmatter yields; the YAML reader itself is not part of this model. */
  datatype Frontmatter = Absent | Malformed(shown: string) | Declared(path: string)

  datatype DirectoryError = MissingDirectory | InvalidDirectory(path: string, allowList: seq<string>)

  /** `resolve_working_directory` in lexical mode. */
  function ResolveDirectory(front: Frontmatter, writePaths: seq<string>): (r: Result<string, DirectoryError>)
    ensures r.Ok? <==> front.Declared? && PathIsAllowed(front.path, writePaths)
    ensures r.Ok? ==> r.value == NormalizeForDispatch(front.path)
    ensures r == Err(MissingDirectory) <==> front.Absent?
    ensures r.Err? && front.Declared? ==> r.error == InvalidDirectory(front.path, writePaths)
  {
    match front
    case Absent => Err(MissingDirectory)
    case Malformed(shown) => Err(InvalidDirectory(shown, []))
    case Declared(path) =>
      if PathIsAllowed(path, writePaths) then Ok(NormalizeForDispatch(path))
      else Err(InvalidDirectory(path, writePaths))
  }

  /**
   Whatever directory is resolved is the normal form of the declared one: the same segments, in dispatch form, and it
   passes the same write list again.
   */
  lemma ResolvedIsDispatchable(front: Frontmatter, writePaths: seq<string>)
    requires ResolveDirectory(front, writePaths).Ok?
    ensures front.Declared? && Rooted(front.path)
    ensures var directory := ResolveDirectory(front, writePaths).value;
      && Dispatchable(directory) && PathIsAllowed(directory, writePaths)
      && NormalForm(directory, LeadingSlashes(front.path), PathNames(front.path))
  {
    SafeNormalizeForm(front.path);
    DispatchedFormIsNormal(front.path);
    SentPathPassesAgain(front.path, writePaths);
  }
}
