/** The canonical form of an API path, and what it says about the path: exactly its segments. */
module CanonicalPaths {

  /** One slash for every run of slashes. */
  function Collapsed(path: string): string {
    if path == "" then ""
    else if |path| > 1 && path[0] == '/' && path[1] == '/' then Collapsed(path[1..])
    else [path[0]] + Collapsed(path[1..])
  }

  /** Without slashes at the end. */
  function Stripped(path: string): string {
    if path != "" && path[|path| - 1] == '/' then Stripped(path[..|path| - 1]) else path
  }

  function NormalizePath(path: string): string {
    if path == "" then "/"
    else
      var collapsed := Collapsed(path);
      var stripped := if |collapsed| > 1 && collapsed[|collapsed| - 1] == '/' then Stripped(collapsed) else collapsed;
      if stripped == "" || stripped[0] != '/' then "/" + stripped else stripped
  }

  /** The stretches of a path between slashes. */
  function Segments(path: string): (segments: seq<string>)
    ensures forall s :: s in segments ==> s != "" && '/' !in s
    ensures path != "" && path[0] != '/' ==> segments != []
  {
    if path == "" then []
    else if path[0] == '/' then Segments(path[1..])
    else if |path| == 1 || path[1] == '/' then [[path[0]]] + Segments(path[1..])
    else
      var rest := Segments(path[1..]);
      assert rest[0] in rest;
      [[path[0]] + rest[0]] + rest[1..]
  }

  /** A slash before every segment. */
  function Joined(segments: seq<string>): string {
    if segments == [] then "" else "/" + segments[0] + Joined(segments[1..])
  }

  function Rendered(segments: seq<string>): string {
    if segments == [] then "/" else Joined(segments)
  }

  predicate NoDoubleSlash(path: string) {
    forall i :: 0 <= i < |path| - 1 ==> !(path[i] == '/' && path[i + 1] == '/')
  }

  predicate IsCanonical(path: string) {
    && path != "" && path[0] == '/' && NoDoubleSlash(path)
    && (path[|path| - 1] == '/' ==> path == "/")
  }

  // ---------------------------------------------------------------- the steps keep the segments

  lemma {:induction false} CollapsedHasNoDouble(path: string)
    ensures NoDoubleSlash(Collapsed(path))
    ensures path != "" ==> Collapsed(path) != "" && Collapsed(path)[0] == path[0]
  {
    if path != "" {
      CollapsedHasNoDouble(path[1..]);
    }
  }

  lemma {:induction false} CollapsedKeepsSegments(path: string)
    ensures Segments(Collapsed(path)) == Segments(path)
  {
    if path != "" {
      CollapsedKeepsSegments(path[1..]);
      CollapsedHasNoDouble(path[1..]);
      if !(|path| > 1 && path[0] == '/' && path[1] == '/') {
        assert Collapsed(path)[1..] == Collapsed(path[1..]);
      }
    }
  }

  lemma {:induction false} SlashEndsNoSegment(path: string)
    ensures Segments(path + "/") == Segments(path)
  {
    if path == "" {
      assert path + "/" == "/";
    } else {
      SlashEndsNoSegment(path[1..]);
      assert (path + "/")[1..] == path[1..] + "/";
    }
  }

  lemma {:induction false} StrippedKeepsSegments(path: string)
    ensures Segments(Stripped(path)) == Segments(path)
    ensures Stripped(path) <= path && (Stripped(path) != "" ==> Stripped(path)[|Stripped(path)| - 1] != '/')
    ensures path != "" && path[|path| - 1] != '/' ==> Stripped(path) == path
  {
    if path != "" && path[|path| - 1] == '/' {
      var shorter := path[..|path| - 1];
      StrippedKeepsSegments(shorter);
      SlashEndsNoSegment(shorter);
      assert shorter + "/" == path;
    }
  }

  /** What is neither doubled nor ended by a slash is read back from its segments. */
  lemma {:induction false} JoinedSegments(path: string)
    requires NoDoubleSlash(path) && (path != "" ==> path[|path| - 1] != '/')
    ensures Joined(Segments(path)) == if path == "" || path[0] == '/' then path else "/" + path
  {
    if path != "" {
      var rest := path[1..];
      JoinedSegments(rest);
      if path[0] == '/' {
        assert rest != "" && rest[0] != '/';
        assert "/" + rest == path;
      } else if |path| == 1 || path[1] == '/' {
        assert Segments(path)[1..] == Segments(rest);
        assert [path[0]] + rest == path;
      } else {
        JoinedGrows(path[0], Segments(rest), rest);
        assert [path[0]] + rest == path;
      }
    }
  }

  lemma JoinedGrows(c: char, words: seq<string>, rest: string)
    requires words != [] && Joined(words) == "/" + rest
    ensures Joined([[c] + words[0]] + words[1..]) == "/" + ([c] + rest)
  {
    var longer := [[c] + words[0]] + words[1..];
    assert longer[1..] == words[1..];
    FirstWordGrows(c, words[0], Joined(words[1..]), rest);
  }

  lemma FirstWordGrows(c: char, word: string, others: string, rest: string)
    requires "/" + word + others == "/" + rest
    ensures "/" + ([c] + word) + others == "/" + ([c] + rest)
  {
    assert ("/" + word + others)[1..] == word + others && ("/" + rest)[1..] == rest;
    assert "/" + ([c] + word) + others == "/" + ([c] + (word + others));
  }

  lemma CanonicalIsRendered(path: string)
    requires IsCanonical(path)
    ensures Rendered(Segments(path)) == path
  {
    if path == "/" {
      assert path[1..] == "";
    } else {
      JoinedSegments(path);
    }
  }

  lemma NormalizeIsCanonical(path: string)
    ensures IsCanonical(NormalizePath(path)) && Segments(NormalizePath(path)) == Segments(path)
  {
    if path == "" {
      assert "/"[1..] == "";
    } else {
      var collapsed := Collapsed(path);
      CollapsedHasNoDouble(path);
      CollapsedKeepsSegments(path);
      var stripped := if |collapsed| > 1 && collapsed[|collapsed| - 1] == '/' then Stripped(collapsed) else collapsed;
      StrippedKeepsSegments(collapsed);
      assert NoDoubleSlash(stripped) && Segments(stripped) == Segments(path);
      assert ("/" + stripped)[1..] == stripped;
    }
  }

  /** What segments are: those of two paths with a slash between them are those of the one and then those of the
      other; a text without slashes is one segment, unless it is empty. */
  lemma SegmentsAre(p: string, q: string)
    ensures Segments(p + "/" + q) == Segments(p) + Segments(q)
    ensures '/' !in p ==> Segments(p) == if p == "" then [] else [p]
  {
    SegmentsOfBoth(p, q);
    if '/' !in p && p != "" {
      OneSegment(p);
    }
  }

  lemma {:induction false} OneSegment(p: string)
    requires p != "" && '/' !in p
    ensures Segments(p) == [p]
  {
    if |p| == 1 {
      assert p[1..] == "" && p == [p[0]];
    } else {
      OneSegment(p[1..]);
      assert p == [p[0]] + p[1..];
    }
  }

  lemma {:induction false} SegmentsOfBoth(p: string, q: string)
    ensures Segments(p + "/" + q) == Segments(p) + Segments(q)
  {
    var both := p + "/" + q;
    if p == "" {
      assert both[1..] == q;
    } else {
      SegmentsOfBoth(p[1..], q);
      assert both[1..] == p[1..] + "/" + q;
      assert both[0] == p[0] && |both| > 1 && both[1] == if |p| == 1 then '/' else p[1];
      FirstOfBoth(Segments(p[1..]), Segments(q));
    }
  }

  lemma FirstOfBoth(xs: seq<string>, ys: seq<string>)
    ensures xs != [] ==> (xs + ys)[0] == xs[0] && (xs + ys)[1..] == xs[1..] + ys
  {}

  // ---------------------------------------------------------------- the canonical form

  /** Normalizing renders the segments of the path, and nothing else of it. */
  lemma NormalizeRendersSegments(path: string)
    ensures NormalizePath(path) == Rendered(Segments(path)) && IsCanonical(NormalizePath(path))
  {
    NormalizeIsCanonical(path);
    CanonicalIsRendered(NormalizePath(path));
  }

  /** Two paths have one canonical form exactly when they have the same segments. */
  lemma SameFormIffSameSegments(p: string, q: string)
    ensures NormalizePath(p) == NormalizePath(q) <==> Segments(p) == Segments(q)
  {
    NormalizeIsCanonical(p);
    NormalizeIsCanonical(q);
    NormalizeRendersSegments(p);
    NormalizeRendersSegments(q);
  }

  /** The canonical paths are exactly those that normalizing leaves as they are; so it is idempotent. */
  lemma CanonicalIffFixed(path: string)
    ensures IsCanonical(path) <==> NormalizePath(path) == path
    ensures NormalizePath(NormalizePath(path)) == NormalizePath(path)
  {
    var n := NormalizePath(path);
    NormalizeRendersSegments(path);
    NormalizeIsCanonical(path);
    NormalizeRendersSegments(n);
    if IsCanonical(path) {
      CanonicalIsRendered(path);
    }
  }
}
