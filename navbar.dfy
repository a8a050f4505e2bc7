/**
 * The navbar title: a breadcrumb built from the route path. Each non-empty path segment
 * becomes its dash-separated words with a capital first letter, joined by spaces, and the
 * segments are joined by " > "; the root path is the dashboard.
 */
module Navbar {
  import opened Lists
  import opened Text

  /** `word.charAt(0).toUpperCase() + word.slice(1)`. */
  function CapitalizeWord(w: string): (r: string)
    ensures |r| == |w|
    ensures w != [] ==> r[0] == UpperChar(w[0]) && r[1..] == w[1..]
  {
    if w == [] then [] else [UpperChar(w[0])] + w[1..]
  }

  /** The words of a segment: `segment.split("-")`, each capitalized. */
  function SegmentWords(segment: string): (r: seq<string>)
    ensures |r| == |Split(segment, '-')|
    ensures forall i :: 0 <= i < |r| ==> r[i] == CapitalizeWord(Split(segment, '-')[i])
  {
    var words := Split(segment, '-');
    seq(|words|, i requires 0 <= i < |words| => CapitalizeWord(words[i]))
  }

  /** One breadcrumb part: the capitalized words joined by single spaces. */
  function SegmentTitle(segment: string): string {
    Join(SegmentWords(segment), " ")
  }

  function IsNonEmpty(s: string): bool { s != [] }

  /** `pathname.split("/").filter(Boolean)`: the non-empty segments, in order. */
  function Segments(path: string): (r: seq<string>)
    ensures forall k :: 0 <= k < |r| ==> r[k] != [] && '/' !in r[k]
  {
    var parts := Split(path, '/');
    var r := Filter(parts, IsNonEmpty);
    assert forall k :: 0 <= k < |r| ==> r[k] in parts;
    r
  }

  /** `titleFromPath`. */
  function TitleFromPath(path: string): (r: string)
    ensures path == "/" ==> r == "Dashboard"
  {
    if path == "/" then "Dashboard"
    else
      var segs := Segments(path);
      Join(seq(|segs|, i requires 0 <= i < |segs| => SegmentTitle(segs[i])), " > ")
  }

  /** A slash between two pieces of path separates their segments and adds none of its own. */
  lemma SegmentsAroundSlash(a: string, b: string)
    ensures Segments(a + "/" + b) == Segments(a) + Segments(b)
  {
    SplitConcat(a, b, '/');
    FilterAppend(Split(a, '/'), Split(b, '/'), IsNonEmpty);
  }

  /** Leading, trailing and doubled slashes give no segments: they are dropped. */
  lemma EmptySegmentsDropped(a: string, b: string)
    ensures Segments("/" + a) == Segments(a)
    ensures Segments(a + "/") == Segments(a)
    ensures Segments(a + "//" + b) == Segments(a + "/" + b)
  {
    assert Segments([]) == [];
    SegmentsAroundSlash([], a);
    assert [] + "/" + a == "/" + a;
    SegmentsAroundSlash(a, []);
    assert a + "/" + [] == a + "/";
    SegmentsAroundSlash(a + "/", b);
    assert a + "/" + "/" + b == a + "//" + b;
    SegmentsAroundSlash(a, b);
  }

  /** A capitalized word keeps every character that the capitalization cannot produce or remove. */
  lemma CapitalizeAvoids(w: string, c: char)
    requires c !in w && !('A' <= c <= 'Z')
    ensures c !in CapitalizeWord(w)
  {
    if w != [] {
      assert w == [w[0]] + w[1..];
    }
  }

  /** A segment title has no character that is neither in the segment, a space nor a capital letter. */
  lemma SegmentTitleAvoids(segment: string, c: char)
    requires c !in segment && c != ' ' && !('A' <= c <= 'Z')
    ensures c !in SegmentTitle(segment)
  {
    var words := Split(segment, '-');
    var caps := SegmentWords(segment);
    SplitPieceChars(segment, '-', c);
    forall k | 0 <= k < |caps|
      ensures c !in caps[k]
    {
      CapitalizeAvoids(words[k], c);
    }
    JoinAvoids(caps, " ", c);
  }

  /**
   * Within a segment without spaces, splitting its title at the spaces gives back the
   * capitalized words: words are joined by exactly one space.
   */
  lemma SegmentTitleWords(segment: string)
    requires ' ' !in segment
    ensures Split(SegmentTitle(segment), ' ') == SegmentWords(segment)
  {
    var words := Split(segment, '-');
    var caps := SegmentWords(segment);
    SplitPieceChars(segment, '-', ' ');
    forall k | 0 <= k < |caps|
      ensures ' ' !in caps[k]
    {
      CapitalizeAvoids(words[k], ' ');
    }
    SplitJoin(caps, ' ');
  }

  /**
   * A path without '>' and with at least one segment gets one '>' per pair of neighbouring
   * segments: the number of separators is the number of segments minus one.
   */
  lemma SeparatorCount(path: string)
    requires path != "/" && '>' !in path && |Segments(path)| >= 1
    ensures CountChar(TitleFromPath(path), '>') == |Segments(path)| - 1
  {
    var parts := Split(path, '/');
    var segs := Segments(path);
    var titles := seq(|segs|, i requires 0 <= i < |segs| => SegmentTitle(segs[i]));
    SplitPieceChars(path, '/', '>');
    forall k | 0 <= k < |titles|
      ensures '>' !in titles[k]
    {
      assert segs[k] in parts;
      SegmentTitleAvoids(segs[k], '>');
    }
    assert CountChar(" > ", '>') == 1;
    JoinCountChar(titles, " > ", '>');
  }

  /** A segment without dashes is a single word: its title is the word capitalized. */
  lemma OneWordTitle(w: string)
    requires '-' !in w
    ensures SegmentTitle(w) == CapitalizeWord(w)
  {
    SplitNoSep(w, '-');
  }

  /** A segment with one dash is two words: its title is both capitalized, one space between. */
  lemma TwoWordTitle(a: string, b: string)
    requires '-' !in a && '-' !in b
    ensures SegmentTitle(a + "-" + b) == CapitalizeWord(a) + " " + CapitalizeWord(b)
  {
    SplitConcat(a, b, '-');
    SplitNoSep(a, '-');
    SplitNoSep(b, '-');
    var caps := [CapitalizeWord(a), CapitalizeWord(b)];
    assert SegmentWords(a + "-" + b) == caps;
    assert caps[1..] == [CapitalizeWord(b)];
    assert Join(caps[1..], " ") == CapitalizeWord(b);
    assert Join(caps, " ") == CapitalizeWord(a) + " " + CapitalizeWord(b);
  }

  /** A non-empty segment without slashes is its own only segment. */
  lemma OneSegment(s: string)
    requires s != [] && '/' !in s
    ensures Segments(s) == [s]
  {
    SplitNoSep(s, '/');
  }

  lemma TwoSegments(s1: string, s2: string)
    requires s1 != [] && s2 != [] && '/' !in s1 && '/' !in s2
    ensures Segments("/" + s1 + "/" + s2) == [s1, s2]
  {
    var path := "/" + s1 + "/" + s2;
    assert path == [] + "/" + (s1 + "/" + s2);
    SegmentsAroundSlash([], s1 + "/" + s2);
    SegmentsAroundSlash(s1, s2);
    OneSegment(s1);
    OneSegment(s2);
    assert Segments([]) == [];
  }

  /** A path of two non-empty segments is titled by the two segment titles around " > ". */
  lemma TwoSegmentTitle(s1: string, s2: string)
    requires s1 != [] && s2 != [] && '/' !in s1 && '/' !in s2
    ensures TitleFromPath("/" + s1 + "/" + s2) == SegmentTitle(s1) + " > " + SegmentTitle(s2)
  {
    var path := "/" + s1 + "/" + s2;
    TwoSegments(s1, s2);
    assert path != "/" by {
      assert |path| > 1;
    }
    var segs := Segments(path);
    var titles := [SegmentTitle(s1), SegmentTitle(s2)];
    assert seq(|segs|, i requires 0 <= i < |segs| => SegmentTitle(segs[i])) == titles;
    assert titles[1..] == [SegmentTitle(s2)];
    assert Join(titles[1..], " > ") == SegmentTitle(s2);
  }
}
