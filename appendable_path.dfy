/** AppendablePath: a literal resource path (no predicates) for the
    administrative endpoints, grown in place one segment at a time. */
module AppendablePaths {

  predicate StartsWithSlash(s: string) {
    |s| > 0 && s[0] == '/'
  }

  /** "/" + s1 + "/" + s2 + ... + "/" + sn. */
  function Segments(segments: seq<string>): string {
    if segments == [] then "" else "/" + segments[0] + Segments(segments[1..])
  }

  /** The text of a literal path with the given first part and appended segments. */
  function LiteralText(root: string, segments: seq<string>): (s: string)
    ensures StartsWithSlash(s)
  {
    "/" + root + Segments(segments)
  }

  /** Appending a segment extends the text at its end and leaves the prefix alone. */
  lemma {:induction false} SegmentsAppend(segments: seq<string>, segment: string)
    ensures Segments(segments + [segment]) == Segments(segments) + "/" + segment
  {
    if segments != [] {
      assert (segments + [segment])[1..] == segments[1..] + [segment];
      SegmentsAppend(segments[1..], segment);
    }
  }

  lemma LiteralTextAppend(root: string, segments: seq<string>, segment: string)
    ensures LiteralText(root, segments + [segment]) == LiteralText(root, segments) + "/" + segment
  {
    SegmentsAppend(segments, segment);
  }

  class AppendablePath {
    /** The StringBuilder holding the text built so far. */
    var path: string
    /** The path given to the constructor and the segments appended since. */
    ghost var root: string
    ghost var segments: seq<string>

    ghost predicate Valid()
      reads this
    {
      !StartsWithSlash(root) && path == LiteralText(root, segments)
    }

    /** The constructor rejects a path that already starts with "/". */
    constructor (root: string)
      requires !StartsWithSlash(root)
      ensures Valid() && this.root == root && segments == []
      ensures path == "/" + root
    {
      path := "/" + root;
      this.root := root;
      segments := [];
    }

    /** appendSegment: appends "/" + segment to this very path and returns it. */
    method AppendSegment(segment: string) returns (self: AppendablePath)
      requires Valid()
      modifies this
      ensures self == this && Valid()
      ensures path == old(path) + "/" + segment
      ensures root == old(root) && segments == old(segments) + [segment]
    {
      LiteralTextAppend(root, segments, segment);
      path := path + "/" + segment;
      segments := segments + [segment];
      self := this;
    }

    /** print: the text built so far; it changes nothing. */
    method Print() returns (s: string)
      ensures s == path
      ensures Valid() ==> s == LiteralText(root, segments)
    {
      s := path;
    }
  }
}
