/** Folder paths as the server writes them: segments joined into one string
    with `/` by a template literal, and split back with `split("/")` before
    they are walked. */
module Paths {
  import opened Common

  /** `s.split("/")`: every `/` ends one segment and starts the next, so the
      result has one segment more than `s` has slashes, and empty segments
      are kept. */
  function Split(s: string): (segs: seq<string>)
    ensures |segs| == Occurrences('/', s) + 1
    ensures forall i :: 0 <= i < |segs| ==> '/' !in segs[i]
  {
    if s == [] then [""]
    else if s[0] == '/' then [""] + Split(s[1..])
    else
      var rest := Split(s[1..]);
      [[s[0]] + rest[0]] + rest[1..]
  }

  /** The template literal `${segs[0]}/${segs[1]}/...`. */
  function Join(segs: seq<string>): (s: string)
    requires |segs| >= 1
    ensures |s| >= |segs| - 1
  {
    if |segs| == 1 then segs[0] else segs[0] + "/" + Join(segs[1..])
  }

  /** Predicate: no segment contains the separator. */
  predicate SlashFree(segs: seq<string>)
  {
    forall i :: 0 <= i < |segs| ==> '/' !in segs[i]
  }

  lemma {:induction false} SplitSegment(a: string)
    requires '/' !in a
    ensures Split(a) == [a]
  {
    if a != [] {
      SplitSegment(a[1..]);
      HeadTail(a);
    }
  }

  lemma {:induction false} SplitAfterSegment(a: string, b: string)
    requires '/' !in a
    ensures Split(a + "/" + b) == [a] + Split(b)
  {
    var s := a + "/" + b;
    if a == [] {
      assert s == "/" + b;
      DropConcat("/", b);
    } else {
      ConcatAssoc(a, "/", b);
      DropConcat(a, "/" + b);
      ConcatAssoc(a[1..], "/", b);
      assert s[0] == a[0] && s[1..] == a[1..] + "/" + b;
      SplitAfterSegment(a[1..], b);
      HeadTail(a);
      DropConcat([a[1..]], Split(b));
    }
  }

  /** Splitting a joined path gives the segments back, provided no segment
      contains a `/` itself. */
  lemma {:induction false} SplitJoin(segs: seq<string>)
    requires |segs| >= 1 && SlashFree(segs)
    ensures Split(Join(segs)) == segs
  {
    if |segs| == 1 {
      SplitSegment(segs[0]);
    } else {
      SplitAfterSegment(segs[0], Join(segs[1..]));
      SplitJoin(segs[1..]);
      HeadTail(segs);
    }
  }

  /** Joining the pieces of any string restores the string. */
  lemma {:induction false} JoinSplit(s: string)
    ensures Join(Split(s)) == s
  {
    if s != [] {
      var rest := Split(s[1..]);
      JoinSplit(s[1..]);
      HeadTail(s);
      if s[0] == '/' {
        DropConcat([""], rest);
        assert Join(Split(s)) == "" + "/" + s[1..];
      } else {
        var segs := [[s[0]] + rest[0]] + rest[1..];
        DropConcat([[s[0]] + rest[0]], rest[1..]);
        if |rest| == 1 {
          assert Join(segs) == [s[0]] + rest[0];
        } else {
          ConcatAssoc([s[0]], rest[0], "/");
          ConcatAssoc([s[0]], rest[0] + "/", Join(rest[1..]));
          assert Join(segs) == [s[0]] + Join(rest);
        }
      }
    }
  }
}
