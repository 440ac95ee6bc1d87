/** Joining strings with a separator and splitting them again, as Go's
    `strings.Join` and JavaScript's `String.prototype.split` do for a
    one-character separator. URLs and query strings are built from these. */
module Text {

  /** `parts` glued together with `sep` between neighbours (no leading or
      trailing separator). */
  function Join(parts: seq<string>, sep: char): string
  {
    if |parts| == 0 then ""
    else if |parts| == 1 then parts[0]
    else parts[0] + [sep] + Join(parts[1..], sep)
  }

  /** The pieces of `s` between occurrences of `sep`; always at least one
      piece, and an empty string gives `[""]`. */
  function Split(s: string, sep: char): (parts: seq<string>)
    ensures |parts| >= 1
  {
    if s == [] then [""]
    else
      var rest := Split(s[1..], sep);
      if s[0] == sep then [""] + rest
      else [[s[0]] + rest[0]] + rest[1..]
  }

  /** A prefix free of the separator joins the first piece of what follows. */
  lemma {:induction false} SplitFreePrefix(x: string, rest: string, sep: char)
    requires sep !in x
    ensures Split(x + rest, sep) == [x + Split(rest, sep)[0]] + Split(rest, sep)[1..]
  {
    if x != [] {
      assert (x + rest)[1..] == x[1..] + rest;
      SplitFreePrefix(x[1..], rest, sep);
      assert [x[0]] + (x[1..] + Split(rest, sep)[0]) == x + Split(rest, sep)[0];
    } else {
      assert x + rest == rest;
      assert Split(rest, sep) == [Split(rest, sep)[0]] + Split(rest, sep)[1..];
      assert x + Split(rest, sep)[0] == Split(rest, sep)[0];
    }
  }

  /** Splitting undoes joining when no part contains the separator. */
  lemma {:induction false} SplitJoin(parts: seq<string>, sep: char)
    requires |parts| >= 1
    requires forall i :: 0 <= i < |parts| ==> sep !in parts[i]
    ensures Split(Join(parts, sep), sep) == parts
  {
    if |parts| == 1 {
      SplitFreePrefix(parts[0], "", sep);
      assert parts[0] + "" == parts[0];
    } else {
      var tail := Join(parts[1..], sep);
      SplitJoin(parts[1..], sep);
      assert Join(parts, sep) == parts[0] + ([sep] + tail);
      SplitFreePrefix(parts[0], [sep] + tail, sep);
      assert ([sep] + tail)[1..] == tail;
      assert Split([sep] + tail, sep) == [""] + parts[1..];
      assert parts[0] + "" == parts[0];
    }
  }

  /** In `x + [sep] + r` with `x` free of `sep`, the first separator stands
      right after `x`. */
  lemma FirstSeparator(x: string, r: string, sep: char)
    requires sep !in x
    ensures (x + [sep] + r)[|x|] == sep
    ensures forall i :: 0 <= i < |x| ==> (x + [sep] + r)[i] != sep
  {
    forall i | 0 <= i < |x| ensures (x + [sep] + r)[i] != sep {
      assert (x + [sep] + r)[i] == x[i];
    }
  }

  /** A separator-free head followed by the separator is a prefix code:
      equal strings of that shape have equal heads and equal tails. */
  lemma SplitAtSeparator(x: string, r: string, y: string, t: string, sep: char)
    requires sep !in x && sep !in y
    requires x + [sep] + r == y + [sep] + t
    ensures x == y && r == t
  {
    var s := x + [sep] + r;
    FirstSeparator(x, r, sep);
    FirstSeparator(y, t, sep);
    assert |x| == |y|;
    assert x == s[..|x|];
    assert y == (y + [sep] + t)[..|y|];
    assert r == s[|x| + 1..];
    assert t == (y + [sep] + t)[|y| + 1..];
  }
}
