/** The two functions of Go's `strings` package the core relies on, on `seq<char>`. */
module GoStrings {

  /** `strings.Join(parts, string(sep))`. */
  function Join(parts: seq<string>, sep: char): string
  {
    if |parts| == 0 then []
    else if |parts| == 1 then parts[0]
    else parts[0] + [sep] + Join(parts[1..], sep)
  }

  /** `strings.Split(s, string(sep))`: the pieces between separators, never an empty list. */
  function Split(s: string, sep: char): (parts: seq<string>)
    ensures |parts| >= 1
    ensures forall i :: 0 <= i < |parts| ==> sep !in parts[i]
    ensures Join(parts, sep) == s
    decreases |s|
  {
    if s == [] then [[]]
    else
      var rest := Split(s[1..], sep);
      if s[0] == sep then
        assert [s[0]] + s[1..] == s;
        [[]] + rest
      else
        assert s == [s[0]] + Join(rest, sep);
        [[s[0]] + rest[0]] + rest[1..]
  }

  /** A string without separators splits into itself. */
  lemma SplitWithoutSeparator(s: string, sep: char)
    requires sep !in s
    ensures Split(s, sep) == [s]
  {
  }

  /** Splitting distributes over a separator: the pieces of `x + sep + y`
      are the pieces of `x` followed by the pieces of `y`. */
  lemma {:induction false} SplitAtSeparator(x: string, sep: char, y: string)
    ensures Split(x + [sep] + y, sep) == Split(x, sep) + Split(y, sep)
    decreases |x|
  {
    var s := x + [sep] + y;
    if x == [] {
      assert s[1..] == y;
    } else {
      assert s[1..] == x[1..] + [sep] + y;
      SplitAtSeparator(x[1..], sep, y);
    }
  }

  /** The last piece of a string that ends with `sep + y`, where `y` has no separator, is `y`. */
  lemma LastPieceAfterSeparator(x: string, sep: char, y: string)
    requires sep !in y
    ensures var parts := Split(x + [sep] + y, sep); parts[|parts| - 1] == y
  {
    SplitAtSeparator(x, sep, y);
    SplitWithoutSeparator(y, sep);
  }

  /** The position of the last `c` in `s`, or -1 when there is none. */
  function LastIndex(s: string, c: char): (i: int)
    ensures -1 <= i < |s|
    ensures i >= 0 ==> s[i] == c
    ensures forall j :: i < j < |s| ==> s[j] != c
  {
    if s == [] then -1
    else if s[|s| - 1] == c then |s| - 1
    else LastIndex(s[..|s| - 1], c)
  }

  /** In `x + c + y` with no `c` in `y`, the last `c` is the one after `x`. */
  lemma {:induction false} LastIndexAfter(x: string, c: char, y: string)
    requires c !in y
    ensures LastIndex(x + [c] + y, c) == |x|
    decreases |y|
  {
    var s := x + [c] + y;
    if y != [] {
      assert s[..|s| - 1] == x + [c] + y[..|y| - 1];
      LastIndexAfter(x, c, y[..|y| - 1]);
    }
  }

  /** The last piece of `Split(s, sep)` is what follows the last separator, or all of `s`
      when it has none. */
  lemma LastPieceIsSuffix(s: string, sep: char)
    ensures var parts := Split(s, sep); var i := LastIndex(s, sep);
      parts[|parts| - 1] == s[i + 1..]
  {
    // Without these steps the solver runs out of resource on this lemma.
    var i := LastIndex(s, sep);
    if i < 0 {
      assert s[i + 1..] == s;
      SplitWithoutSeparator(s, sep);
    } else {
      assert s == s[..i] + [sep] + s[i + 1..];
      LastPieceAfterSeparator(s[..i], sep, s[i + 1..]);
    }
  }

  /** `strings.SplitN(s, string(sep), 2)`: `[s]` when `sep` does not occur,
      otherwise the text before the FIRST `sep` and everything after it. */
  function SplitN2(s: string, sep: char): (parts: seq<string>)
    ensures 1 <= |parts| <= 2
    ensures |parts| == 1 <==> sep !in s
    ensures |parts| == 1 ==> parts[0] == s
    ensures |parts| == 2 ==> s == parts[0] + [sep] + parts[1] && sep !in parts[0]
    decreases |s|
  {
    if s == [] then [s]
    else if s[0] == sep then
      assert s == [] + [sep] + s[1..];
      [[], s[1..]]
    else
      var rest := SplitN2(s[1..], sep);
      if |rest| == 1 then [s]
      else
        assert s == [s[0]] + s[1..];
        assert s == ([s[0]] + rest[0]) + [sep] + rest[1];
        [[s[0]] + rest[0], rest[1]]
  }
}
