/** The pieces of Go's `strings` package that the scan planner relies on:
    `strings.Split` on a one-character separator, `strings.TrimSuffix`, and
    the comma list the `$IP` substitution builds with `+= v + ","`. */
module GoStrings {

  /** The parts joined by `sep`: the inverse of `Split`. */
  function Join(parts: seq<string>, sep: char): string
  {
    if |parts| == 0 then ""
    else if |parts| == 1 then parts[0]
    else parts[0] + [sep] + Join(parts[1..], sep)
  }

  /** `strings.Split(s, string(sep))`: the maximal runs between separators.
      Like Go, the empty string splits into one empty part and adjacent
      separators give empty parts. */
  function Split(s: string, sep: char): (parts: seq<string>)
    ensures |parts| >= 1
    ensures forall i :: 0 <= i < |parts| ==> sep !in parts[i]
    ensures Join(parts, sep) == s
    decreases |s|
  {
    if |s| == 0 then [""]
    else
      var rest := Split(s[1..], sep);
      if s[0] == sep then
        assert s == [sep] + s[1..];
        [""] + rest
      else
        var first := [s[0]] + rest[0];
        assert |rest| > 1 ==> Join(rest, sep) == rest[0] + [sep] + Join(rest[1..], sep);
        assert ([first] + rest[1..])[1..] == rest[1..];
        assert s == [s[0]] + s[1..];
        [first] + rest[1..]
  }

  /** `strings.TrimSuffix(s, suffix)`: drops one occurrence of `suffix` at
      the end of `s`, if it is there. */
  function TrimSuffix(s: string, suffix: string): (r: string)
    ensures |suffix| <= |s| && s[|s| - |suffix|..] == suffix ==> r + suffix == s
    ensures !(|suffix| <= |s| && s[|s| - |suffix|..] == suffix) ==> r == s
  {
    if |suffix| <= |s| && s[|s| - |suffix|..] == suffix then s[..|s| - |suffix|] else s
  }

  /** What `for _, v := range parts { acc += v + string(sep) }` leaves in
      `acc`, starting from the empty string: every part followed by `sep`. */
  function Terminated(parts: seq<string>, sep: char): string
  {
    if |parts| == 0 then "" else Terminated(parts[..|parts| - 1], sep) + parts[|parts| - 1] + [sep]
  }

  lemma {:induction false} JoinSnoc(parts: seq<string>, x: string, sep: char)
    requires |parts| >= 1
    ensures Join(parts + [x], sep) == Join(parts, sep) + [sep] + x
    decreases |parts|
  {
    if |parts| == 1 {
      assert parts + [x] == [parts[0], x];
      assert [parts[0], x][1..] == [x];
    } else {
      assert (parts + [x])[1..] == parts[1..] + [x];
      JoinSnoc(parts[1..], x, sep);
    }
  }

  /** Every part followed by the separator is the join with one separator more. */
  lemma {:induction false} TerminatedIsJoinThenSep(parts: seq<string>, sep: char)
    requires |parts| >= 1
    ensures Terminated(parts, sep) == Join(parts, sep) + [sep]
    decreases |parts|
  {
    var init := parts[..|parts| - 1];
    var last := parts[|parts| - 1];
    assert parts == init + [last];
    if |parts| == 1 {
      assert init == [];
    } else {
      TerminatedIsJoinThenSep(init, sep);
      JoinSnoc(init, last, sep);
    }
  }

  /** Trimming the trailing separator off the built-up list gives exactly the
      parts separated by single separators. */
  lemma TrimTerminated(parts: seq<string>, sep: char)
    requires |parts| >= 1
    ensures TrimSuffix(Terminated(parts, sep), [sep]) == Join(parts, sep)
  {
    TerminatedIsJoinThenSep(parts, sep);
    var t := Terminated(parts, sep);
    assert t[|t| - 1..] == [sep];
    assert t[..|t| - 1] == Join(parts, sep);
  }

  /** The join ends with the last part. */
  lemma {:induction false} JoinEndsWithLast(parts: seq<string>, sep: char)
    requires |parts| >= 1
    ensures var j := Join(parts, sep); var last := parts[|parts| - 1];
      |last| <= |j| && j[|j| - |last|..] == last
    decreases |parts|
  {
    if |parts| > 1 {
      JoinEndsWithLast(parts[1..], sep);
      var rest := Join(parts[1..], sep);
      var j := Join(parts, sep);
      var last := parts[|parts| - 1];
      assert j == parts[0] + [sep] + rest;
      assert j[|j| - |last|..] == rest[|rest| - |last|..];
    }
  }

  /** When the last part is non-empty and does not itself end with the
      separator, the join has no trailing separator. */
  lemma JoinNoTrailingSep(parts: seq<string>, sep: char)
    requires |parts| >= 1
    requires var last := parts[|parts| - 1]; |last| > 0 && last[|last| - 1] != sep
    ensures var j := Join(parts, sep); |j| > 0 && j[|j| - 1] != sep
  {
    JoinEndsWithLast(parts, sep);
    var j := Join(parts, sep);
    var last := parts[|parts| - 1];
    assert j[|j| - 1] == j[|j| - |last|..][|last| - 1];
  }

  lemma {:induction false} SplitWithoutSep(x: string, sep: char)
    requires sep !in x
    ensures Split(x, sep) == [x]
    decreases |x|
  {
    if |x| > 0 {
      SplitWithoutSep(x[1..], sep);
      assert [x[0]] + x[1..] == x;
    }
  }

  lemma {:induction false} SplitAtFirstSep(x: string, y: string, sep: char)
    requires sep !in x
    ensures Split(x + [sep] + y, sep) == [x] + Split(y, sep)
    decreases |x|
  {
    var s := x + [sep] + y;
    if |x| == 0 {
      assert s[1..] == y;
    } else {
      assert s[1..] == x[1..] + [sep] + y;
      SplitAtFirstSep(x[1..], y, sep);
      assert [x[0]] + x[1..] == x;
    }
  }

  /** Splitting a join gives back the parts, provided none of them contains
      the separator. */
  lemma {:induction false} SplitJoin(parts: seq<string>, sep: char)
    requires |parts| >= 1
    requires forall i :: 0 <= i < |parts| ==> sep !in parts[i]
    ensures Split(Join(parts, sep), sep) == parts
    decreases |parts|
  {
    if |parts| == 1 {
      SplitWithoutSep(parts[0], sep);
    } else {
      SplitJoin(parts[1..], sep);
      SplitAtFirstSep(parts[0], Join(parts[1..], sep), sep);
      assert [parts[0]] + parts[1..] == parts;
    }
  }
}
