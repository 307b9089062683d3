/**
 Models of the two functions of Go's `strings` package that the execute
 action relies on: `strings.Split` with a one-character separator (used to
 pull an embedded port out of the host) and `strings.Join` (used to build the
 remote command text and the combined stdout/stderr text).
 */
module GoStrings {

  /** Position of the first occurrence of `c` in `s`. */
  function IndexOf(s: string, c: char): (i: nat)
    requires c in s
    ensures i < |s| && s[i] == c
    ensures c !in s[..i]
    decreases |s|
  {
    if s[0] == c then 0
    else
      assert s == [s[0]] + s[1..];
      var j := IndexOf(s[1..], c);
      assert s[..1 + j] == [s[0]] + s[1..][..j];
      1 + j
  }

  /** Any position that holds `c` with no earlier `c` is the first occurrence. */
  lemma IndexOfUnique(s: string, c: char, i: nat)
    requires i < |s| && s[i] == c && c !in s[..i]
    ensures IndexOf(s, c) == i
  {
  }

  /** Total length of the elements. */
  function TotalLength(elems: seq<string>): nat
    decreases |elems|
  {
    if |elems| == 0 then 0 else |elems[0]| + TotalLength(elems[1..])
  }

  /**
   `strings.Join`: the elements in order with `sep` between neighbours; the
   empty list joins to the empty string. The result starts with the first
   element, and besides the elements holds one separator per pair of
   neighbours; two elements join with exactly one separator between them.
   */
  function Join(elems: seq<string>, sep: string): (r: string)
    ensures |elems| == 0 ==> r == ""
    ensures |elems| == 2 ==> r == elems[0] + sep + elems[1]
    ensures |elems| >= 1 ==> |r| == TotalLength(elems) + (|elems| - 1) * |sep|
    ensures |elems| >= 1 ==> r[..|elems[0]|] == elems[0]
    decreases |elems|
  {
    if |elems| == 0 then ""
    else if |elems| == 1 then elems[0]
    else elems[0] + sep + Join(elems[1..], sep)
  }

  /** Joining two elements puts exactly one separator between them. */
  lemma JoinPair(a: string, b: string, sep: string)
    ensures Join([a, b], sep) == a + sep + b
  {
  }

  /**
   `f` is the separator-free field of `s` that starts at `start` and runs up to
   the next separator or the end of `s`.
   */
  ghost predicate FieldAt(s: string, sep: char, start: nat, f: string)
  {
    && start + |f| <= |s|
    && s[start..start + |f|] == f
    && sep !in f
    && (start + |f| == |s| || s[start + |f|] == sep)
  }

  /**
   `strings.Split(s, string(sep))`: the fields of `s` between separators. There
   is always at least one field, there is more than one exactly when `s`
   contains the separator, the first field is the text before the first
   separator, and joining the fields back gives `s`.
   */
  function Split(s: string, sep: char): (parts: seq<string>)
    ensures |parts| >= 1
    ensures |parts| > 1 <==> sep in s
    ensures FieldAt(s, sep, 0, parts[0])
    ensures forall k :: 0 <= k < |parts| ==> sep !in parts[k]
    ensures Join(parts, [sep]) == s
    decreases |s|
  {
    if sep !in s then
      assert s[0..|s|] == s;
      [s]
    else
      var i := IndexOf(s, sep);
      var rest := Split(s[i + 1..], sep);
      var parts := [s[..i]] + rest;
      assert parts[1..] == rest;
      assert s == s[..i] + [sep] + s[i + 1..];
      assert s[0..i] == s[..i];
      parts
  }

  /** One step of `Split`: the text before the first separator, then the fields of the rest. */
  lemma SplitUnfold(s: string, sep: char)
    requires sep in s
    ensures var i := IndexOf(s, sep);
            Split(s, sep) == [s[..i]] + Split(s[i + 1..], sep)
  {
  }

  /** When `s` contains the separator, the second field starts right after the first separator. */
  lemma SplitSecondField(s: string, sep: char)
    requires sep in s
    ensures var parts := Split(s, sep);
            && s[|parts[0]|] == sep
            && FieldAt(s, sep, |parts[0]| + 1, parts[1])
  {
    var i := IndexOf(s, sep);
    var rest := s[i + 1..];
    var tail := Split(rest, sep);
    SplitUnfold(s, sep);
    FieldAfterSeparator(s, sep, i, tail[0]);
  }

  /** A field of the text after position `i` is a field of `s` starting at `i + 1`. */
  lemma FieldAfterSeparator(s: string, sep: char, i: nat, f: string)
    requires i < |s|
    requires FieldAt(s[i + 1..], sep, 0, f)
    ensures FieldAt(s, sep, i + 1, f)
  {
  }

  /**
   The inverse direction of the round trip: splitting the join of
   separator-free fields gives those fields back.
   */
  lemma {:induction false} SplitOfJoin(parts: seq<string>, sep: char)
    requires |parts| >= 1
    requires forall k :: 0 <= k < |parts| ==> sep !in parts[k]
    ensures Split(Join(parts, [sep]), sep) == parts
    decreases |parts|
  {
    if |parts| == 1 {
      assert Join(parts, [sep]) == parts[0];
    } else {
      var rest := parts[1..];
      var tail := Join(rest, [sep]);
      var s := parts[0] + [sep] + tail;
      assert Join(parts, [sep]) == s;
      var i := |parts[0]|;
      FirstSeparatorAfterField(parts[0], sep, tail);
      SplitUnfold(s, sep);
      SplitOfJoin(rest, sep);
      assert parts == [parts[0]] + rest;
    }
  }

  /** In `a + [sep] + b` with `a` free of separators, the first separator is the one after `a`. */
  lemma FirstSeparatorAfterField(a: string, sep: char, b: string)
    requires sep !in a
    ensures var s := a + [sep] + b;
            && sep in s
            && IndexOf(s, sep) == |a|
            && s[..|a|] == a
            && s[|a| + 1..] == b
  {
    var s := a + [sep] + b;
    assert s[|a|] == sep;
    assert s[..|a|] == a;
    IndexOfUnique(s, sep, |a|);
  }
}
