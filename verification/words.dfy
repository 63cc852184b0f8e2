/**
 JavaScript's `String.prototype.split` and `Array.prototype.join`, both with the
 one-space separator `" "` that the question layout uses, and the round trips
 between them.
 */
module Words {

  /** The separator: a single space character. */
  const Space: char := ' '

  /** The number of occurrences of `c` in `s`. */
  function Count(s: string, c: char): nat
  {
    if |s| == 0 then 0 else (if s[0] == c then 1 else 0) + Count(s[1..], c)
  }

  /** The sum of the lengths of `parts`. */
  function TotalLength(parts: seq<string>): nat
  {
    if |parts| == 0 then 0 else |parts[0]| + TotalLength(parts[1..])
  }

  /** `s.split(" ")`: the space-free runs of `s` between separators, including
      the empty runs before a leading space, after a trailing space and between
      two adjacent spaces; `"".split(" ")` is `[""]`. */
  function Split(s: string): (words: seq<string>)
    ensures |words| == Count(s, Space) + 1
    ensures forall i :: 0 <= i < |words| ==> Space !in words[i]
    decreases |s|
  {
    if |s| == 0 then [""]
    else
      var rest := Split(s[1..]);
      if s[0] == Space then [""] + rest
      else [[s[0]] + rest[0]] + rest[1..]
  }

  /** `parts.join(" ")`: the parts with one space between neighbours; `""` when
      there are no parts. */
  function Join(parts: seq<string>): (s: string)
    ensures |parts| == 0 ==> s == ""
    ensures |parts| > 0 ==> |s| == TotalLength(parts) + |parts| - 1
    ensures |parts| > 0 ==> parts[0] <= s
  {
    if |parts| == 0 then ""
    else if |parts| == 1 then parts[0]
    else parts[0] + [Space] + Join(parts[1..])
  }

  /** Joining is compatible with concatenation of non-empty part lists. */
  lemma {:induction false} JoinAppend(a: seq<string>, b: seq<string>)
    requires |a| > 0 && |b| > 0
    ensures Join(a + b) == Join(a) + [Space] + Join(b)
    decreases |a|
  {
    if |a| == 1 {
      assert (a + b)[1..] == b;
    } else {
      assert (a + b)[1..] == a[1..] + b;
      JoinAppend(a[1..], b);
    }
  }

  /** Prepending a character to the first part prepends it to the joined string. */
  lemma {:induction false} JoinPrependFirst(c: char, parts: seq<string>)
    requires |parts| > 0
    ensures Join([[c] + parts[0]] + parts[1..]) == [c] + Join(parts)
  {
    var ps := [[c] + parts[0]] + parts[1..];
    assert ps[1..] == parts[1..];
  }

  /** Split then join gives back the original string, whatever it contains. */
  lemma {:induction false} JoinSplit(s: string)
    ensures Join(Split(s)) == s
    decreases |s|
  {
    if |s| > 0 {
      var rest := Split(s[1..]);
      JoinSplit(s[1..]);
      if s[0] == Space {
        assert ([""] + rest)[1..] == rest;
        assert s == [Space] + s[1..];
      } else {
        JoinPrependFirst(s[0], rest);
        assert s == [s[0]] + s[1..];
      }
    }
  }

  /** Splitting a string that starts with a space-free word `w` puts `w` at the
      front of the first piece. */
  lemma {:induction false} SplitSpaceFreePrefix(w: string, t: string)
    requires Space !in w
    ensures Split(w + t) == [w + Split(t)[0]] + Split(t)[1..]
    decreases |w|
  {
    if |w| > 0 {
      assert (w + t)[1..] == w[1..] + t;
      assert w[0] != Space;
      SplitSpaceFreePrefix(w[1..], t);
      assert [w[0]] + (w[1..] + Split(t)[0]) == w + Split(t)[0];
    } else {
      var r := Split(t);
      assert w + t == t && w + r[0] == r[0];
      assert r == [r[0]] + r[1..];
    }
  }

  /** Join then split gives back a non-empty list of space-free words. */
  lemma {:induction false} SplitJoin(words: seq<string>)
    requires |words| > 0
    requires forall i :: 0 <= i < |words| ==> Space !in words[i]
    ensures Split(Join(words)) == words
    decreases |words|
  {
    var w := words[0];
    if |words| == 1 {
      SplitSpaceFreePrefix(w, "");
      assert w + "" == w;
    } else {
      var t := [Space] + Join(words[1..]);
      assert Join(words) == w + t;
      SplitJoin(words[1..]);
      assert t[1..] == Join(words[1..]);
      assert Split(t) == [""] + words[1..];
      SplitSpaceFreePrefix(w, t);
      assert w + "" == w;
      assert [w] + words[1..] == words;
    }
  }
}
