/**
 The `FlowQuestion` component's logic: the question prompt is laid out three
 words per line, and a Yes and a No button are shown, each emitting the id of
 the node it leads to.
 */
module FlowQuestion {
  import opened Wrappers
  import opened Words

  function Min(a: int, b: int): int
  {
    if a <= b then a else b
  }

  /** The concatenation of all groups, in order. */
  function Flatten<T>(groups: seq<seq<T>>): seq<T>
  {
    if |groups| == 0 then [] else groups[0] + Flatten(groups[1..])
  }

  /** Consecutive groups of three elements; the last group may be shorter. */
  function Chunk<T>(xs: seq<T>): (groups: seq<seq<T>>)
    ensures |groups| == (|xs| + 2) / 3
    decreases |xs|
  {
    if |xs| == 0 then []
    else
      var n := Min(3, |xs|);
      [xs[..n]] + Chunk(xs[n..])
  }

  /** Concatenating the groups gives back the elements, in order. */
  lemma {:induction false} ChunkFlatten<T>(xs: seq<T>)
    ensures Flatten(Chunk(xs)) == xs
    decreases |xs|
  {
    if |xs| > 0 {
      var n := Min(3, |xs|);
      var groups := Chunk(xs);
      assert groups == [xs[..n]] + Chunk(xs[n..]);
      assert groups[1..] == Chunk(xs[n..]);
      ChunkFlatten(xs[n..]);
      assert xs == xs[..n] + xs[n..];
    }
  }

  /** The k-th group is the slice the layout loop takes in its k-th round: the
      elements from `3 * k` up to `3 * k + 3`, the end clamped to the length. */
  lemma {:induction false} ChunkSlices<T>(xs: seq<T>, k: nat)
    requires k < |Chunk(xs)|
    ensures Chunk(xs)[k] == xs[3 * k .. Min(3 * k + 3, |xs|)]
    decreases k
  {
    var n := Min(3, |xs|);
    var rest := Chunk(xs[n..]);
    assert Chunk(xs) == [xs[..n]] + rest;
    if k > 0 {
      assert Chunk(xs)[k] == rest[k - 1];
      ChunkSlices(xs[n..], k - 1);
      assert |xs| >= 3 && n == 3;
      var ys := xs[3..];
      assert rest[k - 1] == ys[3 * (k - 1) .. Min(3 * (k - 1) + 3, |ys|)];
      assert 3 * (k - 1) + 3 == 3 * k;
      SliceOfSuffix(xs, 3, 3 * k - 3, Min(3 * k, |ys|));
    }
  }

  /** Every group holds one to three elements, and all but the last exactly three. */
  lemma ChunkSizes<T>(xs: seq<T>, k: nat)
    requires k < |Chunk(xs)|
    ensures 1 <= |Chunk(xs)[k]| <= 3
    ensures k < |Chunk(xs)| - 1 ==> |Chunk(xs)[k]| == 3
  {
    ChunkSlices(xs, k);
  }

  lemma SliceOfSuffix<T>(xs: seq<T>, n: nat, lo: nat, hi: nat)
    requires n <= |xs| && lo <= hi <= |xs| - n
    ensures xs[n..][lo..hi] == xs[n + lo .. n + hi]
  {
  }

  /** The lines the prompt is drawn on: `question.split(" ")` cut into groups of
      three words, each group joined with `" "`. */
  function Lines(question: string): seq<string>
  {
    var groups := Chunk(Split(question));
    seq(|groups|, k requires 0 <= k < |groups| => Join(groups[k]))
  }

  /** There are ceil(n / 3) lines for n words, and at least one; every line
      holds between one and three words, and every line but the last exactly three. */
  lemma LinesShape(question: string)
    ensures |Lines(question)| == (|Split(question)| + 2) / 3
    ensures |Lines(question)| >= 1
    ensures forall k :: 0 <= k < |Lines(question)| ==> 1 <= |Split(Lines(question)[k])| <= 3
    ensures forall k :: 0 <= k < |Lines(question)| - 1 ==> |Split(Lines(question)[k])| == 3
  {
    var words := Split(question);
    var groups := Chunk(words);
    forall k | 0 <= k < |groups|
      ensures Split(Lines(question)[k]) == groups[k]
      ensures 1 <= |groups[k]| <= 3
      ensures k < |groups| - 1 ==> |groups[k]| == 3
    {
      GroupResplits(words, k);
      ChunkSizes(words, k);
    }
  }

  /** A group of space-free words splits back into the same words once joined. */
  lemma GroupResplits(words: seq<string>, k: nat)
    requires forall i :: 0 <= i < |words| ==> Space !in words[i]
    requires k < |Chunk(words)|
    ensures Split(Join(Chunk(words)[k])) == Chunk(words)[k]
  {
    var g := Chunk(words)[k];
    ChunkSlices(words, k);
    forall i | 0 <= i < |g|
      ensures Space !in g[i]
    {
      assert g[i] == words[3 * k + i];
    }
    SplitJoin(g);
  }

  /** Joining the lines of each group, then joining those with a space, is the
      same as joining all the words. */
  lemma {:induction false} JoinChunks(words: seq<string>)
    requires |words| > 0
    ensures var groups := Chunk(words);
            Join(seq(|groups|, k requires 0 <= k < |groups| => Join(groups[k]))) == Join(words)
    decreases |words|
  {
    var groups := Chunk(words);
    var lines := seq(|groups|, k requires 0 <= k < |groups| => Join(groups[k]));
    var n := Min(3, |words|);
    assert groups == [words[..n]] + Chunk(words[n..]);
    if n < |words| {
      var rest := Chunk(words[n..]);
      var restLines := seq(|rest|, k requires 0 <= k < |rest| => Join(rest[k]));
      JoinChunks(words[n..]);
      assert lines[1..] == restLines;
      assert Join(lines) == Join(words[..n]) + [Space] + Join(restLines);
      JoinAppend(words[..n], words[n..]);
      assert words[..n] + words[n..] == words;
    } else {
      assert words[..n] == words;
      assert lines == [Join(words)];
    }
  }

  /** Joining the lines with `" "` gives back the prompt exactly. */
  lemma LinesRoundTrip(question: string)
    ensures Join(Lines(question)) == question
  {
    JoinChunks(Split(question));
    JoinSplit(question);
  }

  /** Splitting every line into words again and concatenating them gives the
      prompt's words, in order. */
  lemma LinesResplit(question: string)
    ensures var lines := Lines(question);
            Flatten(seq(|lines|, k requires 0 <= k < |lines| => Split(lines[k]))) == Split(question)
  {
    var words := Split(question);
    var groups := Chunk(words);
    var lines := Lines(question);
    var resplit := seq(|lines|, k requires 0 <= k < |lines| => Split(lines[k]));
    forall k | 0 <= k < |groups|
      ensures resplit[k] == groups[k]
    {
      GroupResplits(words, k);
    }
    assert resplit == groups;
    ChunkFlatten(words);
  }

  /** Lines built as the clamped three-word slices of the prompt's words, one
      per group, are the prompt's `Lines`. */
  lemma SlicedLinesAreLines(question: string, lines: seq<string>)
    requires |lines| == |Chunk(Split(question))|
    requires forall k :: 0 <= k < |lines| ==> lines[k] == Join(Split(question)[3 * k .. Min(3 * k + 3, |Split(question)|)])
    ensures lines == Lines(question)
  {
    forall k | 0 <= k < |lines|
      ensures lines[k] == Lines(question)[k]
    {
      ChunkSlices(Split(question), k);
    }
  }

  /** The component's layout loop: from index 0 in steps of three, each round
      joins the next (at most) three words into one line. */
  method LayoutLines(question: string) returns (lines: seq<string>)
    ensures Join(lines) == question
    ensures lines == Lines(question)
  {
    var words := Split(question);
    lines := [];
    var i := 0;
    while i < |words|
      invariant i == 3 * |lines|
      invariant i <= |words| + 2
      invariant forall k :: 0 <= k < |lines| ==> lines[k] == Join(words[3 * k .. Min(3 * k + 3, |words|)])
    {
      lines := lines + [Join(words[i .. Min(i + 3, |words|)])];
      i := i + 3;
    }
    SlicedLinesAreLines(question, lines);
    LinesRoundTrip(question);
  }

  /** JavaScript truthiness of an optional string: defined and not `""`. */
  predicate Truthy(v: Option<string>)
  {
    v.Some? && v.value != ""
  }

  /** JavaScript's `a || b`: the first operand when it is truthy, else the second. */
  function Or(a: Option<string>, b: Option<string>): Option<string>
  {
    if Truthy(a) then a else b
  }

  /** One answer button: it is rendered only when the question target or the
      answer fallback is truthy, and a click hands the first truthy one of the
      two (or `""`) to `onAnswer`. `None` when no button is shown, otherwise
      the id the button emits. */
  function Button(primary: Option<string>, fallback: Option<string>): (target: Option<string>)
    ensures target.Some? <==> Truthy(primary) || Truthy(fallback)
    ensures Truthy(primary) ==> target == primary
    ensures !Truthy(primary) && Truthy(fallback) ==> target == fallback
    ensures target.Some? ==> target.value != ""
  {
    if Truthy(Or(primary, fallback)) then Some(Or(Or(primary, fallback), Some("")).value) else None
  }

  /** The Yes and No buttons of one question. */
  datatype Buttons = Buttons(yes: Option<string>, no: Option<string>)

  function QuestionButtons(yesQuestion: Option<string>, noQuestion: Option<string>,
                           yesAnswer: Option<string>, noAnswer: Option<string>): Buttons
  {
    Buttons(Button(yesQuestion, yesAnswer), Button(noQuestion, noAnswer))
  }

  /** With no truthy target at all, neither button is rendered, so `onAnswer`
      cannot be called. The page draws its buttons with this function
      (`DecisionGraph.ButtonsOf`); `DecisionGraph.QuestionWithoutPropsHasNoButtons`
      is the same fact stated about the page. */
  lemma NoTargetNoButtons(yesQuestion: Option<string>, noQuestion: Option<string>,
                          yesAnswer: Option<string>, noAnswer: Option<string>)
    requires !Truthy(yesQuestion) && !Truthy(yesAnswer)
    requires !Truthy(noQuestion) && !Truthy(noAnswer)
    ensures QuestionButtons(yesQuestion, noQuestion, yesAnswer, noAnswer) == Buttons(None, None)
  {
  }
}
