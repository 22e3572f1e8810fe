/**
 * Assembly of the final prompt from the formatted template and the examples
 * the similarity search returned: with no examples the prompt is sent as it
 * is; otherwise a fixed header and the examples' contents, joined by newlines
 * in retrieval order, are appended.
 */
module PromptAssembly {
  import opened Wrappers

  /** The text placed between the prompt and the examples. */
  const ExamplesHeader: string := "\n\nSimilar verification examples:\n"

  /** The separator the examples' contents are joined with. */
  const Newline: char := '\n'

  /** A retrieved row; `None` stands for a `null` or missing content. */
  datatype Example = Example(content: Option<string>)

  /** `Array.prototype.join` writes `null` and `undefined` as the empty string. */
  function ContentText(e: Example): string
  {
    if e.content.Some? then e.content.value else ""
  }

  function Contents(examples: seq<Example>): (r: seq<string>)
    ensures |r| == |examples| && forall i :: 0 <= i < |examples| ==> r[i] == ContentText(examples[i])
  {
    seq(|examples|, i requires 0 <= i < |examples| => ContentText(examples[i]))
  }

  /** `xs.join(sep)`: the empty list gives the empty string. */
  function Join(xs: seq<string>, sep: string): string
    decreases |xs|
  {
    if xs == [] then ""
    else if |xs| == 1 then xs[0]
    else xs[0] + sep + Join(xs[1..], sep)
  }

  /** Where the `i`-th element starts in `Join(xs, sep)`. */
  function Offset(xs: seq<string>, sep: string, i: nat): nat
    requires i <= |xs|
    decreases i
  {
    if i == 0 then 0 else |xs[0]| + |sep| + Offset(xs[1..], sep, i - 1)
  }

  /** The prompt sent to the model. The retrieved rows are `None` when the
      search returned no data. */
  function PromptWithExamples(prompt: string, examples: Option<seq<Example>>): (r: string)
    ensures prompt <= r
  {
    if examples.Some? && |examples.value| != 0
    then prompt + ExamplesHeader + Join(Contents(examples.value), [Newline])
    else prompt
  }

  /** The prompt is sent unchanged exactly when there are no examples. */
  lemma PromptUnchangedIff(prompt: string, examples: Option<seq<Example>>)
    ensures PromptWithExamples(prompt, examples) == prompt <==>
      examples.None? || examples.value == []
  {
  }

  /** Consecutive elements start one element and one separator apart. */
  lemma {:induction false} OffsetNext(xs: seq<string>, sep: string, i: nat)
    requires i < |xs|
    ensures Offset(xs, sep, i + 1) == Offset(xs, sep, i) + |xs[i]| + |sep|
    decreases i
  {
    if i > 0 {
      OffsetNext(xs[1..], sep, i - 1);
    }
  }

  /** Dropping past a prefix: what follows `o` in `q` follows `|p| + o` in `p + q`. */
  lemma DropConcat(p: string, q: string, o: nat, x: string)
    requires o <= |q| && x <= q[o..]
    ensures |p| + o <= |p + q| && x <= (p + q)[|p| + o..]
  {
  }

  /** The joined text, read from the `i`-th element's offset, starts with that
      element, and with the separator after it when another element follows. */
  lemma {:induction false} JoinAt(xs: seq<string>, sep: string, i: nat)
    requires i < |xs|
    ensures Offset(xs, sep, i) <= |Join(xs, sep)|
    ensures xs[i] <= Join(xs, sep)[Offset(xs, sep, i)..]
    ensures i + 1 < |xs| ==> xs[i] + sep <= Join(xs, sep)[Offset(xs, sep, i)..]
    decreases i
  {
    var j := Join(xs, sep);
    if |xs| == 1 {
      assert j[0..] == j;
    } else {
      var head := xs[0] + sep;
      var tail := Join(xs[1..], sep);
      assert j == head + tail;
      if i == 0 {
        assert j[0..] == j;
      } else {
        JoinAt(xs[1..], sep, i - 1);
        var o := Offset(xs[1..], sep, i - 1);
        assert xs[1..][i - 1] == xs[i];
        assert Offset(xs, sep, i) == |head| + o;
        DropConcat(head, tail, o, xs[i]);
        if i + 1 < |xs| {
          DropConcat(head, tail, o, xs[i] + sep);
        }
      }
    }
  }

  /** Every example's content appears after the prompt and the header, at its
      offset in retrieval order, followed by a newline when another example
      follows; later examples start further on. */
  lemma ExamplesInOrder(prompt: string, examples: seq<Example>, i: nat)
    requires i < |examples|
    ensures var r := PromptWithExamples(prompt, Some(examples));
      var cs := Contents(examples);
      var at := |prompt| + |ExamplesHeader| + Offset(cs, [Newline], i);
      && prompt + ExamplesHeader <= r
      && at <= |r|
      && cs[i] <= r[at..]
      && (i + 1 < |examples| ==> cs[i] + [Newline] <= r[at..])
      && (i + 1 < |examples| ==> Offset(cs, [Newline], i + 1) == Offset(cs, [Newline], i) + |cs[i]| + 1)
  {
    var cs := Contents(examples);
    var joined := Join(cs, [Newline]);
    var r := PromptWithExamples(prompt, Some(examples));
    var head := prompt + ExamplesHeader;
    assert r == head + joined;
    JoinAt(cs, [Newline], i);
    OffsetNext(cs, [Newline], i);
    var o := Offset(cs, [Newline], i);
    DropConcat(head, joined, o, cs[i]);
    if i + 1 < |examples| {
      DropConcat(head, joined, o, cs[i] + [Newline]);
    }
  }

  /** The joined text ends right after its last element. */
  lemma {:induction false} JoinLength(xs: seq<string>, sep: string)
    requires |xs| > 0
    ensures |Join(xs, sep)| == Offset(xs, sep, |xs| - 1) + |xs[|xs| - 1]|
    decreases |xs|
  {
    if |xs| > 1 {
      JoinLength(xs[1..], sep);
      assert xs[1..][|xs| - 2] == xs[|xs| - 1];
    }
  }

  /** The sent prompt ends right after the last example's content: nothing
      follows it. */
  lemma ExamplesEnd(prompt: string, examples: seq<Example>)
    requires |examples| > 0
    ensures var cs := Contents(examples);
      |PromptWithExamples(prompt, Some(examples))| ==
        |prompt| + |ExamplesHeader| + Offset(cs, [Newline], |cs| - 1) + |cs[|cs| - 1]|
  {
    JoinLength(Contents(examples), [Newline]);
  }

  /** `s.split(c)`: the pieces between occurrences of `c`; one piece when `c`
      does not occur, and [""] for the empty string. */
  function Split(s: string, c: char): (r: seq<string>)
    ensures |r| >= 1
    decreases |s|
  {
    if s == [] then [""]
    else
      var rest := Split(s[1..], c);
      if s[0] == c then [""] + rest else [[s[0]] + rest[0]] + rest[1..]
  }

  lemma {:induction false} SplitAppend(a: string, t: string, c: char)
    requires c !in a
    ensures Split(a + t, c) == [a + Split(t, c)[0]] + Split(t, c)[1..]
    decreases |a|
  {
    var st := Split(t, c);
    if a != [] {
      assert (a + t)[0] == a[0] != c;
      assert (a + t)[1..] == a[1..] + t;
      SplitAppend(a[1..], t, c);
      var rest := Split(a[1..] + t, c);
      assert Split(a + t, c) == [[a[0]] + rest[0]] + rest[1..];
      assert [a[0]] + (a[1..] + st[0]) == a + st[0];
    } else {
      assert a + t == t;
      assert a + st[0] == st[0];
      assert st == [st[0]] + st[1..];
    }
  }

  /** Splitting the joined contents at the separator gives them back when no
      content contains the separator (and there is at least one). */
  lemma {:induction false} SplitJoin(xs: seq<string>, c: char)
    requires |xs| > 0
    requires forall i :: 0 <= i < |xs| ==> c !in xs[i]
    ensures Split(Join(xs, [c]), c) == xs
    decreases |xs|
  {
    if |xs| == 1 {
      SplitAppend(xs[0], "", c);
      assert xs[0] + "" == xs[0];
    } else {
      var tail := Join(xs[1..], [c]);
      SplitJoin(xs[1..], c);
      assert Split([c] + tail, c) == [""] + Split(tail, c) by {
        assert ([c] + tail)[0] == c;
        assert ([c] + tail)[1..] == tail;
      }
      assert c !in xs[0];
      assert xs[0] + [c] + tail == xs[0] + ([c] + tail);
      SplitAppend(xs[0], [c] + tail, c);
      assert xs[0] + "" == xs[0];
      assert xs == [xs[0]] + xs[1..];
    }
  }

  /** When no content holds a newline, the examples' contents can be read back
      from the assembled prompt: drop the prompt and the header, split at
      newlines. */
  lemma ExamplesRecoverable(prompt: string, examples: seq<Example>)
    requires |examples| > 0
    requires forall i :: 0 <= i < |examples| ==> Newline !in ContentText(examples[i])
    ensures var r := PromptWithExamples(prompt, Some(examples));
      Split(r[|prompt| + |ExamplesHeader|..], Newline) == Contents(examples)
  {
    var cs := Contents(examples);
    var r := PromptWithExamples(prompt, Some(examples));
    assert r[|prompt| + |ExamplesHeader|..] == Join(cs, [Newline]);
    SplitJoin(cs, Newline);
  }
}
