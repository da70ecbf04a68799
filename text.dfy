/**
 * The string operations of Kotlin's standard library that the bridge
 * generator relies on: `joinToString`, `split` with a one-character
 * delimiter and `substringAfterLast`, with the facts the model needs
 * about them.
 */
module Text {

  /** Number of occurrences of `c` in `s`. */
  function Count(s: string, c: char): nat
  {
    if |s| == 0 then 0 else (if s[0] == c then 1 else 0) + Count(s[1..], c)
  }

  /** The elements of `xs` with `sep` between consecutive ones: `xs.joinToString(sep)`. */
  function Join(xs: seq<string>, sep: string): string
  {
    if |xs| == 0 then ""
    else if |xs| == 1 then xs[0]
    else xs[0] + sep + Join(xs[1..], sep)
  }

  /** The pieces of `s` between occurrences of `c`: `s.split(c)`. */
  function Split(s: string, c: char): (pieces: seq<string>)
    ensures |pieces| == Count(s, c) + 1
    ensures forall i :: 0 <= i < |pieces| ==> c !in pieces[i]
  {
    if |s| == 0 then [""]
    else
      var rest := Split(s[1..], c);
      if s[0] == c then [""] + rest
      else [[s[0]] + rest[0]] + rest[1..]
  }

  /** Text without the delimiter in front of `b` is glued to the first piece of `b`. */
  lemma {:induction false} SplitPrepend(t: string, b: string, c: char)
    requires c !in t
    ensures Split(t + b, c) == [t + Split(b, c)[0]] + Split(b, c)[1..]
  {
    var pieces := Split(b, c);
    if |t| == 0 {
      assert t + b == b && t + pieces[0] == pieces[0];
      assert [pieces[0]] + pieces[1..] == pieces;
    } else {
      assert (t + b)[1..] == t[1..] + b;
      SplitPrepend(t[1..], b, c);
      assert [t[0]] + (t[1..] + Split(b, c)[0]) == t + Split(b, c)[0];
    }
  }

  /** A list of two or more elements joins as its head, the separator and the joined rest. */
  lemma JoinStep(xs: seq<string>, sep: string)
    requires |xs| > 1
    ensures Join(xs, sep) == xs[0] + (sep + Join(xs[1..], sep))
  {
  }

  /** A delimiter at the front of the text opens an empty first piece. */
  lemma SplitDelimiterFirst(tail: string, rest: string, c: char)
    ensures Split(([c] + tail) + rest, c) == [""] + Split(tail + rest, c)
  {
    assert (([c] + tail) + rest)[1..] == tail + rest;
  }

  /** One step of splitting a joined list: the head, then `tail` glued to what follows. */
  lemma SplitStep(head: string, tail: string, rest: string, c: char)
    requires c !in head && c !in tail
    ensures Split(head + (([c] + tail) + rest), c)
         == [head] + ([tail + Split(rest, c)[0]] + Split(rest, c)[1..])
  {
    var afterHead := Split(([c] + tail) + rest, c);
    var afterDelimiter := Split(tail + rest, c);
    SplitPrepend(head, ([c] + tail) + rest, c);
    SplitDelimiterFirst(tail, rest, c);
    GlueToEmpty(head, afterHead, afterDelimiter);
    SplitPrepend(tail, rest, c);
  }

  /** Gluing `head` to an empty first piece leaves `head` as a piece of its own. */
  lemma GlueToEmpty(head: string, pieces: seq<string>, rest: seq<string>)
    requires pieces == [""] + rest
    ensures [head + pieces[0]] + pieces[1..] == [head] + rest
  {
    assert head + "" == head;
    assert pieces[1..] == rest;
  }

  /**
   * Splitting a list joined with `[c] + tail` at `c` gives back its elements
   * in order, every one after the first preceded by `tail`.
   */
  lemma {:induction false} SplitJoin(xs: seq<string>, c: char, tail: string)
    requires |xs| > 0
    requires c !in tail
    requires forall i :: 0 <= i < |xs| ==> c !in xs[i]
    ensures var pieces := Split(Join(xs, [c] + tail), c);
      && |pieces| == |xs|
      && pieces[0] == xs[0]
      && forall i :: 1 <= i < |xs| ==> pieces[i] == tail + xs[i]
  {
    if |xs| == 1 {
      SplitPrepend(xs[0], "", c);
      assert xs[0] + "" == xs[0];
    } else {
      var rest := Join(xs[1..], [c] + tail);
      SplitJoin(xs[1..], c, tail);
      var restPieces := Split(rest, c);
      JoinStep(xs, [c] + tail);
      SplitStep(xs[0], tail, rest, c);
      ShiftPieces(xs, tail, restPieces);
    }
  }

  /** The index bookkeeping of one step of `SplitJoin`, kept apart from `Split` and `Join`. */
  lemma ShiftPieces(xs: seq<string>, tail: string, restPieces: seq<string>)
    requires |xs| > 1
    requires |restPieces| == |xs[1..]| && restPieces[0] == xs[1..][0]
    requires forall i :: 1 <= i < |xs[1..]| ==> restPieces[i] == tail + xs[1..][i]
    ensures var pieces := [xs[0]] + ([tail + restPieces[0]] + restPieces[1..]);
      && |pieces| == |xs|
      && pieces[0] == xs[0]
      && forall i :: 1 <= i < |xs| ==> pieces[i] == tail + xs[i]
  {
    var pieces := [xs[0]] + ([tail + restPieces[0]] + restPieces[1..]);
    forall i | 1 <= i < |xs|
      ensures pieces[i] == tail + xs[i]
    {
      if i > 1 {
        assert pieces[i] == restPieces[i - 1];
        assert xs[1..][i - 1] == xs[i];
      }
    }
  }

  /** Splitting a list joined with `c` at `c` gives it back, when no element holds `c`. */
  lemma SplitJoinExact(xs: seq<string>, c: char)
    requires |xs| > 0
    requires forall i :: 0 <= i < |xs| ==> c !in xs[i]
    ensures Split(Join(xs, [c]), c) == xs
  {
    assert [c] + "" == [c];
    SplitJoin(xs, c, "");
    var pieces := Split(Join(xs, [c]), c);
    assert |pieces| == |xs|;
    forall i | 0 <= i < |xs|
      ensures pieces[i] == xs[i]
    {
      if i > 0 {
        assert pieces[i] == "" + xs[i];
        assert "" + xs[i] == xs[i];
      }
    }
  }

  /**
   * `text` reads back as `items` written with `joinToString(", ")`: split at
   * commas, it gives the items in order, each after the first behind a space.
   */
  ghost predicate ListsInOrder(text: string, items: seq<string>)
  {
    if |items| == 0 then text == ""
    else
      var pieces := Split(text, ',');
      && |pieces| == |items|
      && pieces[0] == items[0]
      && forall i :: 1 <= i < |items| ==> pieces[i] == " " + items[i]
  }

  /** A comma-separated rendering of comma-free items keeps their number and order. */
  lemma CommaListInOrder(items: seq<string>)
    ensures (forall i :: 0 <= i < |items| ==> ',' !in items[i]) ==> ListsInOrder(Join(items, ", "), items)
  {
    if |items| > 0 && forall i :: 0 <= i < |items| ==> ',' !in items[i] {
      SplitJoin(items, ',', " ");
      assert [','] + " " == ", ";
    }
  }

  /** The text after the last `c` in `s`, or all of `s` when it has no `c`: `s.substringAfterLast(c)`. */
  function SubstringAfterLast(s: string, c: char): (r: string)
    ensures |r| <= |s| && r == s[|s| - |r|..]
    ensures c !in r
    ensures c in s ==> |r| < |s| && s[|s| - |r| - 1] == c
    ensures c !in s ==> r == s
  {
    if |s| == 0 then ""
    else if s[|s| - 1] == c then ""
    else SubstringAfterLast(s[..|s| - 1], c) + [s[|s| - 1]]
  }

  /** What follows the last delimiter is exactly the delimiter-free tail. */
  lemma SubstringAfterLastOf(a: string, b: string, c: char)
    requires c !in b
    ensures SubstringAfterLast(a + [c] + b, c) == b
  {
    var s := a + [c] + b;
    var r := SubstringAfterLast(s, c);
    assert s[|a|] == c;
    assert s[|a| + 1..] == b;
    assert r == s[|a| + 1..];
  }
}
