/** The arguments of every call of a function in masked source text. */
module Spans {
  import opened Values

  datatype Span = Span(start: nat, end: nat)

  predicate Occurs(s: string, needle: string, i: nat) {
    i + |needle| <= |s| && s[i..i + |needle|] == needle
  }

  /** `indexOf` */
  method IndexOf(s: string, needle: string, from: nat) returns (at: Option<nat>)
    requires needle != ""
    ensures at.Some? ==> from <= at.value && Occurs(s, needle, at.value)
    ensures forall i: nat | from <= i && (at.Some? ==> i < at.value) :: !Occurs(s, needle, i)
  {
    var i := from;
    while i + |needle| <= |s|
      invariant from <= i
      invariant forall k: nat | from <= k < i :: !Occurs(s, needle, k)
    {
      if s[i..i + |needle|] == needle {
        return Some(i);
      }
      i := i + 1;
    }
    return None;
  }

  /** Parentheses opened and not closed in `s[lo..hi]`. */
  function Open(s: string, lo: nat, hi: nat): int
    requires lo <= hi <= |s|
  {
    if lo == hi then 0
    else Open(s, lo, hi - 1) + (if s[hi - 1] == '(' then 1 else if s[hi - 1] == ')' then -1 else 0)
  }

  /** `close` is the parenthesis matching the one at `open`, or the end of an unbalanced text. */
  predicate Closes(s: string, open: nat, close: nat) {
    && open < close <= |s|
    && (forall k | open < k <= close :: Open(s, open, k) > 0)
    && (close < |s| ==> s[close] == ')' && Open(s, open, close + 1) == 0)
  }

  lemma ClosesOnce(s: string, open: nat, close: nat, close': nat)
    requires Closes(s, open, close) && Closes(s, open, close')
    ensures close == close'
  {
  }

  /** The spans are the arguments of calls of `needle` that start in the range:
      each ends at its matching parenthesis, they follow one another, and every
      call in the range either has its span or stands inside one. */
  predicate Arguments(s: string, needle: string, from: nat, to: nat, found: seq<Span>)
    requires needle != ""
  {
    && (forall f | f in found ::
          from + |needle| <= f.start < to + |needle| && Occurs(s, needle, f.start - |needle|) && Closes(s, f.start - 1, f.end))
    && (forall j, k | 0 <= j < k < |found| :: found[j].end + |needle| <= found[k].start)
  }

  ghost predicate AllCalls(s: string, needle: string, from: nat, to: nat, found: seq<Span>) {
    forall i: nat | from <= i < to && Occurs(s, needle, i) ::
      exists f | f in found :: f.start == i + |needle| || f.start - |needle| < i < f.end
  }

  /** The spans found so far, all before the cursor. */
  ghost predicate FoundUpTo(s: string, needle: string, from: nat, to: nat, found: seq<Span>, cursor: nat)
    requires needle != ""
  {
    && from <= cursor && Arguments(s, needle, from, to, found) && (forall f | f in found :: f.end <= cursor)
    && AllCalls(s, needle, from, if cursor < to then cursor else to, found)
  }

  lemma FoundNext(s: string, needle: string, from: nat, to: nat, found: seq<Span>, cursor: nat, at: nat, end: nat)
    requires needle != "" && FoundUpTo(s, needle, from, to, found, cursor) && cursor <= at < to
    requires Occurs(s, needle, at) && Closes(s, at + |needle| - 1, end)
    requires forall i: nat | cursor <= i < at :: !Occurs(s, needle, i)
    ensures FoundUpTo(s, needle, from, to, found + [Span(at + |needle|, end)], end)
  {
    hide Occurs, Closes, Arguments, AllCalls;
    ClosesLater(s, at + |needle| - 1, end);
    NextArgument(s, needle, from, to, found, cursor, at, end);
    NextCalls(s, needle, from, to, found, cursor, at, end);
  }

  lemma NextArgument(s: string, needle: string, from: nat, to: nat, found: seq<Span>, cursor: nat, at: nat, end: nat)
    requires needle != "" && Arguments(s, needle, from, to, found) && (forall f | f in found :: f.end <= cursor)
    requires from <= cursor <= at < to && Occurs(s, needle, at) && Closes(s, at + |needle| - 1, end)
    ensures Arguments(s, needle, from, to, found + [Span(at + |needle|, end)])
  {
    hide Occurs, Closes;
    var more := found + [Span(at + |needle|, end)];
    forall j, k | 0 <= j < k < |more|
      ensures more[j].end + |needle| <= more[k].start
    {
      if k == |found| {
        assert found[j] in found;
      }
    }
  }

  lemma NextCalls(s: string, needle: string, from: nat, to: nat, found: seq<Span>, cursor: nat, at: nat, end: nat)
    requires AllCalls(s, needle, from, if cursor < to then cursor else to, found) && cursor <= at < to
    requires forall i: nat | cursor <= i < at :: !Occurs(s, needle, i)
    ensures AllCalls(s, needle, from, if end < to then end else to, found + [Span(at + |needle|, end)])
  {
    hide Occurs;
    var more := found + [Span(at + |needle|, end)];
    forall i: nat | from <= i < end && i < to && Occurs(s, needle, i)
      ensures exists f | f in more :: f.start == i + |needle| || f.start - |needle| < i < f.end
    {
      if i < cursor {
        var f :| f in found && (f.start == i + |needle| || f.start - |needle| < i < f.end);
        assert f in more;
      } else {
        assert more[|found|] in more;
      }
    }
  }

  lemma ClosesLater(s: string, open: nat, close: nat)
    requires Closes(s, open, close)
    ensures open < close
  {
  }

  /** `skipIfArguments`, and `capabilityCallArguments` with its own range. */
  method CallArguments(masked: string, needle: string, from: nat, to: nat) returns (found: seq<Span>)
    requires needle != "" && needle[|needle| - 1] == '(' && to <= |masked|
    ensures Arguments(masked, needle, from, to, found)
    ensures AllCalls(masked, needle, from, to, found)
  {
    hide Arguments, AllCalls, FoundUpTo, Closes;
    found := [];
    var cursor := from;
    NothingFound(masked, needle, from, to);
    while true
      invariant FoundUpTo(masked, needle, from, to, found, cursor)
      decreases |masked| - cursor
    {
      var at := IndexOf(masked, needle, cursor);
      if at.None? || at.value >= to {
        FoundAll(masked, needle, from, to, found, cursor);
        break;
      }
      var open := at.value + |needle| - 1;
      assert masked[at.value..at.value + |needle|][|needle| - 1] == masked[open];
      var index := MatchingParenthesis(masked, open);
      ClosesLater(masked, open, index);
      FoundNext(masked, needle, from, to, found, cursor, at.value, index);
      found := found + [Span(open + 1, index)];
      cursor := index;
    }
  }

  lemma NothingFound(s: string, needle: string, from: nat, to: nat)
    requires needle != ""
    ensures FoundUpTo(s, needle, from, to, [], from)
  {
  }

  lemma FoundAll(s: string, needle: string, from: nat, to: nat, found: seq<Span>, cursor: nat)
    requires needle != "" && FoundUpTo(s, needle, from, to, found, cursor)
    requires forall i: nat | cursor <= i < to :: !Occurs(s, needle, i)
    ensures Arguments(s, needle, from, to, found) && AllCalls(s, needle, from, to, found)
  {
    hide Occurs, Closes;
  }

  /** The balancing loop of both. */
  method MatchingParenthesis(masked: string, open: nat) returns (index: nat)
    requires open < |masked| && masked[open] == '('
    ensures Closes(masked, open, index)
  {
    var depth := 0;
    index := open;
    while index < |masked|
      invariant open <= index <= |masked| && depth == Open(masked, open, index)
      invariant forall k | open < k <= index :: Open(masked, open, k) > 0
    {
      if masked[index] == '(' {
        depth := depth + 1;
      } else if masked[index] == ')' {
        depth := depth - 1;
        if depth == 0 {
          break;
        }
      }
      index := index + 1;
    }
  }

  // ----- The spans are determined -----

  /** A list of spans that covers every call has its next one no later than any other such list. */
  lemma NextNoLater(s: string, needle: string, from: nat, to: nat, found: seq<Span>, other: seq<Span>, k: nat)
    requires needle != "" && Arguments(s, needle, from, to, found) && Arguments(s, needle, from, to, other)
    requires AllCalls(s, needle, from, to, other) && k < |found| && k <= |other| && found[..k] == other[..k]
    ensures k < |other| && other[k].start <= found[k].start
  {
    hide Occurs, Closes, Arguments, AllCalls;
    var call := CallOf(s, needle, from, to, found, k);
    var j := Covering(s, needle, from, to, other, call);
    if j < k {
      assert found[j] == found[..k][j] == other[..k][j] == other[j];
      StartsRise(s, needle, from, to, found, j, k);
      SpanStarts(s, needle, from, to, found, j);
    } else {
      StartsRise(s, needle, from, to, other, k, j);
    }
  }

  lemma Covering(s: string, needle: string, from: nat, to: nat, found: seq<Span>, call: nat) returns (j: nat)
    requires AllCalls(s, needle, from, to, found) && from <= call < to && Occurs(s, needle, call)
    ensures j < |found| && (found[j].start == call + |needle| || found[j].start - |needle| < call < found[j].end)
  {
    var f :| f in found && (f.start == call + |needle| || f.start - |needle| < call < f.end);
    j :| 0 <= j < |found| && found[j] == f;
  }

  lemma StartsRise(s: string, needle: string, from: nat, to: nat, found: seq<Span>, j: nat, k: nat)
    requires needle != "" && Arguments(s, needle, from, to, found) && j <= k < |found|
    ensures found[j].start <= found[k].start && (j < k ==> found[j].end + |needle| <= found[k].start)
  {
    hide Occurs, Closes;
    SpanStarts(s, needle, from, to, found, j);
  }

  lemma CallOf(s: string, needle: string, from: nat, to: nat, found: seq<Span>, k: nat) returns (call: nat)
    requires needle != "" && Arguments(s, needle, from, to, found) && k < |found|
    ensures from <= call < to && Occurs(s, needle, call) && found[k].start == call + |needle|
  {
    assert found[k] in found;
    call := found[k].start - |needle|;
  }

  lemma SpanStarts(s: string, needle: string, from: nat, to: nat, found: seq<Span>, k: nat)
    requires needle != "" && Arguments(s, needle, from, to, found) && k < |found|
    ensures |needle| <= found[k].start <= found[k].end && Closes(s, found[k].start - 1, found[k].end)
  {
    assert found[k] in found;
  }

  /** Only one list of spans covers the calls of a range. */
  lemma {:induction false} SpansOnce(s: string, needle: string, from: nat, to: nat, found: seq<Span>, other: seq<Span>, k: nat)
    requires needle != "" && Arguments(s, needle, from, to, found) && Arguments(s, needle, from, to, other)
    requires AllCalls(s, needle, from, to, found) && AllCalls(s, needle, from, to, other)
    requires k <= |found| && k <= |other| && found[..k] == other[..k]
    ensures found == other
    decreases |found| - k
  {
    hide Arguments, AllCalls, Closes;
    if k < |found| {
      NextNoLater(s, needle, from, to, found, other, k);
      NextNoLater(s, needle, from, to, other, found, k);
      SpanStarts(s, needle, from, to, found, k);
      SpanStarts(s, needle, from, to, other, k);
      ClosesOnce(s, found[k].start - 1, found[k].end, other[k].end);
      assert found[..k + 1] == found[..k] + [found[k]] && other[..k + 1] == other[..k] + [other[k]];
      SpansOnce(s, needle, from, to, found, other, k + 1);
    } else if k < |other| {
      NextNoLater(s, needle, from, to, other, found, k);
    } else {
      assert found == found[..k] && other == other[..k];
    }
  }
}
