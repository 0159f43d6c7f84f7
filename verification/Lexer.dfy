/** The literals of a source file, told by a machine that reads it step by step. */
module Lexer {

  /** Where code is read: at top level, or in a hole of a template, with the
      braces open in it and the code around the template. */
  datatype Context = Top | Hole(braces: nat, outer: Context)

  datatype Mode =
    | Code(around: Context)
    | LineComment(around: Context)
    | BlockComment(around: Context)
    | Quoted(around: Context, quote: char, start: nat)
    | Template(around: Context, start: nat)

  /** A literal's offsets (the end excluded) and contents. */
  datatype Literal = Literal(start: nat, end: nat, content: string)

  /** What one step emits, and where it goes on. */
  datatype Step = Step(out: seq<Literal>, at: nat, mode: Mode)

  /** `source.slice(start, end)` */
  function Slice(s: string, start: nat, end: nat): string {
    var to := if end < |s| then end else |s|;
    if start <= to then s[start..to] else ""
  }

  function Text(s: string, start: nat, end: nat): Literal {
    Literal(start, end, Slice(s, start, end))
  }

  predicate At(s: string, i: nat, c: char) {
    i < |s| && s[i] == c
  }

  function InCode(s: string, i: nat, c: Context): Step
    requires i < |s|
  {
    if s[i] == '/' && At(s, i + 1, '/') then Step([], i + 2, LineComment(c))
    else if s[i] == '/' && At(s, i + 1, '*') then Step([], i + 2, BlockComment(c))
    else if s[i] == '"' || s[i] == '\'' then Step([], i + 1, Quoted(c, s[i], i + 1))
    else if s[i] == '`' then Step([], i + 1, Template(c, i + 1))
    else if c.Hole? && s[i] == '{' then Step([], i + 1, Code(Hole(c.braces + 1, c.outer)))
    else if c.Hole? && s[i] == '}' then
      // The last brace ends the hole and the template goes on.
      Step([], i + 1, if c.braces <= 1 then Template(c.outer, i + 1) else Code(Hole(c.braces - 1, c.outer)))
    else Step([], i + 1, Code(c))
  }

  function InBlockComment(s: string, i: nat, c: Context): Step
    requires i < |s|
  {
    // In a hole the closing slash is read again, as code.
    if s[i] == '*' && At(s, i + 1, '/') then Step([], if c.Top? then i + 2 else i + 1, Code(c))
    else Step([], i + 1, BlockComment(c))
  }

  function InQuoted(s: string, i: nat, c: Context, quote: char, start: nat): Step
    requires i < |s|
  {
    if s[i] == '\\' then Step([], i + 2, Quoted(c, quote, start))
    else if s[i] == quote then Step([Text(s, start, i)], i + 1, Code(c))
    else if s[i] == '\n' then Step([Text(s, start, i)], i, Code(c))
    else Step([], i + 1, Quoted(c, quote, start))
  }

  function InTemplate(s: string, i: nat, c: Context, start: nat): Step
    requires i < |s|
  {
    if s[i] == '\\' then Step([], i + 2, Template(c, start))
    else if s[i] == '`' then Step([Text(s, start, i)], i + 1, Code(c))
    else if s[i] == '$' && At(s, i + 1, '{') then Step([Text(s, start, i)], i + 2, Code(Hole(1, c)))
    else Step([], i + 1, Template(c, start))
  }

  /** What is left open when the source ends is closed one by one. */
  function AtEnd(s: string, i: nat, m: Mode): Step
    requires i >= |s| && m != Code(Top)
  {
    match m
    case Code(c) => Step([], i, Template(c.outer, i))
    case LineComment(c) => Step([], i, Code(c))
    case BlockComment(c) => Step([], if c.Top? then i + 2 else i + 1, Code(c))
    case Quoted(c, _, start) => Step([Text(s, start, i)], i, Code(c))
    case Template(c, start) => Step([Text(s, start, |s|)], |s|, Code(c))
  }

  predicate Halted(s: string, i: nat, m: Mode) {
    i >= |s| && m == Code(Top)
  }

  function Next(s: string, i: nat, m: Mode): Step
    requires !Halted(s, i, m)
  {
    if i >= |s| then AtEnd(s, i, m)
    else
      match m
      case Code(c) => InCode(s, i, c)
      case LineComment(c) => if s[i] == '\n' then Step([], i, Code(c)) else Step([], i + 1, m)
      case BlockComment(c) => InBlockComment(s, i, c)
      case Quoted(c, quote, start) => InQuoted(s, i, c, quote, start)
      case Template(c, start) => InTemplate(s, i, c, start)
  }

  function Left(s: string, i: nat): nat {
    if i < |s| then |s| - i else 0
  }

  function Depth(c: Context): nat {
    if c.Top? then 0 else 1 + Depth(c.outer)
  }

  /** All literals from a position on. */
  function Lex(s: string, i: nat, m: Mode): seq<Literal>
    decreases Left(s, i), Depth(m.around), if m.Code? then 0 else 1
  {
    if Halted(s, i, m) then []
    else
      var n := Next(s, i, m);
      n.out + Lex(s, n.at, n.mode)
  }

  /** The source ends with an escape inside an open quote. */
  predicate Dangles(s: string, i: nat, m: Mode)
    decreases Left(s, i), Depth(m.around), if m.Code? then 0 else 1
  {
    if Halted(s, i, m) then false
    else
      var n := Next(s, i, m);
      (m.Quoted? && i > |s|) || Dangles(s, n.at, n.mode)
  }

  function Literals(s: string): seq<Literal> {
    Lex(s, 0, Code(Top))
  }

  /** One step, after what is already found. */
  lemma Advance(s: string, found: seq<Literal>, i: nat, m: Mode)
    requires !Halted(s, i, m)
    ensures var n := Next(s, i, m); found + Lex(s, i, m) == (found + n.out) + Lex(s, n.at, n.mode)
  {
  }

  // ----- Where literals lie -----

  /** The machine's own bounds. */
  predicate Placed(s: string, i: nat, m: Mode) {
    match m
    case Quoted(_, _, start) => start <= i <= |s| + 1 && start <= |s|
    case Template(_, start) => start <= i
    case _ => true
  }

  function Frontier(s: string, i: nat, m: Mode): nat {
    match m
    case Quoted(_, _, start) => start
    case Template(_, start) => if start < |s| then start else |s|
    case _ => if i < |s| then i else |s|
  }

  predicate IsEmpty(l: Literal) {
    l.end <= l.start
  }

  predicate Fits(s: string, l: Literal) {
    IsEmpty(l) || (l.end <= |s| + 1 && l.start <= |s|)
  }

  /** Non-empty literals in source order, none overlapping another, none before `from`. */
  predicate Ordered(s: string, from: nat, ls: seq<Literal>) {
    && (forall k | 0 <= k < |ls| :: Fits(s, ls[k]) && (IsEmpty(ls[k]) || from <= ls[k].start))
    && (forall j, k | 0 <= j < k < |ls| :: IsEmpty(ls[j]) || IsEmpty(ls[k]) || ls[j].end <= ls[k].start)
  }

  /** Past the end of the source nothing but empty literals follows. */
  lemma {:induction false} EmptyAfterEnd(s: string, i: nat, m: Mode)
    requires i >= |s| && !m.Quoted? && (m.Template? ==> m.start >= |s|)
    ensures forall l | l in Lex(s, i, m) :: IsEmpty(l)
    decreases Left(s, i), Depth(m.around), if m.Code? then 0 else 1
  {
    if !Halted(s, i, m) {
      var n := Next(s, i, m);
      EmptyAfterEnd(s, n.at, n.mode);
    }
  }

  lemma NextFrontier(s: string, i: nat, m: Mode)
    requires !Halted(s, i, m) && Placed(s, i, m)
    ensures var n := Next(s, i, m);
            Placed(s, n.at, n.mode) && Frontier(s, i, m) <= Frontier(s, n.at, n.mode) &&
            |n.out| <= 1 && forall l | l in n.out ::
              Fits(s, l) && Frontier(s, i, m) <= l.start && !n.mode.Quoted? && !n.mode.Template? &&
              (IsEmpty(l) || l.end <= Frontier(s, n.at, n.mode) || n.at >= |s|)
  {
  }

  lemma Joined(s: string, from: nat, l: Literal, next: nat, rest: seq<Literal>)
    requires Fits(s, l) && from <= l.start && from <= next && Ordered(s, next, rest)
    requires IsEmpty(l) || l.end <= next || forall r | r in rest :: IsEmpty(r)
    ensures Ordered(s, from, [l] + rest)
  {
    var ls := [l] + rest;
    assert forall k | 0 < k < |ls| :: ls[k] == rest[k - 1];
  }

  lemma {:induction false} LexOrdered(s: string, i: nat, m: Mode)
    requires Placed(s, i, m)
    ensures Ordered(s, Frontier(s, i, m), Lex(s, i, m))
    decreases Left(s, i), Depth(m.around), if m.Code? then 0 else 1
  {
    if !Halted(s, i, m) {
      var n := Next(s, i, m);
      NextFrontier(s, i, m);
      hide Next, Ordered, Fits, Placed, Frontier, IsEmpty;
      LexOrdered(s, n.at, n.mode);
      var rest := Lex(s, n.at, n.mode);
      if n.out == [] {
        assert n.out + rest == rest;
        OrderedFromEarlier(s, Frontier(s, i, m), Frontier(s, n.at, n.mode), rest);
      } else {
        var l := n.out[0];
        assert n.out == [l];
        if n.at >= |s| {
          EmptyAfterEnd(s, n.at, n.mode);
        }
        Joined(s, Frontier(s, i, m), l, Frontier(s, n.at, n.mode), rest);
      }
    } else {
      assert Ordered(s, Frontier(s, i, m), []);
    }
  }

  lemma OrderedFromEarlier(s: string, from: nat, next: nat, ls: seq<Literal>)
    requires from <= next && Ordered(s, next, ls)
    ensures Ordered(s, from, ls)
  {
  }

  /** Only a source that ends in a backslash can dangle. */
  lemma {:induction false} NoDangling(s: string, i: nat, m: Mode)
    requires s == "" || s[|s| - 1] != '\\'
    requires m.Quoted? ==> i <= |s|
    ensures !Dangles(s, i, m)
    decreases Left(s, i), Depth(m.around), if m.Code? then 0 else 1
  {
    if !Halted(s, i, m) {
      var n := Next(s, i, m);
      NoDangling(s, n.at, n.mode);
    }
  }

  /** Some literal runs past the source exactly when it dangles. */
  lemma {:induction false} DanglingLiteral(s: string, i: nat, m: Mode)
    requires Placed(s, i, m)
    ensures Dangles(s, i, m) <==> exists l | l in Lex(s, i, m) :: l.start <= |s| < l.end
    decreases Left(s, i), Depth(m.around), if m.Code? then 0 else 1
  {
    if !Halted(s, i, m) {
      var n := Next(s, i, m);
      NextFrontier(s, i, m);
      DanglingLiteral(s, n.at, n.mode);
      if n.out != [] {
        assert n.out == [n.out[0]];
        assert n.out[0] in Lex(s, i, m);
        assert (n.out[0].start <= |s| < n.out[0].end) == (m.Quoted? && i > |s|);
      }
      assert forall l | l in Lex(s, n.at, n.mode) :: l in Lex(s, i, m);
    }
  }
}
