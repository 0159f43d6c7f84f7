/** The scanners of the gate report: literals found by jumping an index through
    the source, and the source with their contents blanked. */
module Scanner {
  import opened Lexer

  class SourceScanner {
    const source: string
    var literals: seq<Literal>

    constructor (source: string)
      ensures this.source == source && literals == []
    {
      this.source := source;
      literals := [];
    }

    /** What is found plus what the machine still finds from here. */
    ghost function All(i: nat, m: Mode): seq<Literal>
      reads this
    {
      literals + Lex(source, i, m)
    }

    /** `scanQuoted` reads exactly one quoted literal, in whatever code it stands. */
    method ScanQuoted(at: nat, ghost c: Context) returns (next: nat)
      requires at < |source| && (source[at] == '"' || source[at] == '\'')
      modifies this
      ensures at < next && All(next, Code(c)) == old(All(at, Code(c)))
    {
      hide Lex;
      var quote := source[at];
      var start := at + 1;
      var index := start;
      Advance(source, literals, at, Code(c));
      while index < |source|
        invariant at < index
        invariant literals == old(literals) && All(index, Quoted(c, quote, start)) == old(All(at, Code(c)))
      {
        Advance(source, literals, index, Quoted(c, quote, start));
        var character := source[index];
        if character == '\\' {
          index := index + 2;
          continue;
        }
        if character == quote || character == '\n' {
          break;
        }
        index := index + 1;
      }
      Advance(source, literals, index, Quoted(c, quote, start));
      literals := literals + [Text(source, start, index)];
      return if At(source, index, quote) then index + 1 else index;
    }

    /** Skips to the end of a line comment. */
    method SkipLine(at: nat, ghost c: Context) returns (next: nat)
      requires at < |source| && source[at] == '/' && At(source, at + 1, '/')
      ensures at < next && All(next, Code(c)) == All(at, Code(c))
    {
      hide Lex;
      next := at;
      Advance(source, literals, at, Code(c));
      while next < |source| && source[next] != '\n'
        invariant at <= next
        invariant next < at + 2 ==> next < |source| && source[next] != '\n'
        invariant All(if next < at + 2 then at + 2 else next, LineComment(c)) == All(at, Code(c))
      {
        if next >= at + 2 {
          Advance(source, literals, next, LineComment(c));
        }
        next := next + 1;
      }
      Advance(source, literals, next, LineComment(c));
    }

    /** Skips to the closing mark of a block comment. */
    method SkipBlock(at: nat, ghost c: Context) returns (next: nat)
      requires at < |source| && source[at] == '/' && At(source, at + 1, '*')
      ensures at + 2 <= next && All(if c.Top? then next + 2 else next + 1, Code(c)) == All(at, Code(c))
    {
      hide Lex;
      next := at + 2;
      Advance(source, literals, at, Code(c));
      while next < |source| && !(source[next] == '*' && At(source, next + 1, '/'))
        invariant at + 2 <= next && All(next, BlockComment(c)) == All(at, Code(c))
      {
        Advance(source, literals, next, BlockComment(c));
        next := next + 1;
      }
      Advance(source, literals, next, BlockComment(c));
    }

    /** `scanTemplate` reads exactly one template, the templates in its holes included. */
    method ScanTemplate(at: nat, ghost c: Context) returns (next: nat)
      requires at < |source| && source[at] == '`'
      modifies this
      ensures at < next && All(next, Code(c)) == old(All(at, Code(c)))
      decreases Left(source, at), 0
    {
      hide Lex;
      var index := at + 1;
      var textStart: nat := index;
      Advance(source, literals, at, Code(c));
      while index < |source|
        invariant at < index
        invariant All(index, Template(c, textStart)) == old(All(at, Code(c)))
      {
        Advance(source, literals, index, Template(c, textStart));
        var character := source[index];
        if character == '\\' {
          index := index + 2;
          continue;
        }
        if character == '`' {
          literals := literals + [Text(source, textStart, index)];
          return index + 1;
        }
        if character == '$' && At(source, index + 1, '{') {
          literals := literals + [Text(source, textStart, index)];
          index := ScanHole(index + 2, c);
          textStart := index;
          continue;
        }
        index := index + 1;
      }
      Advance(source, literals, index, Template(c, textStart));
      literals := literals + [Text(source, textStart, |source|)];
      return |source|;
    }

    /** The code of one `${...}`, up to the template's next text. */
    method ScanHole(at: nat, ghost c: Context) returns (next: nat)
      modifies this
      ensures at <= next && All(next, Template(c, next)) == old(All(at, Code(Hole(1, c))))
      decreases Left(source, at), 1
    {
      hide Lex;
      next := at;
      var depth := 1;
      while next < |source| && depth > 0
        invariant at <= next
        invariant All(next, if depth > 0 then Code(Hole(depth, c)) else Template(c, next)) == old(All(at, Code(Hole(1, c))))
        decreases |source| - next
      {
        ghost var here := Hole(depth, c);
        Advance(source, literals, next, Code(here));
        var inner := source[next];
        if inner == '{' {
          depth := depth + 1;
        } else if inner == '}' {
          depth := depth - 1;
        } else if inner == '"' || inner == '\'' {
          next := ScanQuoted(next, here);
          next := next - 1;
        } else if inner == '`' {
          next := ScanTemplate(next, here);
          next := next - 1;
        } else if inner == '/' && At(source, next + 1, '/') {
          next := SkipLine(next, here);
          continue;
        } else if inner == '/' && At(source, next + 1, '*') {
          next := SkipBlock(next, here);
        }
        next := next + 1;
      }
      if depth > 0 {
        Advance(source, literals, next, Code(Hole(depth, c)));
      }
    }

    /** `sourceLiterals` */
    method Scan()
      requires literals == []
      modifies this
      ensures literals == Literals(source)
    {
      hide Lex;
      var index := 0;
      while index < |source|
        invariant All(index, Code(Top)) == Literals(source)
        decreases |source| - index
      {
        Advance(source, literals, index, Code(Top));
        var character := source[index];
        if character == '/' && At(source, index + 1, '/') {
          index := SkipLine(index, Top);
        } else if character == '/' && At(source, index + 1, '*') {
          index := SkipBlock(index, Top);
          index := index + 2;
        } else if character == '"' || character == '\'' {
          index := ScanQuoted(index, Top);
        } else if character == '`' {
          index := ScanTemplate(index, Top);
        } else {
          index := index + 1;
        }
      }
      NothingLeft(source, index);
    }
  }

  lemma NothingLeft(s: string, i: nat)
    requires i >= |s|
    ensures Lex(s, i, Code(Top)) == []
  {
  }

  // ----- Masking -----

  predicate Covered(ls: seq<Literal>, k: nat) {
    exists l | l in ls :: l.start <= k < l.end
  }

  /** Offset `k` after masking. */
  function MaskedAt(s: string, ls: seq<Literal>, k: nat): char {
    if k < |s| && (s[k] == '\n' || !Covered(ls, k)) then s[k] else ' '
  }

  /** The text is the source with the contents of these literals blanked. */
  predicate Shows(text: string, s: string, ls: seq<Literal>) {
    && |text| == |s| + (if Covered(ls, |s|) then 1 else 0)
    && forall k | 0 <= k < |text| :: text[k] == MaskedAt(s, ls, k)
  }

  lemma CoveredByMore(ls: seq<Literal>, l: Literal, k: nat)
    ensures Covered(ls + [l], k) <==> Covered(ls, k) || l.start <= k < l.end
  {
    assert l in ls + [l];
    assert forall m | m in ls :: m in ls + [l];
  }

  /** Blanking one more character of the last literal. */
  lemma BlankNext(text: string, s: string, ls: seq<Literal>, l: Literal, text': string)
    requires Shows(text, s, ls + [l]) && l.start <= l.end <= |s|
    requires text' == if l.end >= |text| then text + [' '] else if text[l.end] != '\n' then text[l.end := ' '] else text
    ensures Shows(text', s, ls + [l.(end := l.end + 1)])
  {
    hide Covered;
    forall k: nat
      ensures Covered(ls + [l.(end := l.end + 1)], k) <==> Covered(ls + [l], k) || k == l.end
    {
      CoveredByMore(ls, l, k);
      CoveredByMore(ls, l.(end := l.end + 1), k);
    }
  }

  /** `maskLiterals`: the contents of literals are blanked, line ends and everything
      else stay. The text keeps its length unless the source dangles: then the
      assignment past the last character makes it one longer. */
  method MaskLiterals(source: string, literals: seq<Literal>) returns (masked: string)
    requires literals == Literals(source)
    ensures |masked| == |source| + if Dangles(source, 0, Code(Top)) then 1 else 0
    ensures forall k | 0 <= k < |masked| :: masked[k] == MaskedAt(source, literals, k)
  {
    hide Lex, Dangles, Covered, Shows, MaskedAt, Ordered, Fits;
    LexOrdered(source, 0, Code(Top));
    assert Frontier(source, 0, Code(Top)) == 0;
    var characters := source;
    ShowsSource(source);
    for n := 0 to |literals|
      invariant Shows(characters, source, literals[..n])
    {
      FitsAt(source, literals, n);
      characters := Blank(source, characters, literals[..n], literals[n]);
      assert literals[..n + 1] == literals[..n] + [literals[n]];
    }
    assert literals[..|literals|] == literals;
    ShowsAll(source, characters);
    return characters;
  }

  lemma ShowsSource(s: string)
    ensures Shows(s, s, [])
  {
  }

  lemma FitsAt(s: string, ls: seq<Literal>, n: nat)
    requires n < |ls| && Ordered(s, 0, ls)
    ensures Fits(s, ls[n])
  {
  }

  lemma ShowsAll(s: string, text: string)
    requires Shows(text, s, Literals(s))
    ensures |text| == |s| + if Dangles(s, 0, Code(Top)) then 1 else 0
    ensures forall k | 0 <= k < |text| :: text[k] == MaskedAt(s, Literals(s), k)
  {
    hide Lex, Dangles, Covered, MaskedAt;
    DanglingLiteral(s, 0, Code(Top));
    CoveredEnd(s, Literals(s));
  }

  lemma CoveredEnd(s: string, ls: seq<Literal>)
    ensures Covered(ls, |s|) <==> exists l | l in ls :: l.start <= |s| < l.end
  {
  }

  /** Blanks the contents of one literal. */
  method Blank(source: string, text: string, ghost ls: seq<Literal>, l: Literal) returns (characters: string)
    requires Shows(text, source, ls) && Fits(source, l)
    ensures Shows(characters, source, ls + [l])
  {
    hide Covered;
    characters := text;
    var index := l.start;
    forall k: nat
      ensures Covered(ls + [l.(end := index)], k) <==> Covered(ls, k)
      ensures l.end <= l.start ==> (Covered(ls + [l], k) <==> Covered(ls, k))
    {
      CoveredByMore(ls, l.(end := index), k);
      CoveredByMore(ls, l, k);
    }
    while index < l.end
      invariant l.start <= index && (index <= l.end || (l.end <= l.start && Shows(characters, source, ls + [l])))
      invariant Shows(characters, source, ls + [l.(end := index)])
    {
      ghost var before := characters;
      if index >= |characters| {
        characters := characters + [' '];
      } else if characters[index] != '\n' {
        characters := characters[index := ' '];
      }
      BlankNext(before, source, ls, l.(end := index), characters);
      index := index + 1;
    }
    assert index == l.end ==> l.(end := index) == l;
  }

  /** A source that does not end in a backslash keeps its length, and so the place
      of everything outside its literals, when it is masked. */
  lemma MaskKeepsPlaces(source: string, masked: string)
    requires source == "" || source[|source| - 1] != '\\'
    requires |masked| == |source| + if Dangles(source, 0, Code(Top)) then 1 else 0
    requires forall k | 0 <= k < |masked| :: masked[k] == MaskedAt(source, Literals(source), k)
    ensures |masked| == |source|
    ensures forall k | 0 <= k < |source| :: (source[k] == '\n' || !Covered(Literals(source), k)) ==> masked[k] == source[k]
    ensures forall k | 0 <= k < |source| :: source[k] != '\n' && Covered(Literals(source), k) ==> masked[k] == ' '
  {
    NoDangling(source, 0, Code(Top));
  }

  /** Its non-empty literals lie inside the source, in order, without overlap. */
  lemma LiteralsInPlace(source: string)
    requires source == "" || source[|source| - 1] != '\\'
    ensures Ordered(source, 0, Literals(source))
    ensures forall l | l in Literals(source) :: IsEmpty(l) || (l.end <= |source| && l.content == source[l.start..l.end])
  {
    LexOrdered(source, 0, Code(Top));
    NoDangling(source, 0, Code(Top));
    DanglingLiteral(source, 0, Code(Top));
    LexContents(source, 0, Code(Top));
    hide Lex, Dangles;
    forall l | l in Literals(source) && !IsEmpty(l)
      ensures l.end <= |source| && l.content == source[l.start..l.end]
    {
      assert Fits(source, l);
    }
  }

  lemma {:induction false} LexContents(s: string, i: nat, m: Mode)
    ensures forall l | l in Lex(s, i, m) :: l.content == Slice(s, l.start, l.end)
    decreases Left(s, i), Depth(m.around), if m.Code? then 0 else 1
  {
    if !Halted(s, i, m) {
      var n := Next(s, i, m);
      LexContents(s, n.at, n.mode);
    }
  }

  /** A lone quote and a backslash: masking makes the text one longer. */
  lemma DanglingExample()
    ensures Dangles("\"\\", 0, Code(Top))
    ensures Literals("\"\\") == [Literal(1, 3, "\\")]
  {
    var s := "\"\\";
    assert Next(s, 0, Code(Top)) == Step([], 1, Quoted(Top, '"', 1));
    assert Next(s, 1, Quoted(Top, '"', 1)) == Step([], 3, Quoted(Top, '"', 1));
    assert Slice(s, 1, 3) == "\\";
    assert Next(s, 3, Quoted(Top, '"', 1)) == Step([Literal(1, 3, "\\")], 3, Code(Top));
    assert Lex(s, 3, Code(Top)) == [];
    assert Lex(s, 3, Quoted(Top, '"', 1)) == [Literal(1, 3, "\\")];
    assert Lex(s, 1, Quoted(Top, '"', 1)) == [Literal(1, 3, "\\")];
  }
}
