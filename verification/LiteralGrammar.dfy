/** What the literals of a source are, told on its characters: which of them end a
    text, and how texts, comments and code follow one another. */
module LiteralGrammar {
  import opened Lexer

  // ----- Escapes -----

  /** The backslashes right before `k`, none counted before `from`. */
  function Backslashes(s: string, from: nat, k: nat): nat
    requires k <= |s|
  {
    if k <= from || s[k - 1] != '\\' then 0 else 1 + Backslashes(s, from, k - 1)
  }

  /** A character of a text that starts at `from` is escaped by an odd number of backslashes before it. */
  predicate Escaped(s: string, from: nat, k: nat)
    requires k <= |s|
  {
    Backslashes(s, from, k) % 2 == 1
  }

  lemma NextEscaped(s: string, from: nat, k: nat)
    requires from <= k < |s|
    ensures Escaped(s, from, k + 1) <==> s[k] == '\\' && !Escaped(s, from, k)
  {
  }

  // ----- Texts -----

  predicate EndsQuote(s: string, quote: char, k: nat)
    requires k < |s|
  {
    s[k] == quote || s[k] == '\n'
  }

  /** A quoted text goes to the first unescaped quote or line end, or to the end of
      the source; one past it when that is escaped. */
  predicate IsQuoted(s: string, quote: char, from: nat, end: nat) {
    && from <= end && from <= |s|
    && (forall k | from <= k < end && k < |s| :: Escaped(s, from, k) || !EndsQuote(s, quote, k))
    && if end < |s| then !Escaped(s, from, end) && EndsQuote(s, quote, end)
       else end == if Escaped(s, from, |s|) then |s| + 1 else |s|
  }

  predicate EndsTemplate(s: string, k: nat)
    requires k < |s|
  {
    s[k] == '`' || (s[k] == '$' && k + 1 < |s| && s[k + 1] == '{')
  }

  /** A template's text goes to the first unescaped backtick or hole, or to the end of the source. */
  predicate IsTemplateText(s: string, from: nat, end: nat) {
    && from <= end <= |s|
    && (forall k | from <= k < end :: Escaped(s, from, k) || !EndsTemplate(s, k))
    && (end < |s| ==> !Escaped(s, from, end) && EndsTemplate(s, end))
  }

  // ----- Comments -----

  predicate Pair(s: string, k: nat, a: char, b: char) {
    k + 1 < |s| && s[k] == a && s[k + 1] == b
  }

  /** A line comment goes to the line end. */
  predicate IsLineComment(s: string, from: nat, end: nat) {
    && Pair(s, from, '/', '/') && from <= end <= |s|
    && (forall k | from <= k < end :: s[k] != '\n') && (end < |s| ==> s[end] == '\n')
  }

  /** A block comment goes to its closing mark, or to the end of the source. */
  predicate IsBlockComment(s: string, from: nat, end: nat) {
    && Pair(s, from, '/', '*') && from + 2 <= end <= |s|
    && (forall k | from + 2 <= k < end :: !Pair(s, k, '*', '/')) && (end < |s| ==> Pair(s, end, '*', '/'))
  }

  // ----- How they follow one another -----

  /** Where the reading stands: in code, or in the text of a template. `holes` are
      the holes of templates around it, innermost last, with the braces open in each. */
  datatype Place = InCode(holes: seq<nat>) | InText(holes: seq<nat>)

  datatype Kind = Plain | LineNote | BlockNote | QuotedText | Backtick | OpenBrace | CloseBrace | TemplateText

  /** One piece of the source: where its text ends, where the next piece starts, and where that stands. */
  datatype Piece = Piece(kind: Kind, end: nat, next: nat, place: Place)

  predicate IsQuote(c: char) {
    c == '"' || c == '\''
  }

  predicate StartsNote(s: string, i: nat) {
    Pair(s, i, '/', '/') || Pair(s, i, '/', '*')
  }

  /** The piece of code at `i`. A closing brace at depth one ends the innermost hole. */
  predicate IsCodePiece(s: string, i: nat, holes: seq<nat>, p: Piece)
    requires i < |s|
  {
    match p.kind
    case LineNote => IsLineComment(s, i, p.end) && p.next == p.end && p.place == InCode(holes)
    case BlockNote =>
      // In a hole the closing slash is read again.
      IsBlockComment(s, i, p.end) && p.next == p.end + (if holes == [] then 2 else 1) && p.place == InCode(holes)
    case QuotedText =>
      && IsQuote(s[i]) && IsQuoted(s, s[i], i + 1, p.end) && p.place == InCode(holes)
      && p.next == if p.end < |s| && s[p.end] == s[i] then p.end + 1 else p.end
    case Backtick => s[i] == '`' && p.next == i + 1 && p.place == InText(holes)
    case OpenBrace =>
      && holes != [] && s[i] == '{' && p.next == i + 1
      && p.place == InCode(holes[|holes| - 1 := holes[|holes| - 1] + 1])
    case CloseBrace =>
      && holes != [] && s[i] == '}' && p.next == i + 1
      && var open, around := holes[|holes| - 1], holes[..|holes| - 1];
         p.place == if open <= 1 then InText(around) else InCode(around + [open - 1])
    case Plain =>
      && !StartsNote(s, i) && !IsQuote(s[i]) && s[i] != '`' && (holes != [] ==> s[i] != '{' && s[i] != '}')
      && p.next == i + 1 && p.place == InCode(holes)
    case TemplateText => false
  }

  /** The text of a template at `i`, with the backtick or the hole's opening after it. */
  predicate IsTextPiece(s: string, i: nat, holes: seq<nat>, p: Piece)
    requires i < |s|
  {
    && p.kind == TemplateText && IsTemplateText(s, i, p.end)
    && if p.end == |s| then p.next == |s| && p.place == InCode(holes)
       else if s[p.end] == '`' then p.next == p.end + 1 && p.place == InCode(holes)
       else p.next == p.end + 2 && p.place == InCode(holes + [1])
  }

  predicate IsPiece(s: string, i: nat, at: Place, p: Piece)
    requires i < |s|
  {
    match at
    case InCode(holes) => IsCodePiece(s, i, holes, p)
    case InText(holes) => IsTextPiece(s, i, holes, p)
  }

  /** The pieces cover the source from `i` on. */
  predicate Covers(s: string, i: nat, at: Place, ps: seq<Piece>)
    decreases |ps|
  {
    if ps == [] then i >= |s|
    else i < |s| && IsPiece(s, i, at, ps[0]) && Covers(s, ps[0].next, ps[0].place, ps[1..])
  }

  // ----- The literals -----

  function LiteralOf(s: string, i: nat, p: Piece): seq<Literal> {
    if p.kind == QuotedText then [Literal(i + 1, p.end, Slice(s, i + 1, p.end))]
    else if p.kind == TemplateText then [Literal(i, p.end, Slice(s, i, p.end))]
    else []
  }

  /** What is open at the end of the source counts as an empty text. */
  function LeftOpen(s: string, i: nat, at: Place): seq<Literal>
    decreases |at.holes|, if at.InText? then 1 else 0
  {
    match at
    case InText(holes) => [Literal(i, |s|, "")] + LeftOpen(s, |s|, InCode(holes))
    case InCode(holes) =>
      if holes == [] then []
      else
        var around := InCode(holes[..|holes| - 1]);
        [Literal(i, |s|, "")] + LeftOpen(s, |s|, around)
  }

  /** The texts among the pieces, and what is left open. */
  function Texts(s: string, i: nat, at: Place, ps: seq<Piece>): seq<Literal>
    decreases |ps|
  {
    if ps == [] then LeftOpen(s, i, at)
    else LiteralOf(s, i, ps[0]) + Texts(s, ps[0].next, ps[0].place, ps[1..])
  }

  // ----- The machine reads the pieces -----

  function ContextOf(holes: seq<nat>): Context {
    if holes == [] then Top else Hole(holes[|holes| - 1], ContextOf(holes[..|holes| - 1]))
  }

  function ModeOf(at: Place, i: nat): Mode {
    match at
    case InCode(holes) => Code(ContextOf(holes))
    case InText(holes) => Template(ContextOf(holes), i)
  }

  lemma LexStep(s: string, i: nat, m: Mode)
    requires !Halted(s, i, m)
    ensures Lex(s, i, m) == Next(s, i, m).out + Lex(s, Next(s, i, m).at, Next(s, i, m).mode)
  {
  }

  lemma {:induction false} QuotedReads(s: string, c: Context, quote: char, from: nat, k: nat, end: nat)
    requires IsQuoted(s, quote, from, end) && IsQuote(quote) && from <= k <= end && (k <= |s| ==> !Escaped(s, from, k))
    ensures Lex(s, k, Quoted(c, quote, from)) ==
            [Text(s, from, end)] + Lex(s, if end < |s| && s[end] == quote then end + 1 else end, Code(c))
    decreases end - k
  {
    hide Lex;
    LexStep(s, k, Quoted(c, quote, from));
    if k < end && k < |s| {
      NextEscaped(s, from, k);
      if s[k] == '\\' {
        assert k + 1 != end;
        if k + 1 < |s| {
          NextEscaped(s, from, k + 1);
        }
        QuotedReads(s, c, quote, from, k + 2, end);
      } else {
        QuotedReads(s, c, quote, from, k + 1, end);
      }
    }
  }

  /** After a text of a template. */
  function AfterText(s: string, c: Context, end: nat): seq<Literal> {
    if end >= |s| then Lex(s, |s|, Code(c))
    else if s[end] == '`' then Lex(s, end + 1, Code(c))
    else Lex(s, end + 2, Code(Hole(1, c)))
  }

  lemma {:induction false} TemplateReads(s: string, c: Context, from: nat, k: nat, end: nat)
    requires IsTemplateText(s, from, end) && from <= k && (k <= |s| ==> k <= end && !Escaped(s, from, k))
    requires k > |s| ==> end == |s|
    ensures Lex(s, k, Template(c, from)) == [Text(s, from, end)] + AfterText(s, c, end)
    decreases if k < end then end - k else 0
  {
    hide Lex;
    LexStep(s, k, Template(c, from));
    if k < end {
      NextEscaped(s, from, k);
      if s[k] == '\\' {
        if k + 1 < |s| {
          NextEscaped(s, from, k + 1);
        }
        TemplateReads(s, c, from, k + 2, end);
      } else {
        TemplateReads(s, c, from, k + 1, end);
      }
    }
  }

  lemma {:induction false} LineReads(s: string, c: Context, k: nat, end: nat)
    requires k <= end <= |s| && (forall j | k <= j < end :: s[j] != '\n') && (end < |s| ==> s[end] == '\n')
    ensures Lex(s, k, LineComment(c)) == Lex(s, end, Code(c))
    decreases end - k
  {
    hide Lex;
    LexStep(s, k, LineComment(c));
    if k < end {
      LineReads(s, c, k + 1, end);
    }
  }

  lemma {:induction false} BlockReads(s: string, c: Context, k: nat, end: nat)
    requires k <= end <= |s| && (forall j | k <= j < end :: !Pair(s, j, '*', '/')) && (end < |s| ==> Pair(s, end, '*', '/'))
    ensures Lex(s, k, BlockComment(c)) == Lex(s, if c.Top? then end + 2 else end + 1, Code(c))
    decreases end - k
  {
    hide Lex;
    LexStep(s, k, BlockComment(c));
    if k < end {
      assert !Pair(s, k, '*', '/');
      BlockReads(s, c, k + 1, end);
    }
  }

  lemma CodePieceReads(s: string, i: nat, holes: seq<nat>, p: Piece)
    requires i < |s| && IsCodePiece(s, i, holes, p)
    ensures Lex(s, i, Code(ContextOf(holes))) == LiteralOf(s, i, p) + Lex(s, p.next, ModeOf(p.place, p.next))
  {
    hide Lex, Escaped;
    var c := ContextOf(holes);
    LexStep(s, i, Code(c));
    match p.kind
    case LineNote =>
      assert i + 2 <= p.end;
      LineReads(s, c, i + 2, p.end);
    case BlockNote => BlockReads(s, c, i + 2, p.end);
    case QuotedText =>
      NotEscapedAtStart(s, i + 1);
      QuotedReads(s, c, s[i], i + 1, i + 1, p.end);
    case OpenBrace =>
      var deeper := holes[|holes| - 1 := holes[|holes| - 1] + 1];
      assert deeper[..|holes| - 1] == holes[..|holes| - 1];
    case CloseBrace =>
      var around := holes[..|holes| - 1];
      if holes[|holes| - 1] > 1 {
        assert (around + [holes[|holes| - 1] - 1])[..|around|] == around;
      }
    case _ =>
  }

  lemma NotEscapedAtStart(s: string, from: nat)
    requires from <= |s|
    ensures !Escaped(s, from, from)
  {
  }

  lemma TextPieceReads(s: string, i: nat, holes: seq<nat>, p: Piece)
    requires i < |s| && IsTextPiece(s, i, holes, p)
    ensures Lex(s, i, Template(ContextOf(holes), i)) == LiteralOf(s, i, p) + Lex(s, p.next, ModeOf(p.place, p.next))
  {
    hide Lex, Escaped;
    NotEscapedAtStart(s, i);
    TemplateReads(s, ContextOf(holes), i, i, p.end);
    assert (holes + [1])[..|holes|] == holes;
  }

  lemma {:induction false} EndReads(s: string, i: nat, at: Place)
    requires i >= |s|
    ensures Lex(s, i, ModeOf(at, i)) == LeftOpen(s, i, at)
    decreases |at.holes|, if at.InText? then 1 else 0
  {
    hide Lex;
    match at
    case InText(holes) =>
      LexStep(s, i, Template(ContextOf(holes), i));
      EndReads(s, |s|, InCode(holes));
    case InCode(holes) =>
      if holes == [] {
        NothingAfter(s, i);
      } else {
        var around := holes[..|holes| - 1];
        LexStep(s, i, Code(ContextOf(holes)));
        LexStep(s, i, Template(ContextOf(around), i));
        assert Slice(s, i, |s|) == "";
        EndReads(s, |s|, InCode(around));
        assert LeftOpen(s, i, at) == [Literal(i, |s|, "")] + LeftOpen(s, |s|, InCode(around));
      }
  }

  lemma NothingAfter(s: string, i: nat)
    requires i >= |s|
    ensures Lex(s, i, Code(Top)) == []
  {
  }

  lemma {:induction false} PiecesRead(s: string, i: nat, at: Place, ps: seq<Piece>)
    requires Covers(s, i, at, ps)
    ensures Lex(s, i, ModeOf(at, i)) == Texts(s, i, at, ps)
    decreases |ps|
  {
    hide Lex, IsCodePiece, IsTextPiece;
    if ps == [] {
      EndReads(s, i, at);
    } else {
      PiecesRead(s, ps[0].next, ps[0].place, ps[1..]);
      match at
      case InCode(holes) => CodePieceReads(s, i, holes, ps[0]);
      case InText(holes) => TextPieceReads(s, i, holes, ps[0]);
    }
  }

  // ----- Every source has its pieces -----

  lemma {:induction false} QuoteEnd(s: string, quote: char, from: nat, k: nat) returns (end: nat)
    requires from <= k <= |s| && forall j | from <= j < k :: Escaped(s, from, j) || !EndsQuote(s, quote, j)
    ensures IsQuoted(s, quote, from, end)
    decreases |s| - k
  {
    if k == |s| {
      end := if Escaped(s, from, |s|) then |s| + 1 else |s|;
    } else if !Escaped(s, from, k) && EndsQuote(s, quote, k) {
      end := k;
    } else {
      end := QuoteEnd(s, quote, from, k + 1);
    }
  }

  lemma {:induction false} TextEnd(s: string, from: nat, k: nat) returns (end: nat)
    requires from <= k <= |s| && forall j | from <= j < k :: Escaped(s, from, j) || !EndsTemplate(s, j)
    ensures IsTemplateText(s, from, end)
    decreases |s| - k
  {
    if k == |s| || (!Escaped(s, from, k) && EndsTemplate(s, k)) {
      end := k;
    } else {
      end := TextEnd(s, from, k + 1);
    }
  }

  lemma {:induction false} LineEnd(s: string, from: nat, k: nat) returns (end: nat)
    requires Pair(s, from, '/', '/') && from <= k <= |s| && forall j | from <= j < k :: s[j] != '\n'
    ensures IsLineComment(s, from, end)
    decreases |s| - k
  {
    if k == |s| || s[k] == '\n' {
      end := k;
    } else {
      end := LineEnd(s, from, k + 1);
    }
  }

  lemma {:induction false} BlockEnd(s: string, from: nat, k: nat) returns (end: nat)
    requires Pair(s, from, '/', '*') && from + 2 <= k <= |s| && forall j | from + 2 <= j < k :: !Pair(s, j, '*', '/')
    ensures IsBlockComment(s, from, end)
    decreases |s| - k
  {
    if k == |s| || Pair(s, k, '*', '/') {
      end := k;
    } else {
      end := BlockEnd(s, from, k + 1);
    }
  }

  lemma SomePiece(s: string, i: nat, at: Place) returns (p: Piece)
    requires i < |s|
    ensures IsPiece(s, i, at, p) && i <= p.next && (p.next == i ==> at.InText? && p.place.InCode?)
  {
    hide Escaped;
    match at
    case InText(holes) =>
      var end := TextEnd(s, i, i);
      p := if end == |s| then Piece(TemplateText, end, |s|, InCode(holes))
           else if s[end] == '`' then Piece(TemplateText, end, end + 1, InCode(holes))
           else Piece(TemplateText, end, end + 2, InCode(holes + [1]));
    case InCode(holes) =>
      if Pair(s, i, '/', '/') {
        var end := LineEnd(s, i, i);
        p := Piece(LineNote, end, end, at);
      } else if Pair(s, i, '/', '*') {
        var end := BlockEnd(s, i, i + 2);
        p := Piece(BlockNote, end, end + if holes == [] then 2 else 1, at);
      } else if IsQuote(s[i]) {
        var end := QuoteEnd(s, s[i], i + 1, i + 1);
        p := Piece(QuotedText, end, if end < |s| && s[end] == s[i] then end + 1 else end, at);
      } else if s[i] == '`' {
        p := Piece(Backtick, i, i + 1, InText(holes));
      } else if holes != [] && s[i] == '{' {
        p := Piece(OpenBrace, i, i + 1, InCode(holes[|holes| - 1 := holes[|holes| - 1] + 1]));
      } else if holes != [] && s[i] == '}' {
        var open, around := holes[|holes| - 1], holes[..|holes| - 1];
        p := Piece(CloseBrace, i, i + 1, if open <= 1 then InText(around) else InCode(around + [open - 1]));
      } else {
        p := Piece(Plain, i, i + 1, at);
      }
  }

  lemma {:induction false} SomePieces(s: string, i: nat, at: Place) returns (ps: seq<Piece>)
    ensures Covers(s, i, at, ps)
    decreases if i < |s| then |s| - i else 0, if at.InText? then 1 else 0
  {
    hide IsPiece;
    if i >= |s| {
      ps := [];
    } else {
      var p := SomePiece(s, i, at);
      var rest := SomePieces(s, p.next, p.place);
      ps := [p] + rest;
      assert ps[1..] == rest;
    }
  }

  /** Every source is covered by pieces, and its literals are exactly the quoted and
      template texts among them, with what is left open at its end. */
  lemma LiteralsAreTexts(s: string)
    ensures exists ps :: Covers(s, 0, InCode([]), ps)
    ensures forall ps | Covers(s, 0, InCode([]), ps) :: Literals(s) == Texts(s, 0, InCode([]), ps)
  {
    hide Lex, Covers, Texts;
    var some := SomePieces(s, 0, InCode([]));
    forall ps | Covers(s, 0, InCode([]), ps)
      ensures Literals(s) == Texts(s, 0, InCode([]), ps)
    {
      PiecesRead(s, 0, InCode([]), ps);
    }
  }
}
