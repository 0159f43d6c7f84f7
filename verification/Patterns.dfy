/** The regular expressions of the scripts, and that the hand-written tests of the
    model accept exactly their languages. */
module Patterns {
  import opened Values
  import opened Text
  import Instants
  import Observation
  import Receipts
  import PaidProbe

  type Ranges = seq<(char, char)>

  /** A word, a run of characters of a class, one pattern after another, or a choice. */
  datatype Pattern =
    | Word(text: string)
    | Run(ranges: Ranges, least: nat, most: Option<nat>)
    | Then(first: Pattern, rest: Pattern)
    | Either(one: Pattern, other: Pattern)

  predicate InRanges(ranges: Ranges, c: char) {
    exists k | 0 <= k < |ranges| :: ranges[k].0 <= c <= ranges[k].1
  }

  /** `^pattern$` */
  predicate Matches(p: Pattern, s: string) {
    match p
    case Word(text) => s == text
    case Run(ranges, least, most) =>
      least <= |s| && (most.Some? ==> |s| <= most.value) && forall i | 0 <= i < |s| :: InRanges(ranges, s[i])
    case Then(first, rest) => exists k | 0 <= k <= |s| :: Matches(first, s[..k]) && Matches(rest, s[k..])
    case Either(one, other) => Matches(one, s) || Matches(other, s)
  }

  // ----- Patterns of a known width -----

  function Exactly(ranges: Ranges, n: nat): Pattern {
    Run(ranges, n, Some(n))
  }

  function Width(p: Pattern): Option<nat> {
    match p
    case Word(text) => Some(|text|)
    case Run(_, least, most) => if most == Some(least) then Some(least) else None
    case _ => None
  }

  /** Where the first part has a known width, there is one way to split. */
  lemma SplitAt(first: Pattern, rest: Pattern, s: string)
    requires Width(first).Some?
    ensures var w := Width(first).value;
            Matches(Then(first, rest), s) <==> w <= |s| && Matches(first, s[..w]) && Matches(rest, s[w..])
  {
    var w := Width(first).value;
    forall k | 0 <= k <= |s| && Matches(first, s[..k])
      ensures k == w
    {
      assert |s[..k]| == k;
    }
  }

  // ----- Classes -----

  const DIGIT: Ranges := [('0', '9')]
  const NONZERO: Ranges := [('1', '9')]
  const HEX: Ranges := [('0', '9'), ('a', 'f')]
  const LOWER: Ranges := [('a', 'z')]
  const LETTER: Ranges := [('A', 'Z'), ('a', 'z')]
  const ALNUM: Ranges := [('A', 'Z'), ('a', 'z'), ('0', '9')]
  const WORD: Ranges := [('A', 'Z'), ('a', 'z'), ('0', '9'), ('_', '_')]
  const DOTTED: Ranges := [('A', 'Z'), ('a', 'z'), ('0', '9'), ('.', '.'), ('_', '_'), ('-', '-')]
  const REFERENCE_TAIL: Ranges := [('A', 'Z'), ('a', 'z'), ('0', '9'), ('.', '.'), ('_', '_'), (':', ':'), ('-', '-')]
  const METER_TAIL: Ranges := [('a', 'z'), ('0', '9'), ('.', '.'), ('-', '-')]
  const VISIBLE: Ranges := [('!', '~')]

  lemma Classes(c: char)
    ensures InRanges(DIGIT, c) <==> Digit(c)
    ensures InRanges(NONZERO, c) <==> Digit(c) && c != '0'
    ensures InRanges(HEX, c) <==> LowerHex(c)
    ensures InRanges(LOWER, c) <==> 'a' <= c <= 'z'
    ensures InRanges(LETTER, c) <==> Alnum(c) && !Digit(c)
    ensures InRanges(ALNUM, c) <==> Alnum(c)
    ensures InRanges(WORD, c) <==> Alnum(c) || c == '_'
    ensures InRanges(VISIBLE, c) <==> '!' <= c <= '~'
  {
    assert forall k | 0 <= k < 1 :: DIGIT[k] == ('0', '9') && NONZERO[k] == ('1', '9') && VISIBLE[k] == ('!', '~');
    assert HEX[0] == ('0', '9') && HEX[1] == ('a', 'f') && LOWER[0] == ('a', 'z');
    assert LETTER[0] == ('A', 'Z') && LETTER[1] == ('a', 'z');
    assert ALNUM[0] == ('A', 'Z') && ALNUM[1] == ('a', 'z') && ALNUM[2] == ('0', '9');
    assert WORD[0] == ('A', 'Z') && WORD[1] == ('a', 'z') && WORD[2] == ('0', '9') && WORD[3] == ('_', '_');
  }

  lemma Tails(c: char)
    ensures InRanges(DOTTED, c) <==> Alnum(c) || c in "._-"
    ensures InRanges(REFERENCE_TAIL, c) <==> Alnum(c) || c in "._:-"
    ensures InRanges(METER_TAIL, c) <==> 'a' <= c <= 'z' || Digit(c) || c in ".-"
  {
    assert DOTTED[0] == ('A', 'Z') && DOTTED[1] == ('a', 'z') && DOTTED[2] == ('0', '9');
    assert DOTTED[3] == ('.', '.') && DOTTED[4] == ('_', '_') && DOTTED[5] == ('-', '-');
    var r := REFERENCE_TAIL;
    assert r[0] == ('A', 'Z') && r[1] == ('a', 'z') && r[2] == ('0', '9');
    assert r[3] == ('.', '.') && r[4] == ('_', '_') && r[5] == (':', ':') && r[6] == ('-', '-');
    assert METER_TAIL[0] == ('a', 'z') && METER_TAIL[1] == ('0', '9') && METER_TAIL[2] == ('.', '.') && METER_TAIL[3] == ('-', '-');
  }

  // ----- Identifiers -----

  const REFERENCE := Then(Exactly(ALNUM, 1), Run(REFERENCE_TAIL, 0, Some(127)))
  const METER := Then(Exactly(LOWER, 1), Run(METER_TAIL, 0, Some(127)))
  const UNIT := Then(Exactly(LETTER, 1), Run(DOTTED, 0, Some(63)))
  const REVISION := Then(Exactly(ALNUM, 1), Run(DOTTED, 0, Some(127)))
  const SAFE_HEADER := Run(VISIBLE, 1, Some(256))
  const SHA := Then(Word("sha256:"), Exactly(HEX, 64))
  const HEAD := Exactly(HEX, 40)

  function Identifier(prefix: string): Pattern {
    Then(Word(prefix), Run(WORD, 1, Some(240)))
  }

  /** One character of a class, and then a bounded run of another. */
  lemma HeadAndTail(head: Ranges, tail: Ranges, most: nat, s: string)
    ensures Matches(Then(Exactly(head, 1), Run(tail, 0, Some(most))), s) <==>
            1 <= |s| <= most + 1 && InRanges(head, s[0]) && forall i | 1 <= i < |s| :: InRanges(tail, s[i])
  {
    hide InRanges;
    SplitAt(Exactly(head, 1), Run(tail, 0, Some(most)), s);
    if |s| >= 1 {
      assert s[..1][0] == s[0];
      var rest := s[1..];
      assert forall i | 0 <= i < |rest| :: rest[i] == s[i + 1];
      assert forall i | 1 <= i < |s| :: s[i] == rest[i - 1];
    }
  }

  lemma AllClasses()
    ensures forall c :: InRanges(DIGIT, c) <==> Digit(c)
    ensures forall c :: InRanges(NONZERO, c) <==> Digit(c) && c != '0'
    ensures forall c :: InRanges(HEX, c) <==> LowerHex(c)
    ensures forall c :: InRanges(LOWER, c) <==> 'a' <= c <= 'z'
    ensures forall c :: InRanges(LETTER, c) <==> Alnum(c) && !Digit(c)
    ensures forall c :: InRanges(ALNUM, c) <==> Alnum(c)
    ensures forall c :: InRanges(WORD, c) <==> Alnum(c) || c == '_'
    ensures forall c :: InRanges(VISIBLE, c) <==> '!' <= c <= '~'
    ensures forall c :: InRanges(DOTTED, c) <==> Alnum(c) || c in "._-"
    ensures forall c :: InRanges(REFERENCE_TAIL, c) <==> Alnum(c) || c in "._:-"
    ensures forall c :: InRanges(METER_TAIL, c) <==> 'a' <= c <= 'z' || Digit(c) || c in ".-"
  {
    hide InRanges, Digit, Alnum, LowerHex;
    forall c: char
      ensures InRanges(DIGIT, c) <==> Digit(c)
      ensures InRanges(NONZERO, c) <==> Digit(c) && c != '0'
      ensures InRanges(HEX, c) <==> LowerHex(c)
      ensures InRanges(LOWER, c) <==> 'a' <= c <= 'z'
      ensures InRanges(LETTER, c) <==> Alnum(c) && !Digit(c)
      ensures InRanges(ALNUM, c) <==> Alnum(c)
      ensures InRanges(WORD, c) <==> Alnum(c) || c == '_'
      ensures InRanges(VISIBLE, c) <==> '!' <= c <= '~'
      ensures InRanges(DOTTED, c) <==> Alnum(c) || c in "._-"
      ensures InRanges(REFERENCE_TAIL, c) <==> Alnum(c) || c in "._:-"
      ensures InRanges(METER_TAIL, c) <==> 'a' <= c <= 'z' || Digit(c) || c in ".-"
    {
      Classes(c);
      Tails(c);
    }
  }

  /** References, units and revisions are spelled as their patterns say. */
  lemma NamesMatch(s: string)
    ensures IsReference(s) <==> Matches(REFERENCE, s)
    ensures Observation.IsUnit(s) <==> Matches(UNIT, s)
    ensures Observation.IsRevision(s) <==> Matches(REVISION, s)
  {
    hide InRanges, Matches;
    AllClasses();
    HeadAndTail(ALNUM, REFERENCE_TAIL, 127, s);
    HeadAndTail(LETTER, DOTTED, 63, s);
    HeadAndTail(ALNUM, DOTTED, 127, s);
  }

  predicate DotsAt(s: string, i: nat) {
    i + 2 <= |s| && s[i..i + 2] == ".."
  }

  /** So are meters, which also have no two dots in a row. */
  lemma MetersMatch(s: string)
    ensures Observation.IsMeter(s) <==> Matches(METER, s) && !exists i: nat :: DotsAt(s, i)
  {
    hide InRanges, Matches, DotsAt;
    AllClasses();
    HeadAndTail(LOWER, METER_TAIL, 127, s);
    forall i | 0 <= i < |s| - 1
      ensures DotsAt(s, i) <==> s[i] == '.' && s[i + 1] == '.'
    {
      TwoDots(s, i);
    }
    if i: nat :| DotsAt(s, i) {
      TwoDots(s, i);
    }
  }

  lemma TwoDots(s: string, i: nat)
    ensures DotsAt(s, i) <==> i + 2 <= |s| && s[i] == '.' && s[i + 1] == '.'
  {
    if i + 2 <= |s| {
      assert s[i..i + 2] == [s[i], s[i + 1]];
    }
  }

  /** So are digests, commits and visible headers. */
  lemma DigestsMatch(s: string)
    ensures IsSha256(s) <==> Matches(SHA, s)
    ensures IsHex(s, 40) <==> Matches(HEAD, s)
    ensures PaidProbe.IsSafeHeader(s) <==> Matches(SAFE_HEADER, s)
  {
    hide InRanges;
    AllClasses();
    SplitAt(Word("sha256:"), Exactly(HEX, 64), s);
    assert |s| >= 7 ==> ("sha256:" <= s <==> s[..7] == "sha256:");
  }

  /** And Stripe's identifiers. */
  lemma IdentifiersMatch(s: string, prefix: string)
    ensures Receipts.IsIdentifier(Str(s), prefix) <==> Matches(Identifier(prefix + "_"), s)
  {
    hide InRanges;
    AllClasses();
    var word := prefix + "_";
    SplitAt(Word(word), Run(WORD, 1, Some(240)), s);
    if |word| <= |s| {
      var rest := s[|word|..];
      assert forall i | 0 <= i < |rest| :: rest[i] == s[i + |word|];
      assert forall i | |word| <= i < |s| :: s[i] == rest[i - |word|];
    }
  }

  // ----- Numbers -----

  const DECIMAL := Either(Word("0"), Then(Exactly(NONZERO, 1), Run(DIGIT, 0, None)))
  const FRACTION := Then(Word("."), Then(Run(DIGIT, 0, Some(17)), Exactly(NONZERO, 1)))
  const QUANTITY := Then(DECIMAL, Either(Word(""), FRACTION))

  lemma DecimalsMatch(s: string)
    ensures IsCanonicalDecimal(s) <==> Matches(DECIMAL, s)
  {
    hide InRanges;
    AllClasses();
    SplitAt(Exactly(NONZERO, 1), Run(DIGIT, 0, None), s);
    if s != "" {
      var rest := s[1..];
      assert s[..1][0] == s[0];
      assert forall i | 0 <= i < |rest| :: rest[i] == s[i + 1];
      assert forall i | 1 <= i < |s| :: s[i] == rest[i - 1];
      if s[0] == '0' && |s| == 1 {
        assert s == "0";
      }
    }
  }

  /** Digits of which the last is not zero. */
  lemma DigitsMatch(s: string)
    ensures Matches(Then(Run(DIGIT, 0, Some(17)), Exactly(NONZERO, 1)), s) <==>
            1 <= |s| <= 18 && AllDigits(s) && s[|s| - 1] != '0'
  {
    hide InRanges;
    AllClasses();
    var digits, last := Run(DIGIT, 0, Some(17)), Exactly(NONZERO, 1);
    if Matches(Then(digits, last), s) {
      var k :| 0 <= k <= |s| && Matches(digits, s[..k]) && Matches(last, s[k..]);
      assert k == |s| - 1 && s[k..][0] == s[k];
      assert forall i | 0 <= i < k :: s[i] == s[..k][i];
    }
    if 1 <= |s| <= 18 && AllDigits(s) && s[|s| - 1] != '0' {
      var k := |s| - 1;
      assert s[k..] == [s[k]];
      assert Matches(digits, s[..k]) && Matches(last, s[k..]);
    }
  }

  lemma FractionsMatch(s: string)
    ensures Matches(FRACTION, s) <==>
            2 <= |s| <= 19 && s[0] == '.' && AllDigits(s[1..]) && s[|s| - 1] != '0'
  {
    hide InRanges, AllDigits;
    var digits := Then(Run(DIGIT, 0, Some(17)), Exactly(NONZERO, 1));
    SplitAt(Word("."), digits, s);
    if s != "" {
      assert s[..1] == "." <==> s[0] == '.';
      DigitsMatch(s[1..]);
      hide Matches;
    }
  }

  /** A fraction starts at `k` and goes to the end. */
  predicate FractionFrom(s: string, k: nat) {
    k + 2 <= |s| <= k + 19 && s[k] == '.' && AllDigits(s[k + 1..]) && s[|s| - 1] != '0'
  }

  lemma SplitAnywhere(first: Pattern, rest: Pattern, s: string)
    ensures Matches(Then(first, rest), s) <==> exists k | 0 <= k <= |s| :: Matches(first, s[..k]) && Matches(rest, s[k..])
  {
  }

  lemma QuantityParts(s: string, k: nat)
    requires k <= |s|
    ensures Matches(DECIMAL, s[..k]) && Matches(Either(Word(""), FRACTION), s[k..]) <==>
            IsCanonicalDecimal(s[..k]) && (k == |s| || FractionFrom(s, k))
  {
    hide DECIMAL, FRACTION, IsCanonicalDecimal, AllDigits;
    DecimalsMatch(s[..k]);
    FractionsMatch(s[k..]);
    if k < |s| {
      assert s[k..][1..] == s[k + 1..];
    }
  }

  lemma QuantitiesMatch(s: string)
    ensures Observation.IsQuantity(s) <==> |s| <= 256 && Matches(QUANTITY, s)
  {
    hide Matches, DECIMAL, FRACTION, IsCanonicalDecimal, AllDigits;
    var end := Either(Word(""), FRACTION);
    SplitAnywhere(DECIMAL, end, s);
    forall k: nat | k <= |s|
      ensures Matches(DECIMAL, s[..k]) && Matches(end, s[k..]) <==>
              IsCanonicalDecimal(s[..k]) && (k == |s| || FractionFrom(s, k))
    {
      QuantityParts(s, k);
    }
    assert s[..|s|] == s;
    if IsCanonicalDecimal(s) {
      assert Matches(DECIMAL, s[..|s|]) && Matches(end, s[|s|..]);
    }
  }

  // ----- Dates -----

  const DATE := Then(Exactly(DIGIT, 4), Then(Word("-"), Then(Exactly(DIGIT, 2), Then(Word("-"), Exactly(DIGIT, 2)))))

  const SECONDS := Then(Exactly(DIGIT, 2), Then(Word("."), Then(Exactly(DIGIT, 3), Word("Z"))))
  const TIME := Then(Exactly(DIGIT, 2), Then(Word(":"), Then(Exactly(DIGIT, 2), Then(Word(":"), SECONDS))))
  const DAY := Then(Exactly(DIGIT, 2), Then(Word("T"), TIME))
  const INSTANT := Then(Exactly(DIGIT, 4), Then(Word("-"), Then(Exactly(DIGIT, 2), Then(Word("-"), DAY))))

  /** A field of digits, a separator, and the rest. */
  lemma FieldAndRest(n: nat, separator: char, rest: Pattern, s: string)
    ensures Matches(Then(Exactly(DIGIT, n), Then(Word([separator]), rest)), s) <==>
            n + 1 <= |s| && AllDigits(s[..n]) && s[n] == separator && Matches(rest, s[n + 1..])
  {
    hide InRanges;
    AllClasses();
    SplitAt(Exactly(DIGIT, n), Then(Word([separator]), rest), s);
    if n <= |s| {
      SplitAt(Word([separator]), rest, s[n..]);
      if n < |s| {
        assert s[n..][..1] == [s[n]];
        assert s[n..][1..] == s[n + 1..];
      }
    }
  }

  lemma DatesMatch(s: string)
    ensures Receipts.IsDate(s) <==> Matches(DATE, s)
  {
    hide InRanges, Matches;
    var month := Then(Exactly(DIGIT, 2), Then(Word("-"), Exactly(DIGIT, 2)));
    FieldAndRest(4, '-', month, s);
    if |s| >= 5 {
      FieldAndRest(2, '-', Exactly(DIGIT, 2), s[5..]);
      if |s| >= 8 {
        assert s[5..][3..] == s[8..] && s[5..][..2] == s[5..7] && s[5..][2] == s[7];
        LastField(2, s[8..]);
        DateFields(s);
      }
    }
  }

  lemma LastField(n: nat, s: string)
    ensures Matches(Exactly(DIGIT, n), s) <==> |s| == n && AllDigits(s)
  {
    hide InRanges;
    AllClasses();
  }

  lemma DateFields(s: string)
    requires |s| >= 8
    ensures Receipts.IsDate(s) <==>
            |s| == 10 && AllDigits(s[..4]) && s[4] == '-' && AllDigits(s[5..7]) && s[7] == '-' && AllDigits(s[8..])
  {
    if |s| == 10 && AllDigits(s[..4]) && s[4] == '-' && AllDigits(s[5..7]) && s[7] == '-' && AllDigits(s[8..]) {
      forall i | 0 <= i < 10 && i != 4 && i != 7
        ensures Digit(s[i])
      {
        assert if i < 4 then s[i] == s[..4][i] else if i < 7 then s[i] == s[5..7][i - 5] else s[i] == s[8..][i - 8];
      }
    }
  }

  /** An instant has the shape of its pattern. */
  lemma InstantsMatch(s: string)
    ensures Instants.WellShaped(s) <==> Matches(INSTANT, s)
  {
    hide InRanges, Matches, AllDigits;
    FieldAndRest(4, '-', Then(Exactly(DIGIT, 2), Then(Word("-"), DAY)), s);
    if |s| >= 5 {
      FieldAndRest(2, '-', DAY, s[5..]);
      if |s| >= 8 {
        FromDay(s);
      }
    }
  }

  lemma FromDay(s: string)
    requires |s| >= 8
    ensures s[5..][3..] == s[8..] && s[5..][..2] == s[5..7] && s[5..][2] == s[7]
    ensures Matches(DAY, s[8..]) <==>
            |s| == 24 && AllDigits(s[8..10]) && s[10] == 'T' && AllDigits(s[11..13]) && s[13] == ':' &&
            AllDigits(s[14..16]) && s[16] == ':' && AllDigits(s[17..19]) && s[19] == '.' && AllDigits(s[20..23]) && s[23] == 'Z'
  {
    hide InRanges, Matches, AllDigits;
    FieldAndRest(2, 'T', TIME, s[8..]);
    if |s| >= 11 {
      assert s[8..][3..] == s[11..] && s[8..][..2] == s[8..10] && s[8..][2] == s[10];
      FromHour(s);
    }
  }

  lemma FromHour(s: string)
    requires |s| >= 11
    ensures Matches(TIME, s[11..]) <==>
            |s| == 24 && AllDigits(s[11..13]) && s[13] == ':' && AllDigits(s[14..16]) && s[16] == ':' &&
            AllDigits(s[17..19]) && s[19] == '.' && AllDigits(s[20..23]) && s[23] == 'Z'
  {
    hide InRanges, Matches, AllDigits;
    FieldAndRest(2, ':', Then(Exactly(DIGIT, 2), Then(Word(":"), SECONDS)), s[11..]);
    if |s| >= 14 {
      assert s[11..][3..] == s[14..] && s[11..][..2] == s[11..13] && s[11..][2] == s[13];
      FieldAndRest(2, ':', SECONDS, s[14..]);
      if |s| >= 17 {
        assert s[14..][3..] == s[17..] && s[14..][..2] == s[14..16] && s[14..][2] == s[16];
        FromSecond(s);
      }
    }
  }

  lemma FromSecond(s: string)
    requires |s| >= 17
    ensures Matches(SECONDS, s[17..]) <==>
            |s| == 24 && AllDigits(s[17..19]) && s[19] == '.' && AllDigits(s[20..23]) && s[23] == 'Z'
  {
    hide InRanges, AllDigits;
    FieldAndRest(2, '.', Then(Exactly(DIGIT, 3), Word("Z")), s[17..]);
    if |s| >= 20 {
      var rest := s[20..];
      assert s[17..][3..] == rest && s[17..][..2] == s[17..19] && s[17..][2] == s[19];
      SplitAt(Exactly(DIGIT, 3), Word("Z"), rest);
      if |s| >= 23 {
        LastField(3, rest[..3]);
        assert rest[..3] == s[20..23];
        assert rest[3..] == "Z" <==> |s| == 24 && s[23] == 'Z';
      }
    }
  }
}
