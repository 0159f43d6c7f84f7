/** What a span of masked test code claims: the environment variables and the
    capabilities it names, directly or through `const` bindings. */
module GateClaims {
  import opened Values
  import opened Lexer
  import opened Spans

  datatype Capability = Capability(id: string, environment: string, companions: seq<string>)

  /** Names in source order, none twice. */
  datatype Claims = Claims(environments: seq<string>, capabilities: seq<string>)

  // ----- Names -----

  predicate NameStart(c: char) {
    'A' <= c <= 'Z' || 'a' <= c <= 'z' || c == '_'
  }

  predicate NamePart(c: char) {
    NameStart(c) || '0' <= c <= '9'
  }

  predicate WordPart(c: char) {
    NamePart(c) || c == '$'
  }

  predicate Blank(c: char) {
    c in {' ', '\t', '\n', '\r', '\U{000B}', '\U{000C}', '\U{00A0}', '\U{FEFF}', '\U{1680}', '\U{2028}', '\U{2029}',
          '\U{202F}', '\U{205F}', '\U{3000}'} || '\U{2000}' <= c <= '\U{200A}'
  }

  /** The end of the run of such characters from `i` on. */
  function RunEnd(s: string, i: nat, part: char -> bool): (e: nat)
    requires i <= |s|
    ensures i <= e <= |s| && (forall k | i <= k < e :: part(s[k])) && (e < |s| ==> !part(s[e]))
    decreases |s| - i
  {
    if i == |s| || !part(s[i]) then i else RunEnd(s, i + 1, part)
  }

  lemma RunEndOnce(s: string, i: nat, part: char -> bool, e: nat)
    requires i <= e <= |s| && (forall k | i <= k < e :: part(s[k])) && (e < |s| ==> !part(s[e]))
    ensures RunEnd(s, i, part) == e
  {
  }

  // ----- Lists without repetition -----

  function AddNew(list: seq<string>, names: seq<string>): seq<string>
    decreases |names|
  {
    if names == [] then list
    else
      var before := AddNew(list, names[..|names| - 1]);
      var last := names[|names| - 1];
      if last in before then before else before + [last]
  }

  predicate Distinct(list: seq<string>) {
    forall j, k | 0 <= j < k < |list| :: list[j] != list[k]
  }

  lemma {:induction false} AddNewIsUnion(list: seq<string>, names: seq<string>)
    ensures forall x :: x in AddNew(list, names) <==> x in list || x in names
    ensures Distinct(list) ==> Distinct(AddNew(list, names))
    ensures list <= AddNew(list, names)
    decreases |names|
  {
    if names != [] {
      AddNewIsUnion(list, names[..|names| - 1]);
      assert names == names[..|names| - 1] + [names[|names| - 1]];
    }
  }

  method Push(list: seq<string>, names: seq<string>) returns (r: seq<string>)
    ensures r == AddNew(list, names)
  {
    r := list;
    for n := 0 to |names|
      invariant r == AddNew(list, names[..n])
    {
      assert names[..n + 1][..n] == names[..n];
      if names[n] !in r {
        r := r + [names[n]];
      }
    }
    assert names[..|names|] == names;
  }

  // ----- Environment references -----

  const PREFIX := "process.env."

  /** A reference at `i` reads this name. */
  predicate Refers(text: string, i: nat, name: string) {
    && Occurs(text, "process.env.", i)
    && exists e: nat | i + 12 < e <= |text| ::
         name == text[i + 12..e] && NameStart(text[i + 12]) && (forall k | i + 12 <= k < e :: NamePart(text[k])) &&
         (e < |text| ==> !NamePart(text[e]))
  }

  function NameAfter(text: string, i: nat): seq<string>
    requires Occurs(text, PREFIX, i)
  {
    var at := i + |PREFIX|;
    if at < |text| && NameStart(text[at]) then [text[at..RunEnd(text, at, NamePart)]] else []
  }

  /** The names referred to from `i` on, in order. */
  function References(text: string, i: nat): seq<string>
    decreases |text| - i
  {
    if i >= |text| then []
    else (if Occurs(text, PREFIX, i) then NameAfter(text, i) else []) + References(text, i + 1)
  }

  lemma {:induction false} ReferencesExactly(text: string, i: nat, name: string)
    ensures name in References(text, i) <==> exists k | i <= k < |text| :: Refers(text, k, name)
    decreases |text| - i
  {
    hide Refers, Occurs;
    if i < |text| {
      ReferencesExactly(text, i + 1, name);
      ReferenceAt(text, i, name);
    }
  }

  lemma ReferenceAt(text: string, i: nat, name: string)
    ensures Refers(text, i, name) <==> Occurs(text, PREFIX, i) && name in NameAfter(text, i)
  {
    var at := i + |PREFIX|;
    if Occurs(text, PREFIX, i) && at < |text| && NameStart(text[at]) {
      var end := RunEnd(text, at, NamePart);
      forall e: nat | at < e <= |text| && (forall k | at <= k < e :: NamePart(text[k])) && (e < |text| ==> !NamePart(text[e]))
        ensures e == end
      {
        RunEndOnce(text, at, NamePart, e);
      }
    }
  }

  lemma {:induction false} NoReference(text: string, i: nat, j: nat)
    requires i <= j && forall k: nat | i <= k < j :: !Occurs(text, PREFIX, k)
    ensures References(text, i) == References(text, j)
    decreases j - i
  {
    if i < j {
      NoReference(text, i + 1, j);
    }
  }

  /** The prefix cannot overlap itself. */
  lemma NoOverlap(text: string, i: nat, j: nat)
    requires Occurs(text, PREFIX, i) && i < j < i + |PREFIX|
    ensures !Occurs(text, PREFIX, j)
  {
    assert text[i..i + |PREFIX|][j - i] == text[j];
  }

  /** `environmentReferences` */
  method EnvironmentReferences(text: string) returns (found: seq<string>)
    ensures found == References(text, 0)
  {
    hide Occurs, Refers;
    found := [];
    var cursor := 0;
    while true
      invariant References(text, 0) == found + References(text, cursor)
      decreases |text| - cursor
    {
      var at := IndexOf(text, PREFIX, cursor);
      if at.None? {
        if cursor < |text| {
          NoReference(text, cursor, |text|);
        }
        break;
      }
      OccursInside(text, PREFIX, at.value);
      NoReference(text, cursor, at.value);
      forall k: nat | at.value < k < at.value + |PREFIX|
        ensures !Occurs(text, PREFIX, k)
      {
        NoOverlap(text, at.value, k);
      }
      NoReference(text, at.value + 1, at.value + |PREFIX|);
      found := found + NameAfter(text, at.value);
      cursor := at.value + |PREFIX|;
    }
  }

  lemma OccursInside(s: string, needle: string, i: nat)
    requires Occurs(s, needle, i)
    ensures i + |needle| <= |s|
  {
  }

  // ----- Capability calls -----

  const CALL := "nativeEvidenceBinary("

  predicate Within(l: Literal, span: Span) {
    span.start <= l.start && l.end <= span.end
  }

  function InSpan(ls: seq<Literal>, span: Span): seq<Literal> {
    if ls == [] then [] else (if Within(ls[0], span) then [ls[0]] else []) + InSpan(ls[1..], span)
  }

  function Insert(l: Literal, ls: seq<Literal>): seq<Literal> {
    if ls == [] || l.start <= ls[0].start then [l] + ls else [ls[0]] + Insert(l, ls[1..])
  }

  /** The stable sort by where a literal starts. */
  function ByStart(ls: seq<Literal>): seq<Literal> {
    if ls == [] then [] else Insert(ls[0], ByStart(ls[1..]))
  }

  predicate Ascending(ls: seq<Literal>) {
    forall j, k | 0 <= j < k < |ls| :: ls[j].start <= ls[k].start
  }

  lemma Prepend(l: Literal, ls: seq<Literal>)
    requires Ascending(ls) && forall x | x in ls :: l.start <= x.start
    ensures Ascending([l] + ls)
  {
  }

  lemma {:induction false} InsertKeeps(l: Literal, ls: seq<Literal>)
    requires Ascending(ls)
    ensures Ascending(Insert(l, ls)) && multiset(Insert(l, ls)) == multiset([l] + ls)
    ensures forall x | x in Insert(l, ls) :: x == l || x in ls
  {
    if ls == [] || l.start <= ls[0].start {
      Prepend(l, ls);
    } else {
      InsertKeeps(l, ls[1..]);
      assert ls == [ls[0]] + ls[1..];
      Prepend(ls[0], Insert(l, ls[1..]));
    }
  }

  lemma {:induction false} ByStartSorts(ls: seq<Literal>)
    ensures Ascending(ByStart(ls)) && multiset(ByStart(ls)) == multiset(ls)
  {
    if ls != [] {
      ByStartSorts(ls[1..]);
      InsertKeeps(ls[0], ByStart(ls[1..]));
      assert ls == [ls[0]] + ls[1..];
    }
  }

  /** The contents of the literals of a call's argument, in order. */
  function Named(ls: seq<Literal>, argument: Span): seq<string> {
    var sorted := ByStart(InSpan(ls, argument));
    seq(|sorted|, k requires 0 <= k < |sorted| => sorted[k].content)
  }

  function CapabilityOf(table: seq<Capability>, id: string): Option<Capability> {
    if table == [] then None else if table[0].id == id then Some(table[0]) else CapabilityOf(table[1..], id)
  }

  /** What one call names: its capability, and the environments of that and of the override. */
  function CapabilityNamed(named: seq<string>): seq<string> {
    if named != [] && named[0] != "" then [named[0]] else []
  }

  function EnvironmentsNamed(table: seq<Capability>, named: seq<string>): seq<string> {
    (if named != [] && CapabilityOf(table, named[0]).Some? then [CapabilityOf(table, named[0]).value.environment] else []) +
    (if |named| > 1 && named[1] != "" then [named[1]] else [])
  }

  function AddCalls(table: seq<Capability>, ls: seq<Literal>, c: Claims, calls: seq<Span>): Claims
    decreases |calls|
  {
    if calls == [] then c
    else
      var before := AddCalls(table, ls, c, calls[..|calls| - 1]);
      var named := Named(ls, calls[|calls| - 1]);
      Claims(AddNew(before.environments, EnvironmentsNamed(table, named)),
             AddNew(before.capabilities, CapabilityNamed(named)))
  }

  /** The calls of a span. */
  ghost predicate CallsOf(masked: string, span: Span, calls: seq<Span>) {
    Arguments(masked, CALL, span.start, span.end, calls) && AllCalls(masked, CALL, span.start, span.end, calls)
  }

  function ClaimsWith(table: seq<Capability>, masked: string, ls: seq<Literal>, span: Span, calls: seq<Span>): Claims
    requires span.start <= span.end <= |masked|
  {
    AddCalls(table, ls, Claims(AddNew([], References(masked[span.start..span.end], 0)), []), calls)
  }

  /** The span itself claims this. */
  ghost predicate Claimed(table: seq<Capability>, masked: string, ls: seq<Literal>, span: Span, c: Claims) {
    && span.start <= span.end <= |masked|
    && exists calls :: CallsOf(masked, span, calls) && c == ClaimsWith(table, masked, ls, span, calls)
  }

  /** `claimsIn` */
  method ClaimsIn(table: seq<Capability>, masked: string, literals: seq<Literal>, span: Span) returns (c: Claims)
    requires span.start <= span.end <= |masked|
    ensures Claimed(table, masked, literals, span, c)
  {
    hide Arguments, AllCalls, Named, EnvironmentsNamed, CapabilityNamed;
    var references := EnvironmentReferences(masked[span.start..span.end]);
    var environments := Push([], references);
    var capabilities: seq<string> := [];
    ghost var start := Claims(environments, []);
    var calls := CallArguments(masked, CALL, span.start, span.end);
    for n := 0 to |calls|
      invariant Claims(environments, capabilities) == AddCalls(table, literals, start, calls[..n])
    {
      assert calls[..n + 1][..n] == calls[..n];
      var named := Named(literals, calls[n]);
      capabilities := Push(capabilities, CapabilityNamed(named));
      environments := Push(environments, EnvironmentsNamed(table, named));
    }
    assert calls[..|calls|] == calls;
    c := Claims(environments, capabilities);
    assert CallsOf(masked, span, calls);
  }

  lemma ClaimedByCalls(table: seq<Capability>, masked: string, ls: seq<Literal>, span: Span, c: Claims)
    requires Claimed(table, masked, ls, span, c)
    ensures Distinct(c.environments) && Distinct(c.capabilities)
    ensures exists calls :: CallsOf(masked, span, calls) &&
              (forall x :: x in c.capabilities <==> exists a | a in calls :: x in CapabilityNamed(Named(ls, a))) &&
              (forall x :: x in c.environments <==>
                 || (exists k | 0 <= k < span.end - span.start :: Refers(masked[span.start..span.end], k, x))
                 || (exists a | a in calls :: x in EnvironmentsNamed(table, Named(ls, a))))
  {
    hide CallsOf, Refers, EnvironmentsNamed, CapabilityNamed, Named;
    var calls :| CallsOf(masked, span, calls) && c == ClaimsWith(table, masked, ls, span, calls);
    var text := masked[span.start..span.end];
    AddNewIsUnion([], References(text, 0));
    AddCallsExactly(table, ls, Claims(AddNew([], References(text, 0)), []), calls);
    forall x
      ensures x in References(text, 0) <==> exists k | 0 <= k < |text| :: Refers(text, k, x)
    {
      ReferencesExactly(text, 0, x);
    }
  }

  /** These are the literals of a call's argument, by where they start. */
  ghost predicate InOrder(ls: seq<Literal>, argument: Span, order: seq<Literal>) {
    && Ascending(order)
    && forall l :: multiset(order)[l] ==
         if argument.start <= l.start && l.end <= argument.end then multiset(ls)[l] else 0
  }

  /** The first literal of a call is a capability, unless it is empty. */
  predicate Names(order: seq<Literal>, id: string) {
    order != [] && order[0].content == id && id != ""
  }

  /** A call needs the environment of the table's first entry for that capability,
      and the one in its second literal. */
  predicate Needs(table: seq<Capability>, order: seq<Literal>, name: string) {
    || (order != [] && Owns(table, order[0].content, name))
    || (|order| > 1 && order[1].content == name && name != "")
  }

  predicate Owns(table: seq<Capability>, id: string, name: string) {
    exists i | 0 <= i < |table| ::
      table[i].id == id && table[i].environment == name && forall j | 0 <= j < i :: table[j].id != id
  }

  lemma {:induction false} InSpanExactly(ls: seq<Literal>, argument: Span)
    ensures forall l :: multiset(InSpan(ls, argument))[l] == if Within(l, argument) then multiset(ls)[l] else 0
  {
    if ls != [] {
      InSpanExactly(ls[1..], argument);
      assert ls == [ls[0]] + ls[1..];
    }
  }

  lemma {:induction false} OwnsExactly(table: seq<Capability>, id: string, name: string)
    ensures Owns(table, id, name) <==> CapabilityOf(table, id).Some? && CapabilityOf(table, id).value.environment == name
  {
    if table != [] {
      var rest := table[1..];
      OwnsExactly(rest, id, name);
      assert forall k | 0 < k < |table| :: table[k] == rest[k - 1];
      if table[0].id != id {
        if Owns(rest, id, name) {
          var i :| 0 <= i < |rest| && rest[i].id == id && rest[i].environment == name && forall j | 0 <= j < i :: rest[j].id != id;
          assert table[i + 1] == rest[i];
        }
        if Owns(table, id, name) {
          var i :| 0 <= i < |table| && table[i].id == id && table[i].environment == name &&
                   forall j | 0 <= j < i :: table[j].id != id;
          assert rest[i - 1] == table[i];
          assert forall j | 0 <= j < i - 1 :: rest[j] == table[j + 1];
        }
      }
    }
  }

  /** What a call names, on its literals. */
  lemma NamedExactly(table: seq<Capability>, ls: seq<Literal>, argument: Span, x: string)
    ensures var order := ByStart(InSpan(ls, argument));
            InOrder(ls, argument, order) && (x in CapabilityNamed(Named(ls, argument)) <==> Names(order, x)) &&
            (x in EnvironmentsNamed(table, Named(ls, argument)) <==> Needs(table, order, x))
  {
    hide Ascending, InSpan, Owns, CapabilityOf, ByStart;
    var order := ByStart(InSpan(ls, argument));
    InSpanExactly(ls, argument);
    ByStartSorts(InSpan(ls, argument));
    if order != [] {
      OwnsExactly(table, order[0].content, x);
    }
  }

  /** The claims follow from the literals in each call. */
  ghost predicate Accounted(table: seq<Capability>, text: string, ls: seq<Literal>, calls: seq<Span>,
                            orders: seq<seq<Literal>>, c: Claims)
  {
    && |orders| == |calls| && (forall k | 0 <= k < |calls| :: InOrder(ls, calls[k], orders[k]))
    && (forall x :: x in c.capabilities <==> exists k | 0 <= k < |calls| :: Names(orders[k], x))
    && (forall x :: x in c.environments <==>
          (exists k | 0 <= k < |text| :: Refers(text, k, x)) || exists k | 0 <= k < |calls| :: Needs(table, orders[k], x))
  }

  /** What a span's claims are: exactly the names it refers to, the capabilities its
      calls name, and the environments of these and of the calls' overrides; none twice. */
  lemma ClaimedExactly(table: seq<Capability>, masked: string, ls: seq<Literal>, span: Span, c: Claims)
    requires Claimed(table, masked, ls, span, c)
    ensures Distinct(c.environments) && Distinct(c.capabilities)
    ensures exists calls, orders ::
              Arguments(masked, "nativeEvidenceBinary(", span.start, span.end, calls) &&
              AllCalls(masked, "nativeEvidenceBinary(", span.start, span.end, calls) &&
              Accounted(table, masked[span.start..span.end], ls, calls, orders, c)
  {
    hide Refers, EnvironmentsNamed, CapabilityNamed, Named, Arguments, AllCalls, InOrder, Names, Needs, ByStart, InSpan;
    ClaimedByCalls(table, masked, ls, span, c);
    var text := masked[span.start..span.end];
    var calls :| CallsOf(masked, span, calls) &&
      (forall x :: x in c.capabilities <==> exists a | a in calls :: x in CapabilityNamed(Named(ls, a))) &&
      (forall x :: x in c.environments <==>
         || (exists k | 0 <= k < |text| :: Refers(text, k, x))
         || (exists a | a in calls :: x in EnvironmentsNamed(table, Named(ls, a))));
    AccountedFor(table, text, ls, calls, c);
  }

  lemma AccountedFor(table: seq<Capability>, text: string, ls: seq<Literal>, calls: seq<Span>, c: Claims)
    requires forall x :: x in c.capabilities <==> exists a | a in calls :: x in CapabilityNamed(Named(ls, a))
    requires forall x :: x in c.environments <==>
               || (exists k | 0 <= k < |text| :: Refers(text, k, x))
               || (exists a | a in calls :: x in EnvironmentsNamed(table, Named(ls, a)))
    ensures exists orders :: Accounted(table, text, ls, calls, orders, c)
  {
    hide Refers, EnvironmentsNamed, CapabilityNamed, Named, InOrder, Names, Needs, ByStart, InSpan;
    var orders := seq(|calls|, k requires 0 <= k < |calls| => ByStart(InSpan(ls, calls[k])));
    forall k, x | 0 <= k < |calls|
      ensures InOrder(ls, calls[k], orders[k])
      ensures x in CapabilityNamed(Named(ls, calls[k])) <==> Names(orders[k], x)
      ensures x in EnvironmentsNamed(table, Named(ls, calls[k])) <==> Needs(table, orders[k], x)
    {
      NamedExactly(table, ls, calls[k], x);
    }
    forall k | 0 <= k < |calls|
      ensures InOrder(ls, calls[k], orders[k])
    {
      NamedExactly(table, ls, calls[k], "");
    }
    assert Accounted(table, text, ls, calls, orders, c);
  }

  lemma {:induction false} AddCallsExactly(table: seq<Capability>, ls: seq<Literal>, c: Claims, calls: seq<Span>)
    requires Distinct(c.environments) && Distinct(c.capabilities)
    ensures var r := AddCalls(table, ls, c, calls);
            Distinct(r.environments) && Distinct(r.capabilities) &&
            (forall x :: x in r.capabilities <==>
               x in c.capabilities || exists a | a in calls :: x in CapabilityNamed(Named(ls, a))) &&
            (forall x :: x in r.environments <==>
               x in c.environments || exists a | a in calls :: x in EnvironmentsNamed(table, Named(ls, a)))
    decreases |calls|
  {
    hide EnvironmentsNamed, CapabilityNamed, Named, Distinct, AddNew;
    if calls != [] {
      var n := |calls| - 1;
      AddCallsExactly(table, ls, c, calls[..n]);
      var before := AddCalls(table, ls, c, calls[..n]);
      AddNewIsUnion(before.environments, EnvironmentsNamed(table, Named(ls, calls[n])));
      AddNewIsUnion(before.capabilities, CapabilityNamed(Named(ls, calls[n])));
      assert calls == calls[..n] + [calls[n]];
    }
  }

  // ----- Bindings -----

  const CONST := "const"

  /** `const name =` at `i`: the name, and where its initializer starts. */
  function Declared(s: string, i: nat): Option<(string, nat)> {
    if !Occurs(s, CONST, i) || (i > 0 && NamePart(s[i - 1])) then None
    else
      var a := RunEnd(s, i + |CONST|, Blank);
      if a == i + |CONST| || a == |s| || !(NameStart(s[a]) || s[a] == '$') then None
      else
        var b := RunEnd(s, a, WordPart);
        var c := RunEnd(s, b, Blank);
        if c < |s| && s[c] == '=' then Some((s[a..b], c + 1)) else None
  }

  /** Brackets of any kind opened and not closed in `s[lo..hi]`. */
  function Brackets(s: string, lo: nat, hi: nat): int
    requires lo <= hi <= |s|
  {
    if lo == hi then 0
    else
      Brackets(s, lo, hi - 1) +
      (if s[hi - 1] in {'(', '[', '{'} then 1 else if s[hi - 1] in {')', ']', '}'} then -1 else 0)
  }

  predicate Breaks(s: string, start: nat, k: nat)
    requires start <= k < |s|
  {
    Brackets(s, start, k) == 0 && s[k] in {';', '\n'}
  }

  /** The initializer ends at the first semicolon or line end outside brackets. */
  predicate Initializer(s: string, span: Span) {
    && span.start <= span.end <= |s|
    && (forall k | span.start <= k < span.end :: !Breaks(s, span.start, k))
    && (span.end < |s| ==> Breaks(s, span.start, span.end))
  }

  method InitializerEnd(masked: string, start: nat) returns (index: nat)
    requires start <= |masked|
    ensures Initializer(masked, Span(start, index))
  {
    var depth := 0;
    index := start;
    while index < |masked|
      invariant start <= index <= |masked| && depth == Brackets(masked, start, index)
      invariant forall k | start <= k < index :: !Breaks(masked, start, k)
    {
      var character := masked[index];
      if character in {'(', '[', '{'} {
        depth := depth + 1;
      } else if character in {')', ']', '}'} {
        depth := depth - 1;
      } else if depth == 0 && character in {';', '\n'} {
        break;
      }
      index := index + 1;
    }
  }

  /** The parts of a declaration: the name in `a..b`, the equals sign at `c`. */
  predicate Parts(s: string, i: nat, a: nat, b: nat, c: nat) {
    && i + |CONST| < a < b <= c < |s| && Spelled(s, i)
    && (forall k | i + |CONST| <= k < a :: Blank(s[k])) && (forall k | a <= k < b :: WordPart(s[k]))
    && (forall k | b <= k < c :: Blank(s[k])) && s[c] == '='
  }

  predicate Spelled(s: string, i: nat) {
    i + |CONST| <= |s| && s[i] == 'c' && s[i + 1] == 'o' && s[i + 2] == 'n' && s[i + 3] == 's' && s[i + 4] == 't'
  }

  lemma SpelledOut(s: string, i: nat)
    requires Occurs(s, CONST, i)
    ensures Spelled(s, i)
  {
    var word := s[i..i + |CONST|];
    assert s[i] == word[0] && s[i + 1] == word[1] && s[i + 2] == word[2] && s[i + 3] == word[3] && s[i + 4] == word[4];
  }

  lemma DeclaredParts(s: string, i: nat) returns (a: nat, b: nat, c: nat)
    requires Declared(s, i).Some?
    ensures Parts(s, i, a, b, c) && Declared(s, i).value == (s[a..b], c + 1)
  {
    SpelledOut(s, i);
    a := RunEnd(s, i + |CONST|, Blank);
    b := RunEnd(s, a, WordPart);
    c := RunEnd(s, b, Blank);
  }

  /** `\bconst\s+name\s*=` at `i`, in parts. */
  ghost predicate Declares(s: string, i: nat, name: string, start: nat) {
    && (i > 0 && i <= |s| ==> !NamePart(s[i - 1])) && Occurs(s, "const", i)
    && exists a: nat, b: nat, c: nat :: Parts(s, i, a, b, c) && name == s[a..b] && start == c + 1 &&
         (NameStart(s[a]) || s[a] == '$')
  }

  lemma DeclaredExactly(s: string, i: nat, name: string, start: nat)
    ensures Declared(s, i) == Some((name, start)) <==> Declares(s, i, name, start)
  {
    if Declared(s, i).Some? {
      var a, b, c := DeclaredParts(s, i);
      assert Declares(s, i, s[a..b], c + 1);
    }
    if Declares(s, i, name, start) {
      var a: nat, b: nat, c: nat :| Parts(s, i, a, b, c) && name == s[a..b] && start == c + 1 &&
        (NameStart(s[a]) || s[a] == '$');
      PartsEnd(s, i, a, b, c);
    }
  }

  lemma PartsEnd(s: string, i: nat, a: nat, b: nat, c: nat)
    requires Parts(s, i, a, b, c)
    ensures RunEnd(s, i + |CONST|, Blank) == a && RunEnd(s, a, WordPart) == b && RunEnd(s, b, Blank) == c
  {
    RunEndOnce(s, i + |CONST|, Blank, a);
    RunEndOnce(s, a, WordPart, b);
    RunEndOnce(s, b, Blank, c);
  }

  lemma PartsApart(s: string, i: nat, a: nat, b: nat, c: nat, j: nat, a': nat, b': nat, c': nat)
    requires Parts(s, i, a, b, c) && Parts(s, j, a', b', c') && i < j
    ensures c < j
  {
    assert s[j] == 'c' && Blank(s[j + 5]) && !Blank(s[a']) && s[a'] != '=';
  }

  /** No declaration starts inside another's `const name =`. */
  lemma DeclaredApart(s: string, i: nat, j: nat)
    requires Declared(s, i).Some? && Declared(s, j).Some? && i < j
    ensures Declared(s, i).value.1 <= j
  {
    hide Declared, Parts;
    var a, b, c := DeclaredParts(s, i);
    var a', b', c' := DeclaredParts(s, j);
    PartsApart(s, i, a, b, c, j, a', b', c');
  }

  predicate Binds(s: string, name: string, i: nat) {
    Declared(s, i).Some? && Declared(s, i).value.0 == name
  }

  /** The binding of a name is its last declaration before `end`. */
  predicate LastBinding(s: string, name: string, i: nat, end: nat) {
    i < end && Binds(s, name, i) && forall j: nat | i < j < end :: !Binds(s, name, j)
  }

  /** Each name bound before `end`, with what the initializer of its last binding claims. */
  ghost predicate Aliases(table: seq<Capability>, masked: string, ls: seq<Literal>, end: nat, aliases: map<string, Claims>) {
    && (forall name, i: nat | i < end && Binds(masked, name, i) :: name in aliases)
    && (forall name | name in aliases :: exists i: nat, span: Span ::
          LastBinding(masked, name, i, end) && span.start == Declared(masked, i).value.1 && Initializer(masked, span) &&
          Claimed(table, masked, ls, span, aliases[name]))
  }

  /** `environmentAliases`: later declarations replace earlier ones of the same name. */
  method EnvironmentAliases(table: seq<Capability>, masked: string, literals: seq<Literal>)
    returns (aliases: map<string, Claims>)
    ensures Aliases(table, masked, literals, |masked|, aliases)
  {
    hide Declared, Claimed, Initializer, Aliases;
    aliases := map[];
    NoAliases(table, masked, literals);
    var i := 0;
    while i < |masked|
      invariant i <= |masked| && Aliases(table, masked, literals, i, aliases)
    {
      var found := Declared(masked, i);
      if found.None? {
        NotDeclared(table, masked, literals, i, i + 1, aliases);
        i := i + 1;
      } else {
        DeclaredInside(masked, i);
        var name, start := found.value.0, found.value.1;
        var index := InitializerEnd(masked, start);
        InitializerInside(masked, Span(start, index));
        var claims := ClaimsIn(table, masked, literals, Span(start, index));
        NewBinding(table, masked, literals, i, aliases, Span(start, index), claims);
        aliases := aliases[name := claims];
        forall j: nat | i < j < start
          ensures Declared(masked, j).None?
        {
          if Declared(masked, j).Some? {
            DeclaredApart(masked, i, j);
          }
        }
        NotDeclared(table, masked, literals, i + 1, start, aliases);
        i := start;
      }
    }
  }

  lemma NoAliases(table: seq<Capability>, masked: string, ls: seq<Literal>)
    ensures Aliases(table, masked, ls, 0, map[])
  {
  }

  lemma DeclaredInside(s: string, i: nat)
    requires Declared(s, i).Some?
    ensures i < Declared(s, i).value.1 <= |s|
  {
  }

  lemma InitializerInside(s: string, span: Span)
    requires Initializer(s, span)
    ensures span.start <= span.end <= |s|
  {
  }

  lemma NotDeclared(table: seq<Capability>, masked: string, ls: seq<Literal>, i: nat, j: nat, aliases: map<string, Claims>)
    requires Aliases(table, masked, ls, i, aliases) && i <= j && forall k: nat | i <= k < j :: Declared(masked, k).None?
    ensures Aliases(table, masked, ls, j, aliases)
  {
    hide Declared, Claimed, Initializer;
    forall name | name in aliases
      ensures exists k: nat, span: Span ::
                LastBinding(masked, name, k, j) && span.start == Declared(masked, k).value.1 &&
                Initializer(masked, span) && Claimed(table, masked, ls, span, aliases[name])
    {
      var k: nat, span: Span :|
        LastBinding(masked, name, k, i) && span.start == Declared(masked, k).value.1 &&
        Initializer(masked, span) && Claimed(table, masked, ls, span, aliases[name]);
      assert LastBinding(masked, name, k, j);
    }
  }

  lemma NewBinding(table: seq<Capability>, masked: string, ls: seq<Literal>, i: nat, aliases: map<string, Claims>, span: Span,
                   claims: Claims)
    requires Aliases(table, masked, ls, i, aliases) && Declared(masked, i).Some?
    requires span.start == Declared(masked, i).value.1 && Initializer(masked, span)
    requires Claimed(table, masked, ls, span, claims)
    ensures Aliases(table, masked, ls, i + 1, aliases[Declared(masked, i).value.0 := claims])
  {
    hide Declared, Claimed, Initializer;
    var bound := Declared(masked, i).value.0;
    var more := aliases[bound := claims];
    forall name | name in more
      ensures exists k: nat, at: Span ::
                LastBinding(masked, name, k, i + 1) && at.start == Declared(masked, k).value.1 &&
                Initializer(masked, at) && Claimed(table, masked, ls, at, more[name])
    {
      if name == bound {
        assert LastBinding(masked, name, i, i + 1);
      } else {
        var k: nat, at: Span :|
          LastBinding(masked, name, k, i) && at.start == Declared(masked, k).value.1 &&
          Initializer(masked, at) && Claimed(table, masked, ls, at, aliases[name]);
        assert LastBinding(masked, name, k, i + 1);
      }
    }
  }

  // ----- A gate -----

  /** `split`: the runs of word characters, in order. */
  function Words(text: string, i: nat): seq<string>
    requires i <= |text|
    decreases |text| - i
  {
    if i == |text| then []
    else if !WordPart(text[i]) then Words(text, i + 1)
    else var e := RunEnd(text, i, WordPart); [text[i..e]] + Words(text, e)
  }

  /** `text[i..j]` is a whole word. */
  predicate WordAt(text: string, i: nat, j: nat) {
    && i < j <= |text| && (forall k | i <= k < j :: WordPart(text[k]))
    && (i > 0 ==> !WordPart(text[i - 1])) && (j < |text| ==> !WordPart(text[j]))
  }

  lemma {:induction false} WordsExactly(text: string, i: nat, word: string)
    requires i <= |text| && (0 < i < |text| ==> !WordPart(text[i]) || !WordPart(text[i - 1]))
    ensures word in Words(text, i) <==> exists j: nat, k: nat | i <= j && WordAt(text, j, k) :: word == text[j..k]
    decreases |text| - i
  {
    hide WordPart;
    if i < |text| {
      if !WordPart(text[i]) {
        WordsExactly(text, i + 1, word);
      } else {
        var e := RunEnd(text, i, WordPart);
        WordsExactly(text, e, word);
        assert WordAt(text, i, e);
        forall j: nat, k: nat | i <= j < e && WordAt(text, j, k)
          ensures j == i && k == e
        {
        }
      }
    }
  }

  function AddWords(c: Claims, aliases: map<string, Claims>, words: seq<string>): Claims
    decreases |words|
  {
    if words == [] then c
    else
      var before := AddWords(c, aliases, words[..|words| - 1]);
      var word := words[|words| - 1];
      if word in aliases then
        Claims(AddNew(before.environments, aliases[word].environments), AddNew(before.capabilities, aliases[word].capabilities))
      else before
  }

  /** What the argument of a gate claims, by itself and through the names it uses. */
  ghost predicate GateClaimed(table: seq<Capability>, masked: string, ls: seq<Literal>, aliases: map<string, Claims>, span: Span,
                              c: Claims)
  {
    exists own :: Claimed(table, masked, ls, span, own) && c == AddWords(own, aliases, Words(masked[span.start..span.end], 0))
  }

  method ClaimsOfGate(table: seq<Capability>, masked: string, literals: seq<Literal>, aliases: map<string, Claims>, span: Span)
    returns (c: Claims)
    requires span.start <= span.end <= |masked|
    ensures GateClaimed(table, masked, literals, aliases, span, c)
  {
    hide Claimed;
    var own := ClaimsIn(table, masked, literals, span);
    var environments, capabilities := own.environments, own.capabilities;
    var words := Words(masked[span.start..span.end], 0);
    for n := 0 to |words|
      invariant Claims(environments, capabilities) == AddWords(own, aliases, words[..n])
    {
      assert words[..n + 1][..n] == words[..n];
      if words[n] in aliases {
        environments := Push(environments, aliases[words[n]].environments);
        capabilities := Push(capabilities, aliases[words[n]].capabilities);
      }
    }
    assert words[..|words|] == words;
    c := Claims(environments, capabilities);
  }

  lemma {:induction false} AddWordsExactly(c: Claims, aliases: map<string, Claims>, words: seq<string>)
    requires Distinct(c.environments) && Distinct(c.capabilities)
    ensures var r := AddWords(c, aliases, words);
            Distinct(r.environments) && Distinct(r.capabilities) &&
            (forall x :: x in r.environments <==>
               x in c.environments || exists w | w in words && w in aliases :: x in aliases[w].environments) &&
            (forall x :: x in r.capabilities <==>
               x in c.capabilities || exists w | w in words && w in aliases :: x in aliases[w].capabilities)
    decreases |words|
  {
    hide Distinct, AddNew;
    if words != [] {
      var n := |words| - 1;
      AddWordsExactly(c, aliases, words[..n]);
      var before := AddWords(c, aliases, words[..n]);
      assert words == words[..n] + [words[n]];
      if words[n] in aliases {
        AddNewIsUnion(before.environments, aliases[words[n]].environments);
        AddNewIsUnion(before.capabilities, aliases[words[n]].capabilities);
      }
    }
  }

  /** A gate claims exactly what its own span claims and what is claimed by the
      bindings of the whole words in it; nothing twice. */
  lemma GateClaimedExactly(table: seq<Capability>, masked: string, ls: seq<Literal>, aliases: map<string, Claims>, span: Span,
                           c: Claims)
    requires GateClaimed(table, masked, ls, aliases, span, c)
    ensures Distinct(c.environments) && Distinct(c.capabilities)
    ensures exists own :: Claimed(table, masked, ls, span, own) &&
              (forall x :: x in c.environments <==>
                 || x in own.environments
                 || (exists w | w in aliases && NamesWord(masked[span.start..span.end], w) :: x in aliases[w].environments)) &&
              (forall x :: x in c.capabilities <==>
                 || x in own.capabilities
                 || (exists w | w in aliases && NamesWord(masked[span.start..span.end], w) :: x in aliases[w].capabilities))
  {
    hide NamesWord, CallsOf, ClaimsWith;
    var own :| Claimed(table, masked, ls, span, own) &&
               c == AddWords(own, aliases, Words(masked[span.start..span.end], 0));
    var text := masked[span.start..span.end];
    ClaimedByCalls(table, masked, ls, span, own);
    AddWordsExactly(own, aliases, Words(text, 0));
    forall w
      ensures w in Words(text, 0) <==> NamesWord(text, w)
    {
      WordsNamed(text, w);
    }
  }

  ghost predicate NamesWord(text: string, word: string) {
    exists j: nat, k: nat | WordAt(text, j, k) :: word == text[j..k]
  }

  lemma WordsNamed(text: string, w: string)
    ensures w in Words(text, 0) <==> NamesWord(text, w)
  {
    WordsExactly(text, 0, w);
  }

  // ----- The claims are determined -----

  /** A span claims just one thing. */
  lemma ClaimedOnce(table: seq<Capability>, masked: string, ls: seq<Literal>, span: Span, c: Claims, d: Claims)
    requires Claimed(table, masked, ls, span, c) && Claimed(table, masked, ls, span, d)
    ensures c == d
  {
    hide Arguments, AllCalls, ClaimsWith;
    var calls :| CallsOf(masked, span, calls) && c == ClaimsWith(table, masked, ls, span, calls);
    var others :| CallsOf(masked, span, others) && d == ClaimsWith(table, masked, ls, span, others);
    SpansOnce(masked, CALL, span.start, span.end, calls, others, 0);
  }

  lemma InitializerOnce(s: string, span: Span, other: Span)
    requires Initializer(s, span) && Initializer(s, other) && span.start == other.start
    ensures span == other
  {
    hide Breaks;
  }

  /** A text has just one map of bindings. */
  lemma AliasesOnce(table: seq<Capability>, masked: string, ls: seq<Literal>, end: nat, aliases: map<string, Claims>,
                    other: map<string, Claims>)
    requires Aliases(table, masked, ls, end, aliases) && Aliases(table, masked, ls, end, other)
    ensures aliases == other
  {
    hide Declared, Claimed, Initializer;
    forall name | name in aliases
      ensures name in other && other[name] == aliases[name]
    {
      AliasOnce(table, masked, ls, end, aliases, other, name);
    }
    forall name | name in other
      ensures name in aliases
    {
      AliasOnce(table, masked, ls, end, other, aliases, name);
    }
  }

  lemma AliasOnce(table: seq<Capability>, masked: string, ls: seq<Literal>, end: nat, aliases: map<string, Claims>,
                  other: map<string, Claims>, name: string)
    requires Aliases(table, masked, ls, end, aliases) && Aliases(table, masked, ls, end, other) && name in aliases
    ensures name in other && other[name] == aliases[name]
  {
    hide Declared, Claimed, Initializer;
    var i: nat, span: Span :|
      LastBinding(masked, name, i, end) && span.start == Declared(masked, i).value.1 && Initializer(masked, span) &&
      Claimed(table, masked, ls, span, aliases[name]);
    var j: nat, at: Span :|
      LastBinding(masked, name, j, end) && at.start == Declared(masked, j).value.1 && Initializer(masked, at) &&
      Claimed(table, masked, ls, at, other[name]);
    assert i == j;
    InitializerOnce(masked, span, at);
    ClaimedOnce(table, masked, ls, span, aliases[name], other[name]);
  }

  /** So does a gate. */
  lemma GateClaimedOnce(table: seq<Capability>, masked: string, ls: seq<Literal>, aliases: map<string, Claims>, span: Span,
                        c: Claims, d: Claims)
    requires GateClaimed(table, masked, ls, aliases, span, c) && GateClaimed(table, masked, ls, aliases, span, d)
    ensures c == d
  {
    hide CallsOf, ClaimsWith;
    var own :| Claimed(table, masked, ls, span, own) && c == AddWords(own, aliases, Words(masked[span.start..span.end], 0));
    var too :| Claimed(table, masked, ls, span, too) && d == AddWords(too, aliases, Words(masked[span.start..span.end], 0));
    ClaimedOnce(table, masked, ls, span, own, too);
  }
}
