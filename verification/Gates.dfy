/** The gates of the test tree: what every `skipIf(` call claims, the capability
    it belongs to, the counts of the report and its exit code. */
module Gates {
  import opened Values
  import opened Lexer
  import opened Scanner
  import opened Spans
  import opened GateClaims

  // ----- Classification -----

  datatype State = Unconfigured | Invalid | Ready

  datatype Gate = Gate(file: string, claims: Claims, capability: Option<string>)

  predicate Matches(c: Capability, claims: Claims) {
    && (if claims.capabilities != [] then forall id | id in claims.capabilities :: id == c.id
        else c.environment in claims.environments)
    && (forall name | name in claims.environments :: name == c.environment || name in c.companions)
  }

  function Filter(table: seq<Capability>, claims: Claims): seq<Capability> {
    if table == [] then []
    else (if Matches(table[0], claims) then [table[0]] else []) + Filter(table[1..], claims)
  }

  /** `classify` */
  function Classify(table: seq<Capability>, claims: Claims): Option<string> {
    var matches := Filter(table, claims);
    if |matches| == 1 then Some(matches[0].id) else None
  }

  /** A gate falls under a capability when it names no other, or failing any its
      environment, and no environment but this one and its companions. */
  predicate FallsUnder(claims: Claims, c: Capability) {
    && (set name | name in claims.environments) <= {c.environment} + (set name | name in c.companions)
    && (set id | id in claims.capabilities) <= {c.id}
    && (claims.capabilities == [] ==> c.environment in claims.environments)
  }

  lemma MatchesExactly(c: Capability, claims: Claims)
    ensures Matches(c, claims) <==> FallsUnder(claims, c)
  {
    var ids, names := set id | id in claims.capabilities, set name | name in claims.environments;
    assert forall id :: id in ids <==> id in claims.capabilities;
    assert forall name :: name in names <==> name in claims.environments;
  }

  /** The gate falls under entry `k` alone. */
  predicate OnlyMatch(table: seq<Capability>, claims: Claims, k: nat) {
    k < |table| && FallsUnder(claims, table[k]) && forall j | 0 <= j < |table| && j != k :: !FallsUnder(claims, table[j])
  }

  lemma {:induction false} FilterEmpty(table: seq<Capability>, claims: Claims)
    ensures Filter(table, claims) == [] <==> forall k | 0 <= k < |table| :: !FallsUnder(claims, table[k])
  {
    hide Matches, FallsUnder;
    if table != [] {
      MatchesExactly(table[0], claims);
      FilterEmpty(table[1..], claims);
      assert forall k | 0 < k < |table| :: table[k] == table[1..][k - 1];
    }
  }

  lemma {:induction false} FilterOne(table: seq<Capability>, claims: Claims)
    ensures |Filter(table, claims)| == 1 ==> exists k: nat :: OnlyMatch(table, claims, k) && Filter(table, claims) == [table[k]]
  {
    hide Matches, FallsUnder;
    if table != [] && |Filter(table, claims)| == 1 {
      MatchesExactly(table[0], claims);
      var rest := table[1..];
      assert forall k | 0 < k < |table| :: table[k] == rest[k - 1];
      if Matches(table[0], claims) {
        FilterEmpty(rest, claims);
        assert OnlyMatch(table, claims, 0);
      } else {
        FilterOne(rest, claims);
        var k: nat :| OnlyMatch(rest, claims, k) && Filter(rest, claims) == [rest[k]];
        assert OnlyMatch(table, claims, k + 1);
      }
    }
  }

  lemma {:induction false} OneFiltered(table: seq<Capability>, claims: Claims, k: nat)
    requires OnlyMatch(table, claims, k)
    ensures Filter(table, claims) == [table[k]]
  {
    hide Matches, FallsUnder;
    MatchesExactly(table[0], claims);
    var rest := table[1..];
    assert forall j | 0 < j < |table| :: table[j] == rest[j - 1];
    if k == 0 {
      FilterEmpty(rest, claims);
    } else {
      assert OnlyMatch(rest, claims, k - 1);
      OneFiltered(rest, claims, k - 1);
    }
  }

  /** A gate belongs to a capability exactly when that is the only one it falls under. */
  lemma ClassifyIsUnique(table: seq<Capability>, claims: Claims, id: string)
    ensures Classify(table, claims) == Some(id) <==> exists k: nat :: OnlyMatch(table, claims, k) && table[k].id == id
  {
    hide Matches, FallsUnder;
    FilterOne(table, claims);
    if k: nat :| OnlyMatch(table, claims, k) && table[k].id == id {
      OneFiltered(table, claims, k);
    }
  }

  /** A gate that names capabilities belongs to one exactly when it names that one
      alone and none but its environments. */
  lemma NamedCapability(table: seq<Capability>, claims: Claims, k: nat)
    requires DistinctIds(table) && k < |table| && claims.capabilities != []
    ensures Classify(table, claims) == Some(table[k].id) <==>
            (forall id | id in claims.capabilities :: id == table[k].id) &&
            (forall name | name in claims.environments :: name == table[k].environment || name in table[k].companions)
  {
    assert claims.capabilities[0] in claims.capabilities;
    hide FallsUnder, Filter;
    forall j | 0 <= j < |table| && j != k
      ensures table[j].id != table[k].id
    {
      if j < k {
        assert table[j].id != table[k].id;
      } else {
        assert table[k].id != table[j].id;
      }
    }
    forall j | 0 <= j < |table|
      ensures Matches(table[j], claims) <==> FallsUnder(claims, table[j])
    {
      MatchesExactly(table[j], claims);
    }
    ClassifyIsUnique(table, claims, table[k].id);
    if Matches(table[k], claims) {
      assert OnlyMatch(table, claims, k);
    }
  }

  // ----- Collecting -----

  const NEEDLE := "skipIf("

  /** The spans one file contributes. */
  ghost predicate FileSpans(source: string, masked: string, spans: seq<Span>) {
    && |masked| == |source| + (if Dangles(source, 0, Code(Top)) then 1 else 0)
    && (forall k | 0 <= k < |masked| :: masked[k] == MaskedAt(source, Literals(source), k))
    && Arguments(masked, "skipIf(", 0, |masked|, spans) && AllCalls(masked, "skipIf(", 0, |masked|, spans)
  }

  /** The gate of one span. */
  ghost predicate GateAt(table: seq<Capability>, file: string, masked: string, ls: seq<Literal>, aliases: map<string, Claims>,
                         span: Span, gate: Gate)
  {
    && gate.file == file && GateClaimed(table, masked, ls, aliases, span, gate.claims)
    && gate.capability == Classify(table, gate.claims)
  }

  /** One gate per `skipIf` call of the file, in order, classified by what it claims. */
  ghost predicate FileGates(table: seq<Capability>, file: string, source: string, gates: seq<Gate>) {
    exists masked, spans, aliases :: FileSpans(source, masked, spans) &&
      Aliases(table, masked, Literals(source), |masked|, aliases) && |gates| == |spans| &&
      forall k | 0 <= k < |gates| :: GateAt(table, file, masked, Literals(source), aliases, spans[k], gates[k])
  }

  method CollectFile(table: seq<Capability>, file: string, source: string) returns (gates: seq<Gate>)
    ensures FileGates(table, file, source, gates) && Classified(table, gates)
  {
    hide Classify, Arguments, AllCalls, Lex, Dangles, MaskedAt, Aliases, GateClaimed;
    var scanner := new SourceScanner(source);
    scanner.Scan();
    var literals := scanner.literals;
    var masked := MaskLiterals(source, literals);
    var aliases := EnvironmentAliases(table, masked, literals);
    var spans := CallArguments(masked, NEEDLE, 0, |masked|);
    gates := [];
    for n := 0 to |spans|
      invariant |gates| == n
      invariant forall k | 0 <= k < n :: GateAt(table, file, masked, literals, aliases, spans[k], gates[k])
    {
      SpanInside(masked, spans, n);
      var claims := ClaimsOfGate(table, masked, literals, aliases, spans[n]);
      gates := gates + [Gate(file, claims, Classify(table, claims))];
    }
    assert FileSpans(source, masked, spans);
  }

  lemma SpanInside(masked: string, spans: seq<Span>, n: nat)
    requires n < |spans| && Arguments(masked, NEEDLE, 0, |masked|, spans)
    ensures spans[n].start <= spans[n].end <= |masked|
  {
    assert spans[n] in spans;
  }

  /** A file has just one list of gates. */
  lemma FileGatesOnce(table: seq<Capability>, file: string, source: string, gates: seq<Gate>, other: seq<Gate>)
    requires FileGates(table, file, source, gates) && FileGates(table, file, source, other)
    ensures gates == other
  {
    hide Classify, Lex, Dangles, MaskedAt, Aliases, GateClaimed, Arguments, AllCalls;
    var masked, spans, aliases :| FileSpans(source, masked, spans) &&
      Aliases(table, masked, Literals(source), |masked|, aliases) && |gates| == |spans| &&
      forall k | 0 <= k < |gates| :: GateAt(table, file, masked, Literals(source), aliases, spans[k], gates[k]);
    var shown, places, bound :| FileSpans(source, shown, places) &&
      Aliases(table, shown, Literals(source), |shown|, bound) && |other| == |places| &&
      forall k | 0 <= k < |other| :: GateAt(table, file, shown, Literals(source), bound, places[k], other[k]);
    assert masked == shown;
    SpansOnce(masked, NEEDLE, 0, |masked|, spans, places, 0);
    AliasesOnce(table, masked, Literals(source), |masked|, aliases, bound);
    forall k | 0 <= k < |gates|
      ensures gates[k] == other[k]
    {
      assert GateAt(table, file, masked, Literals(source), aliases, spans[k], gates[k]);
      assert GateAt(table, file, shown, Literals(source), bound, places[k], other[k]);
      GateClaimedOnce(table, masked, Literals(source), aliases, spans[k], gates[k].claims, other[k].claims);
    }
  }

  function Flatten(parts: seq<seq<Gate>>): seq<Gate> {
    if parts == [] then [] else Flatten(parts[..|parts| - 1]) + parts[|parts| - 1]
  }

  /** `collectNativeEvidenceGates` over the test files, by name and contents. */
  method CollectGates(table: seq<Capability>, files: seq<(string, string)>)
    returns (gates: seq<Gate>, ghost parts: seq<seq<Gate>>)
    ensures gates == Flatten(parts) && |parts| == |files|
    ensures forall n | 0 <= n < |files| :: FileGates(table, files[n].0, files[n].1, parts[n])
    ensures Classified(table, gates)
  {
    hide Classify, FileGates;
    gates, parts := [], [];
    for n := 0 to |files|
      invariant gates == Flatten(parts) && |parts| == n
      invariant forall m | 0 <= m < n :: FileGates(table, files[m].0, files[m].1, parts[m])
      invariant Classified(table, gates)
    {
      var found := CollectFile(table, files[n].0, files[n].1);
      gates, parts := gates + found, parts + [found];
      assert parts[..|parts| - 1] == parts[..n];
    }
  }

  // ----- The report's counts -----

  function Count(gates: seq<Gate>, capability: Option<string>): nat {
    if gates == [] then 0 else (if gates[0].capability == capability then 1 else 0) + Count(gates[1..], capability)
  }

  /** `tests` of each summary, added up. */
  function Total(table: seq<Capability>, gates: seq<Gate>): nat {
    if table == [] then 0 else Count(gates, Some(table[0].id)) + Total(table[1..], gates)
  }

  predicate DistinctIds(table: seq<Capability>) {
    forall j, k | 0 <= j < k < |table| :: table[j].id != table[k].id
  }

  /** Every gate was classified by this table. */
  predicate Classified(table: seq<Capability>, gates: seq<Gate>) {
    forall g | g in gates :: g.capability == Classify(table, g.claims)
  }

  function ExitCode(states: seq<State>, gates: seq<Gate>): int {
    if Invalid in states || exists g | g in gates :: g.capability.None? then 1 else 0
  }

  lemma {:induction false} TotalOfOne(table: seq<Capability>, gates: seq<Gate>)
    requires gates != [] && DistinctIds(table)
    ensures Total(table, gates) == Total(table, gates[1..]) +
              if exists k | 0 <= k < |table| :: gates[0].capability == Some(table[k].id) then 1 else 0
  {
    if table != [] {
      TotalOfOne(table[1..], gates);
      assert forall k | 0 < k < |table| :: table[k] == table[1..][k - 1];
      if k :| 0 <= k < |table| && gates[0].capability == Some(table[k].id) {
        if k > 0 {
          assert gates[0].capability == Some(table[1..][k - 1].id);
        }
      }
    }
  }

  /** The summaries and the unclassified gates add up to all gates. */
  lemma {:induction false} CountsAddUp(table: seq<Capability>, gates: seq<Gate>)
    requires DistinctIds(table) && Classified(table, gates)
    ensures Total(table, gates) + Count(gates, None) == |gates|
  {
    if gates == [] {
      NoGates(table);
    } else {
      CountsAddUp(table, gates[1..]);
      TotalOfOne(table, gates);
      var g := gates[0];
      if g.capability.Some? {
        ClassifyIsUnique(table, g.claims, g.capability.value);
        var k: nat :| OnlyMatch(table, g.claims, k) && table[k].id == g.capability.value;
        assert 0 <= k < |table| && g.capability == Some(table[k].id);
      }
    }
  }

  lemma {:induction false} NoGates(table: seq<Capability>)
    ensures Total(table, []) == 0
  {
    if table != [] {
      NoGates(table[1..]);
    }
  }

  lemma {:induction false} CountZero(gates: seq<Gate>)
    ensures Count(gates, None) == 0 <==> forall g | g in gates :: g.capability.Some?
  {
    if gates != [] {
      CountZero(gates[1..]);
      assert gates == [gates[0]] + gates[1..];
    }
  }

  /** The gate passes exactly when no capability is invalid and every gate is
      counted by the summaries; each of them is then counted by just one. */
  lemma PassesWhenAllCounted(table: seq<Capability>, states: seq<State>, gates: seq<Gate>)
    requires DistinctIds(table) && Classified(table, gates)
    ensures ExitCode(states, gates) == 0 <==> Invalid !in states && Total(table, gates) == |gates|
    ensures ExitCode(states, gates) == 0 ==> forall g | g in gates ::
              exists k: nat :: OnlyMatch(table, g.claims, k) && g.capability == Some(table[k].id)
  {
    CountsAddUp(table, gates);
    CountZero(gates);
    if ExitCode(states, gates) == 0 {
      forall g | g in gates
        ensures exists k: nat :: OnlyMatch(table, g.claims, k) && g.capability == Some(table[k].id)
      {
        ClassifyIsUnique(table, g.claims, g.capability.value);
      }
    }
  }
}
