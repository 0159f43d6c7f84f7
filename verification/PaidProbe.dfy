/** One paid qualification run against a server that may answer anything. */
module PaidProbe {
  import opened Values
  import opened Text

  type Bytes = seq<bv8>

  datatype Key =
    | Product | ApiVersion | Endpoints | Api | Ai
    | Object | DataList | Id | Takoserver | PricingRevision | MoneyPolicy | MaximumChargeMicros
    | Wallet | OrganizationId | Currency | AvailableMicros
    | Model | CreatedAt | Choices | Usage | Index | Message | Role | Content | FinishReason
    | PromptTokens | CompletionTokens | TotalTokens
    | Other(name: string)

  type Value = Json<Key>

  /** What the run is asked to do, its bounds already checked. */
  datatype Input = Input(origin: string, organizationId: string, modelId: string, pricingRevision: string,
                         maximumChargeMicros: nat, idempotencyKey: string, executeLive: bool)

  /** Reading JSON text and white space are the platform's. */
  datatype Platform = Platform(decode: Bytes -> Option<Value>, blank: string -> bool)

  datatype Chunk = Chunk(bytes: Bytes) | Foreign

  datatype StreamEnd = Done | Broken | TimedOut

  datatype Headers = Headers(requestId: Option<string>, billedMicros: Option<string>, moneyPolicy: Option<string>)

  /** What a request brings back: nothing in time, or a status with a body stream. */
  datatype Answer = Lost(timedOut: bool) | Reply(status: nat, headers: Headers, hasBody: bool, chunks: seq<Chunk>, end: StreamEnd)

  datatype Request =
    | GetDiscovery(origin: string)
    | GetModels(origin: string, apiKey: string)
    | GetWallet(origin: string, apiKey: string, organizationId: string)
    | PostCompletion(origin: string, apiKey: string, model: string, idempotencyKey: string, pricingRevision: string)

  datatype Status = Skipped | Failed | Unknown | Passed

  datatype Stage = NoStage | Local | Discovery | Models | WalletStage | Post | Replay

  datatype Reason =
    | InvalidInput | NotRequested | CredentialUnavailable | Http | MalformedAnswer | BudgetExceeded | WalletInsufficient
    | TransportError | Timeout | ReplayMismatch

  datatype Completion = Completion(body: Bytes, requestId: string, billedMicros: nat)

  datatype Result = Result(status: Status, stage: Stage, reason: Option<Reason>, response: Option<Completion>)

  // ----- Reading a body -----

  const MAX_RESPONSE_BYTES := 262144

  function Concat(chunks: seq<Chunk>): Bytes {
    if chunks == [] then []
    else
      var last := chunks[|chunks| - 1];
      Concat(chunks[..|chunks| - 1]) + if last.Chunk? then last.bytes else []
  }

  /** The first chunks are all bytes and stay within the bound. */
  predicate WithinBound(chunks: seq<Chunk>) {
    (forall c | c in chunks :: c.Chunk?) && |Concat(chunks)| <= MAX_RESPONSE_BYTES
  }

  datatype Body = Read(bytes: Bytes) | Malformed | Network(timedOut: bool)

  /** `end` is what follows the last chunk read; after a chunk that is refused, whether
      cancelling the stream outlasts the timer. */
  function BodyOf(hasBody: bool, chunks: seq<Chunk>, end: StreamEnd): Body {
    if !hasBody then Malformed
    else if !WithinBound(chunks) then if end.TimedOut? then Network(true) else Malformed
    else if end.Done? then Read(Concat(chunks))
    else Network(end.TimedOut?)
  }

  lemma {:induction false} BoundGrows(chunks: seq<Chunk>, n: nat)
    requires n <= |chunks| && WithinBound(chunks)
    ensures WithinBound(chunks[..n])
    decreases |chunks| - n
  {
    if n == |chunks| {
      assert chunks[..n] == chunks;
    } else {
      BoundGrows(chunks, n + 1);
      assert chunks[..n + 1][..n] == chunks[..n];
      assert forall c | c in chunks[..n] :: c in chunks[..n + 1];
    }
  }

  /** `readResponseBody`: the exact bytes of all chunks, never more than the bound. */
  method ReadResponseBody(hasBody: bool, chunks: seq<Chunk>, end: StreamEnd) returns (r: Body)
    ensures r == BodyOf(hasBody, chunks, end)
    ensures r.Read? ==> |r.bytes| <= MAX_RESPONSE_BYTES
  {
    if !hasBody {
      return Malformed;
    }
    var size := 0;
    for n := 0 to |chunks|
      invariant WithinBound(chunks[..n]) && size == |Concat(chunks[..n])|
    {
      assert chunks[..n + 1][..n] == chunks[..n];
      assert chunks[..n + 1] == chunks[..n] + [chunks[n]];
      if chunks[n].Foreign? || |chunks[n].bytes| > MAX_RESPONSE_BYTES - size {
        assert chunks[n] in chunks[..n + 1];
        if WithinBound(chunks) {
          BoundGrows(chunks, n + 1);
        }
        return if end.TimedOut? then Network(true) else Malformed;
      }
      size := size + |chunks[n].bytes|;
    }
    assert chunks[..|chunks|] == chunks;
    if !end.Done? {
      return Network(end.TimedOut?);
    }
    var bytes := Join(chunks, size);
    return Read(bytes);
  }

  /** `body.set(chunk, offset)` */
  method CopyInto(body: array<bv8>, offset: nat, chunk: Bytes)
    requires offset + |chunk| <= body.Length
    modifies body
    ensures body[..offset + |chunk|] == old(body[..offset]) + chunk
  {
    forall k | 0 <= k < |chunk| {
      body[offset + k] := chunk[k];
    }
  }

  /** The chunks copied one after another into one buffer. */
  method Join(chunks: seq<Chunk>, size: nat) returns (bytes: Bytes)
    requires (forall c | c in chunks :: c.Chunk?) && size == |Concat(chunks)|
    ensures bytes == Concat(chunks)
  {
    hide Concat;
    var body := new bv8[size];
    var offset := 0;
    NothingJoined(chunks);
    for n := 0 to |chunks|
      invariant offset == |Concat(chunks[..n])| <= size
      invariant body[..offset] == Concat(chunks[..n])
    {
      LongerConcat(chunks, n + 1);
      OneJoined(chunks, n);
      CopyInto(body, offset, chunks[n].bytes);
      offset := offset + |chunks[n].bytes|;
    }
    assert chunks[..|chunks|] == chunks;
    bytes := body[..];
  }

  lemma NothingJoined(chunks: seq<Chunk>)
    ensures Concat(chunks[..0]) == []
  {
  }

  lemma OneJoined(chunks: seq<Chunk>, n: nat)
    requires n < |chunks| && chunks[n].Chunk?
    ensures Concat(chunks[..n + 1]) == Concat(chunks[..n]) + chunks[n].bytes
  {
    assert chunks[..n + 1][..n] == chunks[..n];
  }

  lemma {:induction false} LongerConcat(chunks: seq<Chunk>, n: nat)
    requires n <= |chunks|
    ensures |Concat(chunks[..n])| <= |Concat(chunks)|
    decreases |chunks| - n
  {
    if n == |chunks| {
      assert chunks[..n] == chunks;
    } else {
      LongerConcat(chunks, n + 1);
      assert chunks[..n + 1][..n] == chunks[..n];
    }
  }

  /** `equalBytes` */
  method EqualBytes(left: Bytes, right: Bytes) returns (equal: bool)
    ensures equal <==> left == right
  {
    if |left| != |right| {
      return false;
    }
    for i := 0 to |left|
      invariant left[..i] == right[..i]
    {
      if left[i] != right[i] {
        return false;
      }
    }
    assert left == left[..|left|] && right == right[..|right|];
    return true;
  }

  // ----- Understanding the answers -----

  predicate IsCount(v: Value) {
    IsSafeInteger(v) && v.n >= 0
  }

  /** `^[\x21-\x7e]{1,256}$` */
  predicate IsSafeHeader(s: string) {
    1 <= |s| <= 256 && forall i | 0 <= i < |s| :: '!' <= s[i] <= '~'
  }

  predicate IsMicros(s: string) {
    IsCanonicalDecimal(s) && Decimal(s) <= MAX_SAFE_INTEGER
  }

  predicate ValidDiscovery(v: Value, origin: string) {
    && v.Get(Product) == Str("takoserver") && v.Get(ApiVersion) == Str("v1")
    && v.Get(Endpoints).Obj? && v.Get(Endpoints).Get(Api) == Str(origin)
    && v.Get(Endpoints).Get(Ai) == Str(origin + "/v1/ai")
  }

  function Named(items: seq<Value>, id: string): seq<Value> {
    if items == [] then []
    else (if items[0].Obj? && items[0].Get(Id) == Str(id) then [items[0]] else []) + Named(items[1..], id)
  }

  /** `matchingModel` without the budget: the one model's maximum charge. */
  function MaximumCharge(v: Value, input: Input): Option<nat> {
    if v.Get(Object) != Str("list") || !v.Get(DataList).Arr? then None
    else
      var matches := Named(v.Get(DataList).items, input.modelId);
      if |matches| != 1 then None
      else
        var model := matches[0];
        var terms := model.Get(Takoserver);
        if model.Get(Object) != Str("model") || terms.Get(PricingRevision) != Str(input.pricingRevision) then None
        else if terms.Get(MoneyPolicy) != Str("usd-micros-v2") || !terms.Get(MaximumChargeMicros).Str? then None
        else if !IsMicros(terms.Get(MaximumChargeMicros).s) then None
        else Some(Decimal(terms.Get(MaximumChargeMicros).s))
  }

  /** `parseWallet` */
  function AvailableIn(v: Value, input: Input): Option<nat> {
    var wallet := v.Get(Wallet);
    if wallet.Get(OrganizationId) != Str(input.organizationId) || wallet.Get(Currency) != Str("USD") then None
    else if !IsCount(wallet.Get(AvailableMicros)) then None
    else Some(wallet.Get(AvailableMicros).n)
  }

  predicate ValidChoice(p: Platform, v: Value) {
    && v.Obj? && IsCount(v.Get(Index))
    && v.Get(Message).Get(Role) == Str("assistant")
    && v.Get(Message).Get(Content).Str? && !p.blank(v.Get(Message).Get(Content).s)
    && FinishReason in v.fields && (v.Get(FinishReason) == Null || v.Get(FinishReason).Str?)
  }

  predicate ValidCompletion(p: Platform, v: Value, modelId: string) {
    && v.Get(Object) == Str("chat.completion") && v.Get(Model) == Str(modelId)
    && v.Get(Id).Str? && IsSafeHeader(v.Get(Id).s) && IsCount(v.Get(CreatedAt))
    && v.Get(Choices).Arr? && |v.Get(Choices).items| >= 1 && ValidChoice(p, v.Get(Choices).items[0])
    && var usage := v.Get(Usage);
       IsCount(usage.Get(PromptTokens)) && IsCount(usage.Get(CompletionTokens)) && IsCount(usage.Get(TotalTokens)) &&
       usage.Get(TotalTokens).n == usage.Get(PromptTokens).n + usage.Get(CompletionTokens).n
  }

  /** `parseCompletionResponse` on a body that was read. */
  function CompletionIn(p: Platform, bytes: Bytes, h: Headers, modelId: string, maximum: nat): Option<Completion> {
    var value := p.decode(bytes);
    if value.None? || !ValidCompletion(p, value.value, modelId) then None
    else if h.requestId.None? || !IsSafeHeader(h.requestId.value) || h.moneyPolicy != Some("usd-micros-v2") then None
    else if h.billedMicros.None? || !IsMicros(h.billedMicros.value) || Decimal(h.billedMicros.value) > maximum then None
    else Some(Completion(bytes, h.requestId.value, Decimal(h.billedMicros.value)))
  }

  // ----- What an answer amounts to -----

  /** No answer, or a stream that stopped: the request may have been served. */
  predicate IsNetworkLoss(a: Answer) {
    a.Lost? || (a.status == 200 && BodyOf(a.hasBody, a.chunks, a.end).Network?)
  }

  function LossReason(a: Answer): Reason
    requires IsNetworkLoss(a)
  {
    if (if a.Lost? then a.timedOut else BodyOf(a.hasBody, a.chunks, a.end).timedOut) then Timeout else TransportError
  }

  /** The JSON value of a good answer. */
  function JsonOf(p: Platform, a: Answer): Option<Value> {
    if a.Lost? || a.status != 200 then None
    else
      var body := BodyOf(a.hasBody, a.chunks, a.end);
      if body.Read? then p.decode(body.bytes) else None
  }

  function CompletionOf(p: Platform, a: Answer, modelId: string, maximum: nat): Option<Completion> {
    if a.Lost? || a.status != 200 then None
    else
      var body := BodyOf(a.hasBody, a.chunks, a.end);
      if body.Read? then CompletionIn(p, body.bytes, a.headers, modelId, maximum) else None
  }

  /** Why a good answer was not one. */
  function ReasonFor(a: Answer): Reason {
    if IsNetworkLoss(a) then LossReason(a)
    else if a.Reply? && a.status != 200 then Http
    else MalformedAnswer
  }

  /** `getJson` */
  method GetJson(p: Platform, a: Answer) returns (v: Option<Value>)
    ensures v == JsonOf(p, a)
  {
    if a.Lost? || a.status != 200 {
      return None;
    }
    var body := ReadResponseBody(a.hasBody, a.chunks, a.end);
    match body
    case Read(bytes) => return p.decode(bytes);
    case _ => return None;
  }

  method ParseCompletion(p: Platform, a: Answer, modelId: string, maximum: nat) returns (c: Option<Completion>)
    ensures c == CompletionOf(p, a, modelId, maximum)
    ensures c.Some? ==> c.value.billedMicros <= maximum
  {
    if a.Lost? || a.status != 200 {
      return None;
    }
    var body := ReadResponseBody(a.hasBody, a.chunks, a.end);
    match body
    case Read(bytes) => return CompletionIn(p, bytes, a.headers, modelId, maximum);
    case _ => return None;
  }

  // ----- The same on the answers' own fields -----

  /** The answer brought this body, whole. */
  predicate Brings(a: Answer, bytes: Bytes) {
    && a.Reply? && a.status == 200 && a.hasBody && a.end.Done?
    && (forall c | c in a.chunks :: c.Chunk?) && bytes == Concat(a.chunks) && |bytes| <= 262144
  }

  /** Nothing came in time, or the body did not end in time. */
  predicate TooLate(a: Answer) {
    if a.Lost? then a.timedOut else a.status == 200 && a.hasBody && a.end.TimedOut?
  }

  /** The connection broke before an answer, or in a body that was good so far. */
  predicate BrokeOff(a: Answer) {
    if a.Lost? then !a.timedOut
    else
      && a.status == 200 && a.hasBody && a.end.Broken?
      && (forall c | c in a.chunks :: c.Chunk?) && |Concat(a.chunks)| <= 262144
  }

  predicate Denied(a: Answer) {
    a.Reply? && a.status != 200
  }

  /** The reason blames the answer exactly for what it was. */
  predicate Blames(reason: Option<Reason>, a: Answer) {
    && (reason == Some(Timeout) <==> TooLate(a))
    && (reason == Some(TransportError) <==> BrokeOff(a))
    && (reason == Some(Http) <==> Denied(a))
  }

  lemma BlamedExactly(a: Answer)
    ensures Blames(Some(ReasonFor(a)), a) && (IsNetworkLoss(a) <==> TooLate(a) || BrokeOff(a))
  {
  }

  lemma Blameless(p: Platform, a: Answer)
    ensures JsonOf(p, a).Some? ==> !TooLate(a) && !BrokeOff(a) && !Denied(a)
  {
  }

  predicate Discovers(v: Value, origin: string) {
    && v.Get(Product) == Str("takoserver") && v.Get(ApiVersion) == Str("v1")
    && v.Get(Endpoints).Get(Api) == Str(origin) && v.Get(Endpoints).Get(Ai) == Str(origin + "/v1/ai")
  }

  predicate IsModel(item: Value, id: string) {
    item.Obj? && item.Get(Id) == Str(id)
  }

  /** The list holds the asked model just once, under the asked revision, with this maximum. */
  predicate Lists(v: Value, input: Input, maximum: nat) {
    && v.Get(Object) == Str("list") && v.Get(DataList).Arr?
    && var items := v.Get(DataList).items;
       exists k | 0 <= k < |items| :: OnlyModel(items, k, input.modelId) && Charges(items[k], input, maximum)
  }

  predicate OnlyModel(items: seq<Value>, k: nat, id: string) {
    k < |items| && IsModel(items[k], id) && forall j | 0 <= j < |items| && j != k :: !IsModel(items[j], id)
  }

  predicate Charges(model: Value, input: Input, maximum: nat) {
    var terms := model.Get(Takoserver);
    && model.Get(Object) == Str("model") && terms.Get(PricingRevision) == Str(input.pricingRevision)
    && terms.Get(MoneyPolicy) == Str("usd-micros-v2") && terms.Get(MaximumChargeMicros).Str?
    && IsMicros(terms.Get(MaximumChargeMicros).s) && maximum == Decimal(terms.Get(MaximumChargeMicros).s)
  }

  /** The wallet is the Organization's, in dollars, and holds at least this. */
  predicate Funds(v: Value, input: Input, least: nat) {
    var wallet := v.Get(Wallet);
    && wallet.Get(OrganizationId) == Str(input.organizationId) && wallet.Get(Currency) == Str("USD")
    && wallet.Get(AvailableMicros).Num? && least <= wallet.Get(AvailableMicros).n <= MAX_SAFE_INTEGER
  }

  /** The answer is this JSON value. */
  predicate Tells(p: Platform, a: Answer, v: Value) {
    Brings(a, BytesOf(a)) && p.decode(BytesOf(a)) == Some(v)
  }

  /** The server is the one asked for, and lists the model with this maximum. */
  ghost predicate Offers(p: Platform, input: Input, server: nat -> Answer, maximum: nat) {
    && (exists v :: Tells(p, server(0), v) && Discovers(v, input.origin))
    && (exists v :: Tells(p, server(1), v) && Lists(v, input, maximum))
  }

  /** The three preflight answers, and the listed maximum they clear. */
  ghost predicate Preflight(p: Platform, input: Input, server: nat -> Answer, maximum: nat) {
    && maximum <= input.maximumChargeMicros && Offers(p, input, server, maximum)
    && (exists v :: Tells(p, server(2), v) && Funds(v, input, maximum))
  }

  ghost predicate OverBudget(p: Platform, input: Input, server: nat -> Answer) {
    exists maximum: nat :: Offers(p, input, server, maximum) && maximum > input.maximumChargeMicros
  }

  ghost predicate Underfunded(p: Platform, input: Input, server: nat -> Answer) {
    exists maximum: nat, v ::
      Offers(p, input, server, maximum) && maximum <= input.maximumChargeMicros && Tells(p, server(2), v) &&
      Funds(v, input, 0) && !Funds(v, input, maximum)
  }

  function BytesOf(a: Answer): Bytes {
    if a.Reply? then Concat(a.chunks) else []
  }

  /** The answer is a completion of the model: an assistant's words, tokens that add
      up, and a bill within the maximum. */
  predicate Completes(p: Platform, a: Answer, modelId: string, maximum: nat, c: Completion) {
    && Brings(a, c.body) && p.decode(c.body).Some?
    && a.headers.requestId == Some(c.requestId) && IsSafeHeader(c.requestId) && a.headers.moneyPolicy == Some("usd-micros-v2")
    && a.headers.billedMicros.Some? && IsMicros(a.headers.billedMicros.value)
    && c.billedMicros == Decimal(a.headers.billedMicros.value) <= maximum
    && var v := p.decode(c.body).value;
       && v.Get(Object) == Str("chat.completion") && v.Get(Model) == Str(modelId)
       && v.Get(Id).Str? && IsSafeHeader(v.Get(Id).s) && IsCount(v.Get(CreatedAt))
       && v.Get(Choices).Arr? && v.Get(Choices).items != [] && Speaks(p, v.Get(Choices).items[0])
       && AddsUp(v.Get(Usage))
  }

  predicate Speaks(p: Platform, choice: Value) {
    && choice.Obj? && IsCount(choice.Get(Index)) && choice.Get(Message).Get(Role) == Str("assistant")
    && choice.Get(Message).Get(Content).Str? && !p.blank(choice.Get(Message).Get(Content).s)
    && FinishReason in choice.fields && (choice.Get(FinishReason).Null? || choice.Get(FinishReason).Str?)
  }

  predicate AddsUp(usage: Value) {
    && IsCount(usage.Get(PromptTokens)) && IsCount(usage.Get(CompletionTokens)) && IsCount(usage.Get(TotalTokens))
    && usage.Get(PromptTokens).n + usage.Get(CompletionTokens).n == usage.Get(TotalTokens).n
  }

  lemma {:induction false} NamedExactly(items: seq<Value>, id: string)
    ensures Named(items, id) == [] <==> forall k | 0 <= k < |items| :: !IsModel(items[k], id)
    ensures forall v :: Named(items, id) == [v] <==> exists k | 0 <= k < |items| :: OnlyModel(items, k, id) && items[k] == v
  {
    if items != [] {
      var rest := items[1..];
      NamedExactly(rest, id);
      assert forall k | 0 < k < |items| :: items[k] == rest[k - 1];
      forall v
        ensures Named(items, id) == [v] <==> exists k | 0 <= k < |items| :: OnlyModel(items, k, id) && items[k] == v
      {
        if IsModel(items[0], id) {
          assert Named(items, id) == [items[0]] + Named(rest, id);
          assert Named(rest, id) == [] <==> OnlyModel(items, 0, id);
          assert forall k | 0 < k < |items| :: !OnlyModel(items, k, id);
          assert Named(items, id) == [v] <==> Named(rest, id) == [] && v == items[0];
        } else {
          NamedInRest(items, id, v);
        }
      }
    }
  }

  lemma NamedInRest(items: seq<Value>, id: string, v: Value)
    requires items != [] && !IsModel(items[0], id)
    ensures (exists k | 0 <= k < |items| :: OnlyModel(items, k, id) && items[k] == v) <==>
            (exists k | 0 <= k < |items[1..]| :: OnlyModel(items[1..], k, id) && items[1..][k] == v)
  {
    var rest := items[1..];
    assert forall k | 0 < k < |items| :: items[k] == rest[k - 1];
    if k :| 0 <= k < |items| && OnlyModel(items, k, id) && items[k] == v {
      assert OnlyModel(rest, k - 1, id) && rest[k - 1] == v;
    }
    if k :| 0 <= k < |rest| && OnlyModel(rest, k, id) && rest[k] == v {
      assert OnlyModel(items, k + 1, id) && items[k + 1] == v;
    }
  }

  lemma ListedExactly(v: Value, input: Input, maximum: nat)
    ensures MaximumCharge(v, input) == Some(maximum) <==> Lists(v, input, maximum)
  {
    hide IsMicros, Named;
    if v.Get(DataList).Arr? {
      var items := v.Get(DataList).items;
      NamedExactly(items, input.modelId);
      var matches := Named(items, input.modelId);
      if |matches| == 1 {
        assert matches == [matches[0]];
      }
      forall k | 0 <= k < |items| && OnlyModel(items, k, input.modelId)
        ensures matches == [items[k]]
      {
      }
    }
  }

  lemma FundedExactly(v: Value, input: Input, least: nat)
    ensures AvailableIn(v, input).Some? && AvailableIn(v, input).value >= least <==> Funds(v, input, least)
  {
  }

  lemma BroughtExactly(a: Answer, bytes: Bytes)
    ensures Brings(a, bytes) <==> a.Reply? && a.status == 200 && BodyOf(a.hasBody, a.chunks, a.end) == Read(bytes)
    ensures Brings(a, bytes) ==> bytes == BytesOf(a)
  {
  }

  lemma CompletedExactly(p: Platform, a: Answer, modelId: string, maximum: nat, c: Completion)
    ensures CompletionOf(p, a, modelId, maximum) == Some(c) <==> Completes(p, a, modelId, maximum, c)
  {
    hide BodyOf, IsSafeHeader, IsMicros, Brings;
    BroughtExactly(a, c.body);
  }

  // ----- The run -----

  lemma JsonExactly(p: Platform, a: Answer, v: Value)
    ensures JsonOf(p, a) == Some(v) <==> Tells(p, a, v)
  {
    hide Brings;
    BroughtExactly(a, BytesOf(a));
    if a.Reply? && a.status == 200 && BodyOf(a.hasBody, a.chunks, a.end).Read? {
      BroughtExactly(a, BodyOf(a.hasBody, a.chunks, a.end).bytes);
    }
  }

  /** The maximum the first two answers offer, if they do. */
  function Offered(p: Platform, input: Input, server: nat -> Answer): Option<nat> {
    var discovery, models := JsonOf(p, server(0)), JsonOf(p, server(1));
    if discovery.None? || !ValidDiscovery(discovery.value, input.origin) || models.None? then None
    else MaximumCharge(models.value, input)
  }

  lemma OfferedExactly(p: Platform, input: Input, server: nat -> Answer, maximum: nat)
    ensures Offered(p, input, server) == Some(maximum) <==> Offers(p, input, server, maximum)
  {
    hide BodyOf, MaximumCharge, Lists, Tells, JsonOf;
    var discovery, models := JsonOf(p, server(0)), JsonOf(p, server(1));
    forall v
      ensures discovery == Some(v) <==> Tells(p, server(0), v)
      ensures models == Some(v) <==> Tells(p, server(1), v)
    {
      JsonExactly(p, server(0), v);
      JsonExactly(p, server(1), v);
    }
    if models.Some? {
      ListedExactly(models.value, input, maximum);
    }
    assert discovery.Some? ==> Tells(p, server(0), discovery.value);
    assert models.Some? ==> Tells(p, server(1), models.value);
  }

  lemma ClearedExactly(p: Platform, input: Input, server: nat -> Answer, maximum: nat)
    ensures Cleared(p, input, server) == Some(maximum) <==> Preflight(p, input, server, maximum)
  {
    hide Offered, Offers, AvailableIn, Funds, Tells, JsonOf;
    OfferedExactly(p, input, server, maximum);
    var wallet := JsonOf(p, server(2));
    forall v
      ensures wallet == Some(v) <==> Tells(p, server(2), v)
    {
      JsonExactly(p, server(2), v);
    }
    if wallet.Some? {
      FundedExactly(wallet.value, input, maximum);
      assert Tells(p, server(2), wallet.value);
    }
  }

  /** Why a preflight that was understood does not clear. */
  lemma RefusedExactly(p: Platform, input: Input, server: nat -> Answer)
    ensures OverBudget(p, input, server) <==>
            Offered(p, input, server).Some? && Offered(p, input, server).value > input.maximumChargeMicros
    ensures Underfunded(p, input, server) <==>
            var offered, wallet := Offered(p, input, server), JsonOf(p, server(2));
            offered.Some? && offered.value <= input.maximumChargeMicros && wallet.Some? &&
            AvailableIn(wallet.value, input).Some? && AvailableIn(wallet.value, input).value < offered.value
  {
    hide Offered, Offers, AvailableIn, Funds, Tells, JsonOf;
    var offered, wallet := Offered(p, input, server), JsonOf(p, server(2));
    forall m: nat
      ensures offered == Some(m) <==> Offers(p, input, server, m)
    {
      OfferedExactly(p, input, server, m);
    }
    forall v
      ensures wallet == Some(v) <==> Tells(p, server(2), v)
    {
      JsonExactly(p, server(2), v);
    }
    assert offered.Some? ==> Offers(p, input, server, offered.value);
    if wallet.Some? {
      FundedExactly(wallet.value, input, 0);
      assert Tells(p, server(2), wallet.value);
      if offered.Some? {
        FundedExactly(wallet.value, input, offered.value);
      }
    }
  }

  /** The maximum charge the preflight answers allow, if they do. */
  function Cleared(p: Platform, input: Input, server: nat -> Answer): Option<nat> {
    var maximum, wallet := Offered(p, input, server), JsonOf(p, server(2));
    if maximum.None? || maximum.value > input.maximumChargeMicros || wallet.None? then None
    else
      var available := AvailableIn(wallet.value, input);
      if available.None? || available.value < maximum.value then None else maximum
  }

  function StageAfter(requests: nat): Stage {
    if requests == 0 then Local else if requests == 1 then Discovery else if requests == 2 then Models
    else if requests == 3 then WalletStage else if requests == 4 then Post else Replay
  }

  method FailAt(a: Answer, requests: seq<Request>) returns (r: Result)
    requires 1 <= |requests| <= 5
    ensures r.status == (if |requests| >= 4 && (TooLate(a) || BrokeOff(a)) then Unknown else Failed)
    ensures r.stage == StageAfter(|requests|) && r.response.None? && Blames(r.reason, a)
    ensures r.reason.Some? && r.reason.value in {Timeout, TransportError, Http, MalformedAnswer}
  {
    BlamedExactly(a);
    r := Result(if |requests| >= 4 && IsNetworkLoss(a) then Unknown else Failed, StageAfter(|requests|),
                Some(ReasonFor(a)), None);
  }

  /** The preflight answers clear a paid request. */
  ghost predicate MayPay(p: Platform, input: Input, server: nat -> Answer) {
    exists maximum: nat :: Preflight(p, input, server, maximum)
  }

  /** And the first of them brought a completion. */
  ghost predicate MayReplay(p: Platform, input: Input, server: nat -> Answer) {
    exists maximum: nat, c ::
      Preflight(p, input, server, maximum) && Completes(p, server(3), input.modelId, maximum, c)
  }

  /** And the second brought the same. */
  ghost predicate OneCompletion(p: Platform, input: Input, server: nat -> Answer) {
    exists maximum: nat, c ::
      Preflight(p, input, server, maximum) && Completes(p, server(3), input.modelId, maximum, c) &&
      Completes(p, server(4), input.modelId, maximum, c)
  }

  /** What the intermediate results amount to, on the answers' own fields. */
  lemma Explained(p: Platform, input: Input, server: nat -> Answer)
    ensures var cleared := Cleared(p, input, server);
            (MayPay(p, input, server) <==> cleared.Some?) &&
            (cleared.None? ==> !MayReplay(p, input, server) && !OneCompletion(p, input, server)) &&
            (cleared.Some? ==>
               var first, replay := CompletionOf(p, server(3), input.modelId, cleared.value),
                                    CompletionOf(p, server(4), input.modelId, cleared.value);
               (MayReplay(p, input, server) <==> first.Some?) &&
               (OneCompletion(p, input, server) <==> first.Some? && replay == first) &&
               (first.Some? && replay == first ==>
                  Preflight(p, input, server, cleared.value) &&
                  Completes(p, server(3), input.modelId, cleared.value, first.value) &&
                  Completes(p, server(4), input.modelId, cleared.value, first.value)))
  {
    hide Cleared, Preflight, CompletionOf, Completes;
    var cleared := Cleared(p, input, server);
    forall m: nat
      ensures Preflight(p, input, server, m) <==> cleared == Some(m)
    {
      ClearedExactly(p, input, server, m);
    }
    if cleared.Some? {
      assert Preflight(p, input, server, cleared.value);
      var first, replay := CompletionOf(p, server(3), input.modelId, cleared.value),
                           CompletionOf(p, server(4), input.modelId, cleared.value);
      forall c
        ensures Completes(p, server(3), input.modelId, cleared.value, c) <==> first == Some(c)
        ensures Completes(p, server(4), input.modelId, cleared.value, c) <==> replay == Some(c)
      {
        CompletedExactly(p, server(3), input.modelId, cleared.value, c);
        CompletedExactly(p, server(4), input.modelId, cleared.value, c);
      }
      if first.Some? {
        assert Completes(p, server(3), input.modelId, cleared.value, first.value);
      }
    }
  }

  /** The run goes to the server at all. */
  predicate Live(input: Option<Input>, apiKey: Option<string>) {
    input.Some? && input.value.executeLive && apiKey.Some?
  }

  /** Discovery without a key, the models, the Organization's wallet, and one paid
      request, word for word the same when it is sent again. */
  predicate InOrder(requests: seq<Request>, input: Input, apiKey: string) {
    && |requests| <= 5
    && (|requests| > 0 ==> requests[0] == GetDiscovery(input.origin))
    && (|requests| > 1 ==> requests[1] == GetModels(input.origin, apiKey))
    && (|requests| > 2 ==> requests[2] == GetWallet(input.origin, apiKey, input.organizationId))
    && (|requests| > 3 ==>
          requests[3] == PostCompletion(input.origin, apiKey, input.modelId, input.idempotencyKey, input.pricingRevision))
    && (|requests| > 4 ==> requests[4] == requests[3])
  }

  /** `runAiLiveQualification`, against any answers. */
  method Qualify(p: Platform, input: Option<Input>, apiKey: Option<string>, server: nat -> Answer)
    returns (r: Result, requests: seq<Request>)
    ensures !Live(input, apiKey) ==> requests == [] && r.status in {Failed, Skipped}
    ensures Live(input, apiKey) ==>
              requests != [] && InOrder(requests, input.value, apiKey.value) && r.stage == StageAfter(|requests|)
    // A paid request goes out exactly when the preflight answers clear it, and again exactly after a completion.
    ensures |requests| > 3 <==> Live(input, apiKey) && MayPay(p, input.value, server)
    ensures |requests| > 4 <==> Live(input, apiKey) && MayReplay(p, input.value, server)
    // A lost paid request may have been served; every reason is that of the last answer.
    ensures r.status.Unknown? <==> |requests| > 3 && (TooLate(server(|requests| - 1)) || BrokeOff(server(|requests| - 1)))
    ensures requests != [] ==> Blames(r.reason, server(|requests| - 1))
    ensures r.status.Passed? <==> Live(input, apiKey) && OneCompletion(p, input.value, server)
    ensures r.status.Passed? ==> r.response.Some? && exists maximum: nat ::
              Preflight(p, input.value, server, maximum) &&
              Completes(p, server(3), input.value.modelId, maximum, r.response.value) &&
              Completes(p, server(4), input.value.modelId, maximum, r.response.value)
    ensures r.status.Skipped? <==> input.Some? && !input.value.executeLive
    ensures r.reason == Some(BudgetExceeded) <==> Live(input, apiKey) && OverBudget(p, input.value, server)
    ensures r.reason == Some(WalletInsufficient) <==> Live(input, apiKey) && Underfunded(p, input.value, server)
    ensures r.reason == Some(ReplayMismatch) <==> |requests| == 5 && r.status.Failed? && r.response.Some?
  {
    hide Preflight, Completes, MayPay, MayReplay, OneCompletion, OverBudget, Underfunded, CompletionOf, IsNetworkLoss,
      Offered, JsonOf, AvailableIn, TooLate, BrokeOff, Denied;
    requests := [];
    if input.None? {
      return Result(Failed, Local, Some(InvalidInput), None), requests;
    }
    var asked := input.value;
    if !asked.executeLive {
      return Result(Skipped, NoStage, Some(NotRequested), None), requests;
    }
    if apiKey.None? {
      return Result(Failed, Local, Some(CredentialUnavailable), None), requests;
    }
    Explained(p, asked, server);
    RefusedExactly(p, asked, server);
    var maximum;
    maximum, r, requests := ClearFirst(p, asked, apiKey.value, server);
    if maximum.None? {
      return;
    }
    var post := PostCompletion(asked.origin, apiKey.value, asked.modelId, asked.idempotencyKey, asked.pricingRevision);
    requests := requests + [post];
    var first := ParseCompletion(p, server(3), asked.modelId, maximum.value);
    if first.None? {
      r := FailAt(server(3), requests);
      return;
    }
    LossIsNone(p, server(3), asked.modelId, maximum.value);
    requests := requests + [post];
    var replay := ParseCompletion(p, server(4), asked.modelId, maximum.value);
    if replay.None? {
      r := FailAt(server(4), requests);
      return;
    }
    LossIsNone(p, server(4), asked.modelId, maximum.value);
    var same := EqualBytes(first.value.body, replay.value.body);
    if !same || first.value.requestId != replay.value.requestId || first.value.billedMicros != replay.value.billedMicros {
      return Result(Failed, Replay, Some(ReplayMismatch), first), requests;
    }
    return Result(Passed, Replay, None, first), requests;
  }

  lemma LossIsNone(p: Platform, a: Answer, modelId: string, maximum: nat)
    ensures CompletionOf(p, a, modelId, maximum).Some? ==> !TooLate(a) && !BrokeOff(a) && !Denied(a)
  {
    hide CompletionIn;
  }

  /** The three questions before any money moves. */
  method ClearFirst(p: Platform, asked: Input, apiKey: string, server: nat -> Answer)
    returns (maximum: Option<nat>, r: Result, requests: seq<Request>)
    ensures maximum == Cleared(p, asked, server) && 1 <= |requests| <= 3 && InOrder(requests, asked, apiKey)
    ensures maximum.Some? ==> |requests| == 3
    ensures maximum.None? ==> r.status.Failed? && r.stage == StageAfter(|requests|) && r.reason != Some(ReplayMismatch)
    ensures maximum.None? ==> Blames(r.reason, server(|requests| - 1))
    ensures r.reason == Some(BudgetExceeded) <==>
            Offered(p, asked, server).Some? && Offered(p, asked, server).value > asked.maximumChargeMicros
    ensures r.reason == Some(WalletInsufficient) <==>
            var offered, wallet := Offered(p, asked, server), JsonOf(p, server(2));
            offered.Some? && offered.value <= asked.maximumChargeMicros && wallet.Some? &&
            AvailableIn(wallet.value, asked).Some? && AvailableIn(wallet.value, asked).value < offered.value
  {
    hide BodyOf, ValidDiscovery, MaximumCharge, AvailableIn, IsNetworkLoss, TooLate, BrokeOff, Denied, JsonOf;
    r := Result(Failed, Local, None, None);
    Blameless(p, server(1));
    Blameless(p, server(2));
    requests := [GetDiscovery(asked.origin)];
    var discovery := GetJson(p, server(0));
    if discovery.None? || !ValidDiscovery(discovery.value, asked.origin) {
      r := FailAt(server(0), requests);
      return None, r, requests;
    }
    requests := requests + [GetModels(asked.origin, apiKey)];
    var models := GetJson(p, server(1));
    if models.None? {
      r := FailAt(server(1), requests);
      return None, r, requests;
    }
    var listed := MaximumCharge(models.value, asked);
    if listed.None? {
      return None, Result(Failed, Models, Some(MalformedAnswer), None), requests;
    }
    if listed.value > asked.maximumChargeMicros {
      return None, Result(Failed, Models, Some(BudgetExceeded), None), requests;
    }
    requests := requests + [GetWallet(asked.origin, apiKey, asked.organizationId)];
    var wallet := GetJson(p, server(2));
    if wallet.None? {
      r := FailAt(server(2), requests);
      return None, r, requests;
    }
    var available := AvailableIn(wallet.value, asked);
    if available.None? {
      return None, Result(Failed, WalletStage, Some(MalformedAnswer), None), requests;
    }
    if available.value < listed.value {
      return None, Result(Failed, WalletStage, Some(WalletInsufficient), None), requests;
    }
    return listed, r, requests;
  }
}
