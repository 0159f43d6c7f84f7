/** A codec that keeps the laws the journal needs, so that they are known to be
    consistent. It writes a value as a list of numbers and these as bytes. */
module JournalCodec {
  import opened Values
  import opened Journal
  import opened JournalBytes

  // ----- Numbers as bytes -----

  const STROKE: byte := 73
  const GAP: byte := 47

  function Strokes(n: nat): Bytes {
    seq(n, _ => STROKE)
  }

  function Spell(ns: seq<nat>): Bytes {
    if ns == [] then [] else Strokes(ns[0]) + [GAP] + Spell(ns[1..])
  }

  lemma {:induction false} SpellUnique(ms: seq<nat>, ns: seq<nat>)
    requires Spell(ms) == Spell(ns)
    ensures ms == ns
  {
    if ms != [] && ns != [] {
      var m, n := ms[0], ns[0];
      assert Spell(ms)[m] == GAP && Spell(ns)[n] == GAP;
      assert forall i | 0 <= i < m :: Spell(ms)[i] == STROKE;
      assert forall i | 0 <= i < n :: Spell(ns)[i] == STROKE;
      assert m == n;
      assert Spell(ms[1..]) == Spell(ms)[m + 1..];
      assert Spell(ns[1..]) == Spell(ns)[n + 1..];
      SpellUnique(ms[1..], ns[1..]);
    }
  }

  lemma {:induction false} SpellIsLine(ns: seq<nat>)
    requires ns != []
    ensures IsLine(Spell(ns))
  {
    if |ns| > 1 {
      SpellIsLine(ns[1..]);
    } else {
      assert Spell(ns[1..]) == [];
    }
  }

  // ----- Values as numbers -----

  function TextNumbers(s: string): seq<nat> {
    [|s|] + seq(|s|, i requires 0 <= i < |s| => s[i] as nat)
  }

  lemma TextUnique(s: string, t: string, r: seq<nat>, q: seq<nat>)
    requires TextNumbers(s) + r == TextNumbers(t) + q
    ensures s == t && r == q
  {
    var a, b := TextNumbers(s) + r, TextNumbers(t) + q;
    assert a[0] == |s| && b[0] == |t|;
    forall i | 0 <= i < |s|
      ensures s[i] == t[i]
    {
      assert a[i + 1] == s[i] as nat && b[i + 1] == t[i] as nat;
    }
    assert r == a[|s| + 1..] && q == b[|t| + 1..];
  }

  function KeyNumber(k: Key): nat {
    match k
    case Other(_) => 0
    case Kind => 1
    case StepOf => 2
    case OrganizationId => 3
    case Body => 4
    case Source => 5
    case InputSha256 => 6
    case TargetSha256 => 7
    case SourceHead => 8
    case Origin => 9
    case UsageReference => 10
    case WorkspaceRef => 11
    case AmountMicros => 12
    case AttributionPeriodStart => 13
    case AttributionPeriodEnd => 14
    case ReceiptCreatedAt => 15
    case SnapshotAt => 16
    case UsedMicros => 17
    case PendingMicros => 18
    case UsageOf => 19
    case SubscriptionOf => 20
    case TopupOf => 21
    case Reference => 22
    case Meter => 23
    case QuantityUnit => 24
    case Quantity => 25
    case PeriodStart => 26
    case PeriodEnd => 27
    case PricingRevision => 28
    case ExpectedMicros => 29
    case MeasurementFingerprint => 30
    case PlanKey => 31
    case AmountMinor => 32
    case Status => 33
    case CreatedAt => 34
    case Unit => 35
    case Cursor => 36
    case Workspaces => 37
    case HeldMicros => 38
  }

  function KeyNumbers(k: Key): seq<nat> {
    [KeyNumber(k)] + if k.Other? then TextNumbers(k.name) else []
  }

  /** The key of a number. */
  function KeyAt(n: nat): Key {
    match n
    case 1 => Kind
    case 2 => StepOf
    case 3 => OrganizationId
    case 4 => Body
    case 5 => Source
    case 6 => InputSha256
    case 7 => TargetSha256
    case 8 => SourceHead
    case 9 => Origin
    case 10 => UsageReference
    case 11 => WorkspaceRef
    case 12 => AmountMicros
    case 13 => AttributionPeriodStart
    case 14 => AttributionPeriodEnd
    case 15 => ReceiptCreatedAt
    case 16 => SnapshotAt
    case 17 => UsedMicros
    case 18 => PendingMicros
    case 19 => UsageOf
    case 20 => SubscriptionOf
    case 21 => TopupOf
    case 22 => Reference
    case 23 => Meter
    case 24 => QuantityUnit
    case 25 => Quantity
    case 26 => PeriodStart
    case 27 => PeriodEnd
    case 28 => PricingRevision
    case 29 => ExpectedMicros
    case 30 => MeasurementFingerprint
    case 31 => PlanKey
    case 32 => AmountMinor
    case 33 => Status
    case 34 => CreatedAt
    case 35 => Unit
    case 36 => Cursor
    case 37 => Workspaces
    case _ => HeldMicros
  }

  lemma KeyNumberNames(k: Key)
    ensures !k.Other? ==> KeyAt(KeyNumber(k)) == k
  {
  }

  lemma NumberUnique(k: Key, l: Key)
    requires KeyNumber(k) == KeyNumber(l)
    ensures (k.Other? <==> l.Other?) && (!k.Other? ==> k == l)
  {
    hide KeyNumber, KeyAt;
    KeyNumberNames(k);
    KeyNumberNames(l);
    OtherNumber(k);
    OtherNumber(l);
  }

  lemma KeyHead(k: Key, r: seq<nat>)
    ensures (KeyNumbers(k) + r)[0] == KeyNumber(k)
    ensures (KeyNumbers(k) + r)[1..] == (if k.Other? then TextNumbers(k.name) + r else r)
  {
    hide KeyNumber;
  }

  lemma KeyUnique(k: Key, l: Key, r: seq<nat>, q: seq<nat>)
    requires KeyNumbers(k) + r == KeyNumbers(l) + q
    ensures k == l && r == q
  {
    hide KeyNumber, KeyNumbers, TextNumbers;
    KeyHead(k, r);
    KeyHead(l, q);
    NumberUnique(k, l);
    if k.Other? {
      TextUnique(k.name, l.name, r, q);
    }
  }

  lemma OtherNumber(k: Key)
    ensures k.Other? <==> KeyNumber(k) == 0
  {
  }

  ghost function Numbers(v: Value): seq<nat>
    decreases v, 1, 0
  {
    match v
    case Undefined => [0]
    case Null => [1]
    case Bool(b) => [2, if b then 1 else 0]
    case Num(n) => [3, if n < 0 then 1 else 0, if n < 0 then -n else n]
    case Frac(digits) => [4] + TextNumbers(digits)
    case Str(s) => [5] + TextNumbers(s)
    case Arr(items) => [6, |items|] + ItemNumbers(v, 0)
    case Obj(fields) => [7, |fields.Keys|] + FieldNumbers(v, fields.Keys)
  }

  ghost function ItemNumbers(v: Value, i: nat): seq<nat>
    requires v.Arr? && i <= |v.items|
    decreases v, 0, |v.items| - i
  {
    if i == |v.items| then [] else Numbers(v.items[i]) + ItemNumbers(v, i + 1)
  }

  ghost function Pick(keys: set<Key>): (k: Key)
    requires keys != {}
    ensures k in keys
  {
    var k :| k in keys;
    k
  }

  ghost function FieldNumbers(v: Value, keys: set<Key>): seq<nat>
    requires v.Obj? && keys <= v.fields.Keys
    decreases v, 0, |keys|
  {
    if keys == {} then []
    else
      var k := Pick(keys);
      KeyNumbers(k) + Numbers(v.fields[k]) + FieldNumbers(v, keys - {k})
  }

  function Tag(v: Value): nat {
    match v
    case Undefined => 0
    case Null => 1
    case Bool(_) => 2
    case Num(_) => 3
    case Frac(_) => 4
    case Str(_) => 5
    case Arr(_) => 6
    case Obj(_) => 7
  }

  lemma SameTag(v: Value, w: Value, r: seq<nat>, q: seq<nat>)
    requires Numbers(v) + r == Numbers(w) + q
    ensures Tag(v) == Tag(w)
  {
    assert (Numbers(v) + r)[0] == Tag(v) && (Numbers(w) + q)[0] == Tag(w);
  }

  lemma ShortUnique(v: Value, w: Value, r: seq<nat>, q: seq<nat>)
    requires Numbers(v) + r == Numbers(w) + q && Tag(v) == Tag(w) && (v.Undefined? || v.Null? || v.Bool? || v.Num?)
    ensures v == w && r == q
  {
    var a, b, n := Numbers(v) + r, Numbers(w) + q, |Numbers(v)|;
    assert a[n..] == r && b[n..] == q;
    assert n > 1 ==> a[1] == b[1];
    assert n > 2 ==> a[2] == b[2];
  }

  lemma LongText(v: Value, w: Value, r: seq<nat>, q: seq<nat>)
    requires Numbers(v) + r == Numbers(w) + q && Tag(v) == Tag(w) && (v.Frac? || v.Str?)
    ensures v == w && r == q
  {
    var s, t := if v.Str? then v.s else v.digits, if w.Str? then w.s else w.digits;
    assert (Numbers(v) + r)[1..] == TextNumbers(s) + r;
    assert (Numbers(w) + q)[1..] == TextNumbers(t) + q;
    TextUnique(s, t, r, q);
  }

  /** What follows the tag and the count of a list or an object. */
  lemma AfterCount(head: seq<nat>, tail: seq<nat>, r: seq<nat>)
    requires |head| == 2
    ensures (head + tail + r)[2..] == tail + r && (head + tail + r)[1] == head[1]
  {
  }

  /** The numbers of a value end where the value ends, and name it. */
  lemma {:induction false} NumbersUnique(v: Value, w: Value, r: seq<nat>, q: seq<nat>)
    requires Numbers(v) + r == Numbers(w) + q
    ensures v == w && r == q
    decreases v, 1, 0
  {
    SameTag(v, w, r, q);
    if v.Arr? {
      AfterCount([6, |v.items|], ItemNumbers(v, 0), r);
      AfterCount([6, |w.items|], ItemNumbers(w, 0), q);
      hide Numbers, ItemNumbers;
      ItemsUnique(v, w, 0, r, q);
      assert v.items == v.items[0..] && w.items == w.items[0..];
    } else if v.Obj? {
      AfterCount([7, |v.fields.Keys|], FieldNumbers(v, v.fields.Keys), r);
      AfterCount([7, |w.fields.Keys|], FieldNumbers(w, w.fields.Keys), q);
      hide Numbers, FieldNumbers;
      FieldsUnique(v, w, v.fields.Keys, w.fields.Keys, r, q);
      assert v.fields == w.fields;
    } else if v.Frac? || v.Str? {
      LongText(v, w, r, q);
    } else {
      ShortUnique(v, w, r, q);
    }
  }

  lemma {:induction false} ItemsUnique(v: Value, w: Value, i: nat, r: seq<nat>, q: seq<nat>)
    requires v.Arr? && w.Arr? && |v.items| == |w.items| && i <= |v.items|
    requires ItemNumbers(v, i) + r == ItemNumbers(w, i) + q
    ensures v.items[i..] == w.items[i..] && r == q
    decreases v, 0, |v.items| - i
  {
    if i == |v.items| {
      assert ItemNumbers(v, i) + r == r && ItemNumbers(w, i) + q == q;
    } else {
      var x, y := v.items[i], w.items[i];
      assert ItemNumbers(v, i) + r == Numbers(x) + (ItemNumbers(v, i + 1) + r);
      assert ItemNumbers(w, i) + q == Numbers(y) + (ItemNumbers(w, i + 1) + q);
      NumbersUnique(x, y, ItemNumbers(v, i + 1) + r, ItemNumbers(w, i + 1) + q);
      ItemsUnique(v, w, i + 1, r, q);
      assert v.items[i..] == [x] + v.items[i + 1..] && w.items[i..] == [y] + w.items[i + 1..];
    }
  }

  lemma FieldFirst(v: Value, ks: set<Key>, r: seq<nat>)
    requires v.Obj? && ks <= v.fields.Keys && ks != {}
    ensures var k := Pick(ks);
            FieldNumbers(v, ks) + r == KeyNumbers(k) + (Numbers(v.fields[k]) + (FieldNumbers(v, ks - {k}) + r))
  {
    hide Numbers, KeyNumbers;
  }

  lemma {:induction false} FieldsUnique(v: Value, w: Value, ks: set<Key>, ls: set<Key>, r: seq<nat>, q: seq<nat>)
    requires v.Obj? && w.Obj? && ks <= v.fields.Keys && ls <= w.fields.Keys && |ks| == |ls|
    requires FieldNumbers(v, ks) + r == FieldNumbers(w, ls) + q
    ensures ks == ls && r == q && forall k | k in ks :: v.fields[k] == w.fields[k]
    decreases v, 0, |ks|
  {
    hide Numbers, KeyNumbers;
    if ks == {} {
      assert ls == {};
      assert FieldNumbers(v, ks) + r == r && FieldNumbers(w, ls) + q == q;
    } else {
      assert ls != {};
      var k, l := Pick(ks), Pick(ls);
      var x, y := v.fields[k], w.fields[l];
      var restV, restW := FieldNumbers(v, ks - {k}) + r, FieldNumbers(w, ls - {l}) + q;
      FieldFirst(v, ks, r);
      FieldFirst(w, ls, q);
      KeyUnique(k, l, Numbers(x) + restV, Numbers(y) + restW);
      NumbersUnique(x, y, restV, restW);
      FieldsUnique(v, w, ks - {k}, ls - {l}, r, q);
      assert ks == (ks - {k}) + {k} && ls == (ls - {l}) + {l};
    }
  }

  // ----- The codec -----

  ghost function Encoded(v: Value): Bytes {
    Spell(Numbers(v))
  }

  ghost function Decoded(b: Bytes): Option<Value> {
    if exists v :: Encoded(v) == b then
      var v :| Encoded(v) == b;
      Some(v)
    else None
  }

  lemma DecodedEncoded(v: Value)
    ensures Decoded(Encoded(v)) == Some(v) && IsLine(Encoded(v))
  {
    var w := Decoded(Encoded(v)).value;
    SpellUnique(Numbers(w), Numbers(v));
    assert Numbers(w) + [] == Numbers(v) + [];
    NumbersUnique(w, v, [], []);
    SpellIsLine(Numbers(v));
  }

  /** The laws of a codec can be kept: what is proved from them is proved of something. */
  lemma SomeCodecIsLawful() returns (c: Codec)
    ensures Lawful(c)
  {
    c := Codec((v: Value) => Encoded(v), (b: Bytes) => Decoded(b));
    forall v: Value
      ensures c.decode(c.encode(v)) == Some(v) && IsLine(c.encode(v))
    {
      DecodedEncoded(v);
    }
  }
}
