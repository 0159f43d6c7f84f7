/** The journal as bytes: one JSON line per record, written in pieces. */
module JournalBytes {
  import opened Values
  import opened Journal
  import opened JournalScript

  newtype byte = x: int | 0 <= x < 256

  type Bytes = seq<byte>

  const NEWLINE: byte := 10

  predicate Blank(b: byte) {
    b in {9, 10, 11, 12, 13, 32}
  }

  /** JSON text of a value, and the value of a text when it is JSON. */
  datatype Codec = Codec(encode: Value -> Bytes, decode: Bytes -> Option<Value>)

  /** No property anywhere in the value holds `undefined`. */
  predicate Plain(v: Value) {
    match v
    case Undefined => false
    case Arr(items) => forall i | 0 <= i < |items| :: Plain(items[i])
    case Obj(fields) => forall k | k in fields :: Plain(fields[k])
    case _ => true
  }

  /** One text line: something, no line break inside, no blank at its end. */
  predicate IsLine(b: Bytes) {
    b != [] && NEWLINE !in b && !Blank(b[|b| - 1])
  }

  /** Decoding undoes encoding, and an encoded object is one line, because JSON
      strings escape control characters (section 7 of RFC 8259). */
  ghost predicate Lawful(c: Codec) {
    forall v: Value :: v.Obj? && Plain(v) ==> c.decode(c.encode(v)) == Some(v) && IsLine(c.encode(v))
  }

  /** Request bodies are parsed JSON; everything else in a record is text. */
  predicate PlainEvent(e: Event) {
    e.Intent? ==> Plain(e.body)
  }

  predicate Writable(es: seq<Event>) {
    forall i | 0 <= i < |es| :: PlainEvent(es[i])
  }

  lemma PlainRecord(e: Event)
    requires PlainEvent(e)
    ensures Plain(Record(e)) && Record(e).Obj?
  {
    var fields := Record(e).fields;
    forall k | k in fields
      ensures Plain(fields[k])
    {
      assert fields[k].Str? || fields[k] == Null || (e.Intent? && fields[k] == e.body);
    }
  }

  /** What `append` writes for one event. */
  function Line(c: Codec, e: Event): Bytes {
    c.encode(Record(e)) + [NEWLINE]
  }

  /** The file after the given events. */
  function Content(c: Codec, es: seq<Event>): Bytes {
    if es == [] then [] else Content(c, es[..|es| - 1]) + Line(c, es[|es| - 1])
  }

  // ----- Writing -----

  /** `writeFully` under any pattern of short writes. Each turn the operating
      system takes some number of bytes, answered by `take`; an answer that is
      not a positive number within what is left stops it with a refusal. Either
      way the file has grown by a prefix of the value, by all of it on success. */
  method WriteFully(file: Bytes, value: Bytes, take: nat -> int) returns (after: Bytes, ok: bool)
    ensures file <= after <= file + value
    ensures ok ==> after == file + value
    ensures !ok ==> exists offset: nat ::
      offset < |value| && after == file + value[..offset] && !(0 < take(offset) <= |value| - offset)
  {
    var offset := 0;
    after := file;
    assert value[..0] == [];
    while offset < |value|
      invariant 0 <= offset <= |value|
      invariant after == file + value[..offset]
    {
      var written := take(offset);
      if written <= 0 || written > |value| - offset {
        return after, false;
      }
      after := after + value[offset..offset + written];
      assert value[..offset + written] == value[..offset] + value[offset..offset + written];
      offset := offset + written;
    }
    assert value[..offset] == value;
    ok := true;
  }

  // ----- Reading -----

  function TrimEnd(b: Bytes): Bytes {
    if b != [] && Blank(b[|b| - 1]) then TrimEnd(b[..|b| - 1]) else b
  }

  /** The pieces between line breaks. */
  function Split(b: Bytes): (lines: seq<Bytes>)
    ensures lines != []
  {
    if b == [] then [[]]
    else if b[|b| - 1] == NEWLINE then Split(b[..|b| - 1]) + [[]]
    else GrowLast(Split(b[..|b| - 1]), [b[|b| - 1]])
  }

  /** The last piece, longer by `text`. */
  function GrowLast(lines: seq<Bytes>, text: Bytes): (grown: seq<Bytes>)
    requires lines != []
    ensures |grown| == |lines|
  {
    lines[..|lines| - 1] + [lines[|lines| - 1] + text]
  }

  /** Every line parsed to an object, or a refusal. */
  function Decode(c: Codec, lines: seq<Bytes>): Option<seq<Value>> {
    if lines == [] then Some([])
    else
      var front := Decode(c, lines[..|lines| - 1]);
      var last := c.decode(lines[|lines| - 1]);
      if front.Some? && last.Some? && last.value.Obj? then Some(front.value + [last.value]) else None
  }

  /** `journal` on the bytes of the file. */
  function ReadJournal(c: Codec, raw: Bytes): Option<seq<Event>> {
    if raw == [] || raw[|raw| - 1] != NEWLINE then None
    else
      var rs := Decode(c, Split(TrimEnd(raw)));
      if rs.None? || Parse(rs.value).None? then None else Some(Parse(rs.value).value.events)
  }

  lemma {:induction false} TrimmedTail(b: Bytes, tail: Bytes)
    requires forall x | x in tail :: x in {9, 10, 11, 12, 13, 32}
    ensures TrimEnd(b + tail) == TrimEnd(b)
    decreases |tail|
  {
    if tail == [] {
      assert b + tail == b;
    } else {
      var rest := tail[..|tail| - 1];
      assert forall x | x in rest :: x in tail;
      assert tail[|tail| - 1] in tail;
      assert (b + tail)[..|b + tail| - 1] == b + rest;
      assert (b + tail)[|b + tail| - 1] == tail[|tail| - 1];
      TrimmedTail(b, rest);
    }
  }

  /** Blanks after the last record change nothing, as long as a line end comes last. */
  lemma BlanksIgnored(c: Codec, raw: Bytes, tail: Bytes)
    requires raw != [] && raw[|raw| - 1] == 10 && (forall x | x in tail :: x in {9, 10, 11, 12, 13, 32})
    ensures ReadJournal(c, raw + tail + [10]) == ReadJournal(c, raw)
  {
    hide Split, Decode, Parse;
    assert raw + tail + [10] == raw + (tail + [10]);
    TrimmedTail(raw, tail + [10]);
  }

  /** `journal` as the script runs it: the torn-record test, the parsed lines,
      then the record loop. */
  method JournalEvents(c: Codec, raw: Bytes) returns (r: Option<seq<Event>>)
    ensures r == ReadJournal(c, raw)
    ensures r.Some? ==> Legal(r.value)
  {
    if raw == [] || raw[|raw| - 1] != NEWLINE {
      return None;
    }
    var rs := Decode(c, Split(TrimEnd(raw)));
    if rs.None? {
      return None;
    }
    var p := ReadRecords(rs.value);
    if p.None? {
      return None;
    }
    AcceptedLanguage(rs.value, p.value.events);
    return Some(p.value.events);
  }

  // ----- Lines of a written file -----

  lemma GrowTwice(lines: seq<Bytes>, a: Bytes, b: Bytes)
    requires lines != []
    ensures GrowLast(GrowLast(lines, a), b) == GrowLast(lines, a + b)
  {
    var n := |lines| - 1;
    assert GrowLast(lines, a)[..n] == lines[..n];
    assert (lines[n] + a) + b == lines[n] + (a + b);
  }

  lemma {:induction false} SplitLine(head: Bytes, line: Bytes)
    requires NEWLINE !in line
    ensures Split(head + line) == GrowLast(Split(head), line)
  {
    if line == [] {
      assert head + line == head;
      assert Split(head)[|Split(head)| - 1] + line == Split(head)[|Split(head)| - 1];
    } else {
      var b, front, last := head + line, line[..|line| - 1], line[|line| - 1];
      assert b[..|b| - 1] == head + front && b[|b| - 1] == last;
      SplitLine(head, front);
      assert Split(b) == GrowLast(Split(head + front), [last]);
      GrowTwice(Split(head), front, [last]);
      assert front + [last] == line;
    }
  }

  function Texts(c: Codec, es: seq<Event>): (ts: seq<Bytes>)
    ensures |ts| == |es|
  {
    seq(|es|, i requires 0 <= i < |es| => c.encode(Record(es[i])))
  }

  lemma {:induction false} SplitContent(c: Codec, es: seq<Event>)
    requires Lawful(c) && Writable(es)
    ensures Split(Content(c, es)) == Texts(c, es) + [[]]
  {
    hide Record, Plain;
    if es != [] {
      var front, last := es[..|es| - 1], es[|es| - 1];
      SplitContent(c, front);
      var text := LawfulLine(c, last);
      SplitTerminated(Content(c, front), text);
      assert Content(c, es) == Content(c, front) + text + [NEWLINE];
      assert Texts(c, es) == Texts(c, front) + [text];
      assert [] + text == text;
      assert (Texts(c, front) + [[]])[..|front|] == Texts(c, front);
    }
  }

  lemma SplitTerminated(head: Bytes, line: Bytes)
    requires NEWLINE !in line
    ensures Split(head + line + [NEWLINE]) == GrowLast(Split(head), line) + [[]]
  {
    SplitLine(head, line);
    assert (head + line + [NEWLINE])[..|head + line|] == head + line;
  }

  lemma LawfulLine(c: Codec, e: Event) returns (text: Bytes)
    requires Lawful(c) && PlainEvent(e)
    ensures text == c.encode(Record(e)) && IsLine(text) && c.decode(text) == Some(Record(e)) && Record(e).Obj?
  {
    PlainRecord(e);
    text := c.encode(Record(e));
  }

  /** Trimming a whole file removes only its last line break. */
  lemma TrimContent(c: Codec, es: seq<Event>)
    requires Lawful(c) && Writable(es) && es != []
    ensures TrimEnd(Content(c, es)) == Content(c, es[..|es| - 1]) + c.encode(Record(es[|es| - 1]))
  {
    var text := LawfulLine(c, es[|es| - 1]);
    var raw := Content(c, es);
    var body := Content(c, es[..|es| - 1]) + text;
    assert raw == body + [NEWLINE];
    assert raw[..|raw| - 1] == body;
    assert !Blank(body[|body| - 1]);
    assert TrimEnd(body) == body;
  }

  lemma {:induction false} DecodeTexts(c: Codec, es: seq<Event>)
    requires Lawful(c) && Writable(es)
    ensures Decode(c, Texts(c, es)) == Some(Records(es))
  {
    hide Record, Plain;
    if es != [] {
      var front := es[..|es| - 1];
      DecodeTexts(c, front);
      var text := LawfulLine(c, es[|es| - 1]);
      assert Texts(c, es)[..|es| - 1] == Texts(c, front);
      assert Records(es) == Records(front) + [Record(es[|es| - 1])];
    } else {
      assert Records(es) == [];
    }
  }

  lemma SplitTrimmed(c: Codec, es: seq<Event>)
    requires Lawful(c) && Writable(es) && es != []
    ensures Split(TrimEnd(Content(c, es))) == Texts(c, es)
  {
    hide Record, Plain, Split, TrimEnd, Content;
    var front, last := es[..|es| - 1], es[|es| - 1];
    var text := LawfulLine(c, last);
    TrimContent(c, es);
    SplitContent(c, front);
    SplitLine(Content(c, front), text);
    assert [] + text == text;
    assert (Texts(c, front) + [[]])[..|front|] == Texts(c, front);
    assert Texts(c, es) == Texts(c, front) + [text];
  }

  lemma ContentEnd(c: Codec, es: seq<Event>)
    requires es != []
    ensures Content(c, es) != [] && Content(c, es)[|Content(c, es)| - 1] == NEWLINE
  {
  }

  /** A file at a record boundary reads back as exactly its records. */
  lemma ReadContent(c: Codec, es: seq<Event>)
    requires Lawful(c) && Writable(es) && Legal(es)
    ensures ReadJournal(c, Content(c, es)) == Some(es)
  {
    hide Record, Plain, Parse, Split, TrimEnd, Content, Decode;
    assert es != [];
    ContentEnd(c, es);
    SplitTrimmed(c, es);
    DecodeTexts(c, es);
    AcceptedLanguage(Records(es), es);
  }

  lemma {:induction false} ContentPrefix(c: Codec, es: seq<Event>, n: nat)
    requires n <= |es|
    ensures Content(c, es[..n]) <= Content(c, es)
  {
    if n < |es| {
      ContentPrefix(c, es[..|es| - 1], n);
      assert es[..|es| - 1][..n] == es[..n];
    } else {
      assert es[..n] == es;
    }
  }

  /** A cut of the file that ends in a line break is at a record boundary. */
  lemma {:induction false} BoundaryCut(c: Codec, es: seq<Event>, cut: Bytes) returns (n: nat)
    requires Lawful(c) && Writable(es)
    requires cut <= Content(c, es) && cut != [] && cut[|cut| - 1] == NEWLINE
    ensures 1 <= n <= |es| && cut == Content(c, es[..n])
  {
    hide Record, Plain;
    var front, last := es[..|es| - 1], es[|es| - 1];
    var text := LawfulLine(c, last);
    var before := Content(c, front);
    if |cut| <= |before| {
      assert cut <= before;
      n := BoundaryCut(c, front, cut);
      assert front[..n] == es[..n];
    } else {
      assert forall i | |before| <= i < |before + text| :: Content(c, es)[i] == text[i - |before|];
      assert |cut| == |Content(c, es)|;
      n := |es|;
      assert es[..n] == es;
    }
  }

  /** Whatever prefix of a legal journal a crash or a short write leaves, the
      reader returns exactly the complete records when the prefix is a nonempty
      record boundary, and refuses every other prefix. */
  lemma PrefixReads(c: Codec, es: seq<Event>, cut: Bytes)
    requires Lawful(c) && Writable(es) && Legal(es) && cut <= Content(c, es)
    ensures forall n | 1 <= n <= |es| && cut == Content(c, es[..n]) :: ReadJournal(c, cut) == Some(es[..n])
    ensures (forall n | 1 <= n <= |es| :: cut != Content(c, es[..n])) ==> ReadJournal(c, cut) == None
  {
    hide Record, Plain, Legal;
    ReadEndsWithBreak(c, cut);
    hide ReadJournal;
    forall n | 1 <= n <= |es| && cut == Content(c, es[..n])
      ensures ReadJournal(c, cut) == Some(es[..n])
    {
      LegalPrefix(es, n);
      ReadContent(c, es[..n]);
    }
    if ReadJournal(c, cut) != None {
      var n := BoundaryCut(c, es, cut);
      assert cut == Content(c, es[..n]);
    }
  }

  lemma ReadEndsWithBreak(c: Codec, raw: Bytes)
    ensures ReadJournal(c, raw).Some? ==> raw != [] && raw[|raw| - 1] == NEWLINE
  {
  }

  lemma LegalPrefix(es: seq<Event>, n: nat)
    requires Legal(es) && 1 <= n <= |es|
    ensures Legal(es[..n])
  {
    var sc: Script :| Follows(es, sc);
    assert es[..n] == sc.Events()[..n];
    assert Follows(es[..n], sc);
  }
}
