/** TLV streams: u16 type, u16 length, value (firmware/qdevice/tlv.c, host/src/tlv.js). */
module Tlv {
  import opened Defs
  import opened Wire

  const ERR_INVAL: int := -1
  const ERR_NOMEM: int := -2
  const ERR_TRUNC: int := -3
  const ERR_OVERRUN: int := -4
  const ERR_RANGE: int := -5

  type Value = b: Bytes | |b| <= 0xffff

  datatype Entry = Entry(kind: u16, value: Value)

  // ---------- Specification: encoding and strict parsing ----------

  function EncodeEntry(e: Entry): (r: Bytes)
    ensures |r| == 4 + |e.value|
  {
    Put16(e.kind) + Put16(|e.value|) + e.value
  }

  function EncodeAll(es: seq<Entry>): Bytes {
    if es == [] then [] else EncodeEntry(es[0]) + EncodeAll(es[1..])
  }

  datatype Next = End | Bad(code: int) | Item(entry: Entry, rest: Bytes)

  /** One strict step: an entry must fit completely in what remains. */
  function NextOf(b: Bytes): (r: Next)
    ensures r.Item? ==> |r.rest| < |b|
  {
    if |b| == 0 then End
    else if |b| < 4 then Bad(ERR_TRUNC)
    else
      var len := Get16(b[2..4]);
      if 4 + len > |b| then Bad(ERR_OVERRUN)
      else Item(Entry(Get16(b[..2]), b[4..4 + len]), b[4 + len..])
  }

  function Parse(b: Bytes): Result<seq<Entry>, int>
    decreases |b|
  {
    match NextOf(b)
    case End => Ok([])
    case Bad(code) => Err(code)
    case Item(e, rest) =>
      match Parse(rest)
      case Err(code) => Err(code)
      case Ok(es) => Ok([e] + es)
  }

  // ---------- Canonicity ----------

  lemma NextOfEncoded(e: Entry, tail: Bytes)
    ensures NextOf(EncodeEntry(e) + tail) == Item(e, tail)
  {
    var b := EncodeEntry(e) + tail;
    assert b[..2] == Put16(e.kind) && b[2..4] == Put16(|e.value|);
    RoundTrip16(e.kind, []);
    RoundTrip16(|e.value|, []);
    assert b[4..4 + |e.value|] == e.value && b[4 + |e.value|..] == tail;
  }

  lemma EncodedNextOf(b: Bytes)
    requires NextOf(b).Item?
    ensures EncodeEntry(NextOf(b).entry) + NextOf(b).rest == b
  {
    RoundTrip16(0, b[..2]);
    RoundTrip16(0, b[2..4]);
    var len := Get16(b[2..4]);
    assert b == b[..2] + b[2..4] + b[4..4 + len] + b[4 + len..];
  }

  /** Parsing an encoded list gives the list back. */
  lemma {:induction false} ParseEncoded(es: seq<Entry>)
    ensures Parse(EncodeAll(es)) == Ok(es)
  {
    if es != [] {
      NextOfEncoded(es[0], EncodeAll(es[1..]));
      ParseEncoded(es[1..]);
      assert es == [es[0]] + es[1..];
    }
  }

  /** Re-encoding a parsed buffer gives exactly its bytes back. */
  lemma {:induction false} EncodeParsed(b: Bytes)
    requires Parse(b).Ok?
    ensures EncodeAll(Parse(b).value) == b
    decreases |b|
  {
    if NextOf(b).Item? {
      var e, rest := NextOf(b).entry, NextOf(b).rest;
      EncodedNextOf(b);
      EncodeParsed(rest);
      assert ([e] + Parse(rest).value)[1..] == Parse(rest).value;
    }
  }

  /** Parsing fails exactly on buffers that are not a concatenation of entries. */
  lemma ParseFailsExactly(b: Bytes)
    ensures Parse(b).Err? <==> !exists es: seq<Entry> :: EncodeAll(es) == b
  {
    if Parse(b).Ok? {
      EncodeParsed(b);
    }
    forall es: seq<Entry> | EncodeAll(es) == b
      ensures Parse(b).Ok?
    {
      ParseEncoded(es);
    }
  }

  // ---------- The C iterator ----------

  /** The next step at position `pos` of a buffer, in terms of the buffer. */
  lemma NextAt(buf: Bytes, pos: nat)
    requires pos + 4 <= |buf|
    ensures var len := Get16(buf[pos + 2..pos + 4]);
            NextOf(buf[pos..])
            == if pos + 4 + len > |buf| then Bad(ERR_OVERRUN)
               else Item(Entry(Get16(buf[pos..pos + 2]), buf[pos + 4..pos + 4 + len]), buf[pos + 4 + len..])
  {
    var b, len := buf[pos..], Get16(buf[pos + 2..pos + 4]);
    assert b[..2] == buf[pos..pos + 2] && b[2..4] == buf[pos + 2..pos + 4];
    if pos + 4 + len <= |buf| {
      assert b[4..4 + len] == buf[pos + 4..pos + 4 + len] && b[4 + len..] == buf[pos + 4 + len..];
    }
  }

  /** `qesp_tlv_iter_t` over a payload: the unread part is `payload[pos..]`. */
  class Iter {
    const payload: Bytes
    var pos: nat
    var kind: u16
    var val: Value

    ghost predicate Valid() reads this {
      pos <= |payload|
    }

    ghost function Rest(): Bytes
      requires Valid()
      reads this
    {
      payload[pos..]
    }

    constructor (payload: Bytes)
      ensures Valid() && Rest() == payload
    {
      this.payload := payload;
      pos, kind, val := 0, 0, [];
    }

    /** 1 = entry ready, 0 = end, negative = the stream is malformed. */
    method Advance() returns (r: int)
      requires Valid()
      modifies this
      ensures Valid()
      ensures r == match NextOf(old(Rest())) case End => 0 case Bad(code) => code case Item(_, _) => 1
      ensures NextOf(old(Rest())).Item? ==> NextOf(old(Rest())) == Item(Entry(kind, val), Rest())
      ensures r != 1 ==> Rest() == old(Rest())
    {
      var remain := |payload| - pos;
      if remain == 0 {
        return 0;
      }
      if remain < 4 {
        return ERR_TRUNC;
      }
      NextAt(payload, pos);
      kind := Get16(payload[pos..pos + 2]);
      var vlen := Get16(payload[pos + 2..pos + 4]);
      if 4 + vlen > remain {
        return ERR_OVERRUN;
      }
      val := payload[pos + 4..pos + 4 + vlen];
      pos := pos + 4 + vlen;
      return 1;
    }
  }

  // ---------- The JavaScript parser ----------

  function Prepend(es: seq<Entry>, r: Result<seq<Entry>, int>): Result<seq<Entry>, int> {
    match r case Ok(rest) => Ok(es + rest) case Err(code) => Err(code)
  }

  lemma PrependAssociates(a: seq<Entry>, b: seq<Entry>, r: Result<seq<Entry>, int>)
    ensures Prepend(a, Prepend(b, r)) == Prepend(a + b, r)
  {
    if r.Ok? {
      assert a + (b + r.value) == (a + b) + r.value;
    }
  }

  lemma ParseNothing(buf: Bytes)
    ensures Parse(buf[0..]) == Parse(buf) == Prepend([], Parse(buf)) && Parse(buf[|buf|..]) == Ok([])
  {
    assert buf[0..] == buf && buf[|buf|..] == [];
    if Parse(buf).Ok? { assert [] + Parse(buf).value == Parse(buf).value; }
  }

  /** One entry moves from the unread part to the collected one. */
  lemma ParseAt(buf: Bytes, pos: nat, out: seq<Entry>)
    requires pos + 4 <= |buf| && NextOf(buf[pos..]).Item?
    ensures var n := NextOf(buf[pos..]);
            Prepend(out, Parse(buf[pos..])) == Prepend(out + [n.entry], Parse(n.rest))
  {
    var n := NextOf(buf[pos..]);
    assert Parse(buf[pos..]) == Prepend([n.entry], Parse(n.rest));
    PrependAssociates(out, [n.entry], Parse(n.rest));
  }

  lemma ParseFailsAt(buf: Bytes, pos: nat, out: seq<Entry>)
    requires pos <= |buf| && NextOf(buf[pos..]).Bad?
    ensures Prepend(out, Parse(buf[pos..])) == Err(NextOf(buf[pos..]).code)
  {}

  /** `decodeTlvs`: position loop collecting entries; it accepts what the iterator accepts. */
  method DecodeTlvs(buf: Bytes) returns (r: Result<seq<Entry>, int>)
    ensures r == Parse(buf)
  {
    hide Parse;
    var out: seq<Entry> := [];
    var pos := 0;
    ParseNothing(buf);
    while pos < |buf|
      invariant 0 <= pos <= |buf|
      invariant Parse(buf) == Prepend(out, Parse(buf[pos..]))
    {
      if pos + 4 > |buf| {
        ParseFailsAt(buf, pos, out);
        return Err(ERR_TRUNC);
      }
      NextAt(buf, pos);
      var kind := Get16(buf[pos..pos + 2]);
      var len := Get16(buf[pos + 2..pos + 4]);
      if pos + 4 + len > |buf| {
        ParseFailsAt(buf, pos, out);
        return Err(ERR_OVERRUN);
      }
      ParseAt(buf, pos, out);
      out := out + [Entry(kind, buf[pos + 4..pos + 4 + len])];
      pos := pos + 4 + len;
    }
    assert out + [] == out;
    return Ok(out);
  }
}
