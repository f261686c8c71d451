/** Which of the bytes the reader accepts are those the writer writes. */
module CodecCanonical {
  import opened Json
  import opened Codec

  datatype Bound = NoKey | Above(key: Text)

  /** A number is not tagged `u64` unless it needs to be. */
  predicate CanonicalNumber(s: seq<Byte>) {
    s != [] && s[0] == 2 && TakeLE(s[1..], W64).Ok? ==> TakeLE(s[1..], W64).value >= TWO_63
  }

  /** At every depth: the `u64` tag is used from 2^63 on only, and the keys of an object strictly ascend. */
  predicate Canonical(s: seq<Byte>)
    decreases |s|, 0
  {
    s != [] ==>
      var body := s[1..];
      match s[0]
      case 1 => CanonicalNumber(body)
      case 3 => TakeLE(body, W32).Ok? ==> CanonicalItems(TakeLE(body, W32).value, TakeLE(body, W32).rest)
      case 4 => TakeLE(body, W32).Ok? ==> CanonicalEntries(TakeLE(body, W32).value, TakeLE(body, W32).rest, NoKey)
      case _ => true
  }

  predicate CanonicalItems(n: nat, s: seq<Byte>)
    decreases |s|, 1
  {
    n > 0 ==> Canonical(s) && (Decode(s).Ok? ==> CanonicalItems(n - 1, Decode(s).rest))
  }

  predicate CanonicalEntries(n: nat, s: seq<Byte>, bound: Bound)
    decreases |s|, 1
  {
    n > 0 && DecodeText(s).Ok? ==>
      var (key, rest) := (DecodeText(s).value, DecodeText(s).rest);
      && (bound.Above? ==> Less(bound.key, key))
      && Canonical(rest)
      && (Decode(rest).Ok? ==> CanonicalEntries(n - 1, Decode(rest).rest, Above(key)))
  }

  // ---- what is canonical is what is written ----

  lemma {:induction false} LEInverse(s: seq<Byte>)
    ensures ToLE(FromLE(s), |s|) == s
  {
    if s != [] {
      LEInverse(s[1..]);
      assert FromLE(s) % 256 == s[0] && FromLE(s) / 256 == FromLE(s[1..]);
    }
  }

  lemma TakeLEInverse(s: seq<Byte>, k: nat)
    requires TakeLE(s, k).Ok?
    ensures ToLE(TakeLE(s, k).value, k) + TakeLE(s, k).rest == s
  {
    LEInverse(s[..k]);
    assert s[..k] + s[k..] == s;
  }

  lemma LengthInverse(s: seq<Byte>)
    requires TakeLE(s, W32).Ok?
    ensures var p := TakeLE(s, W32); p.value < TWO_32 && ToLE(p.value % TWO_32, W32) + p.rest == s
  {
    Pow256Values();
    TakeLEInverse(s, W32);
  }

  lemma TextWritten(s: seq<Byte>)
    requires DecodeText(s).Ok?
    ensures EncodeText(DecodeText(s).value) + DecodeText(s).rest == s
  {
    LengthInverse(s);
    var p := TakeLE(s, W32);
    var t, rest := DecodeText(s).value, DecodeText(s).rest;
    assert |t| == p.value && t + rest == p.rest;
    Assoc(ToLE(|t| % TWO_32, W32), t, rest);
  }

  lemma BitsWritten(tag: Byte, bits: nat, n: Number)
    requires tag <= 2 && bits < TWO_64 && NumberOfBits(tag, bits) == Ok(n, []) && NumberOk(n)
    requires tag == 2 ==> bits >= TWO_63
    ensures EncodeNumber(n) == [tag] + ToLE(bits, W64)
  {}

  lemma NumberWritten(s: seq<Byte>)
    requires DecodeNumber(s).Ok? && CanonicalNumber(s)
    ensures EncodeNumber(DecodeNumber(s).value) + DecodeNumber(s).rest == s
  {
    Pow256Values();
    TakeLEInverse(s[1..], W64);
    var p := TakeLE(s[1..], W64);
    BitsWritten(s[0], p.value, DecodeNumber(s).value);
    assert [s[0]] + s[1..] == s;
    Assoc([s[0]], ToLE(p.value, W64), p.rest);
  }

  function BoundOf(built: seq<Entry>): Bound {
    if built == [] then NoKey else Above(built[|built| - 1].key)
  }

  /** A key above the last goes to the end, and the entries stay in order. */
  lemma AppendsAbove(built: seq<Entry>, key: Text, value: Value)
    requires EntriesOk(built) && EntryOk(Entry(key, value)) && (built != [] ==> Less(built[|built| - 1].key, key))
    ensures Insert(built, key, value) == built + [Entry(key, value)] && EntriesOk(built + [Entry(key, value)])
  {
    var all := built + [Entry(key, value)];
    forall i, j | 0 <= i < j < |all| ensures Less(all[i].key, all[j].key) {
      if j == |built| && i < |built| - 1 { LessTransitive(built[i].key, built[|built| - 1].key, key); }
    }
    InsertLast(built, key, value);
  }

  lemma HeadWritten(s: seq<Byte>, tag: Byte, len: nat, body: seq<Byte>)
    requires s != [] && s[0] == tag && TakeLE(s[1..], W32) == Ok(len, body)
    ensures len < TWO_32 && Header(tag, len) + body == s
  {
    LengthInverse(s[1..]);
    assert [s[0]] + s[1..] == s;
    Assoc([tag], ToLE(len % TWO_32, W32), body);
  }

  lemma ScalarWritten(s: seq<Byte>)
    requires Canonical(s) && Decode(s).Ok? && s != [] && s[0] != 3 && s[0] != 4
    ensures ValueOk(Decode(s).value) && Encode(Decode(s).value) + Decode(s).rest == s
  {
    DecodeOk(s);
    var body, rest := s[1..], Decode(s).rest;
    assert [s[0]] + body == s;
    match s[0]
    case 0 => assert [body[0]] + body[1..] == body;
    case 1 =>
      NumberWritten(body);
      Assoc([1], EncodeNumber(DecodeNumber(body).value), rest);
    case 2 =>
      TextWritten(body);
      Assoc([2], EncodeText(DecodeText(body).value), rest);
    case _ =>
  }

  /** Canonical bytes are written back as they were read. */
  lemma {:induction false} CanonicalIsWritten(s: seq<Byte>)
    requires Canonical(s) && Decode(s).Ok?
    ensures ValueOk(Decode(s).value) && Encode(Decode(s).value) + Decode(s).rest == s
    decreases |s|, 0
  {
    DecodeOk(s);
    if s[0] == 3 {
      var p := TakeLE(s[1..], W32);
      ItemsWritten(p.value, p.rest);
      HeadWritten(s, 3, p.value, p.rest);
      var items := DecodeItems(p.value, p.rest).value;
      Assoc(Header(3, p.value), EncodeItems(items), Decode(s).rest);
    } else if s[0] == 4 {
      var p := TakeLE(s[1..], W32);
      EntriesWritten(p.value, p.rest, []);
      HeadWritten(s, 4, p.value, p.rest);
      var es := DecodeEntries(p.value, p.rest, []).value;
      assert es[0..] == es;
      Assoc(Header(4, p.value), EncodeEntries(es), Decode(s).rest);
    } else {
      ScalarWritten(s);
    }
  }

  lemma {:induction false} ItemsWritten(n: nat, s: seq<Byte>)
    requires CanonicalItems(n, s) && DecodeItems(n, s).Ok?
    ensures var p := DecodeItems(n, s);
      (forall i :: 0 <= i < |p.value| ==> ValueOk(p.value[i])) && EncodeItems(p.value) + p.rest == s
    decreases |s|, 1
  {
    DecodeItemsOk(n, s);
    if n > 0 {
      CanonicalIsWritten(s);
      var v, rest := Decode(s).value, Decode(s).rest;
      ItemsWritten(n - 1, rest);
      var p := DecodeItems(n - 1, rest);
      assert ([v] + p.value)[1..] == p.value;
      Assoc(Encode(v), EncodeItems(p.value), p.rest);
    }
  }

  lemma {:induction false} EntriesWritten(n: nat, s: seq<Byte>, built: seq<Entry>)
    requires EntriesOk(built) && CanonicalEntries(n, s, BoundOf(built)) && DecodeEntries(n, s, built).Ok?
    ensures var p := DecodeEntries(n, s, built);
      && EntriesOk(p.value) && |p.value| == |built| + n && p.value[..|built|] == built
      && EncodeEntries(p.value[|built|..]) + p.rest == s
    decreases |s|, 1
  {
    DecodeEntriesOk(n, s, built);
    if n > 0 {
      var key, more := DecodeText(s).value, DecodeText(s).rest;
      CanonicalIsWritten(more);
      var v, rest := Decode(more).value, Decode(more).rest;
      AppendsAbove(built, key, v);
      var built' := built + [Entry(key, v)];
      EntriesWritten(n - 1, rest, built');
      EntryWritten(s, built, DecodeEntries(n - 1, rest, built').value, DecodeEntries(n - 1, rest, built').rest);
    }
  }

  /** One entry in front of those already written back. */
  lemma EntryWritten(s: seq<Byte>, built: seq<Entry>, all: seq<Entry>, tail: seq<Byte>)
    requires DecodeText(s).Ok? && Decode(DecodeText(s).rest).Ok?
    requires var e := Entry(DecodeText(s).value, Decode(DecodeText(s).rest).value);
      && EntriesOk(all) && |all| > |built| && all[..|built| + 1] == built + [e]
      && ValueOk(e.value)
      && Encode(e.value) + Decode(DecodeText(s).rest).rest == DecodeText(s).rest
      && EncodeEntries(all[|built| + 1..]) + tail == Decode(DecodeText(s).rest).rest
    ensures all[..|built|] == built && EncodeEntries(all[|built|..]) + tail == s
  {
    var key, more := DecodeText(s).value, DecodeText(s).rest;
    var v, rest := Decode(more).value, Decode(more).rest;
    var es := all[|built|..];
    assert all[|built|] == (all[..|built| + 1])[|built|] == Entry(key, v);
    assert all[..|built|] == (all[..|built| + 1])[..|built|] == built;
    assert es[0] == Entry(key, v) && es[1..] == all[|built| + 1..];
    TextWritten(s);
    Assoc(EncodeText(key) + Encode(v), EncodeEntries(es[1..]), tail);
    Assoc(EncodeText(key), Encode(v), rest);
  }

  // ---- what is written is canonical ----

  lemma TaggedIsCanonical(s: seq<Byte>, tag: Byte, bits: nat, tail: seq<Byte>)
    requires s != [] && s[0] == tag && TakeLE(s[1..], W64) == Ok(bits, tail) && (tag == 2 ==> bits >= TWO_63)
    ensures CanonicalNumber(s)
  {}

  lemma NumberIsCanonical(n: Number, tail: seq<Byte>)
    requires NumberOk(n)
    ensures CanonicalNumber(EncodeNumber(n) + tail)
  {
    var (tag, bits) := BitsOfNumber(n);
    var s := EncodeNumber(n) + tail;
    NumberHasBits(n);
    assert s[0] == tag && s[1..] == ToLE(bits, W64) + tail;
    Field64RoundTrip(bits, tail);
    TaggedIsCanonical(s, tag, bits, tail);
  }

  lemma {:induction false} WrittenIsCanonical(v: Value, tail: seq<Byte>)
    requires ValueOk(v)
    ensures Canonical(Encode(v) + tail)
    decreases v, 0
  {
    var s := Encode(v) + tail;
    match v
    case Num(n) =>
      assert s[1..] == EncodeNumber(n) + tail;
      NumberIsCanonical(n, tail);
    case Arr(items) =>
      HeaderRoundTrip(3, |items|, EncodeItems(items) + tail);
      Assoc(Header(3, |items|), EncodeItems(items), tail);
      ItemsAreCanonical(items, tail);
    case Obj(es) =>
      HeaderRoundTrip(4, |es|, EncodeEntries(es) + tail);
      Assoc(Header(4, |es|), EncodeEntries(es), tail);
      EntriesAreCanonical(es, NoKey, tail);
    case _ =>
  }

  lemma {:induction false} ItemsAreCanonical(items: seq<Value>, tail: seq<Byte>)
    requires forall i :: 0 <= i < |items| ==> ValueOk(items[i])
    ensures CanonicalItems(|items|, EncodeItems(items) + tail)
    decreases items, 1
  {
    if items != [] {
      var more := EncodeItems(items[1..]) + tail;
      Assoc(Encode(items[0]), EncodeItems(items[1..]), tail);
      WrittenIsCanonical(items[0], more);
      RoundTrip(items[0], more);
      ItemsAreCanonical(items[1..], tail);
    }
  }

  lemma {:induction false} EntriesAreCanonical(es: seq<Entry>, bound: Bound, tail: seq<Byte>)
    requires EntriesOk(es) && (bound.Above? && es != [] ==> Less(bound.key, es[0].key))
    ensures CanonicalEntries(|es|, EncodeEntries(es) + tail, bound)
    decreases es, 1
  {
    if es != [] {
      var e, more := es[0], EncodeEntries(es[1..]) + tail;
      assert EntryOk(e);
      EntryParses(es, tail);
      WrittenIsCanonical(e.value, more);
      RoundTrip(e.value, more);
      assert es[1..] != [] ==> es[1..][0] == es[1];
      EntriesAreCanonical(es[1..], Above(e.key), tail);
    }
  }

  lemma EntryParses(es: seq<Entry>, tail: seq<Byte>)
    requires es != [] && forall i :: 0 <= i < |es| ==> EntryOk(es[i])
    requires EntryOk(es[0])
    ensures DecodeText(EncodeEntries(es) + tail) == Ok(es[0].key, Encode(es[0].value) + (EncodeEntries(es[1..]) + tail))
  {
    var e, more := es[0], EncodeEntries(es[1..]) + tail;
    Assoc(EncodeText(e.key) + Encode(e.value), EncodeEntries(es[1..]), tail);
    Assoc(EncodeText(e.key), Encode(e.value), more);
    TextRoundTrip(e.key, Encode(e.value) + more);
  }

  /** Of the bytes that can be read, those that are written back the same are exactly the canonical ones. */
  lemma WrittenBackExactly(s: seq<Byte>)
    requires Decode(s).Ok?
    ensures ValueOk(Decode(s).value)
    ensures Encode(Decode(s).value) + Decode(s).rest == s <==> Canonical(s)
  {
    DecodeOk(s);
    if Canonical(s) { CanonicalIsWritten(s); }
    WrittenIsCanonical(Decode(s).value, Decode(s).rest);
  }
}
