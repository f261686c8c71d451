/** The Borsh form of a JSON value: what is written, what is read back, and why they agree. */
module Codec {
  import opened Json

  datatype Failure = Io | Panic

  /** The outcome of reading one item: the item and the bytes left, or a failure. */
  datatype Parse<+T> = Ok(value: T, rest: seq<Byte>) | Fail(why: Failure)

  // ---- little-endian integers ----

  /** Widths in bytes of the 32-bit lengths and the 64-bit numbers. */
  const W32: nat := 4
  const W64: nat := 8

  function Pow256(k: nat): (r: nat)
    ensures r > 0
  {
    if k == 0 then 1 else 256 * Pow256(k - 1)
  }

  function ToLE(n: nat, k: nat): (r: seq<Byte>)
    ensures |r| == k
  {
    if k == 0 then [] else [n % 256] + ToLE(n / 256, k - 1)
  }

  function FromLE(s: seq<Byte>): (r: nat)
    ensures r < Pow256(|s|)
  {
    if s == [] then 0 else s[0] + 256 * FromLE(s[1..])
  }

  lemma {:induction false} LERoundTrip(n: nat, k: nat)
    requires n < Pow256(k)
    ensures FromLE(ToLE(n, k)) == n
  {
    if k > 0 {
      LERoundTrip(n / 256, k - 1);
      assert ToLE(n, k)[1..] == ToLE(n / 256, k - 1);
    }
  }

  lemma {:induction false} Pow256Values()
    ensures Pow256(W32) == TWO_32 && Pow256(W64) == TWO_64
  {
    assert Pow256(2) == 65536 && Pow256(3) == 16777216;
    assert Pow256(5) == 256 * TWO_32 && Pow256(6) == 65536 * TWO_32 && Pow256(7) == 16777216 * TWO_32;
  }

  /** Two's complement: the 64 bits of an `i64`, and the `i64` of 64 bits. */
  function BitsOfI64(i: int): int {
    if i < 0 then i + TWO_64 else i
  }

  function I64OfBits(n: nat): int {
    if n < TWO_63 then n else n - TWO_64
  }

  // ---- what is written ----

  /** The header of an array or object: a tag and a length. */
  function Header(tag: Byte, len: nat): seq<Byte> {
    [tag] + ToLE(len % TWO_32, W32)
  }

  function EncodeText(s: Text): seq<Byte> {
    ToLE(|s| % TWO_32, W32) + s
  }

  function EncodeNumber(n: Number): seq<Byte>
    requires NumberOk(n)
  {
    match n
    case Float(bits) => [0] + ToLE(bits, W64)
    case NegInt(i) => [1] + ToLE(BitsOfI64(i), W64)
    case PosInt(n) => if n < TWO_63 then [1] + ToLE(n, W64) else [2] + ToLE(n, W64)
  }

  function Encode(v: Value): (r: seq<Byte>)
    requires ValueOk(v)
    ensures |r| > 0
    decreases v, 0
  {
    match v
    case Bool(b) => [0, if b then 1 else 0]
    case Num(n) => [1] + EncodeNumber(n)
    case Str(s) => [2] + EncodeText(s)
    case Arr(items) => Header(3, |items|) + EncodeItems(items)
    case Obj(es) => Header(4, |es|) + EncodeEntries(es)
    case Null => [5]
  }

  function EncodeItems(items: seq<Value>): seq<Byte>
    requires forall i :: 0 <= i < |items| ==> ValueOk(items[i])
    decreases items, 1
  {
    if items == [] then [] else Encode(items[0]) + EncodeItems(items[1..])
  }

  function EncodeEntries(es: seq<Entry>): seq<Byte>
    requires forall i :: 0 <= i < |es| ==> EntryOk(es[i])
    decreases es, 1
  {
    if es == [] then []
    else
      assert EntryOk(es[0]);
      EncodeText(es[0].key) + Encode(es[0].value) + EncodeEntries(es[1..])
  }

  // ---- what is read ----

  function TakeLE(s: seq<Byte>, k: nat): (p: Parse<nat>)
    ensures p.Ok? ==> |p.rest| + k == |s| && p.value < Pow256(k)
  {
    if |s| < k then Fail(Io) else Ok(FromLE(s[..k]), s[k..])
  }

  function DecodeText(s: seq<Byte>): (p: Parse<Text>)
    ensures p.Ok? ==> |p.rest| < |s| && TextOk(p.value)
  {
    match TakeLE(s, W32)
    case Fail(e) => Fail(e)
    case Ok(len, rest) =>
      Pow256Values();
      if |rest| < len || !Utf8(rest[..len]) then Fail(Io) else Ok(rest[..len], rest[len..])
  }

  function DecodeBool(s: seq<Byte>): (p: Parse<bool>)
    ensures p.Ok? ==> |p.rest| < |s|
  {
    if s == [] || s[0] > 1 then Fail(Io) else Ok(s[0] == 1, s[1..])
  }

  /** `Number::from_f64(data).unwrap()` panics on an infinity; Borsh itself refuses a NaN. */
  function NumberOfBits(tag: Byte, bits: nat): Parse<Number>
    requires tag <= 2
  {
    if tag == 0 then
      if IsNan(bits) then Fail(Io) else if IsFinite(bits) then Ok(Float(bits), []) else Fail(Panic)
    else if tag == 1 then
      var i := I64OfBits(bits);
      Ok(if i < 0 then NegInt(i) else PosInt(i), [])
    else Ok(PosInt(bits), [])
  }

  function DecodeNumber(s: seq<Byte>): (p: Parse<Number>)
    ensures p.Ok? ==> |p.rest| < |s| && NumberOk(p.value)
  {
    if s == [] || s[0] > 2 then Fail(Io)
    else
      match TakeLE(s[1..], W64)
      case Fail(e) => Fail(e)
      case Ok(bits, rest) =>
        Pow256Values();
        match NumberOfBits(s[0], bits)
        case Fail(e) => Fail(e)
        case Ok(n, _) => Ok(n, rest)
  }

  function Decode(s: seq<Byte>): (p: Parse<Value>)
    ensures p.Ok? ==> |p.rest| < |s|
    decreases |s|, 0
  {
    if s == [] then Fail(Io)
    else
      var body := s[1..];
      match s[0]
      case 0 =>
        (match DecodeBool(body)
         case Fail(e) => Fail(e)
         case Ok(b, rest) => Ok(Bool(b), rest))
      case 1 =>
        (match DecodeNumber(body)
         case Fail(e) => Fail(e)
         case Ok(n, rest) => Ok(Num(n), rest))
      case 2 =>
        (match DecodeText(body)
         case Fail(e) => Fail(e)
         case Ok(t, rest) => Ok(Str(t), rest))
      case 3 =>
        (match TakeLE(body, W32)
         case Fail(e) => Fail(e)
         case Ok(len, rest) =>
           match DecodeItems(len, rest)
           case Fail(e) => Fail(e)
           case Ok(items, rest) => Ok(Arr(items), rest))
      case 4 =>
        (match TakeLE(body, W32)
         case Fail(e) => Fail(e)
         case Ok(len, rest) =>
           match DecodeEntries(len, rest, [])
           case Fail(e) => Fail(e)
           case Ok(es, rest) => Ok(Obj(es), rest))
      case 5 => Ok(Null, body)
      case _ => Fail(Io)
  }

  function DecodeItems(n: nat, s: seq<Byte>): (p: Parse<seq<Value>>)
    ensures p.Ok? ==> |p.rest| <= |s| && |p.value| == n
    decreases |s|, 1
  {
    if n == 0 then Ok([], s)
    else
      match Decode(s)
      case Fail(e) => Fail(e)
      case Ok(v, rest) =>
        match DecodeItems(n - 1, rest)
        case Fail(e) => Fail(e)
        case Ok(vs, rest) => Ok([v] + vs, rest)
  }

  function DecodeEntry(s: seq<Byte>): (p: Parse<Entry>)
    ensures p.Ok? ==> |p.rest| < |s|
    decreases |s|, 1
  {
    match DecodeText(s)
    case Fail(e) => Fail(e)
    case Ok(key, rest) =>
      match Decode(rest)
      case Fail(e) => Fail(e)
      case Ok(v, rest) => Ok(Entry(key, v), rest)
  }

  /** Reads n further entries into the ordered map built so far. */
  function DecodeEntries(n: nat, s: seq<Byte>, built: seq<Entry>): (p: Parse<seq<Entry>>)
    ensures p.Ok? ==> |p.rest| <= |s| && |p.value| <= |built| + n
    decreases |s|, 2
  {
    if n == 0 then Ok(built, s)
    else
      match DecodeEntry(s)
      case Fail(e) => Fail(e)
      case Ok(e, rest) => DecodeEntries(n - 1, rest, Insert(built, e.key, e.value))
  }

  // ---- round trip ----

  lemma {:induction false} Assoc(a: seq<Byte>, b: seq<Byte>, c: seq<Byte>)
    ensures a + b + c == a + (b + c)
  {}

  lemma {:induction false} SplitAt(a: seq<Byte>, b: seq<Byte>)
    ensures (a + b)[..|a|] == a && (a + b)[|a|..] == b
  {}

  lemma {:induction false} HeaderRoundTrip(tag: Byte, len: nat, body: seq<Byte>)
    requires len < TWO_32
    ensures var s := Header(tag, len) + body;
      s != [] && s[0] == tag && TakeLE(s[1..], W32) == Ok(len, body)
  {
    Pow256Values();
    TakeLERoundTrip(len, W32, body);
    assert (Header(tag, len) + body)[1..] == ToLE(len, W32) + body;
  }

  lemma {:induction false} TakeLERoundTrip(n: nat, k: nat, tail: seq<Byte>)
    requires n < Pow256(k)
    ensures TakeLE(ToLE(n, k) + tail, k) == Ok(n, tail)
  {
    LERoundTrip(n, k);
    var all := ToLE(n, k) + tail;
    assert all[..k] == ToLE(n, k) && all[k..] == tail;
  }

  lemma Field32RoundTrip(n: nat, tail: seq<Byte>)
    requires n < TWO_32
    ensures TakeLE(ToLE(n % TWO_32, W32) + tail, W32) == Ok(n, tail)
  {
    assert n % TWO_32 == n;
    assert n < Pow256(W32) by { Pow256Values(); }
    TakeLERoundTrip(n, W32, tail);
  }

  lemma Field64RoundTrip(n: nat, tail: seq<Byte>)
    requires n < TWO_64
    ensures TakeLE(ToLE(n, W64) + tail, W64) == Ok(n, tail)
  {
    assert n < Pow256(W64) by { Pow256Values(); }
    TakeLERoundTrip(n, W64, tail);
  }

  lemma {:induction false} TextRoundTrip(t: Text, tail: seq<Byte>)
    requires TextOk(t)
    ensures DecodeText(EncodeText(t) + tail) == Ok(t, tail)
  {
    Field32RoundTrip(|t|, t + tail);
    Assoc(ToLE(|t| % TWO_32, W32), t, tail);
    SplitAt(t, tail);
  }

  /** The tag a number is written with, and its 64 bits. */
  function BitsOfNumber(n: Number): (r: (Byte, nat))
    requires NumberOk(n)
  {
    match n
    case Float(bits) => (0, bits)
    case NegInt(i) => (1, BitsOfI64(i))
    case PosInt(m) => (if m < TWO_63 then 1 else 2, m)
  }

  lemma NumberHasBits(n: Number)
    requires NumberOk(n)
    ensures var (tag, bits) := BitsOfNumber(n);
      tag <= 2 && bits < TWO_64 && EncodeNumber(n) == [tag] + ToLE(bits, W64) && NumberOfBits(tag, bits) == Ok(n, [])
  {}

  lemma {:induction false} NumberRoundTrip(n: Number, tail: seq<Byte>)
    requires NumberOk(n)
    ensures DecodeNumber(EncodeNumber(n) + tail) == Ok(n, tail)
  {
    var (tag, bits) := BitsOfNumber(n);
    NumberHasBits(n);
    Field64RoundTrip(bits, tail);
    var s := EncodeNumber(n) + tail;
    assert s[1..] == ToLE(bits, W64) + tail;
  }

  lemma {:induction false} DecodeArray(len: nat, body: seq<Byte>)
    requires len < TWO_32
    ensures Decode(Header(3, len) + body) ==
      match DecodeItems(len, body)
      case Fail(e) => Fail(e)
      case Ok(items, rest) => Ok(Arr(items), rest)
  {
    HeaderRoundTrip(3, len, body);
  }

  lemma {:induction false} DecodeObject(len: nat, body: seq<Byte>)
    requires len < TWO_32
    ensures Decode(Header(4, len) + body) ==
      match DecodeEntries(len, body, [])
      case Fail(e) => Fail(e)
      case Ok(es, rest) => Ok(Obj(es), rest)
  {
    HeaderRoundTrip(4, len, body);
  }

  lemma NumRoundTrip(n: Number, tail: seq<Byte>)
    requires ValueOk(Num(n))
    ensures Decode(Encode(Num(n)) + tail) == Ok(Num(n), tail)
  {
    assert (Encode(Num(n)) + tail)[1..] == EncodeNumber(n) + tail;
    NumberRoundTrip(n, tail);
  }

  lemma StrRoundTrip(t: Text, tail: seq<Byte>)
    requires ValueOk(Str(t))
    ensures Decode(Encode(Str(t)) + tail) == Ok(Str(t), tail)
  {
    assert (Encode(Str(t)) + tail)[1..] == EncodeText(t) + tail;
    TextRoundTrip(t, tail);
  }

  lemma {:induction false} ScalarRoundTrip(v: Value, tail: seq<Byte>)
    requires ValueOk(v) && !v.Arr? && !v.Obj?
    ensures Decode(Encode(v) + tail) == Ok(v, tail)
  {
    match v
    case Null => assert (Encode(v) + tail)[1..] == tail;
    case Bool(b) => assert (Encode(v) + tail)[1..][1..] == tail;
    case Num(n) => NumRoundTrip(n, tail);
    case Str(t) => StrRoundTrip(t, tail);
    case _ =>
  }

  /** Reading a written value gives the value back and leaves exactly the bytes that followed it. */
  lemma {:induction false} RoundTrip(v: Value, tail: seq<Byte>)
    requires ValueOk(v)
    ensures Decode(Encode(v) + tail) == Ok(v, tail)
    decreases v, 0
  {
    match v
    case Arr(items) =>
      ItemsRoundTrip(items, tail);
      DecodeArray(|items|, EncodeItems(items) + tail);
      Assoc(Header(3, |items|), EncodeItems(items), tail);
    case Obj(es) =>
      assert [] + es == es;
      EntriesRoundTrip([], es, tail);
      DecodeObject(|es|, EncodeEntries(es) + tail);
      Assoc(Header(4, |es|), EncodeEntries(es), tail);
    case _ => ScalarRoundTrip(v, tail);
  }

  lemma {:induction false} ItemsStep(items: seq<Value>, tail: seq<Byte>)
    requires items != [] && forall i :: 0 <= i < |items| ==> ValueOk(items[i])
    requires var body := EncodeItems(items[1..]) + tail;
      && Decode(Encode(items[0]) + body) == Ok(items[0], body)
      && DecodeItems(|items| - 1, body) == Ok(items[1..], tail)
    ensures DecodeItems(|items|, EncodeItems(items) + tail) == Ok(items, tail)
  {
    var body := EncodeItems(items[1..]) + tail;
    Assoc(Encode(items[0]), EncodeItems(items[1..]), tail);
    assert items == [items[0]] + items[1..];
  }

  lemma {:induction false} ItemsRoundTrip(items: seq<Value>, tail: seq<Byte>)
    requires forall i :: 0 <= i < |items| ==> ValueOk(items[i])
    ensures DecodeItems(|items|, EncodeItems(items) + tail) == Ok(items, tail)
    decreases items, 1
  {
    if items == [] {
      assert EncodeItems(items) + tail == tail;
    } else {
      RoundTrip(items[0], EncodeItems(items[1..]) + tail);
      ItemsRoundTrip(items[1..], tail);
      ItemsStep(items, tail);
    }
  }

  lemma {:induction false} InsertNext(built: seq<Entry>, es: seq<Entry>)
    requires es != [] && Ascending(built + es)
    ensures Insert(built, es[0].key, es[0].value) == built + [es[0]]
    ensures built + [es[0]] + es[1..] == built + es
  {
    assert Ascending(built + [es[0]]) by {
      assert forall i :: 0 <= i <= |built| ==> (built + [es[0]])[i] == (built + es)[i];
    }
    InsertLast(built, es[0].key, es[0].value);
  }

  lemma {:induction false} EntriesStep(built: seq<Entry>, es: seq<Entry>, tail: seq<Byte>)
    requires es != [] && forall i :: 0 <= i < |es| ==> EntryOk(es[i])
    requires var body := EncodeEntries(es[1..]) + tail;
      EntryOk(es[0]) && Decode(Encode(es[0].value) + body) == Ok(es[0].value, body)
    ensures var body := EncodeEntries(es[1..]) + tail;
      DecodeEntries(|es|, EncodeEntries(es) + tail, built) ==
      DecodeEntries(|es| - 1, body, Insert(built, es[0].key, es[0].value))
  {
    var e, body := es[0], EncodeEntries(es[1..]) + tail;
    Assoc(EncodeText(e.key) + Encode(e.value), EncodeEntries(es[1..]), tail);
    Assoc(EncodeText(e.key), Encode(e.value), body);
    TextRoundTrip(e.key, Encode(e.value) + body);
  }

  lemma {:induction false} EntriesRoundTrip(built: seq<Entry>, es: seq<Entry>, tail: seq<Byte>)
    requires Ascending(built + es)
    requires forall i :: 0 <= i < |es| ==> EntryOk(es[i])
    ensures DecodeEntries(|es|, EncodeEntries(es) + tail, built) == Ok(built + es, tail)
    decreases es, 1
  {
    if es == [] {
      assert EncodeEntries(es) + tail == tail && built + es == built;
    } else {
      var e := es[0];
      assert EntryOk(e);
      RoundTrip(e.value, EncodeEntries(es[1..]) + tail);
      EntriesStep(built, es, tail);
      InsertNext(built, es);
      EntriesRoundTrip(built + [e], es[1..], tail);
    }
  }

  // ---- consequences every state hash rests on ----

  lemma {:induction false} EncodeInjective(v: Value, w: Value)
    requires ValueOk(v) && ValueOk(w)
    requires Encode(v) == Encode(w)
    ensures v == w
  {
    RoundTrip(v, []);
    RoundTrip(w, []);
  }

  /** A digest that tells byte strings apart tells states apart. */
  lemma StateHashDeterminesState(digest: seq<Byte> -> int, v: Value, w: Value)
    requires forall a, b :: digest(a) == digest(b) ==> a == b
    requires ValueOk(v) && ValueOk(w) && digest(Encode(v)) == digest(Encode(w))
    ensures v == w
  {
    EncodeInjective(v, w);
  }

  /** No written value is a proper prefix of another, so concatenated fields stay unambiguous. */
  lemma {:induction false} EncodePrefixFree(v: Value, w: Value)
    requires ValueOk(v) && ValueOk(w)
    requires Encode(v) <= Encode(w)
    ensures v == w
  {
    var tail := Encode(w)[|Encode(v)|..];
    assert Encode(w) == Encode(v) + tail;
    RoundTrip(v, tail);
    RoundTrip(w, []);
    assert Encode(w) + [] == Encode(w);
  }

  /** Whatever bytes arrive, a value that is read is one a node can hold and write again. */
  lemma {:induction false} DecodeOk(s: seq<Byte>)
    ensures Decode(s).Ok? ==> ValueOk(Decode(s).value)
    decreases |s|, 0
  {
    if s != [] {
      var body := s[1..];
      Pow256Values();
      if s[0] == 3 {
        var p := TakeLE(body, W32);
        if p.Ok? { DecodeItemsOk(p.value, p.rest); }
      } else if s[0] == 4 {
        var p := TakeLE(body, W32);
        if p.Ok? { DecodeEntriesOk(p.value, p.rest, []); }
      }
    }
  }

  lemma {:induction false} DecodeItemsOk(n: nat, s: seq<Byte>)
    ensures var p := DecodeItems(n, s); p.Ok? ==> forall i :: 0 <= i < |p.value| ==> ValueOk(p.value[i])
    decreases |s|, 1
  {
    var p := DecodeItems(n, s);
    if n > 0 && p.Ok? {
      var first := Decode(s);
      DecodeOk(s);
      DecodeItemsOk(n - 1, first.rest);
      var items := DecodeItems(n - 1, first.rest).value;
      assert p.value == [first.value] + items;
      forall i | 0 <= i < |p.value| ensures ValueOk(p.value[i]) {
        assert p.value[i] == if i == 0 then first.value else items[i - 1];
      }
    }
  }

  predicate EntriesOk(es: seq<Entry>) {
    Ascending(es) && forall i :: 0 <= i < |es| ==> EntryOk(es[i])
  }

  lemma {:induction false} InsertOk(built: seq<Entry>, key: Text, value: Value)
    requires EntriesOk(built) && EntryOk(Entry(key, value))
    ensures EntriesOk(Insert(built, key, value))
  {
    InsertCorrect(built, key, value);
    var built' := Insert(built, key, value);
    forall i | 0 <= i < |built'| ensures EntryOk(built'[i]) {
      assert built'[i] in built';
    }
  }

  lemma {:induction false} DecodeEntriesOk(n: nat, s: seq<Byte>, built: seq<Entry>)
    requires EntriesOk(built)
    ensures var p := DecodeEntries(n, s, built); p.Ok? ==> EntriesOk(p.value)
    decreases |s|, 1
  {
    if n > 0 && DecodeText(s).Ok? {
      var key, rest := DecodeText(s).value, DecodeText(s).rest;
      if Decode(rest).Ok? {
        DecodeOk(rest);
        InsertOk(built, key, Decode(rest).value);
        DecodeEntriesOk(n - 1, Decode(rest).rest, Insert(built, key, Decode(rest).value));
      }
    }
  }

  /** Reading, writing and reading again changes nothing: the written form is canonical. */
  lemma {:induction false} DecodeEncodeDecode(s: seq<Byte>, tail: seq<Byte>)
    requires Decode(s).Ok?
    ensures ValueOk(Decode(s).value)
    ensures Decode(Encode(Decode(s).value) + tail) == Ok(Decode(s).value, tail)
  {
    DecodeOk(s);
    RoundTrip(Decode(s).value, tail);
  }

  /** The converse round trip fails: the `u64` tag is also read for a number that is written with the `i64` tag. */
  lemma {:induction false} ReadFormNotUnique()
    ensures var s := [1, 2, 7, 0, 0, 0, 0, 0, 0, 0];
      && Decode(s) == Ok(Num(PosInt(7)), [])
      && Encode(Num(PosInt(7))) != s
  {
    var s: seq<Byte> := [1, 2, 7, 0, 0, 0, 0, 0, 0, 0];
    var t: seq<Byte> := [7, 0, 0, 0, 0, 0, 0, 0];
    assert s[1..][1..] == t;
    FromLESeven();
    assert t[..8] == t && t[8..] == [];
    assert Encode(Num(PosInt(7)))[1] == 1;
  }

  lemma {:induction false} FromLESeven()
    ensures FromLE([7, 0, 0, 0, 0, 0, 0, 0]) == 7
  {
    Pow256Values();
    assert 7 < Pow256(8);
    LERoundTrip(7, W64);
    ToLEZero(7);
    assert ToLE(7, W64) == [7] + ToLE(0, 7);
    assert ToLE(7, W64) == [7, 0, 0, 0, 0, 0, 0, 0];
  }

  lemma {:induction false} ToLEZero(k: nat)
    ensures ToLE(0, k) == seq(k, _ => 0)
  {
    if k > 0 { ToLEZero(k - 1); }
  }
}
