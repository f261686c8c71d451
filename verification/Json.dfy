/** JSON values as `ValueWrapper` sees them. */
module Json {

  type Byte = b: int | 0 <= b < 256

  /** A Rust `String`: its UTF-8 bytes. */
  type Text = seq<Byte>

  /** The three shapes of a `serde_json` number. A float is kept as its 64 bits. */
  datatype Number = PosInt(n: nat) | NegInt(i: int) | Float(bits: nat)

  datatype Value =
    | Null
    | Bool(flag: bool)
    | Num(num: Number)
    | Str(text: Text)
    | Arr(items: seq<Value>)
    | Obj(entries: seq<Entry>)  // in the iteration order of the map: ascending keys

  datatype Entry = Entry(key: Text, value: Value)

  const TWO_63: int := 0x8000_0000_0000_0000
  const TWO_64: int := 0x1_0000_0000_0000_0000
  const TWO_32: int := 0x1_0000_0000

  /** The exponent bits of an IEEE 754 double. */
  function Exponent(bits: nat): nat {
    bits / 0x10_0000_0000_0000 % 2048
  }

  predicate IsFinite(bits: nat) {
    Exponent(bits) != 2047
  }

  predicate IsNan(bits: nat) {
    Exponent(bits) == 2047 && bits % 0x10_0000_0000_0000 != 0
  }

  /** What `serde_json` guarantees of a number. */
  predicate NumberOk(n: Number) {
    match n
    case PosInt(n) => n < TWO_64
    case NegInt(i) => -TWO_63 <= i < 0
    case Float(bits) => bits < TWO_64 && IsFinite(bits)
  }

  predicate IsContinuation(b: Byte) {
    0x80 <= b < 0xC0
  }

  /** Well-formed UTF-8, section 4 of RFC 3629. */
  predicate Utf8(s: Text)
    decreases |s|
  {
    if s == [] then true
    else if s[0] < 0x80 then Utf8(s[1..])
    else if 0xC2 <= s[0] < 0xE0 then |s| >= 2 && IsContinuation(s[1]) && Utf8(s[2..])
    else if 0xE0 <= s[0] < 0xF0 then
      && |s| >= 3 && IsContinuation(s[1]) && IsContinuation(s[2])
      && (s[0] == 0xE0 ==> s[1] >= 0xA0)
      && (s[0] == 0xED ==> s[1] < 0xA0)
      && Utf8(s[3..])
    else
      && 0xF0 <= s[0] < 0xF5
      && |s| >= 4 && IsContinuation(s[1]) && IsContinuation(s[2]) && IsContinuation(s[3])
      && (s[0] == 0xF0 ==> s[1] >= 0x90)
      && (s[0] == 0xF4 ==> s[1] < 0x90)
      && Utf8(s[4..])
  }

  predicate TextOk(s: Text) {
    |s| < TWO_32 && Utf8(s)
  }

  /** Byte-wise lexicographic order, the order of Rust strings. */
  predicate Less(a: Text, b: Text) {
    if b == [] then false
    else if a == [] then true
    else a[0] < b[0] || (a[0] == b[0] && Less(a[1..], b[1..]))
  }

  lemma {:induction false} LessTransitive(a: Text, b: Text, c: Text)
    requires Less(a, b) && Less(b, c)
    ensures Less(a, c)
  {
    if a != [] && a[0] == b[0] == c[0] {
      LessTransitive(a[1..], b[1..], c[1..]);
    }
  }

  lemma {:induction false} LessTrichotomy(a: Text, b: Text)
    ensures !Less(a, a)
    ensures Less(a, b) || a == b || Less(b, a)
  {
    if a != [] {
      LessTrichotomy(a[1..], if b == [] then [] else b[1..]);
      if b != [] && a[0] == b[0] && a[1..] == b[1..] {
        assert a == [a[0]] + a[1..] && b == [b[0]] + b[1..];
      }
    }
  }

  predicate Ascending(es: seq<Entry>) {
    forall i, j :: 0 <= i < j < |es| ==> Less(es[i].key, es[j].key)
  }

  /** Every value a node can hold and that fits the 32-bit length fields. */
  predicate ValueOk(v: Value)
    decreases v, 0
  {
    match v
    case Num(n) => NumberOk(n)
    case Str(s) => TextOk(s)
    case Arr(items) => |items| < TWO_32 && forall i :: 0 <= i < |items| ==> ValueOk(items[i])
    case Obj(es) =>
      && |es| < TWO_32
      && Ascending(es)
      && forall i :: 0 <= i < |es| ==> EntryOk(es[i])
    case _ => true
  }

  predicate EntryOk(e: Entry)
    decreases e, 1
  {
    TextOk(e.key) && ValueOk(e.value)
  }

  /** `Map::insert` on the ordered map behind a JSON object. */
  function Insert(es: seq<Entry>, key: Text, value: Value): (r: seq<Entry>)
    ensures |es| <= |r| <= |es| + 1
  {
    if es == [] then [Entry(key, value)]
    else if es[0].key == key then [Entry(key, value)] + es[1..]
    else if Less(key, es[0].key) then [Entry(key, value)] + es
    else [es[0]] + Insert(es[1..], key, value)
  }

  /** Inserting keeps the map ordered, sets the key and leaves every other key alone. */
  lemma {:induction false} InsertCorrect(es: seq<Entry>, key: Text, value: Value)
    requires Ascending(es)
    ensures Ascending(Insert(es, key, value))
    ensures Entry(key, value) in Insert(es, key, value)
    ensures forall e :: e in Insert(es, key, value) ==> e == Entry(key, value) || e in es
    ensures forall e :: e in es && e.key != key ==> e in Insert(es, key, value)
  {
    if es == [] {
    } else if es[0].key == key {
    } else if Less(key, es[0].key) {
      forall j | 0 <= j < |es| ensures Less(key, es[j].key) {
        if j > 0 { LessTransitive(key, es[0].key, es[j].key); }
      }
    } else {
      LessTrichotomy(key, es[0].key);
      var rest := Insert(es[1..], key, value);
      InsertCorrect(es[1..], key, value);
      forall j | 0 <= j < |rest| ensures Less(es[0].key, rest[j].key) {
        assert rest[j] in rest;
      }
    }
  }

  /** A key above all others goes to the end. */
  lemma {:induction false} InsertLast(es: seq<Entry>, key: Text, value: Value)
    requires Ascending(es + [Entry(key, value)])
    ensures Insert(es, key, value) == es + [Entry(key, value)]
  {
    if es != [] {
      var all := es + [Entry(key, value)];
      assert all[0] == es[0] && all[|es|] == Entry(key, value);
      LessTrichotomy(key, key);
      if Less(key, es[0].key) { LessTransitive(es[0].key, key, es[0].key); LessTrichotomy(es[0].key, key); }
      assert es[1..] + [Entry(key, value)] == all[1..];
      InsertLast(es[1..], key, value);
    }
  }
}
