/** The bytes themselves: what each kind of value looks like on the wire, in the terms of the Borsh format. */
module CodecFormat {
  import opened Json
  import opened Codec

  /** The number these bytes stand for, the last being the most significant. */
  function Numeral(s: seq<Byte>): (r: nat) {
    if s == [] then 0 else Numeral(s[..|s| - 1]) + s[|s| - 1] * Pow256(|s| - 1)
  }

  /** One piece after the other. */
  function Concat(pieces: seq<seq<Byte>>): seq<Byte> {
    if pieces == [] then [] else pieces[0] + Concat(pieces[1..])
  }

  lemma {:induction false} NumeralOfFirst(b: Byte, s: seq<Byte>)
    ensures Numeral([b] + s) == b + 256 * Numeral(s)
  {
    var t := [b] + s;
    if s == [] {
      assert t[..0] == [];
    } else {
      var init, last := s[..|s| - 1], s[|s| - 1];
      assert t[..|t| - 1] == [b] + init;
      NumeralOfFirst(b, init);
      assert Pow256(|s|) == 256 * Pow256(|s| - 1);
      assert last * (256 * Pow256(|s| - 1)) == 256 * (last * Pow256(|s| - 1));
    }
  }

  /** The least significant byte comes first. */
  lemma {:induction false} WrittenNumeral(n: nat, k: nat)
    requires n < Pow256(k)
    ensures |ToLE(n, k)| == k && Numeral(ToLE(n, k)) == n
  {
    if k > 0 {
      WrittenNumeral(n / 256, k - 1);
      NumeralOfFirst(n % 256, ToLE(n / 256, k - 1));
    }
  }

  /** The bytes begin with the length and are followed by the text. */
  predicate IsText(s: seq<Byte>, text: Text) {
    |s| >= 4 && Numeral(s[..4]) == |text| && s[4..] == text
  }

  lemma TextFormat(text: Text)
    requires TextOk(text)
    ensures IsText(EncodeText(text), text)
  {
    Pow256Values();
    WrittenNumeral(|text|, W32);
    assert EncodeText(text)[..4] == ToLE(|text|, W32);
  }

  function Pieces(items: seq<Value>): (r: seq<seq<Byte>>)
    requires forall i :: 0 <= i < |items| ==> ValueOk(items[i])
    ensures |r| == |items| && forall i :: 0 <= i < |items| ==> r[i] == Encode(items[i])
  {
    seq(|items|, i requires 0 <= i < |items| => Encode(items[i]))
  }

  /** Of an entry first the key, then the value. */
  function EntryPieces(es: seq<Entry>): (r: seq<seq<Byte>>)
    requires forall i :: 0 <= i < |es| ==> EntryOk(es[i])
    ensures |r| == |es|
    ensures forall i :: 0 <= i < |es| ==>
      && EntryOk(es[i]) && |r[i]| >= 4 + |es[i].key|
      && IsText(r[i][..4 + |es[i].key|], es[i].key) && r[i][4 + |es[i].key|..] == Encode(es[i].value)
  {
    var r := seq(|es|, i requires 0 <= i < |es| => assert EntryOk(es[i]); EncodeText(es[i].key) + Encode(es[i].value));
    assert forall i :: 0 <= i < |es| ==>
      && EntryOk(es[i]) && |r[i]| >= 4 + |es[i].key|
      && IsText(r[i][..4 + |es[i].key|], es[i].key) && r[i][4 + |es[i].key|..] == Encode(es[i].value)
    by {
      forall i | 0 <= i < |es|
        ensures && EntryOk(es[i]) && |r[i]| >= 4 + |es[i].key|
                && IsText(r[i][..4 + |es[i].key|], es[i].key) && r[i][4 + |es[i].key|..] == Encode(es[i].value)
      {
        assert EntryOk(es[i]);
        TextFormat(es[i].key);
        assert r[i][..4 + |es[i].key|] == EncodeText(es[i].key);
      }
    }
    r
  }

  lemma {:induction false} ItemsInOrder(items: seq<Value>)
    requires forall i :: 0 <= i < |items| ==> ValueOk(items[i])
    ensures EncodeItems(items) == Concat(Pieces(items))
  {
    if items != [] {
      ItemsInOrder(items[1..]);
      assert Pieces(items)[1..] == Pieces(items[1..]);
    }
  }

  lemma {:induction false} EntriesInOrder(es: seq<Entry>)
    requires forall i :: 0 <= i < |es| ==> EntryOk(es[i])
    ensures EncodeEntries(es) == Concat(EntryPieces(es))
  {
    if es != [] {
      EntriesInOrder(es[1..]);
      assert EntryOk(es[0]);
      assert EntryPieces(es)[1..] == EntryPieces(es[1..]);
    }
  }

  /** Eight bytes after two tags. */
  predicate IsNumber(s: seq<Byte>, tag: Byte, bits: int) {
    |s| == 10 && s[0] == 1 && s[1] == tag && Numeral(s[2..]) == bits
  }

  lemma NumberBytes(tag: Byte, bits: nat)
    requires bits < TWO_64
    ensures IsNumber([1] + ([tag] + ToLE(bits, W64)), tag, bits)
  {
    Pow256Values();
    WrittenNumeral(bits, W64);
    assert ([1] + ([tag] + ToLE(bits, W64)))[2..] == ToLE(bits, W64);
  }

  lemma NumberFormat(n: Number)
    requires NumberOk(n)
    ensures var s := Encode(Num(n));
      match n
      case Float(bits) => IsNumber(s, 0, bits)
      case NegInt(i) => IsNumber(s, 1, TWO_64 + i)
      case PosInt(n) => IsNumber(s, if n < TWO_63 then 1 else 2, n)
  {
    match n
    case Float(bits) => NumberBytes(0, bits);
    case NegInt(i) => NumberBytes(1, TWO_64 + i);
    case PosInt(n) => NumberBytes(if n < TWO_63 then 1 else 2, n);
  }

  /** Four bytes of length after the tag, then the pieces. */
  predicate IsList(s: seq<Byte>, tag: Byte, len: nat, pieces: seq<seq<Byte>>) {
    |s| >= 5 && s[0] == tag && Numeral(s[1..5]) == len && s[5..] == Concat(pieces)
  }

  lemma HeaderFormat(tag: Byte, len: nat, rest: seq<Byte>, pieces: seq<seq<Byte>>)
    requires len < TWO_32 && rest == Concat(pieces)
    ensures IsList(Header(tag, len) + rest, tag, len, pieces)
  {
    Pow256Values();
    WrittenNumeral(len, W32);
    assert (Header(tag, len) + rest)[1..5] == ToLE(len, W32);
  }

  /** What each kind of value is written as: the tag of its kind, numbers with their own tag and least significant byte
      first, lengths before texts, elements in order, and of each entry the key before the value. */
  lemma WireFormat(v: Value)
    requires ValueOk(v)
    ensures var s := Encode(v);
      match v
      case Bool(b) => s == [0, if b then 1 else 0]
      case Num(Float(bits)) => IsNumber(s, 0, bits)
      case Num(NegInt(i)) => IsNumber(s, 1, TWO_64 + i)
      case Num(PosInt(n)) => IsNumber(s, if n < TWO_63 then 1 else 2, n)
      case Str(text) => s[0] == 2 && IsText(s[1..], text)
      case Arr(items) => IsList(s, 3, |items|, Pieces(items))
      case Obj(es) => (forall i :: 0 <= i < |es| ==> EntryOk(es[i])) && IsList(s, 4, |es|, EntryPieces(es))
      case Null => s == [5]
  {
    match v
    case Num(n) => NumberFormat(n);
    case Str(text) => TextFormat(text);
    case Arr(items) =>
      ItemsInOrder(items);
      HeaderFormat(3, |items|, EncodeItems(items), Pieces(items));
    case Obj(es) =>
      EntriesInOrder(es);
      HeaderFormat(4, |es|, EncodeEntries(es), EntryPieces(es));
    case _ =>
  }

  /** What the reader makes of a float: a NaN is refused, an infinity stops it, everything else is read as it is. */
  lemma FloatsRead(bits: nat, rest: seq<Byte>)
    requires bits < TWO_64
    ensures Decode([1, 0] + ToLE(bits, W64) + rest) ==
      if IsNan(bits) then Fail(Io) else if !IsFinite(bits) then Fail(Panic) else Ok(Num(Float(bits)), rest)
  {
    var s := [1, 0] + ToLE(bits, W64) + rest;
    assert s[1..][1..] == ToLE(bits, W64) + rest;
    Field64RoundTrip(bits, rest);
  }
}
