/** `ValueWrapper` against a byte stream: the writer and the reader as they run, tied to `Codec`. */
module CodecIO {
  import opened Json
  import opened Codec

  /** What a read returns; the bytes left are in the reader. */
  datatype Outcome<+T> = Done(value: T) | Failed(why: Failure)

  ghost predicate Reads<T>(before: seq<Byte>, after: seq<Byte>, spec: Parse<T>, res: Outcome<T>) {
    match res
    case Done(v) => spec == Parse.Ok(v, after)
    case Failed(why) => spec == Fail(why)
  }

  class Writer {
    var out: seq<Byte>

    constructor ()
      ensures out == []
    {
      out := [];
    }

    method Put(bytes: seq<Byte>)
      modifies this
      ensures out == old(out) + bytes
    {
      out := out + bytes;
    }

    method SerializeText(s: Text)
      modifies this
      ensures out == old(out) + EncodeText(s)
    {
      Put(ToLE(|s| % TWO_32, W32));
      Put(s);
      Assoc(old(out), ToLE(|s| % TWO_32, W32), s);
    }

    method SerializeNumber(n: Number)
      requires NumberOk(n)
      modifies this
      ensures out == old(out) + EncodeNumber(n)
    {
      if n.Float? {
        Put([0]);
        Put(ToLE(n.bits, W64));
        Assoc(old(out), [0], ToLE(n.bits, W64));
      } else if n.NegInt? || n.n < TWO_63 {
        var i := if n.NegInt? then n.i else n.n;
        Put([1]);
        Put(ToLE(BitsOfI64(i), W64));
        Assoc(old(out), [1], ToLE(BitsOfI64(i), W64));
      } else {
        Put([2]);
        Put(ToLE(n.n, W64));
        Assoc(old(out), [2], ToLE(n.n, W64));
      }
    }

    method Serialize(v: Value)
      requires ValueOk(v)
      modifies this
      ensures out == old(out) + Encode(v)
      decreases v, 1
    {
      match v
      case Bool(b) =>
        Put([0]);
        Put([if b then 1 else 0]);
      case Num(n) =>
        Put([1]);
        SerializeNumber(n);
        Assoc(old(out), [1], EncodeNumber(n));
      case Str(s) =>
        Put([2]);
        SerializeText(s);
        Assoc(old(out), [2], EncodeText(s));
      case Arr(items) =>
        Put([3]);
        Put(ToLE(|items| % TWO_32, W32));
        Assoc(old(out), [3], ToLE(|items| % TWO_32, W32));
        SerializeItems(items);
        Assoc(old(out), Header(3, |items|), EncodeItems(items));
      case Obj(es) =>
        Put([4]);
        Put(ToLE(|es| % TWO_32, W32));
        Assoc(old(out), [4], ToLE(|es| % TWO_32, W32));
        SerializeEntries(es);
        Assoc(old(out), Header(4, |es|), EncodeEntries(es));
      case Null =>
        Put([5]);
    }

    method SerializeItems(items: seq<Value>)
      requires forall i :: 0 <= i < |items| ==> ValueOk(items[i])
      modifies this
      ensures out == old(out) + EncodeItems(items)
      decreases items, 0
    {
      var i := 0;
      while i < |items|
        invariant 0 <= i <= |items|
        invariant out == old(out) + EncodeItems(items[..i])
      {
        Serialize(items[i]);
        EncodeItemsSnoc(items, i);
        Assoc(old(out), EncodeItems(items[..i]), Encode(items[i]));
        i := i + 1;
      }
      assert items[..|items|] == items;
    }

    method SerializeEntries(es: seq<Entry>)
      requires forall i :: 0 <= i < |es| ==> EntryOk(es[i])
      modifies this
      ensures out == old(out) + EncodeEntries(es)
      decreases es, 0
    {
      var i := 0;
      while i < |es|
        invariant 0 <= i <= |es|
        invariant out == old(out) + EncodeEntries(es[..i])
      {
        assert EntryOk(es[i]);
        ghost var before := out;
        SerializeText(es[i].key);
        Serialize(es[i].value);
        Assoc(before, EncodeText(es[i].key), Encode(es[i].value));
        EncodeEntriesSnoc(es, i);
        Assoc(old(out), EncodeEntries(es[..i]), EncodeText(es[i].key) + Encode(es[i].value));
        i := i + 1;
      }
      assert es[..|es|] == es;
    }
  }

  lemma {:induction false} EncodeItemsSnoc(items: seq<Value>, k: nat)
    requires k < |items|
    requires forall i :: 0 <= i < |items| ==> ValueOk(items[i])
    ensures EncodeItems(items[..k + 1]) == EncodeItems(items[..k]) + Encode(items[k])
  {
    if k == 0 {
      assert items[..1][1..] == [];
      assert EncodeItems(items[..1]) == Encode(items[0]) + EncodeItems([]);
    } else {
      EncodeItemsSnoc(items[1..], k - 1);
      assert items[..k + 1][1..] == items[1..][..k] && items[..k][1..] == items[1..][..k - 1];
      Assoc(Encode(items[0]), EncodeItems(items[1..][..k - 1]), Encode(items[k]));
    }
  }

  lemma {:induction false} EncodeEntriesSnoc(es: seq<Entry>, k: nat)
    requires k < |es|
    requires forall i :: 0 <= i < |es| ==> EntryOk(es[i])
    ensures EntryOk(es[k])
    ensures EncodeEntries(es[..k + 1]) ==
      EncodeEntries(es[..k]) + (EncodeText(es[k].key) + Encode(es[k].value))
  {
    assert EntryOk(es[0]) && EntryOk(es[k]);
    var first := EncodeText(es[0].key) + Encode(es[0].value);
    if k == 0 {
      assert es[..1][1..] == [];
      assert EncodeEntries(es[..1]) == first + EncodeEntries([]);
    } else {
      EncodeEntriesSnoc(es[1..], k - 1);
      assert es[..k + 1][1..] == es[1..][..k] && es[..k][1..] == es[1..][..k - 1];
      Assoc(first, EncodeEntries(es[1..][..k - 1]), EncodeText(es[k].key) + Encode(es[k].value));
    }
  }

  class Reader {
    var left: seq<Byte>

    constructor (bytes: seq<Byte>)
      ensures left == bytes
    {
      left := bytes;
    }

    method ReadLE(k: nat) returns (res: Outcome<nat>)
      modifies this
      ensures Reads(old(left), left, TakeLE(old(left), k), res)
    {
      if |left| < k { return Failed(Io); }
      res := Done(FromLE(left[..k]));
      left := left[k..];
    }

    method ReadText() returns (res: Outcome<Text>)
      modifies this
      ensures Reads(old(left), left, DecodeText(old(left)), res)
    {
      var len := ReadLE(W32);
      if len.Failed? { return Failed(len.why); }
      if |left| < len.value || !Utf8(left[..len.value]) { return Failed(Io); }
      res := Done(left[..len.value]);
      left := left[len.value..];
    }

    method ReadNumber() returns (res: Outcome<Number>)
      modifies this
      ensures Reads(old(left), left, DecodeNumber(old(left)), res)
    {
      if left == [] || left[0] > 2 { return Failed(Io); }
      var tag := left[0];
      left := left[1..];
      var bits := ReadLE(W64);
      if bits.Failed? { return Failed(bits.why); }
      var n := NumberOfBits(tag, bits.value);
      res := if n.Ok? then Done(n.value) else Failed(n.why);
    }

    method Deserialize() returns (res: Outcome<Value>)
      modifies this
      ensures Reads(old(left), left, Decode(old(left)), res)
      decreases |left|, 1
    {
      if left == [] { return Failed(Io); }
      var order := left[0];
      left := left[1..];
      match order
      case 0 =>
        if left == [] || left[0] > 1 { return Failed(Io); }
        res := Done(Bool(left[0] == 1));
        left := left[1..];
      case 1 =>
        var n := ReadNumber();
        res := if n.Done? then Done(Num(n.value)) else Failed(n.why);
      case 2 =>
        var t := ReadText();
        res := if t.Done? then Done(Str(t.value)) else Failed(t.why);
      case 3 =>
        var len := ReadLE(W32);
        if len.Failed? { return Failed(len.why); }
        var items := DeserializeItems(len.value);
        res := if items.Done? then Done(Arr(items.value)) else Failed(items.why);
      case 4 =>
        var len := ReadLE(W32);
        if len.Failed? { return Failed(len.why); }
        var es := DeserializeEntries(len.value);
        res := if es.Done? then Done(Obj(es.value)) else Failed(es.why);
      case 5 =>
        res := Done(Null);
      case _ =>
        res := Failed(Io);
    }

    method DeserializeItems(n: nat) returns (res: Outcome<seq<Value>>)
      modifies this
      ensures Reads(old(left), left, DecodeItems(n, old(left)), res)
      decreases |left|, 2
    {
      var result: seq<Value> := [];
      var i := 0;
      AfterNothing(DecodeItems(n, left));
      while i < n
        invariant 0 <= i <= n && |left| <= |old(left)|
        invariant DecodeItems(n, old(left)) == After(result, DecodeItems(n - i, left))
      {
        var v := Deserialize();
        if v.Failed? { return Failed(v.why); }
        result := result + [v.value];
        AfterStep(result, v.value, DecodeItems(n - i - 1, left));
        i := i + 1;
      }
      assert result + [] == result;
      res := Done(result);
    }

    method DeserializeEntry() returns (res: Outcome<Entry>)
      modifies this
      ensures Reads(old(left), left, DecodeEntry(old(left)), res)
      decreases |left|, 2
    {
      var key := ReadText();
      if key.Failed? { return Failed(key.why); }
      var v := Deserialize();
      res := if v.Done? then Done(Entry(key.value, v.value)) else Failed(v.why);
    }

    method DeserializeEntries(n: nat) returns (res: Outcome<seq<Entry>>)
      modifies this
      ensures Reads(old(left), left, DecodeEntries(n, old(left), []), res)
      decreases |left|, 3
    {
      var result: seq<Entry> := [];
      var i := 0;
      while i < n
        invariant 0 <= i <= n && |left| <= |old(left)|
        invariant DecodeEntries(n, old(left), []) == DecodeEntries(n - i, left, result)
      {
        var e := DeserializeEntry();
        if e.Failed? { return Failed(e.why); }
        result := Insert(result, e.value.key, e.value.value);
        i := i + 1;
      }
      res := Done(result);
    }
  }

  /** The result of a loop that has already read `done` and will go on as `p`. */
  function After(done: seq<Value>, p: Parse<seq<Value>>): Parse<seq<Value>> {
    match p
    case Ok(vs, rest) => Parse.Ok(done + vs, rest)
    case Fail(why) => Fail(why)
  }

  lemma AfterNothing(p: Parse<seq<Value>>)
    ensures After([], p) == p
  {
    if p.Ok? { assert [] + p.value == p.value; }
  }

  lemma {:induction false} AfterStep(done: seq<Value>, v: Value, p: Parse<seq<Value>>)
    requires done != [] && done[|done| - 1] == v
    ensures After(done, p) == After(done[..|done| - 1], After([v], p))
  {
    if p.Ok? { assert done[..|done| - 1] + ([v] + p.value) == done + p.value; }
  }

  /** A value written to a stream and read back from it, as a node does between its database and its memory. */
  method WriteThenRead(v: Value) returns (res: Outcome<Value>)
    requires ValueOk(v)
    ensures res == Done(v)
  {
    var w := new Writer();
    w.Serialize(v);
    var r := new Reader(w.out);
    res := r.Deserialize();
    RoundTrip(v, []);
    assert w.out == Encode(v) + [];
  }
}
