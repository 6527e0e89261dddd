/**
 * Fixed-width numbers and length-prefixed fields, and the parser that needs nothing but their shape.
 *
 * A length is announced in `w` bytes and a number takes twice as many; the transcripts of the
 * product are written with four and eight.
 */
module Transcripts {
  import opened Wrappers
  import opened Base64

  function Power(width: nat): nat { if width == 0 then 1 else 256 * Power(width - 1) }

  /** The last `width` bytes of a number, most significant first. */
  function BigEndian(n: nat, width: nat): seq<Byte> {
    if width == 0 then [] else BigEndian(n / 256, width - 1) + [n % 256]
  }

  function Number(b: seq<Byte>): nat {
    if b == [] then 0 else 256 * Number(b[..|b| - 1]) + b[|b| - 1]
  }

  lemma {:induction false} NumberOfBigEndian(n: nat, width: nat)
    requires n < Power(width)
    ensures |BigEndian(n, width)| == width && Number(BigEndian(n, width)) == n
    decreases width
  {
    if width > 0 {
      NumberOfBigEndian(n / 256, width - 1);
      assert BigEndian(n, width)[..width - 1] == BigEndian(n / 256, width - 1);
    }
  }

  /** What one append adds to a transcript. */
  datatype Item =
    | Octet(octet: Byte)
    | Wide(number: nat)
    | Field(field: seq<Byte>)
    | Fields(fields: seq<seq<Byte>>)

  datatype Kind = AnOctet | AWide | AField | SomeFields

  function KindOf(i: Item): Kind {
    match i
    case Octet(_) => AnOctet
    case Wide(_) => AWide
    case Field(_) => AField
    case Fields(_) => SomeFields
  }

  function KindsOf(items: seq<Item>): seq<Kind> {
    seq(|items|, i requires 0 <= i < |items| => KindOf(items[i]))
  }

  function Prefixed(w: nat, field: seq<Byte>): seq<Byte> { BigEndian(|field|, w) + field }

  function AllPrefixed(w: nat, fields: seq<seq<Byte>>): seq<Byte> {
    if fields == [] then [] else Prefixed(w, fields[0]) + AllPrefixed(w, fields[1..])
  }

  function Written(w: nat, i: Item): seq<Byte> {
    match i
    case Octet(o) => [o]
    case Wide(n) => BigEndian(n, 2 * w)
    case Field(f) => Prefixed(w, f)
    case Fields(fs) => BigEndian(|fs|, w) + AllPrefixed(w, fs)
  }

  function AllWritten(w: nat, items: seq<Item>): seq<Byte> {
    if items == [] then [] else Written(w, items[0]) + AllWritten(w, items[1..])
  }

  /** Every length and every number fits the bytes it is given. */
  predicate Fits(w: nat, i: Item) {
    match i
    case Octet(_) => true
    case Wide(n) => n < Power(2 * w)
    case Field(f) => |f| < Power(w)
    case Fields(fs) => |fs| < Power(w) && forall f :: f in fs ==> |f| < Power(w)
  }

  function TakeField(w: nat, b: seq<Byte>): Option<(seq<Byte>, seq<Byte>)> {
    if |b| < w || |b| - w < Number(b[..w]) then None
    else Some((b[w..w + Number(b[..w])], b[w + Number(b[..w])..]))
  }

  function TakeFields(w: nat, count: nat, b: seq<Byte>): Option<(seq<seq<Byte>>, seq<Byte>)> {
    if count == 0 then Some(([], b))
    else
      var head := TakeField(w, b);
      if head.None? then None
      else
        var tail := TakeFields(w, count - 1, head.value.1);
        if tail.None? then None else Some(([head.value.0] + tail.value.0, tail.value.1))
  }

  function Take(w: nat, k: Kind, b: seq<Byte>): Option<(Item, seq<Byte>)> {
    match k
    case AnOctet => if |b| < 1 then None else Some((Octet(b[0]), b[1..]))
    case AWide => if |b| < 2 * w then None else Some((Wide(Number(b[..2 * w])), b[2 * w..]))
    case AField =>
      var f := TakeField(w, b);
      if f.None? then None else Some((Field(f.value.0), f.value.1))
    case SomeFields =>
      if |b| < w then None
      else
        var fs := TakeFields(w, Number(b[..w]), b[w..]);
        if fs.None? then None else Some((Fields(fs.value.0), fs.value.1))
  }

  /** The items a transcript of a known shape holds, when nothing is missing and nothing is left over. */
  function Parsed(w: nat, kinds: seq<Kind>, b: seq<Byte>): Option<seq<Item>> {
    if kinds == [] then (if b == [] then Some([]) else None)
    else
      var head := Take(w, kinds[0], b);
      if head.None? then None
      else
        var tail := Parsed(w, kinds[1..], head.value.1);
        if tail.None? then None else Some([head.value.0] + tail.value)
  }

  lemma NumberTaken(n: nat, width: nat, rest: seq<Byte>)
    requires n < Power(width)
    ensures var b := BigEndian(n, width) + rest;
            |b| >= width && Number(b[..width]) == n && b[width..] == rest
  {
    NumberOfBigEndian(n, width);
    assert (BigEndian(n, width) + rest)[..width] == BigEndian(n, width);
  }

  lemma FieldTaken(w: nat, field: seq<Byte>, rest: seq<Byte>)
    requires |field| < Power(w)
    ensures TakeField(w, Prefixed(w, field) + rest) == Some((field, rest))
  {
    var b := Prefixed(w, field) + rest;
    NumberTaken(|field|, w, field + rest);
    assert b == BigEndian(|field|, w) + (field + rest);
    assert b[w..w + |field|] == field && b[w + |field|..] == rest;
  }

  lemma OneFieldThenMore(w: nat, b: seq<Byte>, field: seq<Byte>, count: nat, tail: seq<Byte>, more: seq<seq<Byte>>, rest: seq<Byte>)
    requires TakeField(w, b) == Some((field, tail)) && TakeFields(w, count, tail) == Some((more, rest))
    ensures TakeFields(w, count + 1, b) == Some(([field] + more, rest))
  {
  }

  lemma {:induction false} FieldsTaken(w: nat, fields: seq<seq<Byte>>, rest: seq<Byte>)
    requires forall f :: f in fields ==> |f| < Power(w)
    ensures TakeFields(w, |fields|, AllPrefixed(w, fields) + rest) == Some((fields, rest))
    decreases |fields|
  {
    if fields == [] {
      assert AllPrefixed(w, fields) + rest == rest;
    } else {
      var tail := AllPrefixed(w, fields[1..]) + rest;
      Regrouped(Prefixed(w, fields[0]), AllPrefixed(w, fields[1..]), rest);
      FieldTaken(w, fields[0], tail);
      FieldsTaken(w, fields[1..], rest);
      OneFieldThenMore(w, AllPrefixed(w, fields) + rest, fields[0], |fields| - 1, tail, fields[1..], rest);
      assert [fields[0]] + fields[1..] == fields;
    }
  }

  lemma ListTaken(w: nat, fields: seq<seq<Byte>>, rest: seq<Byte>)
    requires Fits(w, Fields(fields))
    ensures Take(w, SomeFields, Written(w, Fields(fields)) + rest) == Some((Fields(fields), rest))
  {
    var tail := AllPrefixed(w, fields) + rest;
    NumberTaken(|fields|, w, tail);
    FieldsTaken(w, fields, rest);
    Regrouped(BigEndian(|fields|, w), AllPrefixed(w, fields), rest);
    CountThenFields(w, BigEndian(|fields|, w) + tail, tail, fields, rest);
  }

  lemma CountThenFields(w: nat, b: seq<Byte>, tail: seq<Byte>, fields: seq<seq<Byte>>, rest: seq<Byte>)
    requires |b| >= w && Number(b[..w]) == |fields| && b[w..] == tail
    requires TakeFields(w, |fields|, tail) == Some((fields, rest))
    ensures Take(w, SomeFields, b) == Some((Fields(fields), rest))
  {
  }

  lemma ItemTaken(w: nat, i: Item, rest: seq<Byte>)
    requires Fits(w, i)
    ensures Take(w, KindOf(i), Written(w, i) + rest) == Some((i, rest))
  {
    match i {
      case Octet(o) => assert ([o] + rest)[1..] == rest;
      case Wide(n) => NumberTaken(n, 2 * w, rest);
      case Field(f) => FieldTaken(w, f, rest);
      case Fields(fs) => ListTaken(w, fs, rest);
    }
  }

  /** Whatever items are written, their shape alone is enough to read every one of them back. */
  lemma {:induction false} WrittenIsParsed(w: nat, items: seq<Item>)
    requires forall i :: i in items ==> Fits(w, i)
    ensures Parsed(w, KindsOf(items), AllWritten(w, items)) == Some(items)
    decreases |items|
  {
    if items != [] {
      ItemTaken(w, items[0], AllWritten(w, items[1..]));
      WrittenIsParsed(w, items[1..]);
      assert KindsOf(items)[1..] == KindsOf(items[1..]);
      assert [items[0]] + items[1..] == items;
    }
  }

  // ---- Appending, one value after the other

  lemma {:induction false} PrefixedOneByOne(w: nat, fields: seq<seq<Byte>>, n: nat)
    requires n < |fields|
    ensures AllPrefixed(w, fields[..n + 1]) == AllPrefixed(w, fields[..n]) + Prefixed(w, fields[n])
    decreases n
  {
    if n == 0 {
      assert fields[..1][1..] == [];
    } else {
      PrefixedOneByOne(w, fields[1..], n - 1);
      assert fields[..n + 1][1..] == fields[1..][..n] && fields[..n][1..] == fields[1..][..n - 1];
    }
  }

  lemma {:induction false} WrittenOneByOne(w: nat, items: seq<Item>, n: nat)
    requires n < |items|
    ensures AllWritten(w, items[..n + 1]) == AllWritten(w, items[..n]) + Written(w, items[n])
    decreases n
  {
    if n == 0 {
      assert items[..1][1..] == [];
    } else {
      WrittenOneByOne(w, items[1..], n - 1);
      assert items[..n + 1][1..] == items[1..][..n] && items[..n][1..] == items[1..][..n - 1];
    }
  }

  method AppendFields(w: nat, buffer: seq<Byte>, fields: seq<seq<Byte>>) returns (r: seq<Byte>)
    ensures r == buffer + AllPrefixed(w, fields)
  {
    r := buffer;
    for n := 0 to |fields|
      invariant r == buffer + AllPrefixed(w, fields[..n])
    {
      PrefixedOneByOne(w, fields, n);
      Regrouped(buffer, AllPrefixed(w, fields[..n]), Prefixed(w, fields[n]));
      r := r + Prefixed(w, fields[n]);
    }
    assert fields[..|fields|] == fields;
  }

  method AppendItem(w: nat, buffer: seq<Byte>, item: Item) returns (r: seq<Byte>)
    ensures r == buffer + Written(w, item)
  {
    match item {
      case Octet(o) => r := buffer + [o];
      case Wide(n) => r := buffer + BigEndian(n, 2 * w);
      case Field(f) => r := buffer + Prefixed(w, f);
      case Fields(fs) =>
        r := AppendFields(w, buffer + BigEndian(|fs|, w), fs);
        Regrouped(buffer, BigEndian(|fs|, w), AllPrefixed(w, fs));
    }
  }

  /** A transcript grows by one item at a time, each behind those already there. */
  method AppendItems(w: nat, buffer: seq<Byte>, items: seq<Item>) returns (r: seq<Byte>)
    ensures r == buffer + AllWritten(w, items)
  {
    r := buffer;
    for n := 0 to |items|
      invariant r == buffer + AllWritten(w, items[..n])
    {
      WrittenOneByOne(w, items, n);
      Regrouped(buffer, AllWritten(w, items[..n]), Written(w, items[n]));
      r := AppendItem(w, r, items[n]);
    }
    assert items[..|items|] == items;
  }
}
