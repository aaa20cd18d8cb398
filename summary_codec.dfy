/**
 * The text form in which an OrderSummary is kept in the record's `orderSummary`
 * field (services/database.ts writes it with JSON.stringify and reads it back
 * with JSON.parse). The model uses a small self-delimiting text format in its
 * place: naturals in decimal closed by '.', strings prefixed by their length,
 * a list prefixed by its element count. What matters to the rest of the model
 * is only that decoding inverts encoding and that malformed text is rejected.
 */
module SummaryCodec {
  import opened Wrappers
  import opened OrderTypes

  predicate IsDigit(c: char) { '0' <= c <= '9' }

  predicate AllDigits(s: string) {
    forall i :: 0 <= i < |s| ==> IsDigit(s[i])
  }

  function DigitChar(d: nat): (c: char)
    requires d < 10
    ensures IsDigit(c) && c as int - '0' as int == d
  {
    ('0' as int + d) as char
  }

  /** Decimal digits of `n`, most significant first, with no leading zero. */
  function Digits(n: nat): (s: string)
    ensures |s| > 0 && AllDigits(s)
  {
    if n < 10 then [DigitChar(n)] else Digits(n / 10) + [DigitChar(n % 10)]
  }

  /** The natural a string of decimal digits denotes. */
  function Value(s: string): nat
    requires AllDigits(s)
  {
    if s == [] then 0 else Value(s[..|s| - 1]) * 10 + (s[|s| - 1] as int - '0' as int)
  }

  lemma {:induction false} ValueOfDigits(n: nat)
    ensures Value(Digits(n)) == n
  {
    if n >= 10 {
      var p := Digits(n / 10);
      assert (p + [DigitChar(n % 10)])[..|p|] == p;
      ValueOfDigits(n / 10);
    }
  }

  /** Length of the longest prefix of `s` made of digits. */
  function DigitRun(s: string): (k: nat)
    ensures k <= |s| && AllDigits(s[..k])
    ensures k < |s| ==> !IsDigit(s[k])
  {
    if s != [] && IsDigit(s[0]) then
      var k := 1 + DigitRun(s[1..]);
      assert s[..k] == [s[0]] + s[1..][..k - 1];
      k
    else 0
  }

  const Terminator: char := '.'

  function EncodeNat(n: nat): string { Digits(n) + [Terminator] }

  /** Reads a natural off the front of `s`, yielding it and the rest of the text. */
  function DecodeNat(s: string): Option<(nat, string)>
  {
    var k := DigitRun(s);
    if 0 < k < |s| && s[k] == Terminator then Some((Value(s[..k]), s[k + 1..])) else None
  }

  lemma NatRoundTrip(n: nat, rest: string)
    ensures DecodeNat(EncodeNat(n) + rest) == Some((n, rest))
  {
    var p := Digits(n);
    var s := EncodeNat(n) + rest;
    assert s == p + ([Terminator] + rest);
    var k := DigitRun(s);
    assert s[|p|] == Terminator;
    assert forall i :: 0 <= i < |p| ==> s[i] == p[i];
    assert k == |p|;
    assert s[..k] == p;
    assert s[k + 1..] == rest;
    ValueOfDigits(n);
  }

  function EncodeString(t: string): string { EncodeNat(|t|) + t }

  function DecodeString(s: string): Option<(string, string)>
  {
    var (n, r) :- DecodeNat(s);
    if n <= |r| then Some((r[..n], r[n..])) else None
  }

  lemma StringRoundTrip(t: string, rest: string)
    ensures DecodeString(EncodeString(t) + rest) == Some((t, rest))
  {
    assert EncodeString(t) + rest == EncodeNat(|t|) + (t + rest);
    NatRoundTrip(|t|, t + rest);
    assert (t + rest)[..|t|] == t && (t + rest)[|t|..] == rest;
  }

  function EncodeItem(it: OrderItem): string
  {
    EncodeString(it.foodname) + EncodeNat(it.quantity) + EncodeNat(it.price) + EncodeNat(it.totalPrice)
  }

  function DecodeItem(s: string): Option<(OrderItem, string)>
  {
    var (name, s1) :- DecodeString(s);
    var (quantity, s2) :- DecodeNat(s1);
    var (price, s3) :- DecodeNat(s2);
    var (total, s4) :- DecodeNat(s3);
    Some((OrderItem(name, quantity, price, total), s4))
  }

  lemma ItemRoundTrip(it: OrderItem, rest: string)
    ensures DecodeItem(EncodeItem(it) + rest) == Some((it, rest))
  {
    var r3 := EncodeNat(it.totalPrice) + rest;
    var r2 := EncodeNat(it.price) + r3;
    var r1 := EncodeNat(it.quantity) + r2;
    assert EncodeItem(it) + rest == EncodeString(it.foodname) + r1;
    StringRoundTrip(it.foodname, r1);
    NatRoundTrip(it.quantity, r2);
    NatRoundTrip(it.price, r3);
    NatRoundTrip(it.totalPrice, rest);
  }

  function EncodeItemList(items: seq<OrderItem>): string
  {
    if items == [] then [] else EncodeItem(items[0]) + EncodeItemList(items[1..])
  }

  /** Reads `count` items off the front of `s`. */
  function DecodeItemList(count: nat, s: string): Option<(seq<OrderItem>, string)>
    decreases count
  {
    if count == 0 then Some(([], s))
    else
      var (first, s1) :- DecodeItem(s);
      var (others, s2) :- DecodeItemList(count - 1, s1);
      Some(([first] + others, s2))
  }

  lemma {:induction false} ItemListRoundTrip(items: seq<OrderItem>, rest: string)
    ensures DecodeItemList(|items|, EncodeItemList(items) + rest) == Some((items, rest))
    decreases |items|
  {
    if items == [] {
      assert EncodeItemList(items) + rest == rest;
    } else {
      var tail := EncodeItemList(items[1..]) + rest;
      assert EncodeItemList(items) + rest == EncodeItem(items[0]) + tail;
      ItemRoundTrip(items[0], tail);
      ItemListRoundTrip(items[1..], rest);
      assert [items[0]] + items[1..] == items;
    }
  }

  /** The fields that follow the item list: both totals, the status name and the date. */
  function EncodeTrailer(s: OrderSummary): string
  {
    EncodeNat(s.totalItems) + EncodeNat(s.totalAmount) + EncodeString(StatusName(s.orderStatus)) + EncodeString(s.orderDate)
  }

  datatype Trailer = Trailer(totalItems: nat, totalAmount: nat, status: Status, date: string)

  function DecodeTrailer(s: string): Option<(Trailer, string)>
  {
    var (totalItems, s1) :- DecodeNat(s);
    var (totalAmount, s2) :- DecodeNat(s1);
    var (name, s3) :- DecodeString(s2);
    var status :- StatusFromName(name);
    var (date, s4) :- DecodeString(s3);
    Some((Trailer(totalItems, totalAmount, status, date), s4))
  }

  lemma TrailerRoundTrip(s: OrderSummary, rest: string)
    ensures DecodeTrailer(EncodeTrailer(s) + rest) == Some((Trailer(s.totalItems, s.totalAmount, s.orderStatus, s.orderDate), rest))
  {
    var r3 := EncodeString(s.orderDate) + rest;
    var r2 := EncodeString(StatusName(s.orderStatus)) + r3;
    var r1 := EncodeNat(s.totalAmount) + r2;
    assert EncodeTrailer(s) + rest == EncodeNat(s.totalItems) + r1;
    NatRoundTrip(s.totalItems, r1);
    NatRoundTrip(s.totalAmount, r2);
    StringRoundTrip(StatusName(s.orderStatus), r3);
    StringRoundTrip(s.orderDate, rest);
  }

  /** The text stored for a summary. */
  function Encode(s: OrderSummary): (t: string)
    ensures t != []
  {
    EncodeNat(|s.items|) + EncodeItemList(s.items) + EncodeTrailer(s)
  }

  /** Reads a summary back; None is a parse failure (malformed text or trailing garbage). */
  function Decode(t: string): (r: Option<OrderSummary>)
    ensures t == [] ==> r.None?
  {
    var (count, s1) :- DecodeNat(t);
    var (items, s2) :- DecodeItemList(count, s1);
    var (tr, rest) :- DecodeTrailer(s2);
    if rest == [] then Some(OrderSummary(items, tr.totalItems, tr.totalAmount, tr.status, tr.date)) else None
  }

  /** Decoding the text written for a summary gives back exactly that summary. */
  lemma RoundTrip(s: OrderSummary)
    ensures Decode(Encode(s)) == Some(s)
  {
    var r1 := EncodeItemList(s.items) + EncodeTrailer(s);
    assert Encode(s) == EncodeNat(|s.items|) + r1;
    NatRoundTrip(|s.items|, r1);
    ItemListRoundTrip(s.items, EncodeTrailer(s));
    assert EncodeTrailer(s) == EncodeTrailer(s) + [];
    TrailerRoundTrip(s, []);
  }

  /** Text that continues past a stored summary is not a summary: the codec reads a summary only to the end of its text. */
  lemma TrailingTextRejected(s: OrderSummary, extra: string)
    requires extra != []
    ensures Decode(Encode(s) + extra).None?
  {
    var r1 := EncodeItemList(s.items) + (EncodeTrailer(s) + extra);
    assert Encode(s) + extra == EncodeNat(|s.items|) + r1;
    NatRoundTrip(|s.items|, r1);
    ItemListRoundTrip(s.items, EncodeTrailer(s) + extra);
    TrailerRoundTrip(s, extra);
  }

  /** Two summaries stored as the same text are the same summary. */
  lemma EncodeInjective(a: OrderSummary, b: OrderSummary)
    requires Encode(a) == Encode(b)
    ensures a == b
  {
    RoundTrip(a);
    RoundTrip(b);
  }
}
