/** A concrete stand-in for the `encoding/json` calls of the order service:
    `json.Marshal` of one order (the event body), `json.Marshal` of an order
    list (the cache value) and `json.Unmarshal` of a cached value back into a
    list.

    The text has the shape Go writes for these records —
    `{"id":…,"productId":…,"totalPrice":…,"status":…,"createdAt":…}` inside
    `[`…`]`, and `null` for a nil list — with strings escaping only `"` and
    `\`, and numbers written as integers with no leading zero.  The reader
    accepts exactly the text the writer produces (fields in that order, no
    white space) and rejects everything else (`OnlyWrittenListsDecode`),
    which is what makes a corrupt cache entry observable. */
module Codec {
  import opened Results
  import opened Decimal
  import opened Model

  // ---------------------------------------------------------------------
  // Strings

  predicate NeedsEscape(c: char) { c == '"' || c == '\\' }

  function Escape(s: string): string
  {
    if s == [] then []
    else (if NeedsEscape(s[0]) then ['\\', s[0]] else [s[0]]) + Escape(s[1..])
  }

  function EncodeString(s: string): string
  {
    "\"" + Escape(s) + "\""
  }

  /** Reads the characters of a string literal, after its opening quote, up
      to and including the closing quote. */
  function ParseStringBody(s: string): (r: Option<(string, string)>)
    ensures r.Some? ==> |r.value.1| < |s|
    decreases |s|
  {
    if s == [] then None
    else if s[0] == '"' then Some(([], s[1..]))
    else if s[0] == '\\' then
      if |s| >= 2 && NeedsEscape(s[1]) then
        var p :- ParseStringBody(s[2..]);
        Some(([s[1]] + p.0, p.1))
      else None
    else
      var p :- ParseStringBody(s[1..]);
      Some(([s[0]] + p.0, p.1))
  }

  function ParseString(s: string): (r: Option<(string, string)>)
    ensures r.Some? ==> |r.value.1| < |s|
  {
    if s != [] && s[0] == '"' then ParseStringBody(s[1..]) else None
  }

  /** Consumes the literal text `lit` at the start of `s`. */
  function Expect(lit: string, s: string): (r: Option<string>)
    ensures r.Some? ==> |r.value| + |lit| == |s|
  {
    if lit <= s then Some(s[|lit|..]) else None
  }

  // ---------------------------------------------------------------------
  // Orders

  const IdField := "{\"id\":"
  const ProductIdField := ",\"productId\":"
  const TotalPriceField := ",\"totalPrice\":"
  const StatusField := ",\"status\":"
  const CreatedAtField := ",\"createdAt\":"
  const ObjectEnd := "}"

  function StringField(key: string, v: string): string
  {
    key + EncodeString(v)
  }

  function IntField(key: string, v: int): string
  {
    key + IntToDecimal(v)
  }

  /** `json.Marshal(order)`: one JSON object. */
  function EncodeOrder(o: Order): (s: string)
  {
    StringField(IdField, o.id)
    + (StringField(ProductIdField, o.productId)
    + (IntField(TotalPriceField, o.totalPrice)
    + (StringField(StatusField, o.status)
    + (IntField(CreatedAtField, o.createdAt)
    + ObjectEnd))))
  }

  function ParseStringField(key: string, s: string): (r: Option<(string, string)>)
    ensures r.Some? ==> |r.value.1| < |s|
  {
    var t :- Expect(key, s);
    ParseString(t)
  }

  function ParseIntField(key: string, s: string): (r: Option<(int, string)>)
    ensures r.Some? ==> |r.value.1| < |s|
  {
    var t :- Expect(key, s);
    ParseInt(t)
  }

  function ParseOrder(s: string): (r: Option<(Order, string)>)
    ensures r.Some? ==> |r.value.1| < |s|
  {
    var id :- ParseStringField(IdField, s);
    var productId :- ParseStringField(ProductIdField, id.1);
    var totalPrice :- ParseIntField(TotalPriceField, productId.1);
    var status :- ParseStringField(StatusField, totalPrice.1);
    var createdAt :- ParseIntField(CreatedAtField, status.1);
    var t :- Expect(ObjectEnd, createdAt.1);
    Some((Order(id.0, productId.0, totalPrice.0, status.0, createdAt.0), t))
  }

  /** `json.Unmarshal` of one order, as a consumer of the event reads it. */
  function DecodeOrder(s: string): Option<Order>
  {
    var p :- ParseOrder(s);
    if p.1 == [] then Some(p.0) else None
  }

  // ---------------------------------------------------------------------
  // Order lists

  function EncodeItems(os: seq<Order>): string
  {
    if |os| == 0 then []
    else if |os| == 1 then EncodeOrder(os[0])
    else EncodeOrder(os[0]) + ("," + EncodeItems(os[1..]))
  }

  /** `json.Marshal(orders)`: `null` for a nil list, `[…]` otherwise. */
  function EncodeList(l: OrderList): (s: string)
  {
    match l
    case NilList => "null"
    case List(items) => "[" + EncodeItems(items) + "]"
  }

  /** Reads one or more orders separated by commas, up to and including the
      closing bracket. */
  function ParseItems(s: string): (r: Option<(seq<Order>, string)>)
    ensures r.Some? ==> |r.value.1| < |s|
    decreases |s|
  {
    var first :- ParseOrder(s);
    var t := first.1;
    if t != [] && t[0] == ',' then
      var more :- ParseItems(t[1..]);
      Some(([first.0] + more.0, more.1))
    else if t != [] && t[0] == ']' then
      Some(([first.0], t[1..]))
    else
      None
  }

  /** `json.Unmarshal([]byte(s), &orders)`: `None` is the error case.  Only
      text the writer produces is read: a list that is read is one whose
      written form is `s`. */
  function DecodeList(s: string): (r: Option<OrderList>)
    ensures r.Some? ==> s == EncodeList(r.value)
  {
    if s == "null" then Some(NilList)
    else if s == "[]" then Some(List([]))
    else if s != [] && s[0] == '[' then
      var p :- ParseItems(s[1..]);
      if p.1 == [] then
        ItemsCanonical(s[1..], p.0, p.1);
        BracketedCanonical(s, p.0);
        Some(List(p.0))
      else None
    else None
  }

  // ---------------------------------------------------------------------
  // Round trips

  lemma ExpectLiteral(lit: string, rest: string)
    ensures Expect(lit, lit + rest) == Some(rest)
  {
    assert (lit + rest)[..|lit|] == lit;
    assert (lit + rest)[|lit|..] == rest;
  }

  lemma {:induction false} StringBodyRoundTrip(s: string, rest: string)
    ensures ParseStringBody(Escape(s) + ("\"" + rest)) == Some((s, rest))
  {
    var q := "\"" + rest;
    if s == [] {
      assert Escape(s) + q == q;
    } else {
      var c := s[0];
      var u := Escape(s[1..]) + q;
      var e := if NeedsEscape(c) then ['\\', c] else [c];
      assert Escape(s) + q == e + u;
      StringBodyRoundTrip(s[1..], rest);
      if NeedsEscape(c) {
        assert (e + u)[2..] == u;
      } else {
        assert (e + u)[1..] == u;
      }
      assert [c] + s[1..] == s;
    }
  }

  /** A string written as a JSON literal reads back as itself, and reading
      stops right after its closing quote. */
  lemma StringRoundTrip(s: string, rest: string)
    ensures ParseString(EncodeString(s) + rest) == Some((s, rest))
  {
    var body := Escape(s) + ("\"" + rest);
    assert EncodeString(s) + rest == "\"" + body;
    assert ("\"" + body)[1..] == body;
    StringBodyRoundTrip(s, rest);
  }

  lemma EncodeOrderStartsWithBrace(o: Order)
    ensures |EncodeOrder(o)| > 0 && EncodeOrder(o)[0] == '{'
  {
    assert EncodeOrder(o)[0] == IdField[0];
  }

  lemma Assoc(a: string, b: string, c: string)
    ensures (a + b) + c == a + (b + c)
  {
  }

  lemma StringFieldRoundTrip(key: string, v: string, rest: string)
    ensures ParseStringField(key, StringField(key, v) + rest) == Some((v, rest))
  {
    Assoc(key, EncodeString(v), rest);
    ExpectLiteral(key, EncodeString(v) + rest);
    StringRoundTrip(v, rest);
  }

  lemma IntFieldRoundTrip(key: string, v: int, rest: string)
    requires rest == [] || !IsDigit(rest[0])
    ensures ParseIntField(key, IntField(key, v) + rest) == Some((v, rest))
  {
    Assoc(key, IntToDecimal(v), rest);
    ExpectLiteral(key, IntToDecimal(v) + rest);
    ParseIntOfDecimal(v, rest);
  }

  /** An order's text reads back as the same order, and reading stops right
      after its closing brace. */
  lemma OrderRoundTrip(o: Order, rest: string)
    ensures ParseOrder(EncodeOrder(o)+ rest) == Some((o, rest))
  {
    var f1 := StringField(IdField, o.id);
    var f2 := StringField(ProductIdField, o.productId);
    var f3 := IntField(TotalPriceField, o.totalPrice);
    var f4 := StringField(StatusField, o.status);
    var f5 := IntField(CreatedAtField, o.createdAt);
    var t5 := ObjectEnd + rest;
    var t4 := f5 + t5;
    var t3 := f4 + t4;
    var t2 := f3 + t3;
    var t1 := f2 + t2;
    Assoc(f5, ObjectEnd, rest);
    Assoc(f4, f5 + ObjectEnd, rest);
    Assoc(f3, f4 + (f5 + ObjectEnd), rest);
    Assoc(f2, f3 + (f4 + (f5 + ObjectEnd)), rest);
    Assoc(f1, f2 + (f3 + (f4 + (f5 + ObjectEnd))), rest);
    assert EncodeOrder(o) + rest == f1 + t1;
    StringFieldRoundTrip(IdField, o.id, t1);
    StringFieldRoundTrip(ProductIdField, o.productId, t2);
    assert t3[0] == ',';
    IntFieldRoundTrip(TotalPriceField, o.totalPrice, t3);
    StringFieldRoundTrip(StatusField, o.status, t4);
    assert t5[0] == '}';
    IntFieldRoundTrip(CreatedAtField, o.createdAt, t5);
    ExpectLiteral(ObjectEnd, rest);
  }

  /** What a consumer reads from an `order.created` body is the order that
      was published. */
  lemma OrderBodyRoundTrip(o: Order)
    ensures DecodeOrder(EncodeOrder(o)) == Some(o)
  {
    OrderRoundTrip(o, []);
    assert EncodeOrder(o) + [] == EncodeOrder(o);
  }

  lemma ItemsLast(e: string, o: Order, rest: string)
    requires ParseOrder(e + ("]" + rest)) == Some((o, "]" + rest))
    ensures ParseItems(e + ("]" + rest)) == Some(([o], rest))
  {
    assert ("]" + rest)[1..] == rest;
  }

  lemma SingleItemRoundTrip(o: Order, rest: string)
    ensures ParseItems(EncodeItems([o]) + ("]" + rest)) == Some(([o], rest))
  {
    OrderRoundTrip(o, "]" + rest);
    ItemsLast(EncodeOrder(o), o, rest);
  }

  lemma ItemsSplit(os: seq<Order>, rest: string)
    requires |os| > 1
    ensures EncodeItems(os) + ("]" + rest)
         == EncodeOrder(os[0]) + ("," + (EncodeItems(os[1..]) + ("]" + rest)))
  {
    Assoc(EncodeOrder(os[0]), "," + EncodeItems(os[1..]), "]" + rest);
    Assoc(",", EncodeItems(os[1..]), "]" + rest);
  }

  lemma ItemsCons(e: string, o: Order, tail: string, more: seq<Order>, rest: string)
    requires ParseOrder(e + ("," + tail)) == Some((o, "," + tail))
    requires ParseItems(tail) == Some((more, rest))
    ensures ParseItems(e + ("," + tail)) == Some(([o] + more, rest))
  {
    assert ("," + tail)[1..] == tail;
  }

  lemma {:induction false} ItemsRoundTrip(os: seq<Order>, rest: string)
    requires os != []
    ensures ParseItems(EncodeItems(os) + ("]" + rest)) == Some((os, rest))
  {
    if |os| == 1 {
      assert os == [os[0]];
      SingleItemRoundTrip(os[0], rest);
    } else {
      ItemsRoundTrip(os[1..], rest);
      ItemsStep(os, rest);
    }
  }

  lemma ItemsStep(os: seq<Order>, rest: string)
    requires |os| > 1
    requires ParseItems(EncodeItems(os[1..]) + ("]" + rest)) == Some((os[1..], rest))
    ensures ParseItems(EncodeItems(os) + ("]" + rest)) == Some((os, rest))
  {
    var tail := EncodeItems(os[1..]) + ("]" + rest);
    ItemsSplit(os, rest);
    OrderRoundTrip(os[0], "," + tail);
    ItemsCons(EncodeOrder(os[0]), os[0], tail, os[1..], rest);
    assert [os[0]] + os[1..] == os;
  }

  lemma EncodeItemsNonEmpty(os: seq<Order>)
    requires os != []
    ensures |EncodeItems(os)| > 0 && EncodeItems(os)[0] == '{'
  {
    EncodeOrderStartsWithBrace(os[0]);
  }

  lemma BracketSlice(e: string, junk: string)
    ensures var s := "[" + e + "]" + junk;
      |s| >= 2 && s[0] == '[' && s[1..] == e + ("]" + junk)
  {
    var s := "[" + e + "]" + junk;
    assert s == "[" + (e + ("]" + junk));
  }

  lemma ListTextShape(items: seq<Order>, junk: string)
    requires items != []
    ensures var s := EncodeList(List(items)) + junk;
      |s| >= 3 && s[0] == '[' && s[1] == '{' && s[1..] == EncodeItems(items) + ("]" + junk)
  {
    var s := EncodeList(List(items)) + junk;
    var e := EncodeItems(items);
    BracketSlice(e, junk);
    EncodeItemsNonEmpty(items);
    assert s[1] == s[1..][0] == e[0];
  }

  /** Reading back a written order list gives the same list: a nil list,
      an empty list and a non-empty list each survive the cache. */
  lemma ListRoundTrip(l: OrderList)
    ensures DecodeList(EncodeList(l)) == Some(l)
  {
    if l.List? && l.items != [] {
      var s := EncodeList(l);
      ListTextShape(l.items, []);
      assert s + [] == s;
      ItemsRoundTrip(l.items, []);
      BracketedDecode(s, l.items, []);
    }
  }

  /** Distinct lists are written differently. */
  lemma EncodeListInjective(a: OrderList, b: OrderList)
    requires EncodeList(a) == EncodeList(b)
    ensures a == b
  {
    ListRoundTrip(a);
    ListRoundTrip(b);
  }

  /** A cached value is an order list exactly when it is the written form
      of one: every other text, whatever it holds, is refused. */
  lemma OnlyWrittenListsDecode(s: string)
    ensures DecodeList(s).Some? <==> exists l :: s == EncodeList(l)
  {
    if l :| s == EncodeList(l) {
      ListRoundTrip(l);
    }
  }

  lemma BracketedDecode(s: string, items: seq<Order>, rest: string)
    requires |s| >= 3 && s[0] == '[' && s[1] == '{'
    requires ParseItems(s[1..]) == Some((items, rest))
    ensures DecodeList(s) == if rest == [] then Some(List(items)) else None
  {
    assert s != "null" by {
      assert s[0] != "null"[0];
    }
    assert s != "[]" by {
      assert s[1] != "[]"[1];
    }
  }

  lemma TrailingTextRefused(l: OrderList, junk: string)
    requires junk != []
    ensures DecodeList(EncodeList(l) + junk) == None
  {
    var s := EncodeList(l) + junk;
    match l
    case NilList =>
      assert s[0] == 'n';
    case List(items) =>
      if items == [] {
        BracketSlice([], junk);
        assert s == "[" + [] + "]" + junk;
        assert s[1..][0] != IdField[0];
      } else {
        ListTextShape(items, junk);
        ItemsRoundTrip(items, junk);
        BracketedDecode(s, items, junk);
      }
  }

  // ---------------------------------------------------------------------
  // Canonical form: what the reader accepts is what the writer writes

  lemma ExpectCanonical(lit: string, s: string, t: string)
    requires Expect(lit, s) == Some(t)
    ensures s == lit + t
  {
    assert s == s[..|lit|] + s[|lit|..];
  }

  lemma {:induction false} StringBodyCanonical(s: string, v: string, rest: string)
    requires ParseStringBody(s) == Some((v, rest))
    ensures s == Escape(v) + ("\"" + rest)
    decreases |s|
  {
    if s[0] == '"' {
      assert s == "\"" + s[1..];
    } else if s[0] == '\\' {
      var p := ParseStringBody(s[2..]).value;
      StringBodyCanonical(s[2..], p.0, p.1);
      assert v[0] == s[1] && v[1..] == p.0;
      assert Escape(v) == ['\\', s[1]] + Escape(p.0);
      assert s == ['\\', s[1]] + s[2..];
    } else {
      var p := ParseStringBody(s[1..]).value;
      StringBodyCanonical(s[1..], p.0, p.1);
      assert v[0] == s[0] && v[1..] == p.0;
      assert Escape(v) == [s[0]] + Escape(p.0);
      assert s == [s[0]] + s[1..];
    }
  }

  lemma StringCanonical(s: string, v: string, rest: string)
    requires ParseString(s) == Some((v, rest))
    ensures s == EncodeString(v) + rest
  {
    StringBodyCanonical(s[1..], v, rest);
    assert s == "\"" + s[1..];
  }

  lemma StringFieldCanonical(key: string, s: string, v: string, rest: string)
    requires ParseStringField(key, s) == Some((v, rest))
    ensures s == StringField(key, v) + rest
  {
    var t := Expect(key, s).value;
    ExpectCanonical(key, s, t);
    StringCanonical(t, v, rest);
    Assoc(key, EncodeString(v), rest);
  }

  lemma IntFieldCanonical(key: string, s: string, v: int, rest: string)
    requires ParseIntField(key, s) == Some((v, rest))
    ensures s == IntField(key, v) + rest
  {
    var t := Expect(key, s).value;
    ExpectCanonical(key, s, t);
    ParseIntCanonical(t, v, rest);
    Assoc(key, IntToDecimal(v), rest);
  }

  /** Whatever is read as an order is that order's text, followed by the
      rest left unread. */
  lemma OrderCanonical(s: string, o: Order, rest: string)
    requires ParseOrder(s) == Some((o, rest))
    ensures s == EncodeOrder(o) + rest
  {
    var a := ParseStringField(IdField, s).value;
    StringFieldCanonical(IdField, s, a.0, a.1);
    var b := ParseStringField(ProductIdField, a.1).value;
    StringFieldCanonical(ProductIdField, a.1, b.0, b.1);
    var c := ParseIntField(TotalPriceField, b.1).value;
    IntFieldCanonical(TotalPriceField, b.1, c.0, c.1);
    var d := ParseStringField(StatusField, c.1).value;
    StringFieldCanonical(StatusField, c.1, d.0, d.1);
    var e := ParseIntField(CreatedAtField, d.1).value;
    IntFieldCanonical(CreatedAtField, d.1, e.0, e.1);
    ExpectCanonical(ObjectEnd, e.1, rest);
    assert o == Order(a.0, b.0, c.0, d.0, e.0);
    var f1 := StringField(IdField, o.id);
    var f2 := StringField(ProductIdField, o.productId);
    var f3 := IntField(TotalPriceField, o.totalPrice);
    var f4 := StringField(StatusField, o.status);
    var f5 := IntField(CreatedAtField, o.createdAt);
    Assoc(f5, ObjectEnd, rest);
    Assoc(f4, f5 + ObjectEnd, rest);
    Assoc(f3, f4 + (f5 + ObjectEnd), rest);
    Assoc(f2, f3 + (f4 + (f5 + ObjectEnd)), rest);
    Assoc(f1, f2 + (f3 + (f4 + (f5 + ObjectEnd))), rest);
  }

  lemma {:induction false} ItemsCanonical(s: string, os: seq<Order>, rest: string)
    requires ParseItems(s) == Some((os, rest))
    ensures os != [] && s == EncodeItems(os) + ("]" + rest)
    decreases |s|
  {
    var first := ParseOrder(s).value;
    OrderCanonical(s, first.0, first.1);
    var t := first.1;
    if t[0] == ',' {
      var more := ParseItems(t[1..]).value;
      ItemsCanonical(t[1..], more.0, more.1);
      assert os[0] == first.0 && os[1..] == more.0;
      SplitAtHead(s, EncodeOrder(first.0), t);
      ItemsSplit(os, rest);
    } else {
      assert os == [first.0];
      SplitAtHead(s, EncodeOrder(first.0), t);
    }
  }

  lemma SplitAtHead(s: string, e: string, t: string)
    requires s == e + t && t != []
    ensures s == e + ([t[0]] + t[1..])
  {
    assert t == [t[0]] + t[1..];
  }

  lemma BracketedCanonical(s: string, os: seq<Order>)
    requires s != [] && s[0] == '['
    requires s[1..] == EncodeItems(os) + ("]" + [])
    ensures s == EncodeList(List(os))
  {
    BracketText(s, EncodeItems(os));
  }

  lemma BracketText(s: string, e: string)
    requires s != [] && s[0] == '['
    requires s[1..] == e + ("]" + [])
    ensures s == "[" + e + "]"
  {
    assert s == "[" + s[1..];
  }
}
