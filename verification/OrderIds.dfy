/** The text that is hashed into a client order id. SHA-256 stays abstract: what is proved is when
    two orders are hashed from the same text. */
module OrderIds {
  import opened Base

  datatype OrderType = Market | Limit | Stop | StopLimit
  datatype TimeInForce = Day | Gtc | Ioc | Fok

  /** Prices pass a validator that rejects zero and negative ones. */
  type Price = p: real | p > 0.0 witness 1.0

  type Date = d: CalendarDate | 0 <= d.year < 10000 && 0 <= d.month < 100 && 0 <= d.day < 100
    witness CalendarDate(2024, 10, 17)
  datatype CalendarDate = CalendarDate(year: int, month: int, day: int)

  datatype OrderParams = OrderParams(
    symbol: string, side: Side, qty: nat, limitPrice: Option<Price>, stopPrice: Option<Price>,
    orderType: OrderType, timeInForce: TimeInForce, strategyId: string, orderDate: Date)

  // ---------------------------------------------------------------------------
  // Formatting
  // ---------------------------------------------------------------------------

  function DigitChar(d: nat): char
    requires d < 10
  {
    "0123456789"[d]
  }

  predicate IsDigit(c: char) {
    '0' <= c <= '9'
  }

  function Digits(n: nat): string {
    if n < 10 then [DigitChar(n)] else Digits(n / 10) + [DigitChar(n % 10)]
  }

  function IntText(n: int): string {
    if n < 0 then "-" + Digits(0 - n) else Digits(n)
  }

  function Padded(n: nat, width: nat): string
    decreases width
  {
    if width == 0 then "" else Padded(n / 10, width - 1) + [DigitChar(n % 10)]
  }

  /** ROUND_HALF_UP to whole cents. */
  function Cents(price: Price): (cents: nat)
    ensures cents as real - 0.5 <= price * 100.0 < cents as real + 0.5
  {
    (price * 100.0 + 0.5).Floor
  }

  function FormatPriceForId(price: Option<Price>): string {
    match price
    case None => "None"
    case Some(p) => CentsText(Cents(p))
  }

  function CentsText(cents: nat): string {
    Digits(cents / 100) + "." + Padded(cents % 100, 2)
  }

  function SideText(side: Side): string {
    if side == Buy then "buy" else "sell"
  }

  function TypeText(t: OrderType): string {
    match t
    case Market => "market"
    case Limit => "limit"
    case Stop => "stop"
    case StopLimit => "stop_limit"
  }

  function TifText(t: TimeInForce): string {
    match t
    case Day => "day"
    case Gtc => "gtc"
    case Ioc => "ioc"
    case Fok => "fok"
  }

  function IsoFormat(d: Date): string {
    Padded(d.year, 4) + "-" + Padded(d.month, 2) + "-" + Padded(d.day, 2)
  }

  function Join(field: string, rest: string): string {
    field + "|" + rest
  }

  /** The raw text of both id functions. */
  function RawText(p: OrderParams): string {
    Join(p.symbol, Join(SideText(p.side), Join(Digits(p.qty), Join(FormatPriceForId(p.limitPrice),
      Join(FormatPriceForId(p.stopPrice), Join(TypeText(p.orderType), Join(TifText(p.timeInForce),
        Join(p.strategyId, IsoFormat(p.orderDate)))))))))
  }

  const ORDER_ID_MAX_LENGTH := 24

  /** `digest` is the hexadecimal SHA-256 of a text. */
  function ReconstructOrderParamsHash(p: OrderParams, digest: string -> string): (id: string)
    requires |digest(RawText(p))| >= ORDER_ID_MAX_LENGTH
    ensures |id| == 24 && id <= digest(RawText(p))
  {
    digest(RawText(p))[..ORDER_ID_MAX_LENGTH]
  }

  // ---------------------------------------------------------------------------
  // Reading the text back
  // ---------------------------------------------------------------------------

  function Value(s: string): nat
    decreases |s|
  {
    if s == "" then 0
    else Value(s[..|s| - 1]) * 10 + if IsDigit(s[|s| - 1]) then s[|s| - 1] as int - '0' as int else 0
  }

  lemma DigitCharIsDigit(d: nat)
    requires d < 10
    ensures IsDigit(DigitChar(d)) && DigitChar(d) as int - '0' as int == d
  {
  }

  lemma {:induction false} DigitsReadBack(n: nat)
    ensures Value(Digits(n)) == n && Digits(n) != "" && forall c :: c in Digits(n) ==> IsDigit(c)
  {
    DigitCharIsDigit(n % 10);
    if n >= 10 {
      DigitsReadBack(n / 10);
      assert Digits(n)[..|Digits(n)| - 1] == Digits(n / 10);
    } else {
      assert Digits(n)[..0] == "";
    }
  }

  lemma {:induction false} PaddedReadsBack(n: nat, width: nat)
    ensures |Padded(n, width)| == width && forall c :: c in Padded(n, width) ==> IsDigit(c)
    ensures n < Power10(width) ==> Value(Padded(n, width)) == n
    decreases width
  {
    if width > 0 {
      PaddedReadsBack(n / 10, width - 1);
      DigitCharIsDigit(n % 10);
      assert Padded(n, width)[..width - 1] == Padded(n / 10, width - 1);
    }
  }

  function Power10(k: nat): nat {
    if k == 0 then 1 else 10 * Power10(k - 1)
  }

  /** Text up to a separator that the field does not contain. */
  lemma SplitAt(a: string, r: string, b: string, t: string, separator: char)
    requires a + [separator] + r == b + [separator] + t
    requires separator !in a && separator !in b
    ensures a == b && r == t
  {
    var x, y := a + [separator] + r, b + [separator] + t;
    assert x[|a|] == separator && y[|b|] == separator;
    assert forall i :: 0 <= i < |a| ==> x[i] == a[i] && a[i] in a;
    assert forall i :: 0 <= i < |b| ==> y[i] == b[i] && b[i] in b;
    assert a == x[..|a|] && b == y[..|b|];
    assert r == x[|a| + 1..] && t == y[|b| + 1..];
  }

  lemma SplitField(a: string, r: string, b: string, t: string)
    requires Join(a, r) == Join(b, t) && '|' !in a && '|' !in b
    ensures a == b && r == t
  {
    SplitAt(a, r, b, t, '|');
  }

  function PriceCents(price: Option<Price>): Option<nat> {
    match price
    case None => None
    case Some(p) => Some(Cents(p))
  }

  lemma CentsTextShape(cents: nat)
    ensures '|' !in CentsText(cents) && CentsText(cents) != "None"
  {
    hide Digits, Padded, Value;
    DigitsReadBack(cents / 100);
    PaddedReadsBack(cents % 100, 2);
    assert CentsText(cents)[0] == Digits(cents / 100)[0];
    assert Digits(cents / 100)[0] in Digits(cents / 100);
  }

  lemma CentsTextReadsBack(x: nat, y: nat)
    requires CentsText(x) == CentsText(y)
    ensures x == y
  {
    hide Digits, Padded, Value;
    DigitsReadBack(x / 100);
    DigitsReadBack(y / 100);
    PaddedReadsBack(x % 100, 2);
    PaddedReadsBack(y % 100, 2);
    assert Power10(2) == 100;
    SplitAt(Digits(x / 100), Padded(x % 100, 2), Digits(y / 100), Padded(y % 100, 2), '.');
  }

  lemma PriceTextHasNoBar(price: Option<Price>)
    ensures '|' !in FormatPriceForId(price)
  {
    hide CentsText, Cents;
    if price.Some? {
      CentsTextShape(Cents(price.value));
    }
  }

  lemma PriceTextReadsBack(a: Option<Price>, b: Option<Price>)
    ensures FormatPriceForId(a) == FormatPriceForId(b) <==> PriceCents(a) == PriceCents(b)
  {
    hide CentsText, Cents;
    if a.Some? {
      CentsTextShape(Cents(a.value));
    }
    if b.Some? {
      CentsTextShape(Cents(b.value));
    }
    if a.Some? && b.Some? && FormatPriceForId(a) == FormatPriceForId(b) {
      CentsTextReadsBack(Cents(a.value), Cents(b.value));
    }
  }

  /** A price is written as whole dollars, a point and two digits of cents. */
  lemma PriceTextShows(price: Price) returns (dollars: string, cents: string)
    ensures FormatPriceForId(Some(price)) == dollars + "." + cents && |cents| == 2
    ensures (forall c :: c in dollars ==> IsDigit(c)) && (forall c :: c in cents ==> IsDigit(c))
    ensures Value(dollars) * 100 + Value(cents) == Cents(price)
  {
    hide Digits, Padded, Value, Cents;
    var n := Cents(price);
    DigitsReadBack(n / 100);
    PaddedReadsBack(n % 100, 2);
    assert Power10(2) == 100;
    dollars, cents := Digits(n / 100), Padded(n % 100, 2);
  }

  /** The nine fields in their documented order, and the words they use. */
  lemma TextIsTheFields(p: OrderParams)
    ensures RawText(p) ==
            p.symbol + "|" + SideText(p.side) + "|" + Digits(p.qty) + "|" + FormatPriceForId(p.limitPrice) + "|" +
            FormatPriceForId(p.stopPrice) + "|" + TypeText(p.orderType) + "|" + TifText(p.timeInForce) + "|" +
            p.strategyId + "|" + IsoFormat(p.orderDate)
    ensures SideText(Buy) == "buy" && SideText(Sell) == "sell" && FormatPriceForId(None) == "None"
    ensures TypeText(Market) == "market" && TypeText(Limit) == "limit" && TypeText(Stop) == "stop"
    ensures TypeText(StopLimit) == "stop_limit"
    ensures TifText(Day) == "day" && TifText(Gtc) == "gtc" && TifText(Ioc) == "ioc" && TifText(Fok) == "fok"
  {
    hide Digits, FormatPriceForId, SideText, TypeText, TifText, IsoFormat;
    var a, b, c, d := SideText(p.side), Digits(p.qty), FormatPriceForId(p.limitPrice), FormatPriceForId(p.stopPrice);
    var e, f, g := TypeText(p.orderType), TifText(p.timeInForce), p.strategyId;
    var end := IsoFormat(p.orderDate);
    FiveFields(e, f, g, end, "");
    FiveFields(b, c, d, Join(e, Join(f, Join(g, end))), "");
    FiveFields(b, c, d, e, "|" + f + "|" + g + "|" + end);
    Words();
  }

  lemma FiveFields(a: string, b: string, c: string, d: string, rest: string)
    ensures Join(a, Join(b, Join(c, d + rest))) == a + "|" + b + "|" + c + "|" + d + rest
  {
  }

  lemma Words()
    ensures SideText(Buy) == "buy" && SideText(Sell) == "sell" && FormatPriceForId(None) == "None"
    ensures TypeText(Market) == "market" && TypeText(Limit) == "limit" && TypeText(Stop) == "stop"
    ensures TypeText(StopLimit) == "stop_limit"
    ensures TifText(Day) == "day" && TifText(Gtc) == "gtc" && TifText(Ioc) == "ioc" && TifText(Fok) == "fok"
  {
  }

  lemma DateParts(d: Date)
    ensures |IsoFormat(d)| == 10 && IsoFormat(d)[4] == '-' && IsoFormat(d)[7] == '-'
    ensures Value(IsoFormat(d)[..4]) == d.year && Value(IsoFormat(d)[5..7]) == d.month &&
            Value(IsoFormat(d)[8..]) == d.day
  {
    hide Padded, Value;
    PaddedReadsBack(d.year, 4);
    PaddedReadsBack(d.month, 2);
    PaddedReadsBack(d.day, 2);
    assert Power10(2) == 100 && Power10(4) == 100 * Power10(2);
    var y, m, day := Padded(d.year, 4), Padded(d.month, 2), Padded(d.day, 2);
    var text := y + "-" + m + "-" + day;
    assert text[..4] == y && text[5..7] == m && text[8..] == day;
  }

  lemma DateReadsBack(a: Date, b: Date)
    requires IsoFormat(a) == IsoFormat(b)
    ensures a == b
  {
    hide IsoFormat, Value;
    DateParts(a);
    DateParts(b);
  }

  lemma StrategyAndDate(a: string, d: Date, b: string, e: Date)
    requires Join(a, IsoFormat(d)) == Join(b, IsoFormat(e))
    ensures a == b && d == e
  {
    hide IsoFormat;
    DateParts(d);
    DateParts(e);
    var x, y := Join(a, IsoFormat(d)), Join(b, IsoFormat(e));
    assert |a| == |b|;
    assert a == x[..|a|] && b == y[..|a|];
    assert IsoFormat(d) == x[|a| + 1..] && IsoFormat(e) == y[|a| + 1..];
    DateReadsBack(d, e);
  }

  /** Two orders the broker should tell apart only by these fields; prices to the cent. */
  predicate SameOrder(p: OrderParams, q: OrderParams) {
    && p.symbol == q.symbol && p.side == q.side && p.qty == q.qty
    && PriceCents(p.limitPrice) == PriceCents(q.limitPrice)
    && PriceCents(p.stopPrice) == PriceCents(q.stopPrice)
    && p.orderType == q.orderType && p.timeInForce == q.timeInForce
    && p.strategyId == q.strategyId && p.orderDate == q.orderDate
  }

  function AfterSide(p: OrderParams): string {
    Join(Digits(p.qty), AfterQty(p))
  }

  function AfterQty(p: OrderParams): string {
    Join(FormatPriceForId(p.limitPrice), Join(FormatPriceForId(p.stopPrice), AfterPrices(p)))
  }

  function AfterPrices(p: OrderParams): string {
    Join(TypeText(p.orderType), Join(TifText(p.timeInForce), Join(p.strategyId, IsoFormat(p.orderDate))))
  }

  lemma TailReadsBack(p: OrderParams, q: OrderParams)
    requires AfterPrices(p) == AfterPrices(q)
    ensures p.orderType == q.orderType && p.timeInForce == q.timeInForce
    ensures p.strategyId == q.strategyId && p.orderDate == q.orderDate
  {
    hide IsoFormat, Join;
    SplitField(TypeText(p.orderType), Join(TifText(p.timeInForce), Join(p.strategyId, IsoFormat(p.orderDate))),
               TypeText(q.orderType), Join(TifText(q.timeInForce), Join(q.strategyId, IsoFormat(q.orderDate))));
    SplitField(TifText(p.timeInForce), Join(p.strategyId, IsoFormat(p.orderDate)),
               TifText(q.timeInForce), Join(q.strategyId, IsoFormat(q.orderDate)));
    StrategyAndDate(p.strategyId, p.orderDate, q.strategyId, q.orderDate);
  }

  lemma MiddleReadsBack(p: OrderParams, q: OrderParams)
    requires AfterSide(p) == AfterSide(q)
    ensures p.qty == q.qty && AfterPrices(p) == AfterPrices(q)
    ensures PriceCents(p.limitPrice) == PriceCents(q.limitPrice) && PriceCents(p.stopPrice) == PriceCents(q.stopPrice)
  {
    hide Join, FormatPriceForId, Digits, AfterPrices, AfterQty;
    DigitsReadBack(p.qty);
    DigitsReadBack(q.qty);
    SplitField(Digits(p.qty), AfterQty(p), Digits(q.qty), AfterQty(q));
    QtyTail(p, q);
  }

  lemma QtyTail(p: OrderParams, q: OrderParams)
    requires AfterQty(p) == AfterQty(q)
    ensures AfterPrices(p) == AfterPrices(q)
    ensures PriceCents(p.limitPrice) == PriceCents(q.limitPrice) && PriceCents(p.stopPrice) == PriceCents(q.stopPrice)
  {
    hide Join, FormatPriceForId, AfterPrices;
    PriceTextHasNoBar(p.limitPrice);
    PriceTextHasNoBar(q.limitPrice);
    PriceTextHasNoBar(p.stopPrice);
    PriceTextHasNoBar(q.stopPrice);
    SplitField(FormatPriceForId(p.limitPrice), Join(FormatPriceForId(p.stopPrice), AfterPrices(p)),
               FormatPriceForId(q.limitPrice), Join(FormatPriceForId(q.stopPrice), AfterPrices(q)));
    SplitField(FormatPriceForId(p.stopPrice), AfterPrices(p), FormatPriceForId(q.stopPrice), AfterPrices(q));
    PriceTextReadsBack(p.limitPrice, q.limitPrice);
    PriceTextReadsBack(p.stopPrice, q.stopPrice);
  }

  // ---------------------------------------------------------------------------
  // When the text identifies the order
  // ---------------------------------------------------------------------------

  /** The six fields between symbol and strategy. */
  function HeadText(p: OrderParams): string {
    Join(SideText(p.side), Join(Digits(p.qty), Join(FormatPriceForId(p.limitPrice), Join(FormatPriceForId(p.stopPrice),
      Join(TypeText(p.orderType), TifText(p.timeInForce))))))
  }

  function AfterSymbol(p: OrderParams): string {
    Join(SideText(p.side), AfterSide(p))
  }

  /** The longer symbol is the shorter one and the text of some order's next six fields, alone or
      followed by a separator. */
  ghost predicate Swallows(shorter: string, longer: string) {
    exists m: OrderParams ::
      longer == Join(shorter, HeadText(m)) || exists more :: longer == Join(shorter, Join(HeadText(m), more))
  }

  lemma JoinAssoc(a: string, b: string, c: string)
    ensures Join(Join(a, b), c) == Join(a, Join(b, c))
  {
  }

  lemma TextParts(p: OrderParams)
    ensures RawText(p) == Join(p.symbol, AfterSymbol(p))
    ensures AfterSymbol(p) == Join(HeadText(p), Join(p.strategyId, IsoFormat(p.orderDate)))
  {
    hide Join, Digits, FormatPriceForId, IsoFormat;
    var end := Join(p.strategyId, IsoFormat(p.orderDate));
    var f2, f3, f4 := Digits(p.qty), FormatPriceForId(p.limitPrice), FormatPriceForId(p.stopPrice);
    var f5, f6 := TypeText(p.orderType), TifText(p.timeInForce);
    JoinAssoc(f5, f6, end);
    JoinAssoc(f4, Join(f5, f6), end);
    JoinAssoc(f3, Join(f4, Join(f5, f6)), end);
    JoinAssoc(f2, Join(f3, Join(f4, Join(f5, f6))), end);
    JoinAssoc(SideText(p.side), Join(f2, Join(f3, Join(f4, Join(f5, f6)))), end);
  }

  /** A field without separator at the front of two texts is all of `u`, or `u` goes on after it. */
  lemma Peel(field: string, rest: string, u: string, t: string) returns (more: Option<string>)
    requires Join(field, rest) == Join(u, t) && '|' !in field
    ensures more.None? ==> u == field && rest == t
    ensures more.Some? ==> u == Join(field, more.value) && rest == Join(more.value, t)
  {
    var x, y := Join(field, rest), Join(u, t);
    assert x[|field|] == '|' && y[|u|] == '|';
    assert forall i :: 0 <= i < |field| ==> x[i] == field[i] && field[i] in field;
    assert forall i :: 0 <= i < |u| ==> y[i] == u[i];
    assert field == x[..|field|] && rest == x[|field| + 1..] && t == y[|u| + 1..] && u == y[..|u|];
    if |u| == |field| {
      more := None;
    } else {
      more := Some(u[|field| + 1..]);
    }
  }

  /** No field after the side reads like a side. */
  lemma SideIsNoOtherField(p: OrderParams, q: OrderParams)
    ensures '|' !in SideText(p.side) && '|' !in Digits(p.qty) && '|' !in TypeText(p.orderType)
    ensures '|' !in TifText(p.timeInForce)
    ensures SideText(q.side) != Digits(p.qty) && SideText(q.side) != FormatPriceForId(p.limitPrice)
    ensures SideText(q.side) != FormatPriceForId(p.stopPrice) && SideText(q.side) != TypeText(p.orderType)
    ensures SideText(q.side) != TifText(p.timeInForce)
  {
    hide Digits, Value, FormatPriceForId;
    DigitsReadBack(p.qty);
    assert SideText(q.side)[0] in SideText(q.side) && !IsDigit(SideText(q.side)[0]);
    PriceIsNoSide(p.limitPrice, q.side);
    PriceIsNoSide(p.stopPrice, q.side);
  }

  lemma PriceIsNoSide(price: Option<Price>, side: Side)
    ensures FormatPriceForId(price) != SideText(side)
  {
    hide Digits, Padded, Cents, Value;
    if price.Some? {
      var cents := Cents(price.value);
      DigitsReadBack(cents / 100);
      assert CentsText(cents)[0] == Digits(cents / 100)[0] && Digits(cents / 100)[0] in Digits(cents / 100);
      assert !IsDigit(SideText(side)[0]);
    }
  }

  /** One step of the walk over the fields: the symbol cannot end before a field that is no side. */
  lemma PeelOn(field: string, next: string, rest: string, u: string, q: OrderParams) returns (more: string)
    requires Join(field, Join(next, rest)) == Join(u, AfterSymbol(q))
    requires '|' !in field && '|' !in next && next != SideText(q.side)
    ensures u == Join(field, more) && Join(next, rest) == Join(more, AfterSymbol(q))
  {
    hide Join, AfterSide;
    var peeled := Peel(field, Join(next, rest), u, AfterSymbol(q));
    if peeled.None? {
      SideIsNoOtherField(q, q);
      SplitField(next, rest, SideText(q.side), AfterSide(q));
    }
    more := peeled.value;
  }

  /** What stands between two symbols, when the longer one goes on after the shorter. */
  lemma SwallowedFields(p: OrderParams, q: OrderParams, u: string)
    requires AfterSymbol(p) == Join(u, AfterSymbol(q))
    ensures u == HeadText(p) || exists more :: u == Join(HeadText(p), more)
  {
    hide Join, Digits, FormatPriceForId, SideText, TypeText, TifText, IsoFormat, AfterSymbol;
    SideIsNoOtherField(p, q);
    PriceTextHasNoBar(p.limitPrice);
    PriceTextHasNoBar(p.stopPrice);
    var f1, f2 := SideText(p.side), Digits(p.qty);
    var f3, f4 := FormatPriceForId(p.limitPrice), FormatPriceForId(p.stopPrice);
    var f5, f6, end := TypeText(p.orderType), TifText(p.timeInForce), Join(p.strategyId, IsoFormat(p.orderDate));
    AfterSymbolFields(p);
    var u1 := PeelOn(f1, f2, Join(f3, Join(f4, Join(f5, Join(f6, end)))), u, q);
    var u2 := PeelOn(f2, f3, Join(f4, Join(f5, Join(f6, end))), u1, q);
    var u3 := PeelOn(f3, f4, Join(f5, Join(f6, end)), u2, q);
    var u4 := PeelOn(f4, f5, Join(f6, end), u3, q);
    var u5 := PeelOn(f5, f6, end, u4, q);
    var last := Peel(f6, end, u5, AfterSymbol(q));
    if last.Some? {
      JoinAssoc(f5, f6, last.value);
      JoinAssoc(f4, Join(f5, f6), last.value);
      JoinAssoc(f3, Join(f4, Join(f5, f6)), last.value);
      JoinAssoc(f2, Join(f3, Join(f4, Join(f5, f6))), last.value);
      JoinAssoc(f1, Join(f2, Join(f3, Join(f4, Join(f5, f6)))), last.value);
      assert u == Join(HeadText(p), last.value);
    }
  }

  lemma AfterSymbolFields(p: OrderParams)
    ensures AfterSymbol(p) ==
      Join(SideText(p.side), Join(Digits(p.qty), Join(FormatPriceForId(p.limitPrice),
        Join(FormatPriceForId(p.stopPrice), Join(TypeText(p.orderType), Join(TifText(p.timeInForce),
          Join(p.strategyId, IsoFormat(p.orderDate))))))))
  {
    hide Join, Digits, FormatPriceForId, SideText, TypeText, TifText, IsoFormat;
  }

  /** Equal texts with the shorter symbol first: the symbols are the same, or one swallows. */
  lemma EqualTexts(p: OrderParams, q: OrderParams)
    requires RawText(p) == RawText(q) && |p.symbol| <= |q.symbol|
    ensures p.symbol == q.symbol || Swallows(p.symbol, q.symbol)
    ensures p.symbol == q.symbol ==> AfterSymbol(p) == AfterSymbol(q)
  {
    hide RawText, AfterSymbol, HeadText, IsoFormat;
    TextParts(p);
    TextParts(q);
    var a, b, x := p.symbol, q.symbol, RawText(p);
    assert a == x[..|a|] && b == x[..|b|] && AfterSymbol(p) == x[|a| + 1..] && AfterSymbol(q) == x[|b| + 1..];
    if |a| < |b| {
      var u := b[|a| + 1..];
      assert b[|a|] == x[|a|] == '|';
      assert b == Join(a, u);
      assert AfterSymbol(p) == Join(u, AfterSymbol(q));
      SwallowedFields(p, q, u);
    }
  }

  /** Two orders whose symbols do not swallow each other are hashed from the same text exactly when they
      are the same order, prices compared to the cent; symbol and strategy may contain the separator. */
  lemma RawTextIdentifiesTheOrder(p: OrderParams, q: OrderParams)
    requires !Swallows(p.symbol, q.symbol) && !Swallows(q.symbol, p.symbol)
    ensures RawText(p) == RawText(q) <==> SameOrder(p, q)
  {
    hide Swallows;
    if RawText(p) == RawText(q) {
      hide Join, AfterSide, RawText;
      if |p.symbol| <= |q.symbol| { EqualTexts(p, q); } else { EqualTexts(q, p); }
      SideIsNoOtherField(p, q);
      SideIsNoOtherField(q, p);
      SplitField(SideText(p.side), AfterSide(p), SideText(q.side), AfterSide(q));
      MiddleReadsBack(p, q);
      TailReadsBack(p, q);
    } else if SameOrder(p, q) {
      PriceTextReadsBack(p.limitPrice, q.limitPrice);
      PriceTextReadsBack(p.stopPrice, q.stopPrice);
    }
  }

  lemma SwallowingIsLonger(a: string, b: string)
    ensures Swallows(a, b) ==> |b| > |a|
  {
    hide HeadText;
  }

  /** Two symbols have two different orders hashed from one text exactly when one swallows the other. */
  lemma SymbolsCollideIff(a: string, b: string)
    ensures (exists p: OrderParams, q: OrderParams ::
               p.symbol == a && q.symbol == b && RawText(p) == RawText(q) && !SameOrder(p, q))
       <==> Swallows(a, b) || Swallows(b, a)
  {
    hide RawText, Swallows, SameOrder;
    if p: OrderParams, q: OrderParams :|
      p.symbol == a && q.symbol == b && RawText(p) == RawText(q) && !SameOrder(p, q) {
      if !Swallows(a, b) && !Swallows(b, a) {
        RawTextIdentifiesTheOrder(p, q);
      }
    }
    if Swallows(a, b) {
      var p, q := Collision(a, b);
    }
    if Swallows(b, a) {
      var q, p := Collision(b, a);
      assert !SameOrder(p, q) by { SameOrderIsSymmetric(p, q); }
    }
  }

  lemma SameOrderIsSymmetric(p: OrderParams, q: OrderParams)
    ensures SameOrder(p, q) <==> SameOrder(q, p)
  {
  }

  lemma Collision(a: string, b: string) returns (p: OrderParams, q: OrderParams)
    requires Swallows(a, b)
    ensures p.symbol == a && q.symbol == b && RawText(p) == RawText(q) && !SameOrder(p, q)
  {
    hide RawText, HeadText, IsoFormat, AfterSymbol;
    var m: OrderParams :| b == Join(a, HeadText(m)) || exists more :: b == Join(a, Join(HeadText(m), more));
    q := m.(symbol := b, strategyId := "");
    assert HeadText(q) == HeadText(m) by { SameHead(m, b); }
    var head, date := HeadText(m), IsoFormat(m.orderDate);
    TextParts(q);
    if b == Join(a, head) {
      p := m.(symbol := a, strategyId := Join(head, ""));
      JoinAssoc(a, head, AfterSymbol(q));
      JoinAssoc(head, "", date);
    } else {
      var more :| b == Join(a, Join(head, more));
      p := m.(symbol := a, strategyId := Join(more, Join(head, "")));
      JoinAssoc(a, Join(head, more), AfterSymbol(q));
      JoinAssoc(head, more, AfterSymbol(q));
      JoinAssoc(more, Join(head, ""), date);
      JoinAssoc(head, "", date);
    }
    assert HeadText(p) == head by { SameHead(m, a); }
    TextParts(p);
    assert |a| < |b|;
  }

  lemma SameHead(m: OrderParams, symbol: string)
    ensures forall strategyId :: HeadText(m.(symbol := symbol, strategyId := strategyId)) == HeadText(m)
  {
  }

  /** Upper-casing leaves no ASCII lower-case letter. */
  ghost predicate UpperCased(symbol: string) {
    forall c :: c in symbol ==> !('a' <= c <= 'z')
  }

  /** The request validators upper-case symbols, so the texts of requests identify them. */
  lemma RequestTextIdentifiesTheOrder(p: OrderParams, q: OrderParams)
    requires UpperCased(p.symbol) || '|' !in p.symbol
    requires UpperCased(q.symbol) || '|' !in q.symbol
    ensures RawText(p) == RawText(q) <==> SameOrder(p, q)
  {
    hide RawText, SameOrder;
    SwallowingTakesALowerCaseLetter(p.symbol, q.symbol);
    SwallowingTakesALowerCaseLetter(q.symbol, p.symbol);
    RawTextIdentifiesTheOrder(p, q);
  }

  lemma SwallowingTakesALowerCaseLetter(a: string, b: string)
    ensures Swallows(a, b) ==> '|' in b && !UpperCased(b)
  {
    hide HeadText;
    if Swallows(a, b) {
      var m: OrderParams :| b == Join(a, HeadText(m)) || exists more :: b == Join(a, Join(HeadText(m), more));
      HeadBegins(m);
      assert b[|a|] == '|' && b[|a| + 1] == HeadText(m)[0] && b[|a|] in b && b[|a| + 1] in b;
    }
  }

  lemma HeadBegins(m: OrderParams)
    ensures HeadText(m) != "" && 'a' <= HeadText(m)[0] <= 'z'
  {
    hide Digits, FormatPriceForId;
  }

  /** The fields between symbol and strategy of a market day order for one share. */
  const MIDDLE := Join("buy", Join("1", Join("None", Join("None", Join("market", Join("day", ""))))))

  function OneShare(symbol: string, strategyId: string, d: Date): OrderParams {
    OrderParams(symbol, Buy, 1, None, None, Market, Day, strategyId, d)
  }

  lemma JoinAppend(field: string, rest: string, more: string)
    ensures Join(field, rest + more) == Join(field, rest) + more
  {
  }

  lemma OneShareText(symbol: string, strategyId: string, d: Date)
    ensures RawText(OneShare(symbol, strategyId, d)) == Join(symbol, MIDDLE) + Join(strategyId, IsoFormat(d))
  {
    hide IsoFormat, Join;
    var end := Join(strategyId, IsoFormat(d));
    assert Digits(1) == "1" && "" + end == end;
    JoinAppend("day", "", end);
    JoinAppend("market", Join("day", ""), end);
    JoinAppend("None", Join("market", Join("day", "")), end);
    JoinAppend("None", Join("None", Join("market", Join("day", ""))), end);
    JoinAppend("1", Join("None", Join("None", Join("market", Join("day", "")))), end);
    JoinAppend("buy", Join("1", Join("None", Join("None", Join("market", Join("day", ""))))), end);
    JoinAppend(symbol, MIDDLE, end);
  }

  /** A symbol that holds the separator and lower-case letters can swallow the fields after it. The
      request validators upper-case symbols; the raw id function takes any. */
  lemma LowerCaseSymbolsCollide(d: Date)
    ensures RawText(OneShare("A", Join("X", MIDDLE) + "Z", d)) == RawText(OneShare(Join("A", MIDDLE) + "X", "Z", d))
    ensures !SameOrder(OneShare("A", Join("X", MIDDLE) + "Z", d), OneShare(Join("A", MIDDLE) + "X", "Z", d))
  {
    hide IsoFormat, RawText, MIDDLE;
    var m := MIDDLE;
    OneShareText("A", Join("X", m) + "Z", d);
    OneShareText(Join("A", m) + "X", "Z", d);
    var date := IsoFormat(d);
    assert Join("A", m) + Join(Join("X", m) + "Z", date) == "A|" + m + "X|" + m + "Z|" + date;
    assert Join(Join("A", m) + "X", m) + Join("Z", date) == "A|" + m + "X|" + m + "Z|" + date;
    assert |Join("A", m) + "X"| > |"A"|;
  }
}
