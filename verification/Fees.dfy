/** market/fees.py: the quadratic trading fee and its three rounding models, in micro-dollars. */
module Fees {
  import opened Units

  const CENT_MICRO: int := 10_000
  const MICRO_PER_DOLLAR: real := 1_000_000.0
  const SCALE: real := 10_000.0

  datatype Rounding = EXACT_6DP | CENT_PER_FILL | CENT_PER_ORDER

  datatype FeeSchedule = FeeSchedule(makerFees: bool, multiplier: real, rounding: Rounding, known: bool) {
    function Coefficient(maker: bool): real {
      if maker then (if makerFees then 0.0175 * multiplier else 0.0) else 0.07 * multiplier
    }

    /** The unrounded fee of one centi-contract. */
    function Rate(price: Price, maker: bool): real {
      Coefficient(maker) * price as real * (PRICE_SCALE - price) as real * MICRO_PER_DOLLAR
      / (100.0 * SCALE * SCALE)
    }

    function ExactFee(price: Price, qty: Qty, maker: bool): real {
      Rate(price, maker) * qty as real
    }

    function FillFee(price: Price, qty: Qty, maker: bool): int {
      var exact := ExactFee(price, qty, maker);
      if rounding.CENT_PER_FILL? then ToCent(Ceil(exact)) else Ceil(exact)
    }

    function ExactTotal(fills: seq<Fill>, maker: bool): real {
      if fills == [] then 0.0
      else ExactTotal(fills[..|fills| - 1], maker)
           + ExactFee(fills[|fills| - 1].price, fills[|fills| - 1].qty, maker)
    }

    function RoundedTotal(fills: seq<Fill>, maker: bool): int {
      if fills == [] then 0
      else RoundedTotal(fills[..|fills| - 1], maker)
           + FillFee(fills[|fills| - 1].price, fills[|fills| - 1].qty, maker)
    }

    function OrderFee(fills: seq<Fill>, maker: bool): int {
      if rounding.CENT_PER_ORDER? then ToCent(Ceil(ExactTotal(fills, maker)))
      else RoundedTotal(fills, maker)
    }

    /** How far one rounding step can lift a fee. */
    function Unit(): int {
      if rounding.EXACT_6DP? then 1 else CENT_MICRO
    }

    /** How many rounding steps an order takes. */
    function Steps(fills: seq<Fill>): int {
      if rounding.CENT_PER_ORDER? then 1 else |fills|
    }

    predicate Valid() {
      multiplier >= 0.0
    }
  }

  function Ceil(x: real): int {
    -((-x).Floor)
  }

  function CeilDiv(n: int, d: int): int
    requires d > 0
  {
    -((-n) / d)
  }

  function ToCent(micro: int): int {
    CeilDiv(micro, CENT_MICRO) * CENT_MICRO
  }

  ghost predicate Sane(fills: seq<Fill>) {
    forall i | 0 <= i < |fills| :: 0 <= fills[i].price <= PRICE_SCALE && fills[i].qty >= 0
  }

  lemma CeilBounds(x: real)
    ensures x <= Ceil(x) as real < x + 1.0
  {
  }

  lemma ToCentBounds(n: int)
    ensures n <= ToCent(n) <= n + CENT_MICRO - 1
  {
  }

  lemma ProductNonNegative(a: real, b: real)
    requires a >= 0.0 && b >= 0.0
    ensures a * b >= 0.0
  {
  }

  lemma RateNonNegative(f: FeeSchedule, price: Price, maker: bool)
    requires f.Valid() && 0 <= price <= PRICE_SCALE
    ensures f.Rate(price, maker) >= 0.0
  {
    var c := f.Coefficient(maker);
    ProductNonNegative(c, price as real);
    ProductNonNegative(c * price as real, (PRICE_SCALE - price) as real);
  }

  lemma FillFeeBounds(f: FeeSchedule, price: Price, qty: Qty, maker: bool)
    requires f.Valid() && 0 <= price <= PRICE_SCALE && qty >= 0
    ensures 0.0 <= f.ExactFee(price, qty, maker) <= f.FillFee(price, qty, maker) as real
    ensures (f.FillFee(price, qty, maker) as real) < f.ExactFee(price, qty, maker) + f.Unit() as real
  {
    hide FeeSchedule.Rate;
    RateNonNegative(f, price, maker);
    ProductNonNegative(f.Rate(price, maker), qty as real);
    var exact := f.ExactFee(price, qty, maker);
    CeilBounds(exact);
    ToCentBounds(Ceil(exact));
  }

  /** Rounding only ever adds: the charged fee is at least the exact one, and exceeds it by less than
      one unit a rounding step (a fill, or the order). */
  lemma {:induction false} OrderFeeBounds(f: FeeSchedule, fills: seq<Fill>, maker: bool)
    requires f.Valid() && Sane(fills)
    ensures 0.0 <= f.ExactTotal(fills, maker) <= f.OrderFee(fills, maker) as real
    ensures fills != [] ==>
              (f.OrderFee(fills, maker) as real)
              < f.ExactTotal(fills, maker) + (f.Steps(fills) * f.Unit()) as real
  {
    RoundedBounds(f, fills, maker);
    if f.rounding.CENT_PER_ORDER? {
      CeilBounds(f.ExactTotal(fills, maker));
      ToCentBounds(Ceil(f.ExactTotal(fills, maker)));
    }
  }

  lemma {:induction false} RoundedBounds(f: FeeSchedule, fills: seq<Fill>, maker: bool)
    requires f.Valid() && Sane(fills)
    ensures 0.0 <= f.ExactTotal(fills, maker) <= f.RoundedTotal(fills, maker) as real
    ensures f.RoundedTotal(fills, maker) >= 0
    ensures fills != [] ==>
              (f.RoundedTotal(fills, maker) as real)
              < f.ExactTotal(fills, maker) + (|fills| * f.Unit()) as real
  {
    if fills != [] {
      var n := |fills| - 1;
      hide FeeSchedule.ExactFee, FeeSchedule.FillFee;
      RoundedBounds(f, fills[..n], maker);
      FillFeeBounds(f, fills[n].price, fills[n].qty, maker);
      assert |fills| * f.Unit() == n * f.Unit() + f.Unit();
    }
  }

  lemma {:induction false} FreeSchedule(f: FeeSchedule, fills: seq<Fill>, maker: bool)
    requires f.multiplier == 0.0
    ensures f.ExactTotal(fills, maker) == 0.0 && f.OrderFee(fills, maker) == 0
    ensures f.RoundedTotal(fills, maker) == 0
  {
    if fills != [] {
      var last := fills[|fills| - 1];
      FreeSchedule(f, fills[..|fills| - 1], maker);
      assert f.Coefficient(maker) == 0.0;
      assert f.Rate(last.price, maker) == 0.0;
    }
  }

  /** The smallest charge a schedule makes. */
  function Grain(f: FeeSchedule): int {
    if f.rounding.EXACT_6DP? then 1 else CENT_MICRO
  }

  /** n is x rounded up to the next multiple of the grain. */
  ghost predicate RoundedUp(n: int, x: real, grain: int)
    requires grain > 0
  {
    n % grain == 0 && x <= n as real < x + grain as real
  }

  lemma ToCentRounds(x: real)
    ensures RoundedUp(Ceil(x), x, 1) && RoundedUp(ToCent(Ceil(x)), x, CENT_MICRO)
  {
    CeilBounds(x);
    ToCentBounds(Ceil(x));
  }

  /** The documented fee: coefficient x multiplier x contracts x P x (1 - P) dollars, here in micro-dollars
      of a price in ticks and a quantity in hundredths. */
  lemma ExactFeeMeans(f: FeeSchedule, price: Price, qty: Qty, maker: bool)
    ensures var p, contracts := price as real / SCALE, qty as real / 100.0;
            var coefficient := if !maker then 0.07 else if f.makerFees then 0.0175 else 0.0;
            f.ExactFee(price, qty, maker)
            == coefficient * f.multiplier * contracts * p * (1.0 - p) * MICRO_PER_DOLLAR
  {
    var c := f.Coefficient(maker);
    var x, q := price as real, qty as real;
    assert (PRICE_SCALE - price) as real == SCALE - x;
    Regroup(c, x, q);
  }

  lemma Regroup(c: real, x: real, q: real)
    ensures c * x * (10_000.0 - x) * 1_000_000.0 / (100.0 * 10_000.0 * 10_000.0) * q
         == c * (q / 100.0) * (x / 10_000.0) * (1.0 - x / 10_000.0) * 1_000_000.0
  {
    var y := x * (10_000.0 - x);
    assert c * x * (10_000.0 - x) == c * y;
    assert (x / 10_000.0) * (1.0 - x / 10_000.0) == y / 100_000_000.0;
    assert c * (q / 100.0) * (x / 10_000.0) * (1.0 - x / 10_000.0)
        == c * (q / 100.0) * ((x / 10_000.0) * (1.0 - x / 10_000.0));
    assert c * (q / 100.0) * (y / 100_000_000.0) == (c * y) * q / 10_000_000_000.0;
  }

  /** What an order is charged: each fill's exact fee rounded up to the grain, or under per-order rounding
      the order's exact total rounded up to a cent. */
  lemma {:induction false} OrderFeeMeans(f: FeeSchedule, fills: seq<Fill>, maker: bool)
    ensures f.rounding.CENT_PER_ORDER? ==>
              RoundedUp(f.OrderFee(fills, maker), f.ExactTotal(fills, maker), CENT_MICRO)
    ensures !f.rounding.CENT_PER_ORDER? ==>
              exists charges: seq<int> ::
                && |charges| == |fills| && f.OrderFee(fills, maker) == SumInts(charges)
                && forall i | 0 <= i < |fills| ::
                     RoundedUp(charges[i], f.ExactFee(fills[i].price, fills[i].qty, maker), Grain(f))
  {
    ToCentRounds(f.ExactTotal(fills, maker));
    if !f.rounding.CENT_PER_ORDER? {
      hide FeeSchedule.ExactFee;
      var charges := seq(|fills|, i requires 0 <= i < |fills| => f.FillFee(fills[i].price, fills[i].qty, maker));
      ChargesAddUp(f, fills, maker, charges);
      forall i | 0 <= i < |fills|
        ensures RoundedUp(charges[i], f.ExactFee(fills[i].price, fills[i].qty, maker), Grain(f))
      {
        ToCentRounds(f.ExactFee(fills[i].price, fills[i].qty, maker));
      }
    }
  }

  lemma {:induction false} ChargesAddUp(f: FeeSchedule, fills: seq<Fill>, maker: bool, charges: seq<int>)
    requires |charges| == |fills|
    requires forall i | 0 <= i < |fills| :: charges[i] == f.FillFee(fills[i].price, fills[i].qty, maker)
    ensures f.RoundedTotal(fills, maker) == SumInts(charges)
  {
    if fills != [] {
      hide FeeSchedule.FillFee;
      ChargesAddUp(f, fills[..|fills| - 1], maker, charges[..|fills| - 1]);
    }
  }

  // ---------------------------------------------------------------- schedules by series

  function SeriesOf(ticker: Ticker): string {
    if ticker == "" || ticker[0] == '-' then "" else [ticker[0]] + SeriesOf(ticker[1..])
  }

  datatype FeeBook = FeeBook(bySeries: map<string, FeeSchedule>, default: FeeSchedule) {
    function For(ticker: Ticker): FeeSchedule {
      if SeriesOf(ticker) in bySeries then bySeries[SeriesOf(ticker)] else default
    }

    predicate Valid() {
      default.Valid() && forall s | s in bySeries :: bySeries[s].Valid()
    }
  }

  lemma {:induction false} SeriesPart(series: string, rest: string)
    requires '-' !in series && (rest == "" || rest[0] == '-')
    ensures SeriesOf(series + rest) == series
  {
    if series != "" {
      assert series[0] in series && (series + rest)[1..] == series[1..] + rest;
      SeriesPart(series[1..], rest);
    } else {
      assert series + rest == rest;
    }
  }

  /** A ticker is its series, alone or followed by a dash and more; the series' own schedule is used if
      there is one, the default otherwise. */
  lemma ScheduleOfSeries(book: FeeBook, series: string, rest: string)
    requires '-' !in series && (rest == "" || rest[0] == '-')
    ensures series in book.bySeries ==> book.For(series + rest) == book.bySeries[series]
    ensures series !in book.bySeries ==> book.For(series + rest) == book.default
  {
    SeriesPart(series, rest);
  }
}
