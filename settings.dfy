/** The settings the two trading entry points read from the environment, and the small
    policies both derive from them: how many wallets to fund, how much each gets, how long
    to wait and how much to buy. index.ts (single transactions through the legacy
    executor) and bundle.ts (transactions through the bundle coordinator) share these
    rules and differ only in their pacing constants, which `Variant` selects. */
module Settings {

  /** Which entry point runs: index.ts or bundle.ts. */
  datatype Variant = Legacy | Bundled

  /** The funded-wallet count is capped at this many. */
  const MaxWallets: int := 10
  /** Buy and sell attempts are numbered from 0 and stop once the number passes this. */
  const MaxAttemptIndex: nat := 10
  /** Compute-unit limit and price set on the distribution transaction. */
  const ComputeUnitLimit: nat := 100_000
  const ComputeUnitPrice: nat := 250_000

  /** The environment values the trading code reads (SOL amounts as reals, intervals in
      milliseconds). */
  datatype Config = Config(
    walletNum: int,
    distributionAmount: real,
    additionalFee: real,
    buyAmount: real,
    buyLower: real,
    buyUpper: real,
    intervalMin: int,
    intervalMax: int,
    isRandom: bool,
    swapRouting: bool)

  /** The ordering the configuration is expected to respect. */
  predicate WellFormed(c: Config)
  {
    c.buyLower <= c.buyUpper && c.intervalMin <= c.intervalMax
  }

  // ---------------------------------------------------------------------------
  // pacing of each variant, in milliseconds
  // ---------------------------------------------------------------------------

  /** Wait after a successful buy before selling. */
  function PostBuyDelay(v: Variant): real
  {
    if v == Legacy then 1000.0 else 2000.0
  }

  /** Wait after a failed buy attempt. */
  function BuyBackoff(v: Variant): real
  {
    1000.0
  }

  /** Wait after a failed sell attempt. */
  function SellBackoff(v: Variant): real
  {
    if v == Legacy then 1000.0 else 2000.0
  }

  /** Fixed part of the wait between two trading cycles. */
  function CycleBase(v: Variant): real
  {
    if v == Legacy then 1000.0 else 4000.0
  }

  /** Whether the module-level `buyNum`/`sellNum` counters are advanced: index.ts does,
      bundle.ts never touches them. */
  function CounterStep(v: Variant): nat
  {
    if v == Legacy then 1 else 0
  }

  // ---------------------------------------------------------------------------
  // policies
  // ---------------------------------------------------------------------------

  /** `distritbutionNum`: the configured wallet count, capped at ten. */
  function WalletCount(c: Config): (n: int)
    ensures n <= MaxWallets
    ensures c.walletNum <= MaxWallets ==> n == c.walletNum
    ensures c.walletNum > MaxWallets ==> n == MaxWallets
  {
    if c.walletNum > 10 then 10 else c.walletNum
  }

  /** What every generated wallet receives: the configured distribution amount, raised to
      the fee plus the largest buy when it falls short of that. */
  function FundingAmount(c: Config): (a: real)
    ensures a >= c.distributionAmount && a >= c.additionalFee + c.buyUpper
    ensures a == c.distributionAmount || a == c.additionalFee + c.buyUpper
  {
    if c.distributionAmount < c.additionalFee + c.buyUpper then c.additionalFee + c.buyUpper
    else c.distributionAmount
  }

  /** `Math.round`: the nearest integer, halves rounded up. */
  function Round(x: real): (n: int)
    ensures n as real <= x + 0.5 < n as real + 1.0
  {
    (x + 0.5).Floor
  }

  /** `BUY_INTERVAL` for a `Math.random()` draw `r`. */
  function BuyInterval(c: Config, r: real): (k: int)
    requires 0.0 <= r < 1.0
    ensures c.intervalMin <= c.intervalMax ==> c.intervalMin <= k <= c.intervalMax
  {
    DrawBetween(r, c.intervalMin as real, c.intervalMax as real);
    Round(Draw(r, c.intervalMin as real, c.intervalMax as real))
  }

  /** `Math.random() * (hi - lo) + lo` for a draw `r`. */
  function Draw(r: real, lo: real, hi: real): real
  {
    r * (hi - lo) + lo
  }

  /** A draw lies in `[lo, hi)`, or is `lo` when the bounds meet. */
  lemma DrawBetween(r: real, lo: real, hi: real)
    requires 0.0 <= r < 1.0
    ensures lo <= hi ==> lo <= Draw(r, lo, hi) <= hi
    ensures lo < hi ==> Draw(r, lo, hi) < hi
  {
    var d := hi - lo;
    if d >= 0.0 {
      ProductSign(r, d);
      ProductSign(1.0 - r, d);
      assert (1.0 - r) * d == d - r * d;
    }
  }

  lemma ProductSign(a: real, b: real)
    requires a >= 0.0 && b >= 0.0
    ensures a * b >= 0.0
    ensures a > 0.0 && b > 0.0 ==> a * b > 0.0
  {
  }

  /** Whether a SOL amount is a whole number of millionths, the precision `toFixed(6)` keeps. */
  predicate OnMicroGrid(x: real)
  {
    (x * 1_000_000.0).Floor as real == x * 1_000_000.0
  }

  /** The nearest whole number of millionths, halves rounded up. */
  function MicroRound(x: real): (y: real)
    ensures OnMicroGrid(y)
    ensures -0.0000005 < y - x <= 0.0000005
  {
    var n := Round(x * 1_000_000.0);
    assert (n as real / 1_000_000.0) * 1_000_000.0 == n as real;
    n as real / 1_000_000.0
  }

  /** `Number(x.toFixed(6))`: `toFixed` rounds the magnitude, so halves go up for a
      non-negative `x` and down (away from zero) for a negative one. */
  function ToFixed6(x: real): (y: real)
    ensures OnMicroGrid(y)
    ensures -0.0000005 <= y - x <= 0.0000005
    ensures x >= 0.0 ==> -0.0000005 < y - x
    ensures x < 0.0 ==> y - x < 0.0000005
  {
    if x < 0.0 then
      GridNegate(MicroRound(-x));
      -MicroRound(-x)
    else MicroRound(x)
  }

  /** The millionth grid is symmetric around zero. */
  lemma GridNegate(z: real)
    requires OnMicroGrid(z)
    ensures OnMicroGrid(-z)
  {
    var k := (z * 1_000_000.0).Floor;
    assert -z * 1_000_000.0 == (-k) as real;
  }

  /** The amount one trading cycle buys for: a random amount between the bounds, kept to
      six decimals, or the fixed `BUY_AMOUNT`. */
  function BuyAmountFor(c: Config, r: real): (a: real)
    requires 0.0 <= r < 1.0
    ensures !c.isRandom ==> a == c.buyAmount
    ensures c.isRandom ==> -0.0000005 <= a - Draw(r, c.buyLower, c.buyUpper) <= 0.0000005
    ensures c.isRandom && Draw(r, c.buyLower, c.buyUpper) >= 0.0 ==>
      -0.0000005 < a - Draw(r, c.buyLower, c.buyUpper)
  {
    if c.isRandom then ToFixed6(Draw(r, c.buyLower, c.buyUpper)) else c.buyAmount
  }

  /** When both bounds are whole millionths the random amount stays between them. */
  lemma BuyAmountWithinBounds(c: Config, r: real)
    requires 0.0 <= r < 1.0
    requires c.isRandom && c.buyLower <= c.buyUpper
    requires OnMicroGrid(c.buyLower) && OnMicroGrid(c.buyUpper)
    ensures c.buyLower <= BuyAmountFor(c, r) <= c.buyUpper
  {
    DrawBetween(r, c.buyLower, c.buyUpper);
    RoundingKeepsGridBounds(Draw(r, c.buyLower, c.buyUpper), c.buyLower, c.buyUpper);
  }

  /** Rounding to six decimals cannot leave an interval whose ends are whole millionths. */
  lemma RoundingKeepsGridBounds(x: real, lo: real, hi: real)
    requires lo <= x <= hi && OnMicroGrid(lo) && OnMicroGrid(hi)
    ensures lo <= ToFixed6(x) <= hi
  {
    if x < 0.0 {
      GridNegate(lo);
      GridNegate(hi);
      MicroRoundKeepsGridBounds(-x, -hi, -lo);
    } else {
      MicroRoundKeepsGridBounds(x, lo, hi);
    }
  }

  lemma MicroRoundKeepsGridBounds(x: real, lo: real, hi: real)
    requires lo <= x <= hi && OnMicroGrid(lo) && OnMicroGrid(hi)
    ensures lo <= MicroRound(x) <= hi
  {
    var a, b := (lo * 1_000_000.0).Floor, (hi * 1_000_000.0).Floor;
    var scaled := x * 1_000_000.0;
    assert a as real <= scaled <= b as real;
    var n := Round(scaled);
    assert a <= n <= b;
    assert MicroRound(x) == n as real / 1_000_000.0;
  }

  /** The delay before wallet `i` starts trading: `(MAX + MIN) * i / 2`. */
  function Stagger(c: Config, i: nat): real
  {
    (c.intervalMax + c.intervalMin) as real * i as real / 2.0
  }

  /** The first wallet starts at once and each later one waits the mean buy interval more
      than the one before it. */
  lemma StaggerSpacing(c: Config, i: nat)
    ensures Stagger(c, 0) == 0.0
    ensures Stagger(c, i + 1) - Stagger(c, i) == (c.intervalMax + c.intervalMin) as real / 2.0
  {
  }

  /** The wait between two trading cycles, for a cycle whose buy interval is `interval`:
      it scales with the capped wallet count, not with the number of wallets trading. */
  function CyclePause(v: Variant, c: Config, interval: int): real
  {
    CycleBase(v) + (WalletCount(c) * interval) as real
  }

  /** With a well-formed configuration and a non-negative wallet count the wait between
      cycles lies between the fixed part plus the count times the smallest interval and
      the same with the largest. */
  lemma CyclePauseBounds(v: Variant, c: Config, r: real)
    requires 0.0 <= r < 1.0
    requires WellFormed(c) && WalletCount(c) >= 0
    ensures CycleBase(v) + (WalletCount(c) * c.intervalMin) as real
            <= CyclePause(v, c, BuyInterval(c, r))
            <= CycleBase(v) + (WalletCount(c) * c.intervalMax) as real
  {
    var n, k := WalletCount(c), BuyInterval(c, r);
    assert n * c.intervalMin <= n * k <= n * c.intervalMax by {
      MulMonotone(n, c.intervalMin, k);
      MulMonotone(n, k, c.intervalMax);
    }
  }

  lemma MulMonotone(n: int, a: int, b: int)
    requires n >= 0 && a <= b
    ensures n * a <= n * b
  {
  }
}
