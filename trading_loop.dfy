/** The per-wallet trading loop of index.ts and bundle.ts: every cycle draws a buy interval
    and a buy amount, stops the wallet when its balance cannot pay the fee, then retries
    the buy and afterwards the sell up to eleven times each, and waits before the next
    cycle. The loop is a state machine Idle -> Buying -> Selling -> Idle that may end in
    Terminated; `Run` is its specification and `RunWallet` the loop as written.

    The network and `Math.random()` are a `Market` of answers indexed by cycle (and by
    attempt within the cycle); every wait is recorded in the trace, not slept. The source
    loop never ends on its own, so a run is observed for a number of cycles. */
module TradingLoop {
  import opened Common
  import opened Settings
  import opened Swap
  import Jito
  import JitoTrade

  /** Why a wallet's loop returned. */
  datatype Exit = LowBalance | BalanceQueryFailed | BuyExhausted | SellExhausted

  /** Where the loop of one wallet is: between cycles, retrying the buy (attempts made so
      far, the amount and interval drawn for this cycle), retrying the sell, or returned. */
  datatype Phase =
    | Idle
    | Buying(tries: nat, amount: real, interval: int)
    | Selling(tries: nat, interval: int)
    | Terminated(exit: Exit)

  /** What the loop did, in order: a wait, or one call of `buy`/`sell` (cycle, attempt
      number within the cycle, and the call's outcome). */
  datatype Event =
    | Slept(ms: real)
    | BuyTried(cycle: nat, attempt: nat, outcome: SwapOutcome)
    | SellTried(cycle: nat, attempt: nat, outcome: SwapOutcome)

  /** The loop state: phase, cycle number, the `buyNum`/`sellNum` counters as this wallet
      advances them, and the trace of events. */
  datatype LoopState = LoopState(phase: Phase, cycle: nat, buyNum: nat, sellNum: nat, trace: seq<Event>)

  /** Which entry point trades, its configuration, the main wallet and the trading wallet. */
  datatype Trader = Trader(v: Variant, c: Config, mainKp: Keypair, wallet: Keypair)

  /** The answers the loop meets: the two `Math.random()` draws of each cycle, the balance
      (in SOL) read at the top of each cycle (None when `getBalance` throws, which rejects
      the wallet's promise), the answers met by each `buy` and `sell` attempt, and what the
      bundle coordinator meets when bundle.ts trades. */
  datatype Market = Market(
    intervalDraw: nat -> real,
    amountDraw: nat -> real,
    balance: nat -> Option<real>,
    buyEnv: nat -> nat -> BuyEnv,
    sellEnv: nat -> nat -> SellEnv,
    bundleAttempt: nat -> nat -> Jito.Attempt,
    bundleHorizon: nat)

  ghost predicate MarketOk(m: Market)
  {
    && (forall n :: 0.0 <= m.intervalDraw(n) < 1.0)
    && (forall n :: 0.0 <= m.amountDraw(n) < 1.0)
    && (forall g :: Jito.RandomInRange(m.bundleAttempt(g)))
  }

  /** The trading wallet's `buy`, as the entry point defines it. */
  function BuyCall(t: Trader, m: Market, amount: real, env: BuyEnv): SwapOutcome
    requires MarketOk(m)
  {
    match t.v
    case Legacy => Swap.Buy(t.wallet, amount, env)
    case Bundled => JitoTrade.Buy(t.mainKp, t.wallet, amount, env, m.bundleAttempt, m.bundleHorizon)
  }

  /** The trading wallet's `sell`, as the entry point defines it. */
  function SellCall(t: Trader, m: Market, env: SellEnv): SwapOutcome
    requires MarketOk(m)
  {
    match t.v
    case Legacy => Swap.Sell(TradingSell, t.wallet, env)
    case Bundled => JitoTrade.Sell(t.wallet, env, m.bundleAttempt, m.bundleHorizon)
  }

  /** Attempts allowed per cycle for the buy, and again for the sell. */
  const MaxAttempts: nat := MaxAttemptIndex + 1

  /** One move of the state machine. */
  function Step(t: Trader, m: Market, st: LoopState): LoopState
    requires MarketOk(m)
  {
    match st.phase
    case Terminated(_) => st
    case Idle => CycleStart(t, m, st)
    case Buying(i, amount, interval) => BuyAttempt(t, m, st, i, amount, interval)
    case Selling(j, interval) => SellAttempt(t, m, st, j, interval)
  }

  /** The top of a cycle: draw the interval, read the balance, draw the amount. */
  function CycleStart(t: Trader, m: Market, st: LoopState): LoopState
    requires MarketOk(m)
  {
    var interval := BuyInterval(t.c, m.intervalDraw(st.cycle));
    if m.balance(st.cycle).None? then st.(phase := Terminated(BalanceQueryFailed))
    else if m.balance(st.cycle).value < t.c.additionalFee then st.(phase := Terminated(LowBalance))
    else st.(phase := Buying(0, BuyAmountFor(t.c, m.amountDraw(st.cycle)), interval))
  }

  /** Buy attempt `i` of the current cycle. */
  function BuyAttempt(t: Trader, m: Market, st: LoopState, i: nat, amount: real, interval: int): LoopState
    requires MarketOk(m)
  {
    if i > MaxAttemptIndex then st.(phase := Terminated(BuyExhausted))
    else
      var o := BuyCall(t, m, amount, m.buyEnv(st.cycle)(i));
      if Truthy(o.ret) then
        st.(phase := Selling(0, interval), buyNum := st.buyNum + CounterStep(t.v),
            trace := st.trace + [BuyTried(st.cycle, i, o), Slept(PostBuyDelay(t.v))])
      else
        st.(phase := Buying(i + 1, amount, interval),
            trace := st.trace + [BuyTried(st.cycle, i, o), Slept(BuyBackoff(t.v))])
  }

  /** Sell attempt `j` of the current cycle; a success closes the cycle with its pause. */
  function SellAttempt(t: Trader, m: Market, st: LoopState, j: nat, interval: int): LoopState
    requires MarketOk(m)
  {
    if j > MaxAttemptIndex then st.(phase := Terminated(SellExhausted))
    else
      var o := SellCall(t, m, m.sellEnv(st.cycle)(j));
      if Truthy(o.ret) then
        LoopState(Idle, st.cycle + 1, st.buyNum, st.sellNum + CounterStep(t.v),
                  st.trace + [SellTried(st.cycle, j, o), Slept(CyclePause(t.v, t.c, interval))])
      else
        st.(phase := Selling(j + 1, interval),
            trace := st.trace + [SellTried(st.cycle, j, o), Slept(SellBackoff(t.v))])
  }

  /** Moves left in the current cycle, at most. */
  function Rank(p: Phase): nat
  {
    match p
    case Idle => 26
    case Buying(i, _, _) => if i <= MaxAttempts then 25 - i else 14
    case Selling(j, _) => if j <= MaxAttempts then 13 - j else 2
    case Terminated(_) => 0
  }

  /** The loop from `st` until it returns or `horizon` cycles have been completed. */
  function Run(t: Trader, m: Market, horizon: nat, st: LoopState): LoopState
    requires MarketOk(m)
    decreases horizon - st.cycle, Rank(st.phase)
  {
    if st.phase.Terminated? || st.cycle >= horizon then st
    else Run(t, m, horizon, Step(t, m, st))
  }

  /** Wallet `index` of the roster: it first waits its stagger, then enters the loop. */
  function Start(t: Trader, index: nat): LoopState
  {
    LoopState(Idle, 0, 0, 0, [Slept(Stagger(t.c, index))])
  }

  function WalletRun(t: Trader, m: Market, index: nat, horizon: nat): LoopState
    requires MarketOk(m)
  {
    Run(t, m, horizon, Start(t, index))
  }

  /** The body of `data.map(async ({ kp }, i) => ...)` for wallet `index`, observed for
      `horizon` cycles. */
  method RunWallet(t: Trader, m: Market, index: nat, horizon: nat) returns (st: LoopState)
    requires MarketOk(m)
    ensures st == WalletRun(t, m, index, horizon)
  {
    var trace := [Slept(Stagger(t.c, index))];
    var buyNum: nat, sellNum: nat := 0, 0;
    var cycle: nat := 0;
    while cycle < horizon
      invariant Run(t, m, horizon, LoopState(Idle, cycle, buyNum, sellNum, trace)) == WalletRun(t, m, index, horizon)
      decreases horizon - cycle
    {
      var interval := BuyInterval(t.c, m.intervalDraw(cycle));
      var balance := m.balance(cycle);
      if balance.None? {
        return LoopState(Terminated(BalanceQueryFailed), cycle, buyNum, sellNum, trace);
      }
      var amount := BuyAmountFor(t.c, m.amountDraw(cycle));
      if balance.value < t.c.additionalFee {
        return LoopState(Terminated(LowBalance), cycle, buyNum, sellNum, trace);
      }
      var bought, sold;
      bought, buyNum, trace := TryBuying(t, m, horizon, cycle, amount, interval, buyNum, sellNum, trace);
      if !bought {
        return LoopState(Terminated(BuyExhausted), cycle, buyNum, sellNum, trace);
      }
      sold, sellNum, trace := TrySelling(t, m, horizon, cycle, interval, buyNum, sellNum, trace);
      if !sold {
        return LoopState(Terminated(SellExhausted), cycle, buyNum, sellNum, trace);
      }
      cycle := cycle + 1;
    }
    st := LoopState(Idle, cycle, buyNum, sellNum, trace);
  }

  /** "try buying until success": up to eleven buy attempts, one second apart, then the
      wait before selling. Reports whether a buy succeeded, with the counter and trace. */
  method TryBuying(t: Trader, m: Market, horizon: nat, cycle: nat, amount: real, interval: int,
                   buyNum0: nat, sellNum: nat, trace0: seq<Event>)
    returns (bought: bool, buyNum: nat, trace: seq<Event>)
    requires MarketOk(m) && cycle < horizon
    ensures Run(t, m, horizon, LoopState(Buying(0, amount, interval), cycle, buyNum0, sellNum, trace0))
         == Run(t, m, horizon, LoopState(if bought then Selling(0, interval) else Terminated(BuyExhausted),
                                         cycle, buyNum, sellNum, trace))
  {
    buyNum, trace := buyNum0, trace0;
    var i: nat := 0;
    while true
      invariant i <= MaxAttempts
      invariant Run(t, m, horizon, LoopState(Buying(0, amount, interval), cycle, buyNum0, sellNum, trace0))
             == Run(t, m, horizon, LoopState(Buying(i, amount, interval), cycle, buyNum, sellNum, trace))
      decreases MaxAttempts - i
    {
      if i > MaxAttemptIndex {
        return false, buyNum, trace;
      }
      var result := BuyCall(t, m, amount, m.buyEnv(cycle)(i));
      if Truthy(result.ret) {
        buyNum := buyNum + CounterStep(t.v);
        trace := trace + [BuyTried(cycle, i, result), Slept(PostBuyDelay(t.v))];
        return true, buyNum, trace;
      }
      trace := trace + [BuyTried(cycle, i, result), Slept(BuyBackoff(t.v))];
      i := i + 1;
    }
  }

  /** "try selling until success": up to eleven sell attempts, one second (bundle.ts: two)
      apart; a success is followed by the pause that closes the cycle. */
  method TrySelling(t: Trader, m: Market, horizon: nat, cycle: nat, interval: int,
                    buyNum: nat, sellNum0: nat, trace0: seq<Event>)
    returns (sold: bool, sellNum: nat, trace: seq<Event>)
    requires MarketOk(m) && cycle < horizon
    ensures Run(t, m, horizon, LoopState(Selling(0, interval), cycle, buyNum, sellNum0, trace0))
         == Run(t, m, horizon, if sold then LoopState(Idle, cycle + 1, buyNum, sellNum, trace)
                               else LoopState(Terminated(SellExhausted), cycle, buyNum, sellNum, trace))
  {
    sellNum, trace := sellNum0, trace0;
    var j: nat := 0;
    while true
      invariant j <= MaxAttempts
      invariant Run(t, m, horizon, LoopState(Selling(0, interval), cycle, buyNum, sellNum0, trace0))
             == Run(t, m, horizon, LoopState(Selling(j, interval), cycle, buyNum, sellNum, trace))
      decreases MaxAttempts - j
    {
      if j > MaxAttemptIndex {
        return false, sellNum, trace;
      }
      var result := SellCall(t, m, m.sellEnv(cycle)(j));
      if Truthy(result.ret) {
        sellNum := sellNum + CounterStep(t.v);
        trace := trace + [SellTried(cycle, j, result), Slept(CyclePause(t.v, t.c, interval))];
        return true, sellNum, trace;
      }
      trace := trace + [SellTried(cycle, j, result), Slept(SellBackoff(t.v))];
      j := j + 1;
    }
  }

  // ---------------------------------------------------------------------------
  // what the trace records
  // ---------------------------------------------------------------------------

  /** What can be counted in a trace: the buys and sells that succeeded, and the buy and
      sell attempts of one cycle that failed. */
  datatype Tally = GoodBuys | GoodSells | BadBuysIn(c: nat) | BadSellsIn(c: nat)

  predicate Tallies(k: Tally, e: Event)
  {
    match k
    case GoodBuys => e.BuyTried? && Truthy(e.outcome.ret)
    case GoodSells => e.SellTried? && Truthy(e.outcome.ret)
    case BadBuysIn(c) => e.BuyTried? && e.cycle == c && !Truthy(e.outcome.ret)
    case BadSellsIn(c) => e.SellTried? && e.cycle == c && !Truthy(e.outcome.ret)
  }

  function Count(s: seq<Event>, k: Tally): nat
    decreases |s|
  {
    if s == [] then 0 else Count(s[..|s| - 1], k) + (if Tallies(k, s[|s| - 1]) then 1 else 0)
  }

  lemma CountAppendPair(s: seq<Event>, a: Event, b: Event, k: Tally)
    ensures Count(s + [a, b], k) == Count(s, k) + (if Tallies(k, a) then 1 else 0) + (if Tallies(k, b) then 1 else 0)
  {
    assert (s + [a, b])[..|s| + 1] == s + [a];
    assert (s + [a])[..|s|] == s;
  }

  /** Nothing is counted for a cycle no event of the trace belongs to. */
  lemma {:induction false} CountLaterCycle(s: seq<Event>, c: nat)
    requires forall e | e in s && !e.Slept? :: e.cycle < c
    ensures Count(s, BadBuysIn(c)) == 0 && Count(s, BadSellsIn(c)) == 0
    decreases |s|
  {
    if s != [] {
      assert s[|s| - 1] in s;
      assert forall e | e in s[..|s| - 1] :: e in s;
      CountLaterCycle(s[..|s| - 1], c);
    }
  }

  /** The wait that follows an attempt. */
  function PauseAfter(t: Trader, m: Market, e: Event): real
    requires MarketOk(m) && !e.Slept?
  {
    match e
    case BuyTried(_, _, o) => if Truthy(o.ret) then PostBuyDelay(t.v) else BuyBackoff(t.v)
    case SellTried(c, _, o) =>
      if Truthy(o.ret) then CyclePause(t.v, t.c, BuyInterval(t.c, m.intervalDraw(c))) else SellBackoff(t.v)
  }

  /** After the opening wait the trace alternates attempts and the waits that follow them. */
  ghost predicate Paced(t: Trader, m: Market, s: seq<Event>)
    requires MarketOk(m)
    decreases |s|
  {
    if |s| <= 1 then true
    else |s| >= 3 && Paced(t, m, s[..|s| - 2]) && !s[|s| - 2].Slept?
         && s[|s| - 1] == Slept(PauseAfter(t, m, s[|s| - 2]))
  }

  /** An attempt is numbered within the limit and is the call the market answers for its
      cycle and number; a buy is for the amount drawn in its cycle. */
  ghost predicate Faithful(t: Trader, m: Market, e: Event)
    requires MarketOk(m)
  {
    match e
    case Slept(_) => true
    case BuyTried(c, i, o) =>
      i <= MaxAttemptIndex && o == BuyCall(t, m, BuyAmountFor(t.c, m.amountDraw(c)), m.buyEnv(c)(i))
    case SellTried(c, j, o) =>
      j <= MaxAttemptIndex && o == SellCall(t, m, m.sellEnv(c)(j))
  }

  /** Every attempt of the trace is the call the market answers for it. */
  ghost predicate Recorded(t: Trader, m: Market, s: seq<Event>)
    requires MarketOk(m)
  {
    forall e | e in s :: Faithful(t, m, e)
  }

  /** The balance read at the top of cycle `c` allowed trading. */
  ghost predicate Funded(t: Trader, m: Market, c: nat)
  {
    m.balance(c).Some? && m.balance(c).value >= t.c.additionalFee
  }

  /** Whether the cycle's buy has succeeded and its sell not. */
  predicate SellHalf(p: Phase)
  {
    p.Selling? || p == Terminated(SellExhausted)
  }

  /** What the phase says about the current cycle. */
  ghost predicate PhaseFacts(t: Trader, m: Market, st: LoopState)
    requires MarketOk(m)
  {
    var bad, badSells := Count(st.trace, BadBuysIn(st.cycle)), Count(st.trace, BadSellsIn(st.cycle));
    match st.phase
    case Idle => bad == 0 && badSells == 0
    case Buying(i, amount, interval) =>
      && Funded(t, m, st.cycle) && i <= MaxAttempts && bad == i && badSells == 0
      && amount == BuyAmountFor(t.c, m.amountDraw(st.cycle))
      && interval == BuyInterval(t.c, m.intervalDraw(st.cycle))
    case Selling(j, interval) =>
      && Funded(t, m, st.cycle) && bad <= MaxAttemptIndex && j <= MaxAttempts && badSells == j
      && interval == BuyInterval(t.c, m.intervalDraw(st.cycle))
    case Terminated(BalanceQueryFailed) => m.balance(st.cycle).None? && bad == 0 && badSells == 0
    case Terminated(LowBalance) =>
      m.balance(st.cycle).Some? && m.balance(st.cycle).value < t.c.additionalFee && bad == 0 && badSells == 0
    case Terminated(BuyExhausted) => Funded(t, m, st.cycle) && bad == MaxAttempts && badSells == 0
    case Terminated(SellExhausted) => Funded(t, m, st.cycle) && bad <= MaxAttemptIndex && badSells == MaxAttempts
  }

  /** What holds of wallet `index`'s loop at every point. */
  ghost predicate Inv(t: Trader, m: Market, index: nat, st: LoopState)
    requires MarketOk(m)
  {
    && |st.trace| >= 1 && st.trace[0] == Slept(Stagger(t.c, index)) && Paced(t, m, st.trace)
    && (forall e | e in st.trace && !e.Slept? :: e.cycle <= st.cycle)
    && (forall c: nat | c < st.cycle :: Funded(t, m, c))
    && Count(st.trace, GoodSells) == st.cycle
    && Count(st.trace, GoodBuys) == st.cycle + (if SellHalf(st.phase) then 1 else 0)
    && st.buyNum == (if t.v == Legacy then Count(st.trace, GoodBuys) else 0)
    && st.sellNum == (if t.v == Legacy then st.cycle else 0)
    && PhaseFacts(t, m, st)
  }

  lemma StartInv(t: Trader, m: Market, index: nat)
    requires MarketOk(m)
    ensures Inv(t, m, index, Start(t, index)) && Recorded(t, m, Start(t, index).trace)
  {
    var s := Start(t, index).trace;
    assert s[..0] == [];
  }

  /** Appending an attempt and its wait keeps the pacing and the cycle bound of the trace. */
  lemma AppendAttempt(t: Trader, m: Market, st: LoopState, e: Event, cycle: nat)
    requires MarketOk(m) && !e.Slept? && e.cycle <= cycle && st.cycle <= cycle
    requires |st.trace| >= 1 && Paced(t, m, st.trace)
    requires forall x | x in st.trace && !x.Slept? :: x.cycle <= st.cycle
    ensures var s := st.trace + [e, Slept(PauseAfter(t, m, e))];
      && s[0] == st.trace[0] && Paced(t, m, s)
      && (forall x | x in s && !x.Slept? :: x.cycle <= cycle)
  {
    var s := st.trace + [e, Slept(PauseAfter(t, m, e))];
    assert s[..|s| - 2] == st.trace;
  }

  lemma IdleKeepsInv(t: Trader, m: Market, index: nat, st: LoopState)
    requires MarketOk(m) && Inv(t, m, index, st) && st.phase.Idle?
    ensures Inv(t, m, index, Step(t, m, st))
  {
  }

  /** A buy attempt, failed or not, keeps the invariant. */
  lemma BuyKeepsInv(t: Trader, m: Market, index: nat, st: LoopState)
    requires MarketOk(m) && Inv(t, m, index, st) && st.phase.Buying?
    ensures Inv(t, m, index, Step(t, m, st))
  {
    var i, amount, interval := st.phase.tries, st.phase.amount, st.phase.interval;
    if i <= MaxAttemptIndex {
      var e := BuyTried(st.cycle, i, BuyCall(t, m, amount, m.buyEnv(st.cycle)(i)));
      var s := st.trace + [e, Slept(PauseAfter(t, m, e))];
      if Truthy(e.outcome.ret) {
        BuySucceeds(t, m, index, st, e);
        assert Step(t, m, st) == st.(phase := Selling(0, interval), buyNum := st.buyNum + CounterStep(t.v), trace := s);
      } else {
        BuyFails(t, m, index, st, e);
        assert Step(t, m, st) == st.(phase := Buying(i + 1, amount, interval), trace := s);
      }
    }
  }

  /** How an attempt and its wait change every count the invariant keeps. */
  lemma AttemptCounts(s: seq<Event>, e: Event, b: Event, c: nat)
    requires b.Slept?
    ensures Count(s + [e, b], GoodBuys) == Count(s, GoodBuys) + (if Tallies(GoodBuys, e) then 1 else 0)
    ensures Count(s + [e, b], GoodSells) == Count(s, GoodSells) + (if Tallies(GoodSells, e) then 1 else 0)
    ensures Count(s + [e, b], BadBuysIn(c)) == Count(s, BadBuysIn(c)) + (if Tallies(BadBuysIn(c), e) then 1 else 0)
    ensures Count(s + [e, b], BadSellsIn(c)) == Count(s, BadSellsIn(c)) + (if Tallies(BadSellsIn(c), e) then 1 else 0)
  {
    CountAppendPair(s, e, b, GoodBuys);
    CountAppendPair(s, e, b, GoodSells);
    CountAppendPair(s, e, b, BadBuysIn(c));
    CountAppendPair(s, e, b, BadSellsIn(c));
  }

  lemma BuySucceeds(t: Trader, m: Market, index: nat, st: LoopState, e: Event)
    requires MarketOk(m) && Inv(t, m, index, st) && st.phase.Buying? && st.phase.tries <= MaxAttemptIndex
    requires e.BuyTried? && e.cycle == st.cycle && e.attempt == st.phase.tries
    requires Truthy(e.outcome.ret)
    ensures Inv(t, m, index, st.(phase := Selling(0, st.phase.interval), buyNum := st.buyNum + CounterStep(t.v),
                                 trace := st.trace + [e, Slept(PauseAfter(t, m, e))]))
  {
    AppendAttempt(t, m, st, e, st.cycle);
    AttemptCounts(st.trace, e, Slept(PauseAfter(t, m, e)), st.cycle);
  }

  lemma BuyFails(t: Trader, m: Market, index: nat, st: LoopState, e: Event)
    requires MarketOk(m) && Inv(t, m, index, st) && st.phase.Buying? && st.phase.tries <= MaxAttemptIndex
    requires e.BuyTried? && e.cycle == st.cycle && e.attempt == st.phase.tries
    requires !Truthy(e.outcome.ret)
    ensures Inv(t, m, index, st.(phase := Buying(st.phase.tries + 1, st.phase.amount, st.phase.interval),
                                 trace := st.trace + [e, Slept(PauseAfter(t, m, e))]))
  {
    AppendAttempt(t, m, st, e, st.cycle);
    AttemptCounts(st.trace, e, Slept(PauseAfter(t, m, e)), st.cycle);
  }

  /** A sell attempt, failed or not, keeps the invariant; a success opens the next cycle,
      for which the trace holds no attempt yet. */
  lemma SellKeepsInv(t: Trader, m: Market, index: nat, st: LoopState)
    requires MarketOk(m) && Inv(t, m, index, st) && st.phase.Selling?
    ensures Inv(t, m, index, Step(t, m, st))
  {
    var j, interval := st.phase.tries, st.phase.interval;
    if j <= MaxAttemptIndex {
      var e := SellTried(st.cycle, j, SellCall(t, m, m.sellEnv(st.cycle)(j)));
      var s := st.trace + [e, Slept(PauseAfter(t, m, e))];
      if Truthy(e.outcome.ret) {
        SellSucceeds(t, m, index, st, e);
        assert Step(t, m, st) == LoopState(Idle, st.cycle + 1, st.buyNum, st.sellNum + CounterStep(t.v), s);
      } else {
        SellFails(t, m, index, st, e);
        assert Step(t, m, st) == st.(phase := Selling(j + 1, interval), trace := s);
      }
    }
  }

  lemma SellSucceeds(t: Trader, m: Market, index: nat, st: LoopState, e: Event)
    requires MarketOk(m) && Inv(t, m, index, st) && st.phase.Selling? && st.phase.tries <= MaxAttemptIndex
    requires e.SellTried? && e.cycle == st.cycle && e.attempt == st.phase.tries
    requires Truthy(e.outcome.ret)
    ensures Inv(t, m, index, LoopState(Idle, st.cycle + 1, st.buyNum, st.sellNum + CounterStep(t.v),
                                       st.trace + [e, Slept(PauseAfter(t, m, e))]))
  {
    var s := st.trace + [e, Slept(PauseAfter(t, m, e))];
    var next := LoopState(Idle, st.cycle + 1, st.buyNum, st.sellNum + CounterStep(t.v), s);
    AppendAttempt(t, m, st, e, st.cycle + 1);
    AttemptCounts(st.trace, e, Slept(PauseAfter(t, m, e)), st.cycle);
    CountLaterCycle(s, st.cycle + 1);
    forall c: nat | c < next.cycle
      ensures Funded(t, m, c)
    {
      if c == st.cycle {
        assert PhaseFacts(t, m, st);
      }
    }
    assert Count(s, GoodSells) == next.cycle && Count(s, GoodBuys) == next.cycle;
    assert next.buyNum == (if t.v == Legacy then Count(s, GoodBuys) else 0);
    assert next.sellNum == (if t.v == Legacy then next.cycle else 0);
    assert PhaseFacts(t, m, next);
  }

  lemma SellFails(t: Trader, m: Market, index: nat, st: LoopState, e: Event)
    requires MarketOk(m) && Inv(t, m, index, st) && st.phase.Selling? && st.phase.tries <= MaxAttemptIndex
    requires e.SellTried? && e.cycle == st.cycle && e.attempt == st.phase.tries
    requires !Truthy(e.outcome.ret)
    ensures Inv(t, m, index, st.(phase := Selling(st.phase.tries + 1, st.phase.interval),
                                 trace := st.trace + [e, Slept(PauseAfter(t, m, e))]))
  {
    AppendAttempt(t, m, st, e, st.cycle);
    AttemptCounts(st.trace, e, Slept(PauseAfter(t, m, e)), st.cycle);
  }

  lemma StepKeepsInv(t: Trader, m: Market, index: nat, st: LoopState)
    requires MarketOk(m) && Inv(t, m, index, st)
    ensures Inv(t, m, index, Step(t, m, st))
  {
    match st.phase
    case Idle => IdleKeepsInv(t, m, index, st);
    case Buying(_, _, _) => BuyKeepsInv(t, m, index, st);
    case Selling(_, _) => SellKeepsInv(t, m, index, st);
    case Terminated(_) =>
  }

  /** A step only appends to the trace, and what it appends is the call the market answers
      for the current cycle and attempt, buying the amount drawn for the cycle. */
  lemma StepKeepsRecorded(t: Trader, m: Market, index: nat, st: LoopState)
    requires MarketOk(m) && Inv(t, m, index, st) && Recorded(t, m, st.trace)
    ensures Recorded(t, m, Step(t, m, st).trace)
    ensures st.trace <= Step(t, m, st).trace
  {
    var next := Step(t, m, st);
    if next.trace != st.trace {
      assert !st.phase.Idle? && !st.phase.Terminated?;
      var e := next.trace[|st.trace|];
      assert next.trace == st.trace + [e, next.trace[|st.trace| + 1]];
      assert Faithful(t, m, e);
    }
  }

  /** The loop keeps the invariant, only ever appends to its trace, and stops either
      because the wallet's function returned or because the observed cycles are done. */
  lemma {:induction false} RunKeepsInv(t: Trader, m: Market, index: nat, horizon: nat, st: LoopState)
    requires MarketOk(m) && Inv(t, m, index, st) && Recorded(t, m, st.trace)
    requires st.cycle < horizon || (st.cycle == horizon && st.phase == Idle)
    ensures var r := Run(t, m, horizon, st);
      && Inv(t, m, index, r) && Recorded(t, m, r.trace) && st.trace <= r.trace && st.cycle <= r.cycle <= horizon
      && (r.phase.Terminated? || (r.phase == Idle && r.cycle == horizon))
    decreases horizon - st.cycle, Rank(st.phase)
  {
    if !st.phase.Terminated? && st.cycle < horizon {
      StepKeepsInv(t, m, index, st);
      StepKeepsRecorded(t, m, index, st);
      RunKeepsInv(t, m, index, horizon, Step(t, m, st));
    }
  }

  // ---------------------------------------------------------------------------
  // what a wallet's loop does
  // ---------------------------------------------------------------------------

  /** Wallet `index` observed for `horizon` cycles: the invariant holds when it stops, and it
      stops only by returning or at the end of the observed cycles. */
  lemma WalletRunInv(t: Trader, m: Market, index: nat, horizon: nat)
    requires MarketOk(m)
    ensures var r := WalletRun(t, m, index, horizon);
      && Inv(t, m, index, r) && Recorded(t, m, r.trace) && r.cycle <= horizon
      && (r.phase.Terminated? || (r.phase == Idle && r.cycle == horizon))
  {
    StartInv(t, m, index);
    RunKeepsInv(t, m, index, horizon, Start(t, index));
  }

  /** Buys and sells alternate: every completed cycle holds exactly one successful buy and
      one successful sell, and a successful buy without its sell is left only when the sell
      attempts ran out. The counters of index.ts count the successes; bundle.ts leaves them
      at zero. */
  lemma BuysAndSellsAlternate(t: Trader, m: Market, index: nat, horizon: nat)
    requires MarketOk(m)
    ensures var r := WalletRun(t, m, index, horizon);
      && Count(r.trace, GoodSells) == r.cycle
      && Count(r.trace, GoodBuys) == r.cycle + (if r.phase == Terminated(SellExhausted) then 1 else 0)
      && (t.v == Legacy ==> r.buyNum == Count(r.trace, GoodBuys) && r.sellNum == Count(r.trace, GoodSells))
      && (t.v == Bundled ==> r.buyNum == 0 && r.sellNum == 0)
  {
    WalletRunInv(t, m, index, horizon);
  }

  /** The loop returns in exactly four ways, each after what the source checks: the balance
      query failed, the balance was below the fee, or eleven attempts of the buy (or of the
      sell, after at most ten failed buys) of the last cycle failed. Every cycle before the
      last passed the balance check. */
  lemma WalletExits(t: Trader, m: Market, index: nat, horizon: nat)
    requires MarketOk(m)
    ensures var r := WalletRun(t, m, index, horizon);
      var c := r.cycle;
      && (forall k: nat | k < c :: Funded(t, m, k))
      && (r.phase == Terminated(BalanceQueryFailed) ==> m.balance(c).None?)
      && (r.phase == Terminated(LowBalance) ==>
            m.balance(c).Some? && m.balance(c).value < t.c.additionalFee && Count(r.trace, BadBuysIn(c)) == 0)
      && (r.phase == Terminated(BuyExhausted) ==>
            Funded(t, m, c) && Count(r.trace, BadBuysIn(c)) == 11 && Count(r.trace, BadSellsIn(c)) == 0)
      && (r.phase == Terminated(SellExhausted) ==>
            Funded(t, m, c) && Count(r.trace, BadBuysIn(c)) <= 10 && Count(r.trace, BadSellsIn(c)) == 11)
      && (!r.phase.Terminated? ==> r.phase == Idle && c == horizon)
  {
    WalletRunInv(t, m, index, horizon);
  }

  /** Every attempt in the trace is numbered 0 to 10 and is the call the market answers for
      its cycle and number; every buy is for the amount drawn at the top of its cycle. */
  lemma AttemptsUseCycleDraws(t: Trader, m: Market, index: nat, horizon: nat)
    requires MarketOk(m)
    ensures var r := WalletRun(t, m, index, horizon);
      forall e | e in r.trace && !e.Slept? ::
        && e.attempt <= MaxAttemptIndex && e.cycle <= r.cycle
        && (e.BuyTried? ==> e.outcome == BuyCall(t, m, BuyAmountFor(t.c, m.amountDraw(e.cycle)), m.buyEnv(e.cycle)(e.attempt)))
        && (e.SellTried? ==> e.outcome == SellCall(t, m, m.sellEnv(e.cycle)(e.attempt)))
  {
    WalletRunInv(t, m, index, horizon);
    var r := WalletRun(t, m, index, horizon);
    forall e | e in r.trace && !e.Slept?
      ensures e.attempt <= MaxAttemptIndex
    {
    }
  }
}
