/** The start of `main` in index.ts and bundle.ts: the main wallet's balance is read first,
    and a failed read rejects `main` before anything else; without aggregator routing the
    pool must then be found, or the bot stops; a saved roster is imported as it is, and only an empty one
    leads to a fresh distribution, whose failure stops the bot; then every wallet runs its
    trading loop, wallet `i` staggered by its index. The loops run concurrently in the
    source; here they are run one after the other, each against its own market. */
module Startup {
  import opened Common
  import opened Settings
  import opened Distribution
  import opened TradingLoop

  /** How `main` ends: the opening balance read threw (the promise `main()` returns rejects,
      and nothing catches it), no pool found, distribution failed, or trading with these
      wallets (with the distribution that produced them, if any) and these loop runs. */
  datatype Launch =
    | BalanceReadFailed
    | NoPool
    | DistributionFailed(d: Distribution)
    | Trading(wallets: seq<FundedWallet>, distribution: Option<Distribution>, runs: seq<LoopState>)

  /** The roster turned into trading wallets: the keypair decoded from the saved secret and
      the saved balance less the fee. */
  function Imported(c: Config, roster: seq<WalletRecord>, fromSecret: string -> Keypair): seq<FundedWallet>
  {
    seq(|roster|, i requires 0 <= i < |roster| =>
      FundedWallet(fromSecret(roster[i].privateKey), roster[i].solBalance - c.additionalFee))
  }

  /** The loops of the wallets, wallet `i` meeting market `markets(i)`. */
  function Runs(v: Variant, c: Config, mainKp: Keypair, wallets: seq<FundedWallet>,
                markets: nat -> Market, horizon: nat): seq<LoopState>
    requires forall i :: MarketOk(markets(i))
  {
    seq(|wallets|, (i: nat) requires i < |wallets| =>
      WalletRun(Trader(v, c, mainKp, wallets[i].kp), markets(i), i, horizon))
  }

  /** `main`, given whether the main wallet's balance read succeeds, whether the pool lookup
      found a pool, the roster `readJson` returns, the keypair decoder, the distribution's
      answers and each wallet's market. */
  function LaunchSpec(v: Variant, c: Config, mainKp: Keypair, balanceOk: bool, poolFound: bool,
                      roster: seq<WalletRecord>, fromSecret: string -> Keypair, generated: nat -> Keypair,
                      net: Network, markets: nat -> Market, horizon: nat): (l: Launch)
    requires forall i :: MarketOk(markets(i))
    ensures l.BalanceReadFailed? <==> !balanceOk
    ensures l.Trading? ==> |l.runs| == |l.wallets| && (l.distribution.Some? <==> |roster| == 0)
  {
    if !balanceOk then BalanceReadFailed
    else if !c.swapRouting && !poolFound then NoPool
    else if |roster| == 0 then
      var d := DistributionSpec(v, c, mainKp, generated, net);
      if d.result.None? then DistributionFailed(d)
      else Trading(d.result.value, Some(d), Runs(v, c, mainKp, d.result.value, markets, horizon))
    else
      var ws := Imported(c, roster, fromSecret);
      Trading(ws, None, Runs(v, c, mainKp, ws, markets, horizon))
  }

  /** `main` of index.ts and bundle.ts. */
  method RunBot(v: Variant, c: Config, mainKp: Keypair, balanceOk: bool, poolFound: bool,
                roster: seq<WalletRecord>, fromSecret: string -> Keypair, generated: nat -> Keypair,
                net: Network, markets: nat -> Market, horizon: nat)
    returns (l: Launch)
    requires forall i :: MarketOk(markets(i))
    ensures l == LaunchSpec(v, c, mainKp, balanceOk, poolFound, roster, fromSecret, generated, net, markets, horizon)
  {
    if !balanceOk {
      return BalanceReadFailed;
    }
    if !c.swapRouting && !poolFound {
      return NoPool;
    }
    var data: seq<FundedWallet>;
    var distribution: Option<Distribution> := None;
    if |roster| == 0 {
      var d := DistributeSol(v, c, mainKp, generated, net);
      if d.result.None? {
        return DistributionFailed(d);
      }
      data, distribution := d.result.value, Some(d);
    } else {
      data := [];
      for i := 0 to |roster|
        invariant data == Imported(c, roster[..i], fromSecret)
      {
        data := data + [FundedWallet(fromSecret(roster[i].privateKey), roster[i].solBalance - c.additionalFee)];
      }
      assert roster[..|roster|] == roster;
    }
    var runs: seq<LoopState> := [];
    for i := 0 to |data|
      invariant runs == Runs(v, c, mainKp, data[..i], markets, horizon)
    {
      var run := RunWallet(Trader(v, c, mainKp, data[i].kp), markets(i), i, horizon);
      runs := runs + [run];
    }
    assert data[..|data|] == data;
    l := Trading(data, distribution, runs);
  }

  /** A failed read of the main wallet's balance ends `main` first: whatever the pool lookup,
      the roster and the network would give, nothing is distributed and no wallet trades. */
  lemma BalanceReadStopsFirst(v: Variant, c: Config, mainKp: Keypair, poolFound: bool, roster: seq<WalletRecord>,
                              fromSecret: string -> Keypair, generated: nat -> Keypair, net: Network,
                              markets: nat -> Market, horizon: nat)
    requires forall i :: MarketOk(markets(i))
    ensures LaunchSpec(v, c, mainKp, false, poolFound, roster, fromSecret, generated, net, markets, horizon)
            == BalanceReadFailed
    ensures LaunchSpec(v, c, mainKp, true, poolFound, roster, fromSecret, generated, net, markets, horizon)
            != BalanceReadFailed
  {
  }

  /** Without aggregator routing a missing pool stops `main` before the roster is read or
      anything is distributed; with routing the pool lookup is never made. */
  lemma NoPoolStopsFirst(v: Variant, c: Config, mainKp: Keypair, poolFound: bool, roster: seq<WalletRecord>,
                         fromSecret: string -> Keypair, generated: nat -> Keypair, net: Network,
                         markets: nat -> Market, horizon: nat)
    requires forall i :: MarketOk(markets(i))
    ensures var l := LaunchSpec(v, c, mainKp, true, poolFound, roster, fromSecret, generated, net, markets, horizon);
      && (l == NoPool <==> !c.swapRouting && !poolFound)
      && (c.swapRouting ==>
            l == LaunchSpec(v, c, mainKp, true, !poolFound, roster, fromSecret, generated, net, markets, horizon))
  {
  }

  /** A saved roster is imported wallet by wallet, in order, each with the saved balance less
      the fee, and nothing is distributed whatever the network would answer. */
  lemma SavedRosterSkipsDistribution(v: Variant, c: Config, mainKp: Keypair, poolFound: bool,
                                     roster: seq<WalletRecord>, fromSecret: string -> Keypair,
                                     generated: nat -> Keypair, net: Network, net2: Network,
                                     markets: nat -> Market, horizon: nat)
    requires forall i :: MarketOk(markets(i))
    requires |roster| > 0 && (c.swapRouting || poolFound)
    ensures var l := LaunchSpec(v, c, mainKp, true, poolFound, roster, fromSecret, generated, net, markets, horizon);
      && l.Trading? && l.distribution.None? && |l.wallets| == |roster| == |l.runs|
      && (forall i | 0 <= i < |roster| ::
            l.wallets[i].kp == fromSecret(roster[i].privateKey)
            && l.wallets[i].buyAmount == roster[i].solBalance - c.additionalFee)
      && l == LaunchSpec(v, c, mainKp, true, poolFound, roster, fromSecret, generated, net2, markets, horizon)
  {
  }

  /** An empty roster leads to a distribution: its failure stops `main` before any wallet
      trades, and its success sends every funded wallet into its loop. */
  lemma EmptyRosterDistributes(v: Variant, c: Config, mainKp: Keypair, poolFound: bool,
                               fromSecret: string -> Keypair, generated: nat -> Keypair, net: Network,
                               markets: nat -> Market, horizon: nat)
    requires forall i :: MarketOk(markets(i))
    requires c.swapRouting || poolFound
    ensures var l := LaunchSpec(v, c, mainKp, true, poolFound, [], fromSecret, generated, net, markets, horizon);
      var d := DistributionSpec(v, c, mainKp, generated, net);
      && (l.DistributionFailed? <==> forall k :: 0 <= k <= 3 ==> !Lands(v, net, k))
      && (l.Trading? ==> l.distribution == Some(d) && |l.wallets| == |l.runs| == Generated(c))
  {
    DistributionAttempts(v, c, mainKp, generated, net);
    DistributionSaves(v, c, mainKp, generated, net);
  }

  /** Every wallet that trades runs its own loop, staggered by its position in the list. */
  lemma EveryWalletTrades(v: Variant, c: Config, mainKp: Keypair, balanceOk: bool, poolFound: bool, roster: seq<WalletRecord>,
                          fromSecret: string -> Keypair, generated: nat -> Keypair, net: Network,
                          markets: nat -> Market, horizon: nat)
    requires forall i :: MarketOk(markets(i))
    ensures var l := LaunchSpec(v, c, mainKp, balanceOk, poolFound, roster, fromSecret, generated, net, markets, horizon);
      l.Trading? ==>
        && |l.runs| == |l.wallets|
        && forall i | 0 <= i < |l.wallets| ::
             && l.runs[i] == WalletRun(Trader(v, c, mainKp, l.wallets[i].kp), markets(i), i, horizon)
             && |l.runs[i].trace| >= 1 && l.runs[i].trace[0] == Slept(Stagger(c, i))
  {
    var l := LaunchSpec(v, c, mainKp, balanceOk, poolFound, roster, fromSecret, generated, net, markets, horizon);
    if l.Trading? {
      forall i | 0 <= i < |l.wallets|
        ensures |l.runs[i].trace| >= 1 && l.runs[i].trace[0] == Slept(Stagger(c, i))
      {
        WalletRunInv(Trader(v, c, mainKp, l.wallets[i].kp), markets(i), i, horizon);
      }
    }
  }
}
