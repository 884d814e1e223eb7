/** The `buy` and `sell` of bundle.ts: the same steps as the single-transaction swaps, but
    the built transaction is handed to the bundle coordinator as a one-element list, and
    the roster is edited only after the coordinator answers true. */
module JitoTrade {
  import opened Common
  import opened Swap
  import Jito

  /** The text JavaScript gives a boolean inside a template string. */
  function BoolText(b: bool): string
  {
    if b then "true" else "false"
  }

  /** The coordinator's answer for `bundle([tx], payer)`: true or false, or no answer when
      the observation ends first. */
  function BundleOne(tx: Tx, payer: Keypair, attempt: nat -> nat -> Jito.Attempt, horizon: nat): Jito.Verdict
    requires forall g :: Jito.RandomInRange(attempt(g))
  {
    Jito.BundleSpec([tx], payer, attempt, horizon).verdict
  }

  /** `buy(newWallet, baseMint, buyAmount, poolId)` of bundle.ts; the tip is paid by the main
      wallet `mainKp`. The executor outcome in `env` is not consulted. A coordinator still
      running has returned nothing and written nothing. */
  function Buy(mainKp: Keypair, wallet: Keypair, buyAmount: real, env: BuyEnv,
               attempt: nat -> nat -> Jito.Attempt, horizon: nat): (o: SwapOutcome)
    requires forall g :: Jito.RandomInRange(attempt(g))
    ensures o.edit.Some? <==> o.ret.Some?
    ensures o.ret.Some? ==> env.balance.Some? && env.balance.value != 0 && env.tx.Built?
                            && o.edit.value.BuyEdit? && o.edit.value.pubkey == wallet.pubkey
                            && o.edit.value.tokenBuyTx == o.ret.value
    ensures o.slept == []
  {
    if env.balance.None? || env.balance.value == 0 then Failed
    else match env.tx
      case BuildThrew => Failed
      case NotBuilt => Failed
      case Built(tx) =>
        match BundleOne(tx, mainKp, attempt, horizon)
        case Running => Failed
        case Resolved(ok) =>
          if !ok then Failed
          else
            var ref := SolscanUrl(BoolText(ok));
            SwapOutcome(Some(ref),
                        Some(BuyEdit(wallet.pubkey, ref, env.balance.value as real / LamportsPerSol as real - buyAmount)),
                        [])
  }

  /** `sell(poolId, baseMint, wallet)` of bundle.ts; the tip is paid by the trading wallet
      itself. The blockhash answer and the executor outcome in `env` are not consulted. */
  function Sell(wallet: Keypair, env: SellEnv, attempt: nat -> nat -> Jito.Attempt, horizon: nat): (o: SwapOutcome)
    requires forall g :: Jito.RandomInRange(attempt(g))
    ensures o.edit.Some? <==> o.ret.Some?
    ensures o.ret.Some? ==> env.rosterSize > 0 && env.tx.Built? && env.balanceAfter.Some?
                            && o.edit.value == SellEdit(wallet.pubkey, o.ret.value, env.balanceAfter.value)
    ensures o.slept == (if env.rosterSize == 0 then [1000.0] else [])
  {
    if env.rosterSize == 0 then SwapOutcome(None, None, [1000.0])
    else if !env.tokenBalance.TokenBalance? then Failed
    else match env.tx
      case BuildThrew => Failed
      case NotBuilt => Failed
      case Built(tx) =>
        match BundleOne(tx, wallet, attempt, horizon)
        case Running => Failed
        case Resolved(ok) =>
          if !ok || env.balanceAfter.None? then Failed
          else
            var ref := SolscanUrl(BoolText(ok));
            SwapOutcome(Some(ref), Some(SellEdit(wallet.pubkey, ref, env.balanceAfter.value)), [])
  }

  /** A one-element list is cut back to nothing by `bundle`, which therefore submits no
      bundle, pays no tip and answers true at once, whoever the payer is. */
  lemma OneTransactionBundleIsTrue(tx: Tx, payer: Keypair, attempt: nat -> nat -> Jito.Attempt, horizon: nat)
    requires forall g :: Jito.RandomInRange(attempt(g))
    ensures Jito.BundleSpec([tx], payer, attempt, horizon) == Jito.BundleRun(Jito.Resolved(true), [], [])
    ensures BundleOne(tx, payer, attempt, horizon) == Jito.Resolved(true)
  {
    Jito.ShortListSubmitsNothing([tx], payer, attempt, horizon);
  }

  /** Consequently a bundle.ts buy that gets a transaction built always succeeds and always
      stores the reference "https://solscan.io/tx/true" rather than a signature; the
      wallet balance and the builder alone decide the outcome. */
  lemma BuyStoresTrueReference(mainKp: Keypair, wallet: Keypair, buyAmount: real, env: BuyEnv,
                               attempt: nat -> nat -> Jito.Attempt, horizon: nat)
    requires forall g :: Jito.RandomInRange(attempt(g))
    ensures var o := Buy(mainKp, wallet, buyAmount, env, attempt, horizon);
      && (o.ret.Some? <==> env.balance.Some? && env.balance.value != 0 && env.tx.Built?)
      && (o.edit.Some? <==> o.ret.Some?)
      && (o.ret.Some? ==>
            && o.ret.value == "https://solscan.io/tx/true"
            && Truthy(o.ret)
            && o.edit.value == BuyEdit(wallet.pubkey, "https://solscan.io/tx/true",
                                       env.balance.value as real / LamportsPerSol as real - buyAmount))
  {
    if env.tx.Built? {
      OneTransactionBundleIsTrue(env.tx.tx, mainKp, attempt, horizon);
    }
  }

  /** The same holds for a bundle.ts sell, which needs in addition a non-empty roster, a
      token balance and the balance read after the swap. */
  lemma SellStoresTrueReference(wallet: Keypair, env: SellEnv, attempt: nat -> nat -> Jito.Attempt, horizon: nat)
    requires forall g :: Jito.RandomInRange(attempt(g))
    ensures var o := Sell(wallet, env, attempt, horizon);
      && (o.ret.Some? <==>
            env.rosterSize > 0 && env.tokenBalance.TokenBalance? && env.tx.Built? && env.balanceAfter.Some?)
      && (o.edit.Some? <==> o.ret.Some?)
      && (o.ret.Some? ==>
            && o.ret.value == "https://solscan.io/tx/true"
            && Truthy(o.ret)
            && o.edit.value == SellEdit(wallet.pubkey, "https://solscan.io/tx/true", env.balanceAfter.value))
  {
    if env.tx.Built? {
      OneTransactionBundleIsTrue(env.tx.tx, wallet, attempt, horizon);
    }
  }

  /** The roster is written only after the coordinator answered true: whenever a call
      edits the roster, its transaction was built and handed to `bundle`, which said true. */
  lemma EditOnlyAfterTrue(mainKp: Keypair, wallet: Keypair, buyAmount: real, buyEnv: BuyEnv, sellEnv: SellEnv,
                          attempt: nat -> nat -> Jito.Attempt, horizon: nat)
    requires forall g :: Jito.RandomInRange(attempt(g))
    ensures Buy(mainKp, wallet, buyAmount, buyEnv, attempt, horizon).edit.Some? ==>
      buyEnv.tx.Built? && BundleOne(buyEnv.tx.tx, mainKp, attempt, horizon) == Jito.Resolved(true)
    ensures Sell(wallet, sellEnv, attempt, horizon).edit.Some? ==>
      sellEnv.tx.Built? && BundleOne(sellEnv.tx.tx, wallet, attempt, horizon) == Jito.Resolved(true)
  {
  }
}
