/** The single-transaction `buy` and `sell` of index.ts, and the `sell` of gather.ts, which
    differs only in fetching its own blockhash. Each call is straight-line code over foreign
    calls; the answers of those calls are given as an environment value, and the outcome
    is what the call returns, the roster edit it makes and the delays it requests. */
module Swap {
  import opened Common

  /** What `getTokenAccountBalance` does: throw, answer with nothing, or give the raw amount. */
  datatype TokenBalanceQuery = TokenBalanceThrew | NoTokenBalance | TokenBalance(amount: string)

  /** The answers a `buy` call meets, in order: the wallet balance in lamports (None when
      `getBalance` throws), the swap builder's result and the executor's outcome. */
  datatype BuyEnv = BuyEnv(balance: Option<int>, tx: TxBuild, exec: ExecOutcome)

  /** The answers a `sell` call meets, in order: the size of the roster `readJson` finds, the
      token balance, the swap builder's result, whether a blockhash fetch succeeds (asked
      only by the gather.ts variant), the executor's outcome, and the lamport balance read
      after the swap (None when `getBalance` throws). */
  datatype SellEnv = SellEnv(
    rosterSize: nat,
    tokenBalance: TokenBalanceQuery,
    tx: TxBuild,
    blockhashOk: bool,
    exec: ExecOutcome,
    balanceAfter: Option<int>)

  /** What a call returns (None for null), the roster edit it makes, and the delays it asks
      `sleep` for, in milliseconds. */
  datatype SwapOutcome = SwapOutcome(ret: Option<string>, edit: Option<RosterEdit>, slept: seq<real>)

  /** Which `sell` is meant: index.ts signs against the shared blockhash cache, gather.ts
      fetches a fresh blockhash first. */
  datatype SellSite = TradingSell | GatherSell

  /** The explorer reference a settled swap stores: a link for a non-empty signature, "" for
      the empty signature the executor returns on a failed confirmation. */
  function TxRef(sig: string): (ref: string)
    ensures ref == "" <==> sig == ""
    ensures sig != "" ==> ref == SolscanUrl(sig)
  {
    if sig != "" then SolscanUrl(sig) else ""
  }

  const Failed: SwapOutcome := SwapOutcome(None, None, [])

  /** `buy(wallet, baseMint, buyAmount, poolId)` of index.ts. */
  function Buy(wallet: Keypair, buyAmount: real, env: BuyEnv): (o: SwapOutcome)
    ensures o.edit.Some? <==> o.ret.Some?
    ensures o.ret.Some? ==> env.exec.Returned? && o.ret.value == TxRef(env.exec.sig)
                            && o.edit.value.BuyEdit? && o.edit.value.pubkey == wallet.pubkey
                            && o.edit.value.tokenBuyTx == o.ret.value
    ensures o.slept == []
  {
    if env.balance.None? || env.balance.value == 0 then Failed
    else match env.tx
      case BuildThrew => Failed
      case NotBuilt => Failed
      case Built(_) =>
        match env.exec
        case Threw => Failed
        case Returned(sig) =>
          var ref := TxRef(sig);
          SwapOutcome(Some(ref),
                      Some(BuyEdit(wallet.pubkey, ref, env.balance.value as real / LamportsPerSol as real - buyAmount)),
                      [])
  }

  /** `sell(poolId, baseMint, wallet)` of index.ts, and of gather.ts for `GatherSell`. */
  function Sell(site: SellSite, wallet: Keypair, env: SellEnv): (o: SwapOutcome)
    ensures o.edit.Some? <==> o.ret.Some?
    ensures o.ret.Some? ==> env.rosterSize > 0 && env.exec.Returned? && o.ret.value == TxRef(env.exec.sig)
                            && o.edit.value.SellEdit? && o.edit.value.pubkey == wallet.pubkey
                            && o.edit.value.tokenSellTx == o.ret.value
    ensures o.slept == (if env.rosterSize == 0 then [1000.0] else [])
  {
    if env.rosterSize == 0 then SwapOutcome(None, None, [1000.0])
    else if !env.tokenBalance.TokenBalance? then Failed
    else if !env.tx.Built? then Failed
    else if site == GatherSell && !env.blockhashOk then Failed
    else match env.exec
      case Threw => Failed
      case Returned(sig) =>
        if env.balanceAfter.None? then Failed
        else
          var ref := TxRef(sig);
          SwapOutcome(Some(ref), Some(SellEdit(wallet.pubkey, ref, env.balanceAfter.value)), [])
  }

  /** A buy edits the roster exactly when it returns a value, which happens exactly when the
      wallet holds lamports, a transaction was built and the executor returned; the edit
      records the reference returned and the balance in SOL less the amount spent. */
  lemma BuyEditsWhenExecuted(wallet: Keypair, buyAmount: real, env: BuyEnv)
    ensures var o := Buy(wallet, buyAmount, env);
      && (o.edit.Some? <==> o.ret.Some?)
      && (o.ret.Some? <==>
            env.balance.Some? && env.balance.value != 0 && env.tx.Built? && env.exec.Returned?)
      && (o.ret.Some? ==>
            o.edit.value == BuyEdit(wallet.pubkey, o.ret.value,
                                    env.balance.value as real / LamportsPerSol as real - buyAmount))
      && o.slept == []
  {
  }

  /** A buy's result is truthy exactly when the executor returned a non-empty signature; an
      empty signature still edits the roster, storing "" as the reference, and the calling
      loop then counts the attempt as failed. */
  lemma BuyTruthyIffSignature(wallet: Keypair, buyAmount: real, env: BuyEnv)
    ensures var o := Buy(wallet, buyAmount, env);
      && (Truthy(o.ret) <==>
            o.ret.Some? && env.exec.Returned? && env.exec.sig != "")
      && (Truthy(o.ret) ==> o.ret.value == SolscanUrl(env.exec.sig))
      && (o.ret.Some? && env.exec == Returned("") ==>
            !Truthy(o.ret) && o.edit.Some? && o.edit.value.tokenBuyTx == "")
  {
  }

  /** With an empty roster `sell` waits one second and returns null, and nothing else
      happens. */
  lemma SellOnEmptyRoster(site: SellSite, wallet: Keypair, env: SellEnv)
    requires env.rosterSize == 0
    ensures Sell(site, wallet, env) == SwapOutcome(None, None, [1000.0])
  {
  }

  /** A sell edits the roster exactly when it returns a value; the edit stores the raw
      lamport balance read after the swap, not a SOL amount, and truthiness again follows
      the signature. */
  lemma SellEditsWhenExecuted(site: SellSite, wallet: Keypair, env: SellEnv)
    ensures var o := Sell(site, wallet, env);
      && (o.edit.Some? <==> o.ret.Some?)
      && (o.ret.Some? <==>
            && env.rosterSize > 0 && env.tokenBalance.TokenBalance? && env.tx.Built?
            && (site == GatherSell ==> env.blockhashOk)
            && env.exec.Returned? && env.balanceAfter.Some?)
      && (o.ret.Some? ==>
            o.edit.value == SellEdit(wallet.pubkey, o.ret.value, env.balanceAfter.value))
      && (Truthy(o.ret) <==> o.ret.Some? && env.exec.sig != "")
      && (o.slept != [] ==> env.rosterSize == 0)
  {
  }

  /** The two `sell` functions agree except that the gather.ts one gives up, with nothing
      written, when its blockhash fetch fails. */
  lemma GatherSellAgrees(wallet: Keypair, env: SellEnv)
    ensures env.blockhashOk ==> Sell(GatherSell, wallet, env) == Sell(TradingSell, wallet, env)
    ensures !env.blockhashOk ==>
      Sell(GatherSell, wallet, env).edit == None && !Truthy(Sell(GatherSell, wallet, env).ret)
  {
  }
}
