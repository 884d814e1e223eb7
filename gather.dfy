/** `gather` of gather.ts, the script that winds the bot down: for every roster wallet, in
    order, it tops the wallet up to 0.01 SOL from the main wallet when it holds less,
    waits two seconds, sells and closes every token account holding tokens other than
    wrapped SOL, and finally sweeps what is left, less the rent-exempt minimum and a
    5000-lamport fee, back to the main wallet. An exception abandons the rest of that
    wallet only. Balances are integer lamports. */
module Gather {
  import opened Common
  import opened Swap

  /** 0.01 SOL in lamports, the balance a wallet is topped up to. */
  const MinimumBalance: int := 10_000_000
  /** Lamports kept back for the fee of the sweep transaction. */
  const SweepFee: int := 5000
  /** The wait after the top-up step. */
  const TopUpPause: real := 2000.0
  /** The wrapped-SOL mint, whose accounts are left alone. */
  const NativeMint: string := "So11111111111111111111111111111111111111112"

  /** What the token-balance query of an account does: throw, answer with no UI amount
      (counted as 0), or give the UI amount. */
  datatype UiBalance = UiThrew | UiNull | UiAmount(amount: real)

  /** The answers met for one token account: its address, balance and mint, what the sell
      meets, and whether the close transaction is confirmed (it throws otherwise). */
  datatype TokenAccount = TokenAccount(
    pubkey: string,
    balance: UiBalance,
    mint: string,
    sellEnv: SellEnv,
    closeOk: bool)

  /** The answers met for one wallet, in order: its balance (None when the query throws),
      whether the top-up is confirmed, its token accounts (None when the listing throws),
      the balance after the swaps and the rent-exempt minimum (None when either query
      throws), and whether the sweep is confirmed. */
  datatype WalletEnv = WalletEnv(
    balance: Option<int>,
    topUpOk: bool,
    accounts: Option<seq<TokenAccount>>,
    balanceAfter: Option<int>,
    rentExempt: Option<int>,
    sweepOk: bool)

  /** What the script does to the chain, in order. `Abandon` marks the exception that ends
      the work on a wallet. */
  datatype Action =
    | TopUp(wallet: string, lamports: int)
    | Pause(ms: real)
    | SellAttempt(wallet: string, account: string, outcome: SwapOutcome)
    | Close(account: string)
    | Sweep(wallet: string, lamports: int)
    | Abandon(wallet: string)

  /** `tokenBalInfo?.value?.uiAmount ?? 0` once the query has answered. */
  function UiValue(b: UiBalance): real
    requires !b.UiThrew?
  {
    if b.UiNull? then 0.0 else b.amount
  }

  /** Whether an account is sold and closed: it holds tokens and they are not wrapped SOL. */
  predicate Drained(a: TokenAccount)
    requires !a.balance.UiThrew?
  {
    UiValue(a.balance) > 0.0 && a.mint != NativeMint
  }

  /** The actions for one token account, and whether the wallet's work goes on after it. */
  datatype Steps = Steps(actions: seq<Action>, ok: bool)

  function AccountSteps(w: Keypair, a: TokenAccount): Steps
  {
    if a.balance.UiThrew? then Steps([], false)
    else if !Drained(a) then Steps([], true)
    else
      var sold := SellAttempt(w.pubkey, a.pubkey, Swap.Sell(GatherSell, w, a.sellEnv));
      if a.closeOk then Steps([sold, Close(a.pubkey)], true) else Steps([sold], false)
  }

  /** The token-account loop from account `k` on, after `log`. */
  function AccountsFrom(w: Keypair, accounts: seq<TokenAccount>, k: nat, log: seq<Action>): Steps
    decreases |accounts| - k
  {
    if k >= |accounts| then Steps(log, true)
    else
      var s := AccountSteps(w, accounts[k]);
      if !s.ok then Steps(log + s.actions, false)
      else AccountsFrom(w, accounts, k + 1, log + s.actions)
  }

  /** The body of the `try` block for one roster entry. */
  function WalletActions(mainKp: Keypair, entry: WalletRecord, fromSecret: string -> Keypair, env: WalletEnv): seq<Action>
  {
    var w := fromSecret(entry.privateKey);
    match env.balance
    case None => [Abandon(w.pubkey)]
    case Some(current) =>
      if current < MinimumBalance && !env.topUpOk then [Abandon(w.pubkey)]
      else
        var topUp := if current < MinimumBalance then [TopUp(w.pubkey, MinimumBalance - current)] else [];
        var before := topUp + [Pause(TopUpPause)];
        match env.accounts
        case None => before + [Abandon(w.pubkey)]
        case Some(accounts) =>
          var s := AccountsFrom(w, accounts, 0, before);
          s.actions + [Ending(w, env, s.ok)]
  }

  /** The last action for a wallet whose token-account loop finished (`ok`) or threw: the
      sweep when the loop finished, both queries answered, the amount is not negative and
      the transfer is confirmed; the exception otherwise. */
  function Ending(w: Keypair, env: WalletEnv, ok: bool): Action
  {
    if !ok || env.balanceAfter.None? || env.rentExempt.None? || !env.sweepOk then Abandon(w.pubkey)
    else
      var amount := env.balanceAfter.value - env.rentExempt.value - SweepFee;
      if amount < 0 then Abandon(w.pubkey) else Sweep(w.pubkey, amount)
  }

  /** The outer loop from roster entry `i` on, after `log`. */
  function GatherFrom(mainKp: Keypair, roster: seq<WalletRecord>, fromSecret: string -> Keypair,
                      envs: nat -> WalletEnv, i: nat, log: seq<Action>): seq<Action>
    decreases |roster| - i
  {
    if i >= |roster| then log
    else GatherFrom(mainKp, roster, fromSecret, envs, i + 1, log + WalletActions(mainKp, roster[i], fromSecret, envs(i)))
  }

  function GatherSpec(mainKp: Keypair, roster: seq<WalletRecord>, fromSecret: string -> Keypair,
                      envs: nat -> WalletEnv): seq<Action>
  {
    GatherFrom(mainKp, roster, fromSecret, envs, 0, [])
  }

  /** `gather()`, given the roster `readJson` returns, the keypair decoder and the answers
      met for the wallet at each roster position. */
  method Gather(mainKp: Keypair, roster: seq<WalletRecord>, fromSecret: string -> Keypair, envs: nat -> WalletEnv)
    returns (log: seq<Action>)
    ensures log == GatherSpec(mainKp, roster, fromSecret, envs)
  {
    log := [];
    if |roster| == 0 {
      return;
    }
    for i := 0 to |roster|
      invariant GatherFrom(mainKp, roster, fromSecret, envs, i, log) == GatherSpec(mainKp, roster, fromSecret, envs)
    {
      var actions := GatherWallet(mainKp, roster[i], fromSecret, envs(i));
      log := log + actions;
    }
  }

  /** One iteration of the roster loop; an exception ends it with `Abandon`. */
  method GatherWallet(mainKp: Keypair, entry: WalletRecord, fromSecret: string -> Keypair, env: WalletEnv)
    returns (actions: seq<Action>)
    ensures actions == WalletActions(mainKp, entry, fromSecret, env)
  {
    var wallet := fromSecret(entry.privateKey);
    if env.balance.None? {
      return [Abandon(wallet.pubkey)];
    }
    var currentBalance := env.balance.value;
    actions := [];
    if currentBalance < MinimumBalance {
      var topUpAmount := MinimumBalance - currentBalance;
      if !env.topUpOk {
        return [Abandon(wallet.pubkey)];
      }
      actions := actions + [TopUp(wallet.pubkey, topUpAmount)];
    }
    actions := actions + [Pause(TopUpPause)];
    if env.accounts.None? {
      return actions + [Abandon(wallet.pubkey)];
    }
    var accounts := env.accounts.value;
    ghost var before := actions;
    assert before == (if currentBalance < MinimumBalance then [TopUp(wallet.pubkey, MinimumBalance - currentBalance)] else [])
                     + [Pause(TopUpPause)];
    for k := 0 to |accounts|
      invariant AccountsFrom(wallet, accounts, k, actions) == AccountsFrom(wallet, accounts, 0, before)
    {
      var account := accounts[k];
      if account.balance.UiThrew? {
        assert actions + [] == actions;
        return actions + [Abandon(wallet.pubkey)];
      }
      var tokenBalance := UiValue(account.balance);
      if tokenBalance > 0.0 {
        if account.mint == NativeMint {
          assert actions + [] == actions;
          continue;
        }
        ghost var prior := actions;
        var sellTx := Swap.Sell(GatherSell, wallet, account.sellEnv);
        actions := actions + [SellAttempt(wallet.pubkey, account.pubkey, sellTx)];
        if !account.closeOk {
          return actions + [Abandon(wallet.pubkey)];
        }
        actions := actions + [Close(account.pubkey)];
        assert actions == prior + [SellAttempt(wallet.pubkey, account.pubkey, sellTx), Close(account.pubkey)];
      } else {
        assert actions + [] == actions;
      }
    }
    if env.balanceAfter.None? || env.rentExempt.None? || !env.sweepOk {
      return actions + [Abandon(wallet.pubkey)];
    }
    var balanceAfterSwaps := env.balanceAfter.value;
    var rentExempt := env.rentExempt.value;
    var lamports := balanceAfterSwaps - rentExempt - SweepFee;
    if lamports < 0 {
      // a transfer of a negative amount is refused, which throws like any other failure
      return actions + [Abandon(wallet.pubkey)];
    }
    actions := actions + [Sweep(wallet.pubkey, lamports)];
  }

  // ---------------------------------------------------------------------------
  // what the script promises
  // ---------------------------------------------------------------------------

  /** The wallet each action ending a wallet's work belongs to, in order. */
  function Endings(xs: seq<Action>): seq<string>
  {
    if xs == [] then []
    else (if xs[0].Sweep? || xs[0].Abandon? then [xs[0].wallet] else []) + Endings(xs[1..])
  }

  lemma {:induction false} EndingsAppend(xs: seq<Action>, ys: seq<Action>)
    ensures Endings(xs + ys) == Endings(xs) + Endings(ys)
    decreases |xs|
  {
    if xs != [] {
      assert (xs + ys)[0] == xs[0];
      assert (xs + ys)[1..] == xs[1..] + ys;
      EndingsAppend(xs[1..], ys);
    } else {
      assert xs + ys == ys;
    }
  }

  /** The actions of the token-account loop are the log it started from followed by sells
      and closes only. */
  lemma {:induction false} AccountsOnlySellAndClose(w: Keypair, accounts: seq<TokenAccount>, k: nat, log: seq<Action>)
    ensures var s := AccountsFrom(w, accounts, k, log);
      && log <= s.actions
      && forall j | |log| <= j < |s.actions| :: s.actions[j].SellAttempt? || s.actions[j].Close?
    decreases |accounts| - k
  {
    if k < |accounts| {
      var st := AccountSteps(w, accounts[k]);
      if st.ok {
        AccountsOnlySellAndClose(w, accounts, k + 1, log + st.actions);
      }
    }
  }

  lemma {:induction false} EndingsOfSellsAndCloses(xs: seq<Action>)
    requires forall j | 0 <= j < |xs| :: xs[j].SellAttempt? || xs[j].Close?
    ensures Endings(xs) == []
    decreases |xs|
  {
    if xs != [] {
      EndingsOfSellsAndCloses(xs[1..]);
    }
  }

  /** Each wallet's work ends in exactly one sweep or abandonment, for that wallet, as its
      last action. */
  lemma OneEndingPerWallet(mainKp: Keypair, entry: WalletRecord, fromSecret: string -> Keypair, env: WalletEnv)
    ensures var xs := WalletActions(mainKp, entry, fromSecret, env);
      && Endings(xs) == [fromSecret(entry.privateKey).pubkey]
      && (xs[|xs| - 1].Sweep? || xs[|xs| - 1].Abandon?)
  {
    var w := fromSecret(entry.privateKey);
    var xs := WalletActions(mainKp, entry, fromSecret, env);
    if env.balance.Some? && !(env.balance.value < MinimumBalance && !env.topUpOk) {
      var current := env.balance.value;
      var topUp := if current < MinimumBalance then [TopUp(w.pubkey, MinimumBalance - current)] else [];
      var before := topUp + [Pause(TopUpPause)];
      assert Endings(before) == [] by {
        EndingsAppend(topUp, [Pause(TopUpPause)]);
      }
      var last := xs[|xs| - 1];
      var body := xs[..|xs| - 1];
      assert xs == body + [last];
      if env.accounts.None? {
        assert body == before;
      } else {
        var s := AccountsFrom(w, env.accounts.value, 0, before);
        assert body == s.actions;
        AccountsOnlySellAndClose(w, env.accounts.value, 0, before);
        var tail := s.actions[|before|..];
        assert s.actions == before + tail;
        EndingsOfSellsAndCloses(tail);
        EndingsAppend(before, tail);
      }
      EndingsAppend(body, [last]);
    }
  }

  /** The nested form of the roster loop: each wallet's actions, in roster order. */
  function Sequential(mainKp: Keypair, roster: seq<WalletRecord>, fromSecret: string -> Keypair,
                      envs: nat -> WalletEnv, i: nat): seq<Action>
    decreases |roster| - i
  {
    if i >= |roster| then []
    else WalletActions(mainKp, roster[i], fromSecret, envs(i)) + Sequential(mainKp, roster, fromSecret, envs, i + 1)
  }

  lemma {:induction false} GatherFromSequential(mainKp: Keypair, roster: seq<WalletRecord>, fromSecret: string -> Keypair,
                                               envs: nat -> WalletEnv, i: nat, log: seq<Action>)
    ensures GatherFrom(mainKp, roster, fromSecret, envs, i, log) == log + Sequential(mainKp, roster, fromSecret, envs, i)
    decreases |roster| - i
  {
    if i < |roster| {
      var w := WalletActions(mainKp, roster[i], fromSecret, envs(i));
      GatherFromSequential(mainKp, roster, fromSecret, envs, i + 1, log + w);
      assert (log + w) + Sequential(mainKp, roster, fromSecret, envs, i + 1)
          == log + (w + Sequential(mainKp, roster, fromSecret, envs, i + 1));
    }
  }

  lemma {:induction false} SequentialEndings(mainKp: Keypair, roster: seq<WalletRecord>, fromSecret: string -> Keypair,
                                            envs: nat -> WalletEnv, i: nat)
    requires i <= |roster|
    ensures var ends := Endings(Sequential(mainKp, roster, fromSecret, envs, i));
      && |ends| == |roster| - i
      && forall j | 0 <= j < |ends| :: ends[j] == fromSecret(roster[i + j].privateKey).pubkey
    decreases |roster| - i
  {
    if i < |roster| {
      var here := WalletActions(mainKp, roster[i], fromSecret, envs(i));
      var later := Sequential(mainKp, roster, fromSecret, envs, i + 1);
      OneEndingPerWallet(mainKp, roster[i], fromSecret, envs(i));
      SequentialEndings(mainKp, roster, fromSecret, envs, i + 1);
      EndingsAppend(here, later);
      var ends := Endings(here + later);
      forall j | 0 <= j < |ends|
        ensures ends[j] == fromSecret(roster[i + j].privateKey).pubkey
      {
        if j > 0 {
          assert ends[j] == Endings(later)[j - 1];
        }
      }
    }
  }

  /** Every roster wallet is worked on, in roster order, one after the other: the script's
      actions are the wallets' actions concatenated, and each wallet's work ends, by a sweep
      or by an exception, before the next wallet's begins. An empty roster does nothing. */
  lemma GatherVisitsEveryWallet(mainKp: Keypair, roster: seq<WalletRecord>, fromSecret: string -> Keypair,
                                envs: nat -> WalletEnv)
    ensures GatherSpec(mainKp, roster, fromSecret, envs) == Sequential(mainKp, roster, fromSecret, envs, 0)
    ensures var ends := Endings(GatherSpec(mainKp, roster, fromSecret, envs));
      && |ends| == |roster|
      && forall j | 0 <= j < |roster| :: ends[j] == fromSecret(roster[j].privateKey).pubkey
    ensures |roster| == 0 ==> GatherSpec(mainKp, roster, fromSecret, envs) == []
  {
    GatherFromSequential(mainKp, roster, fromSecret, envs, 0, []);
    assert [] + Sequential(mainKp, roster, fromSecret, envs, 0) == Sequential(mainKp, roster, fromSecret, envs, 0);
    SequentialEndings(mainKp, roster, fromSecret, envs, 0);
  }

  /** A wallet is topped up exactly when its balance is below 0.01 SOL (and the top-up is
      confirmed), by the difference, so that it then holds exactly 0.01 SOL; the top-up
      is the wallet's first action. */
  lemma TopUpToMinimum(mainKp: Keypair, entry: WalletRecord, fromSecret: string -> Keypair, env: WalletEnv)
    ensures var xs := WalletActions(mainKp, entry, fromSecret, env);
      && (xs[0].TopUp? <==> env.balance.Some? && env.balance.value < MinimumBalance && env.topUpOk)
      && (xs[0].TopUp? ==> xs[0].lamports > 0 && env.balance.value + xs[0].lamports == MinimumBalance)
      && (forall j | 0 < j < |xs| :: !xs[j].TopUp?)
  {
    var w := fromSecret(entry.privateKey);
    var xs := WalletActions(mainKp, entry, fromSecret, env);
    if env.balance.Some? && !(env.balance.value < MinimumBalance && !env.topUpOk) && env.accounts.Some? {
      var current := env.balance.value;
      var topUp := if current < MinimumBalance then [TopUp(w.pubkey, MinimumBalance - current)] else [];
      var before := topUp + [Pause(TopUpPause)];
      AccountsOnlySellAndClose(w, env.accounts.value, 0, before);
    }
  }

  /** Whether every sell in `xs` is directly followed by the close of the same account. */
  ghost predicate Closed(xs: seq<Action>)
  {
    forall j | 0 <= j < |xs| && xs[j].SellAttempt? :: j + 1 < |xs| && xs[j + 1] == Close(xs[j].account)
  }

  lemma {:induction false} AccountsCloseAfterSell(w: Keypair, accounts: seq<TokenAccount>, k: nat, log: seq<Action>)
    requires Closed(log)
    ensures var s := AccountsFrom(w, accounts, k, log);
      && (s.ok ==> Closed(s.actions))
      && (!s.ok ==> Closed(s.actions) || (s.actions[|s.actions| - 1].SellAttempt? && Closed(s.actions[..|s.actions| - 1])))
    decreases |accounts| - k
  {
    if k < |accounts| {
      var st := AccountSteps(w, accounts[k]);
      var next := log + st.actions;
      if st.actions != [] {
        if st.ok {
          assert Closed(next);
        } else {
          assert next[..|next| - 1] == log;
        }
      } else {
        assert next == log;
      }
      if st.ok {
        AccountsCloseAfterSell(w, accounts, k + 1, next);
      }
    }
  }

  /** Whether every sell in `xs` is followed by the close of the same account or by the
      abandonment of the wallet. */
  ghost predicate FollowedUp(xs: seq<Action>)
  {
    forall j | 0 <= j < |xs| && xs[j].SellAttempt? ::
      j + 1 < |xs| && (xs[j + 1] == Close(xs[j].account) || xs[j + 1].Abandon?)
  }

  lemma AbandonAfterOpenSell(body: seq<Action>, last: Action)
    requires last.Sweep? || last.Abandon?
    requires Closed(body) || (last.Abandon? && |body| > 0 && Closed(body[..|body| - 1]))
    ensures FollowedUp(body + [last])
  {
    var xs := body + [last];
    forall j | 0 <= j < |xs| && xs[j].SellAttempt?
      ensures j + 1 < |xs| && (xs[j + 1] == Close(xs[j].account) || xs[j + 1].Abandon?)
    {
      if j < |body| - 1 && !Closed(body) {
        assert body[..|body| - 1][j] == body[j];
      }
    }
  }

  /** Every token account that is sold is closed right after the sell, whether or not the
      sell succeeded, unless the close throws, which abandons the wallet there. */
  lemma CloseFollowsEverySell(mainKp: Keypair, entry: WalletRecord, fromSecret: string -> Keypair, env: WalletEnv)
    ensures FollowedUp(WalletActions(mainKp, entry, fromSecret, env))
  {
    var w := fromSecret(entry.privateKey);
    var xs := WalletActions(mainKp, entry, fromSecret, env);
    if env.balance.Some? && !(env.balance.value < MinimumBalance && !env.topUpOk) && env.accounts.Some? {
      var current := env.balance.value;
      var topUp := if current < MinimumBalance then [TopUp(w.pubkey, MinimumBalance - current)] else [];
      var before := topUp + [Pause(TopUpPause)];
      AccountsCloseAfterSell(w, env.accounts.value, 0, before);
      var s := AccountsFrom(w, env.accounts.value, 0, before);
      assert xs == s.actions + [xs[|xs| - 1]];
      OneEndingPerWallet(mainKp, entry, fromSecret, env);
      AbandonAfterOpenSell(s.actions, xs[|xs| - 1]);
    }
  }

  /** A token account is sold and closed only when it holds tokens that are not wrapped
      SOL; an empty or wrapped-SOL account is passed over with nothing done. */
  lemma AccountsSkipped(w: Keypair, a: TokenAccount)
    ensures !a.balance.UiThrew? && !Drained(a) ==> AccountSteps(w, a) == Steps([], true)
    ensures (AccountSteps(w, a).actions != []) <==> !a.balance.UiThrew? && UiValue(a.balance) > 0.0 && a.mint != NativeMint
    ensures AccountSteps(w, a).actions != [] ==>
      AccountSteps(w, a).actions[0] == SellAttempt(w.pubkey, a.pubkey, Swap.Sell(GatherSell, w, a.sellEnv))
  {
  }

  /** The sweep sends back the balance after the swaps less the rent-exempt minimum and the
      5000-lamport fee, and it happens only when every earlier step went through and that
      amount is not negative; a negative amount abandons the wallet instead. */
  lemma SweepLeavesRentAndFee(mainKp: Keypair, entry: WalletRecord, fromSecret: string -> Keypair, env: WalletEnv)
    ensures var xs := WalletActions(mainKp, entry, fromSecret, env);
      xs[|xs| - 1].Sweep? ==>
        && env.balance.Some? && env.accounts.Some? && env.sweepOk
        && env.balanceAfter.Some? && env.rentExempt.Some?
        && xs[|xs| - 1] == Sweep(fromSecret(entry.privateKey).pubkey, env.balanceAfter.value - env.rentExempt.value - 5000)
        && xs[|xs| - 1].lamports + env.rentExempt.value + SweepFee == env.balanceAfter.value
        && xs[|xs| - 1].lamports >= 0
    ensures var xs := WalletActions(mainKp, entry, fromSecret, env);
      (env.balanceAfter.Some? && env.rentExempt.Some? && env.balanceAfter.value < env.rentExempt.value + SweepFee)
        ==> !xs[|xs| - 1].Sweep?
  {
  }
}
