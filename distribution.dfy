/** `distributeSol` of index.ts and bundle.ts: one transaction funds every generated
    wallet from the main wallet, and is attempted up to four times. index.ts waits three
    seconds first and signs against the cached blockhash; bundle.ts fetches a fresh
    blockhash on every attempt. On success the roster of new wallets is saved. */
module Distribution {
  import opened Common
  import opened Settings

  /** The instructions of the funding transaction. */
  datatype Instruction =
    | SetComputeUnitLimit(units: nat)
    | SetComputeUnitPrice(microLamports: nat)
    | Transfer(from: string, to: string, lamports: real)

  /** A generated wallet and the SOL amount it was funded with (`buyAmount` in the source). */
  datatype FundedWallet = FundedWallet(kp: Keypair, buyAmount: real)

  /** The answers met by attempt `k`: whether the blockhash fetch of bundle.ts succeeds, and
      what the executor does (a throw from either is caught and counted as a failed attempt). */
  datatype Network = Network(blockhashOk: nat -> bool, exec: nat -> ExecOutcome)

  /** What a call did: the wallets returned (None for null), the records saved, the funding
      instructions, the attempts made, the blockhash fetches and the delays requested. */
  datatype Distribution = Distribution(
    result: Option<seq<FundedWallet>>,
    saved: Option<seq<WalletRecord>>,
    instructions: seq<Instruction>,
    attempts: nat,
    blockhashFetches: nat,
    slept: seq<real>)

  /** Attempts are numbered from 0 and stop once the number passes this. */
  const MaxDistributionIndex: nat := 3

  /** How many wallets the `for` loop generates: the capped count, none when it is negative. */
  function Generated(c: Config): (n: nat)
    ensures n <= MaxWallets
    ensures WalletCount(c) >= 0 ==> n == WalletCount(c)
  {
    if WalletCount(c) < 0 then 0 else WalletCount(c)
  }

  /** The transfers to the first `n` generated wallets. */
  function Transfers(c: Config, mainKp: Keypair, generated: nat -> Keypair, n: nat): seq<Instruction>
  {
    seq(n, (i: nat) => Transfer(mainKp.pubkey, generated(i).pubkey, FundingAmount(c) * LamportsPerSol as real))
  }

  function Wallets(c: Config, generated: nat -> Keypair, n: nat): seq<FundedWallet>
  {
    seq(n, (i: nat) => FundedWallet(generated(i), FundingAmount(c)))
  }

  /** The roster entry saved for a funded wallet: its balance is the funding plus the fee,
      and it has no buy or sell yet. */
  function Record(c: Config, w: FundedWallet): WalletRecord
  {
    WalletRecord(w.kp.secret, w.kp.pubkey, w.buyAmount + c.additionalFee, None, None)
  }

  function Records(c: Config, ws: seq<FundedWallet>): seq<WalletRecord>
  {
    seq(|ws|, i requires 0 <= i < |ws| => Record(c, ws[i]))
  }

  /** Whether attempt `k` gets through: the executor returned (even ""), after a successful
      blockhash fetch in bundle.ts. */
  predicate Lands(v: Variant, net: Network, k: nat)
  {
    (v == Legacy || net.blockhashOk(k)) && net.exec(k).Returned?
  }

  /** The first attempt from `k` on that gets through, if any does. */
  function FirstLanding(v: Variant, net: Network, k: nat): Option<nat>
    decreases MaxDistributionIndex + 1 - k
  {
    if k > MaxDistributionIndex then None
    else if Lands(v, net, k) then Some(k)
    else FirstLanding(v, net, k + 1)
  }

  function Budget(): seq<Instruction>
  {
    [SetComputeUnitLimit(ComputeUnitLimit), SetComputeUnitPrice(ComputeUnitPrice)]
  }

  /** What `distributeSol(mainKp, distritbutionNum)` does, given the keypairs
      `Keypair.generate()` yields in turn. */
  function DistributionSpec(v: Variant, c: Config, mainKp: Keypair, generated: nat -> Keypair, net: Network): Distribution
  {
    var n := Generated(c);
    var ins := Budget() + Transfers(c, mainKp, generated, n);
    var slept := if v == Legacy then [3000.0] else [];
    match FirstLanding(v, net, 0)
    case None =>
      Distribution(None, None, ins, MaxDistributionIndex + 1,
                   if v == Bundled then MaxDistributionIndex + 1 else 0, slept)
    case Some(k) =>
      var ws := Wallets(c, generated, n);
      Distribution(Some(ws), Some(Records(c, ws)), ins, k + 1, if v == Bundled then k + 1 else 0, slept)
  }

  method DistributeSol(v: Variant, c: Config, mainKp: Keypair, generated: nat -> Keypair, net: Network)
    returns (d: Distribution)
    ensures d == DistributionSpec(v, c, mainKp, generated, net)
  {
    var sendSolTx := [SetComputeUnitLimit(ComputeUnitLimit), SetComputeUnitPrice(ComputeUnitPrice)];
    var wallets: seq<FundedWallet> := [];
    var n := Generated(c);
    for i := 0 to n
      invariant sendSolTx == Budget() + Transfers(c, mainKp, generated, i)
      invariant wallets == Wallets(c, generated, i)
    {
      var solAmount := c.distributionAmount;
      if c.distributionAmount < c.additionalFee + c.buyUpper {
        solAmount := c.additionalFee + c.buyUpper;
      }
      var wallet := generated(i);
      wallets := wallets + [FundedWallet(wallet, solAmount)];
      sendSolTx := sendSolTx + [Transfer(mainKp.pubkey, wallet.pubkey, solAmount * LamportsPerSol as real)];
    }
    var slept: seq<real> := [];
    if v == Legacy {
      slept := [3000.0];
    }
    var index: nat := 0;
    var fetches: nat := 0;
    while true
      invariant index <= MaxDistributionIndex + 1
      invariant FirstLanding(v, net, index) == FirstLanding(v, net, 0)
      invariant fetches == (if v == Bundled then index else 0)
      decreases MaxDistributionIndex + 1 - index
    {
      if index > MaxDistributionIndex {
        return Distribution(None, None, sendSolTx, index, fetches, slept);
      }
      if v == Bundled {
        fetches := fetches + 1;
        if !net.blockhashOk(index) {
          index := index + 1;
          continue;
        }
      }
      var outcome := net.exec(index);
      if outcome.Threw? {
        index := index + 1;
      } else {
        break;
      }
    }
    var data: seq<WalletRecord> := [];
    for i := 0 to |wallets|
      invariant data == Records(c, wallets[..i])
    {
      data := data + [Record(c, wallets[i])];
    }
    assert wallets[..|wallets|] == wallets;
    d := Distribution(Some(wallets), Some(data), sendSolTx, index + 1, fetches, slept);
  }

  /** The search for the first attempt that gets through finds exactly that attempt. */
  lemma {:induction false} FirstLandingFrom(v: Variant, net: Network, k: nat)
    ensures FirstLanding(v, net, k).Some? ==>
      var j := FirstLanding(v, net, k).value;
      k <= j <= MaxDistributionIndex && Lands(v, net, j) && forall i :: k <= i < j ==> !Lands(v, net, i)
    ensures FirstLanding(v, net, k).None? <==> forall i :: k <= i <= MaxDistributionIndex ==> !Lands(v, net, i)
    decreases MaxDistributionIndex + 1 - k
  {
    if k <= MaxDistributionIndex && !Lands(v, net, k) {
      FirstLandingFrom(v, net, k + 1);
    }
  }

  /** The funding transaction holds the two compute-budget instructions and then one
      transfer per generated wallet, in order, each of the funding amount in lamports. */
  lemma FundingInstructions(v: Variant, c: Config, mainKp: Keypair, generated: nat -> Keypair, net: Network)
    ensures var d := DistributionSpec(v, c, mainKp, generated, net);
      && |d.instructions| == 2 + Generated(c)
      && d.instructions[0] == SetComputeUnitLimit(100_000)
      && d.instructions[1] == SetComputeUnitPrice(250_000)
      && (forall i | 0 <= i < Generated(c) ::
            d.instructions[2 + i] == Transfer(mainKp.pubkey, generated(i).pubkey, FundingAmount(c) * 1_000_000_000.0))
      && FundingAmount(c) >= c.additionalFee + c.buyUpper
  {
  }

  /** At most four attempts are made and the call fails exactly when none of them gets
      through; an empty signature counts as getting through. bundle.ts fetches one
      blockhash per attempt, index.ts none, and only index.ts waits first. */
  lemma DistributionAttempts(v: Variant, c: Config, mainKp: Keypair, generated: nat -> Keypair, net: Network)
    ensures var d := DistributionSpec(v, c, mainKp, generated, net);
      && 1 <= d.attempts <= 4
      && (d.result.None? <==> forall k :: 0 <= k <= 3 ==> !Lands(v, net, k))
      && (d.result.None? ==> d.attempts == 4 && d.saved.None?)
      && (d.result.Some? ==> Lands(v, net, d.attempts - 1) && forall k :: 0 <= k < d.attempts - 1 ==> !Lands(v, net, k))
      && d.blockhashFetches == (if v == Bundled then d.attempts else 0)
      && d.slept == (if v == Legacy then [3000.0] else [])
  {
    FirstLandingFrom(v, net, 0);
  }

  /** On success every generated wallet is returned with the funding amount and saved with
      that amount plus the fee as balance and no transaction references. */
  lemma DistributionSaves(v: Variant, c: Config, mainKp: Keypair, generated: nat -> Keypair, net: Network)
    ensures var d := DistributionSpec(v, c, mainKp, generated, net);
      d.result.Some? ==>
        && d.saved.Some? && |d.result.value| == |d.saved.value| == Generated(c)
        && forall i | 0 <= i < Generated(c) ::
             && d.result.value[i] == FundedWallet(generated(i), FundingAmount(c))
             && d.saved.value[i] == WalletRecord(generated(i).secret, generated(i).pubkey,
                                                 FundingAmount(c) + c.additionalFee, None, None)
  {
  }
}
