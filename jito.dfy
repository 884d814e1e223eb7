/** The block-builder bundle coordinator of executor/jito.ts: `bundle` cuts a transaction
    list into triples, `bull_dozer` retries one triple until the block builder accepts it or
    three exceptions have been caught, `build_bundle` picks a tip account and assembles a
    bundle, and `onBundleResult` turns push notifications into a resolve-once promise.

    The network is an oracle: every `bull_dozer` attempt is described by an `Attempt` value,
    and the attempts a model run may observe are limited by a horizon, because the source
    loop is not bounded when attempts time out. */
module Jito {
  import opened Common

  /** `bundle` submits transactions in groups of this size. */
  const GroupSize: nat := 3
  /** `bull_dozer` gives up after this many caught exceptions. */
  const MaxRetries: nat := 3
  /** Capacity given to `new Bundle([], ...)`: a group of three plus the tip. */
  const BundleLimit: nat := 4
  /** Only tip accounts 0 through 3 are ever chosen. */
  const MaxTipIndex: nat := 3

  // ---------------------------------------------------------------------------
  // onBundleResult
  // ---------------------------------------------------------------------------

  /** A notification pushed by the block builder: a bundle result carrying the accepted and
      rejected flags, or a call of the error handler. */
  datatype BundleEvent = BundleResult(accepted: bool, rejected: bool) | StreamError

  predicate Accepts(e: BundleEvent)
  {
    e.BundleResult? && e.accepted
  }

  /** The closure state of one `onBundleResult` call: the flags `first` and `isResolved`, and
      the value the returned promise has settled with (only the first `resolve` counts). */
  class BundleResultListener {
    var first: int
    var isResolved: bool
    var settled: Option<int>

    ghost predicate Valid()
      reads this
    {
      && 0 <= first <= 1
      && (isResolved <==> settled.Some?)
      && (settled.Some? ==> settled.value == first)
      && (first == 1 ==> isResolved)
    }

    constructor ()
      ensures Valid()
      ensures first == 0 && !isResolved && settled == None
    {
      first := 0;
      isResolved := false;
      settled := None;
    }

    /** The promise's `resolve`: a second call has no effect. */
    method Resolve(v: int)
      modifies this`settled
      ensures settled == if old(settled).None? then Some(v) else old(settled)
    {
      if settled.None? {
        settled := Some(v);
      }
    }

    /** The success handler: once resolved every notification is ignored; otherwise an
        accepted result resolves with 1, and a rejected one changes nothing. */
    method OnResult(accepted: bool, rejected: bool)
      requires Valid()
      modifies this
      ensures Valid()
      ensures old(isResolved) || !accepted ==>
        first == old(first) && isResolved == old(isResolved) && settled == old(settled)
      ensures !old(isResolved) && accepted ==>
        first == 1 && isResolved && settled == Some(1)
    {
      if isResolved {
        return;
      }
      if accepted {
        first := first + 1;
        isResolved := true;
        Resolve(first);
      }
      // a rejected result deliberately leaves the promise pending
    }

    /** The 30-second timer: resolves with the current `first` (0 unless a result was
        accepted, in which case the promise has already settled). */
    method OnTimeout()
      requires Valid()
      modifies this
      ensures Valid()
      ensures first == old(first) && isResolved
      ensures settled == if old(settled).None? then Some(0) else old(settled)
    {
      Resolve(first);
      isResolved := true;
    }
  }

  /** The value `onBundleResult` resolves with when `before` holds the notifications that
      arrive before its timer fires. */
  function ResolvedValue(before: seq<BundleEvent>): (v: int)
  {
    if exists k :: 0 <= k < |before| && Accepts(before[k]) then 1 else 0
  }

  /** Runs one `onBundleResult` subscription: the notifications in `before` arrive before the
      timer, those in `after` arrive once it has fired. The promise settles with 1 exactly
      when an accepted result came before the timer, and with 0 otherwise; the error handler
      and everything after the timer leave it alone. */
  method AwaitBundleResult(before: seq<BundleEvent>, after: seq<BundleEvent>) returns (v: int)
    ensures v == ResolvedValue(before)
    ensures v == 1 <==> exists k :: 0 <= k < |before| && Accepts(before[k])
    ensures v == 0 <==> forall k :: 0 <= k < |before| ==> !Accepts(before[k])
  {
    var listener := new BundleResultListener();
    var i := 0;
    while i < |before|
      invariant 0 <= i <= |before|
      invariant listener.Valid()
      invariant listener.settled ==
        if exists k :: 0 <= k < i && Accepts(before[k]) then Some(1) else None
    {
      match before[i] {
        case BundleResult(accepted, rejected) =>
          listener.OnResult(accepted, rejected);
        case StreamError =>
          // the error handler does nothing
      }
      i := i + 1;
    }
    listener.OnTimeout();
    var j := 0;
    ghost var settledAtTimer := listener.settled;
    while j < |after|
      invariant 0 <= j <= |after|
      invariant listener.Valid() && listener.isResolved
      invariant listener.settled == settledAtTimer
    {
      match after[j] {
        case BundleResult(accepted, rejected) =>
          listener.OnResult(accepted, rejected);
        case StreamError =>
      }
      j := j + 1;
    }
    v := listener.settled.value;
  }

  // ---------------------------------------------------------------------------
  // build_bundle
  // ---------------------------------------------------------------------------

  /** `Math.min(Math.floor(Math.random() * accounts.length), 3)`. */
  function TipIndex(r: real, count: nat): (k: int)
    requires 0.0 <= r < 1.0
    ensures count > 0 ==> 0 <= k < count && k <= MaxTipIndex
    ensures count == 0 ==> k == 0
  {
    var scaled := r * count as real;
    assert scaled < count as real || count == 0;
    Min(scaled.Floor, MaxTipIndex)
  }

  /** The tip transaction `addTipTx` appends: paid by `payer` to the chosen tip account,
      bound to the fetched blockhash. */
  datatype TipTx = TipTx(payer: Keypair, tipAccount: string, blockhash: string)

  /** A bundle handed to `sendBundle`: its capacity, its transactions and its tip. */
  datatype BuiltBundle = BuiltBundle(limit: nat, txs: seq<Tx>, tip: TipTx)

  /** What one `bull_dozer` attempt meets, in the order `build_bundle` and `onBundleResult`
      ask for it: the tip accounts (None when `getTipAccounts` throws), the `Math.random()`
      draw, the latest blockhash (None when the fetch throws), whether `addTipTx` returned a
      bundle rather than an Error, whether `sendBundle` resolved, and the result
      notifications before and after the 30-second timer. */
  datatype Attempt = Attempt(
    tipAccounts: Option<seq<string>>,
    r: real,
    blockhash: Option<string>,
    tipAdded: bool,
    sent: bool,
    before: seq<BundleEvent>,
    after: seq<BundleEvent>)

  ghost predicate RandomInRange(attempt: nat -> Attempt)
  {
    forall k :: 0.0 <= attempt(k).r < 1.0
  }

  /** `build_bundle` up to `sendBundle`: None when one of its steps throws (no tip accounts
      to fetch, an index past the end of an empty list, no blockhash, an Error from
      `addTipTx`). */
  function BuildBundle(group: seq<Tx>, payer: Keypair, a: Attempt): (b: Option<BuiltBundle>)
    requires 0.0 <= a.r < 1.0
    ensures b.Some? <==>
      a.tipAccounts.Some? && |a.tipAccounts.value| > 0 && a.blockhash.Some? && a.tipAdded
    ensures b.Some? ==>
      && b.value.limit == BundleLimit
      && b.value.txs == group
      && b.value.tip.payer == payer
      && b.value.tip.blockhash == a.blockhash.value
      && b.value.tip.tipAccount == a.tipAccounts.value[TipIndex(a.r, |a.tipAccounts.value|)]
  {
    if a.tipAccounts.None? then None
    else
      var accounts := a.tipAccounts.value;
      var k := TipIndex(a.r, |accounts|);
      if k >= |accounts| then None
      else if a.blockhash.None? then None
      else if !a.tipAdded then None
      else Some(BuiltBundle(BundleLimit, group, TipTx(payer, accounts[k], a.blockhash.value)))
  }

  /** How one attempt ends: an exception caught by `bull_dozer`, a result of 0 (the timer
      fired with nothing accepted), or a result of 1. */
  datatype AttemptKind = Raised | TimedOut | Landed

  function Classify(group: seq<Tx>, payer: Keypair, a: Attempt): AttemptKind
    requires 0.0 <= a.r < 1.0
  {
    match BuildBundle(group, payer, a)
    case None => Raised
    case Some(_) =>
      if !a.sent then Raised
      else if ResolvedValue(a.before) != 0 then Landed
      else TimedOut
  }

  /** The tip bundles recorded so far, extended by the one this attempt built, if any. */
  function Tipped(group: seq<Tx>, payer: Keypair, a: Attempt, tips: seq<BuiltBundle>): seq<BuiltBundle>
    requires 0.0 <= a.r < 1.0
  {
    match BuildBundle(group, payer, a)
    case None => tips
    case Some(b) => tips + [b]
  }

  // ---------------------------------------------------------------------------
  // bull_dozer
  // ---------------------------------------------------------------------------

  /** What a promise-returning call has done by the end of an observation: still running,
      or resolved with a boolean. */
  datatype Verdict = Running | Resolved(ok: bool)

  /** The observable outcome of `bull_dozer` on a group: its verdict (Running when the horizon
      ends with the loop still retrying), the attempts made, the `retries` counter, and the
      bundles for which a tip transaction was built. */
  datatype DozerRun = DozerRun(verdict: Verdict, attempts: nat, retries: nat, tips: seq<BuiltBundle>)

  /** The `bull_dozer` loop from attempt `k` with `retries` exceptions already caught. */
  function DozerFrom(group: seq<Tx>, payer: Keypair, attempt: nat -> Attempt, horizon: nat,
                     k: nat, retries: nat, tips: seq<BuiltBundle>): DozerRun
    requires RandomInRange(attempt)
    decreases horizon - k
  {
    if retries >= MaxRetries then DozerRun(Resolved(false), k, retries, tips)
    else if k >= horizon then DozerRun(Running, k, retries, tips)
    else
      var a := attempt(k);
      var tips' := Tipped(group, payer, a, tips);
      match Classify(group, payer, a)
      case Raised => DozerFrom(group, payer, attempt, horizon, k + 1, retries + 1, tips')
      case Landed => DozerRun(Resolved(true), k + 1, retries, tips')
      case TimedOut => DozerFrom(group, payer, attempt, horizon, k + 1, retries, tips')
  }

  function Dozer(group: seq<Tx>, payer: Keypair, attempt: nat -> Attempt, horizon: nat): DozerRun
    requires RandomInRange(attempt)
  {
    DozerFrom(group, payer, attempt, horizon, 0, 0, [])
  }

  /** `bull_dozer(txs, keypair)`, observed for at most `horizon` attempts. */
  method BullDozer(group: seq<Tx>, payer: Keypair, attempt: nat -> Attempt, horizon: nat)
    returns (run: DozerRun)
    requires RandomInRange(attempt)
    ensures run == Dozer(group, payer, attempt, horizon)
  {
    var retries := 0;
    var k := 0;
    var tips: seq<BuiltBundle> := [];
    while retries < MaxRetries
      invariant k <= horizon
      invariant DozerFrom(group, payer, attempt, horizon, k, retries, tips) == Dozer(group, payer, attempt, horizon)
      decreases horizon - k
    {
      if k == horizon {
        // the observation ends while the loop is still retrying
        return DozerRun(Running, k, retries, tips);
      }
      var a := attempt(k);
      k := k + 1;
      var built := BuildBundle(group, payer, a);
      if built.None? {
        retries := retries + 1;
        continue;
      }
      tips := tips + [built.value];
      if !a.sent {
        retries := retries + 1;
        continue;
      }
      var bundleResult := AwaitBundleResult(a.before, a.after);
      if bundleResult != 0 {
        return DozerRun(Resolved(true), k, retries, tips);
      }
    }
    run := DozerRun(Resolved(false), k, retries, tips);
  }

  /** Number of attempts among the first `k` that end in a caught exception. */
  function RaisedBefore(group: seq<Tx>, payer: Keypair, attempt: nat -> Attempt, k: nat): nat
    requires RandomInRange(attempt)
  {
    if k == 0 then 0
    else RaisedBefore(group, payer, attempt, k - 1)
         + (if Classify(group, payer, attempt(k - 1)) == Raised then 1 else 0)
  }

  /** Number of attempts among the first `k` that got as far as a tip transaction. */
  function TipsBefore(group: seq<Tx>, payer: Keypair, attempt: nat -> Attempt, k: nat): nat
    requires RandomInRange(attempt)
  {
    if k == 0 then 0
    else TipsBefore(group, payer, attempt, k - 1)
         + (if BuildBundle(group, payer, attempt(k - 1)).Some? then 1 else 0)
  }

  lemma {:induction false} RaisedBeforeMonotone(group: seq<Tx>, payer: Keypair, attempt: nat -> Attempt, j: nat, k: nat)
    requires RandomInRange(attempt)
    requires j <= k
    ensures RaisedBefore(group, payer, attempt, j) <= RaisedBefore(group, payer, attempt, k)
    decreases k - j
  {
    if j < k {
      RaisedBeforeMonotone(group, payer, attempt, j, k - 1);
    }
  }

  /** `retries` counts exactly the caught exceptions among the attempts made. */
  lemma {:induction false} DozerCounts(group: seq<Tx>, payer: Keypair, attempt: nat -> Attempt, horizon: nat,
                                       k: nat, retries: nat, tips: seq<BuiltBundle>)
    requires RandomInRange(attempt)
    requires k <= horizon
    requires retries == RaisedBefore(group, payer, attempt, k)
    ensures var r := DozerFrom(group, payer, attempt, horizon, k, retries, tips);
      && k <= r.attempts <= horizon
      && r.retries == RaisedBefore(group, payer, attempt, r.attempts)
    decreases horizon - k
  {
    if retries >= MaxRetries || k >= horizon {
      return;
    }
    var a := attempt(k);
    var tips' := Tipped(group, payer, attempt(k), tips);
    match Classify(group, payer, a)
    case Raised =>
      assert RaisedBefore(group, payer, attempt, k + 1) == retries + 1;
      DozerCounts(group, payer, attempt, horizon, k + 1, retries + 1, tips');
    case TimedOut =>
      assert RaisedBefore(group, payer, attempt, k + 1) == retries;
      DozerCounts(group, payer, attempt, horizon, k + 1, retries, tips');
    case Landed =>
  }

  /** One tip transaction is built per attempt that gets that far. */
  lemma {:induction false} DozerTipCount(group: seq<Tx>, payer: Keypair, attempt: nat -> Attempt, horizon: nat,
                                         k: nat, retries: nat, tips: seq<BuiltBundle>)
    requires RandomInRange(attempt)
    requires |tips| == TipsBefore(group, payer, attempt, k)
    ensures var r := DozerFrom(group, payer, attempt, horizon, k, retries, tips);
      |r.tips| == TipsBefore(group, payer, attempt, r.attempts)
    decreases horizon - k
  {
    if retries >= MaxRetries || k >= horizon {
      return;
    }
    var a := attempt(k);
    var tips' := Tipped(group, payer, attempt(k), tips);
    assert |tips'| == TipsBefore(group, payer, attempt, k + 1);
    match Classify(group, payer, a)
    case Raised => DozerTipCount(group, payer, attempt, horizon, k + 1, retries + 1, tips');
    case TimedOut => DozerTipCount(group, payer, attempt, horizon, k + 1, retries, tips');
    case Landed =>
  }

  /** A verdict of true comes from the first landed attempt; without it no attempt landed;
      false comes exactly when `retries` reached three; no verdict means the horizon ran out
      with fewer than three exceptions caught. */
  lemma {:induction false} DozerVerdict(group: seq<Tx>, payer: Keypair, attempt: nat -> Attempt, horizon: nat,
                                        k: nat, retries: nat, tips: seq<BuiltBundle>)
    requires RandomInRange(attempt)
    requires k <= horizon && retries <= MaxRetries
    requires forall j :: 0 <= j < k ==> Classify(group, payer, attempt(j)) != Landed
    ensures var r := DozerFrom(group, payer, attempt, horizon, k, retries, tips);
      && (r.verdict == Resolved(true) ==>
            && r.attempts > 0
            && Classify(group, payer, attempt(r.attempts - 1)) == Landed
            && r.retries < MaxRetries
            && forall j :: 0 <= j < r.attempts - 1 ==> Classify(group, payer, attempt(j)) != Landed)
      && (r.verdict != Resolved(true) ==>
            forall j :: 0 <= j < r.attempts ==> Classify(group, payer, attempt(j)) != Landed)
      && (r.verdict == Resolved(false) <==> r.retries == MaxRetries)
      && (r.verdict == Running ==> r.attempts == horizon && r.retries < MaxRetries)
    decreases horizon - k
  {
    if retries >= MaxRetries || k >= horizon {
      return;
    }
    var a := attempt(k);
    var tips' := Tipped(group, payer, attempt(k), tips);
    match Classify(group, payer, a)
    case Raised => DozerVerdict(group, payer, attempt, horizon, k + 1, retries + 1, tips');
    case TimedOut => DozerVerdict(group, payer, attempt, horizon, k + 1, retries, tips');
    case Landed =>
  }

  /** Every bundle `bull_dozer` puts a tip on holds exactly its group, has capacity four,
      and its tip is paid by the keypair `bull_dozer` was given. */
  lemma {:induction false} DozerTips(group: seq<Tx>, payer: Keypair, attempt: nat -> Attempt, horizon: nat,
                                     k: nat, retries: nat, tips: seq<BuiltBundle>)
    requires RandomInRange(attempt)
    requires forall b :: b in tips ==> b.txs == group && b.limit == BundleLimit && b.tip.payer == payer
    ensures forall b :: b in DozerFrom(group, payer, attempt, horizon, k, retries, tips).tips ==>
      b.txs == group && b.limit == BundleLimit && b.tip.payer == payer
    decreases horizon - k
  {
    if retries >= MaxRetries || k >= horizon {
      return;
    }
    var a := attempt(k);
    var tips' := Tipped(group, payer, attempt(k), tips);
    match Classify(group, payer, a)
    case Raised => DozerTips(group, payer, attempt, horizon, k + 1, retries + 1, tips');
    case TimedOut => DozerTips(group, payer, attempt, horizon, k + 1, retries, tips');
    case Landed =>
  }

  /** `bull_dozer` returns true exactly when some attempt within the horizon lands while
      fewer than three exceptions have been caught before it. */
  lemma DozerTrueIff(group: seq<Tx>, payer: Keypair, attempt: nat -> Attempt, horizon: nat)
    requires RandomInRange(attempt)
    ensures Dozer(group, payer, attempt, horizon).verdict == Resolved(true) <==>
      exists k :: 0 <= k < horizon && Classify(group, payer, attempt(k)) == Landed
                  && RaisedBefore(group, payer, attempt, k) < MaxRetries
  {
    var r := Dozer(group, payer, attempt, horizon);
    DozerCounts(group, payer, attempt, horizon, 0, 0, []);
    DozerVerdict(group, payer, attempt, horizon, 0, 0, []);
    var n, verdict, retries := r.attempts, r.verdict, r.retries;
    assert retries == RaisedBefore(group, payer, attempt, n);
    if verdict == Resolved(true) {
      RaisedBeforeMonotone(group, payer, attempt, n - 1, n);
      assert Classify(group, payer, attempt(n - 1)) == Landed;
    } else {
      forall k | 0 <= k < horizon && Classify(group, payer, attempt(k)) == Landed
        ensures RaisedBefore(group, payer, attempt, k) >= MaxRetries
      {
        // no attempt before the loop stopped landed, so k lies at or beyond that point,
        // and the loop stopped on three exceptions, all caught before k
        assert k >= n;
        assert verdict == Resolved(false);
        RaisedBeforeMonotone(group, payer, attempt, n, k);
      }
    }
  }

  /** `bull_dozer` returns false only after exactly three caught exceptions, none of its
      attempts having landed. */
  lemma DozerFalseAfterThreeExceptions(group: seq<Tx>, payer: Keypair, attempt: nat -> Attempt, horizon: nat)
    requires RandomInRange(attempt)
    ensures var r := Dozer(group, payer, attempt, horizon);
      r.verdict == Resolved(false) ==>
        && r.retries == MaxRetries
        && RaisedBefore(group, payer, attempt, r.attempts) == MaxRetries
        && forall j :: 0 <= j < r.attempts ==> Classify(group, payer, attempt(j)) != Landed
  {
    DozerCounts(group, payer, attempt, horizon, 0, 0, []);
    DozerVerdict(group, payer, attempt, horizon, 0, 0, []);
  }

  /** A result of 0 does not advance `retries`: when every observed attempt times out the
      loop has made `horizon` attempts, caught nothing, and is still running, however large
      the horizon. Only acceptance or exceptions end `bull_dozer`. */
  lemma {:induction false} TimeoutsNeverEndDozer(group: seq<Tx>, payer: Keypair, attempt: nat -> Attempt,
                                                 horizon: nat, k: nat, tips: seq<BuiltBundle>)
    requires RandomInRange(attempt)
    requires k <= horizon
    requires forall j :: k <= j < horizon ==> Classify(group, payer, attempt(j)) == TimedOut
    ensures var r := DozerFrom(group, payer, attempt, horizon, k, 0, tips);
      r.verdict == Running && r.attempts == horizon && r.retries == 0
    decreases horizon - k
  {
    if k < horizon {
      var a := attempt(k);
      assert Classify(group, payer, a) == TimedOut;
      TimeoutsNeverEndDozer(group, payer, attempt, horizon, k + 1, Tipped(group, payer, a, tips));
    }
  }

  /** Exceptions on the first two attempts (each after its tip was built) and an accepted
      result on the third: the group succeeds and exactly three tip transactions were built. */
  lemma ThirdAttemptLands(group: seq<Tx>, payer: Keypair)
    ensures var attempt := (j: nat) =>
        Attempt(Some(["tip"]), 0.0, Some("hash"), true, j >= 2, if j >= 2 then [BundleResult(true, false)] else [], []);
      var r := Dozer(group, payer, attempt, 3);
      r.verdict == Resolved(true) && r.attempts == 3 && |r.tips| == 3
  {
    var attempt := (j: nat) =>
      Attempt(Some(["tip"]), 0.0, Some("hash"), true, j >= 2, if j >= 2 then [BundleResult(true, false)] else [], []);
    assert Accepts(attempt(2).before[0]);
    var b := BuildBundle(group, payer, attempt(0));
    assert b.Some?;
    assert DozerFrom(group, payer, attempt, 3, 2, 2, [b.value, b.value]) == DozerRun(Resolved(true), 3, 2, [b.value, b.value, b.value]);
  }

  // ---------------------------------------------------------------------------
  // bundle
  // ---------------------------------------------------------------------------

  /** The list `bundle` works on: the input cut back to a multiple of three. */
  function Trim(txs: seq<Tx>): (t: seq<Tx>)
    ensures t <= txs
    ensures |t| % GroupSize == 0
    ensures |txs| - |t| < GroupSize
  {
    if |txs| % GroupSize != 0 then txs[..|txs| / GroupSize * GroupSize] else txs
  }

  /** The observable outcome of `bundle`: its verdict (Running when a `bull_dozer` call is still
      running at the end of the horizon, so later groups are never reached), the groups
      handed to `bull_dozer`, and what each call did. */
  datatype BundleRun = BundleRun(verdict: Verdict, groups: seq<seq<Tx>>, runs: seq<DozerRun>)

  /** The grouping loop of `bundle` from offset `i` of the trimmed list `t`. */
  function BundleFrom(t: seq<Tx>, payer: Keypair, attempt: nat -> nat -> Attempt, horizon: nat,
                      i: nat, successNum: nat, groups: seq<seq<Tx>>, runs: seq<DozerRun>): BundleRun
    requires forall g :: RandomInRange(attempt(g))
    requires |t| % GroupSize == 0 && i % GroupSize == 0 && i <= |t|
    decreases |t| - i
  {
    if i == |t| then BundleRun(Resolved(successNum == |t| / GroupSize), groups, runs)
    else
      var group := t[i..i + GroupSize];
      var r := Dozer(group, payer, attempt(i / GroupSize), horizon);
      if r.verdict.Running? then BundleRun(Running, groups + [group], runs + [r])
      else BundleFrom(t, payer, attempt, horizon, i + GroupSize,
                      successNum + (if r.verdict == Resolved(true) then 1 else 0), groups + [group], runs + [r])
  }

  /** `bundle(txs, keypair)`; `attempt(g)` describes the attempts of the g-th group. */
  function BundleSpec(txs: seq<Tx>, payer: Keypair, attempt: nat -> nat -> Attempt, horizon: nat): BundleRun
    requires forall g :: RandomInRange(attempt(g))
  {
    BundleFrom(Trim(txs), payer, attempt, horizon, 0, 0, [], [])
  }

  method Bundle(txs: seq<Tx>, payer: Keypair, attempt: nat -> nat -> Attempt, horizon: nat)
    returns (run: BundleRun)
    requires forall g :: RandomInRange(attempt(g))
    ensures run == BundleSpec(txs, payer, attempt, horizon)
  {
    var t := txs;
    if |t| % GroupSize != 0 {
      t := t[..|t| / GroupSize * GroupSize];
    }
    assert t == Trim(txs);
    var successNum := 0;
    var i := 0;
    var groups: seq<seq<Tx>> := [];
    var runs: seq<DozerRun> := [];
    while i < |t|
      invariant i % GroupSize == 0 && i <= |t|
      invariant BundleFrom(t, payer, attempt, horizon, i, successNum, groups, runs) == BundleSpec(txs, payer, attempt, horizon)
      decreases |t| - i
    {
      var group := t[i..i + GroupSize];
      var success := BullDozer(group, payer, attempt(i / GroupSize), horizon);
      groups, runs := groups + [group], runs + [success];
      if success.verdict.Running? {
        // this bull_dozer call never returns within the horizon
        return BundleRun(Running, groups, runs);
      }
      if success.verdict == Resolved(true) {
        successNum := successNum + 1;
      }
      i := i + GroupSize;
    }
    run := BundleRun(Resolved(successNum == |t| / GroupSize), groups, runs);
  }

  /** The shape of the grouping loop from any intermediate state: the groups are the
      consecutive triples of the trimmed list in input order, and the loop stops early only
      on a `bull_dozer` call still running. */
  lemma {:induction false} BundleShape(t: seq<Tx>, payer: Keypair, attempt: nat -> nat -> Attempt, horizon: nat,
                                       i: nat, successNum: nat, groups: seq<seq<Tx>>, runs: seq<DozerRun>)
    requires forall g :: RandomInRange(attempt(g))
    requires |t| % GroupSize == 0 && i % GroupSize == 0 && i <= |t|
    requires |groups| == |runs| == i / GroupSize
    requires forall g :: 0 <= g < |groups| ==> groups[g] == t[g * GroupSize..g * GroupSize + GroupSize]
    requires forall g :: 0 <= g < |runs| ==> runs[g].verdict.Resolved?
    ensures var b := BundleFrom(t, payer, attempt, horizon, i, successNum, groups, runs);
      && |b.groups| == |b.runs| <= |t| / GroupSize
      && (forall g :: 0 <= g < |b.groups| ==> b.groups[g] == t[g * GroupSize..g * GroupSize + GroupSize])
      && (forall g :: 0 <= g < |b.runs| - 1 ==> b.runs[g].verdict.Resolved?)
      && (b.verdict.Running? <==> |b.runs| > 0 && b.runs[|b.runs| - 1].verdict.Running?)
      && (b.verdict.Resolved? ==> |b.runs| == |t| / GroupSize)
    decreases |t| - i
  {
    if i == |t| {
      return;
    }
    var group := t[i..i + GroupSize];
    var r := Dozer(group, payer, attempt(i / GroupSize), horizon);
    if r.verdict.Resolved? {
      BundleShape(t, payer, attempt, horizon, i + GroupSize,
                  successNum + (if r.verdict == Resolved(true) then 1 else 0), groups + [group], runs + [r]);
    }
  }

  /** Each group is handed to its own `bull_dozer` call, which sees that group's attempts. */
  lemma {:induction false} BundleCalls(t: seq<Tx>, payer: Keypair, attempt: nat -> nat -> Attempt, horizon: nat,
                                       i: nat, successNum: nat, groups: seq<seq<Tx>>, runs: seq<DozerRun>)
    requires forall g :: RandomInRange(attempt(g))
    requires |t| % GroupSize == 0 && i % GroupSize == 0 && i <= |t|
    requires |groups| == |runs| == i / GroupSize
    requires forall g :: 0 <= g < |runs| ==> runs[g] == Dozer(groups[g], payer, attempt(g), horizon)
    ensures var b := BundleFrom(t, payer, attempt, horizon, i, successNum, groups, runs);
      && |b.groups| == |b.runs|
      && forall g :: 0 <= g < |b.runs| ==> b.runs[g] == Dozer(b.groups[g], payer, attempt(g), horizon)
    decreases |t| - i
  {
    if i == |t| {
      return;
    }
    var group := t[i..i + GroupSize];
    var r := Dozer(group, payer, attempt(i / GroupSize), horizon);
    if r.verdict.Resolved? {
      BundleCalls(t, payer, attempt, horizon, i + GroupSize,
                  successNum + (if r.verdict == Resolved(true) then 1 else 0), groups + [group], runs + [r]);
    }
  }

  /** When the grouping loop finishes, `successNum` has counted the calls that returned true,
      so the verdict is true exactly when every call did. */
  lemma {:induction false} BundleVerdict(t: seq<Tx>, payer: Keypair, attempt: nat -> nat -> Attempt, horizon: nat,
                                         i: nat, successNum: nat, groups: seq<seq<Tx>>, runs: seq<DozerRun>)
    requires forall g :: RandomInRange(attempt(g))
    requires |t| % GroupSize == 0 && i % GroupSize == 0 && i <= |t|
    requires |runs| == i / GroupSize
    requires forall g :: 0 <= g < |runs| ==> runs[g].verdict.Resolved?
    requires successNum == Landings(runs)
    ensures var b := BundleFrom(t, payer, attempt, horizon, i, successNum, groups, runs);
      b.verdict.Resolved? ==>
        && |b.runs| == |t| / GroupSize
        && (b.verdict.ok <==> forall g :: 0 <= g < |b.runs| ==> b.runs[g].verdict == Resolved(true))
    decreases |t| - i
  {
    if i == |t| {
      LandingsAll(runs);
      return;
    }
    var group := t[i..i + GroupSize];
    var r := Dozer(group, payer, attempt(i / GroupSize), horizon);
    if r.verdict.Resolved? {
      var runs' := runs + [r];
      assert runs'[..|runs'| - 1] == runs;
      BundleVerdict(t, payer, attempt, horizon, i + GroupSize,
                    successNum + (if r.verdict == Resolved(true) then 1 else 0), groups + [group], runs');
    }
  }

  /** Number of the given runs that returned true. */
  function Landings(runs: seq<DozerRun>): nat
  {
    if runs == [] then 0
    else Landings(runs[..|runs| - 1]) + (if runs[|runs| - 1].verdict == Resolved(true) then 1 else 0)
  }

  lemma {:induction false} LandingsAll(runs: seq<DozerRun>)
    requires forall g :: 0 <= g < |runs| ==> runs[g].verdict.Resolved?
    ensures Landings(runs) <= |runs|
    ensures Landings(runs) == |runs| <==> forall g :: 0 <= g < |runs| ==> runs[g].verdict == Resolved(true)
  {
    if runs != [] {
      LandingsAll(runs[..|runs| - 1]);
    }
  }

  /** `bundle` submits exactly the consecutive triples of the input cut back to a multiple of
      three, in input order, one `bull_dozer` call per triple (`floor(len / 3)` calls when
      it finishes); the remainder is never submitted. It returns true exactly when every
      triple's call returned true, and false when some call returned false. */
  lemma BundleGroupsAndVerdict(txs: seq<Tx>, payer: Keypair, attempt: nat -> nat -> Attempt, horizon: nat)
    requires forall g :: RandomInRange(attempt(g))
    ensures var b := BundleSpec(txs, payer, attempt, horizon);
      && |b.groups| == |b.runs| <= |txs| / GroupSize
      && (forall g :: 0 <= g < |b.groups| ==>
            |b.groups[g]| == GroupSize && b.groups[g] == txs[g * GroupSize..g * GroupSize + GroupSize])
      && (forall g :: 0 <= g < |b.runs| ==> b.runs[g] == Dozer(b.groups[g], payer, attempt(g), horizon))
      && (b.verdict.Resolved? ==> |b.runs| == |txs| / GroupSize)
      && (b.verdict == Resolved(true) <==>
            b.verdict.Resolved? && forall g :: 0 <= g < |b.runs| ==> b.runs[g].verdict == Resolved(true))
      && (b.verdict == Resolved(false) <==>
            b.verdict.Resolved? && exists g :: 0 <= g < |b.runs| && b.runs[g].verdict == Resolved(false))
  {
    var t := Trim(txs);
    BundleShape(t, payer, attempt, horizon, 0, 0, [], []);
    BundleCalls(t, payer, attempt, horizon, 0, 0, [], []);
    BundleVerdict(t, payer, attempt, horizon, 0, 0, [], []);
    var b := BundleSpec(txs, payer, attempt, horizon);
    assert |t| / GroupSize == |txs| / GroupSize;
    forall g | 0 <= g < |b.groups|
      ensures |b.groups[g]| == GroupSize && b.groups[g] == txs[g * GroupSize..g * GroupSize + GroupSize]
    {
      assert g * GroupSize + GroupSize <= |t|;
    }
    if b.verdict.Resolved? {
      assert forall g :: 0 <= g < |b.runs| ==> b.runs[g].verdict.Resolved?;
    }
  }

  /** A list shorter than three is cut back to nothing: `bundle` submits no group and
      returns true. */
  lemma ShortListSubmitsNothing(txs: seq<Tx>, payer: Keypair, attempt: nat -> nat -> Attempt, horizon: nat)
    requires forall g :: RandomInRange(attempt(g))
    requires |txs| < GroupSize
    ensures BundleSpec(txs, payer, attempt, horizon) == BundleRun(Resolved(true), [], [])
  {
    assert Trim(txs) == [];
  }

  /** Every tip transaction `bundle` builds is paid by the keypair it was given, and the
      bundle it closes holds one submitted triple plus the tip, filling the capacity of four. */
  lemma BundleTipsPaidByCaller(txs: seq<Tx>, payer: Keypair, attempt: nat -> nat -> Attempt, horizon: nat)
    requires forall g :: RandomInRange(attempt(g))
    ensures var b := BundleSpec(txs, payer, attempt, horizon);
      forall g, tip :: 0 <= g < |b.runs| && tip in b.runs[g].tips ==>
        g < |b.groups| && tip.tip.payer == payer && tip.txs == b.groups[g] && |tip.txs| + 1 == tip.limit
  {
    var b := BundleSpec(txs, payer, attempt, horizon);
    BundleGroupsAndVerdict(txs, payer, attempt, horizon);
    forall g, tip | 0 <= g < |b.runs| && tip in b.runs[g].tips
      ensures g < |b.groups| && tip.tip.payer == payer && tip.txs == b.groups[g] && |tip.txs| + 1 == tip.limit
    {
      DozerTips(b.groups[g], payer, attempt(g), horizon, 0, 0, []);
    }
  }
}
