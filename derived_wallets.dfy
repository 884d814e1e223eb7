/** wallet_accounts.ts, the recovery script: wallet `i` is derived from the base secret key
    by keeping its first 31 bytes and appending `i` as one byte, and the script probes
    indices 0 to 1999 in order, a second apart, writing the secret key of every derived
    wallet that holds SOL to the same key file. An exception from a probe ends the scan. */
module DerivedWallets {
  import opened Common

  newtype byte = x: int | 0 <= x < 256

  /** `Keypair.fromSeed` takes exactly this many bytes and throws otherwise. */
  const SeedLength: nat := 32
  /** How many bytes of the base secret key the seed keeps. */
  const KeptBytes: nat := 31
  /** The scan probes indices below this. */
  const ScanEnd: nat := 2000
  /** The wait before each probe, in milliseconds. */
  const ScanPause: real := 1000.0

  /** A derived wallet: its 64-byte secret key and its address. */
  datatype DerivedKey = DerivedKey(secretKey: seq<byte>, pubkey: string)

  /** `new Uint8Array([...baseSeed.slice(0, 31), index])`: the array conversion keeps the
      index modulo 256. */
  function DeriveSeed(base: seq<byte>, index: nat): (seed: seq<byte>)
    ensures |seed| == Min(|base|, KeptBytes) + 1
    ensures seed[..|seed| - 1] == base[..|seed| - 1]
    ensures seed[|seed| - 1] as int == index % 256
  {
    base[..if |base| < KeptBytes then |base| else KeptBytes] + [(index % 256) as byte]
  }

  /** The seed is the first 31 bytes of a base key that has them, then the index byte. */
  lemma SeedLayout(base: seq<byte>, index: nat)
    ensures var seed := DeriveSeed(base, index);
      && seed[|seed| - 1] as int == index % 256
      && (|base| >= KeptBytes ==> |seed| == SeedLength && seed[..KeptBytes] == base[..KeptBytes])
      && (|base| < KeptBytes ==> |seed| < SeedLength && seed[..|base|] == base)
  {
  }

  /** Two indices give the same seed exactly when they agree modulo 256: the 2000 indices
      of the scan name only 256 different seeds, each index meeting the seed of its
      remainder. */
  lemma {:induction false} SeedsCollide(base: seq<byte>, i: nat, j: nat)
    ensures DeriveSeed(base, i) == DeriveSeed(base, j) <==> i % 256 == j % 256
    ensures DeriveSeed(base, i) == DeriveSeed(base, i % 256)
  {
    var si, sj := DeriveSeed(base, i), DeriveSeed(base, j);
    if si == sj {
      assert si[|si| - 1] == sj[|sj| - 1];
    }
    assert (i % 256) % 256 == i % 256;
  }

  /** The answers the scan meets: the base secret key read from the key pair file, the
      key derivation of `Keypair.fromSeed` for a 32-byte seed, and the balance query for
      each index (None when it throws). */
  datatype Chain = Chain(base: seq<byte>, fromSeed: seq<byte> -> DerivedKey, balance: nat -> Option<int>)

  /** `deriveDeterministicWallet(baseKeypair.secretKey, index)`; None when `Keypair.fromSeed`
      throws, which it does on a seed that is not 32 bytes long, that is, on a base key
      shorter than 31 bytes (`SeedLayout`). */
  function DeriveWallet(ch: Chain, index: nat): Option<DerivedKey>
  {
    if |ch.base| < KeptBytes then None else Some(ch.fromSeed(DeriveSeed(ch.base, index)))
  }

  /** What `checkWallet(index)` finds: an exception, a wallet without SOL, or a funded one. */
  datatype Probe = Raised | Unfunded(key: DerivedKey) | Funded(key: DerivedKey)

  function CheckWalletSpec(ch: Chain, index: nat): Probe
  {
    match DeriveWallet(ch, index)
    case None => Raised
    case Some(k) =>
      match ch.balance(index)
      case None => Raised
      case Some(b) => if b > 0 then Funded(k) else Unfunded(k)
  }

  /** A probe finds a funded wallet exactly when the derivation works and the balance is
      positive, and indices 256 apart whose balances read the same are the same wallet. */
  lemma ProbeCases(ch: Chain, index: nat)
    ensures CheckWalletSpec(ch, index).Funded? <==>
      |ch.base| >= KeptBytes && ch.balance(index).Some? && ch.balance(index).value > 0
    ensures CheckWalletSpec(ch, index).Raised? <==> |ch.base| < KeptBytes || ch.balance(index).None?
    ensures !CheckWalletSpec(ch, index).Raised? ==>
      CheckWalletSpec(ch, index).key == ch.fromSeed(ch.base[..KeptBytes] + [(index % 256) as byte])
    ensures ch.balance(index) == ch.balance(index + 256) ==>
      CheckWalletSpec(ch, index) == CheckWalletSpec(ch, index + 256)
  {
    SeedsCollide(ch.base, index, index + 256);
  }

  /** What the scan does, in order. */
  datatype ScanEvent = Slept(ms: real) | Probed(index: nat, probe: Probe)

  /** How the scan ends: the key file's contents, the events, and the index whose probe
      threw, if one did. */
  datatype ScanResult = ScanResult(file: Option<seq<byte>>, log: seq<ScanEvent>, stoppedAt: Option<nat>)

  /** The loop of `main` from index `i` on, with the key file holding `file`, for the
      probe results `probe`. */
  function ScanFrom(probe: nat -> Probe, i: nat, file: Option<seq<byte>>, log: seq<ScanEvent>): ScanResult
    decreases ScanEnd - i
  {
    if i >= ScanEnd then ScanResult(file, log, None)
    else
      var p := probe(i);
      var next := log + [Slept(ScanPause), Probed(i, p)];
      if p.Raised? then ScanResult(file, next, Some(i))
      else ScanFrom(probe, i + 1, if p.Funded? then Some(p.key.secretKey) else file, next)
  }

  /** `main()`, given what `checkWallet` finds at each index, with the key file holding
      `file` beforehand. */
  function Scanned(probe: nat -> Probe, file: Option<seq<byte>>): ScanResult
  {
    ScanFrom(probe, 0, file, [])
  }

  /** What `checkWallet` finds at each index against the chain `ch`. */
  function ProbeOf(ch: Chain): nat -> Probe
  {
    (i: nat) => CheckWalletSpec(ch, i)
  }

  /** The file `./derived-wallet.json`. */
  class KeyFile {
    var contents: Option<seq<byte>>

    constructor (initial: Option<seq<byte>>)
      ensures contents == initial
    {
      contents := initial;
    }

    /** `fs.writeFileSync`: the file is replaced. */
    method Write(bytes: seq<byte>)
      modifies this
      ensures contents == Some(bytes)
    {
      contents := Some(bytes);
    }
  }

  method CheckWallet(ch: Chain, index: nat, file: KeyFile) returns (p: Probe)
    modifies file
    ensures p == CheckWalletSpec(ch, index)
    ensures file.contents == if p.Funded? then Some(p.key.secretKey) else old(file.contents)
  {
    var derived := DeriveWallet(ch, index);
    if derived.None? {
      return Raised;
    }
    var balance := ch.balance(index);
    if balance.None? {
      return Raised;
    }
    if balance.value > 0 {
      file.Write(derived.value.secretKey);
      p := Funded(derived.value);
    } else {
      p := Unfunded(derived.value);
    }
  }

  method Scan(ch: Chain, file: KeyFile) returns (log: seq<ScanEvent>, stoppedAt: Option<nat>)
    modifies file
    ensures ScanResult(file.contents, log, stoppedAt) == Scanned(ProbeOf(ch), old(file.contents))
  {
    log := [];
    stoppedAt := None;
    ghost var probe := ProbeOf(ch);
    ghost var result := Scanned(probe, file.contents);
    for i := 0 to ScanEnd
      invariant ScanFrom(probe, i, file.contents, log) == result
    {
      ghost var prior, before := log, file.contents;
      var p := CheckWallet(ch, i, file);
      ghost var after := file.contents;
      assert after == if p.Funded? then Some(p.key.secretKey) else before;
      log := log + [Slept(ScanPause), Probed(i, p)];
      assert p == probe(i);
      ScanFromStep(probe, i, before, prior);
      if p.Raised? {
        stoppedAt := Some(i);
        return;
      }
      assert ScanFrom(probe, i + 1, after, log) == result;
    }
  }

  /** One probe of the scan loop: it stops on an exception, and otherwise goes on with the
      file written when the wallet holds SOL. */
  lemma ScanFromStep(probe: nat -> Probe, i: nat, file: Option<seq<byte>>, log: seq<ScanEvent>)
    requires i < ScanEnd
    ensures var next := log + [Slept(ScanPause), Probed(i, probe(i))];
      ScanFrom(probe, i, file, log)
        == if probe(i).Raised? then ScanResult(file, next, Some(i))
           else ScanFrom(probe, i + 1, if probe(i).Funded? then Some(probe(i).key.secretKey) else file, next)
  {
  }

  // ---------------------------------------------------------------------------
  // reference definitions of what the scan does
  // ---------------------------------------------------------------------------

  /** The first index from `i` on whose probe throws. */
  function FirstThrow(probe: nat -> Probe, i: nat): Option<nat>
    decreases ScanEnd - i
  {
    if i >= ScanEnd then None
    else if probe(i).Raised? then Some(i)
    else FirstThrow(probe, i + 1)
  }

  /** How many indices the scan probes when none below `i` throws. */
  function Reached(probe: nat -> Probe, i: nat): nat
  {
    var stop := FirstThrow(probe, i);
    if stop.Some? then stop.value + 1 else ScanEnd
  }

  /** A sleep then a probe for each index below `n`, in order. */
  function Probes(probe: nat -> Probe, n: nat): seq<ScanEvent>
  {
    if n == 0 then [] else Probes(probe, n - 1) + [Slept(ScanPause), Probed(n - 1, probe(n - 1))]
  }

  /** The key file after the probes of the indices below `n`. */
  function FileAfter(probe: nat -> Probe, initial: Option<seq<byte>>, n: nat): Option<seq<byte>>
  {
    if n == 0 then initial
    else if probe(n - 1).Funded? then Some(probe(n - 1).key.secretKey)
    else FileAfter(probe, initial, n - 1)
  }

  lemma {:induction false} ScanFromReached(probe: nat -> Probe, initial: Option<seq<byte>>, i: nat)
    requires i <= ScanEnd
    ensures var r := ScanFrom(probe, i, FileAfter(probe, initial, i), Probes(probe, i));
      && r.file == FileAfter(probe, initial, Reached(probe, i))
      && r.log == Probes(probe, Reached(probe, i))
      && r.stoppedAt == FirstThrow(probe, i)
    decreases ScanEnd - i
  {
    if i < ScanEnd {
      var next := Probes(probe, i) + [Slept(ScanPause), Probed(i, probe(i))];
      assert Probes(probe, i + 1) == next;
      ScanFromStep(probe, i, FileAfter(probe, initial, i), Probes(probe, i));
      if probe(i).Raised? {
        assert Reached(probe, i) == i + 1;
        assert FileAfter(probe, initial, i + 1) == FileAfter(probe, initial, i);
      } else {
        assert Reached(probe, i) == Reached(probe, i + 1);
        ScanFromReached(probe, initial, i + 1);
      }
    }
  }

  /** The scan is the reference definitions: it probes every index in order up to the first
      one that throws, and leaves the file as those probes do. */
  lemma ScanMeetsReference(probe: nat -> Probe, initial: Option<seq<byte>>)
    ensures Scanned(probe, initial)
         == ScanResult(FileAfter(probe, initial, Reached(probe, 0)), Probes(probe, Reached(probe, 0)), FirstThrow(probe, 0))
  {
    ScanFromReached(probe, initial, 0);
  }

  lemma {:induction false} FirstThrowFinds(probe: nat -> Probe, i: nat)
    ensures FirstThrow(probe, i).Some? ==>
      var k := FirstThrow(probe, i).value;
      i <= k < ScanEnd && probe(k).Raised? && forall j :: i <= j < k ==> !probe(j).Raised?
    ensures FirstThrow(probe, i).None? <==> forall j :: i <= j < ScanEnd ==> !probe(j).Raised?
    decreases ScanEnd - i
  {
    if i < ScanEnd && !probe(i).Raised? {
      FirstThrowFinds(probe, i + 1);
    }
  }

  lemma {:induction false} ProbesInOrder(probe: nat -> Probe, n: nat)
    ensures |Probes(probe, n)| == 2 * n
    ensures forall j | 0 <= j < n ::
      Probes(probe, n)[2 * j] == Slept(ScanPause) && Probes(probe, n)[2 * j + 1] == Probed(j, probe(j))
  {
    if n > 0 {
      ProbesInOrder(probe, n - 1);
      var prior := Probes(probe, n - 1);
      forall j | 0 <= j < n
        ensures Probes(probe, n)[2 * j] == Slept(ScanPause) && Probes(probe, n)[2 * j + 1] == Probed(j, probe(j))
      {
        if j < n - 1 {
          assert Probes(probe, n)[2 * j] == prior[2 * j];
          assert Probes(probe, n)[2 * j + 1] == prior[2 * j + 1];
        }
      }
    }
  }

  lemma {:induction false} FileIsLastFunded(probe: nat -> Probe, initial: Option<seq<byte>>, n: nat)
    ensures || ((forall j | 0 <= j < n :: !probe(j).Funded?) && FileAfter(probe, initial, n) == initial)
            || (exists j | 0 <= j < n ::
                  && probe(j).Funded?
                  && FileAfter(probe, initial, n) == Some(probe(j).key.secretKey)
                  && forall k | j < k < n :: !probe(k).Funded?)
  {
    if n > 0 && !probe(n - 1).Funded? {
      FileIsLastFunded(probe, initial, n - 1);
    }
  }

  /** The scan probes every index below 2000 unless a probe throws, and then stops right
      after that probe, having probed every index before it. */
  lemma ScanStops(probe: nat -> Probe, initial: Option<seq<byte>>)
    ensures var r := Scanned(probe, initial);
      && (r.stoppedAt.None? <==> forall j | 0 <= j < ScanEnd :: !probe(j).Raised?)
      && (r.stoppedAt.None? ==> |r.log| == 2 * ScanEnd)
      && (r.stoppedAt.Some? ==>
            var k := r.stoppedAt.value;
            && k < ScanEnd && probe(k).Raised? && |r.log| == 2 * (k + 1)
            && forall j | 0 <= j < k :: !probe(j).Raised?)
  {
    ScanMeetsReference(probe, initial);
    FirstThrowFinds(probe, 0);
    ProbesInOrder(probe, Reached(probe, 0));
  }

  /** The scan sleeps a second before each probe and probes the indices 0, 1, 2, ... in
      order, one at a time. */
  lemma ScanInOrder(probe: nat -> Probe, initial: Option<seq<byte>>)
    ensures var r := Scanned(probe, initial);
      && |r.log| % 2 == 0
      && forall j | 0 <= j < |r.log| / 2 ::
           r.log[2 * j] == Slept(ScanPause) && r.log[2 * j + 1] == Probed(j, probe(j))
  {
    ScanMeetsReference(probe, initial);
    var m := Reached(probe, 0);
    ProbesInOrder(probe, m);
    var log := Scanned(probe, initial).log;
    assert log == Probes(probe, m);
    assert |log| / 2 == m;
  }

  /** The key file is left as it was when no probed wallet holds SOL, and otherwise holds
      the secret key of the last probed wallet that does: every write goes to the same
      file. */
  lemma ScanKeepsLastFunded(probe: nat -> Probe, initial: Option<seq<byte>>)
    ensures var r := Scanned(probe, initial);
      var n := |r.log| / 2;
      || ((forall j | 0 <= j < n :: !probe(j).Funded?) && r.file == initial)
      || (exists j | 0 <= j < n ::
            && probe(j).Funded?
            && r.file == Some(probe(j).key.secretKey)
            && forall k | j < k < n :: !probe(k).Funded?)
  {
    ScanMeetsReference(probe, initial);
    var m := Reached(probe, 0);
    ProbesInOrder(probe, m);
    assert |Scanned(probe, initial).log| / 2 == m;
    FileIsLastFunded(probe, initial, m);
  }
}
