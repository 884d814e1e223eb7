/** Values shared by every part of the market-making bot: the wallet roster record, the
    edits the trading code makes to it, and the outcomes of the foreign calls (keypair
    decoding, the swap builders, the single-transaction executor) the core consumes. */
module Common {

  datatype Option<+T> = None | Some(value: T)

  /** Lamports in one SOL. */
  const LamportsPerSol: int := 1_000_000_000

  /** A signing keypair, as the base58 secret and the public address derived from it. */
  datatype Keypair = Keypair(secret: string, pubkey: string)

  /** An opaque signed transaction handed over by a swap builder. */
  datatype Tx = Tx(id: string)

  /** One roster entry as `saveDataToFile` writes it: secret, address, last-known balance
      in SOL, and the references of the last settled buy and sell (null until then). */
  datatype WalletRecord = WalletRecord(
    privateKey: string,
    pubkey: string,
    solBalance: real,
    tokenBuyTx: Option<string>,
    tokenSellTx: Option<string>)

  /** A partial-record update that `editJson` applies to the entry with the same address.
      A buy stores its balance in SOL; a sell stores the raw lamport count it was given. */
  datatype RosterEdit =
    | BuyEdit(pubkey: string, tokenBuyTx: string, solBalance: real)
    | SellEdit(pubkey: string, tokenSellTx: string, lamports: int)

  /** What the single-transaction executor does: it returns the signature once confirmed,
      returns "" when the confirmation reports an execution error, and throws when sending
      or confirming fails on the network. */
  datatype ExecOutcome = Returned(sig: string) | Threw

  /** What a swap builder (`getBuyTx`, `getSellTx` and their aggregator variants) gives back. */
  datatype TxBuild = Built(tx: Tx) | NotBuilt | BuildThrew

  /** The explorer reference the trading code stores for a settled transaction. */
  function SolscanUrl(sig: string): (url: string)
    ensures |url| == |"https://solscan.io/tx/"| + |sig|
    ensures url[..|"https://solscan.io/tx/"|] == "https://solscan.io/tx/"
    ensures url[|"https://solscan.io/tx/"|..] == sig
  {
    "https://solscan.io/tx/" + sig
  }

  /** JavaScript truthiness of a string-or-null result: null and "" are falsy. */
  predicate Truthy(s: Option<string>)
  {
    s.Some? && s.value != ""
  }

  function Min(a: int, b: int): (m: int)
    ensures m <= a && m <= b && (m == a || m == b)
  {
    if a <= b then a else b
  }
}
