/**
 * The helpers of `src/lib/solana.ts`: the network table and connection factory,
 * explorer links, address shortening, the error classes and the transfer
 * transaction builder. The `@solana/web3.js` calls it makes (parsing a public
 * key, fetching a blockhash) are outcomes handed in by the caller.
 */
module SolanaLib {
  import opened Common

  /** `LAMPORTS_PER_SOL` of `@solana/web3.js`: lamports in one SOL. */
  const LamportsPerSol: int := 1_000_000_000

  // ---------------------------------------------------------------------------
  // Networks and connections

  datatype Network = Mainnet | Devnet | Testnet

  const DefaultNetwork: Network := Devnet

  /** The key of the network in `SOLANA_NETWORKS`, also used as the explorer's cluster name. */
  function NetworkName(n: Network): string
  {
    match n
    case Mainnet => "mainnet"
    case Devnet => "devnet"
    case Testnet => "testnet"
  }

  /** `SOLANA_NETWORKS[n]`: the public RPC endpoint of each network. */
  function RpcEndpoint(n: Network): string
  {
    match n
    case Mainnet => "https://api.mainnet-beta.solana.com"
    case Devnet => "https://api.devnet.solana.com"
    case Testnet => "https://api.testnet.solana.com"
  }

  /** Which network an endpoint URL belongs to, if it is one of the table's. */
  function NetworkOfEndpoint(url: string): Option<Network>
  {
    if url == RpcEndpoint(Mainnet) then Some(Mainnet)
    else if url == RpcEndpoint(Devnet) then Some(Devnet)
    else if url == RpcEndpoint(Testnet) then Some(Testnet)
    else None
  }

  /** The parts of a web3.js `Connection` that the model keeps: its endpoint and commitment. */
  datatype Connection = Connection(endpoint: string, commitment: string)

  /** `getConnection`: a connection to the network's table entry at "confirmed" commitment. */
  function GetConnection(network: Network := DefaultNetwork): (c: Connection)
    ensures NetworkOfEndpoint(c.endpoint) == Some(network)
    ensures c.commitment == "confirmed"
  {
    Connection(RpcEndpoint(network), "confirmed")
  }

  /** The three networks have three different endpoints. */
  lemma EndpointsDistinct(a: Network, b: Network)
    ensures RpcEndpoint(a) == RpcEndpoint(b) ==> a == b
  {
  }

  /** A call without arguments connects to devnet. */
  lemma DefaultConnectionIsDevnet()
    ensures GetConnection() == Connection("https://api.devnet.solana.com", "confirmed")
  {
  }

  // ---------------------------------------------------------------------------
  // Explorer links

  const ExplorerBase: string := "https://explorer.solana.com"

  datatype ExplorerKind = Tx | Address

  function KindSegment(kind: ExplorerKind): string
  {
    match kind
    case Tx => "tx"
    case Address => "address"
  }

  function ExplorerPrefix(kind: ExplorerKind): string
  {
    ExplorerBase + "/" + KindSegment(kind) + "/"
  }

  /** The query string that selects the cluster: none for mainnet. */
  function ClusterParam(network: Network): (p: string)
    ensures p == "" <==> network == Mainnet
    ensures network != Mainnet ==> HasPrefix(p, "?cluster=") && p[9..] == NetworkName(network)
  {
    if network == Mainnet then "" else "?cluster=" + NetworkName(network)
  }

  /** `getExplorerUrl`, with the source's defaults: devnet, and a transaction link. */
  function GetExplorerUrl(signature: string, network: Network := DefaultNetwork, kind: ExplorerKind := Tx): (url: string)
    ensures HasPrefix(url, ExplorerPrefix(kind))
    ensures url[|ExplorerPrefix(kind)|..] == signature + ClusterParam(network)
  {
    var prefix := ExplorerPrefix(kind);
    ConcatParts(prefix, signature + ClusterParam(network));
    prefix + (signature + ClusterParam(network))
  }

  /** What an explorer link points at. */
  datatype ExplorerLink = ExplorerLink(kind: ExplorerKind, signature: string, network: Network)

  /** The position of the first occurrence of `c` in `s`. */
  function IndexOfChar(s: string, c: char): (i: nat)
    requires c in s
    ensures i < |s| && s[i] == c && c !in s[..i]
  {
    if s[0] == c then 0
    else
      assert s == [s[0]] + s[1..];
      1 + IndexOfChar(s[1..], c)
  }

  /** Reads an explorer link back: the reference definition `GetExplorerUrl` is checked against. */
  function ParseExplorerUrl(url: string): Option<ExplorerLink>
  {
    if HasPrefix(url, ExplorerPrefix(Tx)) then ParseExplorerTail(Tx, url[|ExplorerPrefix(Tx)|..])
    else if HasPrefix(url, ExplorerPrefix(Address)) then ParseExplorerTail(Address, url[|ExplorerPrefix(Address)|..])
    else None
  }

  function ParseExplorerTail(kind: ExplorerKind, rest: string): Option<ExplorerLink>
  {
    if '?' !in rest then Some(ExplorerLink(kind, rest, Mainnet))
    else
      var i := IndexOfChar(rest, '?');
      if rest[i..] == ClusterParam(Devnet) then Some(ExplorerLink(kind, rest[..i], Devnet))
      else if rest[i..] == ClusterParam(Testnet) then Some(ExplorerLink(kind, rest[..i], Testnet))
      else None
  }

  lemma {:induction false} ParseTailRoundTrip(kind: ExplorerKind, signature: string, network: Network)
    requires '?' !in signature
    ensures ParseExplorerTail(kind, signature + ClusterParam(network)) == Some(ExplorerLink(kind, signature, network))
  {
    var rest := signature + ClusterParam(network);
    if network == Mainnet {
      assert rest == signature;
    } else {
      assert rest[|signature|] == '?';
      var i := IndexOfChar(rest, '?');
      assert rest[..|signature|] == signature;
      assert i == |signature|;
      assert rest[..i] == signature;
      assert rest[i..] == ClusterParam(network);
    }
  }

  /**
   * Every explorer link reads back as the signature, network and kind it was
   * built from, provided the signature holds no '?' (base58 never does).
   */
  lemma {:induction false} ExplorerUrlRoundTrip(signature: string, network: Network, kind: ExplorerKind)
    requires '?' !in signature
    ensures ParseExplorerUrl(GetExplorerUrl(signature, network, kind)) == Some(ExplorerLink(kind, signature, network))
  {
    var url := GetExplorerUrl(signature, network, kind);
    var tail := signature + ClusterParam(network);
    assert url == ExplorerPrefix(kind) + tail;
    assert url[|ExplorerPrefix(kind)|..] == tail;
    if kind == Address {
      assert url[28] == 'a';
      assert ExplorerPrefix(Tx)[28] == 't';
      assert !HasPrefix(url, ExplorerPrefix(Tx));
    }
    ParseTailRoundTrip(kind, signature, network);
  }

  /** Two links to '?'-free signatures are equal only when signature, network and kind all agree. */
  lemma ExplorerUrlInjective(s1: string, n1: Network, k1: ExplorerKind, s2: string, n2: Network, k2: ExplorerKind)
    requires '?' !in s1 && '?' !in s2
    requires GetExplorerUrl(s1, n1, k1) == GetExplorerUrl(s2, n2, k2)
    ensures s1 == s2 && n1 == n2 && k1 == k2
  {
    ExplorerUrlRoundTrip(s1, n1, k1);
    ExplorerUrlRoundTrip(s2, n2, k2);
  }

  /** Without the '?'-free condition links collide: a mainnet link can spell a devnet one. */
  lemma ExplorerUrlAmbiguousWithQuery()
    ensures GetExplorerUrl("sig?cluster=devnet", Mainnet) == GetExplorerUrl("sig", Devnet)
  {
  }

  /** The one-argument call links a transaction on devnet. */
  lemma ExplorerUrlDefaults(signature: string)
    ensures GetExplorerUrl(signature) == "https://explorer.solana.com/tx/" + signature + "?cluster=devnet"
  {
  }

  // ---------------------------------------------------------------------------
  // Address shortening

  /** `formatWalletAddress`: keeps short addresses, else the first and last four characters around "...". */
  function FormatWalletAddress(address: string): (r: string)
    ensures |address| < 10 ==> r == address
    ensures |address| >= 10 ==>
      |r| == 11 && r[..4] == address[..4] && r[4..7] == "..." && r[7..] == address[|address| - 4..]
  {
    if |address| < 10 then address
    else address[..4] + "..." + address[|address| - 4..]
  }

  /** Shortening an already shortened address changes nothing. */
  lemma FormatWalletAddressIdempotent(address: string)
    ensures FormatWalletAddress(FormatWalletAddress(address)) == FormatWalletAddress(address)
  {
    var r := FormatWalletAddress(address);
    if |address| >= 10 {
      assert r == r[..4] + r[4..7] + r[7..];
    }
  }

  // ---------------------------------------------------------------------------
  // Error classes

  const WalletErrorPrefix: string := "Wallet Error: "
  const TransactionErrorPrefix: string := "Transaction Error: "

  /** `new WalletError(message)`. */
  function NewWalletError(message: string): (e: Thrown)
    ensures e.Error? && e.cls == WalletError
    ensures HasPrefix(e.message, WalletErrorPrefix) && e.message[|WalletErrorPrefix|..] == message
  {
    Error(WalletError, WalletErrorPrefix + message)
  }

  /** `new TransactionError(message)`. */
  function NewTransactionError(message: string): (e: Thrown)
    ensures e.Error? && e.cls == TransactionError
    ensures HasPrefix(e.message, TransactionErrorPrefix) && e.message[|TransactionErrorPrefix|..] == message
  {
    Error(TransactionError, TransactionErrorPrefix + message)
  }

  /** A thrown value that could have come from the source's constructors: its class's prefix is in place. */
  predicate WellFormed(e: Thrown)
  {
    && (e.Error? && e.cls == WalletError ==> HasPrefix(e.message, WalletErrorPrefix))
    && (e.Error? && e.cls == TransactionError ==> HasPrefix(e.message, TransactionErrorPrefix))
  }

  /** A wallet error's message never reads as a transaction error's. */
  lemma ErrorMessagesDistinct(a: string, b: string)
    ensures NewWalletError(a).message != NewTransactionError(b).message
  {
    assert NewWalletError(a).message[0] == 'W';
    assert NewTransactionError(b).message[0] == 'T';
  }

  // ---------------------------------------------------------------------------
  // The transfer transaction

  datatype Instruction = Transfer(from: PublicKey, to: PublicKey, lamports: int)

  /** The fields of a web3.js `Transaction` that the builder sets. */
  datatype TxFields = TxFields(instructions: seq<Instruction>, recentBlockhash: Option<string>, feePayer: Option<PublicKey>)

  class Transaction {
    var instructions: seq<Instruction>
    var recentBlockhash: Option<string>
    var feePayer: Option<PublicKey>

    /** `new Transaction()`: no instructions, no blockhash, no fee payer. */
    constructor ()
      ensures instructions == [] && recentBlockhash == None && feePayer == None
    {
      instructions := [];
      recentBlockhash := None;
      feePayer := None;
    }

    /** `transaction.add(instruction)`. */
    method Add(ix: Instruction)
      modifies this
      ensures instructions == old(instructions) + [ix]
      ensures recentBlockhash == old(recentBlockhash) && feePayer == old(feePayer)
    {
      instructions := instructions + [ix];
    }

    function Fields(): TxFields
      reads this
    {
      TxFields(instructions, recentBlockhash, feePayer)
    }
  }

  /** The catch block of `createTransferTransaction`: a `TransactionError` passes, anything else is re-wrapped. */
  function WrapAsTransactionError(e: Thrown): (w: Thrown)
    ensures e.Error? && e.cls == TransactionError ==> w == e
    ensures !(e.Error? && e.cls == TransactionError) ==>
      w == NewTransactionError(ErrorMessageOr(e, "Failed to create transaction"))
  {
    if e.Error? && e.cls == TransactionError then e
    else NewTransactionError(ErrorMessageOr(e, "Failed to create transaction"))
  }

  /**
   * What `createTransferTransaction(connection, from, toPubkeyStr, lamports)` resolves to.
   * `parsedRecipient` is the outcome of `new PublicKey(toPubkeyStr)` (None: it threw),
   * `instruction` that of building the transfer instruction and adding it
   * (`SystemProgram.transfer`, `Transaction.add`), and `latestBlockhash` that of
   * `connection.getLatestBlockhash("confirmed")`.
   */
  function TransferTransaction(from: PublicKey, parsedRecipient: Option<PublicKey>, lamports: int,
                               instruction: Outcome<()>, latestBlockhash: Outcome<string>): Outcome<TxFields>
  {
    if parsedRecipient.None? then Threw(NewTransactionError("Invalid recipient address"))
    else if lamports <= 0 then Threw(NewTransactionError("Amount must be greater than 0"))
    else if instruction.Threw? then Threw(WrapAsTransactionError(instruction.error))
    else match latestBlockhash
      case Threw(e) => Threw(WrapAsTransactionError(e))
      case Returned(h) => Returned(TxFields([Transfer(from, parsedRecipient.value, lamports)], Some(h), Some(from)))
  }

  /** Whether the builder gets as far as asking for a blockhash. */
  predicate FetchesBlockhash(parsedRecipient: Option<PublicKey>, lamports: int, instruction: Outcome<()>)
  {
    parsedRecipient.Some? && lamports > 0 && instruction.Returned?
  }

  /** An unparseable recipient is reported first, whatever the amount. */
  lemma TransferTransactionChecksRecipientFirst(from: PublicKey, lamports: int, instruction: Outcome<()>,
                                                latestBlockhash: Outcome<string>)
    ensures TransferTransaction(from, None, lamports, instruction, latestBlockhash)
         == Threw(Error(TransactionError, "Transaction Error: Invalid recipient address"))
  {
    assert TransactionErrorPrefix + "Invalid recipient address" == "Transaction Error: Invalid recipient address";
  }

  /** A parseable recipient with a non-positive amount is reported as such, before the instruction is built. */
  lemma TransferTransactionChecksAmountSecond(from: PublicKey, recipient: PublicKey, lamports: int,
                                              instruction: Outcome<()>, latestBlockhash: Outcome<string>)
    requires lamports <= 0
    ensures TransferTransaction(from, Some(recipient), lamports, instruction, latestBlockhash)
         == Threw(Error(TransactionError, "Transaction Error: Amount must be greater than 0"))
  {
    assert TransactionErrorPrefix + "Amount must be greater than 0" == "Transaction Error: Amount must be greater than 0";
  }

  /** All checks come before the blockhash fetch: when one fails, what the fetch would do is irrelevant. */
  lemma TransferTransactionChecksBeforeFetch(from: PublicKey, parsedRecipient: Option<PublicKey>, lamports: int,
                                             instruction: Outcome<()>, b1: Outcome<string>, b2: Outcome<string>)
    requires !FetchesBlockhash(parsedRecipient, lamports, instruction)
    ensures TransferTransaction(from, parsedRecipient, lamports, instruction, b1)
         == TransferTransaction(from, parsedRecipient, lamports, instruction, b2)
  {
  }

  /**
   * Every failure of the builder is a `TransactionError` whose message carries the
   * prefix, when whatever the instruction build or the blockhash fetch threw was itself well formed.
   */
  lemma TransferTransactionFailsAsTransactionError(from: PublicKey, parsedRecipient: Option<PublicKey>, lamports: int,
                                                   instruction: Outcome<()>, latestBlockhash: Outcome<string>)
    requires instruction.Threw? ==> WellFormed(instruction.error)
    requires latestBlockhash.Threw? ==> WellFormed(latestBlockhash.error)
    ensures var r := TransferTransaction(from, parsedRecipient, lamports, instruction, latestBlockhash);
      r.Threw? ==> r.error.Error? && r.error.cls == TransactionError && HasPrefix(r.error.message, TransactionErrorPrefix)
  {
  }

  /** A failed instruction build surfaces with its own message behind the prefix, and no fetch happens. */
  lemma TransferTransactionWrapsInstructionError(from: PublicKey, recipient: PublicKey, lamports: int, message: string)
    requires lamports > 0
    ensures !FetchesBlockhash(Some(recipient), lamports, Threw(Error(PlainError, message)))
    ensures forall b: Outcome<string> ::
      TransferTransaction(from, Some(recipient), lamports, Threw(Error(PlainError, message)), b)
      == Threw(Error(TransactionError, "Transaction Error: " + message))
  {
  }

  /** A failed blockhash fetch surfaces with its own message behind the prefix. */
  lemma TransferTransactionWrapsFetchError(from: PublicKey, recipient: PublicKey, lamports: int, message: string)
    requires lamports > 0
    ensures TransferTransaction(from, Some(recipient), lamports, Returned(()), Threw(Error(PlainError, message)))
         == Threw(Error(TransactionError, "Transaction Error: " + message))
  {
  }

  /** On success the sender pays the fee and the fetched blockhash is the recent one. */
  lemma TransferTransactionSuccess(from: PublicKey, parsedRecipient: Option<PublicKey>, lamports: int,
                                   instruction: Outcome<()>, latestBlockhash: Outcome<string>)
    ensures var r := TransferTransaction(from, parsedRecipient, lamports, instruction, latestBlockhash);
      r.Returned? <==> FetchesBlockhash(parsedRecipient, lamports, instruction) && latestBlockhash.Returned?
    ensures var r := TransferTransaction(from, parsedRecipient, lamports, instruction, latestBlockhash);
      r.Returned? ==>
        && r.value.feePayer == Some(from)
        && r.value.recentBlockhash == Some(latestBlockhash.value)
        && r.value.instructions == [Transfer(from, parsedRecipient.value, lamports)]
  {
  }

  /**
   * `createTransferTransaction`: builds a fresh transaction, fetches the blockhash
   * only once all checks passed, then sets the blockhash and the fee payer.
   */
  method CreateTransferTransaction(from: PublicKey, parsedRecipient: Option<PublicKey>, lamports: int,
                                   instruction: Outcome<()>, latestBlockhash: Outcome<string>)
    returns (r: Outcome<Transaction>, fetchedBlockhash: bool)
    ensures fetchedBlockhash == FetchesBlockhash(parsedRecipient, lamports, instruction)
    ensures var spec := TransferTransaction(from, parsedRecipient, lamports, instruction, latestBlockhash);
      && (r.Threw? <==> spec.Threw?)
      && (r.Threw? ==> r.error == spec.error)
      && (r.Returned? ==> fresh(r.value) && r.value.Fields() == spec.value)
  {
    fetchedBlockhash := false;
    if parsedRecipient.None? {
      r := Threw(NewTransactionError("Invalid recipient address"));
      return;
    }
    var toPubkey := parsedRecipient.value;
    if lamports <= 0 {
      r := Threw(NewTransactionError("Amount must be greater than 0"));
      return;
    }
    var transaction := new Transaction();
    if instruction.Threw? {
      r := Threw(WrapAsTransactionError(instruction.error));
      return;
    }
    transaction.Add(Transfer(from, toPubkey, lamports));
    fetchedBlockhash := true;
    match latestBlockhash {
      case Threw(e) =>
        r := Threw(WrapAsTransactionError(e));
      case Returned(blockhash) =>
        transaction.recentBlockhash := Some(blockhash);
        transaction.feePayer := Some(from);
        r := Returned(transaction);
    }
  }
}
