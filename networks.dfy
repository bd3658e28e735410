/** The bot's chain configuration and the resolution of a user-typed network
    name to a chain family and to the config variable holding that family's
    tracked addresses. */
module Networks {
  import opened Wrappers

  /** The configuration entries that name non-EVM chains. */
  const SolanaName: string := "solana"
  const TonName: string := "ton"

  /** A Web3 client, known here only by the RPC endpoint it was built on. */
  datatype EvmClient = EvmClient(url: string)

  /** A network name after resolution: one configured EVM chain, Solana or TON. */
  datatype Network = Evm(chain: string) | Solana | Ton

  /** The three config variables in which tracked addresses are kept. */
  datatype Key = TrackedEvmAddresses | TrackedSolanaAddresses | TrackedTonAddresses

  /** The name of the config variable behind a key. */
  function KeyName(k: Key): string {
    match k
    case TrackedEvmAddresses => "TRACKED_EVM_ADDRESSES"
    case TrackedSolanaAddresses => "TRACKED_SOLANA_ADDRESSES"
    case TrackedTonAddresses => "TRACKED_TON_ADDRESSES"
  }

  /** Distinct keys are stored under distinct variable names, so adding to
      one family never touches another family's list. */
  lemma KeyNameInjective(k1: Key, k2: Key)
    ensures KeyName(k1) == KeyName(k2) <==> k1 == k2
  {
    if k1 != k2 {
      assert KeyName(k1)[8] != KeyName(k2)[8];
    }
  }

  /** All EVM chains share one tracked list; Solana and TON have their own. */
  function StorageKey(n: Network): (k: Key)
    ensures k == TrackedEvmAddresses <==> n.Evm?
    ensures k == TrackedSolanaAddresses <==> n.Solana?
    ensures k == TrackedTonAddresses <==> n.Ton?
  {
    match n
    case Evm(_) => TrackedEvmAddresses
    case Solana => TrackedSolanaAddresses
    case Ton => TrackedTonAddresses
  }

  /** The human-readable family name used in the confirmation reply. */
  function DisplayName(k: Key): string {
    match k
    case TrackedEvmAddresses => "EVM Chains"
    case TrackedSolanaAddresses => "Solana"
    case TrackedTonAddresses => "TON"
  }

  /** The Web3 client map: one client per configured chain other than the
      `solana` and `ton` entries, each on that chain's own URL. */
  function EvmClients(rpcUrls: map<string, string>): (clients: map<string, EvmClient>)
    ensures clients.Keys == rpcUrls.Keys - {SolanaName, TonName}
    ensures forall chain :: chain in clients ==> clients[chain] == EvmClient(rpcUrls[chain])
  {
    map chain | chain in rpcUrls && chain != SolanaName && chain != TonName :: EvmClient(rpcUrls[chain])
  }

  /** The Solana client's endpoint: `RPC_URLS.get("solana")`, absent when
      the configuration has no such entry. */
  function SolanaUrl(rpcUrls: map<string, string>): (url: Option<string>)
    ensures url.Some? <==> SolanaName in rpcUrls
    ensures url.Some? ==> url.value == rpcUrls[SolanaName]
  {
    if SolanaName in rpcUrls then Some(rpcUrls[SolanaName]) else None
  }

  /** Python's `str.lower()` on one character, for the ASCII letters. */
  function LowerChar(c: char): (d: char)
    ensures 'A' <= c <= 'Z' ==> 'a' <= d <= 'z' && d as int == c as int + 32
    ensures !('A' <= c <= 'Z') ==> d == c
  {
    if 'A' <= c <= 'Z' then (c as int + 32) as char else c
  }

  /** Python's `str.lower()`, character by character. */
  function Lower(s: string): (r: string)
    ensures |r| == |s|
    ensures forall i :: 0 <= i < |s| ==> r[i] == LowerChar(s[i])
  {
    seq(|s|, i requires 0 <= i < |s| => LowerChar(s[i]))
  }

  /** Lower-casing twice is lower-casing once. */
  lemma LowerIdempotent(s: string)
    ensures Lower(Lower(s)) == Lower(s)
  {
  }

  /** The dispatch shared by `/addaddress` and `/balance`: the lower-cased
      name is looked up in the Web3 client map first, then compared with
      `solana` and `ton`; any other name is rejected. */
  function Resolve(clients: map<string, EvmClient>, name: string): (r: Option<Network>)
    ensures r.Some? && r.value.Evm? <==> Lower(name) in clients
    ensures r.Some? && r.value.Evm? ==> r.value.chain == Lower(name)
    ensures r == Some(Solana) <==> Lower(name) !in clients && Lower(name) == SolanaName
    ensures r == Some(Ton) <==> Lower(name) !in clients && Lower(name) == TonName
    ensures r.None? <==> Lower(name) !in clients && Lower(name) != SolanaName && Lower(name) != TonName
  {
    var n := Lower(name);
    if n in clients then Some(Evm(n))
    else if n == SolanaName then Some(Solana)
    else if n == TonName then Some(Ton)
    else None
  }

  /** Resolution ignores the case of the typed name. */
  lemma ResolveIgnoresCase(clients: map<string, EvmClient>, name: string)
    ensures Resolve(clients, name) == Resolve(clients, Lower(name))
  {
    LowerIdempotent(name);
  }

  /** On the client map the bot builds, the EVM branch can never capture the
      names `solana` and `ton`: whatever the configuration holds, they resolve
      to their own families, and a resolved EVM chain is a configured one. */
  lemma {:induction false} BranchesDisjoint(rpcUrls: map<string, string>, name: string)
    ensures Lower(name) == SolanaName ==> Resolve(EvmClients(rpcUrls), name) == Some(Solana)
    ensures Lower(name) == TonName ==> Resolve(EvmClients(rpcUrls), name) == Some(Ton)
    ensures Resolve(EvmClients(rpcUrls), name).Some? && Resolve(EvmClients(rpcUrls), name).value.Evm? ==>
      var chain := Resolve(EvmClients(rpcUrls), name).value.chain;
      chain in rpcUrls && chain != SolanaName && chain != TonName
  {
    var clients := EvmClients(rpcUrls);
    assert SolanaName !in clients.Keys && TonName !in clients.Keys;
  }

  /** Resolution to a key: a configured EVM chain gives the shared EVM list,
      `solana` and `ton` give theirs, anything else gives no key. */
  lemma {:induction false} ResolveKey(rpcUrls: map<string, string>, name: string)
    ensures var r := Resolve(EvmClients(rpcUrls), name);
      && (r.Some? && StorageKey(r.value) == TrackedEvmAddresses <==>
            Lower(name) in rpcUrls && Lower(name) != SolanaName && Lower(name) != TonName)
      && (r.Some? && StorageKey(r.value) == TrackedSolanaAddresses <==> Lower(name) == SolanaName)
      && (r.Some? && StorageKey(r.value) == TrackedTonAddresses <==> Lower(name) == TonName)
      && (r.None? <==> Lower(name) !in rpcUrls && Lower(name) != SolanaName && Lower(name) != TonName)
  {
    BranchesDisjoint(rpcUrls, name);
  }

  /** The typed names the bot's usage text lists, spelled in capitals, reach
      the non-EVM families. */
  lemma CapitalisedNames(clients: map<string, EvmClient>)
    requires SolanaName !in clients && TonName !in clients
    ensures Resolve(clients, "SOLANA") == Some(Solana)
    ensures Resolve(clients, "Ton") == Some(Ton)
  {
    assert Lower("SOLANA") == SolanaName;
    assert Lower("Ton") == TonName;
  }
}
