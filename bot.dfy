/** The bot's command handlers over its process state: the Web3 client map
    built once from the RPC configuration, the process environment from which
    the tracked-address lists are read, and the platform's config store to
    which they are written. The store's answer to a write is passed in. */
module Bot {
  import opened Wrappers
  import opened CommaList
  import opened Networks
  import opened Registry

  /** The replies of `/addaddress`; `NoReply` is the handler ending with the
      exception raised by the store request. */
  datatype AddReply =
    | Usage
    | InvalidNetwork
    | Duplicate(address: string)
    | Saved(address: string, networkName: string)
    | SaveFailed
    | NoReply

  /** A request to the config store to set one variable. */
  datatype ConfigWrite = ConfigWrite(key: string, value: string)

  /** How the config store answers a write: status 200, another status, or
      an exception raised by the request. */
  datatype StoreAnswer = Accepted | Refused | Raised

  /** What `/balance` asks for once its arguments are dispatched; the query
      itself is a foreign call. */
  datatype BalanceQuery =
    | BalanceUsage
    | EvmBalance(chain: string, client: EvmClient, address: string)
    | SolanaBalance(endpoint: Option<string>, address: string)
    | TonBalance(address: string)
    | UnknownNetwork

  class AddressBot {
    /** `web3_clients`, fixed at start-up. */
    const clients: map<string, EvmClient>
    /** The endpoint of `solana_client`, fixed at start-up. */
    const solanaUrl: Option<string>
    /** The process environment, which `os.getenv` reads. */
    var env: map<string, string>
    /** The platform's config variables, which the store request writes. */
    var store: map<string, string>

    /** The client map never holds the non-EVM names. */
    ghost predicate Valid() {
      SolanaName !in clients && TonName !in clients
    }

    /** Start-up: the clients are built from the RPC configuration, and the
        process starts with the config variables as its environment. */
    constructor (rpcUrls: map<string, string>, vars: map<string, string>)
      ensures Valid()
      ensures clients == EvmClients(rpcUrls) && solanaUrl == SolanaUrl(rpcUrls)
      ensures env == vars && store == vars
    {
      clients := EvmClients(rpcUrls);
      solanaUrl := SolanaUrl(rpcUrls);
      env := vars;
      store := vars;
    }

    /** The addresses the process sees under a key. */
    function Visible(k: Key): seq<string>
      reads this
    {
      Entries(Lookup(env, KeyName(k)))
    }

    /** The addresses the config store holds under a key. */
    function Stored(k: Key): seq<string>
      reads this
    {
      Entries(Lookup(store, KeyName(k)))
    }

    /** The process sees what the store holds under a key. */
    predicate Synced(k: Key)
      reads this
    {
      Lookup(env, KeyName(k)) == Lookup(store, KeyName(k))
    }

    /** `/addaddress <network> <address>`. A wrong argument count or an
        unknown network is answered before anything is read or written; an
        address already in the list the process sees is answered without a
        write; otherwise the new list is sent to the store, which alone
        changes, and only when it accepts. The process environment never
        changes here, so the new list is built from what the process sees,
        not from what the store holds. */
    method AddAddress(args: seq<string>, answer: StoreAnswer) returns (reply: AddReply, write: Option<ConfigWrite>)
      requires Valid()
      modifies this`store
      ensures env == old(env)
      ensures |args| != 2 ==> reply == Usage && write == None && store == old(store)
      ensures |args| == 2 && Resolve(clients, args[0]).None? ==>
        reply == InvalidNetwork && write == None && store == old(store)
      ensures |args| == 2 && Resolve(clients, args[0]).Some? ==>
        var k := StorageKey(Resolve(clients, args[0]).value);
        var outcome := AddToList(Lookup(env, KeyName(k)), args[1]);
        && (outcome.AlreadyTracked? ==>
              reply == Duplicate(args[1]) && write == None && store == old(store))
        && (outcome.Added? ==>
              && write == Some(ConfigWrite(KeyName(k), outcome.newStored))
              && (answer == Accepted ==> reply == Saved(args[1], DisplayName(k)) &&
                                         store == old(store)[KeyName(k) := outcome.newStored])
              && (answer == Refused ==> reply == SaveFailed && store == old(store))
              && (answer == Raised ==> reply == NoReply && store == old(store)))
      ensures |args| == 2 && Lower(args[0]) == SolanaName && write.Some? ==>
        write.value.key == KeyName(TrackedSolanaAddresses)
      ensures |args| == 2 && Lower(args[0]) == TonName && write.Some? ==>
        write.value.key == KeyName(TrackedTonAddresses)
      ensures reply.Saved? && ValidEntry(args[1]) ==>
        var k := StorageKey(Resolve(clients, args[0]).value);
        && Stored(k) == Visible(k) + [args[1]]
        && (old(Synced(k)) ==> Stored(k) == old(Stored(k)) + [args[1]])
        && forall other :: other != k ==> Stored(other) == old(Stored(other))
      ensures !reply.Saved? ==> store == old(store)
    {
      if |args| != 2 {
        reply, write := Usage, None;
        return;
      }
      var network, address := args[0], args[1];
      var resolved := Resolve(clients, network);
      if resolved.None? {
        reply, write := InvalidNetwork, None;
        return;
      }
      var k := StorageKey(resolved.value);
      var key := KeyName(k);
      var visible := Lookup(env, key);
      var outcome := AddToList(visible, address);
      if outcome.AlreadyTracked? {
        reply, write := Duplicate(address), None;
        return;
      }
      write := Some(ConfigWrite(key, outcome.newStored));
      match answer
      case Accepted =>
        store := store[key := outcome.newStored];
        reply := Saved(address, DisplayName(k));
        if ValidEntry(address) {
          AddAppends(visible, address);
        }
        forall other | other != k ensures KeyName(other) != key {
          KeyNameInjective(other, k);
        }
      case Refused =>
        reply := SaveFailed;
      case Raised =>
        reply := NoReply;
    }

    /** The platform restarting the process after a config change: the new
        process's environment is the stored config. */
    method Restart()
      modifies this`env
      ensures env == store && store == old(store)
      ensures forall k :: Synced(k)
    {
      env := store;
    }

    /** `/balance <network> <address>`: the same dispatch as `/addaddress`,
        choosing the chain's own client for an EVM name. */
    function BalanceRoute(args: seq<string>): (q: BalanceQuery)
      ensures q == BalanceUsage <==> |args| != 2
      ensures q == UnknownNetwork <==> |args| == 2 && Resolve(clients, args[0]).None?
      ensures q.EvmBalance? ==>
        && |args| == 2 && Resolve(clients, args[0]) == Some(Evm(q.chain))
        && q.chain in clients && q.client == clients[q.chain] && q.address == args[1]
      ensures q.SolanaBalance? <==> |args| == 2 && Resolve(clients, args[0]) == Some(Solana)
      ensures q.SolanaBalance? ==> q.endpoint == solanaUrl && q.address == args[1]
      ensures q.TonBalance? <==> |args| == 2 && Resolve(clients, args[0]) == Some(Ton)
      ensures q.TonBalance? ==> q.address == args[1]
    {
      if |args| != 2 then BalanceUsage
      else
        match Resolve(clients, args[0])
        case None => UnknownNetwork
        case Some(Evm(chain)) => EvmBalance(chain, clients[chain], args[1])
        case Some(Solana) => SolanaBalance(solanaUrl, args[1])
        case Some(Ton) => TonBalance(args[1])
    }
  }

  /** Two `/addaddress` commands with the same arguments on a fresh bot, the
      second accepted by the store, with or without a restart between them.
      After a stored first add, the second is a duplicate only if the process
      restarted; without a restart it still sees the old list, writes again
      and replies as if the address were new. A refused or failed first add
      leaves the second to store the address. */
  method AddTwice(rpcUrls: map<string, string>, vars: map<string, string>, args: seq<string>,
                  answer: StoreAnswer, restart: bool)
    returns (first: AddReply, second: AddReply)
    requires |args| == 2 && ValidEntry(args[1])
    requires Resolve(EvmClients(rpcUrls), args[0]).Some?
    ensures first.Saved? || first.Duplicate? || first == SaveFailed || first == NoReply
    ensures first.Saved? ==> answer == Accepted
    ensures first.Saved? && restart ==> second == Duplicate(args[1])
    ensures first.Saved? && !restart ==> second == first
    ensures first.Duplicate? ==> second == first
    ensures first == SaveFailed || first == NoReply ==> second.Saved? && second.address == args[1]
  {
    var bot := new AddressBot(rpcUrls, vars);
    var k := StorageKey(Resolve(bot.clients, args[0]).value);
    var visible := Lookup(bot.env, KeyName(k));
    var w1, w2;
    first, w1 := bot.AddAddress(args, answer);
    if restart {
      bot.Restart();
      if first.Saved? {
        AddIdempotent(visible, args[1]);
      }
    }
    second, w2 := bot.AddAddress(args, Accepted);
  }

  /** Two `/addaddress` commands for different new addresses `a` then `b` of
      one family on a fresh bot, both accepted by the store. With a restart
      between them the store ends with both; without one the second list is
      built from the process's unchanged environment, so the store ends with
      `b` and `a` is lost. */
  method AddTwo(rpcUrls: map<string, string>, vars: map<string, string>, network: string,
                a: string, b: string, restart: bool)
    returns (first: AddReply, second: AddReply, stored: seq<string>)
    requires ValidEntry(a) && ValidEntry(b) && a != b
    requires Resolve(EvmClients(rpcUrls), network).Some?
    requires var key := KeyName(StorageKey(Resolve(EvmClients(rpcUrls), network).value));
      a !in Split(Lookup(vars, key)) && b !in Split(Lookup(vars, key))
    ensures first.Saved? && first.address == a
    ensures second.Saved? && second.address == b
    ensures var before := Entries(Lookup(vars, KeyName(StorageKey(Resolve(EvmClients(rpcUrls), network).value))));
      && (restart ==> stored == before + [a, b])
      && (!restart ==> stored == before + [b] && a !in stored)
  {
    var bot := new AddressBot(rpcUrls, vars);
    var k := StorageKey(Resolve(bot.clients, network).value);
    var key := KeyName(k);
    var before := Entries(Lookup(vars, key));
    var w1, w2;
    first, w1 := bot.AddAddress([network, a], Accepted);
    assert bot.Stored(k) == before + [a];
    if restart {
      bot.Restart();
      AddAppends(Lookup(vars, key), a);
      assert b !in Split(Lookup(bot.env, key));
    }
    second, w2 := bot.AddAddress([network, b], Accepted);
    stored := bot.Stored(k);
    if restart {
      assert stored == (before + [a]) + [b];
    }
  }
}
