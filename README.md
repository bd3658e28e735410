# address-tracker: the tracked-address registry update

This project models the part of the address-tracker Telegram bot that has
statable behaviour: the `/addaddress` command's update of the tracked-address
lists, and the network-name resolution it shares with `/balance`.

- **Resolution.** The typed network name is lower-cased. It then resolves to
  one of three config variables, or is rejected. A name in the Web3 client map
  gives `TRACKED_EVM_ADDRESSES`. `solana` gives `TRACKED_SOLANA_ADDRESSES`.
  `ton` gives `TRACKED_TON_ADDRESSES`. The client map is
  built from the RPC configuration without the `solana` and `ton` entries, so
  those two names never reach the EVM branch.
- **The list format.** A variable's value is read with Python's `split(",")`.
  Membership is an exact, case-sensitive comparison with the split entries.
  A new address is appended with
  `",".join(filter(None, old + [address]))`. `CommaList` gives these three
  operations and proves their round trips.
- **The handler.** `Bot.AddressBot` holds the Web3 client map, the process
  environment (what `os.getenv` reads) and the platform's config store (what
  the PATCH request writes). Its `AddAddress` method checks the argument
  count and resolves the network. It reads the list from the environment,
  answers a duplicate without writing, and otherwise sends the new value to
  the store. The store changes only when it answers with status 200. The
  store's answer is a parameter: accepted, refused, or an exception raised by
  the request. The environment changes only in `Restart`, the platform
  restarting the process after a config change.

Modules: `Wrappers` (Option), `CommaList` (split/join/filter),
`Networks` (client map, lower-casing, resolution, keys), `Registry` (the list
update), `Bot` (the handlers).

## Behaviour of note

- EVM addresses are not lower-cased before comparison. `0xABC` and `0xabc`
  are two entries (`Registry.CaseSensitive`).
- There is no in-memory address set. Each add reads the variable from the
  process environment, and the store request does not change that
  environment. Until the process restarts, a repeated add of the same address
  writes again and replies as saved (`Bot.AddTwice`). An add of `A` followed
  by an add of `B` stores the old entries and `B`, so `A` is lost, even when
  the two commands run one after the other (`Bot.AddTwo`).
- Addresses are not validated. An address holding a comma is stored as
  separate pieces, is never found again, and is appended again on every add
  (`Registry.CommaAddressRepeats`).
- The program has no block-polling loop, scan cursor or transaction matcher.

## Model

| member | source | states |
|---|---|---|
| `CommaList.Split` | bot.py:59 | `split(",")` always gives at least one entry, no entry holds a comma, and there is one entry more than there are commas |
| `CommaList.NonEmpty` | bot.py:64 | `filter(None, …)` keeps exactly the non-empty entries, never adds one, and drops every empty one |
| `CommaList.Join` | bot.py:64 | `",".join` gives the empty text only for no entries or one empty entry, and joining comma-free entries inserts one comma fewer than there are entries; `SplitJoin`, `JoinSplit` and `JoinSnoc` state its round trips |
| `CommaList.NonEmptyAppend` | bot.py:64 | filtering distributes over concatenation, so the kept entries keep their order |
| `CommaList.SplitJoin` | bot.py:59-64 | splitting the join of a non-empty list of comma-free entries gives that list back |
| `CommaList.JoinSplit` | bot.py:59-64 | joining the split of any text gives the text back |
| `CommaList.JoinSnoc` | bot.py:64 | joining one more entry at the end appends a comma and that entry to the joined text |
| `Networks.EvmClients` | bot.py:20 | the client map has exactly the configured chains other than `solana` and `ton`, each client on its own chain's URL |
| `Networks.SolanaUrl` | bot.py:23 | the Solana endpoint is the `solana` entry of the configuration, absent when there is none |
| `Networks.KeyName` | bot.py:47-53 | the three keys are the variables `TRACKED_EVM_ADDRESSES`, `TRACKED_SOLANA_ADDRESSES` and `TRACKED_TON_ADDRESSES`; `KeyNameInjective` states that they are distinct |
| `Networks.DisplayName` | bot.py:48-54 | the family names in the confirmation reply: `EVM Chains`, `Solana` and `TON` |
| `Networks.LowerChar` | bot.py:44 | an ASCII capital maps to its small letter; every other character is unchanged |
| `Networks.Lower` | bot.py:44 | lower-casing keeps the length and lower-cases each character |
| `Networks.LowerIdempotent` | bot.py:44 | lower-casing twice equals lower-casing once |
| `Networks.StorageKey` | bot.py:46-54 | every EVM chain maps to the shared EVM key, Solana and TON to their own keys, in both directions |
| `Networks.KeyNameInjective` | bot.py:47-53 | the three keys are stored under three different variable names |
| `Networks.Resolve` | bot.py:44-57 | a lower-cased name in the client map resolves to that EVM chain; otherwise `solana` gives Solana and `ton` gives TON; every other name is rejected; each case is an if-and-only-if |
| `Networks.ResolveIgnoresCase` | bot.py:44 | resolution gives the same answer for a name and its lower-cased form |
| `Networks.BranchesDisjoint` | bot.py:20-54 | on the client map built from any configuration, `solana` and `ton` resolve to their own families, and a resolved EVM chain is a configured chain other than those two |
| `Networks.ResolveKey` | bot.py:44-57 | in terms of the configuration: a key is the EVM key iff the lower-cased name is a configured non-Solana, non-TON chain; it is the Solana key iff the name is `solana`, the TON key iff it is `ton`; otherwise the name is rejected |
| `Networks.CapitalisedNames` | bot.py:44-54 | `SOLANA` and `Ton` reach the Solana and TON families |
| `Registry.Lookup` | bot.py:59 | an unset variable reads as the empty text, a set one as its value |
| `Registry.Entries` | bot.py:59-64 | the tracked addresses of a stored value are exactly its non-empty split entries, and none holds a comma |
| `Registry.AddToList` | bot.py:59-64 | the outcome is "already tracked" exactly when the address equals a split entry; otherwise, for a non-empty address, the new value is the join of the old non-empty entries followed by the address |
| `Registry.AddAppends` | bot.py:59-64 | for a non-empty, comma-free address, splitting the new value gives the old non-empty entries in order and then the address, so the list grows by exactly one |
| `Registry.AddKeepsNoDup` | bot.py:59-64 | for a non-empty, comma-free address, a list without repeats stays without repeats after the insert |
| `Registry.AddIdempotent` | bot.py:59-64 | adding the same non-empty, comma-free address to the value just written gives "already tracked" |
| `Registry.AddToEmpty` | bot.py:59-64 | on an unset variable the first add stores exactly the address, with no leading comma |
| `Registry.AddToWellFormed` | bot.py:64 | on a non-empty value with no empty entries, the new value is the old text, a comma and the address |
| `Registry.AddKeepsWellFormed` | bot.py:64 | a value written for a non-empty, comma-free address is non-empty and has no empty entry |
| `Registry.DistinctBothStored` | bot.py:60-64 | any two different non-empty, comma-free addresses are stored as two entries, and each is then found |
| `Registry.CaseSensitive` | bot.py:60 | `0xABC` and `0xabc` are stored as two entries, and each is then found |
| `Registry.CommaAddressRepeats` | bot.py:59-64 | an address `a,b` is not found again after it is stored, so it is appended a second time and the list then holds repeats |
| `Bot.AddressBot.constructor` | bot.py:16-23 | the client map and the Solana endpoint are built from the RPC configuration; the client map holds neither `solana` nor `ton`; the environment and the store start equal |
| `Bot.AddressBot.AddAddress` | bot.py:37-69 | a wrong argument count gives the usage reply and an unknown network the invalid-network reply, both with no write; an address in the list read from the environment is a duplicate with no write; otherwise the new list is sent to the store, which changes only on status 200, gives the failure reply on another status and no reply when the request raises; the environment never changes; a name lower-casing to `solana` or `ton` writes only that family's variable; after a successful add of a valid address, the stored list is the environment's list plus the address (the old stored list plus the address when the two agreed) and the other families' lists are unchanged |
| `Bot.AddressBot.Restart` | bot.py:59 | a restart makes the environment equal to the store, so every list the process sees is the stored one |
| `Bot.AddressBot.BalanceRoute` | bot.py:73-107 | `/balance` gives the usage reply for a wrong argument count; it queries the resolved chain's own client, the Solana client or the TON lookup for the given address, and gives the unknown-network reply otherwise |
| `Bot.AddTwice` | bot.py:59-69 | two identical adds of a valid address on a fresh bot: after a stored first add the second is a duplicate if the process restarted between them and is saved again if it did not; after a refused or failed first add the second stores the address |
| `Bot.AddTwo` | bot.py:59-69 | adds of two different new addresses `a` then `b`: with a restart between them the store ends with the old entries, `a` and `b`; without one it ends with the old entries and `b`, and `a` is lost |

## Left out

- The HTTP request to the config store is left out. Its outcome is the `answer` parameter of `AddAddress`, and `ConfigWrite` is the request. A request that raises is modelled as leaving the store unchanged, although it may have reached the store before failing. The request has no timeout and can hang; a handler that never returns is not modelled.
- Bot.AddressBot.Restart: the platform restarts the process after a config change, but when it does so is not modelled. `Restart` is a separate step that a caller places between commands, and commands answered before it see the old environment.
- Two overlapping `/addaddress` commands are not modelled. Each handler call is one sequential step. The lost update that needs no overlap is modelled (`Bot.AddTwo`).
- Telegram plumbing is left out: the updater, handler registration, polling start-up and all reply text. Replies are the `AddReply` and `BalanceQuery` values.
- Balance queries are left out: the Web3, Solana and TON calls, the floating-point `/ 1e9` and wei-to-ether scaling, and the `:.4f` formatting are foreign calls over floating point. `BalanceRoute` models only which query is made.
- Reading the environment and loading `rpc_config.json` at start-up are left out. The configuration and the initial variables are constructor parameters.
- Networks.Lower: only ASCII letters are lower-cased. Python's Unicode case mapping is not modelled, including mappings that change the length, such as `'İ'`, which lower-cases to two characters.
- Networks.LowerChar: every non-ASCII character is left unchanged, while Python maps non-ASCII capitals such as `'À'` to their small letters.
