# BlockChainMetrics — a Dafny model of the NFT reconciliation core

BlockChainMetrics walks the NFT transfers of a list of wallets on a block explorer (Polygonscan-
and Etherscan-style APIs). It labels each transfer, from the wallet's point of view, as the
creation, sale, purchase or governance grant of a token. It then totals the governance NFTs,
sales, purchases, revenue, costs, and distinct sellers and buyers over every wallet.

This project models that core in Dafny, one module per source file:

| module | file | form |
|---|---|---|
| `Wrappers` | — | `Option` and `Result` |
| `Utils` | `utils.py` | pure functions: `HexStr2Int`, `Int2HexStr` and their round trips |
| `Scan` | `blockchainscan.py` | The explorer's answers are an `Explorer` value. The class `BlockChainScan` has the throttle ring buffer in an `array`. `get_wallets` is a method that deduplicates addresses. The token-transfer query carries its argument guard. |
| `Tokens` | `nft.py` | The class `NFT` has its parallel list fields and `update_nft` / `set_*` as methods. The queries are functions over those lists. The labelling rules are pure functions. |
| `Ledger` | `addresstransactions.py` | `TRANS_CACHE` is the class `TransCache`, holding a `map`. `AddressTransactions` is a class whose methods fill the cache, resolve transactions, find or append NFTs and feed them transfers. |
| `Metrics` | `blockchain_metrics.py` | the method `metrics_per_wallet` and the nested integer totals loop of `calculate_metrics` |

Each method that changes state is proved against a specification function of the old state:
- the cache loop against `AbsorbRecords`;
- transfer parsing against `ApplyTransfers`;
- `metrics_per_wallet` against `SurveyWallets`;
- the totals loop against `Tally`;
- the throttle against `ThrottleStep`.

The lemmas beside those functions state what the source promises:
- first-write-wins caching;
- the order in which a transaction is resolved;
- unique NFT keys;
- the status invariant of an NFT;
- the totals as plain sums over the NFTs;
- the hex round trips.

**The misaligned price lists.** `update_nft` appends the value of a transfer before it classifies the transfer. A refused label is caught and printed; the run goes on unless a recorded hash is a string (see below). After a refusal, `statuses` is shorter than `values`. `get_revenue` and `get_costs` pair `statuses[i]` with `values[i]`, so they then read the price of an earlier transfer. `Tokens.CostsShiftAfterRefusal` shows a two-transfer history where `get_costs` reports 0 for a purchase made for 50. The model keeps that behaviour. Its price and party statements are exact whenever every applied transfer was labelled.

**Source behaviours worth knowing, which the model keeps:**
- When a transaction misses the cache and the by-hash query, the normal transactions of the counterparty are fetched again, even when they were loaded before (addresstransactions.py:66-69).
- A transaction found by the by-hash query is used, and it is not added to the cache (addresstransactions.py:60).
- An error in the fields of a wallet's records ends the whole run, not only that wallet: nothing in `metrics_per_wallet` catches it (blockchain_metrics.py:20-36). A wallet with no transaction list is skipped (blockchain_metrics.py:27-28).
- A transfer from a wallet to itself still resolves its transaction and still gets an empty NFT from `retrieve_nft` before `update_nft` ignores it (addresstransactions.py:57-79). If no other transfer labels that NFT, `calculate_metrics` raises "no known status" on it (blockchain_metrics.py:111-112).
- When a label is refused, the `except` handler of `update_nft` prints every recorded hash with `Int2HexStr`. A hash the by-hash query returned as a string makes `hex()` raise there, and that error ends the run (nft.py:76-78).

## Model

| member | source | states |
|---|---|---|
| Utils.Int2HexStr | utils.py:22-29 | specification function of the rendering; its properties are the contracts of `Int2HexStrShape`, `Int2HexStrZero`, `HexRoundTrip` and `Int2HexStrIsCanonical` |
| Utils.HexStr2Int | utils.py:15-20 | `0x` in either case gives 0. The empty string gives `None`. Any other string is an error exactly when it is not an optionally `0x`-prefixed, non-empty run of hex digits. |
| Utils.ParseHex | utils.py:20 | `int(s, 16)` succeeds exactly on an optional `0x` prefix followed by at least one hex digit |
| Utils.MinimalHexDigits | utils.py:26-29 | the digits of `hex(n)`: at least one, lower case, with a leading `0` only for zero |
| Utils.MinimalHexDigitsLength | utils.py:26 | `hex(n)` has the fewest digits that can hold `n` |
| Utils.Int2HexStrShape | utils.py:22-29 | `Int2HexStr(n)` starts with `0x`, has lower-case digits, and its digit count is the minimal hex length rounded up to even |
| Utils.Int2HexStrZero | utils.py:26-29 | `Int2HexStr(0)` is `0x00` |
| Utils.HexRoundTrip | utils.py:15-29 | `HexStr2Int(Int2HexStr(n))` gives back `n` for every natural `n` |
| Utils.Int2HexStrIsCanonical | utils.py:22-29 | every rendering is canonical: lower case, an even digit count, and no leading zero byte except `0x00` |
| Utils.CanonicalRoundTrip | utils.py:15-29 | every canonical string parses, and renders back to itself |
| Utils.RenderDigits | utils.py:26-29 | the digits of a canonical string are exactly what `Int2HexStr` renders for their value |
| Utils.MinimalHexDigitsOfValue | utils.py:26 | digits without a leading zero are the minimal digits of their value |
| Utils.LeadingZeroValue | utils.py:28-29 | the padding zero does not change the value |
| Utils.ZeroAddressIsNotCanonical | utils.py:20-29 | the 40-digit zero address parses to 0, which renders as `0x00`, not as itself |
| Scan.ThrottleStep | blockchainscan.py:25-54 | It writes the current slot, and the window start is the next slot mod `calls_sec+1`. It gives no pause when the window slot is 0 or a second has passed. It raises exactly when the clock went backwards. Otherwise it pauses `1000 - elapsed + SAFETY` ms, refreshes the slot and advances `count`. |
| Scan.NextSlot | blockchainscan.py:32 | the next slot wraps to 0 after the last one |
| Scan.BlockChainScan.constructor | blockchainscan.py:13-23 | `calls_sec+1` zero time stamps, and `count` is 0 |
| Scan.BlockChainScan.Throttle | blockchainscan.py:25-54 | The ring buffer and `count` become those of `ThrottleStep`. `count` stays in `[0, calls_sec]`. The first `calls_sec` calls never pause. |
| Scan.BlockChainScan.GetErcTokenTransfers | blockchainscan.py:236-252 | It raises exactly when both the address and the contract are `None`. Otherwise it returns the explorer's answer to the query. |
| Scan.ParsedAddress | blockchainscan.py:143-149 | an empty `from`/`to` adds no address, and a non-empty one adds exactly one |
| Scan.ListAddressesErrorPersists | blockchainscan.py:140-149 | an address that fails to parse ends the whole listing with that error |
| Scan.ListAddressesStep | blockchainscan.py:142-149 | each transaction appends its `from`, then its `to`, or ends the listing with its error |
| Scan.Dedup | blockchainscan.py:138-151 | specification function of the wallet list; its properties are the contracts of `DedupElements`, `DedupNoDuplicates` and `DedupFirstAppearanceOrder` |
| Scan.ListAddresses | blockchainscan.py:140-149 | specification function of the addresses met, in order; its properties are the contracts of `ListAddressesStep` and `ListAddressesErrorPersists` |
| Scan.BlockChainScan.Candidates | blockchainscan.py:139-149 | specification function of the addresses of every contract's transactions; `CandidatesErrorPersists` and `GetWallets` state it |
| Scan.DedupSnoc | blockchainscan.py:145-149 | an address is appended only when it is not yet in the list |
| Scan.DedupElements | blockchainscan.py:138-151 | the wallets are exactly the addresses met |
| Scan.DedupNoDuplicates | blockchainscan.py:138-151 | the wallets have no duplicates |
| Scan.DedupFirstAppearanceOrder | blockchainscan.py:138-151 | the wallets keep the order in which the addresses first appear |
| Scan.DedupOrderPair | blockchainscan.py:145-149 | one appended address comes after every address kept before it |
| Scan.AbsorbAddress | blockchainscan.py:143-149 | one `if adrs not in wallets: append` step keeps the list equal to the deduplicated addresses seen |
| Scan.AbsorbTransaction | blockchainscan.py:142-149 | the `from`, then the `to` of one transaction are absorbed, or its parse error is returned |
| Scan.AbsorbTransactions | blockchainscan.py:141-149 | the inner loop over one contract's transactions absorbs all of their addresses in order |
| Scan.BlockChainScan.CandidatesErrorPersists | blockchainscan.py:140-149 | a contract without a transaction list, or a bad address, fails the whole call |
| Scan.BlockChainScan.GetWallets | blockchainscan.py:138-151 | The result is the deduplication, in first-appearance order, of the non-empty `from`/`to` addresses of every contract's transactions. It fails exactly when one contract's list is missing or an address is not hex. |
| Tokens.NftCreationAddress | nft.py:8 | the creation address is `HexStr2Int` of the 40-digit zero address |
| Tokens.DecimalDigits | nft.py:16 | the decimal rendering of an id is a non-empty string of digits |
| Tokens.DecimalRoundTrip | nft.py:16 | a decimal rendering reads back as its number |
| Tokens.AddressText | nft.py:16 | an address renders as its decimal digits, and `None` as `None` |
| Tokens.GenKey | nft.py:14-16 | specification function of the NFT key; `GenKeyParts` and `GenKeyInjective` state it |
| Tokens.GenKeyParts | nft.py:14-16 | the key is the id's digits, an `_`, then the contract's rendering |
| Tokens.GenKeyInjective | nft.py:14-16 | distinct (token id, contract) pairs get distinct keys |
| Tokens.ParseValue | nft.py:46-51 | An integer value is kept as it is. A `0x`-prefixed string is parsed as hex. Any other form raises. |
| Tokens.ParseValueOfHexString | nft.py:48-49 | a value rendered by `Int2HexStr` is read back unchanged |
| Tokens.CountOf | nft.py:109-128 | specification function of the label counts; `CountOfSnoc`, `CountOfPositive` and `CountOfStatuses` state it |
| Tokens.ValueTotal | nft.py:161-173 | specification function of revenue and costs, pairing statuses with values by position; `ValueTotalAbsent`, `ValueTotalSnoc`, `AlignedValueTotal` and `CostsShiftAfterRefusal` state it |
| Tokens.PartiesOf | nft.py:116-135 | specification function of sellers and buyers; `PartiesCount`, `PartiesSnoc`, `AlignedSellers` and `AlignedBuyers` state it |
| Tokens.CountOfSnoc | nft.py:109-114 | appending a status adds one to its own count only |
| Tokens.CountOfPositive | nft.py:109-141 | a label's count is positive exactly when the label occurs, and is at most the number of statuses |
| Tokens.ValueTotalAbsent | nft.py:161-173 | with no sale (purchase), the revenue (cost) is 0 |
| Tokens.PartiesCount | nft.py:116-135 | there are as many sellers (buyers) as sales (purchases) |
| Tokens.FirstCreation | nft.py:148-150 | the first position from `start` whose status is `created`, or none |
| Tokens.EverCreated | nft.py:144-153 | `was_ever_created` raises exactly when `created` occurs after position 0. Otherwise it holds exactly when the first status is `created`, and it is false on no status. |
| Tokens.Classify | nft.py:55-75 | specification function of the `try` block's dispatch; `ClassifyOutcomes` and `ClassifyPreservesInvariant` state it |
| Tokens.CheckCreated | nft.py:81-88 | specification function of the guards of `set_created`; `ClassifyOutcomes` and `NFT.SetCreated` state them |
| Tokens.CheckSold | nft.py:90-95 | specification function of the guards of `set_sold`; `ClassifyOutcomes` and `NFT.SetSold` state them |
| Tokens.CheckBought | nft.py:97-102 | specification function of the guards of `set_bought`; `ClassifyOutcomes` and `NFT.SetBought` state them |
| Tokens.CheckGov | nft.py:104-107 | specification function of the guard of `set_gov`; `ClassifyOutcomes` and `NFT.SetGov` state it |
| Tokens.ClassifyOutcomes | nft.py:55-107 | For each label, the wallet's place in the transfer and the guards on history and last value that give it. The wallet is neither party exactly when the label is refused as "not a party". |
| Tokens.ClassifyPreservesInvariant | nft.py:81-107 | every label that is appended keeps `created` first only, and keeps governance apart from sales and purchases |
| Tokens.InvariantConsequences | nft.py:137-159 | On reachable statuses, governance excludes any sale or purchase. `was_ever_created` never raises, and it holds exactly when `created` occurs. |
| Tokens.StatusesNotLongerThanValues | nft.py:36-79 | There are never more statuses than values, nor more values than transfers. Statuses match transfers in number exactly when every transfer was labelled. |
| Tokens.CountOfStatuses | nft.py:109-128 | the sales (purchases) counted are exactly the transfers labelled so |
| Tokens.CountOfStatusesStep | nft.py:109-114 | one more transfer adds to the count only when it was labelled so |
| Tokens.UnlabelledKeepsStatuses | nft.py:76-79 | a transfer whose label was refused adds no status |
| Tokens.WellFormedPrefix | nft.py:36-79 | the earlier transfers of a well-formed history are well formed |
| Tokens.ValueTotalIgnoresExtension | nft.py:161-173 | values beyond the last status do not change revenue or costs |
| Tokens.PartiesIgnoreExtension | nft.py:116-135 | parties beyond the last status do not change sellers or buyers |
| Tokens.ValueTotalSnoc | nft.py:161-173 | a new status with its value adds that value to its own total only |
| Tokens.PartiesSnoc | nft.py:116-135 | a new status with its party adds that party to its own list only |
| Tokens.AlignedValueTotal | nft.py:161-173 | when every transfer was labelled, revenue (costs) is the sum of the values of the transfers labelled sold (bought) |
| Tokens.AlignedSellers | nft.py:116-121 | when every transfer was labelled, the sellers are the `from` of the sold transfers, in order |
| Tokens.AlignedBuyers | nft.py:130-135 | when every transfer was labelled, the buyers are the `to` of the bought transfers, in order |
| Tokens.CostsShiftAfterRefusal | nft.py:168-173 | after a purchase refused for no money, `get_costs` pairs the next purchase's status with the refused value 0 |
| Tokens.LogSnoc | nft.py:36-52 | one applied transfer adds one `from` and one `to`, a value when one was read, and a status when one was given |
| Tokens.UpdateLog | nft.py:32-79 | A transfer to oneself changes nothing. Otherwise one transfer is recorded. An unreadable value raises before classification. A read value is recorded and classified, and the label, when there is one, is recorded. A refused label is reported only when every recorded hash is an integer; otherwise printing the hashes raises. |
| Tokens.NFT.ReportRefusal | nft.py:76-78 | the `except` handler: the refusal is reported when every hash in `txhashes` (equally, every hash of the history) is an integer, and the call raises `HashNotInteger` otherwise |
| Tokens.NFT.HashesPrintable | nft.py:78 | the handler's pass over `txhashes` succeeds exactly when every recorded hash is an integer |
| Tokens.UpdateLogPreservesInvariant | nft.py:32-107 | every update keeps the history well formed and its statuses reachable |
| Tokens.AppendConsistent | nft.py:36-52 | appending one justified transfer keeps the parallel lists the projections of the history |
| Tokens.LabelledEntry | nft.py:55-79 | a recorded label agrees with the transfer's shape and keeps the status invariant |
| Tokens.ConsistentAfterAppend | nft.py:36-52 | the parallel lists after one append are the projections of the extended history |
| Tokens.NFT.constructor | nft.py:19-30 | a new NFT has its id and network, and every list is empty |
| Tokens.NFT.SetCreated | nft.py:81-88 | It appends `created` only when there is no status yet and the last value is 0. Otherwise it raises and leaves the statuses unchanged. |
| Tokens.NFT.SetSold | nft.py:90-95 | It appends `sold` only after some status, never for governance, and only for a non-zero value. Otherwise it raises and leaves the statuses unchanged. |
| Tokens.NFT.SetBought | nft.py:97-102 | It appends `bought` only when the NFT is not governance and the value is non-zero. Otherwise it raises and leaves the statuses unchanged. |
| Tokens.NFT.SetGov | nft.py:104-107 | It appends `governance` only when the NFT was never sold nor bought. Otherwise it raises and leaves the statuses unchanged. |
| Tokens.NFT.UpdateNft | nft.py:32-79 | A transfer with `to == from` changes no field. Otherwise the transfer's fields are appended. An unreadable value raises with no value and no status appended. A read value is appended and the transfer classified. A refused label appends no status, and it is reported when every hash in `txhashes` is an integer; otherwise the call raises. |
| Tokens.NFT.AppendTransfer | nft.py:36-44 | the date, parties, contract, token value, name and hash are each appended once |
| Tokens.NFT.RecordUnread | nft.py:36-51 | a transfer whose value cannot be read adds its fields but no value and no status |
| Tokens.NFT.RecordRead | nft.py:36-79 | a transfer whose value was read adds it, and adds exactly the label the classification gives |
| Tokens.NFT.Label | nft.py:55-79 | the status appended is the one the dispatch on the last transfer gives, or none |
| Tokens.NFT.GetNrSales | nft.py:109-114 | the number of transfers labelled sold |
| Tokens.NFT.GetNrPurchases | nft.py:123-128 | the number of transfers labelled bought |
| Tokens.NFT.GetSellers | nft.py:116-121 | one seller per sale; when every transfer was labelled, the `from` of each sold transfer |
| Tokens.NFT.GetBuyers | nft.py:130-135 | one buyer per purchase; when every transfer was labelled, the `to` of each bought transfer |
| Tokens.NFT.GetRevenue | nft.py:161-166 | 0 with no sale; when every transfer was labelled, the sum of the sold transfers' values |
| Tokens.NFT.GetCosts | nft.py:168-173 | 0 with no purchase; when every transfer was labelled, the sum of the bought transfers' values |
| Tokens.NFT.WasEverSold | nft.py:137-138 | some transfer was labelled sold |
| Tokens.NFT.WasEverBought | nft.py:140-141 | some transfer was labelled bought |
| Tokens.NFT.IsGov | nft.py:155-159 | some status is governance, and then there is no sale and no purchase |
| Tokens.NFT.WasEverCreated | nft.py:144-153 | it never raises on a reachable NFT, and it holds exactly when a transfer was labelled created, which is then the first status |
| Ledger.HashKey | addresstransactions.py:29-30 | the cache key exists exactly when the hash field reads as an integer |
| Ledger.HashKeyIsCanonical | addresstransactions.py:29-31 | the key is the canonical spelling of the hash, and it reads back as the same integer |
| Ledger.CacheEntry | addresstransactions.py:32-37 | the entry exists exactly when `from`, `to` and `methodId` read as addresses; it holds the time stamp, the hash as the integer `h`, the value, and the parsed addresses |
| Ledger.AbsorbRecord | addresstransactions.py:28-37 | A key already cached is left alone (first write wins). A new key gets the record's entry. A bad hash or address raises. |
| Ledger.AbsorbRecords | addresstransactions.py:27-37 | the loop can only fail on a bad hex field or an empty hash |
| Ledger.AbsorbRecordsErrorPersists | addresstransactions.py:27-37 | the first failing record ends the loop with its error |
| Ledger.AbsorbRecordsKeepsEntries | addresstransactions.py:30 | no cached entry is ever overwritten or removed |
| Ledger.AbsorbRecordsCovers | addresstransactions.py:27-37 | after a complete loop, every fetched record's key is in the cache |
| Ledger.AbsorbRecordsAddsOnlyFetched | addresstransactions.py:27-37 | only the keys of fetched records are added |
| Ledger.AbsorbRecordsFirstWins | addresstransactions.py:30-37 | a new key holds the entry of its first record, whatever later records share it |
| Ledger.Target | addresstransactions.py:18-21 | function without a contract of its own: no address means the wallet itself, otherwise the given address; `Resolve` and `GetTransactions` state what is fetched through it |
| Ledger.FetchTransactions | addresstransactions.py:17-38 | It returns false and leaves the cache alone exactly when there is no listing. It never loses an entry. When it returns true, every fetched hash is cached. |
| Ledger.Lookup | addresstransactions.py:107-110 | specification function of `retrieve_transaction`; `FetchedHashIsFound` and `AddressTransactions.RetrieveTransaction` state it |
| Ledger.FetchedHashIsFound | addresstransactions.py:107-110 | a hash inserted in any spelling is found by `retrieve_transaction` |
| Ledger.Resolve | addresstransactions.py:57-75 | The order is the cache, then the by-hash query, then the counterparty's history and the cache again. The counterparty is `to` when the wallet is `from`, `from` otherwise. After two misses, the cache and the result are those of fetching the counterparty's normal transactions: the fetch's error, the cached transaction, or a failure that names the hash, which is still absent. |
| Ledger.CounterpartyListingResolves | addresstransactions.py:62-75 | when the counterparty's listing holds the hash in any spelling and the fetch succeeds, the fallback finds the transaction in the cache |
| Ledger.TokenValue | addresstransactions.py:48-53 | ERC721 gives 1, ERC1155 gives the record's `tokenValue`, and any other type raises |
| Ledger.FindBook | addresstransactions.py:100-102 | the first NFT with the key, or none when no NFT has it |
| Ledger.RetrieveBook | addresstransactions.py:98-105 | It returns the existing NFT with the key, or exactly one new NFT appended. Keys stay unique. |
| Ledger.ReadFields | addresstransactions.py:43-56 | specification function of the fields one transfer reads; `ReadFieldsContract` and `TokenValue` state it |
| Ledger.ReadFieldsContract | addresstransactions.py:47 | the contract read is the one the NFT key uses |
| Ledger.ApplyTransfer | addresstransactions.py:41-79 | specification function of one iteration; `ApplyTransferPreserves` and `AddressTransactions.ParseTransfer` state it |
| Ledger.ApplyFields | addresstransactions.py:57-79 | specification function of resolving, then feeding; `ApplyFieldsFed` states it |
| Ledger.FeedBook | addresstransactions.py:78-79 | specification function of `retrieve_nft` then `update_nft`; `FeedBookPreserves` states it |
| Ledger.ApplyTransfers | addresstransactions.py:40-80 | specification function of the loop; `ApplyTransfersPreserves`, `ApplyTransfersCovers`, `ApplyTransfersErrorPersists` and `AddressTransactions.ParseTokenTransfers` state it |
| Ledger.ApplyFieldsFed | addresstransactions.py:57-79 | a transfer whose transaction resolved ends as feeding its NFT leaves it |
| Ledger.ApplyTransfersErrorPersists | addresstransactions.py:41-79 | the first failing transfer ends the loop with its error |
| Ledger.SetTransfers | addresstransactions.py:82-96 | no listing returns false and changes nothing; otherwise every listed transfer is parsed |
| Ledger.ExtendsTransitive | addresstransactions.py:98-105 | NFT lists only grow, and histories only extend |
| Ledger.UpdateLogKeepsHistory | addresstransactions.py:79 | feeding a transfer keeps an NFT's history its wallet's own and extends it |
| Ledger.ReplaceLogPreserves | addresstransactions.py:78-79 | an extended history in place keeps the NFTs the wallet's |
| Ledger.RetrieveBookPreserves | addresstransactions.py:98-105 | finding or appending an NFT keeps the keys unique |
| Ledger.FindBookExtends | addresstransactions.py:98-105 | an NFT once present stays present |
| Ledger.FeedBookPreserves | addresstransactions.py:78-79 | a fed transfer leaves its NFT present, and every history well formed and reachable |
| Ledger.ApplyTransferPreserves | addresstransactions.py:41-79 | one transfer keeps keys unique and histories reachable, never loses a cache entry, and on success its NFT is present |
| Ledger.ApplyTransfersPreserves | addresstransactions.py:40-80 | the whole loop keeps keys unique and histories reachable, and never loses a cache entry |
| Ledger.CoversExtends | addresstransactions.py:98-105 | NFTs present stay present as the list grows |
| Ledger.CoversSnoc | addresstransactions.py:78 | one more transfer's NFT present extends the coverage |
| Ledger.ApplyTransfersCovers | addresstransactions.py:41-80 | after a complete loop, every transfer has its NFT |
| Ledger.WellFormedSnoc | addresstransactions.py:103-104 | appending a new NFT with a fresh key keeps the list well formed |
| Ledger.TransCache.constructor | addresstransactions.py:6 | the cache starts empty |
| Ledger.AddressTransactions.constructor | addresstransactions.py:11-15 | a wallet starts with no NFT |
| Ledger.AddressTransactions.GetTransactions | addresstransactions.py:17-38 | the cache and the result are those of `FetchTransactions` |
| Ledger.AddressTransactions.AbsorbAll | addresstransactions.py:27-37 | the cache loop ends as `AbsorbRecords` says |
| Ledger.AddressTransactions.AbsorbOne | addresstransactions.py:28-37 | one record updates the cache as `AbsorbRecord` says, or fails with `AbsorbRecord`'s error |
| Ledger.AddressTransactions.RetrieveTransaction | addresstransactions.py:107-110 | the cached transaction under the normalised hash, or none |
| Ledger.AddressTransactions.ResolveTransaction | addresstransactions.py:57-75 | the transaction and the cache left are those of `Resolve` |
| Ledger.AddressTransactions.FindNft | addresstransactions.py:100-102 | the position of the first NFT with the key |
| Ledger.AddressTransactions.RetrieveNft | addresstransactions.py:98-105 | It returns the NFT keyed `gen_key(id, contract)`. That is the existing one, or one fresh NFT appended. |
| Ledger.AddressTransactions.AddNft | addresstransactions.py:103-105 | one fresh, empty NFT appended under the key |
| Ledger.AddressTransactions.ParseTransfer | addresstransactions.py:42-79 | one iteration ends as `ApplyTransfer` says; only fresh NFTs are added |
| Ledger.AddressTransactions.ResolveAndFeed | addresstransactions.py:56-79 | resolving, then feeding, ends as `ApplyFields` says |
| Ledger.AddressTransactions.Feed | addresstransactions.py:78-79 | the transfer goes to `update_nft` of its NFT, with the wallet as the actor |
| Ledger.AddressTransactions.UpdateHeld | addresstransactions.py:79 | only the fed NFT's history changes, as `update_nft` says |
| Ledger.AddressTransactions.ParseNext | addresstransactions.py:41-79 | one more transfer extends the prefix run, or ends the whole run with its error |
| Ledger.AddressTransactions.ParseTokenTransfers | addresstransactions.py:40-80 | the transfers are applied in list order, stopping at the first error |
| Ledger.AddressTransactions.SetErc1155Transfers | addresstransactions.py:82-88 | the wallet's ERC-1155 transfers, or false and no change without a listing |
| Ledger.AddressTransactions.SetErc721Transfers | addresstransactions.py:90-96 | the wallet's ERC-721 transfers, or false and no change without a listing |
| Metrics.Measure | blockchain_metrics.py:25-34 | a wallet is skipped exactly when it has no transaction list |
| Metrics.MeasureKeepsCache | blockchain_metrics.py:25-32 | measuring a wallet never loses a cache entry |
| Metrics.MeasureBooks | blockchain_metrics.py:25-34 | A kept wallet's NFTs have unique keys and histories of its own. Every ERC-1155 and ERC-721 transfer has its NFT. |
| Metrics.SurveyWallets | blockchain_metrics.py:20-36 | specification function of `metrics_per_wallet`; `SurveyKeeps`, `SurveyErrorPersists` and `MetricsPerWallet` state it |
| Metrics.SurveyErrorPersists | blockchain_metrics.py:22-34 | the first failing wallet ends the run with its error |
| Metrics.WithTransactions | blockchain_metrics.py:27-28 | the wallets that have a transaction list |
| Metrics.SurveyKeeps | blockchain_metrics.py:22-34 | exactly the wallets with a transaction list are kept, in input order, each with NFTs of its own |
| Metrics.SurveySnoc | blockchain_metrics.py:22-34 | one more wallet is kept, skipped, or ends the run |
| Metrics.MetricsPerWallet | blockchain_metrics.py:20-36 | the kept wallets and the cache are those of `SurveyWallets`; each kept object is fresh and shares the scanner and the cache |
| Metrics.SurveyStep | blockchain_metrics.py:22-34 | one iteration extends the kept list as `SurveyWallets` says |
| Metrics.MeasureNext | blockchain_metrics.py:25-34 | one wallet measured, as `Measure` says |
| Metrics.MeasureWallet | blockchain_metrics.py:25-34 | `get_transactions`, then ERC-1155, then ERC-721, ending as `Measure` says |
| Metrics.Reported | blockchain_metrics.py:36 | the returned objects seen as wallet addresses and NFT histories |
| Metrics.Views | blockchain_metrics.py:86-97 | each object's address and NFT histories, in order |
| Metrics.BookFacts | blockchain_metrics.py:98-111 | specification function of the query answers read off an NFT's history; `BookFactsCoherent`, `BookFactsHistory` and `AnswersAreFacts` state it |
| Metrics.BookFactsCoherent | blockchain_metrics.py:98-111 | A governance NFT has no sale nor purchase. An NFT never sold has no seller and no revenue, and one never bought has no buyer and no cost. |
| Metrics.BookFactsHistory | blockchain_metrics.py:102-110 | the counts are the labelled transfers; when all were labelled, revenue, costs and parties are those of the labelled transfers |
| Metrics.Contribution | blockchain_metrics.py:98-101 | a governance NFT contributes only to the governance count |
| Metrics.Tally | blockchain_metrics.py:89-120 | specification function of the guarded loop; `TallyMatchesReference` states it |
| Metrics.Reference | blockchain_metrics.py:89-120 | the plain sums of every NFT's counters, an independent definition that `TallyMatchesReference`, `ReferenceCounts` and `ReferenceParties` relate to the loop |
| Metrics.TallyStep | blockchain_metrics.py:97-112 | A governance NFT counts once and is skipped. A sold or bought NFT adds its counts, sums and parties. An NFT of no known status raises. |
| Metrics.FirstUnknown | blockchain_metrics.py:111-112 | the first NFT of no known status, or none |
| Metrics.FirstUnknownSnoc | blockchain_metrics.py:111-112 | the first unknown NFT of a longer list |
| Metrics.TallyMatchesReference | blockchain_metrics.py:86-120 | the guarded loop gives the plain sums of every NFT's counters, or raises naming the first NFT of no known status |
| Metrics.TallyLast | blockchain_metrics.py:97-112 | the step of `TallyMatchesReference` for one more NFT |
| Metrics.ReferenceCounts | blockchain_metrics.py:104-120 | there are as many sellers (buyers) as sales (purchases), and at most one governance NFT per NFT |
| Metrics.StepShift | blockchain_metrics.py:89-120 | the loop body adds the same amount from any starting totals |
| Metrics.TallyErrorPersists | blockchain_metrics.py:111-112 | an NFT of no known status ends the whole calculation |
| Metrics.DistinctCount | blockchain_metrics.py:123-124 | specification function of `len(set(...))`; `DistinctCountBound` and `Summarize` state it |
| Metrics.ReferenceParties | blockchain_metrics.py:104-124 | the concatenated sellers (buyers) hold exactly the sellers (buyers) any NFT names |
| Metrics.DistinctCountBound | blockchain_metrics.py:123-124 | there are no more distinct parties than parties, and at least one when there is any |
| Metrics.Summarize | blockchain_metrics.py:123-124 | the reported seller and buyer counts are `len(set(...))` of the collected parties, at most their number; what those counts mean, the distinct parties the NFTs name, is stated by `SummaryOfCoherent` |
| Metrics.RowCoherent | blockchain_metrics.py:97-112 | the NFTs of a wallet give coherent facts |
| Metrics.RowsCoherent | blockchain_metrics.py:86-112 | the NFTs of all kept wallets give coherent facts |
| Metrics.CalculateMetrics | blockchain_metrics.py:77-124 | Over the wallets `metrics_per_wallet` keeps, the totals are the plain sums. The seller and buyer counts are the number of distinct parties any NFT names, at most the sales and purchases. Otherwise the error names the first NFT of no known status. |
| Metrics.SummaryOfCoherent | blockchain_metrics.py:77-124 | for any coherent NFT facts: the totals are the plain sums, the distinct seller and buyer counts are the number of distinct parties the NFTs name, or the error names the first NFT of no known status |
| Metrics.Aggregate | blockchain_metrics.py:77-124 | the nested loop's result is the summary of `Tally` over all NFTs of all kept wallets |
| Metrics.TableOf | blockchain_metrics.py:86-97 | the facts of the objects are those of their histories |
| Metrics.RowOfWallet | blockchain_metrics.py:97 | the facts of one object are those of its histories |
| Metrics.TallyWallets | blockchain_metrics.py:86-120 | the outer loop ends as `Tally` over all the NFTs |
| Metrics.AggregateStep | blockchain_metrics.py:114-120 | adding one wallet's totals extends the tally, or its error ends it |
| Metrics.TallyWallet | blockchain_metrics.py:89-112 | the inner loop over one wallet's NFTs ends as `Tally` |
| Metrics.FactAt | blockchain_metrics.py:97-112 | the facts of the j-th NFT are its answers |
| Metrics.TallyWalletStep | blockchain_metrics.py:97-112 | one more NFT extends the wallet's tally, or ends it |
| Metrics.TallyWalletAfter | blockchain_metrics.py:114-120 | a wallet's totals are added to the running totals |
| Metrics.TallyPrefixStep | blockchain_metrics.py:97-112 | the tally of one more NFT |
| Metrics.TallyPrefixError | blockchain_metrics.py:111-112 | an error in a prefix is the error of the whole |
| Metrics.TallyConcat | blockchain_metrics.py:86-120 | tallying two lists is tallying the second from the first's totals |
| Metrics.TallyShift | blockchain_metrics.py:114-120 | tallying from any totals adds the tally from zero |
| Metrics.Answers | blockchain_metrics.py:98-111 | the NFT's query answers are coherent |
| Metrics.AnswersAreFacts | blockchain_metrics.py:98-111 | the NFT's query answers are those read off its history |

## Left out

- HTTP access: `make_call`, pagination, retries and URL building are not modelled. What the explorer answers is the `Explorer` value, with `None` for a failed call.
- Time: the clock is the `now` and `after` parameters of `Throttle`, and the sleep is not performed. Dates stay integer time stamps, not `datetime` values.
- Configuration, command line and printing: YAML settings, `create_scanner`, `main.py` and every `print`.
- The network loop of `calculate_metrics`, and its float averages and percentages, including the `WEI_TO_POL` divisions.
- Decimal fields (`timeStamp`, `value`, `tokenID`, `tokenValue`) are taken as already-decoded integers. Python's `int()` on their text is not modelled.
- `HexStr2Int` accepts only an optional `0x`/`0X` prefix and hex digits. Python's leniency about whitespace, underscores and a sign is not modelled.
- `check_dict` is taken to pass. It is not part of this model.
- The source creates a new NFT with `NFT(key)`, but the constructor also needs a network. The model passes the empty string as the network.
- The 4-argument `BlockChainScan(...)` call and the two-argument `Int2HexStr(txhash, 64)` call do not match their definitions. The model follows the definitions.
- A Python exception is a `Result` error, and it ends the whole run, since nothing in the core catches it. The one exception is a refused label, which `update_nft` catches and prints; the model records the refusal, and the printed text itself is not modelled. The one failure of that handler, a string hash, is modelled as an error.
- Tokens.NFT.GetRevenue: equals the sum of the sold transfers' values only when every applied transfer was labelled. After a refusal, the source pairs statuses with values by position; see `Tokens.CostsShiftAfterRefusal`.
- Tokens.NFT.GetCosts: same restriction as `GetRevenue`, for bought transfers.
- Tokens.NFT.GetSellers: equals the `from` of the sold transfers only when every applied transfer was labelled. Otherwise only its length is stated.
- Tokens.NFT.GetBuyers: same restriction as `GetSellers`, for `to` and bought transfers.
- Metrics.BookFactsHistory: states revenue, costs and parties only when every transfer was labelled, for the same reason.
- Metrics.BookFacts: reads `was_ever_created` as false where it would raise. That never happens on a reachable NFT (`Tokens.InvariantConsequences`).
- Ledger.AddressTransactions.AbsorbOne: when `from`, `to` or `methodId` of a new hash does not parse, the source has already stored an entry holding `date` and `hash` (and `from` and `to` when those parsed) under the key before it raises (addresstransactions.py:31-37). The model leaves the cache unchanged on that error, and so do `AbsorbRecord`, `AbsorbRecords`, `AbsorbAll`, `FetchTransactions` and `GetTransactions`. The error ends the run, since nothing catches it, so the partial entry is never read.
