/**
  * The transfers of one wallet (addresstransactions.py): the process-wide transaction cache
  * filled from the wallet's normal transactions, the lookup of the money transaction behind
  * each token transfer, and the list of NFTs the wallet has touched.
  *
  * The explorer is the `Explorer` value of the scanner: what it answers is an input.
  * Dates are kept as the integer time stamps the source converts with `fromtimestamp`.
  */
module Ledger {
  import opened Wrappers
  import opened Utils
  import opened Scan
  import opened Tokens

  datatype LedgerError =
    | BadHex(cause: HexError)                 // `HexStr2Int` raised on a field
    | MissingHash                             // `Int2HexStr(None)`: a record with an empty hash
    | UnsupportedTokenType(tokenType: string)
    | TransactionNotFound(hash: string)
    | UpdateFailed(nftError: NftError)         // raised by `update_nft` before classification

  /** `TRANS_CACHE`: transactions keyed by their hash in the form `Int2HexStr` gives. */
  type Cache = map<string, Transaction>

  // ---------------------------------------------------------------------------------------
  // Filling the cache (`get_transactions`)

  /** The integer a hash field stands for; an empty hash fails when it is turned into a key. */
  function HashValue(hash: string): Result<nat, LedgerError> {
    match HexStr2Int(hash)
    case Err(e) => Err(BadHex(e))
    case Ok(None) => Err(MissingHash)
    case Ok(Some(h)) => Ok(h)
  }

  /** The cache key of a hash field: `Int2HexStr(HexStr2Int(hash))`, whatever case and leading
      zeros the field was written with. */
  function HashKey(hash: string): (r: Result<string, LedgerError>)
    ensures r.Ok? <==> HashValue(hash).Ok?
  {
    match HashValue(hash)
    case Err(e) => Err(e)
    case Ok(h) => Ok(Int2HexStr(h))
  }

  /** The key is the canonical spelling of the hash: lower case, even length, no leading zero
      byte, and it reads back as the same integer. */
  lemma HashKeyIsCanonical(hash: string)
    requires HashKey(hash).Ok?
    ensures IsCanonical(HashKey(hash).value)
    ensures HexStr2Int(HashKey(hash).value) == HexStr2Int(hash)
  {
    var h := HashValue(hash).value;
    Int2HexStrIsCanonical(h);
    HexRoundTrip(h);
  }

  function AddressField(s: string): Result<Address, LedgerError> {
    match HexStr2Int(s)
    case Err(e) => Err(BadHex(e))
    case Ok(a) => Ok(a)
  }

  /** The entry cached for a normal transaction whose hash is `h`. */
  function CacheEntry(tr: RawTransaction, h: nat): (r: Result<Transaction, LedgerError>)
    ensures r.Ok? <==> AddressField(tr.from).Ok? && AddressField(tr.to).Ok? && AddressField(tr.methodId).Ok?
    ensures r.Ok? ==>
      && r.value.date == tr.timeStamp && r.value.hash == Int(h) && r.value.value == Int(tr.value)
      && r.value.from == AddressField(tr.from).value && r.value.to == AddressField(tr.to).value
      && r.value.methodId == AddressField(tr.methodId).value
  {
    match AddressField(tr.from)
    case Err(e) => Err(e)
    case Ok(from) =>
      match AddressField(tr.to)
      case Err(e) => Err(e)
      case Ok(to) =>
        match AddressField(tr.methodId)
        case Err(e) => Err(e)
        case Ok(methodId) => Ok(Transaction(tr.timeStamp, Int(h), from, to, Int(tr.value), methodId))
  }

  /** One iteration of the loop of `get_transactions`: a key already present is left alone. */
  function AbsorbRecord(cache: Cache, tr: RawTransaction): (r: Result<Cache, LedgerError>)
    ensures r.Err? ==> r.error.BadHex? || r.error.MissingHash?
    ensures r.Err? <==> HashKey(tr.hash).Err? ||
                        (HashKey(tr.hash).value !in cache && CacheEntry(tr, HashValue(tr.hash).value).Err?)
    ensures r.Ok? ==>
      var key := HashKey(tr.hash).value;
      && (key in cache ==> r.value == cache)
      && (key !in cache ==> r.value == cache[key := CacheEntry(tr, HashValue(tr.hash).value).value])
  {
    match HashValue(tr.hash)
    case Err(e) => Err(e)
    case Ok(h) =>
      var key := Int2HexStr(h);
      if key in cache then Ok(cache)
      else
        match CacheEntry(tr, h)
        case Err(e) => Err(e)
        case Ok(entry) => Ok(cache[key := entry])
  }

  /** The cache after a loop over `txs`, and the error that stopped it, if any. */
  datatype CacheRun = CacheRun(cache: Cache, failure: Option<LedgerError>)

  function AbsorbRecords(cache: Cache, txs: seq<RawTransaction>): (r: CacheRun)
    ensures r.failure.Some? ==> r.failure.value.BadHex? || r.failure.value.MissingHash?
  {
    if txs == [] then CacheRun(cache, None)
    else
      var prefix := AbsorbRecords(cache, txs[..|txs| - 1]);
      if prefix.failure.Some? then prefix
      else
        match AbsorbRecord(prefix.cache, txs[|txs| - 1])
        case Err(e) => CacheRun(prefix.cache, Some(e))
        case Ok(c) => CacheRun(c, None)
  }

  lemma {:induction false} AbsorbRecordsErrorPersists(cache: Cache, txs: seq<RawTransaction>, k: nat)
    requires k <= |txs| && AbsorbRecords(cache, txs[..k]).failure.Some?
    ensures AbsorbRecords(cache, txs) == AbsorbRecords(cache, txs[..k])
  {
    if k < |txs| {
      assert txs[..|txs| - 1][..k] == txs[..k];
      AbsorbRecordsErrorPersists(cache, txs[..|txs| - 1], k);
    } else {
      assert txs[..k] == txs;
    }
  }

  /** First write wins: an entry already in the cache is never replaced, even when the loop
      stops on an error. */
  lemma {:induction false} AbsorbRecordsKeepsEntries(cache: Cache, txs: seq<RawTransaction>)
    ensures forall k :: k in cache ==> k in AbsorbRecords(cache, txs).cache &&
                                       AbsorbRecords(cache, txs).cache[k] == cache[k]
  {
    if txs != [] {
      AbsorbRecordsKeepsEntries(cache, txs[..|txs| - 1]);
    }
  }

  /** After a complete loop every fetched record can be found under its normalised hash. */
  lemma {:induction false} AbsorbRecordsCovers(cache: Cache, txs: seq<RawTransaction>)
    ensures AbsorbRecords(cache, txs).failure.None? ==>
      forall i :: 0 <= i < |txs| ==>
        HashKey(txs[i].hash).Ok? && HashKey(txs[i].hash).value in AbsorbRecords(cache, txs).cache
  {
    if txs != [] {
      var init := txs[..|txs| - 1];
      AbsorbRecordsCovers(cache, init);
      var prefix := AbsorbRecords(cache, init);
      if prefix.failure.None? {
        var last := AbsorbRecord(prefix.cache, txs[|txs| - 1]);
        if last.Ok? {
          forall i | 0 <= i < |txs|
            ensures HashKey(txs[i].hash).Ok? && HashKey(txs[i].hash).value in last.value
          {
            if i < |init| {
              assert txs[i] == init[i];
            }
          }
        }
      }
    }
  }

  /** A key that no fetched record has is not added. */
  lemma {:induction false} AbsorbRecordsAddsOnlyFetched(cache: Cache, txs: seq<RawTransaction>, k: string)
    requires k !in cache
    requires forall i :: 0 <= i < |txs| ==> HashKey(txs[i].hash) != Ok(k)
    ensures k !in AbsorbRecords(cache, txs).cache
  {
    if txs != [] {
      var init := txs[..|txs| - 1];
      forall i | 0 <= i < |init| ensures HashKey(init[i].hash) != Ok(k) {
        assert init[i] == txs[i];
      }
      AbsorbRecordsAddsOnlyFetched(cache, init, k);
    }
  }

  /** First write wins within one listing too: a new key holds the entry of the first record
      with that hash. */
  lemma {:induction false} AbsorbRecordsFirstWins(cache: Cache, txs: seq<RawTransaction>, i: nat)
    requires i < |txs| && AbsorbRecords(cache, txs).failure.None?
    requires HashKey(txs[i].hash).Ok? && HashKey(txs[i].hash).value !in cache
    requires forall j :: 0 <= j < i ==> HashKey(txs[j].hash) != HashKey(txs[i].hash)
    ensures HashKey(txs[i].hash).value in AbsorbRecords(cache, txs).cache
    ensures CacheEntry(txs[i], HashValue(txs[i].hash).value).Ok?
    ensures AbsorbRecords(cache, txs).cache[HashKey(txs[i].hash).value]
         == CacheEntry(txs[i], HashValue(txs[i].hash).value).value
  {
    var init := txs[..|txs| - 1];
    var prefix := AbsorbRecords(cache, init);
    var key := HashKey(txs[i].hash).value;
    if i < |init| {
      assert init[i] == txs[i];
      forall j | 0 <= j < i ensures HashKey(init[j].hash) != HashKey(init[i].hash) {
        assert init[j] == txs[j];
      }
      AbsorbRecordsFirstWins(cache, init, i);
    } else {
      forall j | 0 <= j < |init| ensures HashKey(init[j].hash) != Ok(key) {
        assert init[j] == txs[j];
      }
      AbsorbRecordsAddsOnlyFetched(cache, init, key);
    }
  }

  /** `get_transactions(address)` fetches the normal transactions of `address`, or of the
      wallet itself when no address is given. */
  function Target(self: nat, address: Address): nat {
    if address.None? then self else address.value
  }

  /** What `get_transactions` returns, and the cache it leaves. */
  datatype Fetched = Fetched(result: Result<bool, LedgerError>, cache: Cache)

  function FetchTransactions(cache: Cache, explorer: Explorer, target: nat): (r: Fetched)
    ensures r.result == Ok(false) <==> explorer.normalTransactions(target).None?
    ensures r.result == Ok(false) ==> r.cache == cache
    ensures r.result.Err? ==> r.result.error.BadHex? || r.result.error.MissingHash?
    ensures forall k :: k in cache ==> k in r.cache && r.cache[k] == cache[k]
    ensures r.result == Ok(true) ==>
      forall tr :: tr in explorer.normalTransactions(target).value ==>
        HashKey(tr.hash).Ok? && HashKey(tr.hash).value in r.cache
  {
    match explorer.normalTransactions(target)
    case None => Fetched(Ok(false), cache)
    case Some(txs) =>
      var run := AbsorbRecords(cache, txs);
      AbsorbRecordsKeepsEntries(cache, txs);
      AbsorbRecordsCovers(cache, txs);
      Fetched(if run.failure.Some? then Err(run.failure.value) else Ok(true), run.cache)
  }

  /** `retrieve_transaction`: the cached transaction under the normalised hash. */
  function Lookup(cache: Cache, h: nat): Option<Transaction> {
    if Int2HexStr(h) in cache then Some(cache[Int2HexStr(h)]) else None
  }

  /** Writes and lookups agree on the key: after a complete `get_transactions`, a hash fetched
      in any spelling (upper case, leading zeros) is found by its integer value. */
  lemma FetchedHashIsFound(cache: Cache, explorer: Explorer, target: nat, hash: string, h: nat)
    requires FetchTransactions(cache, explorer, target).result == Ok(true)
    requires exists tr :: tr in explorer.normalTransactions(target).value && tr.hash == hash
    requires HexStr2Int(hash) == Ok(Some(h))
    ensures Lookup(FetchTransactions(cache, explorer, target).cache, h).Some?
  {
  }

  // ---------------------------------------------------------------------------------------
  // Resolving the money transaction of a transfer

  /** Which transaction a transfer's hash resolves to, and the cache left behind. */
  datatype Resolved = Resolved(result: Result<Transaction, LedgerError>, cache: Cache)

  /** The three steps of `parse_token_transfers`: the cache; the explorer by hash; the other
      party's normal transactions, then the cache again. The other party is `to` when the wallet
      is `from`, `from` otherwise. */
  function Resolve(cache: Cache, explorer: Explorer, self: nat, from: Address, to: Address, h: nat)
    : (r: Resolved)
    ensures forall k :: k in cache ==> k in r.cache && r.cache[k] == cache[k]
    ensures Int2HexStr(h) in cache ==> r == Resolved(Ok(cache[Int2HexStr(h)]), cache)
    ensures Int2HexStr(h) !in cache && explorer.transactionByHash(h).Some? ==>
      r == Resolved(Ok(explorer.transactionByHash(h).value), cache)
    ensures r.result.Err? ==> Int2HexStr(h) !in cache && explorer.transactionByHash(h).None?
    ensures r.result.Err? && r.result.error.TransactionNotFound? ==>
      r.result.error.hash == Int2HexStr(h) && Int2HexStr(h) !in r.cache
    ensures Int2HexStr(h) !in cache && explorer.transactionByHash(h).None? ==>
      var f := FetchTransactions(cache, explorer, Target(self, if Some(self) == from then to else from));
      && r.cache == f.cache
      && (f.result.Err? ==> r.result == Err(f.result.error))
      && (f.result.Ok? ==> r.result == if Int2HexStr(h) in f.cache then Ok(f.cache[Int2HexStr(h)])
                                       else Err(TransactionNotFound(Int2HexStr(h))))
  {
    var key := Int2HexStr(h);
    if key in cache then Resolved(Ok(cache[key]), cache)
    else
      match explorer.transactionByHash(h)
      case Some(t) => Resolved(Ok(t), cache)
      case None =>
        var other := if Some(self) == from then to else from;
        var fetched := FetchTransactions(cache, explorer, Target(self, other));
        if fetched.result.Err? then Resolved(Err(fetched.result.error), fetched.cache)
        else if key in fetched.cache then Resolved(Ok(fetched.cache[key]), fetched.cache)
        else Resolved(Err(TransactionNotFound(key)), fetched.cache)
  }

  /** The fallback succeeds: when the hash misses the cache and the by-hash query, and the
      listing of the counterparty holds a record with that hash in any spelling, the transfer
      resolves to a cached transaction. */
  lemma CounterpartyListingResolves(cache: Cache, explorer: Explorer, self: nat, from: Address,
                                    to: Address, h: nat, tr: RawTransaction)
    requires Int2HexStr(h) !in cache && explorer.transactionByHash(h).None?
    requires var target := Target(self, if Some(self) == from then to else from);
      && FetchTransactions(cache, explorer, target).result == Ok(true)
      && tr in explorer.normalTransactions(target).value
    requires HexStr2Int(tr.hash) == Ok(Some(h))
    ensures var r := Resolve(cache, explorer, self, from, to, h);
      r.result.Ok? && r.result.value == r.cache[Int2HexStr(h)]
  {
    var target := Target(self, if Some(self) == from then to else from);
    FetchedHashIsFound(cache, explorer, target, tr.hash, h);
  }

  /** The token amount of a transfer: 1 for ERC721, the record's `tokenValue` for ERC1155;
      any other token type is refused. */
  function TokenValue(tokenType: string, tr: RawTransfer): (r: Result<int, LedgerError>)
    ensures r.Ok? <==> tokenType == "ERC1155" || tokenType == "ERC721"
    ensures tokenType == "ERC721" ==> r == Ok(1)
    ensures tokenType == "ERC1155" ==> r == Ok(tr.tokenValue)
    ensures r.Err? ==> r.error == UnsupportedTokenType(tokenType)
  {
    if tokenType == "ERC1155" then Ok(tr.tokenValue)
    else if tokenType == "ERC721" then Ok(1)
    else Err(UnsupportedTokenType(tokenType))
  }

  // ---------------------------------------------------------------------------------------
  // The NFTs of a wallet

  /** One NFT of the wallet, by its key and its history. */
  datatype Book = Book(key: string, log: seq<Entry>)

  predicate KeysUnique(books: seq<Book>) {
    forall i, j :: 0 <= i < j < |books| ==> books[i].key != books[j].key
  }

  /** The first NFT whose key is `key`. */
  function FindBook(books: seq<Book>, key: string): (r: Option<nat>)
    ensures r.None? <==> forall i :: 0 <= i < |books| ==> books[i].key != key
    ensures r.Some? ==> r.value < |books| && books[r.value].key == key &&
                        forall j :: 0 <= j < r.value ==> books[j].key != key
  {
    if books == [] then None
    else
      match FindBook(books[..|books| - 1], key)
      case Some(i) => Some(i)
      case None => if books[|books| - 1].key == key then Some(|books| - 1) else None
  }

  datatype Retrieved = Retrieved(books: seq<Book>, index: nat)

  /** `retrieve_nft`: the NFT with the key, or a new empty one appended. */
  function RetrieveBook(books: seq<Book>, key: string): (r: Retrieved)
    ensures r.index < |r.books| && r.books[r.index].key == key
    ensures FindBook(books, key).Some? ==> r.books == books
    ensures FindBook(books, key).None? ==> r.books == books + [Book(key, [])] && r.index == |books|
    ensures KeysUnique(books) ==> KeysUnique(r.books)
  {
    match FindBook(books, key)
    case Some(i) => Retrieved(books, i)
    case None => Retrieved(books + [Book(key, [])], |books|)
  }

  /** The state `parse_token_transfers` works on: the cache and the wallet's NFTs. */
  datatype LedgerState = LedgerState(cache: Cache, books: seq<Book>)

  /** The state after some transfers, and `Ok(true)` or the error that stopped them. */
  datatype Run = Run(state: LedgerState, result: Result<bool, LedgerError>)

  function ContractOf(tr: RawTransfer): Result<Address, LedgerError> {
    AddressField(tr.contractAddress)
  }

  function NftKey(tr: RawTransfer, contract: Address): string {
    GenKey(tr.tokenID, contract)
  }

  /** The fields of a transfer record, read in the order the source reads them. */
  datatype Fields = Fields(from: Address, to: Address, contract: Address, tokenValue: int, hash: nat)

  function ReadFields(tr: RawTransfer, tokenType: string): Result<Fields, LedgerError> {
    match AddressField(tr.from)
    case Err(e) => Err(e)
    case Ok(from) =>
      match AddressField(tr.to)
      case Err(e) => Err(e)
      case Ok(to) =>
        match ContractOf(tr)
        case Err(e) => Err(e)
        case Ok(contract) =>
          match TokenValue(tokenType, tr)
          case Err(e) => Err(e)
          case Ok(tokenValue) =>
            match HashValue(tr.hash)
            case Err(e) => Err(e)
            case Ok(h) => Ok(Fields(from, to, contract, tokenValue, h))
  }

  lemma ReadFieldsContract(tr: RawTransfer, tokenType: string)
    requires ReadFields(tr, tokenType).Ok?
    ensures ContractOf(tr) == Ok(ReadFields(tr, tokenType).value.contract)
  {
  }

  /** One iteration of `parse_token_transfers` for the wallet `self`. */
  function ApplyTransfer(st: LedgerState, explorer: Explorer, self: nat, tokenType: string,
                         tr: RawTransfer): Run
  {
    match ReadFields(tr, tokenType)
    case Err(e) => Run(st, Err(e))
    case Ok(f) => ApplyFields(st, explorer, self, tr, f)
  }

  /** The rest of an iteration once the fields are read: resolve the transaction, then feed the
      transfer to its NFT. */
  function ApplyFields(st: LedgerState, explorer: Explorer, self: nat, tr: RawTransfer, f: Fields): Run {
    var resolved := Resolve(st.cache, explorer, self, f.from, f.to, f.hash);
    match resolved.result
    case Err(e) => Run(LedgerState(resolved.cache, st.books), Err(e))
    case Ok(transaction) =>
      var fed := FeedBook(st.books, self, tr, f.from, f.to, f.contract, f.tokenValue, transaction);
      Run(LedgerState(resolved.cache, fed.books), fed.result)
  }

  datatype Fed = Fed(books: seq<Book>, result: Result<bool, LedgerError>)

  /** A transfer whose transaction resolved ends as its `FeedBook` leaves it. */
  lemma ApplyFieldsFed(st: LedgerState, explorer: Explorer, self: nat, tr: RawTransfer,
                       f: Fields, transaction: Transaction, resolved: Cache, books: seq<Book>,
                       r: Result<bool, LedgerError>)
    requires Resolve(st.cache, explorer, self, f.from, f.to, f.hash) == Resolved(Ok(transaction), resolved)
    requires Fed(books, r) == FeedBook(st.books, self, tr, f.from, f.to, f.contract, f.tokenValue, transaction)
    ensures ApplyFields(st, explorer, self, tr, f) == Run(LedgerState(resolved, books), r)
  {
  }

  /** The end of an iteration: the transfer applied, by `update_nft`, to the history of its
      NFT, found or appended by `retrieve_nft`. */
  function FeedBook(books: seq<Book>, self: nat, tr: RawTransfer, from: Address, to: Address,
                    contract: Address, tokenValue: int, transaction: Transaction): Fed
  {
    var found := RetrieveBook(books, NftKey(tr, contract));
    var book := found.books[found.index];
    var u := UpdateLog(book.log, Some(self), tr.timeStamp, from, to, contract,
                       tokenValue, tr.tokenName, transaction);
    Fed(found.books[found.index := Book(book.key, u.log)],
        if u.outcome.Err? then Err(UpdateFailed(u.outcome.error)) else Ok(true))
  }

  /** `parse_token_transfers`: the transfers in list order, stopping at the first error. */
  function ApplyTransfers(st: LedgerState, explorer: Explorer, self: nat, tokenType: string,
                          trs: seq<RawTransfer>): Run
  {
    if trs == [] then Run(st, Ok(true))
    else
      var prefix := ApplyTransfers(st, explorer, self, tokenType, trs[..|trs| - 1]);
      if prefix.result.Err? then prefix
      else ApplyTransfer(prefix.state, explorer, self, tokenType, trs[|trs| - 1])
  }

  lemma {:induction false} ApplyTransfersErrorPersists(st: LedgerState, explorer: Explorer, self: nat,
                                                       tokenType: string, trs: seq<RawTransfer>, k: nat)
    requires k <= |trs| && ApplyTransfers(st, explorer, self, tokenType, trs[..k]).result.Err?
    ensures ApplyTransfers(st, explorer, self, tokenType, trs) == ApplyTransfers(st, explorer, self, tokenType, trs[..k])
  {
    if k < |trs| {
      assert trs[..|trs| - 1][..k] == trs[..k];
      ApplyTransfersErrorPersists(st, explorer, self, tokenType, trs[..|trs| - 1], k);
    } else {
      assert trs[..k] == trs;
    }
  }

  /** `set_ERC1155_transfers` / `set_ERC721_transfers`: the wallet's transfers of one token
      standard; no listing returns false and changes nothing. */
  function SetTransfers(st: LedgerState, explorer: Explorer, self: nat, action: string,
                        tokenType: string): (r: Run)
    ensures explorer.tokenTransfers(action, Some(self), None).None? ==> r == Run(st, Ok(false))
    ensures explorer.tokenTransfers(action, Some(self), None).Some? ==>
      r == ApplyTransfers(st, explorer, self, tokenType, explorer.tokenTransfers(action, Some(self), None).value)
  {
    match explorer.tokenTransfers(action, Some(self), None)
    case None => Run(st, Ok(false))
    case Some(trs) => ApplyTransfers(st, explorer, self, tokenType, trs)
  }

  // ---------------------------------------------------------------------------------------
  // What parsing transfers preserves

  /** `books` is `before` with some histories extended and possibly NFTs appended. */
  predicate Extends(books: seq<Book>, before: seq<Book>) {
    && |before| <= |books|
    && forall i :: 0 <= i < |before| ==>
         books[i].key == before[i].key && before[i].log <= books[i].log
  }

  /** A history every entry of which was applied for the wallet `self`, well formed and with
      reachable statuses. */
  predicate HistoryOf(log: seq<Entry>, self: nat) {
    && WellFormedLog(log) && StatusInvariant(StatusesOf(log))
    && forall j :: 0 <= j < |log| ==> log[j].user == Some(self)
  }

  /** The NFTs of the wallet `self`: unique keys, and histories of its own. */
  predicate BooksOf(books: seq<Book>, self: nat) {
    && KeysUnique(books)
    && forall i :: 0 <= i < |books| ==> HistoryOf(books[i].log, self)
  }

  lemma ExtendsTransitive(a: seq<Book>, b: seq<Book>, c: seq<Book>)
    requires Extends(a, b) && Extends(b, c)
    ensures Extends(a, c)
  {
    forall i | 0 <= i < |c| ensures a[i].key == c[i].key && c[i].log <= a[i].log {
      assert c[i].log <= b[i].log <= a[i].log;
    }
  }

  lemma UpdateLogKeepsHistory(log: seq<Entry>, self: nat, date: int, from: Address, to: Address,
                              contract: Address, tokenValue: int, tokenName: string,
                              transaction: Transaction)
    requires HistoryOf(log, self)
    ensures var u := UpdateLog(log, Some(self), date, from, to, contract, tokenValue, tokenName, transaction);
      HistoryOf(u.log, self) && log <= u.log
  {
    var u := UpdateLog(log, Some(self), date, from, to, contract, tokenValue, tokenName, transaction);
    UpdateLogPreservesInvariant(log, Some(self), date, from, to, contract, tokenValue, tokenName, transaction);
    forall j | 0 <= j < |u.log| ensures u.log[j].user == Some(self) {
      if j < |log| {
        assert u.log[j] == u.log[..|log|][j];
      }
    }
  }

  lemma ReplaceLogPreserves(books: seq<Book>, self: nat, i: nat, log: seq<Entry>)
    requires BooksOf(books, self) && i < |books|
    requires HistoryOf(log, self) && books[i].log <= log
    ensures var books' := books[i := Book(books[i].key, log)];
      BooksOf(books', self) && Extends(books', books)
  {
  }

  lemma RetrieveBookPreserves(books: seq<Book>, self: nat, key: string)
    requires BooksOf(books, self)
    ensures var found := RetrieveBook(books, key);
      BooksOf(found.books, self) && Extends(found.books, books)
  {
  }

  lemma FindBookExtends(books: seq<Book>, before: seq<Book>, key: string)
    requires Extends(books, before) && FindBook(before, key).Some?
    ensures FindBook(books, key).Some?
  {
    var k := FindBook(before, key).value;
    assert books[k].key == key;
  }

  lemma FeedBookPreserves(books: seq<Book>, self: nat, tr: RawTransfer, from: Address, to: Address,
                          contract: Address, tokenValue: int, transaction: Transaction)
    requires BooksOf(books, self)
    ensures var fed := FeedBook(books, self, tr, from, to, contract, tokenValue, transaction);
      && BooksOf(fed.books, self)
      && Extends(fed.books, books)
      && FindBook(fed.books, NftKey(tr, contract)).Some?
  {
    var found := RetrieveBook(books, NftKey(tr, contract));
    var book := found.books[found.index];
    var u := UpdateLog(book.log, Some(self), tr.timeStamp, from, to, contract,
                       tokenValue, tr.tokenName, transaction);
    RetrieveBookPreserves(books, self, NftKey(tr, contract));
    UpdateLogKeepsHistory(book.log, self, tr.timeStamp, from, to, contract, tokenValue,
                          tr.tokenName, transaction);
    ReplaceLogPreserves(found.books, self, found.index, u.log);
    var books' := found.books[found.index := Book(book.key, u.log)];
    ExtendsTransitive(books', found.books, books);
    assert books'[found.index].key == NftKey(tr, contract);
  }

  lemma ApplyTransferPreserves(st: LedgerState, explorer: Explorer, self: nat, tokenType: string,
                               tr: RawTransfer)
    requires BooksOf(st.books, self)
    ensures var r := ApplyTransfer(st, explorer, self, tokenType, tr);
      && BooksOf(r.state.books, self)
      && Extends(r.state.books, st.books)
      && (forall k :: k in st.cache ==> k in r.state.cache && r.state.cache[k] == st.cache[k])
      && (r.result.Ok? ==> ContractOf(tr).Ok? && FindBook(r.state.books, NftKey(tr, ContractOf(tr).value)).Some?)
  {
    if ReadFields(tr, tokenType).Ok? {
      var f := ReadFields(tr, tokenType).value;
      ReadFieldsContract(tr, tokenType);
      var resolved := Resolve(st.cache, explorer, self, f.from, f.to, f.hash);
      if resolved.result.Ok? {
        FeedBookPreserves(st.books, self, tr, f.from, f.to, f.contract, f.tokenValue,
                          resolved.result.value);
      }
    }
  }

  /** Over a whole list: the NFT keys stay unique, histories only grow, every entry is the
      wallet's own, and cached entries are never replaced. */
  lemma {:induction false} ApplyTransfersPreserves(st: LedgerState, explorer: Explorer, self: nat,
                                                   tokenType: string, trs: seq<RawTransfer>)
    requires BooksOf(st.books, self)
    ensures var r := ApplyTransfers(st, explorer, self, tokenType, trs);
      && BooksOf(r.state.books, self)
      && Extends(r.state.books, st.books)
      && (forall k :: k in st.cache ==> k in r.state.cache && r.state.cache[k] == st.cache[k])
  {
    if trs != [] {
      var init := trs[..|trs| - 1];
      ApplyTransfersPreserves(st, explorer, self, tokenType, init);
      var prefix := ApplyTransfers(st, explorer, self, tokenType, init);
      if prefix.result.Ok? {
        ApplyTransferPreserves(prefix.state, explorer, self, tokenType, trs[|trs| - 1]);
        var r := ApplyTransfer(prefix.state, explorer, self, tokenType, trs[|trs| - 1]);
        ExtendsTransitive(r.state.books, prefix.state.books, st.books);
      }
    }
  }

  /** Every transfer has an NFT among `books`, under the key of its token id and contract. */
  predicate Covers(books: seq<Book>, trs: seq<RawTransfer>) {
    forall i :: 0 <= i < |trs| ==>
      ContractOf(trs[i]).Ok? && FindBook(books, NftKey(trs[i], ContractOf(trs[i]).value)).Some?
  }

  lemma CoversExtends(books: seq<Book>, before: seq<Book>, trs: seq<RawTransfer>)
    requires Extends(books, before) && Covers(before, trs)
    ensures Covers(books, trs)
  {
    forall i | 0 <= i < |trs|
      ensures FindBook(books, NftKey(trs[i], ContractOf(trs[i]).value)).Some?
    {
      FindBookExtends(books, before, NftKey(trs[i], ContractOf(trs[i]).value));
    }
  }

  lemma CoversSnoc(books: seq<Book>, trs: seq<RawTransfer>)
    requires trs != [] && Covers(books, trs[..|trs| - 1])
    requires var tr := trs[|trs| - 1];
      ContractOf(tr).Ok? && FindBook(books, NftKey(tr, ContractOf(tr).value)).Some?
    ensures Covers(books, trs)
  {
    forall i | 0 <= i < |trs| - 1 ensures trs[i] == trs[..|trs| - 1][i] {}
  }

  /** After a complete run every transfer has its NFT, under the key of its token id and
      contract. */
  lemma {:induction false} ApplyTransfersCovers(st: LedgerState, explorer: Explorer, self: nat,
                                                tokenType: string, trs: seq<RawTransfer>)
    requires BooksOf(st.books, self)
    ensures var r := ApplyTransfers(st, explorer, self, tokenType, trs);
      r.result.Ok? ==> Covers(r.state.books, trs)
  {
    if trs != [] {
      var init := trs[..|trs| - 1];
      ApplyTransfersCovers(st, explorer, self, tokenType, init);
      ApplyTransfersPreserves(st, explorer, self, tokenType, init);
      var prefix := ApplyTransfers(st, explorer, self, tokenType, init);
      if prefix.result.Ok? {
        ApplyTransferPreserves(prefix.state, explorer, self, tokenType, trs[|trs| - 1]);
        var r := ApplyTransfer(prefix.state, explorer, self, tokenType, trs[|trs| - 1]);
        if r.result.Ok? {
          CoversExtends(r.state.books, prefix.state.books, init);
          CoversSnoc(r.state.books, trs);
        }
      }
    }
  }

  // ---------------------------------------------------------------------------------------
  // The objects

  /** The process-wide `TRANS_CACHE`, shared by every wallet. */
  class TransCache {
    var entries: Cache

    constructor ()
      ensures entries == map[]
    {
      entries := map[];
    }
  }

  /** Every NFT of `ns` keeps its parallel lists consistent, and no two share an id. */
  ghost predicate WellFormed(ns: seq<NFT>)
    reads ns
  {
    && (forall i :: 0 <= i < |ns| ==> ns[i].Valid())
    && (forall i, j :: 0 <= i < j < |ns| ==> ns[i].id != ns[j].id)
  }

  /** The value each NFT object of `ns` stands for. */
  ghost function ObjectBooks(ns: seq<NFT>): (r: seq<Book>)
    reads ns
    ensures |r| == |ns| && forall i :: 0 <= i < |ns| ==> r[i] == Book(ns[i].id, ns[i].log)
  {
    seq(|ns|, i requires 0 <= i < |ns| reads ns => Book(ns[i].id, ns[i].log))
  }

  /** Appending a consistent NFT with a new id keeps the list well formed. */
  lemma WellFormedSnoc(ns: seq<NFT>, n: NFT)
    requires WellFormed(ns) && n.Valid()
    requires forall i :: 0 <= i < |ns| ==> ns[i].id != n.id
    ensures WellFormed(ns + [n]) && ObjectBooks(ns + [n]) == ObjectBooks(ns) + [Book(n.id, n.log)]
  {
    var ms := ns + [n];
    assert forall i :: 0 <= i < |ns| ==> ms[i] == ns[i];
  }

  class AddressTransactions {
    const address: nat
    const ps: BlockChainScan
    const cache: TransCache
    var nfts: seq<NFT>

    ghost predicate Valid()
      reads this, nfts
    {
      WellFormed(nfts)
    }

    ghost function Books(): seq<Book>
      reads this, nfts
    {
      ObjectBooks(nfts)
    }

    ghost function State(): LedgerState
      reads this, nfts, cache
    {
      LedgerState(cache.entries, Books())
    }

    constructor (address: nat, ps: BlockChainScan, cache: TransCache)
      ensures Valid() && nfts == []
      ensures this.address == address && this.ps == ps && this.cache == cache
    {
      this.address := address;
      this.ps := ps;
      this.cache := cache;
      nfts := [];
    }

    /** `get_transactions`: cache the normal transactions of `target` (of the wallet itself
        when `None`); false when the explorer has no list. */
    method GetTransactions(target: Address) returns (r: Result<bool, LedgerError>)
      modifies cache
      ensures Fetched(r, cache.entries) ==
        FetchTransactions(old(cache.entries), ps.explorer, Target(address, target))
    {
      var targetAddr := if target.None? then address else target.value;
      var transactions := ps.explorer.normalTransactions(targetAddr);
      if transactions.None? {
        return Ok(false);
      }
      var failure := AbsorbAll(transactions.value);
      r := if failure.Some? then Err(failure.value) else Ok(true);
    }

    /** The loop of `get_transactions` over the fetched records. */
    method AbsorbAll(txs: seq<RawTransaction>) returns (failure: Option<LedgerError>)
      modifies cache
      ensures CacheRun(cache.entries, failure) == AbsorbRecords(old(cache.entries), txs)
    {
      for i := 0 to |txs|
        invariant AbsorbRecords(old(cache.entries), txs[..i]) == CacheRun(cache.entries, None)
      {
        assert txs[..i + 1][..i] == txs[..i];
        failure := AbsorbOne(txs[i]);
        if failure.Some? {
          AbsorbRecordsErrorPersists(old(cache.entries), txs, i + 1);
          return;
        }
      }
      assert txs[..|txs|] == txs;
      failure := None;
    }

    /** The body of the loop of `get_transactions`. On an error the cache is left as it was,
        where the source keeps a partial entry; the error ends the run either way. */
    method AbsorbOne(tr: RawTransaction) returns (failure: Option<LedgerError>)
      modifies cache
      ensures match AbsorbRecord(old(cache.entries), tr)
              case Ok(c) => failure.None? && cache.entries == c
              case Err(e) => failure == Some(e) && cache.entries == old(cache.entries)
    {
      var txhash := HexStr2Int(tr.hash);
      if txhash.Err? {
        return Some(BadHex(txhash.error));
      }
      if txhash.value.None? {
        return Some(MissingHash);
      }
      var key := Int2HexStr(txhash.value.value);
      if key !in cache.entries {
        var entry := CacheEntry(tr, txhash.value.value);
        if entry.Err? {
          return Some(entry.error);
        }
        cache.entries := cache.entries[key := entry.value];
      }
      failure := None;
    }

    /** `retrieve_transaction`. */
    function RetrieveTransaction(h: nat): (r: Option<Transaction>)
      reads cache
      ensures r == Lookup(cache.entries, h)
    {
      var key := Int2HexStr(h);
      if key in cache.entries then Some(cache.entries[key]) else None
    }

    /** The three-step resolution of a transfer's hash. */
    method ResolveTransaction(h: nat, from: Address, to: Address) returns (r: Result<Transaction, LedgerError>)
      modifies cache
      ensures Resolved(r, cache.entries) == Resolve(old(cache.entries), ps.explorer, address, from, to, h)
    {
      var transaction := RetrieveTransaction(h);
      if transaction.None? {
        transaction := ps.explorer.transactionByHash(h);
        if transaction.None? {
          var fetched;
          if Some(address) == from {
            fetched := GetTransactions(to);
          } else {
            fetched := GetTransactions(from);
          }
          if fetched.Err? {
            return Err(fetched.error);
          }
          transaction := RetrieveTransaction(h);
          if transaction.None? {
            return Err(TransactionNotFound(Int2HexStr(h)));
          }
        }
      }
      r := Ok(transaction.value);
    }

    /** The search loop of `retrieve_nft`. */
    method FindNft(key: string) returns (i: Option<nat>)
      ensures i == FindBook(Books(), key)
    {
      ghost var books := Books();
      assert forall j :: 0 <= j < |nfts| ==> books[j].key == nfts[j].id;
      for k := 0 to |nfts|
        invariant forall j :: 0 <= j < k ==> nfts[j].id != key
      {
        if nfts[k].id == key {
          assert FindBook(books, key) == Some(k);
          return Some(k);
        }
      }
      i := None;
    }

    /** `retrieve_nft`: the NFT of `(id, contract)`, appended when the wallet has none yet. */
    method RetrieveNft(id: nat, contract: Address) returns (nft: NFT)
      requires Valid()
      modifies this
      ensures Valid()
      ensures var found := RetrieveBook(old(Books()), GenKey(id, contract));
        Books() == found.books && found.index < |nfts| && nft == nfts[found.index]
      ensures nfts == old(nfts) || (nfts == old(nfts) + [nft] && fresh(nft))
    {
      var key := GenKey(id, contract);
      var found := FindNft(key);
      if found.Some? {
        return nfts[found.value];
      }
      nft := AddNft(key);
    }

    /** The append of `retrieve_nft`: a new NFT with no history, for a key the wallet lacks. */
    method AddNft(key: string) returns (nft: NFT)
      requires Valid() && FindBook(Books(), key).None?
      modifies this
      ensures Valid() && Books() == old(Books()) + [Book(key, [])]
      ensures nfts == old(nfts) + [nft] && fresh(nft)
    {
      ghost var before := nfts;
      nft := new NFT(key, "");
      WellFormedSnoc(before, nft);
      nfts := nfts + [nft];
    }

    /** One iteration of `parse_token_transfers`. */
    method ParseTransfer(tr: RawTransfer, tokenType: string) returns (r: Result<bool, LedgerError>)
      requires Valid()
      modifies this, cache, set n | n in nfts
      ensures Valid() && (r.Ok? ==> r.value)
      ensures Run(State(), r) == ApplyTransfer(old(State()), ps.explorer, address, tokenType, tr)
      ensures fresh((set n | n in nfts) - (set n | n in old(nfts)))
    {
      var fields := ReadFields(tr, tokenType);
      if fields.Err? {
        return Err(fields.error);
      }
      r := ResolveAndFeed(tr, fields.value);
    }

    /** An iteration after its fields were read: the transaction resolved, then fed. */
    method ResolveAndFeed(tr: RawTransfer, f: Fields) returns (r: Result<bool, LedgerError>)
      requires Valid()
      modifies this, cache, set n | n in nfts
      ensures Valid() && (r.Ok? ==> r.value)
      ensures Run(State(), r) == ApplyFields(old(State()), ps.explorer, address, tr, f)
      ensures fresh((set n | n in nfts) - (set n | n in old(nfts)))
    {
      ghost var books := Books();
      var transaction := ResolveTransaction(f.hash, f.from, f.to);
      if transaction.Err? {
        return Err(transaction.error);
      }
      ghost var resolved := cache.entries;
      assert Books() == books;
      r := Feed(tr, f.from, f.to, f.contract, f.tokenValue, transaction.value);
      assert cache.entries == resolved;
      ApplyFieldsFed(old(State()), ps.explorer, address, tr, f, transaction.value, resolved, Books(), r);
    }

    /** The end of an iteration: find or append the NFT and apply the transfer to it. */
    method Feed(tr: RawTransfer, from: Address, to: Address, contract: Address, tokenValue: int,
                transaction: Transaction) returns (r: Result<bool, LedgerError>)
      requires Valid()
      modifies this, set n | n in nfts
      ensures Valid() && (r.Ok? ==> r.value)
      ensures Fed(Books(), r) ==
        FeedBook(old(Books()), address, tr, from, to, contract, tokenValue, transaction)
      ensures fresh((set n | n in nfts) - (set n | n in old(nfts)))
    {
      ghost var found := RetrieveBook(Books(), GenKey(tr.tokenID, contract));
      var nft := RetrieveNft(tr.tokenID, contract);
      var outcome := UpdateHeld(nft, found.index, found.books, from, to, contract, tokenValue,
                                tr.tokenName, tr.timeStamp, transaction);
      r := if outcome.Err? then Err(UpdateFailed(outcome.error)) else Ok(true);
    }

    /** `update_nft` on the wallet's `k`-th NFT: that book alone takes the new log. */
    method UpdateHeld(nft: NFT, ghost k: nat, ghost books: seq<Book>, from: Address, to: Address,
                      contract: Address, tokenValue: int, tokenName: string, date: int,
                      transaction: Transaction)
      returns (outcome: Result<UpdateOutcome, NftError>)
      requires Valid() && k < |nfts| && nfts[k] == nft && books == Books()
      modifies nft
      ensures Valid() && nfts == old(nfts)
      ensures var u := UpdateLog(books[k].log, Some(address), date, from, to, contract, tokenValue,
                                 tokenName, transaction);
        Books() == books[k := Book(books[k].key, u.log)] && outcome == u.outcome
    {
      assert forall j :: 0 <= j < |nfts| && j != k ==> nfts[j] != nft;
      outcome := nft.UpdateNft(Some(address), date, from, to, contract, tokenValue, tokenName,
                               transaction);
    }

    /** `parse_token_transfers`: every transfer in list order, stopping at the first error. */
    method ParseTokenTransfers(trs: seq<RawTransfer>, tokenType: string) returns (r: Result<bool, LedgerError>)
      requires Valid()
      modifies this, cache, set n | n in nfts
      ensures Valid()
      ensures Run(State(), r) == ApplyTransfers(old(State()), ps.explorer, address, tokenType, trs)
      ensures fresh((set n | n in nfts) - (set n | n in old(nfts)))
    {
      ghost var start := State();
      for i := 0 to |trs|
        invariant Valid()
        invariant ApplyTransfers(start, ps.explorer, address, tokenType, trs[..i]) == Run(State(), Ok(true))
        invariant fresh((set n | n in nfts) - (set n | n in old(nfts)))
      {
        var step := ParseNext(start, trs, i, tokenType);
        if step.Err? {
          return step;
        }
      }
      assert trs[..|trs|] == trs;
      r := Ok(true);
    }

    /** The `i`-th iteration of `parse_token_transfers`, after the transfers before it went
        through; an error ends the run over the whole list. */
    method ParseNext(ghost start: LedgerState, trs: seq<RawTransfer>, i: nat, tokenType: string)
      returns (r: Result<bool, LedgerError>)
      requires Valid() && i < |trs|
      requires ApplyTransfers(start, ps.explorer, address, tokenType, trs[..i]) == Run(State(), Ok(true))
      modifies this, cache, set n | n in nfts
      ensures Valid()
      ensures r.Ok? ==> r.value
      ensures ApplyTransfers(start, ps.explorer, address, tokenType, if r.Ok? then trs[..i + 1] else trs) == Run(State(), r)
      ensures fresh((set n | n in nfts) - (set n | n in old(nfts)))
    {
      assert trs[..i + 1][..i] == trs[..i];
      r := ParseTransfer(trs[i], tokenType);
      if r.Err? {
        ApplyTransfersErrorPersists(start, ps.explorer, address, tokenType, trs, i + 1);
      }
    }

    /** `set_ERC1155_transfers`. */
    method SetErc1155Transfers() returns (r: Result<bool, LedgerError>)
      requires Valid()
      modifies this, cache, set n | n in nfts
      ensures Valid()
      ensures Run(State(), r) == SetTransfers(old(State()), ps.explorer, address, "token1155tx", "ERC1155")
      ensures fresh((set n | n in nfts) - (set n | n in old(nfts)))
    {
      var transfers := ps.GetErcTokenTransfers("token1155tx", Some(address), None);
      if transfers.value.None? {
        return Ok(false);
      }
      r := ParseTokenTransfers(transfers.value.value, "ERC1155");
    }

    /** `set_ERC721_transfers`. */
    method SetErc721Transfers() returns (r: Result<bool, LedgerError>)
      requires Valid()
      modifies this, cache, set n | n in nfts
      ensures Valid()
      ensures Run(State(), r) == SetTransfers(old(State()), ps.explorer, address, "tokennfttx", "ERC721")
      ensures fresh((set n | n in nfts) - (set n | n in old(nfts)))
    {
      var transfers := ps.GetErcTokenTransfers("tokennfttx", Some(address), None);
      if transfers.value.None? {
        return Ok(false);
      }
      r := ParseTokenTransfers(transfers.value.value, "ERC721");
    }
  }
}
