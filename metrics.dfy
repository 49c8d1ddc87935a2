/**
  * The integer part of `blockchain_metrics.py`: `metrics_per_wallet`, which builds one
  * `AddressTransactions` per wallet that has a transaction list, and the nested loop of
  * `calculate_metrics` that totals governance NFTs, sales, purchases, revenue, costs, sellers and
  * buyers over every NFT of every kept wallet.
  *
  * `metrics_per_wallet` is proved against `SurveyWallets`, a fold over the wallets of the
  * per-wallet specification `Measure`. The totals loop is proved against `Tally`, a fold of the
  * loop body `TallyStep` over the facts of every NFT in order; `TallyMatchesReference` shows
  * that the guarded loop body computes the plain sums of every NFT's counters, and raises exactly
  * on the first NFT of no known status.
  */
module Metrics {
  import opened Wrappers
  import opened Scan
  import opened Tokens
  import opened Ledger

  // ---------------------------------------------------------------------------------------
  // metrics_per_wallet

  /** What one iteration of `metrics_per_wallet` leaves: the cache, and the wallet's NFTs when
      it was kept (`None` when `get_transactions` returned false). */
  datatype Measured = Measured(cache: Cache, result: Result<Option<seq<Book>>, LedgerError>)

  /** One wallet: `get_transactions` for the wallet itself, then ERC-1155 transfers, then ERC-721
      transfers; an error of any step ends the whole run. */
  function Measure(cache: Cache, explorer: Explorer, wallet: nat): (r: Measured)
    ensures r.result == Ok(None) <==> explorer.normalTransactions(wallet).None?
  {
    var fetched := FetchTransactions(cache, explorer, wallet);
    match fetched.result
    case Err(e) => Measured(fetched.cache, Err(e))
    case Ok(kept) =>
      if !kept then Measured(fetched.cache, Ok(None))
      else
        var erc1155 := SetTransfers(LedgerState(fetched.cache, []), explorer, wallet, "token1155tx", "ERC1155");
        if erc1155.result.Err? then Measured(erc1155.state.cache, Err(erc1155.result.error))
        else
          var erc721 := SetTransfers(erc1155.state, explorer, wallet, "tokennfttx", "ERC721");
          if erc721.result.Err? then Measured(erc721.state.cache, Err(erc721.result.error))
          else Measured(erc721.state.cache, Ok(Some(erc721.state.books)))
  }

  /** Measuring a wallet only adds to the cache. */
  lemma MeasureKeepsCache(cache: Cache, explorer: Explorer, wallet: nat)
    ensures var r := Measure(cache, explorer, wallet);
      forall k :: k in cache ==> k in r.cache && r.cache[k] == cache[k]
  {
    var fetched := FetchTransactions(cache, explorer, wallet);
    if fetched.result == Ok(true) {
      var st := LedgerState(fetched.cache, []);
      ApplyTransfersPreserves(st, explorer, wallet, "ERC1155", TransfersOf(explorer, wallet, "token1155tx"));
      var erc1155 := SetTransfers(st, explorer, wallet, "token1155tx", "ERC1155");
      if erc1155.result.Ok? {
        ApplyTransfersPreserves(erc1155.state, explorer, wallet, "ERC721", TransfersOf(explorer, wallet, "tokennfttx"));
      }
    }
  }

  /** The transfers the explorer lists for the wallet under `action` (none when it has no list). */
  function TransfersOf(explorer: Explorer, wallet: nat, action: string): seq<RawTransfer> {
    match explorer.tokenTransfers(action, Some(wallet), None)
    case None => []
    case Some(trs) => trs
  }

  /** A kept wallet's NFTs carry its own transfers only, under unique keys, and every transfer
      of both lists has its NFT. */
  lemma MeasureBooks(cache: Cache, explorer: Explorer, wallet: nat)
    ensures var r := Measure(cache, explorer, wallet);
      r.result.Ok? && r.result.value.Some? ==>
        && BooksOf(r.result.value.value, wallet)
        && Covers(r.result.value.value, TransfersOf(explorer, wallet, "token1155tx"))
        && Covers(r.result.value.value, TransfersOf(explorer, wallet, "tokennfttx"))
  {
    var fetched := FetchTransactions(cache, explorer, wallet);
    if fetched.result == Ok(true) {
      var st := LedgerState(fetched.cache, []);
      var erc1155 := SetTransfers(st, explorer, wallet, "token1155tx", "ERC1155");
      var trs1155 := TransfersOf(explorer, wallet, "token1155tx");
      ApplyTransfersPreserves(st, explorer, wallet, "ERC1155", trs1155);
      ApplyTransfersCovers(st, explorer, wallet, "ERC1155", trs1155);
      assert erc1155.result.Ok? ==> Covers(erc1155.state.books, trs1155);
      if erc1155.result.Ok? {
        var erc721 := SetTransfers(erc1155.state, explorer, wallet, "tokennfttx", "ERC721");
        var trs721 := TransfersOf(explorer, wallet, "tokennfttx");
        ApplyTransfersPreserves(erc1155.state, explorer, wallet, "ERC721", trs721);
        ApplyTransfersCovers(erc1155.state, explorer, wallet, "ERC721", trs721);
        if erc721.result.Ok? {
          CoversExtends(erc721.state.books, erc1155.state.books, trs1155);
        }
      }
    }
  }

  /** A kept wallet and its NFTs. */
  datatype WalletMetrics = WalletMetrics(address: nat, books: seq<Book>)

  /** What `metrics_per_wallet` returns (or the error it stops at), and the cache it leaves. */
  datatype Survey = Survey(cache: Cache, result: Result<seq<WalletMetrics>, LedgerError>)

  function SurveyWallets(cache: Cache, explorer: Explorer, wallets: seq<nat>): Survey {
    if wallets == [] then Survey(cache, Ok([]))
    else
      var prefix := SurveyWallets(cache, explorer, wallets[..|wallets| - 1]);
      if prefix.result.Err? then prefix
      else
        var wallet := wallets[|wallets| - 1];
        var one := Measure(prefix.cache, explorer, wallet);
        match one.result
        case Err(e) => Survey(one.cache, Err(e))
        case Ok(None) => prefix.(cache := one.cache)
        case Ok(Some(books)) => Survey(one.cache, Ok(prefix.result.value + [WalletMetrics(wallet, books)]))
  }

  lemma {:induction false} SurveyErrorPersists(cache: Cache, explorer: Explorer, wallets: seq<nat>, k: nat)
    requires k <= |wallets| && SurveyWallets(cache, explorer, wallets[..k]).result.Err?
    ensures SurveyWallets(cache, explorer, wallets) == SurveyWallets(cache, explorer, wallets[..k])
  {
    if k < |wallets| {
      var init := wallets[..|wallets| - 1];
      assert init[..k] == wallets[..k];
      SurveyErrorPersists(cache, explorer, init, k);
      assert SurveyWallets(cache, explorer, init).result.Err?;
    } else {
      assert wallets[..k] == wallets;
    }
  }

  /** The wallets for which the explorer has a list of normal transactions, in order. */
  function WithTransactions(explorer: Explorer, wallets: seq<nat>): (r: seq<nat>)
    ensures forall w :: w in r <==> w in wallets && explorer.normalTransactions(w).Some?
  {
    if wallets == [] then []
    else
      var kept := WithTransactions(explorer, wallets[..|wallets| - 1]);
      var w := wallets[|wallets| - 1];
      assert wallets == wallets[..|wallets| - 1] + [w];
      if explorer.normalTransactions(w).Some? then kept + [w] else kept
  }

  function Addresses(ms: seq<WalletMetrics>): (r: seq<nat>)
    ensures |r| == |ms| && forall i :: 0 <= i < |ms| ==> r[i] == ms[i].address
  {
    if ms == [] then [] else Addresses(ms[..|ms| - 1]) + [ms[|ms| - 1].address]
  }

  /** `metrics_per_wallet` keeps exactly the wallets that have a transaction list, in input
      order, and every kept wallet's NFTs are its own. */
  lemma {:induction false} SurveyKeeps(cache: Cache, explorer: Explorer, wallets: seq<nat>)
    ensures var r := SurveyWallets(cache, explorer, wallets);
      r.result.Ok? ==>
        && Addresses(r.result.value) == WithTransactions(explorer, wallets)
        && forall i :: 0 <= i < |r.result.value| ==> BooksOf(r.result.value[i].books, r.result.value[i].address)
  {
    if wallets != [] {
      var init := wallets[..|wallets| - 1];
      SurveyKeeps(cache, explorer, init);
      var prefix := SurveyWallets(cache, explorer, init);
      if prefix.result.Ok? {
        var w := wallets[|wallets| - 1];
        var one := Measure(prefix.cache, explorer, w);
        MeasureBooks(prefix.cache, explorer, w);
        if one.result.Ok? && one.result.value.Some? {
          var ms := prefix.result.value + [WalletMetrics(w, one.result.value.value)];
          assert SurveyWallets(cache, explorer, wallets).result == Ok(ms);
          assert Addresses(ms) == Addresses(prefix.result.value) + [w];
        }
      }
    }
  }

  // ---------------------------------------------------------------------------------------
  // The totals of calculate_metrics

  datatype MetricsError = NoKnownStatus(id: string)

  /** What the totals loop asks of one NFT. */
  datatype NftFacts = NftFacts(id: string, gov: bool, sold: bool, bought: bool, created: bool,
                               sales: nat, purchases: nat, revenue: int, costs: int,
                               sellers: seq<Address>, buyers: seq<Address>)

  /** What every NFT's answers have in common: a governance NFT has no sale nor purchase, an NFT
      never sold has no seller and no revenue, one never bought no buyer and no cost. */
  predicate Coherent(f: NftFacts) {
    && (f.gov ==> f.sales == 0 && f.purchases == 0)
    && (f.sold <==> f.sales > 0) && (f.bought <==> f.purchases > 0)
    && |f.sellers| == f.sales && |f.buyers| == f.purchases
    && (!f.sold ==> f.revenue == 0) && (!f.bought ==> f.costs == 0)
  }

  /** The answers of `is_gov`, `was_ever_sold`, `was_ever_bought`, `was_ever_created`,
      `get_nr_sales`, `get_nr_purchases`, `get_revenue`, `get_costs`, `get_sellers` and
      `get_buyers` of an NFT, read off its history (the NFT's lists are projections of it). The
      sums are taken over the lists as the NFT keeps them, `statuses` against `values`; the
      guard `aligned` holds for every history an NFT can have. */
  function BookFacts(b: Book): NftFacts {
    var st := StatusesOf(b.log);
    var values := ValuesOf(b.log);
    var aligned := |st| <= |values| && |st| <= |b.log|;
    NftFacts(b.key, HasGov(st), CountOf(st, Sold) > 0, CountOf(st, Bought) > 0,
             EverCreated(st) == Ok(true), CountOf(st, Sold), CountOf(st, Bought),
             if aligned then ValueTotal(st, values, Sold) else 0,
             if aligned then ValueTotal(st, values, Bought) else 0,
             if aligned then PartiesOf(st, FromsOf(b.log), Sold) else [],
             if aligned then PartiesOf(st, TosOf(b.log), Bought) else [])
  }

  /** The answers about an NFT of a wallet are coherent. */
  lemma BookFactsCoherent(b: Book, self: nat)
    requires HistoryOf(b.log, self)
    ensures Coherent(BookFacts(b))
  {
    var st := StatusesOf(b.log);
    StatusesNotLongerThanValues(b.log);
    InvariantConsequences(st);
    CountOfPositive(st, Sold);
    CountOfPositive(st, Bought);
    ValueTotalAbsent(st, ValuesOf(b.log), Sold);
    ValueTotalAbsent(st, ValuesOf(b.log), Bought);
    PartiesCount(st, FromsOf(b.log), Sold);
    PartiesCount(st, TosOf(b.log), Bought);
  }

  /** The answers in terms of the history: counts of labels, and when every applied transfer
      was labelled, prices and parties of the labelled entries. */
  lemma BookFactsHistory(b: Book, self: nat)
    requires HistoryOf(b.log, self)
    ensures var f := BookFacts(b);
      && f.sales == LabelCount(b.log, Sold) && f.purchases == LabelCount(b.log, Bought)
      && (f.created <==> LabelCount(b.log, Created) > 0)
      && (AllLabelled(b.log) ==>
            && f.revenue == LabelledValue(b.log, Sold) && f.costs == LabelledValue(b.log, Bought)
            && f.sellers == LabelledUsers(b.log, Sold) && f.buyers == LabelledUsers(b.log, Bought))
  {
    var st := StatusesOf(b.log);
    StatusesNotLongerThanValues(b.log);
    InvariantConsequences(st);
    CountOfStatuses(b.log, Sold);
    CountOfStatuses(b.log, Bought);
    CountOfStatuses(b.log, Created);
    CountOfPositive(st, Created);
    AlignedValueTotal(b.log, Sold);
    AlignedValueTotal(b.log, Bought);
    AlignedSellers(b.log);
    AlignedBuyers(b.log);
  }

  /** The accumulators of the totals loop. */
  datatype Totals = Totals(gov: nat, bought: nat, sold: nat, gains: int, costs: int,
                           sellers: seq<Address>, buyers: seq<Address>)

  const NoTotals: Totals := Totals(0, 0, 0, 0, 0, [], [])

  function Plus(a: Totals, b: Totals): Totals {
    Totals(a.gov + b.gov, a.bought + b.bought, a.sold + b.sold, a.gains + b.gains,
           a.costs + b.costs, a.sellers + b.sellers, a.buyers + b.buyers)
  }

  /** What one NFT adds, counted without the loop's guards. */
  function Contribution(f: NftFacts): (r: Totals)
    ensures Coherent(f) && f.gov ==> r == NoTotals.(gov := 1)
  {
    Totals(if f.gov then 1 else 0, f.purchases, f.sales, f.revenue, f.costs, f.sellers, f.buyers)
  }

  /** The NFTs the loop refuses: neither governance, sold, bought nor created. */
  predicate Unknown(f: NftFacts) {
    !(f.gov || f.sold || f.bought || f.created)
  }

  /** One iteration of the inner loop: a governance NFT is counted and skipped; otherwise the
      sales and the purchases are added when there were any, and an NFT of no known status
      raises. On coherent facts that is adding the NFT's contribution, or the error. */
  function TallyStep(t: Totals, f: NftFacts): (r: Result<Totals, MetricsError>)
    ensures Coherent(f) ==>
      r == if Unknown(f) then Err(NoKnownStatus(f.id)) else Ok(Plus(t, Contribution(f)))
  {
    assert t.sellers + [] == t.sellers && t.buyers + [] == t.buyers;
    if f.gov then Ok(t.(gov := t.gov + 1))
    else
      var t1 := if f.sold then t.(sold := t.sold + f.sales, gains := t.gains + f.revenue,
                                  sellers := t.sellers + f.sellers) else t;
      var t2 := if f.bought then t1.(bought := t1.bought + f.purchases, costs := t1.costs + f.costs,
                                     buyers := t1.buyers + f.buyers) else t1;
      if Unknown(f) then Err(NoKnownStatus(f.id)) else Ok(t2)
  }

  /** The loop body over a sequence of NFTs, from `start`, stopping at the first error. */
  function Tally(start: Totals, fs: seq<NftFacts>): Result<Totals, MetricsError> {
    if fs == [] then Ok(start)
    else
      match Tally(start, fs[..|fs| - 1])
      case Err(e) => Err(e)
      case Ok(t) => TallyStep(t, fs[|fs| - 1])
  }

  /** The plain sums: every NFT's contribution added. */
  function Reference(fs: seq<NftFacts>): Totals {
    if fs == [] then NoTotals else Plus(Reference(fs[..|fs| - 1]), Contribution(fs[|fs| - 1]))
  }

  /** The position of the first NFT of unknown status, or the number of NFTs when there is none. */
  function FirstUnknown(fs: seq<NftFacts>): (k: nat)
    ensures k <= |fs|
    ensures forall j :: 0 <= j < k ==> !Unknown(fs[j])
    ensures k < |fs| ==> Unknown(fs[k])
  {
    if fs == [] || Unknown(fs[0]) then 0 else 1 + FirstUnknown(fs[1..])
  }

  /** The first unknown NFT of a longer sequence: the same one, or the new last one. */
  lemma FirstUnknownSnoc(fs: seq<NftFacts>)
    requires fs != []
    ensures var init := fs[..|fs| - 1];
      FirstUnknown(fs) ==
        if FirstUnknown(init) < |init| then FirstUnknown(init)
        else if Unknown(fs[|fs| - 1]) then |init| else |fs|
  {
    var init := fs[..|fs| - 1];
    var k, k' := FirstUnknown(init), FirstUnknown(fs);
    assert forall j :: 0 <= j < |init| ==> init[j] == fs[j];
    if k < |init| {
      assert Unknown(fs[k]);
    }
  }

  /** The guarded loop computes the plain sums when no NFT is of unknown status, and otherwise
      raises on the first one that is. */
  lemma {:induction false} TallyMatchesReference(start: Totals, fs: seq<NftFacts>)
    requires forall i :: 0 <= i < |fs| ==> Coherent(fs[i])
    ensures Tally(start, fs) ==
      if FirstUnknown(fs) == |fs| then Ok(Plus(start, Reference(fs)))
      else Err(NoKnownStatus(fs[FirstUnknown(fs)].id))
  {
    if fs == [] {
      assert start.sellers + [] == start.sellers && start.buyers + [] == start.buyers;
    } else {
      var init := fs[..|fs| - 1];
      assert forall i :: 0 <= i < |init| ==> Coherent(init[i]) by {
        assert forall i :: 0 <= i < |init| ==> init[i] == fs[i];
      }
      TallyMatchesReference(start, init);
      TallyLast(start, fs);
    }
  }

  /** The step of `TallyMatchesReference`: one more coherent NFT after a prefix it holds for. */
  lemma TallyLast(start: Totals, fs: seq<NftFacts>)
    requires fs != [] && Coherent(fs[|fs| - 1])
    requires var init := fs[..|fs| - 1];
      Tally(start, init) ==
        if FirstUnknown(init) == |init| then Ok(Plus(start, Reference(init)))
        else Err(NoKnownStatus(init[FirstUnknown(init)].id))
    ensures Tally(start, fs) ==
      if FirstUnknown(fs) == |fs| then Ok(Plus(start, Reference(fs)))
      else Err(NoKnownStatus(fs[FirstUnknown(fs)].id))
  {
    var init, last := fs[..|fs| - 1], fs[|fs| - 1];
    FirstUnknownSnoc(fs);
    var k := FirstUnknown(init);
    if k < |init| {
      assert init[k] == fs[k];
    } else {
      PlusAssociative(start, Reference(init), Contribution(last));
    }
  }

  lemma PlusAssociative(a: Totals, b: Totals, c: Totals)
    ensures Plus(Plus(a, b), c) == Plus(a, Plus(b, c))
  {
    assert (a.sellers + b.sellers) + c.sellers == a.sellers + (b.sellers + c.sellers);
    assert (a.buyers + b.buyers) + c.buyers == a.buyers + (b.buyers + c.buyers);
  }

  /** The sums over the NFTs add up their sales and purchases; sellers and buyers are listed
      once per sale and purchase. */
  lemma {:induction false} ReferenceCounts(fs: seq<NftFacts>)
    requires forall i :: 0 <= i < |fs| ==> Coherent(fs[i])
    ensures |Reference(fs).sellers| == Reference(fs).sold
    ensures |Reference(fs).buyers| == Reference(fs).bought
    ensures Reference(fs).gov <= |fs|
  {
    if fs != [] {
      ReferenceCounts(fs[..|fs| - 1]);
    }
  }

  /** Per-wallet accumulators added to the totals give what the loop body would give on the
      totals directly. */
  lemma StepShift(t: Totals, a: Totals, f: NftFacts)
    ensures TallyStep(Plus(t, a), f) ==
      match TallyStep(a, f)
      case Err(e) => Err(e)
      case Ok(a') => Ok(Plus(t, a'))
  {
    assert Plus(t, a).sellers + f.sellers == t.sellers + (a.sellers + f.sellers);
    assert Plus(t, a).buyers + f.buyers == t.buyers + (a.buyers + f.buyers);
  }

  lemma {:induction false} TallyErrorPersists(start: Totals, xs: seq<NftFacts>, ys: seq<NftFacts>)
    requires Tally(start, xs).Err?
    ensures Tally(start, xs + ys) == Tally(start, xs)
  {
    if ys != [] {
      assert (xs + ys)[..|xs + ys| - 1] == xs + ys[..|ys| - 1];
      TallyErrorPersists(start, xs, ys[..|ys| - 1]);
      assert Tally(start, xs + ys[..|ys| - 1]).Err?;
    } else {
      assert xs + ys == xs;
    }
  }

  /** `len(set(s))`: the number of distinct elements. */
  function DistinctCount<T(==)>(s: seq<T>): nat {
    |set x | x in s|
  }

  lemma {:induction false} DistinctCountBound<T>(s: seq<T>)
    ensures DistinctCount(s) <= |s|
    ensures s != [] ==> DistinctCount(s) >= 1
  {
    if s != [] {
      var init := s[..|s| - 1];
      DistinctCountBound(init);
      assert s == init + [s[|s| - 1]];
      assert (set x | x in s) == (set x | x in init) + {s[|s| - 1]};
    }
    if s != [] {
      assert s[0] in (set x | x in s);
    }
  }

  /** Every seller some NFT names, and every buyer. */
  ghost function SellersNamed(fs: seq<NftFacts>): set<Address> {
    set i, x | 0 <= i < |fs| && x in fs[i].sellers :: x
  }

  ghost function BuyersNamed(fs: seq<NftFacts>): set<Address> {
    set i, x | 0 <= i < |fs| && x in fs[i].buyers :: x
  }

  /** The concatenated parties of the plain sums hold exactly the parties the NFTs name. */
  lemma {:induction false} ReferenceParties(fs: seq<NftFacts>)
    ensures (set x | x in Reference(fs).sellers) == SellersNamed(fs)
    ensures (set x | x in Reference(fs).buyers) == BuyersNamed(fs)
  {
    if fs != [] {
      var init, last := fs[..|fs| - 1], fs[|fs| - 1];
      ReferenceParties(init);
      var r := Reference(init);
      assert Reference(fs).sellers == r.sellers + last.sellers;
      assert Reference(fs).buyers == r.buyers + last.buyers;
      assert SellersNamed(fs) == SellersNamed(init) + (set x | x in last.sellers) by {
        forall x | x in SellersNamed(fs) ensures x in SellersNamed(init) || x in last.sellers {
          var i :| 0 <= i < |fs| && x in fs[i].sellers;
          if i < |init| {
            assert init[i] == fs[i];
          }
        }
        forall x | x in SellersNamed(init) ensures x in SellersNamed(fs) {
          var i :| 0 <= i < |init| && x in init[i].sellers;
          assert fs[i] == init[i];
        }
      }
      assert BuyersNamed(fs) == BuyersNamed(init) + (set x | x in last.buyers) by {
        forall x | x in BuyersNamed(fs) ensures x in BuyersNamed(init) || x in last.buyers {
          var i :| 0 <= i < |fs| && x in fs[i].buyers;
          if i < |init| {
            assert init[i] == fs[i];
          }
        }
        forall x | x in BuyersNamed(init) ensures x in BuyersNamed(fs) {
          var i :| 0 <= i < |init| && x in init[i].buyers;
          assert fs[i] == init[i];
        }
      }
    }
  }

  /** The integer results of `calculate_metrics`. */
  datatype Summary = Summary(totals: Totals, sellersNr: nat, buyersNr: nat)

  function Summarize(t: Result<Totals, MetricsError>): (r: Result<Summary, MetricsError>)
    ensures r.Ok? ==> t.Ok? && r.value.totals == t.value
    ensures r.Ok? ==> r.value.sellersNr <= |t.value.sellers| && r.value.buyersNr <= |t.value.buyers|
    ensures r.Ok? ==> r.value.sellersNr == |set x | x in t.value.sellers| &&
                      r.value.buyersNr == |set x | x in t.value.buyers|
    ensures r.Err? ==> t.Err? && r.error == t.error
  {
    match t
    case Err(e) => Err(e)
    case Ok(totals) =>
      DistinctCountBound(totals.sellers);
      DistinctCountBound(totals.buyers);
      Ok(Summary(totals, DistinctCount(totals.sellers), DistinctCount(totals.buyers)))
  }

  /** The facts of the NFTs of one wallet, in order. */
  function Row(books: seq<Book>): (r: seq<NftFacts>)
    ensures |r| == |books|
  {
    if books == [] then [] else Row(books[..|books| - 1]) + [BookFacts(books[|books| - 1])]
  }

  lemma {:induction false} RowAt(books: seq<Book>, i: nat)
    requires i < |books|
    ensures Row(books)[i] == BookFacts(books[i])
  {
    if i < |books| - 1 {
      RowAt(books[..|books| - 1], i);
    }
  }

  /** The rows of the kept wallets, wallet by wallet. */
  function Rows(ms: seq<WalletMetrics>): (r: seq<seq<NftFacts>>)
    ensures |r| == |ms|
  {
    if ms == [] then [] else Rows(ms[..|ms| - 1]) + [Row(ms[|ms| - 1].books)]
  }

  lemma {:induction false} RowsAt(ms: seq<WalletMetrics>, i: nat)
    requires i < |ms|
    ensures Rows(ms)[i] == Row(ms[i].books)
  {
    if i < |ms| - 1 {
      RowsAt(ms[..|ms| - 1], i);
    }
  }

  function Flatten<T>(rows: seq<seq<T>>): seq<T> {
    if rows == [] then [] else Flatten(rows[..|rows| - 1]) + rows[|rows| - 1]
  }

  lemma {:induction false} FlattenSplit<T>(rows: seq<seq<T>>, k: nat)
    requires k <= |rows|
    ensures Flatten(rows) == Flatten(rows[..k]) + Flatten(rows[k..])
  {
    if k == |rows| {
      assert rows[..k] == rows && rows[k..] == [];
    } else {
      var init := rows[..|rows| - 1];
      FlattenSplit(init, k);
      assert init[..k] == rows[..k];
      assert rows[k..][..|rows[k..]| - 1] == init[k..];
    }
  }

  /** The facts of every NFT of every kept wallet, wallet by wallet. */
  function AllFacts(ms: seq<WalletMetrics>): seq<NftFacts> {
    Flatten(Rows(ms))
  }

  predicate AllCoherent(fs: seq<NftFacts>) {
    forall k :: 0 <= k < |fs| ==> Coherent(fs[k])
  }

  lemma CoherentConcat(xs: seq<NftFacts>, ys: seq<NftFacts>)
    requires AllCoherent(xs) && AllCoherent(ys)
    ensures AllCoherent(xs + ys)
  {
    forall k | 0 <= k < |xs + ys| ensures Coherent((xs + ys)[k]) {
      if k >= |xs| {
        assert (xs + ys)[k] == ys[k - |xs|];
      }
    }
  }

  lemma {:induction false} RowCoherent(books: seq<Book>, self: nat)
    requires BooksOf(books, self)
    ensures AllCoherent(Row(books))
  {
    if books != [] {
      var init := books[..|books| - 1];
      assert BooksOf(init, self);
      RowCoherent(init, self);
      BookFactsCoherent(books[|books| - 1], self);
      CoherentConcat(Row(init), [BookFacts(books[|books| - 1])]);
    }
  }

  lemma {:induction false} RowsCoherent(ms: seq<WalletMetrics>)
    requires forall i :: 0 <= i < |ms| ==> BooksOf(ms[i].books, ms[i].address)
    ensures AllCoherent(Flatten(Rows(ms)))
  {
    if ms != [] {
      var init, last := ms[..|ms| - 1], ms[|ms| - 1];
      RowsCoherent(init);
      RowCoherent(last.books, last.address);
      assert Rows(ms)[..|ms| - 1] == Rows(init);
      CoherentConcat(Flatten(Rows(init)), Row(last.books));
    }
  }

  /** What `calculate_metrics` totals over the wallets `metrics_per_wallet` keeps: the plain
      sums over all their NFTs, or the error naming the first NFT of no known status; the
      distinct sellers and buyers are the parties any NFT names, no more than the sales and
      purchases. */
  lemma CalculateMetrics(cache: Cache, explorer: Explorer, wallets: seq<nat>)
    ensures var survey := SurveyWallets(cache, explorer, wallets);
      survey.result.Ok? ==> SummaryOf(AllFacts(survey.result.value))
  {
    var survey := SurveyWallets(cache, explorer, wallets);
    SurveyKeeps(cache, explorer, wallets);
    if survey.result.Ok? {
      RowsCoherent(survey.result.value);
      SummaryOfCoherent(AllFacts(survey.result.value));
    }
  }

  /** What `calculate_metrics` reports over a sequence of NFT facts: the totals are the plain
      sums when no NFT is of unknown status, the distinct sellers and buyers are the number of
      parties any NFT names, at most the sales and purchases, and otherwise the error names the first NFT of unknown status. */
  ghost predicate SummaryOf(fs: seq<NftFacts>) {
    var r := Summarize(Tally(NoTotals, fs));
    && (r.Ok? <==> forall i :: 0 <= i < |fs| ==> !Unknown(fs[i]))
    && (r.Ok? ==> r.value.totals == Reference(fs) &&
                  r.value.sellersNr == |SellersNamed(fs)| && r.value.buyersNr == |BuyersNamed(fs)| &&
                  r.value.sellersNr <= r.value.totals.sold && r.value.buyersNr <= r.value.totals.bought)
    && (r.Err? ==> var k := FirstUnknown(fs);
                   k < |fs| && Unknown(fs[k]) && r.error == NoKnownStatus(fs[k].id) &&
                   forall j :: 0 <= j < k ==> !Unknown(fs[j]))
  }

  lemma SummaryOfCoherent(fs: seq<NftFacts>)
    requires AllCoherent(fs)
    ensures SummaryOf(fs)
  {
    TallyMatchesReference(NoTotals, fs);
    ReferenceCounts(fs);
    ReferenceParties(fs);
    assert Plus(NoTotals, Reference(fs)) == Reference(fs);
  }

  /** `metrics_per_wallet`: one `AddressTransactions` per wallet, sharing the cache; wallets
      without a transaction list are skipped. */
  method MetricsPerWallet(wallets: seq<nat>, ps: BlockChainScan, cache: TransCache)
    returns (r: Result<seq<AddressTransactions>, LedgerError>)
    modifies cache
    ensures SurveyWallets(old(cache.entries), ps.explorer, wallets) == Survey(cache.entries, Reported(r))
    ensures r.Ok? ==> AllKept(r.value, ps, cache) && fresh(set m | m in r.value)
  {
    var kept: seq<AddressTransactions> := [];
    for i := 0 to |wallets|
      invariant AllKept(kept, ps, cache) && fresh(set m | m in kept)
      invariant SurveyWallets(old(cache.entries), ps.explorer, wallets[..i]) == Survey(cache.entries, Ok(Views(kept)))
    {
      var next := SurveyStep(old(cache.entries), wallets, i, ps, cache, kept);
      if next.Err? {
        return next;
      }
      kept := next.value;
    }
    assert wallets[..|wallets|] == wallets;
    r := Ok(kept);
  }

  /** The body of the loop of `metrics_per_wallet`: the `i`-th wallet measured, and kept when it
      has a transaction list. */
  method SurveyStep(ghost start: Cache, wallets: seq<nat>, i: nat, ps: BlockChainScan, cache: TransCache,
                    kept: seq<AddressTransactions>)
    returns (r: Result<seq<AddressTransactions>, LedgerError>)
    requires i < |wallets|
    requires AllKept(kept, ps, cache)
    requires SurveyWallets(start, ps.explorer, wallets[..i]) == Survey(cache.entries, Ok(Views(kept)))
    modifies cache
    ensures r.Err? ==> SurveyWallets(start, ps.explorer, wallets) == Survey(cache.entries, Err(r.error))
    ensures r.Ok? ==>
      && SurveyWallets(start, ps.explorer, wallets[..i + 1]) == Survey(cache.entries, Ok(Views(r.value)))
      && AllKept(r.value, ps, cache)
      && fresh((set m | m in r.value) - (set m | m in kept))
  {
    ghost var before := Views(kept);
    var one := MeasureNext(start, wallets, i, ps, cache, before);
    assert Views(kept) == before;
    if one.Err? {
      r := Err(one.error);
    } else if one.value.None? {
      r := Ok(kept);
    } else {
      var m := one.value.value;
      r := Ok(kept + [m]);
      assert Views(r.value) == before + [WalletMetrics(m.address, m.Books())];
      AllKeptSnoc(kept, m, ps, cache);
    }
  }

  /** The `i`-th wallet measured after the wallets before it, which kept `vs`. */
  method MeasureNext(ghost start: Cache, wallets: seq<nat>, i: nat, ps: BlockChainScan, cache: TransCache,
                     ghost vs: seq<WalletMetrics>)
    returns (one: Result<Option<AddressTransactions>, LedgerError>)
    requires i < |wallets|
    requires SurveyWallets(start, ps.explorer, wallets[..i]) == Survey(cache.entries, Ok(vs))
    modifies cache
    ensures match one
      case Err(e) => SurveyWallets(start, ps.explorer, wallets) == Survey(cache.entries, Err(e))
      case Ok(None) => SurveyWallets(start, ps.explorer, wallets[..i + 1]) == Survey(cache.entries, Ok(vs))
      case Ok(Some(m)) =>
        && SurveyWallets(start, ps.explorer, wallets[..i + 1]) ==
             Survey(cache.entries, Ok(vs + [WalletMetrics(m.address, m.Books())]))
        && fresh(m) && m.Valid() && m.ps == ps && m.cache == cache
  {
    SurveySnoc(start, ps.explorer, wallets, i, cache.entries, vs);
    one := MeasureWallet(wallets[i], ps, cache);
  }

  /** Every kept wallet is well formed and shares the scanner and the cache. */
  ghost predicate AllKept(ms: seq<AddressTransactions>, ps: BlockChainScan, cache: TransCache)
    reads ms, set m, i | m in ms && 0 <= i < |m.nfts| :: m.nfts[i]
  {
    forall m :: m in ms ==> m.Valid() && m.ps == ps && m.cache == cache
  }

  lemma AllKeptSnoc(ms: seq<AddressTransactions>, m: AddressTransactions, ps: BlockChainScan, cache: TransCache)
    requires AllKept(ms, ps, cache) && m.Valid() && m.ps == ps && m.cache == cache
    ensures AllKept(ms + [m], ps, cache)
  {
    var ns := ms + [m];
    assert forall k :: 0 <= k < |ms| ==> ns[k] == ms[k];
  }

  /** One more wallet of `metrics_per_wallet` after a prefix that raised nothing; an error
      ends the survey of all the wallets. */
  lemma SurveySnoc(cache: Cache, explorer: Explorer, wallets: seq<nat>, i: nat, c: Cache,
                   vs: seq<WalletMetrics>)
    requires i < |wallets| && SurveyWallets(cache, explorer, wallets[..i]) == Survey(c, Ok(vs))
    ensures var one := Measure(c, explorer, wallets[i]);
      match one.result
      case Err(e) => SurveyWallets(cache, explorer, wallets) == Survey(one.cache, Err(e))
      case Ok(None) => SurveyWallets(cache, explorer, wallets[..i + 1]) == Survey(one.cache, Ok(vs))
      case Ok(Some(books)) =>
        SurveyWallets(cache, explorer, wallets[..i + 1]) ==
          Survey(one.cache, Ok(vs + [WalletMetrics(wallets[i], books)]))
  {
    assert wallets[..i + 1][..i] == wallets[..i];
    if Measure(c, explorer, wallets[i]).result.Err? {
      SurveyErrorPersists(cache, explorer, wallets, i + 1);
    }
  }

  /** What `metrics_per_wallet` reports, as values. */
  ghost function Reported(r: Result<seq<AddressTransactions>, LedgerError>): (v: Result<seq<WalletMetrics>, LedgerError>)
    reads if r.Ok? then r.value else [],
      set m, i | r.Ok? && m in r.value && 0 <= i < |m.nfts| :: m.nfts[i]
    ensures v.Err? <==> r.Err?
    ensures r.Err? ==> v.error == r.error
    ensures r.Ok? ==> v.value == Views(r.value)
  {
    match r
    case Err(e) => Err(e)
    case Ok(ms) => Ok(Views(ms))
  }

  /** The kept wallets as values. */
  ghost function Views(ms: seq<AddressTransactions>): (r: seq<WalletMetrics>)
    reads ms, set m, i | m in ms && 0 <= i < |m.nfts| :: m.nfts[i]
    ensures |r| == |ms| && forall i :: 0 <= i < |ms| ==> r[i] == WalletMetrics(ms[i].address, ms[i].Books())
  {
    if ms == [] then []
    else
      var last := ms[|ms| - 1];
      assert last in ms;
      Views(ms[..|ms| - 1]) + [WalletMetrics(last.address, last.Books())]
  }

  /** One iteration of `metrics_per_wallet`. */
  method MeasureWallet(wallet: nat, ps: BlockChainScan, cache: TransCache)
    returns (r: Result<Option<AddressTransactions>, LedgerError>)
    modifies cache
    ensures var spec := Measure(old(cache.entries), ps.explorer, wallet);
      && cache.entries == spec.cache
      && match r
         case Err(e) => spec.result == Err(e)
         case Ok(None) => spec.result == Ok(None)
         case Ok(Some(m)) =>
           && spec.result == Ok(Some(m.Books())) && m.address == wallet
           && fresh(m) && m.Valid() && m.ps == ps && m.cache == cache
  {
    var m := new AddressTransactions(wallet, ps, cache);
    var fetched := m.GetTransactions(None);
    if fetched.Err? {
      return Err(fetched.error);
    }
    if !fetched.value {
      return Ok(None);
    }
    var erc1155 := m.SetErc1155Transfers();
    if erc1155.Err? {
      return Err(erc1155.error);
    }
    var erc721 := m.SetErc721Transfers();
    if erc721.Err? {
      return Err(erc721.error);
    }
    r := Ok(Some(m));
  }

  /** The integer totals of `calculate_metrics` over the kept wallets: a loop over the wallets,
      each wallet's accumulators added to the totals at the end of the wallet. */
  method Aggregate(metrics: seq<AddressTransactions>, ghost views: seq<WalletMetrics>)
    returns (r: Result<Summary, MetricsError>)
    requires forall i :: 0 <= i < |metrics| ==> metrics[i].Valid()
    requires views == Views(metrics)
    ensures r == Summarize(Tally(NoTotals, AllFacts(views)))
  {
    TableOf(metrics);
    var totals := TallyWallets(metrics, Rows(views));
    r := Summarize(totals);
  }

  /** The facts of a wallet's NFTs, read off the NFTs themselves. */
  ghost function FactsOf(m: AddressTransactions): (r: seq<NftFacts>)
    reads m, m.nfts
    requires m.Valid()
    ensures |r| == |m.nfts|
  {
    seq(|m.nfts|, j requires 0 <= j < |m.nfts| && m.nfts[j].Valid() reads m, m.nfts => Answers(m.nfts[j]))
  }

  /** The table of facts of the kept wallets: a row per wallet, the facts of its NFTs. */
  lemma TableOf(metrics: seq<AddressTransactions>)
    requires forall i :: 0 <= i < |metrics| ==> metrics[i].Valid()
    ensures |Rows(Views(metrics))| == |metrics|
    ensures forall i :: 0 <= i < |metrics| ==>
      metrics[i].Valid() && Rows(Views(metrics))[i] == FactsOf(metrics[i])
  {
    forall i | 0 <= i < |metrics|
      ensures Rows(Views(metrics))[i] == FactsOf(metrics[i])
    {
      TableAt(metrics, i);
    }
  }

  lemma TableAt(metrics: seq<AddressTransactions>, i: nat)
    requires forall k :: 0 <= k < |metrics| ==> metrics[k].Valid()
    requires i < |metrics|
    ensures Rows(Views(metrics))[i] == FactsOf(metrics[i])
  {
    var views := Views(metrics);
    RowsAt(views, i);
    RowOfWallet(metrics[i]);
  }

  lemma RowOfWallet(m: AddressTransactions)
    requires m.Valid()
    ensures Row(m.Books()) == FactsOf(m)
  {
    var books := m.Books();
    forall j | 0 <= j < |books|
      ensures Row(books)[j] == FactsOf(m)[j]
    {
      RowAt(books, j);
      AnswersAreFacts(m.nfts[j]);
    }
  }

  method TallyWallets(metrics: seq<AddressTransactions>, ghost table: seq<seq<NftFacts>>)
    returns (r: Result<Totals, MetricsError>)
    requires |table| == |metrics|
    requires forall i :: 0 <= i < |metrics| ==>
      metrics[i].Valid() && table[i] == FactsOf(metrics[i])
    ensures r == Tally(NoTotals, Flatten(table))
  {
    var totals := NoTotals;
    for i := 0 to |metrics|
      invariant Tally(NoTotals, Flatten(table[..i])) == Ok(totals)
    {
      var addr := TallyWallet(metrics[i]);
      AggregateStep(table, i, totals, addr);
      if addr.Err? {
        return Err(addr.error);
      }
      totals := Plus(totals, addr.value);
    }
    assert table[..|metrics|] == table;
    r := Ok(totals);
  }

  /** One iteration of the outer loop: the wallet's result added to the totals, or its error
      as the error of all the wallets. */
  lemma AggregateStep(table: seq<seq<NftFacts>>, i: nat, totals: Totals, addr: Result<Totals, MetricsError>)
    requires i < |table| && Tally(NoTotals, Flatten(table[..i])) == Ok(totals)
    requires addr == Tally(NoTotals, table[i])
    ensures addr.Ok? ==> Tally(NoTotals, Flatten(table[..i + 1])) == Ok(Plus(totals, addr.value))
    ensures addr.Err? ==> Tally(NoTotals, Flatten(table)) == Err(addr.error)
  {
    FlattenSnoc(table, i);
    TallyWalletAfter(totals, Flatten(table[..i]), table[i]);
    if addr.Err? {
      FlattenSplit(table, i + 1);
      TallyErrorPersists(NoTotals, Flatten(table[..i + 1]), Flatten(table[i + 1..]));
    }
  }

  /** The inner loop of `calculate_metrics`: one wallet's accumulators over its NFTs. */
  method TallyWallet(m: AddressTransactions) returns (r: Result<Totals, MetricsError>)
    requires m.Valid()
    ensures r == Tally(NoTotals, FactsOf(m))
  {
    ghost var facts := FactsOf(m);
    var nfts := m.nfts;
    var addr := NoTotals;
    for j := 0 to |nfts|
      invariant facts == FactsOf(m)
      invariant Tally(NoTotals, facts[..j]) == Ok(addr)
    {
      FactAt(m, j);
      var outcome := TallyStep(addr, Answers(nfts[j]));
      TallyWalletStep(facts, j, addr, outcome);
      if outcome.Err? {
        return outcome;
      }
      addr := outcome.value;
    }
    assert facts[..|nfts|] == facts;
    r := Ok(addr);
  }

  /** The `j`-th fact of a wallet is the answer of its `j`-th NFT. */
  lemma FactAt(m: AddressTransactions, j: nat)
    requires m.Valid() && j < |m.nfts|
    ensures m.nfts[j].Valid() && FactsOf(m)[j] == Answers(m.nfts[j])
  {
  }

  /** One iteration of the inner loop: the next NFT's answer extends the prefix, or its error is
      the wallet's. */
  lemma TallyWalletStep(facts: seq<NftFacts>, j: nat, addr: Totals, outcome: Result<Totals, MetricsError>)
    requires j < |facts| && Tally(NoTotals, facts[..j]) == Ok(addr)
    requires outcome == TallyStep(addr, facts[j])
    ensures outcome.Ok? ==> Tally(NoTotals, facts[..j + 1]) == outcome
    ensures outcome.Err? ==> Tally(NoTotals, facts) == outcome
  {
    TallyPrefixStep(NoTotals, facts, j);
    if outcome.Err? {
      TallyPrefixError(NoTotals, facts, j + 1);
    }
  }

  /** A wallet's accumulators added to the totals are the loop body run over the wallet's NFTs
      after all earlier ones; an error of the wallet is the error of the whole. */
  lemma TallyWalletAfter(totals: Totals, done: seq<NftFacts>, row: seq<NftFacts>)
    requires Tally(NoTotals, done) == Ok(totals)
    ensures Tally(NoTotals, done + row) ==
      match Tally(NoTotals, row)
      case Err(e) => Err(e)
      case Ok(addr) => Ok(Plus(totals, addr))
  {
    TallyConcat(NoTotals, done, row);
    TallyShift(totals, row);
  }

  lemma FlattenSnoc<T>(rows: seq<seq<T>>, k: nat)
    requires k < |rows|
    ensures Flatten(rows[..k + 1]) == Flatten(rows[..k]) + rows[k]
  {
    assert rows[..k + 1][..k] == rows[..k];
  }

  /** One more element of a prefix is one more step of the loop body. */
  lemma TallyPrefixStep(start: Totals, fs: seq<NftFacts>, k: nat)
    requires k < |fs|
    ensures Tally(start, fs[..k + 1]) ==
      match Tally(start, fs[..k])
      case Err(e) => Err(e)
      case Ok(t) => TallyStep(t, fs[k])
  {
    assert fs[..k + 1][..k] == fs[..k];
  }

  /** An error on a prefix is the error of the whole. */
  lemma TallyPrefixError(start: Totals, fs: seq<NftFacts>, k: nat)
    requires k <= |fs| && Tally(start, fs[..k]).Err?
    ensures Tally(start, fs) == Tally(start, fs[..k])
  {
    assert fs == fs[..k] + fs[k..];
    TallyErrorPersists(start, fs[..k], fs[k..]);
  }

  /** Running the loop body over two sequences in a row. */
  lemma {:induction false} TallyConcat(start: Totals, xs: seq<NftFacts>, ys: seq<NftFacts>)
    ensures Tally(start, xs + ys) ==
      match Tally(start, xs)
      case Err(e) => Err(e)
      case Ok(t) => Tally(t, ys)
  {
    if ys == [] {
      assert xs + ys == xs;
    } else {
      assert (xs + ys)[..|xs + ys| - 1] == xs + ys[..|ys| - 1];
      TallyConcat(start, xs, ys[..|ys| - 1]);
    }
  }

  /** Running the loop body from fresh accumulators and adding them to the totals afterwards is
      running it on the totals. */
  lemma {:induction false} TallyShift(t: Totals, fs: seq<NftFacts>)
    ensures Tally(t, fs) ==
      match Tally(NoTotals, fs)
      case Err(e) => Err(e)
      case Ok(a) => Ok(Plus(t, a))
  {
    if fs == [] {
      assert Plus(t, NoTotals) == t;
    } else {
      TallyShift(t, fs[..|fs| - 1]);
      match Tally(NoTotals, fs[..|fs| - 1])
      case Err(e) =>
      case Ok(a) => StepShift(t, a, fs[|fs| - 1]);
    }
  }

  /** The answers of an NFT's own queries, gathered as facts. */
  function Answers(nft: NFT): (f: NftFacts)
    reads nft
    requires nft.Valid()
    ensures Coherent(f)
  {
    InvariantConsequences(nft.statuses);
    NftFacts(nft.id, nft.IsGov(), nft.WasEverSold(), nft.WasEverBought(), nft.WasEverCreated().value,
             nft.GetNrSales(), nft.GetNrPurchases(), nft.GetRevenue(), nft.GetCosts(),
             nft.GetSellers(), nft.GetBuyers())
  }

  /** The NFT's answers are the facts read off its history. */
  lemma AnswersAreFacts(nft: NFT)
    requires nft.Valid()
    ensures Answers(nft) == BookFacts(Book(nft.id, nft.log))
  {
    StatusesNotLongerThanValues(nft.log);
    InvariantConsequences(nft.statuses);
  }

}
