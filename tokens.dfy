/**
  * The per-token state machine of nft.py.
  *
  * An `NFT` keeps parallel, append-only lists of the transfers applied to it. Each transfer
  * that reaches classification is labelled `Created`, `Sold`, `Bought` or `Governance` from
  * the point of view of the wallet under analysis; a label whose guard fails is rejected and
  * only reported, so `statuses` can fall behind `values`. The queries are folds over
  * `statuses`, indexing the other lists by status position.
  */
module Tokens {
  import opened Wrappers
  import opened Utils
  import opened Scan

  /** Token name that marks a governance NFT. */
  const GOV_NFT: string := "NftGovernance"

  /** `HexStr2Int` of the 20-byte zero address (see `NftCreationAddress`). */
  const NFT_CREATION_ADR: Address := Some(0)

  datatype Status = Created | Sold | Bought | Governance

  datatype NftError =
    | IncompatibleWithCreation
    | CreatedWithMoney
    | IncompatibleWithSale
    | SoldForNoMoney
    | IncompatibleWithPurchase
    | BoughtForNoMoney
    | IncompatibleWithGovernance
    | NoValue                        // `values[-1]` on an empty list
    | NotAParty(user: Address)
    | CreationAfterFirst(index: nat)
    | UnknownValueFormat(value: string)
    | BadHexValue(cause: HexError)
    | HashNotInteger                 // `hex()` of a string hash in the `except` handler

  lemma NftCreationAddress()
    ensures HexStr2Int("0x" + seq(40, _ => '0')) == Ok(NFT_CREATION_ADR)
  {
    ZeroAddressIsNotCanonical();
  }

  // ---------------------------------------------------------------------------------------
  // The NFT key `f'{id}_{contractAddress}'`

  function DecimalDigits(n: nat): (s: string)
    ensures |s| >= 1 && forall i :: 0 <= i < |s| ==> '0' <= s[i] <= '9'
  {
    if n < 10 then [('0' as int + n) as char]
    else DecimalDigits(n / 10) + [('0' as int + n % 10) as char]
  }

  function DecimalValue(s: string): nat
    requires forall i :: 0 <= i < |s| ==> '0' <= s[i] <= '9'
  {
    if s == [] then 0 else DecimalValue(s[..|s| - 1]) * 10 + (s[|s| - 1] as int - '0' as int)
  }

  lemma {:induction false} DecimalRoundTrip(n: nat)
    ensures DecimalValue(DecimalDigits(n)) == n
  {
    if n >= 10 {
      DecimalRoundTrip(n / 10);
      var s := DecimalDigits(n);
      assert s[..|s| - 1] == DecimalDigits(n / 10);
    }
  }

  /** Python's `str` of an address: its decimal digits, or `None`. */
  function AddressText(a: Address): (t: string)
    ensures |t| > 0 && (t[0] == 'N' <==> a.None?)
  {
    match a
    case None => "None"
    case Some(n) => DecimalDigits(n)
  }

  /** `NFT.gen_key`. */
  function GenKey(id: nat, contractAddress: Address): string {
    DecimalDigits(id) + "_" + AddressText(contractAddress)
  }

  lemma GenKeyParts(id: nat, c: Address)
    ensures var k, d := GenKey(id, c), DecimalDigits(id);
      && |k| > |d| && k[..|d|] == d && k[|d|] == '_' && k[|d| + 1..] == AddressText(c)
      && forall i :: 0 <= i < |d| ==> k[i] != '_'
  {
  }

  lemma AddressTextInjective(c1: Address, c2: Address)
    requires AddressText(c1) == AddressText(c2)
    ensures c1 == c2
  {
    if c1.Some? && c2.Some? {
      DecimalRoundTrip(c1.value);
      DecimalRoundTrip(c2.value);
    }
  }

  /** Distinct (token id, contract) pairs get distinct keys. */
  lemma GenKeyInjective(id1: nat, c1: Address, id2: nat, c2: Address)
    requires GenKey(id1, c1) == GenKey(id2, c2)
    ensures id1 == id2 && c1 == c2
  {
    var k := GenKey(id1, c1);
    var d1, d2 := DecimalDigits(id1), DecimalDigits(id2);
    GenKeyParts(id1, c1);
    GenKeyParts(id2, c2);
    assert |d1| == |d2|;
    assert d1 == d2;
    DecimalRoundTrip(id1);
    DecimalRoundTrip(id2);
    AddressTextInjective(c1, c2);
  }

  // ---------------------------------------------------------------------------------------
  // The transaction value

  /** The value of the money transaction: an integer is taken as is, a string with a `0x`
      prefix (any case) is parsed as hex, any other string is refused. */
  function ParseValue(v: Field): (r: Result<int, NftError>)
    ensures v.Int? ==> r == Ok(v.i)
    ensures v.Str? && !HasHexPrefix(v.s) ==> r == Err(UnknownValueFormat(v.s))
    ensures v.Str? && HasHexPrefix(v.s) ==>
      (r.Ok? <==> HexStr2Int(v.s).Ok?) && (r.Ok? ==> HexStr2Int(v.s) == Ok(Some(r.value)))
  {
    match v
    case Int(i) => Ok(i)
    case Str(s) =>
      if HasHexPrefix(s) then
        match HexStr2Int(s)
        case Ok(Some(n)) => Ok(n)
        case Ok(None) => Err(UnknownValueFormat(s))  // HexStr2Int gives None only for ""
        case Err(e) => Err(BadHexValue(e))
      else Err(UnknownValueFormat(s))
  }

  lemma ParseValueOfHexString(n: nat)
    ensures ParseValue(Str(Int2HexStr(n))) == Ok(n)
  {
    HexRoundTrip(n);
    Int2HexStrShape(n);
  }

  // ---------------------------------------------------------------------------------------
  // Folds over `statuses`

  function CountOf(st: seq<Status>, s: Status): nat {
    if st == [] then 0 else CountOf(st[..|st| - 1], s) + (if st[|st| - 1] == s then 1 else 0)
  }

  lemma CountOfSnoc(st: seq<Status>, x: Status, s: Status)
    ensures CountOf(st + [x], s) == CountOf(st, s) + (if x == s then 1 else 0)
  {
    assert (st + [x])[..|st|] == st;
  }

  lemma {:induction false} CountOfPositive(st: seq<Status>, s: Status)
    ensures CountOf(st, s) > 0 <==> s in st
    ensures CountOf(st, s) <= |st|
  {
    if st != [] {
      CountOfPositive(st[..|st| - 1], s);
      assert st == st[..|st| - 1] + [st[|st| - 1]];
    }
  }

  /** `is_gov`: some status is `Governance`. */
  predicate HasGov(st: seq<Status>) {
    Governance in st
  }

  /** `was_ever_sold` / `was_ever_bought`: the count of the label is positive. */
  predicate EverLabelled(st: seq<Status>, s: Status) {
    CountOf(st, s) > 0
  }

  /** Sum of `values[i]` over the positions `i` whose status is `s`
      (`get_revenue` for `Sold`, `get_costs` for `Bought`). */
  function ValueTotal(st: seq<Status>, values: seq<int>, s: Status): int
    requires |st| <= |values|
  {
    if st == [] then 0
    else ValueTotal(st[..|st| - 1], values, s) + (if st[|st| - 1] == s then values[|st| - 1] else 0)
  }

  lemma {:induction false} ValueTotalAbsent(st: seq<Status>, values: seq<int>, s: Status)
    requires |st| <= |values|
    ensures CountOf(st, s) == 0 ==> ValueTotal(st, values, s) == 0
  {
    if st != [] {
      ValueTotalAbsent(st[..|st| - 1], values, s);
    }
  }

  /** `addrs[i]` for the positions `i` whose status is `s`
      (`get_sellers` on `froms` for `Sold`, `get_buyers` on `tos` for `Bought`). */
  function PartiesOf(st: seq<Status>, addrs: seq<Address>, s: Status): seq<Address>
    requires |st| <= |addrs|
  {
    if st == [] then []
    else PartiesOf(st[..|st| - 1], addrs, s) + (if st[|st| - 1] == s then [addrs[|st| - 1]] else [])
  }

  lemma {:induction false} PartiesCount(st: seq<Status>, addrs: seq<Address>, s: Status)
    requires |st| <= |addrs|
    ensures |PartiesOf(st, addrs, s)| == CountOf(st, s)
  {
    if st != [] {
      PartiesCount(st[..|st| - 1], addrs, s);
    }
  }

  /** The first position from `start` on whose status is `Created`. */
  function FirstCreation(st: seq<Status>, start: nat): (r: Option<nat>)
    requires start <= |st|
    ensures r.None? <==> forall i :: start <= i < |st| ==> st[i] != Created
    ensures r.Some? ==> start <= r.value < |st| && st[r.value] == Created
    decreases |st| - start
  {
    if start == |st| then None
    else if st[start] == Created then Some(start)
    else FirstCreation(st, start + 1)
  }

  /** `was_ever_created`: false on no status; refused when `Created` appears after position 0;
      otherwise whether the first status is `Created`. */
  function EverCreated(st: seq<Status>): (r: Result<bool, NftError>)
    ensures r.Err? <==> exists i :: 1 <= i < |st| && st[i] == Created
    ensures r.Ok? ==> (r.value <==> |st| > 0 && st[0] == Created)
  {
    if |st| == 0 then Ok(false)
    else
      match FirstCreation(st, 1)
      case Some(i) => Err(CreationAfterFirst(i))
      case None => Ok(st[0] == Created)
  }

  // ---------------------------------------------------------------------------------------
  // Classification

  /** `set_created`: only as the first status, and with no money involved. */
  function CheckCreated(st: seq<Status>, values: seq<int>): Result<Status, NftError> {
    if |st| != 0 then Err(IncompatibleWithCreation)
    else if |values| == 0 then Err(NoValue)
    else if values[|values| - 1] != 0 then Err(CreatedWithMoney)
    else Ok(Created)
  }

  /** `set_sold`: after some status, never for a governance NFT, and for money. */
  function CheckSold(st: seq<Status>, values: seq<int>): Result<Status, NftError> {
    if |st| == 0 || HasGov(st) then Err(IncompatibleWithSale)
    else if |values| == 0 then Err(NoValue)
    else if values[|values| - 1] == 0 then Err(SoldForNoMoney)
    else Ok(Sold)
  }

  /** `set_bought`: never for a governance NFT, and for money. */
  function CheckBought(st: seq<Status>, values: seq<int>): Result<Status, NftError> {
    if HasGov(st) then Err(IncompatibleWithPurchase)
    else if |values| == 0 then Err(NoValue)
    else if values[|values| - 1] == 0 then Err(BoughtForNoMoney)
    else Ok(Bought)
  }

  /** `set_gov`: never after a sale or a purchase. */
  function CheckGov(st: seq<Status>): Result<Status, NftError> {
    if EverLabelled(st, Sold) || EverLabelled(st, Bought) then Err(IncompatibleWithGovernance)
    else Ok(Governance)
  }

  /** The `try` block of `update_nft`: which label the transfer `from` -> `to` gets for `user`. */
  function Classify(st: seq<Status>, values: seq<int>, user: Address, from: Address, to: Address,
                    tokenName: string): Result<Status, NftError>
  {
    if user == from then CheckSold(st, values)
    else if user == to then
      if from == NFT_CREATION_ADR then
        if tokenName == GOV_NFT then CheckGov(st) else CheckCreated(st, values)
      else CheckBought(st, values)
    else Err(NotAParty(user))
  }

  /** What each label means: the transfer's shape relative to `user` and the guard on the
      history and on the last value, for every label and for the refusal. */
  lemma ClassifyOutcomes(st: seq<Status>, values: seq<int>, user: Address, from: Address,
                         to: Address, tokenName: string)
    ensures var r := Classify(st, values, user, from, to, tokenName);
      var paid := |values| > 0 && values[|values| - 1] != 0;
      && (r == Ok(Sold) <==> user == from && |st| > 0 && Governance !in st && paid)
      && (r == Ok(Bought) <==>
            user != from && user == to && from != NFT_CREATION_ADR && Governance !in st && paid)
      && (r == Ok(Created) <==>
            user != from && user == to && from == NFT_CREATION_ADR && tokenName != GOV_NFT &&
            |st| == 0 && |values| > 0 && values[|values| - 1] == 0)
      && (r == Ok(Governance) <==>
            user != from && user == to && from == NFT_CREATION_ADR && tokenName == GOV_NFT &&
            Sold !in st && Bought !in st)
      && (r == Err(NotAParty(user)) <==> user != from && user != to)
  {
    CountOfPositive(st, Sold);
    CountOfPositive(st, Bought);
  }

  /** The invariant every reachable status list keeps: `Created` only first, and governance
      never together with a sale or a purchase. */
  predicate StatusInvariant(st: seq<Status>) {
    && (forall i :: 1 <= i < |st| ==> st[i] != Created)
    && (Governance in st ==> Sold !in st && Bought !in st)
  }

  lemma ClassifyPreservesInvariant(st: seq<Status>, values: seq<int>, user: Address,
                                   from: Address, to: Address, tokenName: string)
    requires StatusInvariant(st)
    requires Classify(st, values, user, from, to, tokenName).Ok?
    ensures StatusInvariant(st + [Classify(st, values, user, from, to, tokenName).value])
  {
    ClassifyOutcomes(st, values, user, from, to, tokenName);
    var s := Classify(st, values, user, from, to, tokenName).value;
    var st' := st + [s];
    assert forall x :: x in st' <==> x in st || x == s;
  }

  /** On a reachable status list, `is_gov` excludes any sale or purchase and `was_ever_created`
      never raises. */
  lemma InvariantConsequences(st: seq<Status>)
    requires StatusInvariant(st)
    ensures HasGov(st) ==> CountOf(st, Sold) == 0 && CountOf(st, Bought) == 0
    ensures EverCreated(st).Ok?
    ensures EverCreated(st).value <==> Created in st
  {
    CountOfPositive(st, Sold);
    CountOfPositive(st, Bought);
    if Created in st {
      var i :| 0 <= i < |st| && st[i] == Created;
      assert i == 0;
    }
  }

  // ---------------------------------------------------------------------------------------
  // The history of applied transfers

  /** One transfer appended to the lists by `update_nft`: the wallet it was applied for, the
      fields it was given, its value (`None` when the value could not be read) and its label
      (`None` when classification was not reached or was refused). */
  datatype Entry = Entry(
    user: Address, date: int, from: Address, to: Address, contractAddress: Address,
    tokenValue: int, tokenName: string, hash: Field, value: Option<int>, status: Option<Status>)

  function FromsOf(log: seq<Entry>): (r: seq<Address>)
    ensures |r| == |log|
  {
    if log == [] then [] else FromsOf(log[..|log| - 1]) + [log[|log| - 1].from]
  }

  function TosOf(log: seq<Entry>): (r: seq<Address>)
    ensures |r| == |log|
  {
    if log == [] then [] else TosOf(log[..|log| - 1]) + [log[|log| - 1].to]
  }

  function ValuesOf(log: seq<Entry>): seq<int> {
    if log == [] then []
    else
      var last := log[|log| - 1];
      ValuesOf(log[..|log| - 1]) + (if last.value.Some? then [last.value.value] else [])
  }

  function StatusesOf(log: seq<Entry>): seq<Status> {
    if log == [] then []
    else
      var last := log[|log| - 1];
      StatusesOf(log[..|log| - 1]) + (if last.status.Some? then [last.status.value] else [])
  }

  /** The label of an entry agrees with the shape of its transfer (see `ClassifyOutcomes`). */
  predicate Justified(e: Entry) {
    && e.from != e.to
    && (e.status.Some? ==> e.value.Some?)
    && (e.status == Some(Sold) ==> e.user == e.from && e.value.value != 0)
    && (e.status == Some(Bought) ==>
          e.user == e.to && e.user != e.from && e.from != NFT_CREATION_ADR && e.value.value != 0)
    && (e.status == Some(Created) ==>
          e.user == e.to && e.user != e.from && e.from == NFT_CREATION_ADR &&
          e.tokenName != GOV_NFT && e.value.value == 0)
    && (e.status == Some(Governance) ==>
          e.user == e.to && e.user != e.from && e.from == NFT_CREATION_ADR && e.tokenName == GOV_NFT)
  }

  predicate WellFormedLog(log: seq<Entry>) {
    forall i :: 0 <= i < |log| ==> Justified(log[i])
  }

  predicate AllLabelled(log: seq<Entry>) {
    forall i :: 0 <= i < |log| ==> log[i].status.Some?
  }

  /** Number of entries labelled `s`. */
  function LabelCount(log: seq<Entry>, s: Status): nat {
    if log == [] then 0
    else LabelCount(log[..|log| - 1], s) + (if log[|log| - 1].status == Some(s) then 1 else 0)
  }

  /** Sum of the values of the entries labelled `s`. */
  function LabelledValue(log: seq<Entry>, s: Status): int
    requires WellFormedLog(log)
  {
    if log == [] then 0
    else
      var last := log[|log| - 1];
      LabelledValue(log[..|log| - 1], s) + (if last.status == Some(s) then last.value.value else 0)
  }

  /** The wallets for which the entries labelled `s` were applied. */
  function LabelledUsers(log: seq<Entry>, s: Status): seq<Address> {
    if log == [] then []
    else
      var last := log[|log| - 1];
      LabelledUsers(log[..|log| - 1], s) + (if last.status == Some(s) then [last.user] else [])
  }

  lemma {:induction false} StatusesNotLongerThanValues(log: seq<Entry>)
    requires WellFormedLog(log)
    ensures |StatusesOf(log)| <= |ValuesOf(log)| <= |log|
    ensures |StatusesOf(log)| == |log| <==> AllLabelled(log)
  {
    if log != [] {
      var init := log[..|log| - 1];
      assert WellFormedLog(init) by {
        forall i | 0 <= i < |init| ensures Justified(init[i]) { assert init[i] == log[i]; }
      }
      StatusesNotLongerThanValues(init);
      if AllLabelled(log) {
        assert AllLabelled(init) by {
          forall i | 0 <= i < |init| ensures init[i].status.Some? { assert init[i] == log[i]; }
        }
      }
      if AllLabelled(init) && log[|log| - 1].status.Some? {
        forall i | 0 <= i < |log| ensures log[i].status.Some? {
          if i < |init| { assert init[i] == log[i]; }
        }
      }
    }
  }

  /** `get_nr_sales` / `get_nr_purchases` count the entries that were labelled, whatever else
      happened. */
  lemma {:induction false} CountOfStatuses(log: seq<Entry>, s: Status)
    ensures CountOf(StatusesOf(log), s) == LabelCount(log, s)
  {
    if log != [] {
      CountOfStatuses(log[..|log| - 1], s);
      CountOfStatusesStep(log, s);
    }
  }

  lemma CountOfStatusesStep(log: seq<Entry>, s: Status)
    requires log != []
    requires CountOf(StatusesOf(log[..|log| - 1]), s) == LabelCount(log[..|log| - 1], s)
    ensures CountOf(StatusesOf(log), s) == LabelCount(log, s)
  {
    var last := log[|log| - 1];
    if last.status.Some? {
      CountOfSnoc(StatusesOf(log[..|log| - 1]), last.status.value, s);
    } else {
      UnlabelledKeepsStatuses(log);
    }
  }

  lemma UnlabelledKeepsStatuses(log: seq<Entry>)
    requires log != [] && log[|log| - 1].status.None?
    ensures StatusesOf(log) == StatusesOf(log[..|log| - 1])
  {
    var st := StatusesOf(log[..|log| - 1]);
    assert StatusesOf(log) == st + [];
  }

  lemma {:induction false} WellFormedPrefix(log: seq<Entry>)
    requires log != [] && WellFormedLog(log)
    ensures WellFormedLog(log[..|log| - 1])
    ensures AllLabelled(log) ==> AllLabelled(log[..|log| - 1])
  {
    var init := log[..|log| - 1];
    forall i | 0 <= i < |init| ensures init[i] == log[i] { }
  }

  /** Values beyond the statuses do not matter to `ValueTotal`. */
  lemma {:induction false} ValueTotalIgnoresExtension(st: seq<Status>, values: seq<int>,
                                                      more: seq<int>, s: Status)
    requires |st| <= |values|
    ensures ValueTotal(st, values + more, s) == ValueTotal(st, values, s)
  {
    if st != [] {
      ValueTotalIgnoresExtension(st[..|st| - 1], values, more, s);
      assert (values + more)[|st| - 1] == values[|st| - 1];
    }
  }

  /** Addresses beyond the statuses do not matter to `PartiesOf`. */
  lemma {:induction false} PartiesIgnoreExtension(st: seq<Status>, addrs: seq<Address>,
                                                  extra: seq<Address>, s: Status)
    requires |st| <= |addrs|
    ensures PartiesOf(st, addrs + extra, s) == PartiesOf(st, addrs, s)
  {
    if st != [] {
      PartiesIgnoreExtension(st[..|st| - 1], addrs, extra, s);
      assert (addrs + extra)[|st| - 1] == addrs[|st| - 1];
    }
  }

  /** `get_revenue` and `get_costs` are the totals of the values of the transfers labelled `Sold`
      and `Bought`, when every applied transfer was labelled. */
  lemma {:induction false} AlignedValueTotal(log: seq<Entry>, s: Status)
    requires WellFormedLog(log)
    ensures |StatusesOf(log)| <= |ValuesOf(log)|
    ensures AllLabelled(log) ==> ValueTotal(StatusesOf(log), ValuesOf(log), s) == LabelledValue(log, s)
  {
    StatusesNotLongerThanValues(log);
    if log != [] && AllLabelled(log) {
      var init, last := log[..|log| - 1], log[|log| - 1];
      WellFormedPrefix(log);
      AlignedValueTotal(init, s);
      StatusesNotLongerThanValues(init);
      var st, vs := StatusesOf(init), ValuesOf(init);
      assert last.status.Some? && last.value.Some?;
      var x, v := last.status.value, last.value.value;
      assert StatusesOf(log) == st + [x];
      assert ValuesOf(log) == vs + [v];
      assert |st| == |vs|;
      ValueTotalSnoc(st, vs, x, v, s);
    }
  }

  lemma ValueTotalSnoc(st: seq<Status>, vs: seq<int>, x: Status, v: int, s: Status)
    requires |st| == |vs|
    ensures ValueTotal(st + [x], vs + [v], s) == ValueTotal(st, vs, s) + (if x == s then v else 0)
  {
    assert (st + [x])[..|st|] == st;
    ValueTotalIgnoresExtension(st, vs, [v], s);
  }

  lemma PartiesSnoc(st: seq<Status>, addrs: seq<Address>, x: Status, a: Address, s: Status)
    requires |st| == |addrs|
    ensures PartiesOf(st + [x], addrs + [a], s) == PartiesOf(st, addrs, s) + (if x == s then [a] else [])
  {
    assert (st + [x])[..|st|] == st;
    PartiesIgnoreExtension(st, addrs, [a], s);
  }

  /** `get_sellers`: when every applied transfer was labelled, the seller of each sale (its
      `from`) is the wallet the transfer was applied for. */
  lemma {:induction false} AlignedSellers(log: seq<Entry>)
    requires WellFormedLog(log)
    ensures |StatusesOf(log)| <= |log|
    ensures AllLabelled(log) ==> PartiesOf(StatusesOf(log), FromsOf(log), Sold) == LabelledUsers(log, Sold)
  {
    StatusesNotLongerThanValues(log);
    if log != [] && AllLabelled(log) {
      var init, last := log[..|log| - 1], log[|log| - 1];
      WellFormedPrefix(log);
      AlignedSellers(init);
      StatusesNotLongerThanValues(init);
      assert last.status.Some? && Justified(last);
      assert StatusesOf(log) == StatusesOf(init) + [last.status.value];
      assert FromsOf(log) == FromsOf(init) + [last.from];
      PartiesSnoc(StatusesOf(init), FromsOf(init), last.status.value, last.from, Sold);
    }
  }

  /** `get_buyers`: when every applied transfer was labelled, the buyer of each purchase (its
      `to`) is the wallet the transfer was applied for. */
  lemma {:induction false} AlignedBuyers(log: seq<Entry>)
    requires WellFormedLog(log)
    ensures |StatusesOf(log)| <= |log|
    ensures AllLabelled(log) ==> PartiesOf(StatusesOf(log), TosOf(log), Bought) == LabelledUsers(log, Bought)
  {
    StatusesNotLongerThanValues(log);
    if log != [] && AllLabelled(log) {
      var init, last := log[..|log| - 1], log[|log| - 1];
      WellFormedPrefix(log);
      AlignedBuyers(init);
      StatusesNotLongerThanValues(init);
      assert last.status.Some? && Justified(last);
      assert StatusesOf(log) == StatusesOf(init) + [last.status.value];
      assert TosOf(log) == TosOf(init) + [last.to];
      PartiesSnoc(StatusesOf(init), TosOf(init), last.status.value, last.to, Bought);
    }
  }

  /** The source as written: a free transfer from another wallet is refused as a purchase, yet
      its value stays in `values`; a later paid purchase then takes status position 0 while its
      value sits at position 1, so `get_costs` reports 0 although 50 was paid. */
  lemma CostsShiftAfterRefusal()
    ensures var w, x, y, c := Some(1), Some(2), Some(3), Some(4);
      var log := [Entry(w, 1, x, w, c, 1, "Token", Int(7), Some(0), None),
                  Entry(w, 2, y, w, c, 1, "Token", Int(8), Some(50), Some(Bought))];
      && WellFormedLog(log)
      && Classify([], [0], w, x, w, "Token") == Err(BoughtForNoMoney)
      && Classify([], [0, 50], w, y, w, "Token") == Ok(Bought)
      && StatusesOf(log) == [Bought] && ValuesOf(log) == [0, 50]
      && ValueTotal(StatusesOf(log), ValuesOf(log), Bought) == 0
      && LabelledValue(log, Bought) == 50
  {
    var w, x, y, c := Some(1), Some(2), Some(3), Some(4);
    var log := [Entry(w, 1, x, w, c, 1, "Token", Int(7), Some(0), None),
                Entry(w, 2, y, w, c, 1, "Token", Int(8), Some(50), Some(Bought))];
    assert log[..1] == [log[0]];
    assert log[..1][..0] == [];
    assert StatusesOf(log[..1]) == [];
    assert ValuesOf(log[..1]) == [0];
    assert [Bought][..0] == [];
    assert LabelledValue(log[..1], Bought) == 0;
  }

  /** Appending one entry extends every projection of the history by that entry. */
  lemma LogSnoc(log: seq<Entry>, e: Entry)
    ensures FromsOf(log + [e]) == FromsOf(log) + [e.from]
    ensures TosOf(log + [e]) == TosOf(log) + [e.to]
    ensures ValuesOf(log + [e]) == ValuesOf(log) + (if e.value.Some? then [e.value.value] else [])
    ensures StatusesOf(log + [e]) == StatusesOf(log) + (if e.status.Some? then [e.status.value] else [])
    ensures WellFormedLog(log) && Justified(e) ==> WellFormedLog(log + [e])
  {
    assert (log + [e])[..|log|] == log;
  }

  /** What `update_nft` reports: nothing done, a label appended, or a label refused (the
      refusal is caught and printed). */
  datatype UpdateOutcome = Ignored | Classified(status: Status) | Refused(error: NftError)

  datatype LogUpdate = LogUpdate(outcome: Result<UpdateOutcome, NftError>, log: seq<Entry>)

  /** The `except` handler of `update_nft` prints `Int2HexStr` of every recorded hash, and
      `hex()` raises on a hash the by-hash query gave as a string. */
  predicate IntegerHashes(hashes: seq<Field>) {
    forall i :: 0 <= i < |hashes| ==> hashes[i].Int?
  }

  function HashesOf(log: seq<Entry>): (r: seq<Field>)
    ensures |r| == |log| && forall i :: 0 <= i < |log| ==> r[i] == log[i].hash
  {
    if log == [] then [] else HashesOf(log[..|log| - 1]) + [log[|log| - 1].hash]
  }

  /** `update_nft` on the history alone: a self-transfer is ignored; any other transfer is
      recorded; a value of unknown format fails the call; otherwise the transfer is labelled
      by `Classify` against the statuses and values so far, or the label is refused, which the
      handler reports unless printing the hashes fails. */
  function UpdateLog(log: seq<Entry>, user: Address, date: int, from: Address, to: Address,
                     contractAddress: Address, tokenValue: int, tokenName: string,
                     transaction: Transaction): (r: LogUpdate)
    ensures from == to <==> r.log == log
    ensures from == to ==> r.outcome == Ok(Ignored)
    ensures from != to ==>
      && |r.log| == |log| + 1 && r.log[..|log|] == log
      && r.log[|log|].user == user && r.log[|log|].from == from && r.log[|log|].to == to
      && r.log[|log|].tokenName == tokenName && r.log[|log|].hash == transaction.hash
    ensures r.outcome.Err? <==>
      from != to && (ParseValue(transaction.value).Err? ||
                     (r.log[|log|].status.None? && !IntegerHashes(HashesOf(r.log))))
    ensures from != to && ParseValue(transaction.value).Err? ==>
      r.log[|log|].value.None? && r.outcome == Err(ParseValue(transaction.value).error)
    ensures from != to && ParseValue(transaction.value).Ok? ==>
      r.log[|log|].value == Some(ParseValue(transaction.value).value)
    ensures r.outcome.Err? && ParseValue(transaction.value).Ok? ==> r.outcome.error == HashNotInteger
    ensures r.outcome.Ok? && r.outcome.value.Classified? <==> from != to && r.log[|log|].status.Some?
    ensures r.outcome.Ok? && r.outcome.value.Classified? ==> r.log[|log|].status == Some(r.outcome.value.status)
    ensures r.outcome.Ok? && r.outcome.value.Refused? ==> IntegerHashes(HashesOf(r.log))
  {
    if from == to then LogUpdate(Ok(Ignored), log)
    else
      match ParseValue(transaction.value)
      case Err(e) =>
        LogUpdate(Err(e), log + [Entry(user, date, from, to, contractAddress, tokenValue, tokenName,
                                       transaction.hash, None, None)])
      case Ok(v) =>
        var c := Classify(StatusesOf(log), ValuesOf(log) + [v], user, from, to, tokenName);
        var log' := log + [Entry(user, date, from, to, contractAddress, tokenValue, tokenName,
                                 transaction.hash, Some(v), if c.Ok? then Some(c.value) else None)];
        LogUpdate(if c.Ok? then Ok(Classified(c.value))
                  else if IntegerHashes(HashesOf(log')) then Ok(Refused(c.error))
                  else Err(HashNotInteger),
                  log')
  }

  /** Every update keeps the history well formed and its statuses reachable. */
  lemma UpdateLogPreservesInvariant(log: seq<Entry>, user: Address, date: int, from: Address,
                                    to: Address, contractAddress: Address, tokenValue: int,
                                    tokenName: string, transaction: Transaction)
    requires WellFormedLog(log) && StatusInvariant(StatusesOf(log))
    ensures var r := UpdateLog(log, user, date, from, to, contractAddress, tokenValue, tokenName, transaction);
      WellFormedLog(r.log) && StatusInvariant(StatusesOf(r.log))
  {
    if from != to {
      var r := UpdateLog(log, user, date, from, to, contractAddress, tokenValue, tokenName, transaction);
      var e := r.log[|log|];
      assert r.log == log + [e];
      LogSnoc(log, e);
      if ParseValue(transaction.value).Ok? {
        var v := ParseValue(transaction.value).value;
        var st, vs := StatusesOf(log), ValuesOf(log) + [v];
        ClassifyOutcomes(st, vs, user, from, to, tokenName);
        if Classify(st, vs, user, from, to, tokenName).Ok? {
          ClassifyPreservesInvariant(st, vs, user, from, to, tokenName);
        }
      }
    }
  }

  // ---------------------------------------------------------------------------------------
  // The NFT object

  /** The lists of an `NFT` agree with its history: one slot per entry in the per-transfer
      lists, `values` and `statuses` projected from the entries, every label justified, and the
      status list reachable. */
  ghost predicate Consistent(dates: seq<int>, contractAddresses: seq<Address>, tokenValues: seq<int>,
                             tokenNames: seq<string>, txhashes: seq<Field>, froms: seq<Address>,
                             tos: seq<Address>, values: seq<int>, statuses: seq<Status>,
                             log: seq<Entry>)
  {
    && |dates| == |log| && |contractAddresses| == |log| && |tokenValues| == |log|
    && |tokenNames| == |log| && |txhashes| == |log|
    && froms == FromsOf(log) && tos == TosOf(log)
    && (forall i :: 0 <= i < |log| ==>
          && dates[i] == log[i].date && contractAddresses[i] == log[i].contractAddress
          && tokenValues[i] == log[i].tokenValue && tokenNames[i] == log[i].tokenName
          && txhashes[i] == log[i].hash)
    && values == ValuesOf(log)
    && statuses == StatusesOf(log)
    && WellFormedLog(log)
    && StatusInvariant(statuses)
  }

  /** Appending one justified entry, with its slot in every list, keeps the lists consistent. */
  lemma AppendConsistent(dates: seq<int>, contractAddresses: seq<Address>, tokenValues: seq<int>,
                         tokenNames: seq<string>, txhashes: seq<Field>, froms: seq<Address>,
                         tos: seq<Address>, values: seq<int>, statuses: seq<Status>,
                         log: seq<Entry>, e: Entry, values': seq<int>, statuses': seq<Status>)
    requires Consistent(dates, contractAddresses, tokenValues, tokenNames, txhashes,
                        froms, tos, values, statuses, log)
    requires Justified(e) && StatusInvariant(statuses')
    requires values' == values + (if e.value.Some? then [e.value.value] else [])
    requires statuses' == statuses + (if e.status.Some? then [e.status.value] else [])
    ensures Consistent(dates + [e.date], contractAddresses + [e.contractAddress],
                       tokenValues + [e.tokenValue], tokenNames + [e.tokenName], txhashes + [e.hash],
                       froms + [e.from], tos + [e.to], values', statuses', log + [e])
  {
    LogSnoc(log, e);
  }

  /** The entry of a labelled transfer is justified by its label, and the label keeps the
      status invariant. */
  lemma LabelledEntry(st: seq<Status>, values: seq<int>, e: Entry, c: Result<Status, NftError>)
    requires StatusInvariant(st) && e.from != e.to
    requires |values| > 0 && e.value == Some(values[|values| - 1])
    requires c == Classify(st, values, e.user, e.from, e.to, e.tokenName)
    requires e.status == if c.Ok? then Some(c.value) else None
    ensures Justified(e) && StatusInvariant(if c.Ok? then st + [c.value] else st)
  {
    ClassifyOutcomes(st, values, e.user, e.from, e.to, e.tokenName);
    if c.Ok? {
      ClassifyPreservesInvariant(st, values, e.user, e.from, e.to, e.tokenName);
    }
  }

  /** `AppendConsistent`, stated for the lists as they stand after the append. */
  lemma ConsistentAfterAppend(dates: seq<int>, contractAddresses: seq<Address>, tokenValues: seq<int>,
                              tokenNames: seq<string>, txhashes: seq<Field>, froms: seq<Address>,
                              tos: seq<Address>, values: seq<int>, statuses: seq<Status>,
                              log: seq<Entry>, e: Entry,
                              dates': seq<int>, contractAddresses': seq<Address>, tokenValues': seq<int>,
                              tokenNames': seq<string>, txhashes': seq<Field>, froms': seq<Address>,
                              tos': seq<Address>, values': seq<int>, statuses': seq<Status>,
                              log': seq<Entry>)
    requires Consistent(dates, contractAddresses, tokenValues, tokenNames, txhashes,
                        froms, tos, values, statuses, log)
    requires Justified(e) && StatusInvariant(statuses')
    requires dates' == dates + [e.date] && contractAddresses' == contractAddresses + [e.contractAddress]
    requires tokenValues' == tokenValues + [e.tokenValue] && tokenNames' == tokenNames + [e.tokenName]
    requires txhashes' == txhashes + [e.hash] && froms' == froms + [e.from] && tos' == tos + [e.to]
    requires values' == values + (if e.value.Some? then [e.value.value] else [])
    requires statuses' == statuses + (if e.status.Some? then [e.status.value] else [])
    requires log' == log + [e]
    ensures Consistent(dates', contractAddresses', tokenValues', tokenNames', txhashes',
                       froms', tos', values', statuses', log')
  {
    AppendConsistent(dates, contractAddresses, tokenValues, tokenNames, txhashes, froms, tos,
                     values, statuses, log, e, values', statuses');
  }

  class NFT {
    const id: string
    const network: string
    var dates: seq<int>
    var froms: seq<Address>
    var tos: seq<Address>
    var contractAddresses: seq<Address>
    var tokenValues: seq<int>
    var tokenNames: seq<string>
    var values: seq<int>
    var statuses: seq<Status>
    var txhashes: seq<Field>
    /** One entry per transfer appended to the lists. */
    ghost var log: seq<Entry>

    ghost predicate Valid()
      reads this
    {
      Consistent(dates, contractAddresses, tokenValues, tokenNames, txhashes,
                 froms, tos, values, statuses, log)
    }

    constructor (id: string, network: string)
      ensures Valid() && this.id == id && this.network == network
      ensures log == [] && statuses == [] && values == [] && froms == [] && tos == []
    {
      this.id := id;
      this.network := network;
      dates, froms, tos, contractAddresses := [], [], [], [];
      tokenValues, tokenNames, values, statuses, txhashes := [], [], [], [], [];
      log := [];
    }

    method SetCreated() returns (r: Result<Status, NftError>)
      modifies this`statuses
      ensures r == CheckCreated(old(statuses), values)
      ensures statuses == if r.Ok? then old(statuses) + [r.value] else old(statuses)
    {
      if |statuses| != 0 {
        return Err(IncompatibleWithCreation);
      }
      if |values| == 0 {
        return Err(NoValue);
      }
      if values[|values| - 1] != 0 {
        return Err(CreatedWithMoney);
      }
      statuses := statuses + [Created];
      r := Ok(Created);
    }

    method SetSold() returns (r: Result<Status, NftError>)
      modifies this`statuses
      ensures r == CheckSold(old(statuses), values)
      ensures statuses == if r.Ok? then old(statuses) + [r.value] else old(statuses)
    {
      if |statuses| == 0 || Governance in statuses {
        return Err(IncompatibleWithSale);
      }
      if |values| == 0 {
        return Err(NoValue);
      }
      if values[|values| - 1] == 0 {
        return Err(SoldForNoMoney);
      }
      statuses := statuses + [Sold];
      r := Ok(Sold);
    }

    method SetBought() returns (r: Result<Status, NftError>)
      modifies this`statuses
      ensures r == CheckBought(old(statuses), values)
      ensures statuses == if r.Ok? then old(statuses) + [r.value] else old(statuses)
    {
      if Governance in statuses {
        return Err(IncompatibleWithPurchase);
      }
      if |values| == 0 {
        return Err(NoValue);
      }
      if values[|values| - 1] == 0 {
        return Err(BoughtForNoMoney);
      }
      statuses := statuses + [Bought];
      r := Ok(Bought);
    }

    method SetGov() returns (r: Result<Status, NftError>)
      modifies this`statuses
      ensures r == CheckGov(old(statuses))
      ensures statuses == if r.Ok? then old(statuses) + [r.value] else old(statuses)
    {
      if EverLabelled(statuses, Sold) || EverLabelled(statuses, Bought) {
        return Err(IncompatibleWithGovernance);
      }
      statuses := statuses + [Governance];
      r := Ok(Governance);
    }

    /** Apply one transfer, seen from the wallet `user`. A self-transfer changes nothing. Any
        other transfer is appended to the lists; a value of unknown format is an error that
        leaves `values` and `statuses` behind; otherwise the value is appended and the label
        `Classify` gives is appended to `statuses`, or refused and only reported. */
    method UpdateNft(user: Address, date: int, from: Address, to: Address,
                     contractAddress: Address, tokenValue: int, tokenName: string,
                     transaction: Transaction)
      returns (r: Result<UpdateOutcome, NftError>)
      requires Valid()
      modifies this
      ensures Valid()
      ensures from == to ==>
        && r == Ok(Ignored) && log == old(log) && statuses == old(statuses)
        && values == old(values) && froms == old(froms) && tos == old(tos)
        && dates == old(dates) && tokenNames == old(tokenNames) && txhashes == old(txhashes)
        && contractAddresses == old(contractAddresses) && tokenValues == old(tokenValues)
      ensures from != to ==>
        && dates == old(dates) + [date] && froms == old(froms) + [from] && tos == old(tos) + [to]
        && contractAddresses == old(contractAddresses) + [contractAddress]
        && tokenValues == old(tokenValues) + [tokenValue] && tokenNames == old(tokenNames) + [tokenName]
        && txhashes == old(txhashes) + [transaction.hash]
      ensures from != to && ParseValue(transaction.value).Err? ==>
        && r == Err(ParseValue(transaction.value).error)
        && values == old(values) && statuses == old(statuses)
        && log == old(log) + [Entry(user, date, from, to, contractAddress, tokenValue, tokenName, transaction.hash, None, None)]
      ensures LogUpdate(r, log) ==
        UpdateLog(old(log), user, date, from, to, contractAddress, tokenValue, tokenName, transaction)
      ensures from != to && ParseValue(transaction.value).Ok? ==>
        var v := ParseValue(transaction.value).value;
        var c := Classify(old(statuses), old(values) + [v], user, from, to, tokenName);
        && values == old(values) + [v]
        && statuses == (if c.Ok? then old(statuses) + [c.value] else old(statuses))
        && r == (if c.Ok? then Ok(Classified(c.value))
                 else if IntegerHashes(txhashes) then Ok(Refused(c.error)) else Err(HashNotInteger))
        && log == old(log) + [Entry(user, date, from, to, contractAddress, tokenValue, tokenName, transaction.hash, Some(v), if c.Ok? then Some(c.value) else None)]
    {
      if to == from {
        return Ok(Ignored);
      }
      var parsed := ParseValue(transaction.value);
      if parsed.Err? {
        RecordUnread(user, date, from, to, contractAddress, tokenValue, tokenName, transaction.hash);
        return Err(parsed.error);
      }
      var outcome := RecordRead(user, date, from, to, contractAddress, tokenValue, tokenName,
                                transaction.hash, parsed.value);
      if outcome.Ok? {
        return Ok(Classified(outcome.value));
      }
      r := ReportRefusal(outcome.error);
    }

    /** The `except` handler: the refusal is reported, unless printing the hashes raises. */
    method ReportRefusal(e: NftError) returns (r: Result<UpdateOutcome, NftError>)
      requires Valid()
      ensures r == if IntegerHashes(txhashes) then Ok(Refused(e)) else Err(HashNotInteger)
      ensures r == if IntegerHashes(HashesOf(log)) then Ok(Refused(e)) else Err(HashNotInteger)
    {
      var printable := HashesPrintable();
      assert txhashes == HashesOf(log);
      r := if printable then Ok(Refused(e)) else Err(HashNotInteger);
    }

    /** The list comprehension of the `except` handler: it goes through `txhashes` and fails
        on the first hash that is not an integer. */
    method HashesPrintable() returns (ok: bool)
      ensures ok <==> IntegerHashes(txhashes)
    {
      for i := 0 to |txhashes|
        invariant IntegerHashes(txhashes[..i])
      {
        if txhashes[i].Str? {
          return false;
        }
      }
      assert txhashes[..|txhashes|] == txhashes;
      return true;
    }

    /** The lists every non-self transfer is appended to, before its value is read. */
    method AppendTransfer(date: int, from: Address, to: Address, contractAddress: Address,
                          tokenValue: int, tokenName: string, hash: Field)
      modifies this`dates, this`froms, this`tos, this`contractAddresses, this`tokenValues,
               this`tokenNames, this`txhashes
      ensures dates == old(dates) + [date] && froms == old(froms) + [from] && tos == old(tos) + [to]
      ensures contractAddresses == old(contractAddresses) + [contractAddress]
      ensures tokenValues == old(tokenValues) + [tokenValue] && tokenNames == old(tokenNames) + [tokenName]
      ensures txhashes == old(txhashes) + [hash]
    {
      dates := dates + [date];
      froms := froms + [from];
      tos := tos + [to];
      contractAddresses := contractAddresses + [contractAddress];
      tokenValues := tokenValues + [tokenValue];
      tokenNames := tokenNames + [tokenName];
      txhashes := txhashes + [hash];
    }

    /** A transfer whose value could not be read: appended without a value and without a label. */
    method RecordUnread(user: Address, date: int, from: Address, to: Address,
                        contractAddress: Address, tokenValue: int, tokenName: string, hash: Field)
      requires Valid() && from != to
      modifies this
      ensures Valid()
      ensures dates == old(dates) + [date] && froms == old(froms) + [from] && tos == old(tos) + [to]
      ensures contractAddresses == old(contractAddresses) + [contractAddress]
      ensures tokenValues == old(tokenValues) + [tokenValue] && tokenNames == old(tokenNames) + [tokenName]
      ensures txhashes == old(txhashes) + [hash]
      ensures values == old(values) && statuses == old(statuses)
      ensures log == old(log) + [Entry(user, date, from, to, contractAddress, tokenValue, tokenName, hash, None, None)]
    {
      var e := Entry(user, date, from, to, contractAddress, tokenValue, tokenName, hash, None, None);
      AppendConsistent(dates, contractAddresses, tokenValues, tokenNames, txhashes, froms, tos,
                       values, statuses, log, e, values, statuses);
      AppendTransfer(date, from, to, contractAddress, tokenValue, tokenName, hash);
      log := log + [e];
    }

    /** A transfer whose value was read: appended with its value, then labelled by `Label`. */
    method RecordRead(user: Address, date: int, from: Address, to: Address,
                      contractAddress: Address, tokenValue: int, tokenName: string, hash: Field,
                      v: int)
      returns (c: Result<Status, NftError>)
      requires Valid() && from != to
      modifies this
      ensures Valid()
      ensures dates == old(dates) + [date] && froms == old(froms) + [from] && tos == old(tos) + [to]
      ensures contractAddresses == old(contractAddresses) + [contractAddress]
      ensures tokenValues == old(tokenValues) + [tokenValue] && tokenNames == old(tokenNames) + [tokenName]
      ensures txhashes == old(txhashes) + [hash]
      ensures c == Classify(old(statuses), old(values) + [v], user, from, to, tokenName)
      ensures values == old(values) + [v]
      ensures statuses == if c.Ok? then old(statuses) + [c.value] else old(statuses)
      ensures log == old(log) + [Entry(user, date, from, to, contractAddress, tokenValue, tokenName, hash, Some(v), if c.Ok? then Some(c.value) else None)]
    {
      ghost var st0, log0 := statuses, log;
      AppendTransfer(date, from, to, contractAddress, tokenValue, tokenName, hash);
      values := values + [v];
      c := Label(user);
      var e := Entry(user, date, from, to, contractAddress, tokenValue, tokenName, hash, Some(v), if c.Ok? then Some(c.value) else None);
      LabelledEntry(st0, values, e, c);
      log := log0 + [e];
      ConsistentAfterAppend(old(dates), old(contractAddresses), old(tokenValues), old(tokenNames),
                            old(txhashes), old(froms), old(tos), old(values), st0, log0, e,
                            dates, contractAddresses, tokenValues, tokenNames, txhashes, froms, tos,
                            values, statuses, log);
    }

    /** The `try` block of `update_nft` on the transfer just appended: dispatch to the setter
        its shape calls for, or refuse a wallet that is neither end. */
    method Label(user: Address) returns (r: Result<Status, NftError>)
      requires |froms| > 0 && |tos| > 0 && |tokenNames| > 0
      modifies this`statuses
      ensures r == Classify(old(statuses), values, user, froms[|froms| - 1], tos[|tos| - 1],
                            tokenNames[|tokenNames| - 1])
      ensures statuses == if r.Ok? then old(statuses) + [r.value] else old(statuses)
    {
      if user == froms[|froms| - 1] {
        r := SetSold();
      } else if user == tos[|tos| - 1] {
        if froms[|froms| - 1] == NFT_CREATION_ADR {
          if tokenNames[|tokenNames| - 1] == GOV_NFT {
            r := SetGov();
          } else {
            r := SetCreated();
          }
        } else {
          r := SetBought();
        }
      } else {
        r := Err(NotAParty(user));
      }
    }

    /** `get_nr_sales`: the number of applied transfers labelled `Sold`. */
    function GetNrSales(): (r: nat)
      reads this
      requires Valid()
      ensures r == LabelCount(log, Sold)
      ensures r <= |statuses|
    {
      CountOfStatuses(log, Sold);
      CountOfPositive(statuses, Sold);
      CountOf(statuses, Sold)
    }

    /** `get_nr_purchases`: the number of applied transfers labelled `Bought`. */
    function GetNrPurchases(): (r: nat)
      reads this
      requires Valid()
      ensures r == LabelCount(log, Bought)
      ensures r <= |statuses|
    {
      CountOfStatuses(log, Bought);
      CountOfPositive(statuses, Bought);
      CountOf(statuses, Bought)
    }

    /** `get_sellers`: one address per sale; the selling wallets themselves when every applied
        transfer was labelled. */
    function GetSellers(): (r: seq<Address>)
      reads this
      requires Valid()
      ensures |r| == GetNrSales()
      ensures AllLabelled(log) ==> r == LabelledUsers(log, Sold)
    {
      StatusesNotLongerThanValues(log);
      PartiesCount(statuses, froms, Sold);
      AlignedSellers(log);
      PartiesOf(statuses, froms, Sold)
    }

    /** `get_buyers`: one address per purchase; the buying wallets themselves when every applied
        transfer was labelled. */
    function GetBuyers(): (r: seq<Address>)
      reads this
      requires Valid()
      ensures |r| == GetNrPurchases()
      ensures AllLabelled(log) ==> r == LabelledUsers(log, Bought)
    {
      StatusesNotLongerThanValues(log);
      PartiesCount(statuses, tos, Bought);
      AlignedBuyers(log);
      PartiesOf(statuses, tos, Bought)
    }

    /** `get_revenue`: the sum of the prices of the sales when every applied transfer was
        labelled. */
    function GetRevenue(): (r: int)
      reads this
      requires Valid()
      ensures AllLabelled(log) ==> r == LabelledValue(log, Sold)
      ensures GetNrSales() == 0 ==> r == 0
    {
      StatusesNotLongerThanValues(log);
      AlignedValueTotal(log, Sold);
      ValueTotalAbsent(statuses, values, Sold);
      ValueTotal(statuses, values, Sold)
    }

    /** `get_costs`: the sum of the prices of the purchases when every applied transfer was
        labelled. */
    function GetCosts(): (r: int)
      reads this
      requires Valid()
      ensures AllLabelled(log) ==> r == LabelledValue(log, Bought)
      ensures GetNrPurchases() == 0 ==> r == 0
    {
      StatusesNotLongerThanValues(log);
      AlignedValueTotal(log, Bought);
      ValueTotalAbsent(statuses, values, Bought);
      ValueTotal(statuses, values, Bought)
    }

    /** `was_ever_sold`: some applied transfer was labelled `Sold`. */
    function WasEverSold(): (r: bool)
      reads this
      requires Valid()
      ensures r <==> LabelCount(log, Sold) > 0
      ensures r <==> Sold in statuses
    {
      CountOfStatuses(log, Sold);
      CountOfPositive(statuses, Sold);
      GetNrSales() > 0
    }

    /** `was_ever_bought`: some applied transfer was labelled `Bought`. */
    function WasEverBought(): (r: bool)
      reads this
      requires Valid()
      ensures r <==> LabelCount(log, Bought) > 0
      ensures r <==> Bought in statuses
    {
      CountOfStatuses(log, Bought);
      CountOfPositive(statuses, Bought);
      GetNrPurchases() > 0
    }

    /** `is_gov`: a governance NFT was never sold nor bought. */
    function IsGov(): (r: bool)
      reads this
      requires Valid()
      ensures r <==> Governance in statuses
      ensures r ==> GetNrSales() == 0 && GetNrPurchases() == 0
    {
      InvariantConsequences(statuses);
      HasGov(statuses)
    }

    /** `was_ever_created`: never raises on a valid NFT, and holds exactly when some applied
        transfer was labelled `Created` (necessarily the first label). */
    function WasEverCreated(): (r: Result<bool, NftError>)
      reads this
      requires Valid()
      ensures r.Ok?
      ensures r.value <==> LabelCount(log, Created) > 0
      ensures r.value ==> |statuses| > 0 && statuses[0] == Created
    {
      InvariantConsequences(statuses);
      CountOfStatuses(log, Created);
      CountOfPositive(statuses, Created);
      EverCreated(statuses)
    }
  }
}
