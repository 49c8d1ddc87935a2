/**
  * The block-explorer client (blockchainscan.py): the records it returns, the call
  * rate limiter, the wallet list derived from contracts, and the argument guard of the
  * token-transfer query.
  *
  * The HTTP layer is not modelled: what the explorer answers is the `Explorer` value, a set of
  * total functions from a query to its decoded JSON result (`None` when the call failed).
  */
module Scan {
  import opened Wrappers
  import opened Utils

  /** An address or hash after `HexStr2Int`: `None` when the record's field was empty. */
  type Address = Option<nat>

  /** A JSON scalar whose type the source inspects at run time. */
  datatype Field = Int(i: int) | Str(s: string)

  /** One record of the normal-transaction listing (`txlist`). */
  datatype RawTransaction = RawTransaction(
    hash: string, timeStamp: int, from: string, to: string, value: int, methodId: string)

  /** One record of a token-transfer listing (`tokennfttx` / `token1155tx`). */
  datatype RawTransfer = RawTransfer(
    hash: string, timeStamp: int, from: string, to: string, contractAddress: string,
    tokenID: nat, tokenName: string, tokenValue: int)

  /** A money transaction as the transaction cache stores it, or as the by-hash query returns it. */
  datatype Transaction = Transaction(
    date: int, hash: Field, from: Address, to: Address, value: Field, methodId: Address)

  /** What the explorer answers to each query the core issues. */
  datatype Explorer = Explorer(
    normalTransactions: nat -> Option<seq<RawTransaction>>,
    transactionByHash: nat -> Option<Transaction>,
    tokenTransfers: (string, Address, Address) -> Option<seq<RawTransfer>>)

  datatype ScanError =
    | ClockWentBackwards(sleepMs: int)
    | NoTransactionList(contract: nat)
    | BadAddress(cause: HexError)
    | NoAddressGiven

  /** Extra milliseconds added to every sleep. */
  const SAFETY: int := 50

  datatype Pause = NoPause | Pause(ms: int)

  datatype ThrottleStepResult = ThrottleStepResult(
    outcome: Result<Pause, ScanError>, stamps: seq<int>, count: nat)

  /** One call of the rate limiter on the ring of time stamps `ts` (milliseconds), with the clock
      reading `now`, and `after` the reading once the sleep is over. The slot `count` is
      written, and the slot after it (modulo the ring size) holds the time of the call made
      `|ts| - 1` calls ago, or 0 while that many calls have not been made. */
  function ThrottleStep(ts: seq<int>, count: nat, now: int, after: int): (r: ThrottleStepResult)
    requires count < |ts|
    ensures |r.stamps| == |ts| && r.count < |ts|
    ensures var window := ts[count := now][(count + 1) % |ts|];
      && (r.outcome.Err? <==> window != 0 && now < window)
      && (r.outcome.Ok? && r.outcome.value.Pause? <==> window != 0 && 0 <= now - window < 1000)
      && (r.outcome.Ok? && r.outcome.value.Pause? ==> r.outcome.value.ms == 1000 - (now - window) + SAFETY)
      && (r.outcome == Ok(NoPause) <==> window == 0 || now - window >= 1000)
    ensures r.outcome.Err? ==> r.count == count && r.stamps == ts[count := now]
    ensures r.outcome.Ok? ==> r.count == (count + 1) % |ts|
    ensures r.outcome.Ok? && r.outcome.value.Pause? ==> r.stamps == ts[count := after]
    ensures r.outcome == Ok(NoPause) ==> r.stamps == ts[count := now]
  {
    var stamped := ts[count := now];
    var windowStart := (count + 1) % |ts|;
    if stamped[windowStart] == 0 then
      ThrottleStepResult(Ok(NoPause), stamped, windowStart)
    else
      var sleepMs := 1000 - (stamped[count] - stamped[windowStart]);
      if sleepMs > 1000 then
        ThrottleStepResult(Err(ClockWentBackwards(sleepMs)), stamped, count)
      else if sleepMs > 0 then
        ThrottleStepResult(Ok(Pause(sleepMs + SAFETY)), stamped[count := after], windowStart)
      else
        ThrottleStepResult(Ok(NoPause), stamped, windowStart)
  }

  /** The slot after `count` in a ring of `n` slots. */
  lemma NextSlot(count: nat, n: nat)
    requires count < n
    ensures (count + 1) % n == if count + 1 < n then count + 1 else 0
  {
  }

  /** `s` without repetitions, each element kept where it first appears. */
  function Dedup<T(==)>(s: seq<T>): seq<T> {
    if s == [] then []
    else
      var kept := Dedup(s[..|s| - 1]);
      if s[|s| - 1] in kept then kept else kept + [s[|s| - 1]]
  }

  predicate NoDuplicates<T(==)>(s: seq<T>) {
    forall i, j :: 0 <= i < j < |s| ==> s[i] != s[j]
  }

  lemma {:induction false} DedupElements<T>(s: seq<T>)
    ensures forall x :: x in Dedup(s) <==> x in s
  {
    if s != [] {
      DedupElements(s[..|s| - 1]);
      assert s == s[..|s| - 1] + [s[|s| - 1]];
    }
  }

  lemma {:induction false} DedupNoDuplicates<T>(s: seq<T>)
    ensures NoDuplicates(Dedup(s))
  {
    if s != [] {
      DedupNoDuplicates(s[..|s| - 1]);
    }
  }

  /** The position of the first occurrence of `x` in `s`. */
  function FirstIndex<T(==)>(s: seq<T>, x: T): (i: nat)
    requires x in s
    ensures i < |s| && s[i] == x && x !in s[..i]
  {
    if s[0] == x then 0 else 1 + FirstIndex(s[1..], x)
  }

  lemma {:induction false} FirstIndexOfPrefix<T>(s: seq<T>, k: nat, x: T)
    requires k <= |s| && x in s[..k]
    ensures FirstIndex(s, x) == FirstIndex(s[..k], x)
  {
    if s[0] != x {
      assert s[..k][1..] == s[1..][..k - 1];
      FirstIndexOfPrefix(s[1..], k - 1, x);
    }
  }

  /** `Dedup` keeps first-appearance order. */
  lemma {:induction false} DedupFirstAppearanceOrder<T>(s: seq<T>)
    ensures forall x :: x in Dedup(s) ==> x in s
    ensures forall i, j :: 0 <= i < j < |Dedup(s)| ==>
      FirstIndex(s, Dedup(s)[i]) < FirstIndex(s, Dedup(s)[j])
  {
    DedupElements(s);
    if s != [] {
      DedupFirstAppearanceOrder(s[..|s| - 1]);
      forall i, j | 0 <= i < j < |Dedup(s)|
        ensures FirstIndex(s, Dedup(s)[i]) < FirstIndex(s, Dedup(s)[j])
      {
        var kept, d := Dedup(s[..|s| - 1]), Dedup(s);
        assert d[i] in d && d[j] in d;
        if j < |kept| {
          assert kept[i] in kept && kept[j] in kept;
          assert FirstIndex(s[..|s| - 1], kept[i]) < FirstIndex(s[..|s| - 1], kept[j]);
        }
        DedupOrderPair(s, i, j);
      }
    }
  }

  /** The step of `DedupFirstAppearanceOrder` for one pair of kept elements. */
  lemma DedupOrderPair<T>(s: seq<T>, i: nat, j: nat)
    requires s != [] && i < j < |Dedup(s)| && Dedup(s)[i] in s && Dedup(s)[j] in s
    requires var init := s[..|s| - 1]; var kept := Dedup(init);
      j < |kept| ==> kept[i] in init && kept[j] in init &&
                     FirstIndex(init, kept[i]) < FirstIndex(init, kept[j])
    ensures FirstIndex(s, Dedup(s)[i]) < FirstIndex(s, Dedup(s)[j])
  {
    var init, x := s[..|s| - 1], s[|s| - 1];
    var kept, d := Dedup(init), Dedup(s);
    DedupElements(init);
    assert d[i] == kept[i];
    FirstIndexOfPrefix(s, |s| - 1, d[i]);
    if j < |kept| {
      assert d[j] == kept[j];
      FirstIndexOfPrefix(s, |s| - 1, d[j]);
    } else {
      assert d[j] == x && x !in init;
      assert forall k :: 0 <= k < |init| ==> init[k] == s[k];
      assert FirstIndex(s, x) == |init|;
    }
  }

  /** The addresses `get_wallets` collects from one normal transaction: its non-empty `from`,
      then its non-empty `to`. */
  function TransactionAddresses(tx: RawTransaction): Result<seq<nat>, ScanError> {
    match ParsedAddress(tx.from)
    case Err(e) => Err(e)
    case Ok(fromPart) =>
      match ParsedAddress(tx.to)
      case Err(e) => Err(e)
      case Ok(toPart) => Ok(fromPart + toPart)
  }

  function ParsedAddress(s: string): (r: Result<seq<nat>, ScanError>)
    ensures r.Ok? ==> |r.value| <= 1 && (|r.value| == 1 <==> s != "")
  {
    if s == "" then Ok([])
    else
      match HexStr2Int(s)
      case Err(e) => Err(BadAddress(e))
      case Ok(Some(a)) => Ok([a])
      case Ok(None) => Ok([])
  }

  function ListAddresses(txs: seq<RawTransaction>): Result<seq<nat>, ScanError> {
    if txs == [] then Ok([])
    else
      match ListAddresses(txs[..|txs| - 1])
      case Err(e) => Err(e)
      case Ok(prefix) =>
        match TransactionAddresses(txs[|txs| - 1])
        case Err(e) => Err(e)
        case Ok(last) => Ok(prefix + last)
  }

  /** Once a prefix of the transactions fails, the whole list fails the same way. */
  lemma {:induction false} ListAddressesErrorPersists(txs: seq<RawTransaction>, k: nat)
    requires k <= |txs| && ListAddresses(txs[..k]).Err?
    ensures ListAddresses(txs) == ListAddresses(txs[..k])
  {
    if k < |txs| {
      assert txs[..|txs| - 1][..k] == txs[..k];
      ListAddressesErrorPersists(txs[..|txs| - 1], k);
    } else {
      assert txs[..k] == txs;
    }
  }

  /** One more transaction: its addresses are appended, or its error ends the whole list. */
  lemma ListAddressesStep(txs: seq<RawTransaction>, ti: nat, found: seq<nat>)
    requires ti < |txs| && ListAddresses(txs[..ti]) == Ok(found)
    ensures match TransactionAddresses(txs[ti])
      case Err(e) => ListAddresses(txs) == Err(e)
      case Ok(part) => ListAddresses(txs[..ti + 1]) == Ok(found + part)
  {
    assert txs[..ti + 1][..ti] == txs[..ti];
    if TransactionAddresses(txs[ti]).Err? {
      ListAddressesErrorPersists(txs, ti + 1);
    }
  }

  lemma DedupSnoc<T>(s: seq<T>, x: T)
    ensures Dedup(s + [x]) == if x in Dedup(s) then Dedup(s) else Dedup(s) + [x]
  {
    assert (s + [x])[..|s|] == s;
  }

  /** One `if adrs not in wallets: wallets.append(adrs)` step of `get_wallets`, for the field `s`
      of a transaction; `wallets` is the deduplication of the addresses `seen` so far. */
  method AbsorbAddress(ghost seen: seq<nat>, wallets: seq<nat>, s: string)
    returns (r: Result<seq<nat>, ScanError>)
    requires wallets == Dedup(seen)
    ensures ParsedAddress(s).Err? ==> r == Err(ParsedAddress(s).error)
    ensures ParsedAddress(s).Ok? ==> r == Ok(Dedup(seen + ParsedAddress(s).value))
  {
    r := Ok(wallets);
    if s != "" {
      match HexStr2Int(s)
      case Err(e) =>
        r := Err(BadAddress(e));
      case Ok(Some(a)) =>
        DedupSnoc(seen, a);
        if a !in wallets {
          r := Ok(wallets + [a]);
        }
      case Ok(None) =>
    }
    if ParsedAddress(s) == Ok([]) {
      assert seen + [] == seen;
    }
  }

  /** The body of the inner loop of `get_wallets`: the transaction's `from`, then its `to`. */
  method AbsorbTransaction(ghost seen: seq<nat>, wallets: seq<nat>, tx: RawTransaction)
    returns (r: Result<seq<nat>, ScanError>)
    requires wallets == Dedup(seen)
    ensures TransactionAddresses(tx).Err? ==> r == Err(TransactionAddresses(tx).error)
    ensures TransactionAddresses(tx).Ok? ==> r == Ok(Dedup(seen + TransactionAddresses(tx).value))
  {
    var afterFrom := AbsorbAddress(seen, wallets, tx.from);
    if afterFrom.Err? {
      return afterFrom;
    }
    var fromPart := ParsedAddress(tx.from).value;
    r := AbsorbAddress(seen + fromPart, afterFrom.value, tx.to);
    if r.Ok? {
      assert (seen + fromPart) + ParsedAddress(tx.to).value
        == seen + (fromPart + ParsedAddress(tx.to).value);
    }
  }

  /** The inner loop of `get_wallets` over the normal transactions `txs` of one contract. */
  method AbsorbTransactions(ghost seen: seq<nat>, wallets: seq<nat>, txs: seq<RawTransaction>)
    returns (r: Result<seq<nat>, ScanError>)
    requires wallets == Dedup(seen)
    ensures ListAddresses(txs).Err? ==> r == Err(ListAddresses(txs).error)
    ensures ListAddresses(txs).Ok? ==> r == Ok(Dedup(seen + ListAddresses(txs).value))
  {
    var current := wallets;
    ghost var found: seq<nat> := [];
    assert seen + found == seen;
    for ti := 0 to |txs|
      invariant ListAddresses(txs[..ti]) == Ok(found)
      invariant current == Dedup(seen + found)
    {
      var next := AbsorbTransaction(seen + found, current, txs[ti]);
      ListAddressesStep(txs, ti, found);
      if next.Err? {
        return next;
      }
      ghost var part := TransactionAddresses(txs[ti]).value;
      assert (seen + found) + part == seen + (found + part);
      current := next.value;
      found := found + part;
    }
    assert txs[..|txs|] == txs;
    r := Ok(current);
  }

  class BlockChainScan {
    const endpoint: string
    const token: string
    const callsSec: nat
    /** The answers of the explorer behind `endpoint`. */
    const explorer: Explorer
    const timeStamps: array<int>
    var count: nat
    /** How many times `Throttle` has been called. */
    ghost var calls: nat

    ghost predicate Valid()
      reads this, timeStamps
    {
      && timeStamps.Length == callsSec + 1
      && count < timeStamps.Length
      && (calls <= callsSec ==>
            count == calls && forall i :: calls <= i < timeStamps.Length ==> timeStamps[i] == 0)
    }

    constructor (endpoint: string, token: string, callsSec: nat, explorer: Explorer)
      ensures Valid() && fresh(timeStamps)
      ensures this.endpoint == endpoint && this.token == token && this.callsSec == callsSec
      ensures this.explorer == explorer
      ensures timeStamps[..] == seq(callsSec + 1, _ => 0) && count == 0 && calls == 0
    {
      this.endpoint := endpoint;
      this.token := token;
      this.callsSec := callsSec;
      this.explorer := explorer;
      timeStamps := new int[callsSec + 1](_ => 0);
      count := 0;
      calls := 0;
    }

    /** Limit the calls to `callsSec` per second: `now` is the clock reading in milliseconds,
        `after` the reading once the returned pause has been slept. */
    method Throttle(now: int, after: int) returns (r: Result<Pause, ScanError>)
      requires Valid()
      modifies this, timeStamps
      ensures Valid() && calls == old(calls) + 1
      ensures var step := ThrottleStep(old(timeStamps[..]), old(count), now, after);
        r == step.outcome && timeStamps[..] == step.stamps && count == step.count
      ensures old(calls) < callsSec ==> r == Ok(NoPause)
    {
      ghost var step := ThrottleStep(timeStamps[..], count, now, after);
      timeStamps[count] := now;
      var windowStart := (count + 1) % (callsSec + 1);
      NextSlot(count, callsSec + 1);
      calls := calls + 1;
      if timeStamps[windowStart] != 0 {
        var sleepMs := 1000 - (timeStamps[count] - timeStamps[windowStart]);
        if sleepMs > 1000 {
          return Err(ClockWentBackwards(sleepMs));
        }
        if sleepMs > 0 {
          // time.sleep((sleepMs + SAFETY) / 1000) is not modelled; the clock then reads `after`
          timeStamps[count] := after;
          r := Ok(Pause(sleepMs + SAFETY));
        } else {
          r := Ok(NoPause);
        }
      } else {
        r := Ok(NoPause);
      }
      count := windowStart;
    }

    /** The token-transfer query for `action`, filtered by `address` and/or `contract`;
        at least one of the two must be given. */
    function GetErcTokenTransfers(action: string, address: Address, contract: Address)
      : (r: Result<Option<seq<RawTransfer>>, ScanError>)
      ensures r.Err? <==> address.None? && contract.None?
      ensures r.Ok? ==> r.value == explorer.tokenTransfers(action, address, contract)
    {
      if address.None? && contract.None? then Err(NoAddressGiven)
      else Ok(explorer.tokenTransfers(action, address, contract))
    }

    /** The addresses met in the normal transactions of `contracts`, in order, with repetitions. */
    function Candidates(contracts: seq<nat>): Result<seq<nat>, ScanError> {
      if contracts == [] then Ok([])
      else
        match Candidates(contracts[..|contracts| - 1])
        case Err(e) => Err(e)
        case Ok(prefix) =>
          var c := contracts[|contracts| - 1];
          match explorer.normalTransactions(c)
          case None => Err(NoTransactionList(c))
          case Some(txs) =>
            match ListAddresses(txs)
            case Err(e) => Err(e)
            case Ok(found) => Ok(prefix + found)
    }

    lemma {:induction false} CandidatesErrorPersists(contracts: seq<nat>, k: nat)
      requires k <= |contracts| && Candidates(contracts[..k]).Err?
      ensures Candidates(contracts) == Candidates(contracts[..k])
    {
      if k < |contracts| {
        assert contracts[..|contracts| - 1][..k] == contracts[..k];
        CandidatesErrorPersists(contracts[..|contracts| - 1], k);
      } else {
        assert contracts[..k] == contracts;
      }
    }

    /** The wallets met in the normal transactions of `contracts`, without repetitions, in order
        of first appearance. A contract whose transaction list could not be fetched fails the
        whole call, as does an address that is not a hex literal. */
    method GetWallets(contracts: seq<nat>) returns (r: Result<seq<nat>, ScanError>)
      ensures r.Err? <==> Candidates(contracts).Err?
      ensures r.Err? ==> r.error == Candidates(contracts).error
      ensures r.Ok? ==> r.value == Dedup(Candidates(contracts).value)
    {
      var wallets: seq<nat> := [];
      ghost var seen: seq<nat> := [];
      for ci := 0 to |contracts|
        invariant Candidates(contracts[..ci]) == Ok(seen)
        invariant wallets == Dedup(seen)
      {
        var c := contracts[ci];
        assert contracts[..ci + 1][..ci] == contracts[..ci];
        var transactions := explorer.normalTransactions(c);
        if transactions.None? {
          CandidatesErrorPersists(contracts, ci + 1);
          return Err(NoTransactionList(c));
        }
        var txs := transactions.value;
        var absorbed := AbsorbTransactions(seen, wallets, txs);
        if absorbed.Err? {
          CandidatesErrorPersists(contracts, ci + 1);
          return Err(absorbed.error);
        }
        wallets := absorbed.value;
        seen := seen + ListAddresses(txs).value;
      }
      assert contracts[..|contracts|] == contracts;
      r := Ok(wallets);
    }
  }
}
