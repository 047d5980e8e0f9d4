/** Metered RPC spend: what a call costs under each provider's price list, and the ledger
    that accumulates it against a monthly free quota. */
module Spend {
  import opened Model

  datatype RpcCall =
    | GetLogs(blocks: nat, results: nat)
    | BlockNumber
    | BlockByNumber(count: nat, full: bool)
    | TxByHash(count: nat)
    | Receipt(count: nat)
    | LogSubscription
    | Other

  /** The price lists an RPC source can be configured with. */
  datatype CostModel = Alchemy | QuickNode | FreeNode

  function AtLeastOne(n: nat): nat {
    if n == 0 then 1 else n
  }

  /** Provider-native units billed for one call. */
  function Units(model: CostModel, call: RpcCall): nat {
    match model
    case FreeNode => 0
    case QuickNode => (
      match call
      case BlockByNumber(count, _) => 20 * AtLeastOne(count)
      case TxByHash(count) => 20 * AtLeastOne(count)
      case Receipt(count) => 20 * AtLeastOne(count)
      case Other => 0
      case _ => 20)
    case Alchemy => (
      match call
      case GetLogs(_, _) => 75
      case BlockNumber => 10
      case BlockByNumber(count, _) => 16 * AtLeastOne(count)
      case TxByHash(count) => 15 * AtLeastOne(count)
      case Receipt(count) => 15 * AtLeastOne(count)
      case LogSubscription => 10
      case Other => 0)
  }

  /** Micro-USD per unit, as numerator and denominator. */
  function Rate(model: CostModel): (r: (nat, nat))
    ensures r.1 > 0
  {
    match model
    case Alchemy => (12, 10)
    case QuickNode => (6, 10)
    case FreeNode => (0, 1)
  }

  /** Micro-USD charged for one call: the units at the model's rate, rounded down per call. */
  function Money(model: CostModel, call: RpcCall): nat {
    Units(model, call) * Rate(model).0 / Rate(model).1
  }

  /** The price lists in figures: units and micro-USD of one call, with ten items where it takes several. */
  lemma PriceList()
    ensures Units(Alchemy, GetLogs(2000, 0)) == 75 && Units(Alchemy, BlockNumber) == 10 == Units(Alchemy, LogSubscription)
    ensures Units(Alchemy, BlockByNumber(10, true)) == 160 && Units(Alchemy, TxByHash(10)) == 150 == Units(Alchemy, Receipt(10))
    ensures Units(QuickNode, GetLogs(2000, 0)) == 20 == Units(QuickNode, BlockNumber) == Units(QuickNode, LogSubscription)
    ensures Units(QuickNode, BlockByNumber(10, true)) == 200 == Units(QuickNode, TxByHash(10)) == Units(QuickNode, Receipt(10))
    ensures Money(Alchemy, GetLogs(2000, 0)) == 90 && Money(QuickNode, GetLogs(2000, 0)) == 12
    ensures forall call :: Units(FreeNode, call) == 0 == Money(FreeNode, call)
    ensures forall model :: Units(model, Other) == 0
  {
  }

  // ---------------------------------------------------------------- accounting in flight

  const U64: nat := 0x1_0000_0000_0000_0000

  /** Metering a call is two atomic additions to 64-bit counters, units first. Several tasks meter at
      once, so a reader may see the units of a call whose money has not landed: `owing` holds those
      calls, and `calls` counts every call metered so far. `unitsEver` and `moneyEver` are the exact
      sums the counters wrap around. */
  datatype Account = Account(
    units: nat, money: nat, unitsEver: nat, moneyEver: nat, owing: seq<RpcCall>, calls: nat)

  const EMPTY_ACCOUNT := Account(0, 0, 0, 0, [], 0)

  datatype MeterStep = AddUnits(call: RpcCall) | AddMoney(i: nat)

  predicate CanMeter(a: Account, step: MeterStep) {
    step.AddMoney? ==> step.i < |a.owing|
  }

  function Meter(model: CostModel, a: Account, step: MeterStep): Account
    requires CanMeter(a, step)
  {
    match step
    case AddUnits(call) =>
      var u := Units(model, call);
      a.(units := (a.units + u) % U64, unitsEver := a.unitsEver + u, owing := a.owing + [call], calls := a.calls + 1)
    case AddMoney(i) =>
      var m := Money(model, a.owing[i]);
      a.(money := (a.money + m) % U64, moneyEver := a.moneyEver + m, owing := a.owing[..i] + a.owing[i + 1..])
  }

  /** `steps` is some interleaving of the two additions of any number of calls. */
  predicate Interleaving(model: CostModel, a: Account, steps: seq<MeterStep>)
    decreases |steps|
  {
    steps == [] || (CanMeter(a, steps[0]) && Interleaving(model, Meter(model, a, steps[0]), steps[1..]))
  }

  function Metered(model: CostModel, a: Account, steps: seq<MeterStep>): Account
    requires Interleaving(model, a, steps)
    decreases |steps|
  {
    if steps == [] then a else Metered(model, Meter(model, a, steps[0]), steps[1..])
  }

  function MoneyOf(model: CostModel, calls: seq<RpcCall>): nat {
    if calls == [] then 0 else Money(model, calls[0]) + MoneyOf(model, calls[1..])
  }

  lemma {:induction false} MoneyOfConcat(model: CostModel, a: seq<RpcCall>, b: seq<RpcCall>)
    ensures MoneyOf(model, a + b) == MoneyOf(model, a) + MoneyOf(model, b)
  {
    if a == [] {
      assert a + b == b;
    } else {
      assert (a + b)[1..] == a[1..] + b;
      MoneyOfConcat(model, a[1..], b);
    }
  }

  lemma MoneyOfRemove(model: CostModel, calls: seq<RpcCall>, i: nat)
    requires i < |calls|
    ensures MoneyOf(model, calls) ==
            Money(model, calls[i]) + MoneyOf(model, calls[..i] + calls[i + 1..])
  {
    assert calls == calls[..i] + [calls[i]] + calls[i + 1..];
    MoneyOfConcat(model, calls[..i] + [calls[i]], calls[i + 1..]);
    MoneyOfConcat(model, calls[..i], [calls[i]]);
    MoneyOfConcat(model, calls[..i], calls[i + 1..]);
    assert MoneyOf(model, [calls[i]]) == Money(model, calls[i]);
  }

  /** Recorded plus outstanding money is below the exact price by less than one micro-USD for
      each call metered. */
  predicate Bracketed(model: CostModel, a: Account) {
    var (num, den) := Rate(model);
    var landed := a.moneyEver + MoneyOf(model, a.owing);
    landed * den <= a.unitsEver * num <= (landed + a.calls) * den - a.calls
  }

  /** The counters are the sums, wrapped. */
  predicate Wrapped(a: Account) {
    a.units == a.unitsEver % U64 && a.money == a.moneyEver % U64
  }

  lemma MeterKeepsBracket(model: CostModel, a: Account, step: MeterStep)
    requires CanMeter(a, step) && Bracketed(model, a)
    ensures Bracketed(model, Meter(model, a, step))
  {
    match step
    case AddUnits(call) =>
      MoneyOfConcat(model, a.owing, [call]);
      assert MoneyOf(model, [call]) == Money(model, call);
    case AddMoney(i) =>
      MoneyOfRemove(model, a.owing, i);
  }

  lemma {:induction false} InterleavingKeepsBracket(model: CostModel, a: Account, steps: seq<MeterStep>)
    requires Interleaving(model, a, steps) && Bracketed(model, a)
    ensures Bracketed(model, Metered(model, a, steps))
    decreases |steps|
  {
    if steps != [] {
      MeterKeepsBracket(model, a, steps[0]);
      InterleavingKeepsBracket(model, Meter(model, a, steps[0]), steps[1..]);
    }
  }

  lemma AddWraps(counter: nat, sum: nat, more: nat)
    requires counter == sum % U64
    ensures (counter + more) % U64 == (sum + more) % U64
  {
  }

  lemma WrapIsExact(counter: nat, sum: nat)
    requires counter == sum % U64
    ensures counter == sum <==> sum < U64
  {
  }

  lemma MeterKeepsWrap(model: CostModel, a: Account, step: MeterStep)
    requires CanMeter(a, step) && Wrapped(a)
    ensures Wrapped(Meter(model, a, step))
  {
    match step
    case AddUnits(call) => AddWraps(a.units, a.unitsEver, Units(model, call));
    case AddMoney(i) => AddWraps(a.money, a.moneyEver, Money(model, a.owing[i]));
  }

  lemma {:induction false} InterleavingKeepsWrap(model: CostModel, a: Account, steps: seq<MeterStep>)
    requires Interleaving(model, a, steps) && Wrapped(a)
    ensures Wrapped(Metered(model, a, steps))
    decreases |steps|
  {
    if steps != [] {
      MeterKeepsWrap(model, a, steps[0]);
      InterleavingKeepsWrap(model, Meter(model, a, steps[0]), steps[1..]);
    }
  }

  /** At every moment of every interleaving the money recorded is at most the exact price of the units
      recorded; once nothing is in flight it is below it by less than one micro-USD per call. */
  lemma MoneyWithinOneMicroPerCall(model: CostModel, steps: seq<MeterStep>)
    requires Interleaving(model, EMPTY_ACCOUNT, steps)
    ensures var a := Metered(model, EMPTY_ACCOUNT, steps);
            var (num, den) := Rate(model);
            && a.moneyEver * den <= a.unitsEver * num
            && (a.owing == [] && a.calls > 0 ==> a.unitsEver * num < (a.moneyEver + a.calls) * den)
  {
    InterleavingKeepsBracket(model, EMPTY_ACCOUNT, steps);
  }

  /** The two counters show the recorded sums exactly while the sums fit in 64 bits. */
  lemma CountersAreExact(model: CostModel, steps: seq<MeterStep>)
    requires Interleaving(model, EMPTY_ACCOUNT, steps)
    ensures var a := Metered(model, EMPTY_ACCOUNT, steps);
            (a.units == a.unitsEver <==> a.unitsEver < U64) && (a.money == a.moneyEver <==> a.moneyEver < U64)
  {
    InterleavingKeepsWrap(model, EMPTY_ACCOUNT, steps);
    var a := Metered(model, EMPTY_ACCOUNT, steps);
    WrapIsExact(a.units, a.unitsEver);
    WrapIsExact(a.money, a.moneyEver);
  }

  // ---------------------------------------------------------------- batches

  /** The calls a batch of `count` items is billed as. */
  predicate Batchable(call: RpcCall) {
    call.BlockByNumber? || call.TxByHash? || call.Receipt?
  }

  function WithCount(call: RpcCall, count: nat): RpcCall
    requires Batchable(call)
  {
    match call
    case BlockByNumber(_, full) => BlockByNumber(count, full)
    case TxByHash(_) => TxByHash(count)
    case Receipt(_) => Receipt(count)
  }

  function Sum(ns: seq<nat>): nat {
    if ns == [] then 0 else ns[0] + Sum(ns[1..])
  }

  function ChunkUnits(model: CostModel, call: RpcCall, chunks: seq<nat>): nat
    requires Batchable(call)
  {
    if chunks == [] then 0
    else Units(model, WithCount(call, chunks[0])) + ChunkUnits(model, call, chunks[1..])
  }

  /** However a non-empty list of items is cut into non-empty batches, it bills the units of one
      batch holding them all. */
  lemma {:induction false} ChunkingKeepsUnits(model: CostModel, call: RpcCall, chunks: seq<nat>)
    requires Batchable(call) && chunks != []
    requires forall i :: 0 <= i < |chunks| ==> chunks[i] > 0
    ensures ChunkUnits(model, call, chunks) == Units(model, WithCount(call, Sum(chunks)))
  {
    if |chunks| == 1 {
      assert chunks[1..] == [];
    } else {
      ChunkingKeepsUnits(model, call, chunks[1..]);
      assert Sum(chunks[1..]) >= chunks[1] > 0;
    }
  }

  // ---------------------------------------------------------------- the ledger

  /** Units at a rate; the 64-bit product wraps. */
  function Priced(units: nat, rate: (nat, nat)): nat {
    units * rate.0 % U64 / AtLeastOne(rate.1)
  }

  /** Units past the free allotment. */
  function Over(units: nat, quota: Option<nat>): nat {
    var free := if quota.Some? then quota.value else 0;
    if units > free then units - free else 0
  }

  /** Units charged past the free allotment, at the ledger's rate. */
  function Billable(units: nat, quota: Option<nat>, rate: (nat, nat)): nat {
    Priced(Over(units, quota), rate)
  }

  function Remaining(units: nat, quota: Option<nat>): Option<nat> {
    if quota.None? then None
    else Some(if units < quota.value then quota.value - units else 0)
  }

  /** A free quota exists and none of it is left. */
  predicate Exhausted(units: nat, quota: Option<nat>) {
    Remaining(units, quota) == Some(0)
  }

  /** Spend counters: 64-bit atomics that wrap around. */
  class SpendLedger {
    var units: nat
    var microUsd: nat
    const monthlyQuota: Option<nat>
    const rate: (nat, nat)

    ghost predicate Valid()
      reads this
    {
      units < U64 && microUsd < U64
    }

    constructor (monthlyQuota: Option<nat>, rate: (nat, nat))
      ensures Valid() && units == 0 && microUsd == 0
      ensures this.monthlyQuota == monthlyQuota && this.rate == rate
    {
      units, microUsd := 0, 0;
      this.monthlyQuota := monthlyQuota;
      this.rate := rate;
    }

    method Record(spent: nat, money: nat)
      requires Valid() && spent < U64 && money < U64
      modifies this
      ensures Valid()
      ensures units == (old(units) + spent) % U64
      ensures microUsd == (old(microUsd) + money) % U64
    {
      units := (units + spent) % U64;
      microUsd := (microUsd + money) % U64;
    }

    method BillableMicroUsd() returns (money: nat)
      requires Valid()
      ensures money == Billable(units, monthlyQuota, rate)
    {
      var free := if monthlyQuota.Some? then monthlyQuota.value else 0;
      var over := if units > free then units - free else 0;
      money := Priced(over, rate);
    }

    method QuotaExhausted() returns (exhausted: bool)
      requires Valid()
      ensures exhausted <==> monthlyQuota.Some? && monthlyQuota.value <= units
    {
      exhausted := Exhausted(units, monthlyQuota);
    }
  }

  lemma DivMonotone(a: nat, b: nat, d: nat)
    requires a <= b && d > 0
    ensures a / d <= b / d
    ensures a + d <= b ==> a / d < b / d
  {
    var qa, qb := a / d, b / d;
    assert a == qa * d + a % d && b == qb * d + b % d;
    if qb + 1 <= qa {
      MulMonotone(qb + 1, qa, d);
      assert false;
    }
    assert a + d <= b ==> (qa + 1) * d + a % d <= qb * d + b % d;
  }

  /** The bill is the exact price of the units past the allotment exactly when the product fits. */
  lemma BillIsExact(units: nat, quota: Option<nat>, rate: (nat, nat))
    requires AtLeastOne(rate.1) < U64
    ensures Billable(units, quota, rate) == Over(units, quota) * rate.0 / AtLeastOne(rate.1) <==>
            Over(units, quota) * rate.0 < U64
  {
    var product, den := Over(units, quota) * rate.0, AtLeastOne(rate.1);
    if product >= U64 {
      assert product % U64 + U64 <= product;
      DivMonotone(product % U64, product, den);
    }
  }

  /** Just past the 64-bit range the bill falls. */
  lemma BillWraps(rate: (nat, nat)) returns (last: nat)
    requires 0 < rate.0 && rate.0 + AtLeastOne(rate.1) <= U64
    ensures last * rate.0 < U64 <= (last + 1) * rate.0 && Priced(last + 1, rate) < Priced(last, rate)
  {
    last := (U64 - 1) / rate.0;
    var product := last * rate.0;
    assert (last + 1) * rate.0 == product + rate.0;
    assert U64 - 1 == last * rate.0 + (U64 - 1) % rate.0;
    assert (product + rate.0) % U64 == product + rate.0 - U64;
    DivMonotone(product + rate.0 - U64, product, AtLeastOne(rate.1));
  }

  lemma PriceRises(few: nat, many: nat, rate: (nat, nat))
    requires few <= many && many * rate.0 < U64
    ensures Priced(few, rate) <= Priced(many, rate)
  {
    MulMonotone(few, many, rate.0);
    DivMonotone(few * rate.0, many * rate.0, AtLeastOne(rate.1));
  }

  lemma BillRises(top: nat, quota: Option<nat>, rate: (nat, nat), u: nat, v: nat)
    requires Over(top, quota) * rate.0 < U64 && u <= v <= top
    ensures Billable(u, quota, rate) <= Billable(v, quota, rate)
  {
    MulMonotone(Over(v, quota), Over(top, quota), rate.0);
    PriceRises(Over(u, quota), Over(v, quota), rate);
  }

  lemma BillFalls(top: nat, quota: Option<nat>, rate: (nat, nat)) returns (u: nat, v: nat)
    requires 0 < rate.0 && rate.0 + AtLeastOne(rate.1) <= U64 && Over(top, quota) * rate.0 >= U64
    ensures u <= v <= top && Billable(v, quota, rate) < Billable(u, quota, rate)
  {
    var last := BillWraps(rate);
    if Over(top, quota) <= last {
      MulMonotone(Over(top, quota), last, rate.0);
      assert false;
    }
    var free := if quota.Some? then quota.value else 0;
    u, v := free + last, free + last + 1;
    assert Over(u, quota) == last && Over(v, quota) == last + 1;
  }

  ghost predicate NeverFalls(top: nat, quota: Option<nat>, rate: (nat, nat)) {
    forall u: nat, v: nat :: u <= v <= top ==> Billable(u, quota, rate) <= Billable(v, quota, rate)
  }

  lemma FreeTierIsFree(u: nat, quota: Option<nat>, rate: (nat, nat))
    requires quota.Some? && u <= quota.value
    ensures Billable(u, quota, rate) == 0
  {
    assert Over(u, quota) * rate.0 == 0;
  }

  lemma FitsNeverFalls(top: nat, quota: Option<nat>, rate: (nat, nat))
    requires Over(top, quota) * rate.0 < U64
    ensures NeverFalls(top, quota, rate)
  {
    forall u: nat, v: nat | u <= v <= top
      ensures Billable(u, quota, rate) <= Billable(v, quota, rate)
    {
      BillRises(top, quota, rate, u, v);
    }
  }

  lemma WrapFalls(top: nat, quota: Option<nat>, rate: (nat, nat))
    requires rate.0 + AtLeastOne(rate.1) <= U64 && Over(top, quota) * rate.0 >= U64
    ensures !NeverFalls(top, quota, rate)
  {
    var u, v := BillFalls(top, quota, rate);
  }

  /** Nothing is billed inside the free tier. Up to `top` units the bill never falls as units grow when
      the price of the units past the allotment fits in 64 bits; and only then, unless numerator and
      denominator of the rate together exceed the range. */
  lemma BillableGrowsFromZero(top: nat, quota: Option<nat>, rate: (nat, nat))
    ensures forall u: nat :: quota.Some? && u <= quota.value ==> Billable(u, quota, rate) == 0
    ensures Over(top, quota) * rate.0 < U64 ==> NeverFalls(top, quota, rate)
    ensures NeverFalls(top, quota, rate) && rate.0 + AtLeastOne(rate.1) <= U64 ==> Over(top, quota) * rate.0 < U64
  {
    forall u: nat | quota.Some? && u <= quota.value
      ensures Billable(u, quota, rate) == 0
    {
      FreeTierIsFree(u, quota, rate);
    }
    if Over(top, quota) * rate.0 < U64 {
      FitsNeverFalls(top, quota, rate);
    } else if rate.0 + AtLeastOne(rate.1) <= U64 {
      WrapFalls(top, quota, rate);
    }
  }

  /** A rate beyond that for which the price wraps and nothing is ever billed. */
  lemma HugeRateNeverBills(units: nat)
    ensures Priced(units, (U64 - 2, U64 - 1)) == 0
  {
    var product := units * (U64 - 2);
    var half := units * (U64 / 2 - 1);
    assert product == 2 * half;
    assert product % U64 != U64 - 1;
  }

  /** Without a quota, and while the price of the units fits in 64 bits, the bill on the accumulated
      units never undercuts the money recorded call by call, and exceeds it by less than one
      micro-USD per call. */
  lemma BillAgreesWithRecordedMoney(model: CostModel, steps: seq<MeterStep>)
    requires Interleaving(model, EMPTY_ACCOUNT, steps)
    requires Metered(model, EMPTY_ACCOUNT, steps).owing == []
    ensures var a := Metered(model, EMPTY_ACCOUNT, steps);
            a.unitsEver < U64 && a.unitsEver * Rate(model).0 < U64 ==>
              var bill := Billable(a.units, None, Rate(model));
              a.money <= bill && (a.calls > 0 ==> bill < a.money + a.calls)
  {
    MoneyWithinOneMicroPerCall(model, steps);
    CountersAreExact(model, steps);
    var a := Metered(model, EMPTY_ACCOUNT, steps);
    var (num, den) := Rate(model);
    if a.unitsEver < U64 && a.unitsEver * num < U64 {
      assert a.moneyEver <= a.moneyEver * den;
      BillIsExact(a.units, None, (num, den));
      QuotientBetween(a.moneyEver, a.unitsEver * num, den, a.calls);
    }
  }

  lemma QuotientBetween(low: nat, product: nat, den: nat, calls: nat)
    requires den > 0 && low * den <= product
    ensures low <= product / den
    ensures product < (low + calls) * den ==> product / den < low + calls
  {
    DivMonotone(low * den, product, den);
    assert low * den / den == low;
    assert product == product / den * den + product % den;
    if product < (low + calls) * den && product / den >= low + calls {
      MulMonotone(low + calls, product / den, den);
    }
  }

  /** What is left of a quota and what has been used of it make it up. */
  lemma RemainingMeans(units: nat, quota: Option<nat>)
    ensures Remaining(units, quota).None? <==> quota.None?
    ensures quota.Some? ==> Remaining(units, quota).value + (if units <= quota.value then units else quota.value) == quota.value
    ensures quota.Some? && units >= quota.value ==> Exhausted(units, quota)
  {
  }

  /** Recording more spend keeps every exhausted quota exhausted exactly when the 64-bit unit
      counter does not wrap. */
  lemma ExhaustionPersists(units: nat, spent: nat)
    requires units < U64 && spent < U64
    ensures (forall quota :: Exhausted(units, quota) ==> Exhausted((units + spent) % U64, quota)) <==>
            units + spent < U64
  {
    if units + spent >= U64 {
      assert (units + spent) % U64 == units + spent - U64;
      assert Exhausted(units, Some(units)) && !Exhausted((units + spent) % U64, Some(units));
    }
  }
}
