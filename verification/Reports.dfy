// The two summaries: the grouping queries, the loops over their rows, and what the
// revenue amounts to over a whole run.
module Reports {
  import opened Domain
  import opened Tables
  import opened System
  import opened Invariants
  import opened Proofs
  import opened Sums

  datatype WasteCount = WasteCount(kind: PickupType, status: PickupStatus, count: nat)

  datatype WasteSummary = WasteSummary(counts: seq<WasteCount>, total: nat)

  datatype StatusTotal = StatusTotal(status: PaymentStatus, count: nat, amount: Cents)

  datatype PaymentSummary = PaymentSummary(totals: seq<StatusTotal>, totalRevenue: Cents)

  // ---------------------------------------------------------------- the order of the text columns

  const KINDS := [Electronic, Organic, Paper, Plastic]

  const STATUSES := [PickupCanceled, PickupCompleted, PickupPending, PickupScheduled]

  const PAYMENT_STATUSES := [PaymentFailed, PaymentPaid, PaymentPending]

  function KindOrder(kind: PickupType): (n: nat)
    ensures n < 4 && KINDS[n] == kind
  {
    match kind
    case Electronic => 0
    case Organic => 1
    case Paper => 2
    case Plastic => 3
  }

  function StatusOrder(status: PickupStatus): (n: nat)
    ensures n < 4 && STATUSES[n] == status
  {
    match status
    case PickupCanceled => 0
    case PickupCompleted => 1
    case PickupPending => 2
    case PickupScheduled => 3
  }

  function PaymentStatusOrder(status: PaymentStatus): (n: nat)
    ensures n < 3 && PAYMENT_STATUSES[n] == status
  {
    match status
    case PaymentFailed => 0
    case PaymentPaid => 1
    case PaymentPending => 2
  }

  function KindText(kind: PickupType): string {
    match kind
    case Organic => "organic"
    case Plastic => "plastic"
    case Paper => "paper"
    case Electronic => "electronic"
  }

  function StatusText(status: PickupStatus): string {
    match status
    case PickupPending => "pending"
    case PickupScheduled => "scheduled"
    case PickupCompleted => "completed"
    case PickupCanceled => "canceled"
  }

  function PaymentStatusText(status: PaymentStatus): string {
    match status
    case PaymentPending => "pending"
    case PaymentPaid => "paid"
    case PaymentFailed => "failed"
  }

  // The first place where two of these texts differ is within their first three letters.
  predicate Before(a: string, b: string)
    requires |a| > 2 && |b| > 2
  {
    if a[0] != b[0] then a[0] < b[0]
    else if a[1] != b[1] then a[1] < b[1]
    else a[2] < b[2]
  }

  datatype GroupKey = GroupKey(kind: PickupType, status: PickupStatus)

  function GroupOrder(g: GroupKey): nat {
    4 * KindOrder(g.kind) + StatusOrder(g.status)
  }

  function GroupAt(n: nat): (g: GroupKey)
    requires n < 16
    ensures GroupOrder(g) == n
  {
    GroupKey(KINDS[n / 4], STATUSES[n % 4])
  }

  lemma GroupOrderInjective(g: GroupKey, h: GroupKey)
    ensures GroupOrder(g) == GroupOrder(h) <==> g == h
  {
    assert GroupOrder(g) / 4 == KindOrder(g.kind) && GroupOrder(h) / 4 == KindOrder(h.kind);
  }

  lemma KindsAlphabetical(k: PickupType, l: PickupType)
    ensures KindOrder(k) < KindOrder(l) <==> Before(KindText(k), KindText(l))
  {
  }

  lemma StatusesAlphabetical(a: PickupStatus, b: PickupStatus)
    ensures StatusOrder(a) < StatusOrder(b) <==> Before(StatusText(a), StatusText(b))
  {
  }

  // The order of the rows is alphabetical in the texts the columns hold.
  lemma GroupsAlphabetical(g: GroupKey, h: GroupKey)
    ensures GroupOrder(g) < GroupOrder(h) <==>
      || Before(KindText(g.kind), KindText(h.kind))
      || (g.kind == h.kind && Before(StatusText(g.status), StatusText(h.status)))
  {
    KindsAlphabetical(g.kind, h.kind);
    KindsAlphabetical(h.kind, g.kind);
    StatusesAlphabetical(g.status, h.status);
    assert KindOrder(g.kind) == KindOrder(h.kind) <==> g.kind == h.kind;
  }

  lemma PaymentStatusesAlphabetical(p: PaymentStatus, q: PaymentStatus)
    ensures PaymentStatusOrder(p) < PaymentStatusOrder(q) <==> Before(PaymentStatusText(p), PaymentStatusText(q))
  {
  }

  // ---------------------------------------------------------------- pickups by type and status

  function Group(t: Tables, g: GroupKey): set<Id> {
    set i | i in t.pickups && KeyOf(t.pickups[i]) == g
  }

  function KeyOf(p: Pickup): GroupKey {
    GroupKey(p.kind, p.status)
  }

  function RowKey(r: WasteCount): GroupKey {
    GroupKey(r.kind, r.status)
  }

  ghost predicate Listed(rows: seq<WasteCount>, g: GroupKey) {
    exists i :: 0 <= i < |rows| && RowKey(rows[i]) == g
  }

  // Rows in ascending order, none of them empty, all below `bound`.
  ghost predicate AscendingGroups(t: Tables, rows: seq<WasteCount>, bound: nat) {
    && (forall i, j :: 0 <= i < j < |rows| ==> GroupOrder(RowKey(rows[i])) < GroupOrder(RowKey(rows[j])))
    && (forall i :: 0 <= i < |rows| ==>
          GroupOrder(RowKey(rows[i])) < bound && 0 < rows[i].count == |Group(t, RowKey(rows[i]))|)
  }

  // What counting by type and status in order answers: groups ascending, so no pair
  // twice; never an empty group; and no row left out.
  ghost predicate IsWasteQuery(t: Tables, rows: seq<WasteCount>) {
    && AscendingGroups(t, rows, 16)
    && (forall p :: p in t.pickups ==> Listed(rows, KeyOf(t.pickups[p])))
  }

  lemma ListedAppend(rows: seq<WasteCount>, r: WasteCount, g: GroupKey)
    ensures Listed(rows + [r], g) <==> Listed(rows, g) || RowKey(r) == g
  {
    if Listed(rows, g) {
      var i :| 0 <= i < |rows| && RowKey(rows[i]) == g;
      assert (rows + [r])[i] == rows[i];
    }
    assert (rows + [r])[|rows|] == r;
  }

  method QueryWasteCounts(t: Tables) returns (rows: seq<WasteCount>)
    ensures IsWasteQuery(t, rows)
  {
    rows := [];
    for n := 0 to 16
      invariant AscendingGroups(t, rows, n)
      invariant forall p :: p in t.pickups && GroupOrder(KeyOf(t.pickups[p])) < n ==> Listed(rows, KeyOf(t.pickups[p]))
    {
      var g := GroupAt(n);
      var group := Group(t, g);
      ghost var before := rows;
      if |group| > 0 {
        rows := rows + [WasteCount(g.kind, g.status, |group|)];
      }
      forall p | p in t.pickups && GroupOrder(KeyOf(t.pickups[p])) < n + 1
        ensures Listed(rows, KeyOf(t.pickups[p]))
      {
        GroupOrderInjective(KeyOf(t.pickups[p]), g);
        if KeyOf(t.pickups[p]) == g {
          assert p in group;
        }
        ListedAppend(before, WasteCount(g.kind, g.status, |group|), KeyOf(t.pickups[p]));
      }
    }
  }

  function Total(rows: seq<WasteCount>): nat {
    if rows == [] then 0 else Total(rows[..|rows| - 1]) + rows[|rows| - 1].count
  }

  ghost function Counted(t: Tables, rows: seq<WasteCount>): set<Id> {
    set p | p in t.pickups && Listed(rows, KeyOf(t.pickups[p]))
  }

  lemma {:induction false} TotalCounts(t: Tables, rows: seq<WasteCount>, bound: nat)
    requires AscendingGroups(t, rows, bound)
    ensures Total(rows) == |Counted(t, rows)|
  {
    if rows == [] {
      assert Counted(t, rows) == {};
    } else {
      var front, last := rows[..|rows| - 1], rows[|rows| - 1];
      TotalCounts(t, front, GroupOrder(RowKey(last)));
      assert rows == front + [last];
      CountedAppend(t, front, last);
    }
  }

  lemma CountedAppend(t: Tables, front: seq<WasteCount>, last: WasteCount)
    requires AscendingGroups(t, front, GroupOrder(RowKey(last)))
    ensures |Counted(t, front + [last])| == |Counted(t, front)| + |Group(t, RowKey(last))|
  {
    forall p | p in t.pickups
      ensures p in Counted(t, front + [last]) <==> p in Counted(t, front) || p in Group(t, RowKey(last))
    {
      ListedAppend(front, last, KeyOf(t.pickups[p]));
    }
    assert Counted(t, front + [last]) == Counted(t, front) + Group(t, RowKey(last));
    assert Counted(t, front) !! Group(t, RowKey(last));
  }

  // The groups add up to the whole table.
  lemma TotalIsAll(t: Tables, rows: seq<WasteCount>)
    requires IsWasteQuery(t, rows)
    ensures Total(rows) == |t.pickups|
  {
    TotalCounts(t, rows, 16);
    assert Counted(t, rows) == t.pickups.Keys;
  }

  // The loop of the repository that appends one domain value for every row.
  method Collect<T>(rows: seq<T>) returns (items: seq<T>)
    ensures items == rows
  {
    items := [];
    for i := 0 to |rows|
      invariant items == rows[..i]
    {
      items := items + [rows[i]];
    }
  }

  // The loop of the report service over the rows it was given.
  method AddCounts(counts: seq<WasteCount>) returns (total: nat)
    ensures total == Total(counts)
  {
    total := 0;
    for i := 0 to |counts|
      invariant total == Total(counts[..i])
    {
      assert counts[..i + 1][..i] == counts[..i];
      total := total + counts[i].count;
    }
    assert counts[..|counts|] == counts;
  }

  method SummarizeWaste(t: Tables) returns (s: WasteSummary)
    ensures IsWasteQuery(t, s.counts) && s.total == |t.pickups|
  {
    var collected := QueryWasteCounts(t);
    var counts := Collect(collected);
    var total := AddCounts(counts);
    TotalIsAll(t, collected);
    s := WasteSummary(counts, total);
  }

  // ---------------------------------------------------------------- payments by status

  function PaymentsWith(t: Tables, status: PaymentStatus): set<Id> {
    set b | b in t.payments && t.payments[b].status == status
  }

  ghost function AmountsOf(t: Tables, group: set<Id>): map<nat, int>
    requires group <= t.payments.Keys
  {
    map b | b in group :: t.payments[b].amount
  }

  ghost function AmountsWith(t: Tables, status: PaymentStatus): map<nat, int> {
    AmountsOf(t, PaymentsWith(t, status))
  }

  ghost predicate ListsStatus(rows: seq<StatusTotal>, status: PaymentStatus) {
    exists i :: 0 <= i < |rows| && rows[i].status == status
  }

  // Rows in ascending order, none of them empty, all below `bound`.
  ghost predicate AscendingStatuses(t: Tables, rows: seq<StatusTotal>, bound: nat) {
    && (forall i, j :: 0 <= i < j < |rows| ==> PaymentStatusOrder(rows[i].status) < PaymentStatusOrder(rows[j].status))
    && (forall i :: 0 <= i < |rows| ==> PaymentStatusOrder(rows[i].status) < bound && TotalOk(t, rows[i]))
  }

  ghost predicate TotalOk(t: Tables, r: StatusTotal) {
    0 < r.count == |PaymentsWith(t, r.status)| && r.amount == Sum(AmountsWith(t, r.status))
  }

  // What counting and adding up by status in order answers.
  ghost predicate IsPaymentQuery(t: Tables, rows: seq<StatusTotal>) {
    && AscendingStatuses(t, rows, 3)
    && (forall b :: b in t.payments ==> ListsStatus(rows, t.payments[b].status))
  }

  lemma ListsStatusAppend(rows: seq<StatusTotal>, r: StatusTotal, status: PaymentStatus)
    ensures ListsStatus(rows + [r], status) <==> ListsStatus(rows, status) || r.status == status
  {
    if ListsStatus(rows, status) {
      var i :| 0 <= i < |rows| && rows[i].status == status;
      assert (rows + [r])[i] == rows[i];
    }
    assert (rows + [r])[|rows|] == r;
  }

  // sum(amount) over the group, in whatever order the database visits it
  method SumAmounts(t: Tables, group: set<Id>) returns (amount: Cents)
    requires group <= t.payments.Keys
    ensures amount == Sum(AmountsOf(t, group))
  {
    amount := 0;
    var rest := group;
    ghost var seen: map<nat, int> := map[];
    while rest != {}
      invariant rest <= group
      invariant seen == AmountsOf(t, group - rest)
      invariant amount == Sum(seen)
      decreases rest
    {
      var b :| b in rest;
      SumInsert(seen, b, t.payments[b].amount);
      amount := amount + t.payments[b].amount;
      rest := rest - {b};
      seen := seen[b := t.payments[b].amount];
    }
    assert group - rest == group;
  }

  method QueryPaymentTotals(t: Tables) returns (rows: seq<StatusTotal>)
    ensures IsPaymentQuery(t, rows)
  {
    rows := [];
    for n := 0 to 3
      invariant AscendingStatuses(t, rows, n)
      invariant forall b :: b in t.payments && PaymentStatusOrder(t.payments[b].status) < n ==>
        ListsStatus(rows, t.payments[b].status)
    {
      var status := PAYMENT_STATUSES[n];
      var group := PaymentsWith(t, status);
      var amount := SumAmounts(t, group);
      var row := StatusTotal(status, |group|, amount);
      ghost var before := rows;
      if |group| > 0 {
        rows := rows + [row];
      }
      forall b | b in t.payments && PaymentStatusOrder(t.payments[b].status) < n + 1
        ensures ListsStatus(rows, t.payments[b].status)
      {
        if PaymentStatusOrder(t.payments[b].status) == n {
          assert b in group;
        }
        ListsStatusAppend(before, row, t.payments[b].status);
      }
    }
  }

  function Revenue(rows: seq<StatusTotal>): Cents {
    if rows == [] then 0
    else
      var last := rows[|rows| - 1];
      Revenue(rows[..|rows| - 1]) + if last.status == PaymentPaid then last.amount else 0
  }

  // At most one of the rows is the paid one.
  lemma {:induction false} RevenueOfRows(t: Tables, rows: seq<StatusTotal>, bound: nat)
    requires AscendingStatuses(t, rows, bound)
    ensures Revenue(rows) == if ListsStatus(rows, PaymentPaid) then Sum(AmountsWith(t, PaymentPaid)) else 0
  {
    if rows != [] {
      var front, last := rows[..|rows| - 1], rows[|rows| - 1];
      RevenueOfRows(t, front, PaymentStatusOrder(last.status));
      assert rows == front + [last];
      ListsStatusAppend(front, last, PaymentPaid);
    }
  }

  lemma RevenueIsPaid(t: Tables, rows: seq<StatusTotal>)
    requires IsPaymentQuery(t, rows)
    ensures Revenue(rows) == Sum(AmountsWith(t, PaymentPaid))
  {
    RevenueOfRows(t, rows, 3);
    if !ListsStatus(rows, PaymentPaid) {
      assert AmountsWith(t, PaymentPaid) == map[];
    }
  }

  // The loop of the report service over the rows it was given.
  method AddRevenue(totals: seq<StatusTotal>) returns (revenue: Cents)
    ensures revenue == Revenue(totals)
  {
    revenue := 0;
    for i := 0 to |totals|
      invariant revenue == Revenue(totals[..i])
    {
      assert totals[..i + 1][..i] == totals[..i];
      if totals[i].status == PaymentPaid {
        revenue := revenue + totals[i].amount;
      }
    }
    assert totals[..|totals|] == totals;
  }

  method SummarizePayments(t: Tables) returns (s: PaymentSummary)
    ensures IsPaymentQuery(t, s.totals) && s.totalRevenue == Sum(AmountsWith(t, PaymentPaid))
  {
    var collected := QueryPaymentTotals(t);
    var totals := Collect(collected);
    var revenue := AddRevenue(totals);
    RevenueIsPaid(t, collected);
    s := PaymentSummary(totals, revenue);
  }

  // ---------------------------------------------------------------- revenue over a run

  ghost predicate Won(c: Client) {
    c.request.Confirm? && WonConfirm(c, c.request.id)
  }

  ghost function Winners(s: System): set<ClientId> {
    set k | k in s.clients && Won(s.clients[k])
  }

  // The pickup a payment bills.
  ghost predicate BillsKind(t: Tables, b: Id, electronic: bool) {
    && b in t.payments && t.payments[b].wasteId in t.pickups
    && (t.pickups[t.payments[b].wasteId].kind == Electronic <==> electronic)
  }

  ghost function PriceConfirmed(cfg: Config, s: System, k: ClientId): Cents
    requires k in Winners(s)
  {
    if BillsKind(s.tables, s.clients[k].request.id, true) then cfg.pricing.electronic else cfg.pricing.standard
  }

  ghost function PricesConfirmed(cfg: Config, s: System): map<nat, int> {
    map k | k in Winners(s) :: PriceConfirmed(cfg, s, k)
  }

  ghost function PaymentOf(s: System): map<nat, nat> {
    map k | k in Winners(s) :: s.clients[k].request.id
  }

  lemma WinnerPaid(cfg: Config, s: System, k: ClientId)
    requires Reachable(cfg, s) && k in Winners(s)
    ensures PaymentOf(s)[k] in AmountsWith(s.tables, PaymentPaid)
    ensures AmountsWith(s.tables, PaymentPaid)[PaymentOf(s)[k]] == PricesConfirmed(cfg, s)[k]
  {
    var b := PaymentOf(s)[k];
    assert HasWinner(s.clients, b);
    PaidByItsWinner(cfg, s, b);
    ReachableInv(cfg, s);
    assert BillOk(cfg.pricing, s.tables, s.tables.payments[b]);
  }

  lemma PaidHasWinner(cfg: Config, s: System, b: Id)
    requires Reachable(cfg, s) && b in AmountsWith(s.tables, PaymentPaid)
    ensures exists k :: k in PaymentOf(s) && PaymentOf(s)[k] == b
  {
    PaidByItsWinner(cfg, s, b);
    var k :| k in s.clients && WonConfirm(s.clients[k], b);
    assert k in PaymentOf(s) && PaymentOf(s)[k] == b;
  }

  // At every moment of every run the reported revenue is the sum, over all the
  // confirmations that succeeded so far, of the price of the pickup they were for.
  lemma RevenueIsWhatWasConfirmed(cfg: Config, s: System)
    requires Reachable(cfg, s)
    ensures Sum(AmountsWith(s.tables, PaymentPaid)) == Sum(PricesConfirmed(cfg, s))
  {
    var f := PaymentOf(s);
    forall k | k in f
      ensures f[k] in AmountsWith(s.tables, PaymentPaid)
      ensures AmountsWith(s.tables, PaymentPaid)[f[k]] == PricesConfirmed(cfg, s)[k]
    {
      WinnerPaid(cfg, s, k);
    }
    forall k, l | k in f && l in f && f[k] == f[l]
      ensures k == l
    {
      OneWinner(cfg, s, f[k], k, l);
    }
    forall b | b in AmountsWith(s.tables, PaymentPaid)
      ensures exists k :: k in f && f[k] == b
    {
      PaidHasWinner(cfg, s, b);
    }
    SumRename(PricesConfirmed(cfg, s), AmountsWith(s.tables, PaymentPaid), f);
  }

  ghost function PaidFor(t: Tables, electronic: bool): set<Id> {
    set b | b in PaymentsWith(t, PaymentPaid) && BillsKind(t, b, electronic)
  }

  // So it is the standard price times the paid pickups that are not electronic plus
  // the electronic price times those that are.
  lemma RevenueByPrice(cfg: Config, s: System)
    requires Reachable(cfg, s)
    ensures Sum(AmountsWith(s.tables, PaymentPaid)) ==
      cfg.pricing.standard * |PaidFor(s.tables, false)| + cfg.pricing.electronic * |PaidFor(s.tables, true)|
  {
    ReachableInv(cfg, s);
    SplitByPrice(cfg.pricing, s.tables);
  }

  lemma SplitByPrice(pricing: Pricing, t: Tables)
    requires forall b :: b in t.payments ==> BillOk(pricing, t, t.payments[b])
    ensures Sum(AmountsWith(t, PaymentPaid)) ==
      pricing.standard * |PaidFor(t, false)| + pricing.electronic * |PaidFor(t, true)|
  {
    var paid := PaymentsWith(t, PaymentPaid);
    var plain := map b | b in paid :: if b in PaidFor(t, false) then 1 else 0;
    var electronic := map b | b in paid :: if b in PaidFor(t, true) then 1 else 0;
    SumCounts(plain, PaidFor(t, false));
    SumCounts(electronic, PaidFor(t, true));
    forall b | b in paid
      ensures AmountsWith(t, PaymentPaid)[b] == pricing.standard * plain[b] + pricing.electronic * electronic[b]
    {
      PricedOnce(pricing, t, b);
    }
    SumLinear(plain, electronic, AmountsWith(t, PaymentPaid), pricing.standard, pricing.electronic);
  }

  lemma PricedOnce(pricing: Pricing, t: Tables, b: Id)
    requires b in PaymentsWith(t, PaymentPaid) && BillOk(pricing, t, t.payments[b])
    ensures b in PaidFor(t, true) <==> b !in PaidFor(t, false)
    ensures t.payments[b].amount == if b in PaidFor(t, true) then pricing.electronic else pricing.standard
  {
  }
}
