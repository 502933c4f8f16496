/** The sparse-embedding planner: packs feature slots into shared weight tables.

    Slots are sorted by (group key, size).  A table `cost[p][s]` holds the cheapest way to put the first
    `s` sorted slots into `p` tables, each holding a contiguous run of one key; `mark[p][s]` remembers where
    the last run starts.  A walk back over `mark` then lays out the tables. */
module SlotPlanner {
  import opened Permutations

  /** `sys.maxsize // 2` on a 64-bit platform: the planner's "infinity". */
  const MAX_INT: int := 0x3fff_ffff_ffff_ffff

  const MAX_SLOTS: nat := 1024
  const MAX_SLOTS_V2: nat := 32768

  /** One row of the slot list.  Group keys are only compared, so any totally ordered key will do. */
  datatype Slot = Slot(id: int, size: int, hashSize: int, key: int)

  function MaxSlot(useFidV2: bool): nat {
    if useFidV2 then MAX_SLOTS_V2 else MAX_SLOTS
  }

  /** What the planner's callers supply: ids inside the slot tables, each used once, positive sizes. */
  ghost predicate WellFormed(slots: seq<Slot>, maxSlot: nat) {
    && (forall i :: 0 <= i < |slots| ==>
          0 <= slots[i].id < maxSlot && 0 < slots[i].size && 0 < slots[i].hashSize)
    && (forall i, j :: 0 <= i < j < |slots| ==> slots[i].id != slots[j].id)
  }

  // ---------------------------------------------------------------- sorting

  predicate Before(a: Slot, b: Slot) {
    a.key < b.key || (a.key == b.key && a.size <= b.size)
  }

  ghost predicate Sorted(q: seq<Slot>) {
    forall i, j :: 0 <= i <= j < |q| ==> Before(q[i], q[j])
  }

  function Insert(x: Slot, q: seq<Slot>): (r: seq<Slot>)
    ensures multiset(r) == multiset(q) + multiset{x}
  {
    if q == [] || Before(x, q[0]) then
      [x] + q
    else
      assert q == [q[0]] + q[1..];
      [q[0]] + Insert(x, q[1..])
  }

  lemma {:induction false} InsertKeepsSorted(x: Slot, q: seq<Slot>)
    requires Sorted(q)
    ensures Sorted(Insert(x, q))
  {
    if q != [] && !Before(x, q[0]) {
      InsertKeepsSorted(x, q[1..]);
      var rest := Insert(x, q[1..]);
      forall j | 0 <= j < |rest| ensures Before(q[0], rest[j]) {
        assert rest[j] in multiset(rest);
        assert rest[j] == x || rest[j] in q[1..];
      }
    }
  }

  /** The stable sort by (key, size). */
  function SortSlots(slots: seq<Slot>): (r: seq<Slot>)
    ensures multiset(r) == multiset(slots)
    ensures Sorted(r)
    ensures |r| == |slots|
  {
    if slots == [] then
      []
    else
      assert slots == [slots[0]] + slots[1..];
      InsertKeepsSorted(slots[0], SortSlots(slots[1..]));
      var r := Insert(slots[0], SortSlots(slots[1..]));
      assert |r| == |multiset(r)| == |multiset(slots)|;
      r
  }

  // ---------------------------------------------------------------- the recurrence

  /** Rows needed by the run [k, s) of sorted slots. */
  function HashSum(q: seq<Slot>, k: nat, s: nat): int
    requires k <= s <= |q|
    decreases s - k
  {
    if k == s then 0 else q[k].hashSize + HashSum(q, k + 1, s)
  }

  /** Cheapest layout of the first `s` slots in at most `p` tables, capped at MAX_INT. */
  ghost function Best(q: seq<Slot>, p: nat, s: nat): int
    requires s <= |q|
    decreases p, 2, 0
  {
    if s == 0 then 0 else if p == 0 then MAX_INT else BestFrom(q, p, s, 0)
  }

  /** The minimum over last runs starting at `k` or later. */
  ghost function BestFrom(q: seq<Slot>, p: nat, s: nat, k: nat): int
    requires 1 <= p && 1 <= s <= |q| && k <= s
    decreases p, 1, s - k
  {
    if k == s then MAX_INT
    else
      var rest := BestFrom(q, p, s, k + 1);
      if q[k].key == q[s - 1].key && Split(q, p, s, k) < rest then Split(q, p, s, k) else rest
  }

  /** The cost when the last table is the run [k, s). */
  ghost function Split(q: seq<Slot>, p: nat, s: nat, k: nat): int
    requires 1 <= p && k < s <= |q|
    decreases p, 0, 0
  {
    Best(q, p - 1, k) + q[s - 1].size * HashSum(q, k, s)
  }

  /** The largest start that attains the minimum, or -1 when nothing is below MAX_INT. */
  ghost function MarkFrom(q: seq<Slot>, p: nat, s: nat, k: nat): int
    requires 1 <= p && 1 <= s <= |q| && k <= s
    decreases s - k
  {
    if k == s then -1
    else if q[k].key == q[s - 1].key && Split(q, p, s, k) < BestFrom(q, p, s, k + 1) then k
    else MarkFrom(q, p, s, k + 1)
  }

  ghost function Mark(q: seq<Slot>, p: nat, s: nat): int
    requires s <= |q|
  {
    if p == 0 || s == 0 then -1 else MarkFrom(q, p, s, 0)
  }

  lemma {:induction false} BestFromIsLowerBound(q: seq<Slot>, p: nat, s: nat, j: nat, k: nat)
    requires 1 <= p && j <= k < s <= |q| && q[k].key == q[s - 1].key
    ensures BestFrom(q, p, s, j) <= Split(q, p, s, k)
    decreases k - j
  {
    if j < k {
      BestFromIsLowerBound(q, p, s, j + 1, k);
    }
  }

  lemma {:induction false} MarkAttains(q: seq<Slot>, p: nat, s: nat, j: nat)
    requires 1 <= p && 1 <= s <= |q| && j <= s
    ensures BestFrom(q, p, s, j) <= MAX_INT
    ensures BestFrom(q, p, s, j) == MAX_INT <==> MarkFrom(q, p, s, j) == -1
    ensures var m := MarkFrom(q, p, s, j);
            m != -1 ==> j <= m < s && q[m].key == q[s - 1].key && Split(q, p, s, m) == BestFrom(q, p, s, j)
    decreases s - j
  {
    if j < s {
      MarkAttains(q, p, s, j + 1);
    }
  }

  /** Below a slot of another key nothing can join the last run. */
  lemma {:induction false} NothingBelowKeyChange(q: seq<Slot>, p: nat, s: nat, j: nat, k: nat)
    requires Sorted(q)
    requires 1 <= p && j <= k < s <= |q| && q[k].key != q[s - 1].key
    ensures BestFrom(q, p, s, j) == BestFrom(q, p, s, k + 1)
    ensures MarkFrom(q, p, s, j) == MarkFrom(q, p, s, k + 1)
    decreases k - j
  {
    assert Before(q[j], q[k]) && Before(q[k], q[s - 1]);
    if j < k {
      NothingBelowKeyChange(q, p, s, j + 1, k);
    }
  }

  // ---------------------------------------------------------------- the tables are used exactly

  /** With at least as many tables as slots, one more table does not help. */
  lemma {:induction false} MoreTablesThanSlots(q: seq<Slot>, p: nat, s: nat)
    requires s <= p && s <= |q|
    ensures Best(q, p, s) <= Best(q, p + 1, s)
    decreases s
  {
    if s > 0 {
      MarkAttains(q, p + 1, s, 0);
      MarkAttains(q, p, s, 0);
      var m := MarkFrom(q, p + 1, s, 0);
      if m != -1 {
        MoreTablesThanSlots(q, p - 1, m);
        BestFromIsLowerBound(q, p, s, 0, m);
      }
    }
  }

  /** While the earlier tables outnumber their slots, giving them one more slot costs nothing. */
  lemma {:induction false} StartOneLater(q: seq<Slot>, p: nat, s: nat, m: nat)
    requires Sorted(q) && forall i :: 0 <= i < |q| ==> 0 <= q[i].hashSize
    requires 2 <= p <= s <= |q| && m < p - 1 && q[m].key == q[s - 1].key
    ensures q[m + 1].key == q[s - 1].key
    ensures Split(q, p, s, m + 1) <= Split(q, p, s, m)
  {
    assert Before(q[m], q[m + 1]) && Before(q[m + 1], q[s - 1]) && Before(q[m], q[s - 1]);
    MoreTablesThanSlots(q, p - 2, m);
    BestFromIsLowerBound(q, p - 1, m + 1, 0, m);
    assert HashSum(q, m, m + 1) == q[m].hashSize;
    ScaleUp(q[m].size, q[s - 1].size, q[m].hashSize);
    Distribute(q[s - 1].size, q[m].hashSize, HashSum(q, m + 1, s));
  }

  /** Breaking ties towards the largest start leaves enough slots for the remaining tables. */
  lemma {:induction false} MarkLeavesEnoughSlots(q: seq<Slot>, p: nat, s: nat)
    requires Sorted(q) && forall i :: 0 <= i < |q| ==> 0 <= q[i].hashSize
    requires 1 <= p <= s <= |q| && Best(q, p, s) < MAX_INT
    ensures p - 1 <= Mark(q, p, s) < s
    ensures q[Mark(q, p, s)].key == q[s - 1].key
    ensures Split(q, p, s, Mark(q, p, s)) == Best(q, p, s)
  {
    MarkAttains(q, p, s, 0);
    MarkBeatsLater(q, p, s, 0);
    var m := Mark(q, p, s);
    if m < p - 1 {
      StartOneLater(q, p, s, m);
      BestFromIsLowerBound(q, p, s, m + 1, m + 1);
    }
  }

  lemma Distribute(c: int, a: int, b: int)
    ensures c * (a + b) == c * a + c * b
  {
  }

  lemma ScaleUp(a: int, b: int, h: int)
    requires a <= b && 0 <= h
    ensures a * h <= b * h
  {
  }

  /** The chosen start is strictly better than every later one. */
  lemma {:induction false} MarkBeatsLater(q: seq<Slot>, p: nat, s: nat, j: nat)
    requires 1 <= p && 1 <= s <= |q| && j <= s
    ensures var m := MarkFrom(q, p, s, j); m != -1 ==> j <= m < s && Split(q, p, s, m) < BestFrom(q, p, s, m + 1)
    decreases s - j
  {
    if j < s {
      MarkBeatsLater(q, p, s, j + 1);
    }
  }

  // ---------------------------------------------------------------- any grouping whatsoever

  /** An assignment of slot ids to table labels below `tables` that never mixes group keys. */
  ghost predicate Grouping(slots: seq<Slot>, a: map<int, int>, tables: nat) {
    && (forall i :: 0 <= i < |slots| ==> slots[i].id in a && 0 <= a[slots[i].id] < tables)
    && (forall i, j :: 0 <= i < |slots| && 0 <= j < |slots| && a[slots[i].id] == a[slots[j].id] ==>
          slots[i].key == slots[j].key)
  }

  ghost predicate Labelled(slots: seq<Slot>, a: map<int, int>) {
    forall i :: 0 <= i < |slots| ==> slots[i].id in a
  }

  /** The width of table `g`: the widest slot in it. */
  ghost function TableWidth(slots: seq<Slot>, a: map<int, int>, g: int): int
    requires Labelled(slots, a)
  {
    if slots == [] then 0
    else
      var rest := TableWidth(slots[..|slots| - 1], a, g);
      var last := slots[|slots| - 1];
      if a[last.id] == g && last.size > rest then last.size else rest
  }

  /** The rows of table `g`: the hash ranges of its slots, stacked. */
  ghost function TableRows(slots: seq<Slot>, a: map<int, int>, g: int): int
    requires Labelled(slots, a)
  {
    if slots == [] then 0
    else
      var last := slots[|slots| - 1];
      TableRows(slots[..|slots| - 1], a, g) + if a[last.id] == g then last.hashSize else 0
  }

  /** Total weights held by the tables of an assignment. */
  ghost function Cost(slots: seq<Slot>, a: map<int, int>, tables: nat): int
    requires Labelled(slots, a)
  {
    if tables == 0 then 0
    else Cost(slots, a, tables - 1) + TableWidth(slots, a, tables - 1) * TableRows(slots, a, tables - 1)
  }

  // ------------------------------------ the cost does not depend on the order of the slots

  lemma {:induction false} WidthIsMax(slots: seq<Slot>, a: map<int, int>, g: int)
    requires Labelled(slots, a)
    ensures 0 <= TableWidth(slots, a, g)
    ensures forall x :: x in slots && a[x.id] == g ==> x.size <= TableWidth(slots, a, g)
    ensures TableWidth(slots, a, g) > 0 ==>
              exists x :: x in slots && a[x.id] == g && x.size == TableWidth(slots, a, g)
  {
    if slots != [] {
      var front, last := slots[..|slots| - 1], slots[|slots| - 1];
      assert slots == front + [last];
      WidthIsMax(front, a, g);
    }
  }

  lemma {:induction false} RowsWithout(slots: seq<Slot>, a: map<int, int>, g: int, i: nat)
    requires Labelled(slots, a) && i < |slots|
    ensures Labelled(slots[..i] + slots[i + 1..], a)
    ensures TableRows(slots, a, g)
         == TableRows(slots[..i] + slots[i + 1..], a, g) + if a[slots[i].id] == g then slots[i].hashSize else 0
  {
    var n := |slots| - 1;
    var without := slots[..i] + slots[i + 1..];
    if i == n {
      assert without == slots[..n];
    } else {
      RowsWithout(slots[..n], a, g, i);
      assert without[..|without| - 1] == slots[..n][..i] + slots[..n][i + 1..];
      assert without[|without| - 1] == slots[n];
    }
  }

  lemma {:induction false} RowsOfPermutation(x: seq<Slot>, y: seq<Slot>, a: map<int, int>, g: int)
    requires multiset(x) == multiset(y) && Labelled(x, a) && Labelled(y, a)
    ensures TableRows(x, a, g) == TableRows(y, a, g)
  {
    SameElements(x, y);
    if x != [] {
      var i := MatchLast(x, y);
      RowsWithout(y, a, g, i);
      RowsOfPermutation(x[..|x| - 1], y[..i] + y[i + 1..], a, g);
    }
  }

  lemma {:induction false} CostOfPermutation(x: seq<Slot>, y: seq<Slot>, a: map<int, int>, tables: nat)
    requires multiset(x) == multiset(y) && Labelled(x, a) && Labelled(y, a)
    ensures Cost(x, a, tables) == Cost(y, a, tables)
  {
    if tables > 0 {
      CostOfPermutation(x, y, a, tables - 1);
      RowsOfPermutation(x, y, a, tables - 1);
      WidthIsMax(x, a, tables - 1);
      WidthIsMax(y, a, tables - 1);
      SameElements(x, y);
    }
  }

  // ------------------------------------ the cost, paid slot by slot

  /** What the first `s` slots pay when a row of slot `i` is `price[i]` wide. */
  ghost function Paid(q: seq<Slot>, price: seq<int>, s: nat): int
    requires s <= |q| == |price|
  {
    if s == 0 then 0 else Paid(q, price, s - 1) + q[s - 1].hashSize * price[s - 1]
  }

  /** Sum of width times rows over the tables, for given widths. */
  ghost function WidthTimesRows(slots: seq<Slot>, a: map<int, int>, width: seq<int>, tables: nat): int
    requires Labelled(slots, a) && tables <= |width|
  {
    if tables == 0 then 0
    else WidthTimesRows(slots, a, width, tables - 1) + width[tables - 1] * TableRows(slots, a, tables - 1)
  }

  lemma {:induction false} OneMoreSlot(slots: seq<Slot>, a: map<int, int>, width: seq<int>, tables: nat)
    requires Labelled(slots, a) && tables <= |width| && slots != []
    requires 0 <= a[slots[|slots| - 1].id] < |width|
    ensures var last := slots[|slots| - 1];
            WidthTimesRows(slots, a, width, tables)
              == WidthTimesRows(slots[..|slots| - 1], a, width, tables)
                 + if a[last.id] < tables then last.hashSize * width[a[last.id]] else 0
  {
    if tables > 0 {
      OneMoreSlot(slots, a, width, tables - 1);
      var last, g := slots[|slots| - 1], tables - 1;
      var rows := TableRows(slots[..|slots| - 1], a, g);
      if a[last.id] == g {
        Distribute(width[g], rows, last.hashSize);
      }
    }
  }

  lemma {:induction false} CostIsPaid(q: seq<Slot>, a: map<int, int>, width: seq<int>, price: seq<int>, s: nat)
    requires Grouping(q, a, |width|)
    requires |price| == |q| && forall i :: 0 <= i < |q| ==> price[i] == width[a[q[i].id]]
    requires s <= |q|
    ensures WidthTimesRows(q[..s], a, width, |width|) == Paid(q, price, s)
  {
    if s == 0 {
      NoRowsNoCost(a, width, |width|);
    } else {
      assert q[..s][..s - 1] == q[..s - 1];
      OneMoreSlot(q[..s], a, width, |width|);
      CostIsPaid(q, a, width, price, s - 1);
    }
  }

  lemma {:induction false} NoRowsNoCost(a: map<int, int>, width: seq<int>, tables: nat)
    requires tables <= |width|
    ensures WidthTimesRows([], a, width, tables) == 0
  {
    if tables > 0 {
      NoRowsNoCost(a, width, tables - 1);
    }
  }

  lemma {:induction false} CostIsWidthTimesRows(q: seq<Slot>, a: map<int, int>, width: seq<int>, tables: nat)
    requires Labelled(q, a) && tables <= |width|
    requires forall g :: 0 <= g < |width| ==> width[g] == TableWidth(q, a, g)
    ensures WidthTimesRows(q, a, width, tables) == Cost(q, a, tables)
  {
    if tables > 0 {
      CostIsWidthTimesRows(q, a, width, tables - 1);
    }
  }

  // ------------------------------------ contiguous runs are enough: the exchange argument

  /** Slot `l` shares slot `i`'s key, does not come before it, and is no wider than the price `i` pays. */
  ghost predicate Leads(q: seq<Slot>, price: seq<int>, i: nat, l: nat) {
    i <= l < |q| == |price| && q[l].key == q[i].key && q[l].size <= price[i]
  }

  ghost predicate HasLeader(q: seq<Slot>, price: seq<int>, leaders: set<nat>, i: nat) {
    exists l :: l in leaders && Leads(q, price, i, l)
  }

  lemma Largest(ls: set<nat>) returns (m: nat)
    requires ls != {}
    ensures m in ls && forall l :: l in ls ==> l <= m
    decreases ls
  {
    var x :| x in ls;
    m := x;
    if ls != {x} {
      var rest := Largest(ls - {x});
      assert forall l :: l in ls ==> l == x || l in ls - {x};
      m := if rest > x then rest else x;
    }
  }

  lemma {:induction false} PaidAtLeast(q: seq<Slot>, price: seq<int>, width: int, k: nat, s: nat)
    requires k <= s <= |q| == |price|
    requires forall i :: 0 <= i < |q| ==> 0 <= q[i].hashSize
    requires forall i :: k <= i < s ==> width <= price[i]
    ensures Paid(q, price, s) >= Paid(q, price, k) + width * HashSum(q, k, s)
    decreases s - k
  {
    if k < s {
      PaidAtLeast(q, price, width, k + 1, s);
      ScaleUp(width, price[k], q[k].hashSize);
      Distribute(width, q[k].hashSize, HashSum(q, k + 1, s));
    }
  }

  /** If every slot pays for some leader at or after it, and there are at most `p` leaders, then the slots
      pay at least as much as the best layout in `p` contiguous runs. */
  lemma {:induction false} LeadersPayForRuns(q: seq<Slot>, price: seq<int>, leaders: set<nat>, p: nat, s: nat)
    requires Sorted(q) && forall i :: 0 <= i < |q| ==> 0 <= q[i].hashSize
    requires s <= |q| == |price| && |leaders| <= p
    requires forall l :: l in leaders ==> l < s
    requires forall i: nat :: i < s ==> HasLeader(q, price, leaders, i)
    ensures Best(q, p, s) <= Paid(q, price, s)
    decreases p
  {
    if s > 0 {
      var top: nat := s - 1;
      assert HasLeader(q, price, leaders, top);
      var l :| l in leaders && Leads(q, price, top, l);
      assert l == top;
      var others := leaders - {top};
      var k := 0;
      if others != {} {
        var m := Largest(others);
        k := m + 1;
      }
      forall i: nat | k <= i < s ensures q[i].key == q[top].key && q[top].size <= price[i] {
        assert HasLeader(q, price, leaders, i);
        var l :| l in leaders && Leads(q, price, i, l);
        assert l == top || l in others;
      }
      PaidAtLeast(q, price, q[top].size, k, s);
      forall i: nat | i < k ensures HasLeader(q, price, others, i) {
        assert HasLeader(q, price, leaders, i);
        var l :| l in leaders && Leads(q, price, i, l);
        if l == top {
          assert Before(q[i], q[k - 1]) && Before(q[k - 1], q[top]);
          assert k - 1 in others && Leads(q, price, i, k - 1);
        } else {
          assert l in others;
        }
      }
      LeadersPayForRuns(q, price, others, p - 1, k);
      BestFromIsLowerBound(q, p, s, 0, k);
    }
  }

  /** The position of the last slot labelled `g` among the first `s`, or -1. */
  ghost function LastOf(q: seq<Slot>, a: map<int, int>, g: int, s: nat): (r: int)
    requires Labelled(q, a) && s <= |q|
    ensures r == -1 || (0 <= r < s && a[q[r].id] == g)
    ensures forall i :: 0 <= i < s && a[q[i].id] == g ==> i <= r
  {
    if s == 0 then -1 else if a[q[s - 1].id] == g then s - 1 else LastOf(q, a, g, s - 1)
  }

  /** The last slots of the first `tables` labels. */
  ghost function Leaders(q: seq<Slot>, a: map<int, int>, tables: nat): (r: set<nat>)
    requires Labelled(q, a)
    ensures |r| <= tables
    ensures forall l :: l in r ==> l < |q|
  {
    if tables == 0 then {}
    else
      var last := LastOf(q, a, tables - 1, |q|);
      Leaders(q, a, tables - 1) + if last == -1 then {} else {last}
  }

  lemma {:induction false} EverySlotHasLeader(q: seq<Slot>, a: map<int, int>, tables: nat, i: nat) returns (l: nat)
    requires Labelled(q, a) && i < |q| && 0 <= a[q[i].id] < tables
    ensures l in Leaders(q, a, tables) && i <= l < |q| && a[q[l].id] == a[q[i].id]
  {
    if a[q[i].id] == tables - 1 {
      l := LastOf(q, a, tables - 1, |q|);
    } else {
      l := EverySlotHasLeader(q, a, tables - 1, i);
    }
  }

  /** No grouping of the sorted slots, contiguous or not, beats the recurrence. */
  lemma BestIsOptimal(q: seq<Slot>, a: map<int, int>, tables: nat, p: nat)
    requires Sorted(q) && forall i :: 0 <= i < |q| ==> 0 <= q[i].hashSize
    requires Grouping(q, a, tables)
    requires p == if tables < |q| then tables else |q|
    ensures Best(q, p, |q|) <= Cost(q, a, tables)
  {
    var width := seq(tables, g => TableWidth(q, a, g));
    var price := seq(|q|, i requires 0 <= i < |q| => width[a[q[i].id]]);
    CostIsPaid(q, a, width, price, |q|);
    assert q[..|q|] == q;
    CostIsWidthTimesRows(q, a, width, tables);
    var leaders := Leaders(q, a, tables);
    BoundedSet(leaders, |q|);
    forall i: nat | i < |q| ensures HasLeader(q, price, leaders, i) {
      LeaderOf(q, a, tables, price, i);
    }
    hide *;
    LeadersPayForRuns(q, price, leaders, p, |q|);
  }

  lemma LeaderOf(q: seq<Slot>, a: map<int, int>, tables: nat, price: seq<int>, i: nat)
    requires Grouping(q, a, tables) && i < |q| == |price| && price[i] == TableWidth(q, a, a[q[i].id])
    ensures HasLeader(q, price, Leaders(q, a, tables), i)
  {
    var l := EverySlotHasLeader(q, a, tables, i);
    WidthIsMax(q, a, a[q[l].id]);
    assert q[l] in q;
    hide Leaders, TableWidth;
    assert Leads(q, price, i, l);
  }

  lemma {:induction false} BoundedSet(s: set<nat>, n: nat)
    requires forall x :: x in s ==> x < n
    ensures |s| <= n
  {
    if n > 0 {
      BoundedSet(s - {n - 1}, n - 1);
    } else {
      assert s == {};
    }
  }

  // ---------------------------------------------------------------- filling the tables

  /** The nested loops over tables `p`, slots `s` and candidate starts `k`. */
  method FillTables(q: seq<Slot>, groups: nat) returns (cost: array2<int>, mark: array2<int>)
    requires Sorted(q)
    ensures fresh(cost) && fresh(mark)
    ensures cost.Length0 == mark.Length0 == groups + 1 && cost.Length1 == mark.Length1 == |q| + 1
    ensures forall p, s :: 0 <= p <= groups && 0 <= s <= |q| ==> cost[p, s] == Best(q, p, s)
    ensures forall p, s :: 0 <= p <= groups && 0 <= s <= |q| ==> mark[p, s] == Mark(q, p, s)
  {
    var n := |q|;
    cost := new int[groups + 1, n + 1]((_, _) => MAX_INT);
    mark := new int[groups + 1, n + 1]((_, _) => -1);
    for p := 0 to groups + 1
      invariant forall p', s :: 0 <= p' <= groups && 0 <= s <= n ==>
                  cost[p', s] == (if p' < p && s == 0 then 0 else MAX_INT) && mark[p', s] == -1
    {
      cost[p, 0] := 0;
    }
    for p := 1 to groups + 1
      invariant forall p', s :: 0 <= p' < p && 0 <= s <= n ==>
                  cost[p', s] == Best(q, p', s) && mark[p', s] == Mark(q, p', s)
      invariant forall p', s :: p <= p' <= groups && 0 <= s <= n ==>
                  cost[p', s] == (if s == 0 then 0 else MAX_INT) && mark[p', s] == -1
    {
      for s := 1 to n + 1
        invariant forall p', s' :: 0 <= p' < p && 0 <= s' <= n ==>
                    cost[p', s'] == Best(q, p', s') && mark[p', s'] == Mark(q, p', s')
        invariant forall s' :: 0 <= s' < s ==> cost[p, s'] == Best(q, p, s') && mark[p, s'] == Mark(q, p, s')
        invariant forall s' :: s <= s' <= n ==> mark[p, s'] == -1
        invariant forall p', s' :: p < p' <= groups && 0 <= s' <= n ==>
                    cost[p', s'] == (if s' == 0 then 0 else MAX_INT) && mark[p', s'] == -1
      {
        FillOne(q, groups, cost, mark, p, s);
      }
    }
  }

  /** The innermost loop: the best last run for `p` tables and `s` slots, searched from its shortest form. */
  method FillOne(q: seq<Slot>, ghost groups: nat, cost: array2<int>, mark: array2<int>, p: nat, s: nat)
    requires Sorted(q) && 1 <= p <= groups && 1 <= s <= |q| && cost != mark
    requires cost.Length0 == mark.Length0 == groups + 1 && cost.Length1 == mark.Length1 == |q| + 1
    requires forall p', s' :: p' == p - 1 && 0 <= s' <= |q| ==> cost[p', s'] == Best(q, p', s')
    requires mark[p, s] == -1
    modifies cost, mark
    ensures cost[p, s] == Best(q, p, s) && mark[p, s] == Mark(q, p, s)
    ensures forall p', s' :: 0 <= p' <= groups && 0 <= s' <= |q| && (p' != p || s' != s) ==>
              cost[p', s'] == old(cost[p', s']) && mark[p', s'] == old(mark[p', s'])
  {
    var size, hashSize, groupKey := q[s - 1].size, q[s - 1].hashSize, q[s - 1].key;
    var minCost := MAX_INT;
    var k := s - 1;
    assert HashSum(q, s - 1, s) == q[s - 1].hashSize;
    while k >= 0
      invariant -1 <= k < s
      invariant 0 <= k ==> hashSize == HashSum(q, k, s)
      invariant minCost == BestFrom(q, p, s, k + 1) && mark[p, s] == MarkFrom(q, p, s, k + 1)
      invariant forall p', s' :: 0 <= p' <= groups && 0 <= s' <= |q| ==>
                  cost[p', s'] == old(cost[p', s']) && (p' != p || s' != s ==> mark[p', s'] == old(mark[p', s']))
    {
      if q[k].key != groupKey {
        NothingBelowKeyChange(q, p, s, 0, k);
        break;
      }
      var c := cost[p - 1, k] + size * hashSize;
      if c < minCost {
        minCost := c;
        mark[p, s] := k;
      }
      // At k == 0 the list index -1 wraps around to the last slot; the sum is not used again.
      hashSize := hashSize + q[if k == 0 then |q| - 1 else k - 1].hashSize;
      k := k - 1;
    }
    cost[p, s] := minCost;
  }

  // ---------------------------------------------------------------- walking back

  /** Run `g` of a list of cuts is non-empty and of one key. */
  ghost predicate RunAt(q: seq<Slot>, cut: seq<nat>, g: nat)
    requires g < |cut| - 1
  {
    && cut[g] < cut[g + 1] <= |q|
    && forall i :: cut[g] <= i < cut[g + 1] ==> q[i].key == q[cut[g + 1] - 1].key
  }

  /** Consecutive cuts of the sorted slots into non-empty runs of one key each. */
  ghost predicate Runs(q: seq<Slot>, cut: seq<nat>) {
    && cut != [] && cut[|cut| - 1] == |q|
    && forall g: nat :: g < |cut| - 1 ==> RunAt(q, cut, g)
  }

  /** The weights held by the tables of those runs. */
  ghost function RunsCost(q: seq<Slot>, cut: seq<nat>): int
    requires Runs(q, cut)
  {
    if |cut| == 1 then 0
    else
      assert RunAt(q, cut, 0);
      RunsOfTail(q, cut);
      q[cut[1] - 1].size * HashSum(q, cut[0], cut[1]) + RunsCost(q, cut[1..])
  }

  lemma RunsOfTail(q: seq<Slot>, cut: seq<nat>)
    requires Runs(q, cut) && |cut| > 1
    ensures Runs(q, cut[1..])
  {
    var tail := cut[1..];
    forall g: nat | g < |tail| - 1 ensures RunAt(q, tail, g) {
      assert RunAt(q, cut, g + 1);
    }
  }

  lemma PrependRun(q: seq<Slot>, tail: seq<nat>, m: nat, s: nat)
    requires Sorted(q) && Runs(q, tail) && m < s == tail[0] <= |q| && q[m].key == q[s - 1].key
    ensures Runs(q, [m] + tail)
    ensures RunsCost(q, [m] + tail) == q[s - 1].size * HashSum(q, m, s) + RunsCost(q, tail)
  {
    var cut := [m] + tail;
    forall g: nat | g < |cut| - 1 ensures RunAt(q, cut, g) {
      if g > 0 {
        assert RunAt(q, tail, g - 1);
      } else {
        forall i | m <= i < s ensures q[i].key == q[s - 1].key {
          assert Before(q[m], q[i]) && Before(q[i], q[s - 1]);
        }
      }
    }
    assert cut[1..] == tail;
  }

  lemma {:induction false} CutsIncrease(q: seq<Slot>, cut: seq<nat>, g: nat, h: nat)
    requires Runs(q, cut) && g <= h < |cut|
    ensures cut[g] <= cut[h] <= |q|
    decreases |cut| - g
  {
    if g < |cut| - 1 {
      assert RunAt(q, cut, g);
      CutsIncrease(q, cut, g + 1, if h == g then g + 1 else h);
    }
  }

  /** The lists the walk fills in: per table its width, rows and key; per slot id its table and first row. */
  datatype Tables = Tables(sizes: seq<int>, rows: seq<int>, keys: seq<int>, index: seq<int>, offset: seq<int>) {
    ghost predicate Shaped(tables: nat, maxSlot: nat) {
      |sizes| == |rows| == |keys| == tables && |index| == |offset| == maxSlot
    }
  }

  /** Table `g` holds the run [lo, hi), its slots stacked in sorted order. */
  ghost predicate Holds(q: seq<Slot>, lo: nat, hi: nat, g: nat, t: Tables)
    requires lo < hi <= |q| && t.Shaped(|t.sizes|, |t.index|) && WellFormed(q, |t.index|)
  {
    && g < |t.sizes|
    && t.sizes[g] == q[hi - 1].size && t.keys[g] == q[hi - 1].key && t.rows[g] == HashSum(q, lo, hi)
    && forall i :: lo <= i < hi ==> t.index[q[i].id] == g && t.offset[q[i].id] == HashSum(q, lo, i)
  }

  /** Every run of `cut` is held by its table, the first of them by table `p`. */
  ghost predicate HoldsRuns(q: seq<Slot>, cut: seq<nat>, p: nat, t: Tables)
    requires Runs(q, cut) && t.Shaped(|t.sizes|, |t.index|) && WellFormed(q, |t.index|)
  {
    forall g: nat :: g < |cut| - 1 ==> RunAt(q, cut, g) && Holds(q, cut[g], cut[g + 1], p + g, t)
  }

  /** The two lists of slots agree on every id that is not in the run [m, s). */
  ghost predicate SameOutside(q: seq<Slot>, m: nat, s: nat, t0: Tables, t: Tables)
    requires m <= s <= |q| && |t0.index| == |t0.offset| == |t.index| == |t.offset|
  {
    forall id :: 0 <= id < |t.index| && (forall i :: m <= i < s ==> q[i].id != id) ==>
      t.index[id] == t0.index[id] && t.offset[id] == t0.offset[id]
  }

  /** A later run keeps its table when the run [m, s) is placed into another one. */
  lemma StillHolds(q: seq<Slot>, m: nat, s: nat, p: nat, t0: Tables, t: Tables, lo: nat, hi: nat, h: nat)
    requires m < s <= lo < hi <= |q| && h != p
    requires t0.Shaped(|t0.sizes|, |t0.index|) && t.Shaped(|t0.sizes|, |t0.index|) && WellFormed(q, |t0.index|)
    requires Holds(q, lo, hi, h, t0) && SameOutside(q, m, s, t0, t) && p < |t.sizes|
    requires t.sizes == t0.sizes[p := t.sizes[p]] && t.rows == t0.rows[p := t.rows[p]]
    requires t.keys == t0.keys[p := t.keys[p]]
    ensures Holds(q, lo, hi, h, t)
  {
    hide HashSum;
    forall i | lo <= i < hi ensures t.index[q[i].id] == h && t.offset[q[i].id] == HashSum(q, lo, i) {
      assert forall j :: m <= j < s ==> q[j].id != q[i].id;
    }
  }

  /** Placing the run [m, s) into table `p` leaves the tables after it as they were. */
  lemma WalkStep(q: seq<Slot>, tail: seq<nat>, m: nat, s: nat, p: nat, t0: Tables, t: Tables)
    requires Runs(q, tail) && m < s == tail[0] <= |q| && Runs(q, [m] + tail)
    requires t0.Shaped(|t0.sizes|, |t0.index|) && t.Shaped(|t0.sizes|, |t0.index|) && WellFormed(q, |t0.index|)
    requires HoldsRuns(q, tail, p + 1, t0)
    requires Holds(q, m, s, p, t) && SameOutside(q, m, s, t0, t)
    requires t.sizes == t0.sizes[p := t.sizes[p]] && t.rows == t0.rows[p := t.rows[p]]
    requires t.keys == t0.keys[p := t.keys[p]]
    ensures HoldsRuns(q, [m] + tail, p, t)
  {
    forall g: nat | g < |tail| - 1 ensures RunAt(q, tail, g) && Holds(q, tail[g], tail[g + 1], p + 1 + g, t) {
      assert RunAt(q, tail, g) && Holds(q, tail[g], tail[g + 1], p + 1 + g, t0);
      CutsIncrease(q, tail, 0, g);
      assert p < |t.sizes|;
      hide *;
      StillHolds(q, m, s, p, t0, t, tail[g], tail[g + 1], p + 1 + g);
    }
    OneRunMore(q, tail, m, p, t);
  }

  lemma OneRunMore(q: seq<Slot>, tail: seq<nat>, m: nat, p: nat, t: Tables)
    requires Runs(q, tail) && m < tail[0] <= |q| && Runs(q, [m] + tail)
    requires t.Shaped(|t.sizes|, |t.index|) && WellFormed(q, |t.index|)
    requires HoldsRuns(q, tail, p + 1, t) && Holds(q, m, tail[0], p, t)
    ensures HoldsRuns(q, [m] + tail, p, t)
  {
    var cut := [m] + tail;
    hide Holds, WellFormed;
    forall g: nat | g < |cut| - 1 ensures RunAt(q, cut, g) && Holds(q, cut[g], cut[g + 1], p + g, t) {
      assert RunAt(q, cut, g);
      if g > 0 {
        var h: nat := g - 1;
        assert RunAt(q, tail, h) && Holds(q, tail[h], tail[h + 1], p + 1 + h, t);
      }
    }
  }

  /** The walk with `p` tables and `s` slots still to place. */
  ghost predicate Walked(q: seq<Slot>, groups: nat, maxSlot: nat, p: nat, s: nat, cut: seq<nat>, t: Tables)
    requires WellFormed(q, maxSlot)
  {
    && p <= s <= |q| && p <= groups <= |q| && t.Shaped(groups, maxSlot)
    && Best(q, p, s) < MAX_INT
    && Runs(q, cut) && |cut| == groups - p + 1 && cut[0] == s
    && Best(q, p, s) + RunsCost(q, cut) == Best(q, groups, |q|)
    && (forall g :: 0 <= g < p ==> t.rows[g] == 0)
    && HoldsRuns(q, cut, p, t)
    && Blank(q, s, t)
  }

  /** Ids that none of the slots from `s` on has still have no table. */
  ghost predicate Blank(q: seq<Slot>, s: nat, t: Tables) {
    forall id :: 0 <= id < |t.index| && (forall i :: s <= i < |q| ==> q[i].id != id) ==> t.index[id] == -1
  }

  lemma BlankStep(q: seq<Slot>, m: nat, s: nat, t0: Tables, t: Tables)
    requires m <= s <= |q| && |t0.index| == |t0.offset| == |t.index| == |t.offset|
    requires SameOutside(q, m, s, t0, t) && Blank(q, s, t0)
    ensures Blank(q, m, t)
  {
    forall id | 0 <= id < |t.index| && (forall i :: m <= i < |q| ==> q[i].id != id) ensures t.index[id] == -1 {
      assert forall i :: s <= i < |q| ==> q[i].id != id;
    }
  }

  lemma WalkedStep(q: seq<Slot>, groups: nat, maxSlot: nat, p: nat, s: nat, cut: seq<nat>, m: nat, t0: Tables,
                   t: Tables)
    requires WellFormed(q, maxSlot) && Sorted(q) && p > 0 && Walked(q, groups, maxSlot, p, s, cut, t0)
    requires m == Mark(q, p, s) && m < s && t.Shaped(groups, maxSlot)
    requires Holds(q, m, s, p - 1, t) && SameOutside(q, m, s, t0, t)
    requires t.sizes == t0.sizes[p - 1 := t.sizes[p - 1]] && t.rows == t0.rows[p - 1 := t.rows[p - 1]]
    requires t.keys == t0.keys[p - 1 := t.keys[p - 1]]
    ensures Walked(q, groups, maxSlot, p - 1, m, [m] + cut, t)
  {
    hide Holds, Best, Blank, SameOutside;
    MarkLeavesEnoughSlots(q, p, s);
    HashSumNonNegative(q, m, s);
    ScaleUp(0, q[s - 1].size, HashSum(q, m, s));
    PrependRun(q, cut, m, s);
    WalkStep(q, cut, m, s, p - 1, t0, t);
    BlankStep(q, m, s, t0, t);
  }

  /** What the next step of the walk relies on. */
  lemma WalkGoesOn(q: seq<Slot>, groups: nat, maxSlot: nat, p: nat, s: nat, cut: seq<nat>, t: Tables)
    requires WellFormed(q, maxSlot) && Walked(q, groups, maxSlot, p, s, cut, t) && 0 < p
    ensures p <= s <= |q| && p <= groups <= |q| && Best(q, p, s) < MAX_INT
    ensures t.Shaped(groups, maxSlot) && |t.rows| == groups && t.rows[p - 1] == 0
  {
    hide Best, Runs, HoldsRuns, Blank, RunsCost;
  }

  lemma WalkStarts(q: seq<Slot>, groups: nat, maxSlot: nat, t: Tables)
    requires WellFormed(q, maxSlot) && groups <= |q| && Best(q, groups, |q|) < MAX_INT
    requires t.Shaped(groups, maxSlot) && t.index == seq(maxSlot, _ => -1) && t.rows == seq(groups, _ => 0)
    ensures Walked(q, groups, maxSlot, groups, |q|, [|q|], t)
  {
    hide Best;
  }

  lemma WalkEnds(q: seq<Slot>, groups: nat, maxSlot: nat, s: nat, cut: seq<nat>, t: Tables)
    requires WellFormed(q, maxSlot) && Walked(q, groups, maxSlot, 0, s, cut, t)
    ensures s == 0 && RunsCost(q, cut) == Best(q, groups, |q|)
  {
    hide Blank, HoldsRuns, RunAt;
  }

  lemma {:induction false} HashSumNonNegative(q: seq<Slot>, k: nat, s: nat)
    requires k <= s <= |q| && forall i :: 0 <= i < |q| ==> 0 <= q[i].hashSize
    ensures 0 <= HashSum(q, k, s)
    decreases s - k
  {
    if k < s {
      HashSumNonNegative(q, k + 1, s);
    }
  }

  lemma {:induction false} HashSumLast(q: seq<Slot>, k: nat, s: nat)
    requires k < s <= |q|
    ensures HashSum(q, k, s) == HashSum(q, k, s - 1) + q[s - 1].hashSize
    decreases s - k
  {
    if k < s - 1 {
      HashSumLast(q, k + 1, s);
    }
  }

  /** One table of the walk: records its width and key, and stacks the slots of the run [m, s). */
  method PlaceRun(q: seq<Slot>, m: nat, s: nat, g: nat, sizes: array<int>, rows: array<int>, keys: array<int>,
                  index: array<int>, offset: array<int>)
    requires m < s <= |q| && g < sizes.Length == rows.Length == keys.Length && index.Length == offset.Length
    requires sizes != rows && sizes != keys && sizes != index && sizes != offset
    requires rows != keys && rows != index && rows != offset && keys != index && keys != offset && index != offset
    requires WellFormed(q, index.Length)
    requires rows[g] == 0
    modifies sizes, rows, keys, index, offset
    ensures Holds(q, m, s, g, Tables(sizes[..], rows[..], keys[..], index[..], offset[..]))
    ensures sizes[..] == old(sizes[..])[g := sizes[g]] && rows[..] == old(rows[..])[g := rows[g]]
    ensures keys[..] == old(keys[..])[g := keys[g]]
    ensures SameOutside(q, m, s, old(Tables(sizes[..], rows[..], keys[..], index[..], offset[..])),
                        Tables(sizes[..], rows[..], keys[..], index[..], offset[..]))
  {
    sizes[g] := q[s - 1].size;
    keys[g] := q[s - 1].key;
    assert HashSum(q, m, m) == 0;
    hide HashSum;
    for i := m + 1 to s + 1
      invariant sizes[..] == old(sizes[..])[g := q[s - 1].size] && keys[..] == old(keys[..])[g := q[s - 1].key]
      invariant rows[..] == old(rows[..])[g := HashSum(q, m, i - 1)]
      invariant forall j :: m <= j < i - 1 ==> index[q[j].id] == g && offset[q[j].id] == HashSum(q, m, j)
      invariant forall id :: 0 <= id < index.Length && (forall j :: m <= j < i - 1 ==> q[j].id != id) ==>
                  index[id] == old(index[id]) && offset[id] == old(offset[id])
    {
      assert rows[..][g] == HashSum(q, m, i - 1);
      index[q[i - 1].id] := g;
      offset[q[i - 1].id] := rows[g];
      HashSumLast(q, m, i);
      rows[g] := rows[g] + q[i - 1].hashSize;
    }
  }

  /** The walk from (groups, |q|) down the marks. */
  method WalkBack(q: seq<Slot>, groups: nat, mark: array2<int>, maxSlot: nat)
    returns (t: Tables, ghost cut: seq<nat>)
    requires Sorted(q) && WellFormed(q, maxSlot)
    requires groups <= |q| && Best(q, groups, |q|) < MAX_INT
    requires mark.Length0 == groups + 1 && mark.Length1 == |q| + 1
    requires forall p, s :: 0 <= p <= groups && 0 <= s <= |q| ==> mark[p, s] == Mark(q, p, s)
    ensures Runs(q, cut) && |cut| == groups + 1 && cut[0] == 0
    ensures RunsCost(q, cut) == Best(q, groups, |q|)
    ensures t.Shaped(groups, maxSlot) && HoldsRuns(q, cut, 0, t)
    ensures Blank(q, 0, t)
  {
    hide Holds, Blank, SameOutside, Best, RunAt;
    var sizes, rows, keys := new int[groups](_ => 0), new int[groups](_ => 0), new int[groups](_ => 0);
    var index, offset := new int[maxSlot](_ => -1), new int[maxSlot](_ => 0);
    var p: nat, s: nat := groups, |q|;
    cut := [|q|];
    t := Tables(sizes[..], rows[..], keys[..], index[..], offset[..]);
    assert t.rows == seq(groups, _ => 0) && t.index == seq(maxSlot, _ => -1);
    WalkStarts(q, groups, maxSlot, t);
    hide *;
    while p > 0
      invariant t == Tables(sizes[..], rows[..], keys[..], index[..], offset[..])
      invariant Walked(q, groups, maxSlot, p, s, cut, t)
    {
      WalkGoesOn(q, groups, maxSlot, p, s, cut, t);
      var m := mark[p, s];
      MarkLeavesEnoughSlots(q, p, s);
      PlaceRun(q, m, s, p - 1, sizes, rows, keys, index, offset);
      ghost var t0 := t;
      t := Tables(sizes[..], rows[..], keys[..], index[..], offset[..]);
      WalkedStep(q, groups, maxSlot, p, s, cut, m, t0, t);
      cut := [m] + cut;
      p := p - 1;
      s := m;
    }
    WalkEnds(q, groups, maxSlot, s, cut, t);
  }

  // ---------------------------------------------------------------- the finished configuration

  /** The dictionary the planner returns. */
  datatype SlotConfig = SlotConfig(
    numGroups: nat, weightSizes: seq<int>, weightGroupKeys: seq<int>, weightHashSizes: seq<int>,
    slotSize: seq<int>, slotWeightIndex: seq<int>, slotOutputOffset: seq<int>, slotHashSize: seq<int>,
    slotWeightOffset: seq<int>, outputSize: int)
  {
    /** Row `r` of table `w` is one of those set aside for slot `x`. */
    ghost predicate OwnsRow(x: Slot, w: int, r: int)
      requires 0 <= x.id < |slotWeightIndex| == |slotWeightOffset|
    {
      slotWeightIndex[x.id] == w && slotWeightOffset[x.id] <= r < slotWeightOffset[x.id] + x.hashSize
    }

    /** Output column `c` is one of those set aside for slot `x`. */
    ghost predicate OwnsColumn(x: Slot, c: int)
      requires 0 <= x.id < |slotOutputOffset|
    {
      slotOutputOffset[x.id] <= c < slotOutputOffset[x.id] + x.size
    }

    ghost predicate Shaped(maxSlot: nat) {
      && |weightSizes| == |weightGroupKeys| == |weightHashSizes| == numGroups
      && |slotSize| == |slotWeightIndex| == |slotOutputOffset| == |slotHashSize| == |slotWeightOffset| == maxSlot
    }

    /** Slot `x` is described by the slot lists and lies inside a table of its own key that is wide enough. */
    ghost predicate Fits(x: Slot)
      requires 0 <= x.id < |slotSize| && Shaped(|slotSize|)
    {
      && slotSize[x.id] == x.size && slotHashSize[x.id] == x.hashSize
      && 0 <= slotWeightIndex[x.id] < numGroups
      && weightGroupKeys[slotWeightIndex[x.id]] == x.key && x.size <= weightSizes[slotWeightIndex[x.id]]
      && 0 <= slotWeightOffset[x.id]
      && slotWeightOffset[x.id] + x.hashSize <= weightHashSizes[slotWeightIndex[x.id]]
      && 0 <= slotOutputOffset[x.id] && slotOutputOffset[x.id] + x.size <= outputSize
    }
  }

  ghost predicate RowOwned(slots: seq<Slot>, c: SlotConfig, w: int, r: int)
    requires WellFormed(slots, |c.slotSize|) && c.Shaped(|c.slotSize|)
  {
    exists x :: x in slots && c.OwnsRow(x, w, r)
  }

  ghost predicate ColumnOwned(slots: seq<Slot>, c: SlotConfig, k: int)
    requires WellFormed(slots, |c.slotSize|) && c.Shaped(|c.slotSize|)
  {
    exists x :: x in slots && c.OwnsColumn(x, k)
  }

  /** The layout: every slot fits its table, each row of each table and each output column belongs to exactly
      one slot, and ids without a slot are marked absent. */
  ghost predicate Layout(slots: seq<Slot>, maxSlot: nat, c: SlotConfig)
    requires WellFormed(slots, maxSlot)
  {
    && c.Shaped(maxSlot)
    && (forall x :: x in slots ==> c.Fits(x))
    && (forall w, r :: 0 <= w < c.numGroups && 0 <= r < c.weightHashSizes[w] ==> RowOwned(slots, c, w, r))
    && (forall x, y, w, r :: x in slots && y in slots && c.OwnsRow(x, w, r) && c.OwnsRow(y, w, r) ==> x == y)
    && (forall k :: 0 <= k < c.outputSize ==> ColumnOwned(slots, c, k))
    && (forall x, y, k :: x in slots && y in slots && c.OwnsColumn(x, k) && c.OwnsColumn(y, k) ==> x == y)
    && (forall id :: 0 <= id < maxSlot && (forall i :: 0 <= i < |slots| ==> slots[i].id != id) ==>
          c.slotWeightIndex[id] == -1 && c.slotSize[id] == 0)
    && (forall w :: 0 <= w < c.numGroups ==> 0 < c.weightHashSizes[w]) && 0 <= c.outputSize
  }

  /** Weights held by all tables from `g` on: width times rows. */
  ghost function TotalWeights(sizes: seq<int>, rows: seq<int>, g: nat): int
    requires g <= |sizes| == |rows|
    decreases |sizes| - g
  {
    if g == |sizes| then 0 else sizes[g] * rows[g] + TotalWeights(sizes, rows, g + 1)
  }

  function Keys(slots: seq<Slot>): set<int> {
    set x | x in slots :: x.key
  }

  /** The number of tables the planner is free to use before it caps it by the number of slots. */
  function Allowed(slots: seq<Slot>, groups: int): nat {
    if groups < |Keys(slots)| then |Keys(slots)| else groups
  }

  /** There are no more keys than slots. */
  lemma {:induction false} FewerKeys(slots: seq<Slot>)
    ensures |Keys(slots)| <= |slots|
  {
    if slots != [] {
      var n := |slots| - 1;
      FewerKeys(slots[..n]);
      assert slots == slots[..n] + [slots[n]];
      assert Keys(slots) == Keys(slots[..n]) + {slots[n].key};
    }
  }

  /** Some permitted grouping costs less than the planner's infinity. */
  ghost predicate Affordable(slots: seq<Slot>, groups: int) {
    exists a :: Grouping(slots, a, Allowed(slots, groups)) && Cost(slots, a, Allowed(slots, groups)) < MAX_INT
  }

  // ---------------------------------------------------------------- from runs to the layout

  /** Sum of `w[k..s]`. */
  function Span(w: seq<int>, k: nat, s: nat): int
    requires k <= s <= |w|
    decreases s - k
  {
    if k == s then 0 else w[k] + Span(w, k + 1, s)
  }

  /** Stacked positive widths leave no gap. */
  lemma {:induction false} SpanCovers(w: seq<int>, k: nat, s: nat, r: int) returns (i: nat)
    requires k <= s <= |w| && 0 <= r < Span(w, k, s)
    requires forall j :: 0 <= j < |w| ==> 0 < w[j]
    ensures k <= i < s && Span(w, k, i) <= r < Span(w, k, i) + w[i]
    decreases s - k
  {
    if r < w[k] {
      i := k;
    } else {
      i := SpanCovers(w, k + 1, s, r - w[k]);
    }
  }

  /** Nor do they overlap. */
  lemma {:induction false} SpanIncreases(w: seq<int>, k: nat, i: nat, j: nat)
    requires k <= i < j <= |w|
    requires forall j :: 0 <= j < |w| ==> 0 < w[j]
    ensures 0 <= Span(w, k, i) && Span(w, k, i) + w[i] <= Span(w, k, j)
    decreases j - k
  {
    if k < i {
      SpanIncreases(w, k + 1, i, j);
    } else if i + 1 < j {
      SpanIncreases(w, i + 1, j - 1, j);
    }
  }

  function HashSizes(q: seq<Slot>): seq<int> {
    seq(|q|, i requires 0 <= i < |q| => q[i].hashSize)
  }

  function Sizes(q: seq<Slot>): seq<int> {
    seq(|q|, i requires 0 <= i < |q| => q[i].size)
  }

  lemma {:induction false} HashSumIsSpan(q: seq<Slot>, k: nat, s: nat)
    requires k <= s <= |q|
    ensures HashSum(q, k, s) == Span(HashSizes(q), k, s)
    decreases s - k
  {
    if k < s {
      HashSumIsSpan(q, k + 1, s);
    }
  }

  lemma {:induction false} SpanLast(w: seq<int>, k: nat, s: nat)
    requires k < s <= |w|
    ensures Span(w, k, s) == Span(w, k, s - 1) + w[s - 1]
    decreases s - k
  {
    if k < s - 1 {
      SpanLast(w, k + 1, s);
    }
  }

  lemma WidthsGrow(slots: seq<Slot>, k: nat)
    requires k < |slots|
    ensures Span(Sizes(slots), 0, k + 1) == Span(Sizes(slots), 0, k) + slots[k].size
  {
    SpanLast(Sizes(slots), 0, k + 1);
  }

  /** The final loop: output columns in the order the slots were given. */
  method PlaceColumns(slots: seq<Slot>, maxSlot: nat)
    returns (slotSize: seq<int>, column: seq<int>, hashSize: seq<int>, total: int)
    requires WellFormed(slots, maxSlot)
    ensures |slotSize| == |column| == |hashSize| == maxSlot
    ensures forall i :: 0 <= i < |slots| ==>
              slotSize[slots[i].id] == slots[i].size && hashSize[slots[i].id] == slots[i].hashSize
              && column[slots[i].id] == Span(Sizes(slots), 0, i)
    ensures total == Span(Sizes(slots), 0, |slots|)
    ensures forall id :: 0 <= id < maxSlot && (forall i :: 0 <= i < |slots| ==> slots[i].id != id) ==> slotSize[id] == 0
  {
    var sizes, columns, hashes := new int[maxSlot](_ => 0), new int[maxSlot](_ => 0), new int[maxSlot](_ => 0);
    total := 0;
    assert Span(Sizes(slots), 0, 0) == 0;
    hide Span, Sizes;
    for k := 0 to |slots|
      invariant total == Span(Sizes(slots), 0, k)
      invariant forall i :: 0 <= i < k ==>
                  sizes[slots[i].id] == slots[i].size && hashes[slots[i].id] == slots[i].hashSize
                  && columns[slots[i].id] == Span(Sizes(slots), 0, i)
      invariant forall id :: 0 <= id < maxSlot && (forall i :: 0 <= i < k ==> slots[i].id != id) ==> sizes[id] == 0
    {
      sizes[slots[k].id] := slots[k].size;
      hashes[slots[k].id] := slots[k].hashSize;
      columns[slots[k].id] := total;
      WidthsGrow(slots, k);
      total := total + slots[k].size;
    }
    slotSize, column, hashSize := sizes[..], columns[..], hashes[..];
  }

  lemma {:induction false} FindRun(q: seq<Slot>, cut: seq<nat>, i: nat, g: nat) returns (h: nat)
    requires Runs(q, cut) && g < |cut| && cut[g] <= i < |q|
    ensures g <= h < |cut| - 1 && RunAt(q, cut, h) && cut[h] <= i < cut[h + 1]
    decreases |cut| - g
  {
    assert RunAt(q, cut, g);
    if i < cut[g + 1] {
      h := g;
    } else {
      h := FindRun(q, cut, i, g + 1);
    }
  }

  /** What the walk and the last loop together establish about a configuration. */
  ghost predicate Planned(slots: seq<Slot>, q: seq<Slot>, maxSlot: nat, cut: seq<nat>, c: SlotConfig) {
    && WellFormed(slots, maxSlot) && WellFormed(q, maxSlot) && Sorted(q) && multiset(q) == multiset(slots)
    && c.Shaped(maxSlot) && Runs(q, cut) && |cut| == c.numGroups + 1 && cut[0] == 0
    && HoldsRuns(q, cut, 0, Tables(c.weightSizes, c.weightHashSizes, c.weightGroupKeys, c.slotWeightIndex,
                                   c.slotWeightOffset))
    && (forall i :: 0 <= i < |slots| ==>
          c.slotSize[slots[i].id] == slots[i].size && c.slotHashSize[slots[i].id] == slots[i].hashSize
          && c.slotOutputOffset[slots[i].id] == Span(Sizes(slots), 0, i))
    && c.outputSize == Span(Sizes(slots), 0, |slots|)
  }

  /** Where slot `q[i]` went. */
  lemma RowsOf(slots: seq<Slot>, q: seq<Slot>, maxSlot: nat, cut: seq<nat>, c: SlotConfig, i: nat) returns (g: nat)
    requires Planned(slots, q, maxSlot, cut, c) && i < |q|
    ensures g < c.numGroups && RunAt(q, cut, g) && cut[g] <= i < cut[g + 1]
    ensures c.slotWeightIndex[q[i].id] == g && c.slotWeightOffset[q[i].id] == Span(HashSizes(q), cut[g], i)
    ensures c.weightHashSizes[g] == Span(HashSizes(q), cut[g], cut[g + 1])
    ensures c.weightGroupKeys[g] == q[i].key && q[i].size <= c.weightSizes[g]
  {
    g := FindRun(q, cut, i, 0);
    HashSumIsSpan(q, cut[g], i);
    HashSumIsSpan(q, cut[g], cut[g + 1]);
    assert Before(q[i], q[cut[g + 1] - 1]);
  }

  lemma SlotFits(slots: seq<Slot>, q: seq<Slot>, maxSlot: nat, cut: seq<nat>, c: SlotConfig, x: Slot)
    requires Planned(slots, q, maxSlot, cut, c) && x in slots
    ensures c.Fits(x)
  {
    assert x in multiset(q);
    var i: nat :| i < |q| && q[i] == x;
    var g := RowsOf(slots, q, maxSlot, cut, c, i);
    SpanIncreases(HashSizes(q), cut[g], i, cut[g + 1]);
    var j: nat :| j < |slots| && slots[j] == x;
    SpanIncreases(Sizes(slots), 0, j, |slots|);
  }

  lemma RowHasOwner(slots: seq<Slot>, q: seq<Slot>, maxSlot: nat, cut: seq<nat>, c: SlotConfig, w: nat, r: int)
    requires Planned(slots, q, maxSlot, cut, c)
    requires w < c.numGroups && 0 <= r < c.weightHashSizes[w]
    ensures RowOwned(slots, c, w, r)
  {
    assert RunAt(q, cut, w);
    HashSumIsSpan(q, cut[w], cut[w + 1]);
    var i := SpanCovers(HashSizes(q), cut[w], cut[w + 1], r);
    HashSumIsSpan(q, cut[w], i);
    assert q[i] in multiset(slots);
    assert c.OwnsRow(q[i], w, r);
  }

  lemma RowsAreApart(slots: seq<Slot>, q: seq<Slot>, maxSlot: nat, cut: seq<nat>, c: SlotConfig, i: nat, j: nat, w: int,
                     r: int)
    requires Planned(slots, q, maxSlot, cut, c) && i < j < |q| && c.OwnsRow(q[i], w, r)
    ensures !c.OwnsRow(q[j], w, r)
  {
    hide HoldsRuns, Runs, Sorted, Span, RunAt, Sizes;
    var g := RowsOf(slots, q, maxSlot, cut, c, i);
    var h := RowsOf(slots, q, maxSlot, cut, c, j);
    if g == h {
      SpanIncreases(HashSizes(q), cut[g], i, j);
    }
  }

  lemma RowHasOneOwner(slots: seq<Slot>, q: seq<Slot>, maxSlot: nat, cut: seq<nat>, c: SlotConfig, x: Slot, y: Slot,
                       w: int, r: int)
    requires Planned(slots, q, maxSlot, cut, c) && x in slots && y in slots
    requires c.OwnsRow(x, w, r) && c.OwnsRow(y, w, r)
    ensures x == y
  {
    assert multiset(q) == multiset(slots);
    hide *;
    SameElements(q, slots);
    var i: nat :| i < |q| && q[i] == x;
    var j: nat :| j < |q| && q[j] == y;
    if i < j {
      RowsAreApart(slots, q, maxSlot, cut, c, i, j, w, r);
    } else if j < i {
      RowsAreApart(slots, q, maxSlot, cut, c, j, i, w, r);
    }
  }

  lemma ColumnHasOwner(slots: seq<Slot>, q: seq<Slot>, maxSlot: nat, cut: seq<nat>, c: SlotConfig, k: int)
    requires Planned(slots, q, maxSlot, cut, c) && 0 <= k < c.outputSize
    ensures ColumnOwned(slots, c, k)
  {
    var i := SpanCovers(Sizes(slots), 0, |slots|, k);
    assert c.OwnsColumn(slots[i], k);
  }

  lemma ColumnHasOneOwner(slots: seq<Slot>, q: seq<Slot>, maxSlot: nat, cut: seq<nat>, c: SlotConfig, x: Slot, y: Slot,
                          k: int)
    requires Planned(slots, q, maxSlot, cut, c) && x in slots && y in slots
    requires c.OwnsColumn(x, k) && c.OwnsColumn(y, k)
    ensures x == y
  {
    var i: nat :| i < |slots| && slots[i] == x;
    var j: nat :| j < |slots| && slots[j] == y;
    if i < j {
      SpanIncreases(Sizes(slots), 0, i, j);
    } else if j < i {
      SpanIncreases(Sizes(slots), 0, j, i);
    }
  }

  lemma {:induction false} SpanIsNatural(w: seq<int>, k: nat)
    requires k <= |w| && forall j :: 0 <= j < |w| ==> 0 < w[j]
    ensures 0 <= Span(w, k, |w|)
    decreases |w| - k
  {
    if k < |w| {
      SpanIsNatural(w, k + 1);
    }
  }

  lemma PlannedIsLayout(slots: seq<Slot>, q: seq<Slot>, maxSlot: nat, cut: seq<nat>, c: SlotConfig)
    requires Planned(slots, q, maxSlot, cut, c)
    requires forall id :: 0 <= id < maxSlot && (forall i :: 0 <= i < |slots| ==> slots[i].id != id) ==>
               c.slotWeightIndex[id] == -1 && c.slotSize[id] == 0
    ensures Layout(slots, maxSlot, c)
  {
    hide HoldsRuns, Runs, Sorted;
    SpanIsNatural(Sizes(slots), 0);
    forall x | x in slots ensures c.Fits(x) {
      SlotFits(slots, q, maxSlot, cut, c, x);
    }
    forall w, r | 0 <= w < c.numGroups && 0 <= r < c.weightHashSizes[w]
      ensures RowOwned(slots, c, w, r)
    {
      RowHasOwner(slots, q, maxSlot, cut, c, w, r);
    }
    forall x, y, w, r | x in slots && y in slots && c.OwnsRow(x, w, r) && c.OwnsRow(y, w, r) ensures x == y {
      RowHasOneOwner(slots, q, maxSlot, cut, c, x, y, w, r);
    }
    forall k | 0 <= k < c.outputSize ensures ColumnOwned(slots, c, k) {
      ColumnHasOwner(slots, q, maxSlot, cut, c, k);
    }
    forall x, y, k | x in slots && y in slots && c.OwnsColumn(x, k) && c.OwnsColumn(y, k) ensures x == y {
      ColumnHasOneOwner(slots, q, maxSlot, cut, c, x, y, k);
    }
    forall w: nat | w < c.numGroups ensures 0 < c.weightHashSizes[w] {
      TableHasRows(slots, q, maxSlot, cut, c, w);
    }
  }

  lemma TableHasRows(slots: seq<Slot>, q: seq<Slot>, maxSlot: nat, cut: seq<nat>, c: SlotConfig, w: nat)
    requires Planned(slots, q, maxSlot, cut, c) && w < c.numGroups
    ensures 0 < c.weightHashSizes[w]
  {
    assert RunAt(q, cut, w);
    HashSumIsSpan(q, cut[w], cut[w + 1]);
    SpanIncreases(HashSizes(q), cut[w], cut[w], cut[w + 1]);
  }

  lemma {:induction false} TotalIsRunsCost(q: seq<Slot>, maxSlot: nat, cut: seq<nat>, t: Tables, g: nat)
    requires WellFormed(q, maxSlot) && Runs(q, cut) && g < |cut| && t.Shaped(|cut| - 1, maxSlot)
    requires HoldsRuns(q, cut, 0, t) && Runs(q, cut[g..])
    ensures TotalWeights(t.sizes, t.rows, g) == RunsCost(q, cut[g..])
    decreases |cut| - g
  {
    if g < |cut| - 1 {
      assert RunAt(q, cut, g) && Holds(q, cut[g], cut[g + 1], g, t);
      assert cut[g..][1..] == cut[g + 1..];
      RunsOfTail(q, cut[g..]);
      TotalIsRunsCost(q, maxSlot, cut, t, g + 1);
    }
  }

  // ---------------------------------------------------------------- sorting changes nothing that matters

  lemma {:induction false} AtMostOnce(slots: seq<Slot>, maxSlot: nat, x: Slot)
    requires WellFormed(slots, maxSlot)
    ensures multiset(slots)[x] <= 1
  {
    if slots != [] {
      var n := |slots| - 1;
      assert slots == slots[..n] + [slots[n]];
      AtMostOnce(slots[..n], maxSlot, x);
      if slots[n] == x {
        assert x !in slots[..n];
        assert x !in multiset(slots[..n]);
      }
    }
  }

  lemma DistinctAfterSort(slots: seq<Slot>, q: seq<Slot>, maxSlot: nat, i: nat, j: nat)
    requires WellFormed(slots, maxSlot) && multiset(q) == multiset(slots) && i < j < |q|
    ensures q[i].id != q[j].id
  {
    SameElements(q, slots);
    assert q[i] in slots && q[j] in slots;
    if q[i].id == q[j].id {
      assert q == q[..j] + [q[j]] + q[j + 1..];
      assert q[i] in q[..j];
      AtMostOnce(slots, maxSlot, q[i]);
    }
  }

  lemma SortedCopy(slots: seq<Slot>, q: seq<Slot>, maxSlot: nat)
    requires WellFormed(slots, maxSlot) && multiset(q) == multiset(slots)
    ensures WellFormed(q, maxSlot)
    ensures Keys(q) == Keys(slots)
    ensures forall x :: x in slots <==> x in q
  {
    SameElements(q, slots);
    forall i | 0 <= i < |q| ensures 0 <= q[i].id < maxSlot && 0 < q[i].size && 0 < q[i].hashSize {
      assert q[i] in slots;
    }
    forall i, j | 0 <= i < j < |q| ensures q[i].id != q[j].id {
      DistinctAfterSort(slots, q, maxSlot, i, j);
    }
  }

  lemma AbsentAfterSort(slots: seq<Slot>, q: seq<Slot>, t: Tables)
    requires multiset(q) == multiset(slots) && Blank(q, 0, t)
    ensures Blank(slots, 0, t)
  {
    SameElements(q, slots);
    forall id | 0 <= id < |t.index| && (forall i :: 0 <= i < |slots| ==> slots[i].id != id)
      ensures t.index[id] == -1
    {
      forall i | 0 <= i < |q| ensures q[i].id != id {
        assert q[i] in slots;
      }
    }
  }

  /** The recurrence bounds the cost of any grouping of the slots in the order they were given. */
  lemma SortedCost(slots: seq<Slot>, maxSlot: nat, a: map<int, int>, tables: nat, p: nat)
    requires WellFormed(slots, maxSlot) && Grouping(slots, a, tables)
    requires p == if tables > |slots| then |slots| else tables
    ensures Best(SortSlots(slots), p, |slots|) <= Cost(slots, a, tables)
  {
    hide Best, Cost;
    var q := SortSlots(slots);
    SortedCopy(slots, q, maxSlot);
    assert Grouping(q, a, tables) by {
      assert forall i :: 0 <= i < |q| ==> q[i] in slots;
    }
    CostOfPermutation(slots, q, a, tables);
    BestIsOptimal(q, a, tables, p);
  }

  /** The walk's runs, written out as a configuration, are a sound layout of the cost the recurrence promised. */
  lemma PlanIsSound(unsorted: seq<Slot>, q: seq<Slot>, maxSlot: nat, cut: seq<nat>, t: Tables, c: SlotConfig)
    requires Planned(unsorted, q, maxSlot, cut, c) && Blank(q, 0, t)
    requires t == Tables(c.weightSizes, c.weightHashSizes, c.weightGroupKeys, c.slotWeightIndex, c.slotWeightOffset)
    requires forall id :: 0 <= id < maxSlot && (forall i :: 0 <= i < |unsorted| ==> unsorted[i].id != id) ==>
               c.slotSize[id] == 0
    ensures Layout(unsorted, maxSlot, c)
    ensures TotalWeights(c.weightSizes, c.weightHashSizes, 0) == RunsCost(q, cut)
  {
    AbsentAfterSort(unsorted, q, t);
    PlannedIsLayout(unsorted, q, maxSlot, cut, c);
    assert cut[0..] == cut;
    TotalIsRunsCost(q, maxSlot, cut, t, 0);
  }

  /** The output columns follow each other in the order in which the caller gave the slots. */
  ghost predicate InGivenOrder(slots: seq<Slot>, c: SlotConfig)
    requires WellFormed(slots, |c.slotOutputOffset|)
  {
    && (slots == [] ==> c.outputSize == 0)
    && (slots != [] ==>
          && c.slotOutputOffset[slots[0].id] == 0
          && c.slotOutputOffset[slots[|slots| - 1].id] + slots[|slots| - 1].size == c.outputSize)
    && forall i :: 0 < i < |slots| ==>
         c.slotOutputOffset[slots[i].id] == c.slotOutputOffset[slots[i - 1].id] + slots[i - 1].size
  }

  lemma SpansAreInOrder(slots: seq<Slot>, c: SlotConfig)
    requires WellFormed(slots, |c.slotOutputOffset|) && c.outputSize == Span(Sizes(slots), 0, |slots|)
    requires forall i :: 0 <= i < |slots| ==> c.slotOutputOffset[slots[i].id] == Span(Sizes(slots), 0, i)
    ensures InGivenOrder(slots, c)
  {
    forall i | 0 < i <= |slots| ensures Span(Sizes(slots), 0, i) == Span(Sizes(slots), 0, i - 1) + slots[i - 1].size {
      WidthsGrow(slots, i - 1);
    }
  }

  /** `_compute_slot_config`: the tables hold as few weights as any grouping could, and the layout is sound. */
  method ComputeSlotConfig(unsorted: seq<Slot>, requested: int, useFidV2: bool) returns (c: SlotConfig)
    requires WellFormed(unsorted, MaxSlot(useFidV2))
    requires Affordable(unsorted, requested)
    ensures c.numGroups == if Allowed(unsorted, requested) > |unsorted| then |unsorted|
                           else Allowed(unsorted, requested)
    ensures |Keys(unsorted)| <= c.numGroups <= |unsorted|
    ensures |Keys(unsorted)| <= requested <= |unsorted| ==> c.numGroups == requested
    ensures requested < |Keys(unsorted)| ==> c.numGroups == |Keys(unsorted)|
    ensures |unsorted| < requested ==> c.numGroups == |unsorted|
    ensures Layout(unsorted, MaxSlot(useFidV2), c) && InGivenOrder(unsorted, c)
    ensures forall a :: Grouping(unsorted, a, Allowed(unsorted, requested)) ==>
              TotalWeights(c.weightSizes, c.weightHashSizes, 0) <= Cost(unsorted, a, Allowed(unsorted, requested))
  {
    hide Best, Cost, RunAt, Runs, HoldsRuns, Sorted, RunsCost;
    var maxSlot := MaxSlot(useFidV2);
    var q := SortSlots(unsorted);
    var numKeys := |Keys(q)|;
    var groups := requested;
    if groups < numKeys {
      groups := numKeys;
    }
    if groups > |q| {
      groups := |q|;
    }
    SortedCopy(unsorted, q, maxSlot);
    ghost var tables := Allowed(unsorted, requested);
    ghost var cheap :| Grouping(unsorted, cheap, tables) && Cost(unsorted, cheap, tables) < MAX_INT;
    SortedCost(unsorted, maxSlot, cheap, tables, groups);
    assert groups == if tables > |unsorted| then |unsorted| else tables;
    FewerKeys(unsorted);
    hide Grouping, Affordable, Allowed, Keys;
    var cost, mark := FillTables(q, groups);
    var t, cut := WalkBack(q, groups, mark, maxSlot);
    var size, column, hash, total := PlaceColumns(unsorted, maxSlot);
    c := SlotConfig(groups, t.sizes, t.keys, t.rows, size, t.index, column, hash, t.offset, total);
    PlanIsSound(unsorted, q, maxSlot, cut, t, c);
    SpansAreInOrder(unsorted, c);
    hide InGivenOrder, Layout, Blank, Planned;
    forall a | Grouping(unsorted, a, tables)
      ensures TotalWeights(c.weightSizes, c.weightHashSizes, 0) <= Cost(unsorted, a, tables)
    {
      SortedCost(unsorted, maxSlot, a, tables, groups);
    }
  }
}
