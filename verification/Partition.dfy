/** Entries sorted by feature id, split into shards, and counted without repetition. */
module Partition {
  import opened FeatureIds
  import opened Permutations

  /** A feature id (unsigned) with the instance it belongs to. */
  datatype Entry = Entry(fid: int, instance: int)

  // ---------------------------------------------------------------- sorting by id

  ghost predicate SortedById(es: seq<Entry>) {
    forall i, j :: 0 <= i <= j < |es| ==> es[i].fid <= es[j].fid
  }

  function InsertEntry(x: Entry, es: seq<Entry>): (r: seq<Entry>)
    ensures multiset(r) == multiset(es) + multiset{x}
  {
    if es == [] || x.fid <= es[0].fid then
      [x] + es
    else
      assert es == [es[0]] + es[1..];
      [es[0]] + InsertEntry(x, es[1..])
  }

  lemma {:induction false} InsertEntryKeepsSorted(x: Entry, es: seq<Entry>)
    requires SortedById(es)
    ensures SortedById(InsertEntry(x, es))
  {
    if es != [] && x.fid > es[0].fid {
      InsertEntryKeepsSorted(x, es[1..]);
      var rest := InsertEntry(x, es[1..]);
      forall j | 0 <= j < |rest| ensures es[0].fid <= rest[j].fid {
        assert rest[j] in multiset(rest);
        assert rest[j] == x || rest[j] in es[1..];
      }
    }
  }

  /** Any sort by id will do: the order of entries with equal ids is not specified. */
  method SortEntries(es: seq<Entry>) returns (r: seq<Entry>)
    ensures SortedById(r) && multiset(r) == multiset(es)
  {
    r := [];
    for i := 0 to |es|
      invariant SortedById(r) && multiset(r) == multiset(es[..i])
    {
      InsertEntryKeepsSorted(es[i], r);
      r := InsertEntry(es[i], r);
      assert es[..i + 1] == es[..i] + [es[i]];
    }
    assert es[..|es|] == es;
  }

  // ---------------------------------------------------------------- entries by shard

  /** The entries whose id `shard` sends to `d`, in order. */
  ghost function ShardEntries(es: seq<Entry>, shard: int -> int, d: int): (r: seq<Entry>)
    ensures forall e :: e in r <==> e in es && shard(e.fid) == d
  {
    if es == [] then []
    else
      var last := es[|es| - 1];
      assert es == es[..|es| - 1] + [last];
      ShardEntries(es[..|es| - 1], shard, d) + if shard(last.fid) == d then [last] else []
  }

  /** The distinct ids of table `w` among some entries. */
  ghost function Distinct(es: seq<Entry>, weight: int -> int, w: int): set<int> {
    set e | e in es && weight(e.fid) == w :: e.fid
  }

  lemma ShardOfPrefix(es: seq<Entry>, shard: int -> int, i: nat, d: int)
    requires i < |es|
    ensures ShardEntries(es[..i + 1], shard, d)
         == if shard(es[i].fid) == d then ShardEntries(es[..i], shard, d) + [es[i]]
            else ShardEntries(es[..i], shard, d)
  {
    assert es[..i + 1][..i] == es[..i];
  }

  /** A shard's entries so far are the first of all its entries. */
  lemma {:induction false} ShardGrows(es: seq<Entry>, shard: int -> int, i: nat, d: int)
    requires i <= |es|
    ensures ShardEntries(es[..i], shard, d) <= ShardEntries(es, shard, d)
    decreases |es| - i
  {
    if i == |es| {
      assert es[..i] == es;
    } else {
      ShardGrows(es, shard, i + 1, d);
      ShardOfPrefix(es, shard, i, d);
    }
  }

  lemma {:induction false} ShardWithout(es: seq<Entry>, shard: int -> int, i: nat, d: int)
    requires i < |es|
    ensures |ShardEntries(es, shard, d)|
         == |ShardEntries(es[..i] + es[i + 1..], shard, d)| + if shard(es[i].fid) == d then 1 else 0
  {
    var front, last := es[..|es| - 1], es[|es| - 1];
    var without := es[..i] + es[i + 1..];
    assert es == front + [last];
    if i == |front| {
      assert without == front;
      ShardAppend(front, last, shard, d);
    } else {
      var less := front[..i] + front[i + 1..];
      assert without == less + [last] && front[i] == es[i];
      hide *;
      ShardWithout(front, shard, i, d);
      ShardAppend(front, last, shard, d);
      ShardAppend(less, last, shard, d);
    }
  }

  lemma ShardAppend(es: seq<Entry>, e: Entry, shard: int -> int, d: int)
    ensures ShardEntries(es + [e], shard, d) == ShardEntries(es, shard, d) + if shard(e.fid) == d then [e] else []
  {
    assert (es + [e])[..|es|] == es;
  }

  /** The number of entries of a shard does not depend on their order. */
  lemma {:induction false} ShardCountOfPermutation(xs: seq<Entry>, ys: seq<Entry>, shard: int -> int, d: int)
    requires multiset(xs) == multiset(ys)
    ensures |ShardEntries(xs, shard, d)| == |ShardEntries(ys, shard, d)|
  {
    SameElements(xs, ys);
    if xs != [] {
      var i := MatchLast(xs, ys);
      ShardWithout(ys, shard, i, d);
      ShardCountOfPermutation(xs[..|xs| - 1], ys[..i] + ys[i + 1..], shard, d);
    }
  }

  /** Keeping one shard of sorted entries leaves them sorted. */
  lemma {:induction false} ShardIsSorted(es: seq<Entry>, shard: int -> int, d: int)
    requires SortedById(es)
    ensures SortedById(ShardEntries(es, shard, d))
  {
    if es != [] {
      ShardIsSorted(es[..|es| - 1], shard, d);
      var front := ShardEntries(es[..|es| - 1], shard, d);
      forall j | 0 <= j < |front| ensures front[j].fid <= es[|es| - 1].fid {
        assert front[j] in es[..|es| - 1];
      }
    }
  }

  /** In sorted order an id was seen before exactly when it is the previous id. */
  lemma SeenBefore(es: seq<Entry>, i: nat)
    requires SortedById(es) && i < |es|
    ensures (exists e :: e in es[..i] && e.fid == es[i].fid) <==> i > 0 && es[i].fid == es[i - 1].fid
  {
    if i > 0 && es[i].fid == es[i - 1].fid {
      assert es[i - 1] in es[..i];
    } else {
      forall e | e in es[..i] ensures e.fid != es[i].fid {
        var j :| 0 <= j < i && es[j] == e;
        assert es[j].fid <= es[i - 1].fid <= es[i].fid;
      }
    }
  }

  /** One more entry of a list adds its id to the distinct ids of its table if it is new there. */
  lemma DistinctStep(es: seq<Entry>, i: nat, weight: int -> int, w: int)
    requires SortedById(es) && i < |es|
    ensures |Distinct(es[..i + 1], weight, w)|
         == |Distinct(es[..i], weight, w)|
            + if weight(es[i].fid) == w && (i == 0 || es[i].fid != es[i - 1].fid) then 1 else 0
  {
    SeenBefore(es, i);
    assert es[..i + 1] == es[..i] + [es[i]];
    AddDistinct(es[..i], es[i], weight, w);
  }

  /** The same count taken over all sorted entries at once, shard by shard: equal ids share a shard, so the
      adjacent comparison in the global order answers for each shard. */
  lemma ShardDistinctStep(es: seq<Entry>, i: nat, shard: int -> int, d: int, weight: int -> int, w: int)
    requires SortedById(es) && i < |es|
    ensures |Distinct(ShardEntries(es[..i + 1], shard, d), weight, w)|
         == |Distinct(ShardEntries(es[..i], shard, d), weight, w)|
            + if shard(es[i].fid) == d && weight(es[i].fid) == w && (i == 0 || es[i].fid != es[i - 1].fid) then 1
              else 0
  {
    ShardOfPrefix(es, shard, i, d);
    if shard(es[i].fid) == d {
      SeenInShard(es, i, shard, d);
      AddDistinct(ShardEntries(es[..i], shard, d), es[i], weight, w);
    }
  }

  lemma SeenInShard(es: seq<Entry>, i: nat, shard: int -> int, d: int)
    requires SortedById(es) && i < |es| && shard(es[i].fid) == d
    ensures (exists e :: e in ShardEntries(es[..i], shard, d) && e.fid == es[i].fid)
       <==> i > 0 && es[i].fid == es[i - 1].fid
  {
    SeenBefore(es, i);
    if i > 0 && es[i].fid == es[i - 1].fid {
      assert es[i - 1] in es[..i];
      assert es[i - 1] in ShardEntries(es[..i], shard, d);
    }
  }

  lemma AddDistinct(es: seq<Entry>, e: Entry, weight: int -> int, w: int)
    ensures |Distinct(es + [e], weight, w)|
         == |Distinct(es, weight, w)|
            + if weight(e.fid) == w && !(exists f :: f in es && f.fid == e.fid) then 1 else 0
  {
    if weight(e.fid) == w {
      assert Distinct(es + [e], weight, w) == Distinct(es, weight, w) + {e.fid};
      if f :| f in es && f.fid == e.fid {
        assert e.fid in Distinct(es, weight, w);
        assert Distinct(es + [e], weight, w) == Distinct(es, weight, w);
      } else {
        assert e.fid !in Distinct(es, weight, w);
      }
    } else {
      assert Distinct(es + [e], weight, w) == Distinct(es, weight, w);
    }
  }

  lemma DistinctGrows(es: seq<Entry>, i: nat, weight: int -> int, w: int)
    requires i <= |es|
    ensures |Distinct(es[..i], weight, w)| <= |Distinct(es, weight, w)|
  {
    var before, all := Distinct(es[..i], weight, w), Distinct(es, weight, w);
    assert all == before + (all - before);
  }

  // ---------------------------------------------------------------- handing entries out to shards

  function Ids(es: seq<Entry>): seq<int> {
    seq(|es|, i requires 0 <= i < |es| => ToInt64(es[i].fid))
  }

  function Instances(es: seq<Entry>): seq<int> {
    seq(|es|, i requires 0 <= i < |es| => es[i].instance)
  }

  /** The output tensors being filled for one shard, and the next free position in them. */
  datatype Device = Device(next: int, instances: seq<int>, ids: seq<int>, unique: seq<int>) {

    predicate HasRoom(w: int) {
      0 <= next < |instances| && |instances| == |ids| && 0 <= w < |unique|
    }

    /** One iteration of the second loop: store an entry, and count its id if it is new. */
    function Store(e: Entry, w: int, isNew: bool): Device
      requires HasRoom(w)
    {
      Device(next + 1, instances[next := e.instance], ids[next := ToInt64(e.fid)],
             if isNew then unique[w := unique[w] + 1] else unique)
    }
  }

  /** A device that has stored the entries `es`, out of `total` it has room for. */
  ghost predicate Stored(es: seq<Entry>, total: nat, dev: Device) {
    && dev.next == |es| <= total && |dev.instances| == |dev.ids| == total
    && dev.instances[..dev.next] == Instances(es) && dev.ids[..dev.next] == Ids(es)
  }

  /** ... and counted their distinct ids per table. */
  ghost predicate Counted(es: seq<Entry>, weight: int -> int, tables: nat, unique: seq<int>) {
    |unique| == tables && forall w :: 0 <= w < tables ==> unique[w] == |Distinct(es, weight, w)|
  }

  lemma StoredStep(es: seq<Entry>, e: Entry, total: nat, dev: Device, w: int, isNew: bool)
    requires Stored(es, total, dev) && |es| < total && 0 <= w < |dev.unique|
    ensures dev.HasRoom(w) && Stored(es + [e], total, dev.Store(e, w, isNew))
  {
    assert Instances(es + [e]) == Instances(es) + [e.instance];
    assert Ids(es + [e]) == Ids(es) + [ToInt64(e.fid)];
  }

  lemma CountedStep(es: seq<Entry>, after: seq<Entry>, weight: int -> int, tables: nat, unique: seq<int>, w: int,
                    isNew: bool)
    requires Counted(es, weight, tables, unique) && 0 <= w < tables
    requires forall v :: 0 <= v < tables ==>
               |Distinct(after, weight, v)| == |Distinct(es, weight, v)| + if isNew && v == w then 1 else 0
    ensures Counted(after, weight, tables, if isNew then unique[w := unique[w] + 1] else unique)
  {
  }

  /** Device `d` after the first `i` sorted entries. */
  ghost predicate HandedOut(es: seq<Entry>, shard: int -> int, weight: int -> int, tables: nat, i: nat, d: int,
                            dev: Device)
    requires i <= |es|
  {
    && Stored(ShardEntries(es[..i], shard, d), |ShardEntries(es, shard, d)|, dev)
    && Counted(ShardEntries(es[..i], shard, d), weight, tables, dev.unique)
  }

  lemma OtherShardStep(es: seq<Entry>, shard: int -> int, weight: int -> int, tables: nat, i: nat, d: int, dev: Device)
    requires i < |es| && HandedOut(es, shard, weight, tables, i, d, dev) && shard(es[i].fid) != d
    ensures HandedOut(es, shard, weight, tables, i + 1, d, dev)
  {
    ShardOfPrefix(es, shard, i, d);
  }

  lemma OwnShardStep(es: seq<Entry>, shard: int -> int, weight: int -> int, tables: nat, i: nat, d: int, dev: Device)
    requires SortedById(es) && i < |es| && HandedOut(es, shard, weight, tables, i, d, dev)
    requires shard(es[i].fid) == d && 0 <= weight(es[i].fid) < tables
    ensures dev.HasRoom(weight(es[i].fid))
    ensures HandedOut(es, shard, weight, tables, i + 1, d,
                      dev.Store(es[i], weight(es[i].fid), i == 0 || es[i].fid != es[i - 1].fid))
  {
    var w, isNew := weight(es[i].fid), i == 0 || es[i].fid != es[i - 1].fid;
    var before, after := ShardEntries(es[..i], shard, d), ShardEntries(es[..i + 1], shard, d);
    ShardOfPrefix(es, shard, i, d);
    ShardGrows(es, shard, i + 1, d);
    forall v | 0 <= v < tables
      ensures |Distinct(after, weight, v)| == |Distinct(before, weight, v)| + if isNew && v == w then 1 else 0
    {
      ShardDistinctStep(es, i, shard, d, weight, v);
    }
    hide ShardEntries, Distinct, SortedById;
    CountedStep(before, after, weight, tables, dev.unique, w, isNew);
    StoredStep(before, es[i], |ShardEntries(es, shard, d)|, dev, w, isNew);
  }

  lemma HandedOutAll(es: seq<Entry>, shard: int -> int, weight: int -> int, tables: nat, d: int, dev: Device)
    requires HandedOut(es, shard, weight, tables, |es|, d, dev)
    ensures dev.instances == Instances(ShardEntries(es, shard, d)) && dev.ids == Ids(ShardEntries(es, shard, d))
    ensures Counted(ShardEntries(es, shard, d), weight, tables, dev.unique)
  {
    assert es[..|es|] == es;
  }

  // ---------------------------------------------------------------- one gradient slice per distinct id

  /** Every entry's table is one of the `tables`. */
  ghost predicate InTables(es: seq<Entry>, weight: int -> int, tables: nat) {
    forall i :: 0 <= i < |es| ==> 0 <= weight(es[i].fid) < tables
  }

  /** The slice named for position `j` carries the row of its id; slices are numbered in order of appearance. */
  ghost predicate SliceCarries(es: seq<Entry>, weight: int -> int, row: int -> int, j: nat, slice: int,
                               rows: seq<seq<int>>)
    requires j < |es| && 0 <= weight(es[j].fid) < |rows|
  {
    var w := weight(es[j].fid);
    && 0 <= slice < |rows[w]| && rows[w][slice] == row(es[j].fid)
    && slice == |Distinct(es[..j + 1], weight, w)| - 1
  }

  /** `r` is the row of one of the entries' ids of table `w`. */
  ghost predicate SliceFilled(es: seq<Entry>, weight: int -> int, row: int -> int, w: int, r: int) {
    exists e :: e in es && weight(e.fid) == w && row(e.fid) == r
  }

  /** Slices named for the first `j` positions, with `counts[w]` the last slice in use of table `w`. */
  ghost predicate IndexedTo(es: seq<Entry>, weight: int -> int, row: int -> int, tables: nat, j: nat,
                            counts: seq<int>, slices: seq<int>, rows: seq<seq<int>>)
    requires InTables(es, weight, tables) && j <= |es|
  {
    && |counts| == |rows| == tables && |slices| == |es|
    && (forall w :: 0 <= w < tables ==>
          counts[w] == |Distinct(es[..j], weight, w)| - 1 && |rows[w]| == |Distinct(es, weight, w)|)
    && (forall i :: 0 <= i < j ==> SliceCarries(es, weight, row, i, slices[i], rows))
    && (forall w, u :: 0 <= w < tables && 0 <= u <= counts[w] && u < |rows[w]| ==>
          SliceFilled(es, weight, row, w, rows[w][u]))
  }

  lemma CountsStep(es: seq<Entry>, weight: int -> int, tables: nat, j: nat, counts: seq<int>)
    requires InTables(es, weight, tables) && SortedById(es) && j < |es| && |counts| == tables
    requires forall w :: 0 <= w < tables ==> counts[w] == |Distinct(es[..j], weight, w)| - 1
    ensures var w, isNew := weight(es[j].fid), j == 0 || es[j].fid != es[j - 1].fid;
            forall v :: 0 <= v < tables ==>
              counts[w := if isNew then counts[w] + 1 else counts[w]][v] == |Distinct(es[..j + 1], weight, v)| - 1
              < |Distinct(es, weight, v)|
  {
    var w, isNew := weight(es[j].fid), j == 0 || es[j].fid != es[j - 1].fid;
    var counts' := counts[w := if isNew then counts[w] + 1 else counts[w]];
    forall v | 0 <= v < tables
      ensures counts'[v] == |Distinct(es[..j + 1], weight, v)| - 1 < |Distinct(es, weight, v)|
    {
      DistinctStep(es, j, weight, v);
      DistinctGrows(es, j + 1, weight, v);
      assert counts[v] == |Distinct(es[..j], weight, v)| - 1;
    }
  }

  /** An earlier position's slice is at or below the last one in use. */
  lemma SliceInUse(es: seq<Entry>, weight: int -> int, i: nat, j: nat, w: int)
    requires i < j <= |es|
    ensures |Distinct(es[..i + 1], weight, w)| <= |Distinct(es[..j], weight, w)|
  {
    assert es[..j][..i + 1] == es[..i + 1];
    DistinctGrows(es[..j], i + 1, weight, w);
  }

  /** A new id takes the next slice of its table. */
  lemma IndexNew(es: seq<Entry>, weight: int -> int, row: int -> int, tables: nat, j: nat, counts: seq<int>,
                 slices: seq<int>, rows: seq<seq<int>>)
    requires InTables(es, weight, tables) && SortedById(es) && j < |es|
    requires IndexedTo(es, weight, row, tables, j, counts, slices, rows)
    requires j == 0 || es[j].fid != es[j - 1].fid
    ensures var w := weight(es[j].fid);
            && 0 <= counts[w] + 1 < |rows[w]|
            && IndexedTo(es, weight, row, tables, j + 1, counts[w := counts[w] + 1], slices[j := counts[w] + 1],
                         rows[w := rows[w][counts[w] + 1 := row(es[j].fid)]])
  {
    var w := weight(es[j].fid);
    var at := counts[w] + 1;
    CountsStep(es, weight, tables, j, counts);
    hide SortedById, Distinct;
    assert counts[w := at][w] == at;
    EarlierCarry(es, weight, row, tables, j, counts, slices, rows, at, row(es[j].fid));
    assert SliceFilled(es, weight, row, w, row(es[j].fid)) by {
      assert es[j] in es;
    }
    hide SliceFilled;
  }

  /** Filling the next slice of a table leaves those in use alone. */
  lemma EarlierCarry(es: seq<Entry>, weight: int -> int, row: int -> int, tables: nat, j: nat, counts: seq<int>,
                     slices: seq<int>, rows: seq<seq<int>>, at: int, r: int)
    requires InTables(es, weight, tables) && j < |es| && IndexedTo(es, weight, row, tables, j, counts, slices, rows)
    requires at == counts[weight(es[j].fid)] + 1 && 0 <= at < |rows[weight(es[j].fid)]|
    ensures var w := weight(es[j].fid);
            forall i :: 0 <= i < j ==> SliceCarries(es, weight, row, i, slices[i], rows[w := rows[w][at := r]])
  {
    var w := weight(es[j].fid);
    hide Distinct, SliceFilled;
    forall i | 0 <= i < j ensures SliceCarries(es, weight, row, i, slices[i], rows[w := rows[w][at := r]]) {
      SliceInUse(es, weight, i, j, w);
      assert SliceCarries(es, weight, row, i, slices[i], rows);
    }
  }

  /** A repeated id shares the slice of the position before it. */
  lemma IndexRepeat(es: seq<Entry>, weight: int -> int, row: int -> int, tables: nat, j: nat, counts: seq<int>,
                    slices: seq<int>, rows: seq<seq<int>>)
    requires InTables(es, weight, tables) && SortedById(es) && j < |es|
    requires IndexedTo(es, weight, row, tables, j, counts, slices, rows)
    requires j > 0 && es[j].fid == es[j - 1].fid
    ensures IndexedTo(es, weight, row, tables, j + 1, counts, slices[j := counts[weight(es[j].fid)]], rows)
  {
    var w := weight(es[j].fid);
    CountsStep(es, weight, tables, j, counts);
    assert counts[w := counts[w]] == counts;
    assert SliceCarries(es, weight, row, j - 1, slices[j - 1], rows);
    hide SortedById, Distinct, SliceFilled;
  }

  lemma IndexStart(es: seq<Entry>, weight: int -> int, row: int -> int, tables: nat, counts: seq<int>,
                   slices: seq<int>, rows: seq<seq<int>>)
    requires InTables(es, weight, tables) && |slices| == |es| && |counts| == |rows| == tables
    requires forall w :: 0 <= w < tables ==> counts[w] == -1 && |rows[w]| == |Distinct(es, weight, w)|
    ensures IndexedTo(es, weight, row, tables, 0, counts, slices, rows)
  {
    forall w | 0 <= w < tables ensures |Distinct(es[..0], weight, w)| == 0 {
      assert Distinct(es[..0], weight, w) == {};
    }
  }

  /** All positions named: each slice carries the row of its positions, no slice is left unfilled, and two
      positions of a table share a slice exactly when they hold the same id. */
  ghost predicate Indexed(es: seq<Entry>, weight: int -> int, row: int -> int, tables: nat, slices: seq<int>,
                          rows: seq<seq<int>>)
    requires InTables(es, weight, tables)
  {
    && |rows| == tables && |slices| == |es|
    && (forall w :: 0 <= w < tables ==> |rows[w]| == |Distinct(es, weight, w)|)
    && (forall j :: 0 <= j < |es| ==> SliceCarries(es, weight, row, j, slices[j], rows))
    && (forall w, u :: 0 <= w < tables && 0 <= u < |rows[w]| ==> SliceFilled(es, weight, row, w, rows[w][u]))
  }

  lemma IndexEnd(es: seq<Entry>, weight: int -> int, row: int -> int, tables: nat, counts: seq<int>,
                 slices: seq<int>, rows: seq<seq<int>>)
    requires InTables(es, weight, tables) && IndexedTo(es, weight, row, tables, |es|, counts, slices, rows)
    ensures Indexed(es, weight, row, tables, slices, rows)
    ensures |counts| == tables && forall w :: 0 <= w < tables ==> counts[w] == |Distinct(es, weight, w)| - 1
  {
    assert es[..|es|] == es;
  }

  lemma SlicesAreDistinct(es: seq<Entry>, weight: int -> int, row: int -> int, tables: nat, slices: seq<int>,
                          rows: seq<seq<int>>, i: nat, j: nat)
    requires InTables(es, weight, tables) && Indexed(es, weight, row, tables, slices, rows) && SortedById(es)
    requires i < j < |es| && weight(es[i].fid) == weight(es[j].fid)
    ensures slices[i] == slices[j] <==> es[i].fid == es[j].fid
  {
    assert SliceCarries(es, weight, row, i, slices[i], rows) && SliceCarries(es, weight, row, j, slices[j], rows);
    if es[i].fid == es[j].fid {
      SameIdsBetween(es, weight, i, j);
    } else {
      NewIdBetween(es, weight, i, j);
    }
  }

  lemma {:induction false} SameIdsBetween(es: seq<Entry>, weight: int -> int, i: nat, j: nat)
    requires SortedById(es) && i <= j < |es| && es[i].fid == es[j].fid
    ensures |Distinct(es[..i + 1], weight, weight(es[i].fid))| == |Distinct(es[..j + 1], weight, weight(es[i].fid))|
    decreases j - i
  {
    if i < j {
      assert es[i].fid <= es[j - 1].fid <= es[j].fid;
      SameIdsBetween(es, weight, i, j - 1);
      DistinctStep(es, j, weight, weight(es[i].fid));
    }
  }

  lemma {:induction false} NewIdBetween(es: seq<Entry>, weight: int -> int, i: nat, j: nat)
    requires SortedById(es) && i < j < |es| && es[i].fid < es[j].fid
    ensures |Distinct(es[..i + 1], weight, weight(es[j].fid))| < |Distinct(es[..j + 1], weight, weight(es[j].fid))|
    decreases j - i
  {
    var w := weight(es[j].fid);
    DistinctStep(es, j, weight, w);
    if es[j].fid == es[j - 1].fid {
      NewIdBetween(es, weight, i, j - 1);
    } else {
      SliceInUse(es, weight, i, j, w);
    }
  }
}
