/** The cursor over a growing list of files, some of which may be empty. */
module Visitor {
  import opened Concatenation

  type Item = int

  // ---------------------------------------------------------------- the file iterator

  /** The iterator of the open file: none yet, left without a file by an empty one, or standing on an item. */
  datatype Cursor = NoIter | Broken | At(file: nat, index: nat, item: Item)

  datatype Result = Got(index: nat, item: Item) | Stop | AssertFails

  class Visitor {
    /** What the files hold, published or not. */
    const files: seq<seq<Item>>
    var cursor: Cursor
    var processIndex: int
    var finished: bool
    var visitedMax: int
    /** Start indices of the files seen so far. */
    var metas: seq<nat>

    ghost predicate MetasOk()
      reads this
    {
      |metas| <= |files| && forall p :: 0 <= p < |metas| ==> metas[p] == StartOf(files, p)
    }

    ghost predicate CursorOk()
      reads this
      requires MetasOk()
    {
      match cursor
      case NoIter => processIndex == -1
      case Broken => 0 <= processIndex < |metas|
      case At(p, i, item) =>
        && processIndex == p < |metas| && metas[p] <= i < metas[p] + |files[p]| && item == files[p][i - metas[p]]
        && i <= visitedMax
    }

    /** No index is -1. */
    ghost predicate Valid()
      reads this
    {
      MetasOk() && CursorOk() && -1 <= visitedMax < StartOf(files, |metas|)
    }

    constructor (files: seq<seq<Item>>, preloaded: seq<nat>)
      requires |preloaded| <= |files| && forall p :: 0 <= p < |preloaded| ==> preloaded[p] == StartOf(files, p)
      ensures Valid() && this.files == files && cursor == NoIter && !finished && metas == preloaded && visitedMax == -1
    {
      this.files := files;
      cursor, processIndex, finished, visitedMax, metas := NoIter, -1, false, -1, preloaded;
    }

    method Reset()
      requires Valid()
      modifies this`cursor, this`processIndex, this`finished
      ensures Valid() && cursor == NoIter && !finished
    {
      finished := false;
      cursor := NoIter;
      processIndex := -1;
    }

    /** `active_visitor`: look again when more than the known files are published. */
    method Activate(published: nat)
      requires Valid()
      modifies this`finished
      ensures Valid() && finished == (old(finished) && published <= |metas|)
    {
      if published > |metas| {
        finished := false;
      }
    }

    /** Opens file `p`, if it is not the one already open; fails on an empty file. */
    method OpenFile(p: nat) returns (ok: bool)
      requires Valid() && p < |metas|
      modifies this`cursor
      ensures ok == (files[p] != [])
      ensures ok ==> cursor == if old(cursor).At? && old(cursor).file == p then old(cursor)
                               else At(p, metas[p], files[p][0])
      ensures !ok ==> cursor == if old(cursor).NoIter? then NoIter else Broken
    {
      if cursor.At? && cursor.file == p {
        return true;
      }
      if files[p] == [] {
        cursor := if cursor.NoIter? then NoIter else Broken;
        return false;
      }
      cursor := At(p, metas[p], files[p][0]);
      return true;
    }

    /** `seek_to_target` in the open file: stops at the target or at the last item. */
    method SeekInFile(target: nat)
      requires MetasOk() && cursor.At? && cursor.file < |metas| && metas[cursor.file] <= target
      requires metas[cursor.file] <= cursor.index < metas[cursor.file] + |files[cursor.file]|
      requires cursor.item == files[cursor.file][cursor.index - metas[cursor.file]]
      modifies this`cursor
      ensures var p := old(cursor).file;
              var last := metas[p] + |files[p]| - 1;
              var i := if target <= last then target else last;
              cursor == At(p, i, files[p][i - metas[p]])
    {
      var p := cursor.file;
      if cursor.index == target {
        return;
      }
      if cursor.index > target {
        cursor := At(p, metas[p], files[p][0]);
      }
      while cursor.index < target && cursor.index + 1 < metas[p] + |files[p]|
        invariant cursor.At? && cursor.file == p && metas[p] <= cursor.index <= target
        invariant cursor.index < metas[p] + |files[p]| && cursor.item == files[p][cursor.index - metas[p]]
        decreases target - cursor.index
      {
        cursor := At(p, cursor.index + 1, files[p][cursor.index + 1 - metas[p]]);
      }
    }

    method UpdateVisitedMax()
      requires cursor.At?
      modifies this`visitedMax
      ensures visitedMax == if cursor.index > old(visitedMax) then cursor.index else old(visitedMax)
    {
      if cursor.index > visitedMax {
        visitedMax := cursor.index;
      }
    }

    /** Makes sure file `process` is known, if it is published. */
    method Discover(process: nat, start: nat, published: nat) returns (found: bool)
      requires Valid() && process <= |metas| <= published <= |files| && start == StartOf(files, process)
      modifies this`finished, this`metas
      ensures Valid() && |metas| <= published
      ensures found == (process < published)
      ensures if found then process < |metas| && finished == old(finished)
              else finished && |metas| == published
    {
      if process == |metas| {
        if process == published {
          finished := true;
          return false;
        }
        metas := metas + [start];
        StartOfGrows(files, process, process + 1);
      }
      return true;
    }

    /** Opens known file `process` and goes to the target or to its last item; fails on an empty file. */
    method VisitFile(process: nat, target: nat) returns (ok: bool)
      requires Valid() && process < |metas| && metas[process] <= target
      modifies this`cursor, this`processIndex, this`visitedMax
      ensures Valid() && ok == (files[process] != [])
      ensures !ok ==> cursor == (if old(cursor).NoIter? then NoIter else Broken) && visitedMax == old(visitedMax)
      ensures ok ==> && cursor.At? && cursor.index <= visitedMax
                     && cursor.index == (if target < StartOf(files, process + 1) then target
                                         else StartOf(files, process + 1) - 1)
                     && cursor.index < |Flat(files)| && cursor.item == Flat(files)[cursor.index]
    {
      InKnownFiles(process);
      StartOfNext(files, process);
      hide StartOf, Flat;
      ok := OpenFile(process);
      if ok {
        processIndex := process;
        SeekInFile(target);
        ItemOfFile(files, process, cursor.index - metas[process]);
        UpdateVisitedMax();
      }
    }

    /** `_forward_to_target` from file `process` on, with `published` files to be had. */
    method ForwardToTarget(process: nat, start: nat, target: nat, published: nat) returns (r: Result)
      requires Valid() && process <= |metas| <= published <= |files| && start == StartOf(files, process) <= target
      modifies this
      ensures Valid() && |metas| <= published
      ensures target < StartOf(files, published) ==> Landed(r, target) && finished == old(finished)
      ensures target >= StartOf(files, published) ==>
                Exhausted(r, published) && (cursor.Broken? <==> LeftBroken(old(cursor), process, published))
      ensures target >= StartOf(files, published) && process == published ==> cursor == old(cursor)
      decreases |files| - process
    {
      var found := Discover(process, start, published);
      if !found {
        return Stop;
      }
      StartOfNext(files, process);
      StartOfGrows(files, process + 1, published);
      assert metas[process] == StartOf(files, process);
      hide StartOf, Flat, CursorOk, MetasOk;
      var ok := VisitFile(process, target);
      if ok && cursor.index >= target {
        return Got(cursor.index, cursor.item);
      }
      hide Landed, LeftBroken;
      ghost var before := cursor;
      r := ForwardToTarget(process + 1, if ok then cursor.index + 1 else start, target, published);
      BrokenFromNext(old(cursor), before, process, published);
    }

    /** One file further. */
    lemma BrokenFromNext(before: Cursor, after: Cursor, process: nat, published: nat)
      requires process < published <= |files|
      requires if files[process] == [] then after == if before.NoIter? then NoIter else Broken else after.At?
      ensures LeftBroken(before, process, published) == LeftBroken(after, process + 1, published)
    {
      StartOfNext(files, process);
      StartOfGrows(files, process + 1, published);
    }

    /** Going through the files from `process` on without finding the target leaves the iterator without a file exactly
        when the last one is empty and an iterator existed or one before it had items. */
    ghost predicate LeftBroken(before: Cursor, process: nat, published: nat)
      requires process <= published <= |files|
    {
      if process == published then before.Broken?
      else files[published - 1] == [] && (!before.NoIter? || StartOf(files, process) < StartOf(files, published))
    }

    lemma InKnownFiles(p: nat)
      requires MetasOk() && p < |metas|
      ensures metas[p] + |files[p]| <= StartOf(files, |metas|)
    {
      StartOfNext(files, p);
      StartOfGrows(files, p + 1, |metas|);
    }

    /** Standing on item `target`, which was returned. */
    ghost predicate Landed(r: Result, target: nat)
      reads this
    {
      && target < |Flat(files)| && r == Got(target, Flat(files)[target])
      && cursor.At? && cursor.index == target && cursor.item == Flat(files)[target]
      && target <= visitedMax
    }

    /** At the end of everything published. */
    ghost predicate Exhausted(r: Result, published: nat)
      reads this
    {
      r == Stop && finished && |metas| == published
    }

    /** `__next__`. */
    method Next(published: nat) returns (r: Result)
      requires Valid() && |metas| <= published <= |files|
      modifies this
      ensures Valid() && |metas| <= published
      ensures old(finished) ==> r == Stop && finished && cursor == old(cursor)
      ensures !old(finished) && old(cursor).Broken? ==> r == AssertFails && cursor == old(cursor)
      ensures !old(finished) && !old(cursor).Broken? ==>
                var next := if old(cursor).At? then old(cursor).index + 1 else 0;
                if next < StartOf(files, published) then Landed(r, next) && !finished
                else && Exhausted(r, published)
                     && (cursor.Broken? <==>
                           published > 0 && files[published - 1] == [] && StartOf(files, published) > 0)
    {
      if finished {
        return Stop;
      }
      var process := processIndex + 1;
      var next := 0;
      match cursor {
        case Broken =>
          return AssertFails;
        case At(p, i, _) =>
          InKnownFiles(p);
          StartOfGrows(files, |metas|, published);
          StartOfNext(files, p);
          hide StartOf, Flat;
          if i + 1 < metas[p] + |files[p]| {
            cursor := At(p, i + 1, files[p][i + 1 - metas[p]]);
            ItemOfFile(files, p, i + 1 - metas[p]);
            UpdateVisitedMax();
            return Got(i + 1, cursor.item);
          }
          next := i + 1;
        case NoIter =>
      }
      r := ForwardToTarget(process, next, next, published);
    }

    /** The file that `bisect_left` and the correction after it choose: the first one starting at the target, or else
        the last one starting before it. */
    function FileFor(target: nat): (p: nat)
      reads this
      requires MetasOk()
      ensures p <= |metas|
      ensures metas != [] ==> p < |metas| && metas[p] <= target
      ensures metas == [] ==> p == 0
      ensures forall q :: 0 <= q < p ==> metas[q] < target
      ensures metas != [] && metas[p] != target && p + 1 < |metas| ==> metas[p + 1] > target
    {
      var p := BisectLeft(target, 0);
      if |metas| > 0 && (p == |metas| || metas[p] > target) then p - 1 else p
    }

    /** The first file from `p` on that starts at the target or later. */
    function BisectLeft(target: nat, p: nat): (q: nat)
      reads this
      requires p <= |metas|
      ensures p <= q <= |metas| && (forall k :: p <= k < q ==> metas[k] < target)
      ensures q < |metas| ==> metas[q] >= target
      decreases |metas| - p
    {
      if p == |metas| || metas[p] >= target then p else BisectLeft(target, p + 1)
    }

    /** `seek`. */
    method Seek(target: nat, published: nat) returns (r: Result)
      requires Valid() && |metas| <= published <= |files|
      modifies this
      ensures Valid() && |metas| <= published
      ensures old(finished) && target > old(visitedMax) ==> r == Stop && finished && cursor == old(cursor)
      ensures old(finished) && target == old(visitedMax) ==>
                cursor == old(cursor)
                && if cursor.At? && cursor.index == target then Landed(r, target) else r == AssertFails
      ensures (!old(finished) || target < old(visitedMax)) && old(cursor).Broken? ==>
                r == AssertFails && cursor == old(cursor)
      ensures (!old(finished) || target < old(visitedMax)) && !old(cursor).Broken? ==>
                if target < StartOf(files, published) then Landed(r, target) && !finished
                else && Exhausted(r, published)
                     && (cursor.Broken? <==> old(LeftBroken(cursor, FileFor(target), published)))
    {
      if finished {
        if target > visitedMax {
          return Stop;
        }
        if target == visitedMax {
          if cursor.At? && cursor.index == target {
            ItemOfFile(files, cursor.file, target - metas[cursor.file]);
            return Got(target, cursor.item);
          }
          return AssertFails;
        }
      }
      finished := false;
      r := SeekInternal(target, published);
    }

    /** `_seek_internal`. */
    method SeekInternal(target: nat, published: nat) returns (r: Result)
      requires Valid() && |metas| <= published <= |files| && !finished
      modifies this
      ensures Valid() && |metas| <= published
      ensures old(cursor).Broken? ==> r == AssertFails && cursor == old(cursor)
      ensures !old(cursor).Broken? ==>
                if target < StartOf(files, published) then Landed(r, target) && !finished
                else && Exhausted(r, published)
                     && (cursor.Broken? <==> old(LeftBroken(cursor, FileFor(target), published)))
    {
      match cursor {
        case Broken =>
          return AssertFails;
        case At(p, i, item) =>
          if i == target {
            ItemOfFile(files, p, target - metas[p]);
            InKnownFiles(p);
            StartOfGrows(files, |metas|, published);
            UpdateVisitedMax();
            return Got(target, item);
          }
        case NoIter =>
      }
      var process := FileFor(target);
      r := ForwardToTarget(process, if process < |metas| then metas[process] else 0, target, published);
    }
  }

  /** Iterating after a reset yields every published item once and in order, whatever files are empty. */
  method ReadAll(v: Visitor, published: nat) returns (items: seq<Item>)
    requires v.Valid() && |v.metas| <= published <= |v.files|
    modifies v
    ensures v.Valid() && items == Flat(v.files[..published])
  {
    PrefixOfAll(v.files, published);
    ghost var all, n := Flat(v.files), StartOf(v.files, published);
    assert n <= |all| && all[..n] == Flat(v.files[..published]);
    hide Flat, StartOf, Visitor.Valid;
    v.Reset();
    items := [];
    var r := v.Next(published);
    while r.Got?
      invariant v.Valid() && |v.metas| <= published && items <= all && |items| <= n <= |all|
      invariant if r.Got? then v.Landed(r, |items|) && !v.finished && |items| < n else |items| == n
      decreases n - |items|, r.Got?
    {
      assert r.item == all[|items|];
      PrefixMore(all, items);
      items := items + [r.item];
      r := v.Next(published);
    }
    PrefixLength(all, items, n);
  }

  lemma PrefixMore(all: seq<Item>, items: seq<Item>)
    requires items <= all && |items| < |all|
    ensures items + [all[|items|]] <= all
  {
  }

  lemma PrefixLength(all: seq<Item>, items: seq<Item>, n: nat)
    requires items <= all && |items| == n
    ensures items == all[..n]
  {
  }

  /** An empty last file does leave the visitor unusable: its end is reached, a further file is published, and the
      next step fails instead of reading it. */
  method EmptyLastFileBreaks() returns (first: Result, second: Result, third: Result)
    ensures first == Got(0, 1) && second == Stop && third == AssertFails
  {
    var files := [[1], [], [2]];
    assert files[..1] == [[1]] && files[..2] == [[1], []] && [[1], []][..1] == [[1]] && [[1]][..0] == [];
    assert Flat([[1]]) == [1] && Flat([[1], []]) == [1] && files[..3] == files;
    assert Flat(files) == [1, 2];
    var v := new Visitor(files, []);
    first := v.Next(2);
    second := v.Next(2);
    v.Activate(3);
    third := v.Next(3);
  }
}
