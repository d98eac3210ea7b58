/**
 * Turning a flat list of `(depth, payload)` lines into a nested list, as
 * `process_depths` does for the list rule.  Each line's sub-list holds the
 * run of lines right after it that are deeper than it; only how depths
 * compare matters, not how far apart they are.
 */
module Depth {

  /** One entry of a nested list: a payload, or a nested list. */
  datatype DepthItem<T> = Item(value: T) | List(items: seq<DepthItem<T>>)

  /**
   * The end of the run of lines, starting at `from`, that are deeper than
   * `depth`: the first index at or after `from` whose depth is at most `depth`.
   */
  function RunEnd<T>(lines: seq<(nat, T)>, from: nat, depth: nat): (k: nat)
    requires from <= |lines|
    ensures from <= k <= |lines|
    ensures forall i :: from <= i < k ==> lines[i].0 > depth
    ensures k < |lines| ==> lines[k].0 <= depth
    decreases |lines| - from
  {
    if from == |lines| || lines[from].0 <= depth then from else RunEnd(lines, from + 1, depth)
  }

  /**
   * The nested list for `lines`: the first line, then (if any) the sub-list
   * built from the deeper lines that follow it, then the list of the rest.
   */
  function ProcessDepths<T>(lines: seq<(nat, T)>): seq<DepthItem<T>>
    decreases |lines|
  {
    if lines == [] then []
    else
      var k := RunEnd(lines, 1, lines[0].0);
      var children := ProcessDepths(lines[1..k]);
      [Item(lines[0].1)] + (if children == [] then [] else [List(children)]) + ProcessDepths(lines[k..])
  }

  /** The payloads of a nested list, in reading order. */
  function Flatten<T>(items: seq<DepthItem<T>>): seq<T>
    decreases items
  {
    if items == [] then [] else FlattenItem(items[0]) + Flatten(items[1..])
  }

  function FlattenItem<T>(item: DepthItem<T>): seq<T>
    decreases item
  {
    match item
    case Item(v) => [v]
    case List(sub) => Flatten(sub)
  }

  /** The payloads of the lines, in order. */
  function Payloads<T>(lines: seq<(nat, T)>): (r: seq<T>)
    ensures |r| == |lines| && forall i :: 0 <= i < |lines| ==> r[i] == lines[i].1
  {
    seq(|lines|, i requires 0 <= i < |lines| => lines[i].1)
  }

  /**
   * A nested list as `process_depths` shapes it: it starts with an item, a
   * sub-list always follows an item, and no sub-list is empty.
   */
  ghost predicate WellNested<T>(items: seq<DepthItem<T>>)
    decreases items
  {
    && (items != [] ==> items[0].Item?)
    && (forall i :: 0 < i < |items| && items[i].List? ==> items[i - 1].Item?)
    && (forall i :: 0 <= i < |items| && items[i].List? ==> items[i].items != [] && WellNested(items[i].items))
  }

  // ---------------------------------------------------------------------

  lemma {:induction false} FlattenAppend<T>(a: seq<DepthItem<T>>, b: seq<DepthItem<T>>)
    ensures Flatten(a + b) == Flatten(a) + Flatten(b)
    decreases |a|
  {
    if a == [] {
      assert a + b == b;
    } else {
      assert (a + b)[0] == a[0];
      assert (a + b)[1..] == a[1..] + b;
      FlattenAppend(a[1..], b);
    }
  }

  lemma PayloadsSplit<T>(lines: seq<(nat, T)>, k: nat)
    requires 1 <= k <= |lines|
    ensures Payloads(lines) == [lines[0].1] + Payloads(lines[1..k]) + Payloads(lines[k..])
  {
    var r := [lines[0].1] + Payloads(lines[1..k]) + Payloads(lines[k..]);
    assert |r| == |lines|;
    forall i | 0 <= i < |lines|
      ensures r[i] == lines[i].1
    {
      if i == 0 {
      } else if i < k {
        assert r[i] == Payloads(lines[1..k])[i - 1];
      } else {
        assert r[i] == Payloads(lines[k..])[i - k];
      }
    }
  }

  /** Nesting neither drops, duplicates nor reorders lines: reading the result back gives the payloads in order. */
  lemma {:induction false} ProcessDepthsKeepsOrder<T>(lines: seq<(nat, T)>)
    ensures Flatten(ProcessDepths(lines)) == Payloads(lines)
    decreases |lines|
  {
    if lines != [] {
      var k := RunEnd(lines, 1, lines[0].0);
      var children := ProcessDepths(lines[1..k]);
      var rest := ProcessDepths(lines[k..]);
      var sub: seq<DepthItem<T>> := if children == [] then [] else [List(children)];
      var first: seq<DepthItem<T>> := [Item(lines[0].1)];
      assert ProcessDepths(lines) == first + sub + rest;
      ProcessDepthsKeepsOrder(lines[1..k]);
      ProcessDepthsKeepsOrder(lines[k..]);
      assert Flatten(first) == [lines[0].1] by {
        assert Flatten(first) == FlattenItem(first[0]) + Flatten(first[1..]);
        assert first[1..] == [];
      }
      assert Flatten(sub) == Flatten(children) by {
        if children != [] {
          assert Flatten(sub) == FlattenItem(sub[0]) + Flatten(sub[1..]);
          assert sub[1..] == [];
        }
      }
      FlattenAppend(first + sub, rest);
      FlattenAppend(first, sub);
      PayloadsSplit(lines, k);
    }
  }

  /**
   * Nesting yields nothing only for no lines. The first line becomes the
   * first entry. A sub-list follows it exactly when deeper lines come right
   * after it, and the rest of the result is the nesting of the lines after
   * that run.
   */
  lemma {:induction false} ProcessDepthsHead<T>(lines: seq<(nat, T)>)
    ensures ProcessDepths(lines) == [] <==> lines == []
    ensures lines != [] ==>
              var r := ProcessDepths(lines);
              var k := RunEnd(lines, 1, lines[0].0);
              && r[0] == Item(lines[0].1)
              && (1 < |r| && r[1].List? <==> 1 < k)
              && r[(if 1 < k then 2 else 1)..] == ProcessDepths(lines[k..])
    decreases |lines|
  {
    if lines != [] {
      var k := RunEnd(lines, 1, lines[0].0);
      ProcessDepthsHead(lines[1..k]);
      ProcessDepthsHead(lines[k..]);
      if 1 < k {
        assert lines[1..k][0] == lines[1];
      }
      var children := ProcessDepths(lines[1..k]);
      var head: seq<DepthItem<T>> := [Item(lines[0].1)] + (if children == [] then [] else [List(children)]);
      assert ProcessDepths(lines) == head + ProcessDepths(lines[k..]);
      if 1 < k {
        assert children != [];
        assert ProcessDepths(lines)[1] == List(children);
      } else {
        assert children == [];
        if 1 < |ProcessDepths(lines)| {
          assert ProcessDepths(lines)[1] == ProcessDepths(lines[k..])[0];
          assert lines[k..][0] == lines[k];
        }
      }
    }
  }

  /** The result of nesting is always well nested. */
  lemma {:induction false} ProcessDepthsWellNested<T>(lines: seq<(nat, T)>)
    ensures WellNested(ProcessDepths(lines))
    decreases |lines|
  {
    if lines != [] {
      var k := RunEnd(lines, 1, lines[0].0);
      var children := ProcessDepths(lines[1..k]);
      var rest := ProcessDepths(lines[k..]);
      var head: seq<DepthItem<T>> := [Item(lines[0].1)] + (if children == [] then [] else [List(children)]);
      ProcessDepthsWellNested(lines[1..k]);
      ProcessDepthsWellNested(lines[k..]);
      var r := head + rest;
      assert r == ProcessDepths(lines);
      forall i | 0 < i < |r| && r[i].List?
        ensures r[i - 1].Item?
      {
        if i >= |head| + 1 {
          assert r[i] == rest[i - |head|] && r[i - 1] == rest[i - 1 - |head|];
        }
      }
      forall i | 0 <= i < |r| && r[i].List?
        ensures r[i].items != [] && WellNested(r[i].items)
      {
        if i >= |head| {
          assert r[i] == rest[i - |head|];
        }
      }
    }
  }

  // ---------------------------------------------------------------------
  // Only the order of depths matters

  /**
   * Two line lists with the same payloads whose depths compare the same way
   * at every pair of positions.
   */
  ghost predicate SameShape<T>(a: seq<(nat, T)>, b: seq<(nat, T)>)
  {
    && |a| == |b|
    && (forall i :: 0 <= i < |a| ==> a[i].1 == b[i].1)
    && (forall i, j :: 0 <= i < |a| && 0 <= j < |a| ==> (a[i].0 <= a[j].0 <==> b[i].0 <= b[j].0))
  }

  lemma {:induction false} SameShapeSlice<T>(a: seq<(nat, T)>, b: seq<(nat, T)>, lo: nat, hi: nat)
    requires SameShape(a, b) && lo <= hi <= |a|
    ensures SameShape(a[lo..hi], b[lo..hi])
  {
    var a', b' := a[lo..hi], b[lo..hi];
    forall i, j | 0 <= i < |a'| && 0 <= j < |a'|
      ensures a'[i].0 <= a'[j].0 <==> b'[i].0 <= b'[j].0
    {
      assert a'[i] == a[lo + i] && a'[j] == a[lo + j];
      assert b'[i] == b[lo + i] && b'[j] == b[lo + j];
    }
  }

  lemma {:induction false} SameRunEnd<T>(a: seq<(nat, T)>, b: seq<(nat, T)>, from: nat, p: nat)
    requires SameShape(a, b) && from <= |a| && p < |a|
    ensures RunEnd(a, from, a[p].0) == RunEnd(b, from, b[p].0)
    decreases |a| - from
  {
    if from < |a| {
      assert a[from].0 <= a[p].0 <==> b[from].0 <= b[p].0;
      SameRunEnd(a, b, from + 1, p);
    }
  }

  /** Nesting depends on how depths compare, not on their values. */
  lemma {:induction false} RelativeDepthsOnly<T>(a: seq<(nat, T)>, b: seq<(nat, T)>)
    requires SameShape(a, b)
    ensures ProcessDepths(a) == ProcessDepths(b)
    decreases |a|
  {
    if a != [] {
      var k := RunEnd(a, 1, a[0].0);
      SameRunEnd(a, b, 1, 0);
      SameShapeSlice(a, b, 1, k);
      SameShapeSlice(a, b, k, |a|);
      RelativeDepthsOnly(a[1..k], b[1..k]);
      RelativeDepthsOnly(a[k..], b[k..]);
      assert a[k..] == a[k..|a|] && b[k..] == b[k..|b|];
    }
  }

  /**
   * Depths 0, 2, 4, 0 nest exactly as 0, 1, 2, 0 do: the second line under
   * the first, the third under the second, the fourth back at the top.
   */
  lemma OutlineExample<T>(a: T, b: T, c: T, d: T)
    ensures ProcessDepths([(0, a), (2, b), (4, c), (0, d)]) == [Item(a), List([Item(b), List([Item(c)])]), Item(d)]
    ensures ProcessDepths([(0, a), (1, b), (2, c), (0, d)]) == [Item(a), List([Item(b), List([Item(c)])]), Item(d)]
  {
    var wide: seq<(nat, T)> := [(0, a), (2, b), (4, c), (0, d)];
    var tight: seq<(nat, T)> := [(0, a), (1, b), (2, c), (0, d)];
    assert RunEnd(wide, 3, 0) == 3;
    assert RunEnd(wide, 2, 0) == 3;
    assert RunEnd(wide, 1, 0) == 3;
    assert wide[1..3] == [(2, b), (4, c)];
    assert RunEnd(wide[1..3], 2, 2) == 2;
    assert RunEnd(wide[1..3], 1, 2) == 2;
    assert wide[1..3][1..2] == [(4, c)];
    assert RunEnd(wide[1..3][1..2], 1, 4) == 1;
    assert ProcessDepths(wide[1..3][1..2]) == [Item(c)];
    assert wide[1..3][2..] == [];
    assert ProcessDepths(wide[1..3]) == [Item(b), List([Item(c)])];
    assert wide[3..] == [(0, d)];
    assert RunEnd(wide[3..], 1, 0) == 1;
    assert ProcessDepths(wide[3..]) == [Item(d)];
    RelativeDepthsOnly(wide, tight);
  }
}
