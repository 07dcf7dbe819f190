/** Splitting the indexer's writes into requests (packages/core/src/competition.ts:347-372). */
module Chunks {

  function Size<T>(group: seq<T>, bytes: T -> nat): nat {
    if group == [] then 0 else Size(group[..|group| - 1], bytes) + bytes(group[|group| - 1])
  }

  lemma SizeOfAppended<T>(group: seq<T>, item: T, bytes: T -> nat)
    ensures Size(group + [item], bytes) == Size(group, bytes) + bytes(item)
  {
    assert (group + [item])[..|group|] == group;
  }

  function Flatten<T>(groups: seq<seq<T>>): seq<T> {
    if groups == [] then [] else Flatten(groups[..|groups| - 1]) + groups[|groups| - 1]
  }

  /** A group a request can carry: within the limit, or one item that is over it on its own. */
  predicate Fits<T>(group: seq<T>, bytes: T -> nat, maxBytes: int) {
    group != [] && (Size(group, bytes) <= maxBytes || |group| == 1)
  }

  /** The items in order, in groups that each fit. */
  ghost predicate IsSplit<T>(groups: seq<seq<T>>, items: seq<T>, bytes: T -> nat, maxBytes: int) {
    Flatten(groups) == items && forall i :: 0 <= i < |groups| ==> Fits(groups[i], bytes, maxBytes)
  }

  /** The groups after each item in turn: it joins the last group if that stays within the limit. */
  function Greedy<T>(items: seq<T>, bytes: T -> nat, maxBytes: int): seq<seq<T>> {
    if items == [] then []
    else
      var groups, item := Greedy(items[..|items| - 1], bytes, maxBytes), items[|items| - 1];
      if groups == [] || Size(groups[|groups| - 1], bytes) + bytes(item) > maxBytes then groups + [[item]]
      else groups[..|groups| - 1] + [groups[|groups| - 1] + [item]]
  }

  /** The groups closed so far and the open one. */
  function AllGroups<T>(out: seq<seq<T>>, group: seq<T>): seq<seq<T>> {
    if group == [] then out else out + [group]
  }

  lemma GreedyTakes<T>(items: seq<T>, i: nat, out: seq<seq<T>>, group: seq<T>, bytes: T -> nat, maxBytes: int)
    requires i < |items| && (group == [] ==> out == [])
    requires AllGroups(out, group) == Greedy(items[..i], bytes, maxBytes)
    ensures Greedy(items[..i + 1], bytes, maxBytes) ==
            if group != [] && Size(group, bytes) + bytes(items[i]) > maxBytes then AllGroups(out + [group], [items[i]])
            else AllGroups(out, group + [items[i]])
  {
    assert items[..i + 1][..i] == items[..i];
    var groups := Greedy(items[..i], bytes, maxBytes);
    var after := Greedy(items[..i + 1], bytes, maxBytes);
    if group == [] {
      assert after == [[items[i]]];
      assert group + [items[i]] == [items[i]];
    } else {
      assert groups[|groups| - 1] == group && groups[..|groups| - 1] == out;
      if Size(group, bytes) + bytes(items[i]) > maxBytes {
        assert after == AllGroups(out + [group], [items[i]]);
      } else {
        assert after == AllGroups(out, group + [items[i]]);
      }
    }
  }

  method ChunkBySize<T>(items: seq<T>, bytes: T -> nat, maxBytes: int) returns (out: seq<seq<T>>)
    ensures IsSplit(out, items, bytes, maxBytes)
    ensures forall other :: IsSplit(other, items, bytes, maxBytes) ==> |out| <= |other|
  {
    out := [];
    var group: seq<T>, size := [], 0;
    for i := 0 to |items|
      invariant size == Size(group, bytes)
      invariant group == [] ==> out == []
      invariant AllGroups(out, group) == Greedy(items[..i], bytes, maxBytes)
    {
      var item := items[i];
      var n := bytes(item);
      GreedyTakes(items, i, out, group, bytes, maxBytes);
      if group != [] && size + n > maxBytes {
        out := out + [group];
        group, size := [], 0;
      }
      SizeOfAppended(group, item, bytes);
      group := group + [item];
      size := size + n;
    }
    if group != [] {
      out := out + [group];
    }
    assert items[..|items|] == items;
    GreedyIsSplit(items, bytes, maxBytes);
    GreedyIsMinimal(items, bytes, maxBytes);
  }

  lemma GreedyIsMinimal<T>(items: seq<T>, bytes: T -> nat, maxBytes: int)
    ensures forall other :: IsSplit(other, items, bytes, maxBytes) ==> |Greedy(items, bytes, maxBytes)| <= |other|
  {
    forall other | IsSplit(other, items, bytes, maxBytes) ensures |Greedy(items, bytes, maxBytes)| <= |other| {
      GreedyStaysAhead(items, other, bytes, maxBytes);
    }
  }

  lemma {:induction false} GreedyIsSplit<T>(items: seq<T>, bytes: T -> nat, maxBytes: int)
    ensures IsSplit(Greedy(items, bytes, maxBytes), items, bytes, maxBytes)
  {
    if items != [] {
      var before, item := items[..|items| - 1], items[|items| - 1];
      GreedyIsSplit(before, bytes, maxBytes);
      var groups := Greedy(before, bytes, maxBytes);
      assert items == before + [item];
      if groups == [] || Size(groups[|groups| - 1], bytes) + bytes(item) > maxBytes {
        assert (groups + [[item]])[..|groups|] == groups;
      } else {
        var last := groups[|groups| - 1];
        SizeOfAppended(last, item, bytes);
        assert (groups[..|groups| - 1] + [last + [item]])[..|groups| - 1] == groups[..|groups| - 1];
      }
    }
  }

  function LastSize<T>(groups: seq<seq<T>>, bytes: T -> nat): nat {
    if groups == [] then 0 else Size(groups[|groups| - 1], bytes)
  }

  /** A split of all items but the last, from a split of all of them. */
  lemma DropLastItem<T>(groups: seq<seq<T>>, items: seq<T>, bytes: T -> nat, maxBytes: int) returns (shorter: seq<seq<T>>)
    requires IsSplit(groups, items, bytes, maxBytes) && items != []
    ensures groups != []
    ensures IsSplit(shorter, items[..|items| - 1], bytes, maxBytes)
    ensures if |groups[|groups| - 1]| == 1 then
              shorter == groups[..|groups| - 1] && LastSize(groups, bytes) == bytes(items[|items| - 1])
            else
              && |shorter| == |groups| && LastSize(groups, bytes) <= maxBytes
              && LastSize(groups, bytes) == LastSize(shorter, bytes) + bytes(items[|items| - 1])
  {
    var last := groups[|groups| - 1];
    var front := groups[..|groups| - 1];
    assert Fits(last, bytes, maxBytes) && items == Flatten(front) + last;
    assert last[|last| - 1] == items[|items| - 1];
    assert items[..|items| - 1] == Flatten(front) + last[..|last| - 1];
    if |last| == 1 {
      shorter := front;
      assert last == [] + [last[0]];
      SizeOfAppended([], last[0], bytes);
    } else {
      shorter := front + [last[..|last| - 1]];
      assert shorter[..|front|] == front;
    }
  }

  /** After any number of items the greedy split has no more groups than another, and with as many, no fuller a last one. */
  lemma {:induction false} GreedyStaysAhead<T>(items: seq<T>, other: seq<seq<T>>, bytes: T -> nat, maxBytes: int)
    requires IsSplit(other, items, bytes, maxBytes)
    ensures var groups := Greedy(items, bytes, maxBytes);
            |groups| < |other| || (|groups| == |other| && LastSize(groups, bytes) <= LastSize(other, bytes))
  {
    if items != [] {
      var shorter := DropLastItem(other, items, bytes, maxBytes);
      GreedyStaysAhead(items[..|items| - 1], shorter, bytes, maxBytes);
      var groups, item := Greedy(items[..|items| - 1], bytes, maxBytes), items[|items| - 1];
      assert [item] == [] + [item];
      SizeOfAppended([], item, bytes);
      if groups != [] {
        SizeOfAppended(groups[|groups| - 1], item, bytes);
      }
    }
  }
}
