/** Named list entries (volumes, mounts, variables, containers) and adding the ones not yet there. */
module Items {
  import opened Prelude
  import opened JsonPatch

  datatype Item = Item(name: string, body: Json)

  /** An optional list, as the pod types carry it: an absent list is not an empty one. */
  type ItemList = Option<seq<Item>>

  function NamesOf(items: seq<Item>): set<string> {
    set i | i in items :: i.name
  }

  /** `names` */
  function Names(list: ItemList): set<string> {
    NamesOf(list.GetOr([]))
  }

  function NameSeq(items: seq<Item>): (r: seq<string>)
    ensures |r| == |items|
    ensures forall n :: n in r <==> n in NamesOf(items)
  {
    var r := seq(|items|, i requires 0 <= i < |items| => items[i].name);
    assert forall i :: 0 <= i < |items| ==> items[i] in items && r[i] == items[i].name;
    r
  }

  function Bodies(items: seq<Item>): (r: seq<Json>)
    ensures |r| == |items|
  {
    seq(|items|, i requires 0 <= i < |items| => items[i].body)
  }

  /** The entries whose name is not taken. Names repeated inside `items` are not weeded out. */
  function Fresh(taken: set<string>, items: seq<Item>): seq<Item> {
    if items == [] then []
    else (if items[0].name in taken then [] else [items[0]]) + Fresh(taken, items[1..])
  }

  lemma {:induction false} FreshMembers(taken: set<string>, items: seq<Item>)
    ensures forall i :: i in Fresh(taken, items) <==> i in items && i.name !in taken
  {
    if items != [] {
      FreshMembers(taken, items[1..]);
      assert items == [items[0]] + items[1..];
    }
  }

  /** `list` followed by `added`; an absent list appears only when there is something to add. */
  function Extend(list: ItemList, added: seq<Item>): ItemList {
    if added == [] then list else Some(list.GetOr([]) + added)
  }

  /** `list` extended with the fresh entries. */
  function AppendFresh(list: ItemList, items: seq<Item>): ItemList {
    Extend(list, Fresh(Names(list), items))
  }

  /** What is there stays, in place, and every requested name ends up there. */
  lemma AppendFreshFacts(list: ItemList, items: seq<Item>)
    ensures list.GetOr([]) <= AppendFresh(list, items).GetOr([])
    ensures Names(AppendFresh(list, items)) == Names(list) + NamesOf(items)
  {
    var added := Fresh(Names(list), items);
    FreshMembers(Names(list), items);
    assert forall i :: i in list.GetOr([]) + added <==> i in list.GetOr([]) || i in added;
    assert forall i :: i in items ==> i.name in Names(list) || i in added;
  }

  lemma {:induction false} FreshEverything(items: seq<Item>)
    ensures Fresh({}, items) == items
  {
    if items != [] {
      FreshEverything(items[1..]);
    }
  }

  lemma {:induction false} FreshNothing(taken: set<string>, items: seq<Item>)
    requires NamesOf(items) <= taken
    ensures Fresh(taken, items) == []
  {
    if items != [] {
      assert items[0] in items && NamesOf(items[1..]) <= NamesOf(items);
      assert items[0].name in NamesOf(items);
      FreshNothing(taken, items[1..]);
    }
  }

  lemma {:induction false} FreshAppend(taken: set<string>, xs: seq<Item>, ys: seq<Item>)
    ensures Fresh(taken, xs + ys) == Fresh(taken, xs) + Fresh(taken, ys)
  {
    if xs == [] {
      assert xs + ys == ys;
    } else {
      assert (xs + ys)[1..] == xs[1..] + ys;
      FreshAppend(taken, xs[1..], ys);
    }
  }

  /** Taking more names changes nothing when none of them is asked for. */
  lemma {:induction false} FreshIgnores(taken: set<string>, more: set<string>, items: seq<Item>)
    requires NamesOf(items) !! more
    ensures Fresh(taken + more, items) == Fresh(taken, items)
  {
    if items != [] {
      assert items[0] in items && items[0].name in NamesOf(items);
      assert NamesOf(items[1..]) <= NamesOf(items);
      FreshIgnores(taken, more, items[1..]);
    }
  }

  lemma {:induction false} FreshDistinct(taken: set<string>, items: seq<Item>)
    requires Distinct(NameSeq(items))
    ensures Distinct(NameSeq(Fresh(taken, items)))
  {
    if items != [] {
      var head, rest := items[0], items[1..];
      assert NameSeq(items) == [head.name] + NameSeq(rest);
      DistinctCons(head.name, NameSeq(rest));
      FreshDistinct(taken, rest);
      var tail := Fresh(taken, rest);
      assert NameSeq([head] + tail) == [head.name] + NameSeq(tail);
      FreshMembers(taken, rest);
      assert NamesOf(tail) <= NamesOf(rest);
      DistinctCons(head.name, NameSeq(tail));
      assert Fresh(taken, items) == if head.name in taken then tail else [head] + tail;
    }
  }

  /** Appending twice adds nothing the second time. */
  lemma AppendFreshIdempotent(list: ItemList, items: seq<Item>)
    ensures AppendFresh(AppendFresh(list, items), items) == AppendFresh(list, items)
    ensures Fresh(Names(AppendFresh(list, items)), items) == []
  {
    AppendFreshFacts(list, items);
    FreshNothing(Names(AppendFresh(list, items)), items);
  }

  /** Two rounds with disjoint names are one round with the concatenation. */
  lemma AppendFreshCompose(list: ItemList, xs: seq<Item>, ys: seq<Item>)
    requires NamesOf(xs) !! NamesOf(ys)
    ensures AppendFresh(AppendFresh(list, xs), ys) == AppendFresh(list, xs + ys)
  {
    var taken, mid := Names(list), AppendFresh(list, xs);
    AppendFreshFacts(list, xs);
    FreshAppend(taken, xs, ys);
    FreshIgnores(taken, NamesOf(xs), ys);
    assert Names(mid) == taken + NamesOf(xs);
    ExtendTwice(list, Fresh(taken, xs), Fresh(taken, ys));
  }

  lemma ExtendTwice(list: ItemList, a: seq<Item>, b: seq<Item>)
    ensures Extend(Extend(list, a), b) == Extend(list, a + b)
  {
    var before := list.GetOr([]);
    assert before + a + b == before + (a + b);
    assert a == [] ==> a + b == b;
    assert b == [] ==> a + b == a;
  }

  lemma AppendFreshDistinct(list: ItemList, items: seq<Item>)
    requires Distinct(NameSeq(list.GetOr([]))) && Distinct(NameSeq(items))
    ensures Distinct(NameSeq(AppendFresh(list, items).GetOr([])))
  {
    var before, added := list.GetOr([]), Fresh(Names(list), items);
    FreshDistinct(Names(list), items);
    assert NameSeq(before + added) == NameSeq(before) + NameSeq(added);
    FreshMembers(Names(list), items);
    assert NamesOf(added) !! NamesOf(before);
    DistinctAppend(NameSeq(before), NameSeq(added));
  }

  /** How often an entry is added does not depend on the order of the request. */
  lemma {:induction false} FreshMultiset(taken: set<string>, items: seq<Item>, x: Item)
    ensures multiset(Fresh(taken, items))[x] == if x.name in taken then 0 else multiset(items)[x]
  {
    if items != [] {
      FreshMultiset(taken, items[1..], x);
      assert items == [items[0]] + items[1..];
    }
  }

  lemma FreshPermutation(taken: set<string>, xs: seq<Item>, ys: seq<Item>)
    requires multiset(xs) == multiset(ys)
    ensures multiset(Fresh(taken, xs)) == multiset(Fresh(taken, ys))
  {
    forall x
      ensures multiset(Fresh(taken, xs))[x] == multiset(Fresh(taken, ys))[x]
    {
      FreshMultiset(taken, xs, x);
      FreshMultiset(taken, ys, x);
    }
  }
}
