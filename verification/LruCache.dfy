/** A cache bounded by total cost: reading an entry makes it the most recent, and storing one
    evicts the least recently used entries until the bound holds again. */
module LruCache {
  import opened Options
  import JsMap

  datatype Held<V> = Held(value: V, cost: int)

  /** Oldest use first. */
  type Entries<V> = JsMap.OrderedMap<string, Held<V>>

  function Cost<V>(entries: Entries<V>): int {
    if entries == [] then 0 else entries[0].1.cost + Cost(entries[1..])
  }

  /** Drops entries from the front until what is left fits. */
  function EvictTo<V>(entries: Entries<V>, maxCost: int): Entries<V> {
    if entries == [] || Cost(entries) <= maxCost then entries else EvictTo(entries[1..], maxCost)
  }

  // ---------- The operations on the recency list ----------

  function AfterGet<V>(entries: Entries<V>, key: string): Entries<V> {
    match JsMap.Get(entries, key)
    case None => entries
    case Some(held) => JsMap.Delete(entries, key) + [(key, held)]
  }

  function AfterSet<V>(entries: Entries<V>, maxCost: int, key: string, held: Held<V>): Entries<V> {
    var rest := JsMap.Delete(entries, key);
    if held.cost > maxCost then rest else EvictTo(rest + [(key, held)], maxCost)
  }

  datatype Op<V> = Get(key: string) | Set(key: string, held: Held<V>) | Delete(key: string) | Clear

  function Apply<V>(entries: Entries<V>, maxCost: int, op: Op<V>): Entries<V> {
    match op
    case Get(key) => AfterGet(entries, key)
    case Set(key, held) => AfterSet(entries, maxCost, key, held)
    case Delete(key) => JsMap.Delete(entries, key)
    case Clear => []
  }

  /** The cache after a sequence of operations on an empty one. */
  function Run<V>(maxCost: int, ops: seq<Op<V>>): Entries<V> {
    if ops == [] then [] else Apply(Run(maxCost, ops[..|ops| - 1]), maxCost, ops[|ops| - 1])
  }

  // ---------- Costs ----------

  lemma {:induction false} CostAppend<V>(x: Entries<V>, y: Entries<V>)
    ensures Cost(x + y) == Cost(x) + Cost(y)
  {
    if x == [] {
      assert x + y == y;
    } else {
      CostAppend(x[1..], y);
      assert (x + y)[1..] == x[1..] + y;
    }
  }

  lemma CostOfOne<V>(e: (string, Held<V>))
    ensures Cost([e]) == e.1.cost
  {
    assert [e][1..] == [];
  }

  lemma CostWithout<V>(entries: Entries<V>, key: string)
    ensures Cost(JsMap.Delete(entries, key))
            == Cost(entries) - (if JsMap.Has(entries, key) then JsMap.Get(entries, key).value.cost else 0)
  {
    var i := JsMap.Find(entries, key);
    if i < |entries| {
      assert entries == entries[..i] + [entries[i]] + entries[i + 1..];
      CostAppend(entries[..i] + [entries[i]], entries[i + 1..]);
      CostAppend(entries[..i], [entries[i]]);
      CostOfOne(entries[i]);
      CostAppend(entries[..i], entries[i + 1..]);
    }
  }

  lemma CostOfMoved<V>(entries: Entries<V>, key: string)
    ensures Cost(AfterGet(entries, key)) == Cost(entries)
  {
    if JsMap.Has(entries, key) {
      var held := JsMap.Get(entries, key).value;
      CostWithout(entries, key);
      CostAppend(JsMap.Delete(entries, key), [(key, held)]);
      CostOfOne((key, held));
    }
  }

  ghost predicate NonNegative<V>(entries: Entries<V>) {
    forall i :: 0 <= i < |entries| ==> entries[i].1.cost >= 0
  }

  lemma {:induction false} NonNegativeCost<V>(entries: Entries<V>)
    requires NonNegative(entries)
    ensures Cost(entries) >= 0
  {
    if entries != [] { NonNegativeCost(entries[1..]); }
  }

  // ---------- Eviction ----------

  /** Storing evicts exactly the shortest oldest-first prefix that restores the bound. */
  lemma {:induction false} EvictsShortestPrefix<V>(entries: Entries<V>, maxCost: int) returns (k: nat)
    ensures k <= |entries| && EvictTo(entries, maxCost) == entries[k..]
    ensures Cost(entries[k..]) <= maxCost || k == |entries|
    ensures forall j :: 0 <= j < k ==> Cost(entries[j..]) > maxCost
  {
    if entries == [] || Cost(entries) <= maxCost {
      k := 0;
    } else {
      var l := EvictsShortestPrefix(entries[1..], maxCost);
      k := l + 1;
      assert entries[k..] == entries[1..][l..];
      forall j | 0 <= j < k ensures Cost(entries[j..]) > maxCost {
        if j > 0 { assert entries[j..] == entries[1..][j - 1..]; } else { assert entries[0..] == entries; }
      }
    }
  }

  /** An accepted entry survives its own Set, as the most recent one, and the bound holds. */
  lemma AcceptedKeyIsKept<V>(entries: Entries<V>, maxCost: int, key: string, held: Held<V>)
    requires held.cost <= maxCost
    ensures var after := AfterSet(entries, maxCost, key, held);
            after != [] && after[|after| - 1] == (key, held) && Cost(after) <= maxCost
  {
    var all := JsMap.Delete(entries, key) + [(key, held)];
    var k := EvictsShortestPrefix(all, maxCost);
    assert all[|all| - 1..] == [(key, held)];
    CostOfOne((key, held));
    assert k < |all|;
  }

  /** Storing takes the key out, adds it as the most recent one, and evicts as few of the least
      recently used entries as it must; what costs more than the whole bound is not kept. */
  lemma SetEvictsAsFewAsItMust<V>(entries: Entries<V>, maxCost: int, key: string, held: Held<V>) returns (k: nat)
    ensures var after, rest := Apply(entries, maxCost, Set(key, held)), JsMap.Delete(entries, key);
            var all := rest + [(key, held)];
            && (held.cost > maxCost ==> after == rest)
            && (held.cost <= maxCost ==>
                  && k < |all| && after == all[k..] && Cost(after) <= maxCost
                  && forall j :: 0 <= j < k ==> Cost(all[j..]) > maxCost)
  {
    k := 0;
    if held.cost <= maxCost {
      AcceptedKeyIsKept(entries, maxCost, key, held);
      k := EvictsShortestPrefix(JsMap.Delete(entries, key) + [(key, held)], maxCost);
    }
  }

  /** Reading changes no held value, and makes the entry read the most recent one. */
  lemma GetKeepsValues<V>(entries: Entries<V>, maxCost: int, key: string, other: string)
    requires JsMap.Distinct(entries)
    ensures var after := Apply(entries, maxCost, Get(key));
            && JsMap.Get(after, other) == JsMap.Get(entries, other)
            && (JsMap.Has(entries, key) ==> Some(after[|after| - 1].1) == JsMap.Get(entries, key))
  {
    if JsMap.Has(entries, key) {
      JsMap.DeleteKeepsOthers(entries, key, other);
      JsMap.DeleteKeeps(entries, key);
      JsMap.GetAppended(JsMap.Delete(entries, key), key, JsMap.Get(entries, key).value, other);
    }
  }

  // ---------- Every operation sequence ----------

  ghost predicate NonNegativeCosts<V>(ops: seq<Op<V>>) {
    forall i :: 0 <= i < |ops| && ops[i].Set? ==> ops[i].held.cost >= 0
  }

  lemma StepKeepsBound<V>(entries: Entries<V>, maxCost: int, op: Op<V>)
    requires maxCost > 0 && NonNegative(entries) && Cost(entries) <= maxCost
    requires op.Set? ==> op.held.cost >= 0
    ensures NonNegative(Apply(entries, maxCost, op)) && Cost(Apply(entries, maxCost, op)) <= maxCost
  {
    hide Cost;
    match op
    case Get(key) => CostOfMoved(entries, key);
    case Delete(key) => CostWithout(entries, key);
    case Clear => NoCost<V>();
    case Set(key, held) => SetKeepsBound(entries, maxCost, key, held);
  }

  lemma NoCost<V>()
    ensures Cost<V>([]) == 0
  {
  }

  lemma SetKeepsBound<V>(entries: Entries<V>, maxCost: int, key: string, held: Held<V>)
    requires maxCost > 0 && NonNegative(entries) && Cost(entries) <= maxCost && held.cost >= 0
    ensures NonNegative(AfterSet(entries, maxCost, key, held)) && Cost(AfterSet(entries, maxCost, key, held)) <= maxCost
  {
    hide Cost, EvictTo, JsMap.Delete;
    CostWithout(entries, key);
    NonNegativeWithout(entries, key);
    if held.cost <= maxCost {
      AcceptedKeyIsKept(entries, maxCost, key, held);
      var k := EvictsShortestPrefix(JsMap.Delete(entries, key) + [(key, held)], maxCost);
    }
  }

  lemma NonNegativeWithout<V>(entries: Entries<V>, key: string)
    requires NonNegative(entries)
    ensures NonNegative(JsMap.Delete(entries, key))
    ensures JsMap.Has(entries, key) ==> JsMap.Get(entries, key).value.cost >= 0
  {
  }

  /** With non-negative costs the total cost never exceeds the bound. */
  lemma {:induction false} BoundHolds<V>(maxCost: int, ops: seq<Op<V>>)
    requires maxCost > 0 && NonNegativeCosts(ops)
    ensures NonNegative(Run(maxCost, ops)) && Cost(Run(maxCost, ops)) <= maxCost
  {
    if ops != [] {
      var n := |ops| - 1;
      BoundHolds(maxCost, ops[..n]);
      StepKeepsBound(Run(maxCost, ops[..n]), maxCost, ops[n]);
    }
  }

  function DeleteAll<V>(entries: Entries<V>, keys: seq<string>): Entries<V>
    decreases |keys|
  {
    if keys == [] then entries else DeleteAll(JsMap.Delete(entries, keys[0]), keys[1..])
  }

  function PositivePart(cost: int): nat { if cost > 0 then cost else 0 }

  function PositiveCost<V>(entries: Entries<V>): nat {
    if entries == [] then 0 else PositivePart(entries[0].1.cost) + PositiveCost(entries[1..])
  }

  lemma {:induction false} PositiveCostAppend<V>(x: Entries<V>, y: Entries<V>)
    ensures PositiveCost(x + y) == PositiveCost(x) + PositiveCost(y)
  {
    if x == [] {
      assert x + y == y;
    } else {
      PositiveCostAppend(x[1..], y);
      assert (x + y)[1..] == x[1..] + y;
    }
  }

  lemma PositiveCostWithout<V>(entries: Entries<V>, key: string)
    ensures PositiveCost(JsMap.Delete(entries, key))
            == PositiveCost(entries) - (if JsMap.Has(entries, key)
              then PositivePart(JsMap.Get(entries, key).value.cost) else 0)
  {
    var i := JsMap.Find(entries, key);
    if i < |entries| {
      var one := [entries[i]];
      assert entries == entries[..i] + (one + entries[i + 1..]);
      PositiveCostAppend(entries[..i], one + entries[i + 1..]);
      PositiveCostAppend(one, entries[i + 1..]);
      assert |one[1..]| == 0;
      PositiveCostAppend(entries[..i], entries[i + 1..]);
    }
  }

  lemma {:induction false} CostAtMostPositive<V>(entries: Entries<V>)
    ensures Cost(entries) <= PositiveCost(entries)
    ensures NonNegative(entries) ==> Cost(entries) == PositiveCost(entries)
  {
    if entries != [] { CostAtMostPositive(entries[1..]); }
  }

  lemma {:induction false} DeletingLowersPositiveCost<V>(entries: Entries<V>, keys: seq<string>)
    ensures PositiveCost(DeleteAll(entries, keys)) <= PositiveCost(entries)
    decreases |keys|
  {
    if keys != [] {
      PositiveCostWithout(entries, keys[0]);
      DeletingLowersPositiveCost(JsMap.Delete(entries, keys[0]), keys[1..]);
    }
  }

  lemma {:induction false} DeletingTheNegative<V>(entries: Entries<V>) returns (keys: seq<string>)
    requires JsMap.Distinct(entries)
    ensures Cost(DeleteAll(entries, keys)) == PositiveCost(entries)
    decreases |entries|
  {
    hide PositiveCost, Cost;
    if NonNegative(entries) {
      keys := [];
      CostAtMostPositive(entries);
    } else {
      var i :| 0 <= i < |entries| && entries[i].1.cost < 0;
      var key := entries[i].0;
      assert JsMap.Find(entries, key) == i;
      JsMap.DeleteKeeps(entries, key);
      PositiveCostWithout(entries, key);
      var rest := DeletingTheNegative(JsMap.Delete(entries, key));
      keys := [key] + rest;
      assert keys[1..] == rest;
    }
  }

  /** Without the hypothesis on costs: the bound survives every further series of deletions
      exactly when the positive costs alone respect it. */
  lemma BoundSurvivesDeletionsIff<V>(entries: Entries<V>, maxCost: int)
    requires JsMap.Distinct(entries)
    ensures (forall keys :: Cost(DeleteAll(entries, keys)) <= maxCost) <==> PositiveCost(entries) <= maxCost
  {
    hide PositiveCost, Cost, DeleteAll;
    if PositiveCost(entries) <= maxCost {
      forall keys ensures Cost(DeleteAll(entries, keys)) <= maxCost {
        DeletingLowersPositiveCost(entries, keys);
        CostAtMostPositive(DeleteAll(entries, keys));
      }
    } else {
      var keys := DeletingTheNegative(entries);
      assert Cost(DeleteAll(entries, keys)) > maxCost;
    }
  }

  /** Operations that reach such entries, and the deletion that breaks the bound. */
  lemma NegativeCostBreaksBound()
    ensures var ops := [Set("a", Held(0, -1)), Set("b", Held(0, 1)), Set("c", Held(0, 1)), Delete("a")];
            Cost(Run(1, ops)) == 2
  {
    var a, b, c := ("a", Held(0, -1)), ("b", Held(0, 1)), ("c", Held(0, 1));
    var ops := [Set("a", a.1), Set("b", b.1), Set("c", c.1), Delete("a")];
    CostOfOne(a);
    CostOfOne(b);
    CostOfOne(c);
    CostAppend([a], [b]);
    CostAppend([a] + [b], [c]);
    CostAppend([b], [c]);
    SetOnEmpty(a);
    assert ops[..3][..2] == ops[..2] && ops[..2][..1] == ops[..1] && ops[..1][..0] == [];
    assert Run(1, ops[..1]) == [a];
    assert JsMap.Delete([a], "b") == [a];
    assert Run(1, ops[..2]) == [a] + [b];
    assert JsMap.Delete([a] + [b], "c") == [a] + [b];
    assert Run(1, ops[..3]) == [a] + [b] + [c];
    assert Run(1, ops) == [b] + [c];
  }

  lemma SetOnEmpty(e: (string, Held<int>))
    requires e.1.cost <= 1
    ensures AfterSet([], 1, e.0, e.1) == [e]
  {
    CostOfOne(e);
    assert JsMap.Delete<string, Held<int>>([], e.0) + [e] == [e];
  }

  // ---------- Recency ----------

  predicate Uses<V>(op: Op<V>, key: string) { (op.Get? || op.Set?) && op.key == key }

  /** One more than the time of the last read or store of a key; zero if there was none. */
  function LastUse<V>(ops: seq<Op<V>>, key: string): nat {
    if ops == [] then 0
    else if Uses(ops[|ops| - 1], key) then |ops|
    else LastUse(ops[..|ops| - 1], key)
  }

  lemma {:induction false} LastUseInPast<V>(ops: seq<Op<V>>, key: string)
    ensures LastUse(ops, key) <= |ops|
  {
    if ops != [] { LastUseInPast(ops[..|ops| - 1], key); }
  }

  ghost predicate InRecencyOrder<V>(entries: Entries<V>, ops: seq<Op<V>>) {
    forall i, j :: 0 <= i < j < |entries| ==> LastUse(ops, entries[i].0) < LastUse(ops, entries[j].0)
  }

  /** The held entries are in the order of their last use, so what is evicted first is
      always the least recently used. */
  lemma {:induction false} EntriesAreInRecencyOrder<V>(maxCost: int, ops: seq<Op<V>>)
    ensures InRecencyOrder(Run(maxCost, ops), ops)
  {
    if ops != [] {
      var n := |ops| - 1;
      EntriesAreInRecencyOrder(maxCost, ops[..n]);
      RecencyStep(Run(maxCost, ops[..n]), maxCost, ops[..n], ops[n]);
      assert ops == ops[..n] + [ops[n]];
    }
  }

  lemma RecencyStep<V>(entries: Entries<V>, maxCost: int, ops: seq<Op<V>>, op: Op<V>)
    requires InRecencyOrder(entries, ops)
    ensures InRecencyOrder(Apply(entries, maxCost, op), ops + [op])
  {
    var more := ops + [op];
    hide JsMap.Delete, EvictTo, LastUse;
    assert more[..|ops|] == ops;
    if !op.Clear? {
      RecencyWithout(entries, ops, op.key);
      RestIsUnused(entries, ops, op);
      match op
      case Get(key) =>
        if JsMap.Has(entries, key) {
          MovedToEnd(JsMap.Delete(entries, key), more, (key, JsMap.Get(entries, key).value));
        } else {
          DeleteOfMissing(entries, key);
        }
      case Delete(_) =>
      case Set(key, held) =>
        if held.cost <= maxCost {
          var all := JsMap.Delete(entries, key) + [(key, held)];
          MovedToEnd(JsMap.Delete(entries, key), more, (key, held));
          var k := EvictsShortestPrefix(all, maxCost);
        }
    }
  }

  lemma DeleteOfMissing<V>(entries: Entries<V>, key: string)
    requires !JsMap.Has(entries, key)
    ensures JsMap.Delete(entries, key) == entries
  {
  }

  lemma RestIsUnused<V>(entries: Entries<V>, ops: seq<Op<V>>, op: Op<V>)
    requires !op.Clear? && InRecencyOrder(entries, ops)
    ensures InRecencyOrder(JsMap.Delete(entries, op.key), ops + [op])
    ensures forall e :: e in JsMap.Delete(entries, op.key) ==> LastUse(ops + [op], e.0) <= |ops|
  {
    RecencyWithout(entries, ops, op.key);
    var rest := JsMap.Delete(entries, op.key);
    assert (ops + [op])[..|ops|] == ops;
    forall e | e in rest ensures LastUse(ops + [op], e.0) == LastUse(ops, e.0) <= |ops| {
      LastUseInPast(ops, e.0);
    }
    assert forall i :: 0 <= i < |rest| ==> rest[i] in rest;
  }

  lemma MovedToEnd<V>(rest: Entries<V>, ops: seq<Op<V>>, e: (string, Held<V>))
    requires InRecencyOrder(rest, ops) && ops != [] && Uses(ops[|ops| - 1], e.0)
    requires forall r :: r in rest ==> LastUse(ops, r.0) < |ops|
    ensures InRecencyOrder(rest + [e], ops)
  {
    assert forall i :: 0 <= i < |rest| ==> rest[i] in rest;
  }

  lemma RecencyWithout<V>(entries: Entries<V>, ops: seq<Op<V>>, key: string)
    requires InRecencyOrder(entries, ops)
    ensures InRecencyOrder(JsMap.Delete(entries, key), ops)
    ensures forall e :: e in JsMap.Delete(entries, key) ==> e in entries && e.0 != key
  {
    assert JsMap.Distinct(entries);
    JsMap.DeleteKeeps(entries, key);
  }

  // ---------- The class ----------

  class LruCache<V> {
    const maxCost: int
    var entries: Entries<V>
    var total: int

    /** The running total is the sum of the held costs, and no key is held twice. */
    ghost predicate Valid()
      reads this
    {
      maxCost > 0 && JsMap.Distinct(entries) && total == Cost(entries)
    }

    constructor (maxCost: int)
      requires maxCost > 0
      ensures Valid() && entries == [] && this.maxCost == maxCost
    {
      this.maxCost, entries, total := maxCost, [], 0;
    }

    method Get(key: string) returns (value: Option<V>)
      requires Valid()
      modifies this`entries
      ensures Valid() && entries == AfterGet(old(entries), key)
      ensures value == match JsMap.Get(old(entries), key) { case None => None case Some(held) => Some(held.value) }
    {
      var held := JsMap.Get(entries, key);
      if held.None? {
        return None;
      }
      CostOfMoved(entries, key);
      JsMap.DeleteKeeps(entries, key);
      entries := JsMap.Delete(entries, key);
      assert forall i :: 0 <= i < |entries| ==> entries[i].0 != key;
      entries := entries + [(key, held.value)];
      value := Some(held.value.value);
    }

    method Peek(key: string) returns (value: Option<V>)
      requires Valid()
      ensures value == match JsMap.Get(entries, key) { case None => None case Some(held) => Some(held.value) }
    {
      var held := JsMap.Get(entries, key);
      value := if held.None? then None else Some(held.value.value);
    }

    method Set(key: string, value: V, cost: int)
      requires Valid()
      modifies this
      ensures Valid() && entries == AfterSet(old(entries), maxCost, key, Held(value, cost))
    {
      var _ := Delete(key);
      if cost > maxCost {
        return;
      }
      ghost var all := entries + [(key, Held(value, cost))];
      CostAppend(entries, [(key, Held(value, cost))]);
      CostOfOne((key, Held(value, cost)));
      assert forall i :: 0 <= i < |entries| ==> entries[i].0 != key;
      entries, total := entries + [(key, Held(value, cost))], total + cost;
      while |entries| > 0 && total > maxCost
        invariant Valid()
        invariant EvictTo(entries, maxCost) == EvictTo(all, maxCost)
        decreases |entries|
      {
        total := total - entries[0].1.cost;
        entries := entries[1..];
      }
    }

    method Delete(key: string) returns (held: bool)
      requires Valid()
      modifies this
      ensures Valid() && entries == JsMap.Delete(old(entries), key) && !JsMap.Has(entries, key)
      ensures held == JsMap.Has(old(entries), key)
    {
      var entry := JsMap.Get(entries, key);
      CostWithout(entries, key);
      JsMap.DeleteKeeps(entries, key);
      if entry.None? {
        return false;
      }
      entries, total := JsMap.Delete(entries, key), total - entry.value.cost;
      held := true;
    }

    method Clear()
      requires Valid()
      modifies this
      ensures Valid() && entries == []
    {
      entries, total := [], 0;
    }
  }
}
