/** How often each browser tab is attached through one session. */
module AttachedTabs {

  /** What a successful forward can mean for the counts. */
  datatype Kind = Attach(tab: int) | Detach(tab: int) | Other

  function Stored(attached: map<int, nat>, tab: int): nat {
    if tab in attached then attached[tab] else 0
  }

  function Added(attached: map<int, nat>, tab: int): map<int, nat> {
    attached[tab := Stored(attached, tab) + 1]
  }

  function Removed(attached: map<int, nat>, tab: int): map<int, nat> {
    if Stored(attached, tab) <= 1 then attached - {tab} else attached[tab := Stored(attached, tab) - 1]
  }

  function Counted(attached: map<int, nat>, kind: Kind): map<int, nat> {
    match kind
    case Attach(tab) => Added(attached, tab)
    case Detach(tab) => Removed(attached, tab)
    case Other => attached
  }

  /** Running count of attaches minus detaches over a log, never below zero. */
  function Balance(log: seq<Kind>, tab: int): nat {
    if log == [] then 0
    else
      var before, last := Balance(log[..|log| - 1], tab), log[|log| - 1];
      if last == Attach(tab) then before + 1
      else if last == Detach(tab) && before > 0 then before - 1
      else before
  }

  /** The map holds exactly the tabs with a positive balance, with that balance. */
  ghost predicate Reflects(attached: map<int, nat>, log: seq<Kind>) {
    forall tab: int :: Stored(attached, tab) == Balance(log, tab) && (tab in attached <==> Balance(log, tab) > 0)
  }

  lemma CountingReflects(attached: map<int, nat>, log: seq<Kind>, kind: Kind)
    requires Reflects(attached, log)
    ensures Reflects(Counted(attached, kind), log + [kind])
  {
    assert (log + [kind])[..|log|] == log;
  }

  function Attaches(log: seq<Kind>, tab: int): nat { multiset(log)[Attach(tab)] }

  function Detaches(log: seq<Kind>, tab: int): nat { multiset(log)[Detach(tab)] }

  /** Detaches that came when the tab was not counted at all. */
  function IdleDetaches(log: seq<Kind>, tab: int): nat {
    if log == [] then 0
    else
      var front := log[..|log| - 1];
      IdleDetaches(front, tab) + if log[|log| - 1] == Detach(tab) && Balance(front, tab) == 0 then 1 else 0
  }

  /** Conservation: what is counted is attaches minus the detaches that had one to undo. */
  lemma {:induction false} BalanceIsDifference(log: seq<Kind>, tab: int)
    ensures Balance(log, tab) == Attaches(log, tab) - (Detaches(log, tab) - IdleDetaches(log, tab))
  {
    if log != [] {
      var front, last := log[..|log| - 1], log[|log| - 1];
      assert log == front + [last];
      BalanceIsDifference(front, tab);
      assert Attaches(log, tab) == Attaches(front, tab) + if last == Attach(tab) then 1 else 0;
      assert Detaches(log, tab) == Detaches(front, tab) + if last == Detach(tab) then 1 else 0;
    }
  }

  /** Each tab as often as it is counted, in any order. */
  ghost predicate IsExpansion(tabs: seq<int>, attached: map<int, nat>) {
    forall tab: int :: multiset(tabs)[tab] == Stored(attached, tab)
  }

  /** An order in which a loop over the map visits its keys. */
  ghost predicate IsKeyOrder(order: seq<int>, attached: map<int, nat>) {
    && (forall tab: int :: tab in attached <==> tab in order)
    && (forall i, j :: 0 <= i < j < |order| ==> order[i] != order[j])
  }

  method ExpandedAttachedTabs(attached: map<int, nat>, order: seq<int>) returns (tabs: seq<int>)
    requires IsKeyOrder(order, attached)
    ensures IsExpansion(tabs, attached)
  {
    tabs := [];
    for i := 0 to |order|
      invariant forall tab: int :: multiset(tabs)[tab] == if tab in order[..i] then Stored(attached, tab) else 0
    {
      assert order[..i + 1] == order[..i] + [order[i]];
      var count := Stored(attached, order[i]);
      for index := 0 to count
        invariant forall tab: int ::
            multiset(tabs)[tab] == if tab == order[i] then index else if tab in order[..i] then Stored(attached, tab)
              else 0
      {
        tabs := tabs + [order[i]];
      }
    }
    assert order[..|order|] == order;
  }
}
