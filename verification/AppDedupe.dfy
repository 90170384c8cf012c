/** Merging the copies of one application that the system registry lists. */
module AppDedupe {
  import opened Options

  /** A version is the list of numbers between its dots; a piece that is no number is zero. */
  type Version = seq<real>

  datatype App = App(id: string, name: string, isDefault: bool, bundle: Option<string>, version: Option<Version>)

  /** What the caller gets: the application without bundle and version. */
  datatype Entry = Entry(id: string, name: string, isDefault: bool)

  function Strip(app: App): Entry { Entry(app.id, app.name, app.isDefault) }

  // ---------- Versions ----------

  function Max(x: nat, y: nat): nat { if x >= y then x else y }

  function Component(v: Version, i: nat): real { if i < |v| then v[i] else 0.0 }

  /** The first non-zero difference of the components from `i` up to `n`. */
  function Difference(a: Version, b: Version, i: nat, n: nat): real
    decreases n - i
  {
    if i >= n then 0.0
    else if Component(a, i) != Component(b, i) then Component(a, i) - Component(b, i)
    else Difference(a, b, i + 1, n)
  }

  function Compare(left: Option<Version>, right: Option<Version>): real {
    match (left, right)
    case (None, None) => 0.0
    case (None, Some(_)) => -1.0
    case (Some(_), None) => 1.0
    case (Some(a), Some(b)) => Difference(a, b, 0, Max(|a|, |b|))
  }

  method CompareVersions(left: Option<Version>, right: Option<Version>) returns (d: real)
    ensures d == Compare(left, right)
  {
    if left.None? || right.None? {
      return if left == right then 0.0 else if left.None? then -1.0 else 1.0;
    }
    var a, b := left.value, right.value;
    for i := 0 to Max(|a|, |b|)
      invariant Difference(a, b, 0, Max(|a|, |b|)) == Difference(a, b, i, Max(|a|, |b|))
    {
      d := Component(a, i) - Component(b, i);
      if d != 0.0 { return; }
    }
    d := 0.0;
  }

  lemma {:induction false} DifferenceBeyondLengths(a: Version, b: Version, i: nat, n: nat, m: nat)
    requires Max(|a|, |b|) <= n <= m
    ensures Difference(a, b, i, n) == Difference(a, b, i, m)
    decreases m - i
  {
    if i < m { DifferenceBeyondLengths(a, b, i + 1, n, m); }
  }

  lemma {:induction false} DifferenceFlips(a: Version, b: Version, i: nat, n: nat)
    ensures Difference(a, b, i, n) == -Difference(b, a, i, n)
    decreases n - i
  {
    if i < n { DifferenceFlips(a, b, i + 1, n); }
  }

  lemma {:induction false} DifferenceTransitive(a: Version, b: Version, c: Version, i: nat, n: nat)
    requires Difference(a, b, i, n) <= 0.0 && Difference(b, c, i, n) <= 0.0
    ensures Difference(a, c, i, n) <= 0.0
    ensures Difference(a, b, i, n) < 0.0 || Difference(b, c, i, n) < 0.0 ==> Difference(a, c, i, n) < 0.0
    decreases n - i
  {
    if i < n && Component(a, i) == Component(b, i) == Component(c, i) {
      DifferenceTransitive(a, b, c, i + 1, n);
    }
  }

  /** On finite components the comparison is a total preorder: opposite arguments give
      opposite signs, and not-greater is transitive, strictly where either step is. */
  lemma CompareIsTotalPreorder(x: Option<Version>, y: Option<Version>, z: Option<Version>)
    ensures Compare(x, x) == 0.0
    ensures Compare(x, y) > 0.0 <==> Compare(y, x) < 0.0
    ensures Compare(x, y) <= 0.0 && Compare(y, z) <= 0.0 ==>
      Compare(x, z) <= 0.0 && (Compare(x, y) < 0.0 || Compare(y, z) < 0.0 ==> Compare(x, z) < 0.0)
  {
    if x.Some? {
      DifferenceFlips(x.value, x.value, 0, |x.value|);
    }
    if x.Some? && y.Some? {
      DifferenceFlips(x.value, y.value, 0, Max(|x.value|, |y.value|));
    }
    if x.Some? && y.Some? && z.Some? {
      var a, b, c := x.value, y.value, z.value;
      var n := Max(Max(|a|, |b|), |c|);
      DifferenceBeyondLengths(a, b, 0, Max(|a|, |b|), n);
      DifferenceBeyondLengths(b, c, 0, Max(|b|, |c|), n);
      DifferenceBeyondLengths(a, c, 0, Max(|a|, |c|), n);
      if Compare(x, y) <= 0.0 && Compare(y, z) <= 0.0 {
        DifferenceTransitive(a, b, c, 0, n);
      }
    }
  }

  /** Component `i`; a version goes on with zeros for ever. */
  predicate LargerAt(a: Version, b: Version, i: nat) {
    (if i < |a| then a[i] else 0.0) > (if i < |b| then b[i] else 0.0)
  }

  /** `a` has the larger component at the first place where the two differ. */
  ghost predicate FirstLarger(a: Version, b: Version, i: nat) {
    LargerAt(a, b, i) && forall j: nat :: j < i ==> !LargerAt(a, b, j) && !LargerAt(b, a, j)
  }

  /** A version is higher than none, and than one with a smaller first differing component. */
  ghost predicate Higher(x: Option<Version>, y: Option<Version>) {
    x.Some? && (y.None? || exists i: nat :: FirstLarger(x.value, y.value, i))
  }

  lemma {:induction false} DifferenceTells(a: Version, b: Version, i: nat, n: nat)
    requires Max(|a|, |b|) <= n && i <= n
    requires forall j: nat :: j < i ==> !LargerAt(a, b, j) && !LargerAt(b, a, j)
    ensures Difference(a, b, i, n) > 0.0 <==> exists k: nat :: FirstLarger(a, b, k)
    decreases n - i
  {
    if i < n && Component(a, i) == Component(b, i) {
      DifferenceTells(a, b, i + 1, n);
    } else if i < n {
      assert LargerAt(a, b, i) <==> Component(a, i) > Component(b, i);
      assert LargerAt(b, a, i) <==> Component(a, i) < Component(b, i);
      assert LargerAt(a, b, i) ==> FirstLarger(a, b, i);
    }
  }

  /** The sign of the comparison tells which version is higher. */
  lemma CompareTellsHigher(x: Option<Version>, y: Option<Version>)
    ensures Compare(x, y) > 0.0 <==> Higher(x, y)
    ensures Compare(x, y) < 0.0 <==> Higher(y, x)
  {
    CompareIsTotalPreorder(x, y, x);
    CompareIsTotalPreorder(y, x, y);
    if x.Some? && y.Some? {
      DifferenceTells(x.value, y.value, 0, Max(|x.value|, |y.value|));
      DifferenceTells(y.value, x.value, 0, Max(|y.value|, |x.value|));
    }
  }

  // ---------- Groups ----------

  /** The string two copies of one application share. */
  function Key(app: App): string
    requires app.bundle.Some?
  {
    app.bundle.value + ['\0'] + app.name
  }

  /** Equal keys mean equal bundle and name, as long as no bundle holds a NUL. */
  lemma KeysIdentifyGroups(x: App, y: App)
    requires x.bundle.Some? && y.bundle.Some? && '\0' !in x.bundle.value && '\0' !in y.bundle.value
    ensures Key(x) == Key(y) <==> x.bundle == y.bundle && x.name == y.name
  {
    if Key(x) == Key(y) {
      FirstNul(x);
      FirstNul(y);
      var m := |x.bundle.value|;
      assert m == |y.bundle.value|;
      assert Key(x)[..m] == x.bundle.value && Key(y)[..m] == y.bundle.value;
      assert Key(x)[m + 1..] == x.name && Key(y)[m + 1..] == y.name;
    }
  }

  lemma FirstNul(app: App)
    requires app.bundle.Some? && '\0' !in app.bundle.value
    ensures Key(app)[|app.bundle.value|] == '\0'
    ensures forall i :: 0 <= i < |app.bundle.value| ==> Key(app)[i] != '\0'
  {
    assert forall i :: 0 <= i < |app.bundle.value| ==> Key(app)[i] == app.bundle.value[i];
  }

  predicate SameGroup(x: App, y: App) {
    x.bundle.Some? && y.bundle.Some? && Key(x) == Key(y)
  }

  /** Position `i` is the first of its group; an application without bundle is its own. */
  predicate Opens(apps: seq<App>, i: nat)
    requires i < |apps|
  {
    forall j :: 0 <= j < i ==> !SameGroup(apps[j], apps[i])
  }

  /** The positions that open a group, in order. */
  function Openers(apps: seq<App>): (r: seq<nat>)
    ensures forall i :: i in r ==> i < |apps|
  {
    if apps == [] then []
    else
      var n := |apps| - 1;
      if Opens(apps, n) then Openers(apps[..n]) + [n] else Openers(apps[..n])
  }

  /** Position `w` holds the copy to show for the group that position `i` opens: its first
      default or, with none, its first highest version. */
  ghost predicate IsBest(apps: seq<App>, i: nat, w: nat) {
    && i < |apps| && w < |apps|
    && (apps[i].bundle.None? ==> w == i)
    && (apps[i].bundle.Some? ==>
          && SameGroup(apps[i], apps[w])
          && if apps[w].isDefault
             then forall j :: 0 <= j < w && SameGroup(apps[i], apps[j]) ==> !apps[j].isDefault
             else forall j :: 0 <= j < |apps| && SameGroup(apps[i], apps[j]) ==>
                    && !apps[j].isDefault
                    && Compare(apps[j].version, apps[w].version) <= 0.0
                    && (j < w ==> Compare(apps[j].version, apps[w].version) < 0.0))
  }

  /** The copy shown after one more application, as the loop decides it. */
  function Better(held: App, app: App): bool {
    !held.isDefault && (app.isDefault || Compare(app.version, held.version) > 0.0)
  }

  lemma BestAfterOther(apps: seq<App>, i: nat, w: nat, app: App)
    requires IsBest(apps, i, w) && !SameGroup(apps[i], app)
    ensures IsBest(apps + [app], i, w)
  {
    hide Compare, Key;
  }

  lemma BestAfterCopy(apps: seq<App>, i: nat, w: nat, app: App)
    requires IsBest(apps, i, w) && SameGroup(apps[i], app)
    ensures IsBest(apps + [app], i, if Better(apps[w], app) then |apps| else w)
  {
    hide Compare, Key;
    var more := apps + [app];
    CompareIsTotalPreorder(app.version, apps[w].version, app.version);
    CompareIsTotalPreorder(apps[w].version, app.version, app.version);
    assert forall j :: 0 <= j < |apps| ==> more[j] == apps[j];
    forall j | 0 <= j < |apps| && !apps[w].isDefault && SameGroup(apps[i], apps[j])
      ensures Compare(app.version, apps[w].version) > 0.0 ==> Compare(apps[j].version, app.version) < 0.0
    {
      CompareIsTotalPreorder(apps[j].version, apps[w].version, app.version);
    }
  }

  lemma BestAlone(apps: seq<App>, app: App)
    requires Opens(apps + [app], |apps|)
    ensures IsBest(apps + [app], |apps|, |apps|)
  {
    hide Compare, Key;
    CompareIsTotalPreorder(app.version, app.version, app.version);
    var more := apps + [app];
    forall j | 0 <= j < |apps| ensures more[j] == apps[j] && !SameGroup(more[|apps|], more[j]) {
      assert !SameGroup(more[j], more[|apps|]);
    }
  }

  /** One entry a group: the best copy so far. */
  ghost predicate Bests(apps: seq<App>, order: seq<App>, openers: seq<nat>, winners: seq<nat>) {
    && |order| == |winners| == |openers|
    && forall k :: 0 <= k < |order| ==> IsBest(apps, openers[k], winners[k]) && order[k] == apps[winners[k]]
  }

  /** The index from a group's key to its entry. */
  ghost predicate Indexed(apps: seq<App>, openers: seq<nat>, groups: map<string, nat>) {
    && (forall k :: 0 <= k < |openers| ==> openers[k] < |apps|)
    && (forall key :: key in groups ==> groups[key] < |openers|)
    && (forall key :: key in groups ==>
       apps[openers[groups[key]]].bundle.Some? && Key(apps[openers[groups[key]]]) == key)
    && (forall j :: 0 <= j < |apps| && apps[j].bundle.Some? ==> Key(apps[j]) in groups)
    && (forall k :: 0 <= k < |openers| && apps[openers[k]].bundle.Some? ==> groups[Key(apps[openers[k]])] == k)
  }

  lemma OpenersSnoc(apps: seq<App>, app: App)
    ensures Openers(apps + [app]) == if Opens(apps + [app], |apps|) then Openers(apps) + [|apps|] else Openers(apps)
  {
    assert (apps + [app])[..|apps|] == apps;
  }

  lemma GroupOpens(apps: seq<App>, app: App, order: seq<App>, groups: map<string, nat>, winners: seq<nat>)
    requires Bests(apps, order, Openers(apps), winners) && Indexed(apps, Openers(apps), groups)
    requires app.bundle.Some? ==> Key(app) !in groups
    ensures Bests(apps + [app], order + [app], Openers(apps + [app]), winners + [|apps|])
    ensures Indexed(apps + [app], Openers(apps + [app]),
                    if app.bundle.Some? then groups[Key(app) := |order|] else groups)
  {
    hide Openers, Key, Bests, Indexed;
    var more := apps + [app];
    NoCopyBefore(apps, app, Openers(apps), groups);
    assert Opens(more, |apps|);
    OpenersSnoc(apps, app);
    BestAlone(apps, app);
    BestsOpen(apps, app, order, Openers(apps), winners);
    IndexedOpen(apps, app, Openers(apps), groups);
    SameLength(apps, order, Openers(apps), winners);
  }

  lemma SameLength(apps: seq<App>, order: seq<App>, openers: seq<nat>, winners: seq<nat>)
    requires Bests(apps, order, openers, winners)
    ensures |order| == |openers| == |winners|
  {
  }

  lemma NoCopyBefore(apps: seq<App>, app: App, openers: seq<nat>, groups: map<string, nat>)
    requires Indexed(apps, openers, groups) && (app.bundle.Some? ==> Key(app) !in groups)
    ensures forall j :: 0 <= j < |apps| ==> !SameGroup(apps[j], app)
  {
    hide Key;
  }

  lemma BestsOpen(apps: seq<App>, app: App, order: seq<App>, openers: seq<nat>, winners: seq<nat>)
    requires Bests(apps, order, openers, winners)
    requires forall j :: 0 <= j < |apps| ==> !SameGroup(apps[j], app)
    requires IsBest(apps + [app], |apps|, |apps|)
    ensures Bests(apps + [app], order + [app], openers + [|apps|], winners + [|apps|])
  {
    hide IsBest, SameGroup;
    forall k | 0 <= k < |order| ensures IsBest(apps + [app], openers[k], winners[k]) && winners[k] < |apps| {
      BestInRange(apps, openers[k], winners[k]);
      BestAfterOther(apps, openers[k], winners[k], app);
    }
  }

  lemma IndexedOpen(apps: seq<App>, app: App, openers: seq<nat>, groups: map<string, nat>)
    requires Indexed(apps, openers, groups)
    requires app.bundle.Some? ==> Key(app) !in groups
    ensures Indexed(apps + [app], openers + [|apps|],
                    if app.bundle.Some? then groups[Key(app) := |openers|] else groups)
  {
    hide Key;
    assert forall j :: 0 <= j < |apps| ==> (apps + [app])[j] == apps[j];
  }

  lemma BestInRange(apps: seq<App>, i: nat, w: nat)
    requires IsBest(apps, i, w)
    ensures i < |apps| && w < |apps|
  {
  }

  lemma CopyJoins(apps: seq<App>, app: App, order: seq<App>, groups: map<string, nat>, winners: seq<nat>)
    requires Bests(apps, order, Openers(apps), winners) && Indexed(apps, Openers(apps), groups)
    requires app.bundle.Some? && Key(app) in groups
    ensures var at := groups[Key(app)];
            var replace := Better(order[at], app);
            Bests(apps + [app], if replace then order[at := app] else order, Openers(apps + [app]),
                  if replace then winners[at := |apps|] else winners)
    ensures Indexed(apps + [app], Openers(apps + [app]), groups)
  {
    hide Openers, Key, IsBest, Better;
    var more, at, openers := apps + [app], groups[Key(app)], Openers(apps);
    assert forall j :: 0 <= j < |apps| ==> more[j] == apps[j];
    assert !Opens(more, |apps|) by { assert SameGroup(more[openers[at]], more[|apps|]); }
    OpenersSnoc(apps, app);
    BestsJoin(apps, app, order, openers, winners, groups);
    IndexedJoin(apps, app, openers, groups);
  }

  lemma IndexedJoin(apps: seq<App>, app: App, openers: seq<nat>, groups: map<string, nat>)
    requires Indexed(apps, openers, groups)
    requires app.bundle.Some? && Key(app) in groups
    ensures Indexed(apps + [app], openers, groups)
  {
    hide Key;
    assert forall j :: 0 <= j < |apps| ==> (apps + [app])[j] == apps[j];
  }

  lemma BestsJoin(apps: seq<App>, app: App, order: seq<App>, openers: seq<nat>, winners: seq<nat>,
                  groups: map<string, nat>)
    requires Bests(apps, order, openers, winners) && Indexed(apps, openers, groups)
    requires app.bundle.Some? && Key(app) in groups
    ensures var at := groups[Key(app)];
            var replace := Better(order[at], app);
            Bests(apps + [app], if replace then order[at := app] else order, openers,
                  if replace then winners[at := |apps|] else winners)
  {
    hide Key, IsBest, Better;
    var at := groups[Key(app)];
    BestInRange(apps, openers[at], winners[at]);
    BestAfterCopy(apps, openers[at], winners[at], app);
    forall k | 0 <= k < |order| ensures IsBest(apps, openers[k], winners[k]) && winners[k] < |apps| {
      BestInRange(apps, openers[k], winners[k]);
    }
    forall k | 0 <= k < |order| && k != at ensures IsBest(apps + [app], openers[k], winners[k]) {
      assert !SameGroup(apps[openers[k]], app);
      BestAfterOther(apps, openers[k], winners[k], app);
    }
  }

  /** Entry `k` of a deduplicated list stands for the group that its opener opens. */
  ghost predicate IsDeduplicated(apps: seq<App>, entries: seq<Entry>) {
    && |entries| == |Openers(apps)|
    && forall k :: 0 <= k < |entries| ==> ShowsBest(apps, Openers(apps)[k], entries[k])
  }

  ghost predicate ShowsBest(apps: seq<App>, opener: nat, entry: Entry) {
    exists w: nat :: IsShown(apps, opener, w) && Shows(entry, apps[w])
  }

  predicate Shows(entry: Entry, app: App) {
    entry.id == app.id && entry.name == app.name && entry.isDefault == app.isDefault
  }

  /** Position `w` is the copy to show for the one at `i`: without bundle itself; otherwise the
      first default copy, or with none the first of the copies that no copy is higher than. */
  ghost predicate IsShown(apps: seq<App>, i: nat, w: nat) {
    && i < |apps| && w < |apps|
    && (apps[i].bundle.None? ==> w == i)
    && (apps[i].bundle.Some? ==>
          && IsCopy(apps, i, w)
          && (apps[w].isDefault ==> forall j: nat :: j < w && IsCopy(apps, i, j) ==> !apps[j].isDefault)
          && (!apps[w].isDefault ==> forall j: nat :: IsCopy(apps, i, j) ==>
                && !apps[j].isDefault && !Higher(apps[j].version, apps[w].version)
                && (j < w ==> Higher(apps[w].version, apps[j].version))))
  }

  /** The two share bundle and name, or more exactly the key made of them. */
  predicate IsCopy(apps: seq<App>, i: nat, j: nat)
    requires i < |apps|
  {
    j < |apps| && SameGroup(apps[i], apps[j])
  }

  lemma BestIsShown(apps: seq<App>, i: nat, w: nat)
    requires IsBest(apps, i, w)
    ensures IsShown(apps, i, w)
  {
    hide Compare, Key, Higher;
    if apps[i].bundle.Some? && !apps[w].isDefault {
      forall j: nat | IsCopy(apps, i, j)
        ensures !apps[j].isDefault && !Higher(apps[j].version, apps[w].version)
        ensures j < w ==> Higher(apps[w].version, apps[j].version)
      {
        CompareTellsHigher(apps[j].version, apps[w].version);
      }
    }
  }

  method DedupeMacApplications(apps: seq<App>) returns (entries: seq<Entry>)
    ensures IsDeduplicated(apps, entries)
  {
    hide Bests, Indexed;
    var order: seq<App> := [];
    var groups: map<string, nat> := map[];
    ghost var winners: seq<nat> := [];
    NothingGrouped();
    for i := 0 to |apps|
      invariant |order| == |winners|
      invariant Bests(apps[..i], order, Openers(apps[..i]), winners) && Indexed(apps[..i], Openers(apps[..i]), groups)
    {
      var app := apps[i];
      assert apps[..i + 1] == apps[..i] + [app];
      if app.bundle.None? {
        GroupOpens(apps[..i], app, order, groups, winners);
        order, winners := order + [app], winners + [i];
      } else if Key(app) !in groups {
        GroupOpens(apps[..i], app, order, groups, winners);
        groups := groups[Key(app) := |order|];
        order, winners := order + [app], winners + [i];
      } else {
        var index := groups[Key(app)];
        GroupsInRange(apps[..i], order, groups, winners, Key(app));
        CopyJoins(apps[..i], app, order, groups, winners);
        var held := order[index];
        if !held.isDefault {
          var d := CompareVersions(app.version, held.version);
          if app.isDefault || d > 0.0 {
            order, winners := order[index := app], winners[index := i];
          }
        }
      }
    }
    assert apps[..|apps|] == apps;
    entries := seq(|order|, k requires 0 <= k < |order| => Strip(order[k]));
    EntriesAreBest(apps, order, winners, entries);
  }

  lemma NothingGrouped()
    ensures Bests([], [], Openers([]), []) && Indexed([], Openers([]), map[])
  {
  }

  lemma GroupsInRange(apps: seq<App>, order: seq<App>, groups: map<string, nat>, winners: seq<nat>, key: string)
    requires Bests(apps, order, Openers(apps), winners) && Indexed(apps, Openers(apps), groups) && key in groups
    ensures groups[key] < |order|
  {
  }

  lemma EntriesAreBest(apps: seq<App>, order: seq<App>, winners: seq<nat>, entries: seq<Entry>)
    requires Bests(apps, order, Openers(apps), winners)
    requires entries == seq(|order|, k requires 0 <= k < |order| => Strip(order[k]))
    ensures IsDeduplicated(apps, entries)
  {
    hide IsBest, IsShown, Openers;
    forall k | 0 <= k < |entries| ensures ShowsBest(apps, Openers(apps)[k], entries[k]) {
      BestInRange(apps, Openers(apps)[k], winners[k]);
      BestIsShown(apps, Openers(apps)[k], winners[k]);
      assert Shows(entries[k], apps[winners[k]]);
    }
  }

  // ---------- Openers ----------

  /** The openers are exactly the positions no earlier copy precedes, in order; so every
      application without bundle is kept, and every group has exactly one entry. */
  lemma {:induction false} OpenersAreExact(apps: seq<App>)
    ensures forall i :: 0 <= i < |apps| ==> (Opens(apps, i) <==> i in Openers(apps))
    ensures forall j, k :: 0 <= j < k < |Openers(apps)| ==> Openers(apps)[j] < Openers(apps)[k]
    ensures forall i :: 0 <= i < |apps| && apps[i].bundle.None? ==> i in Openers(apps)
  {
    if apps != [] {
      var n := |apps| - 1;
      var init := apps[..n];
      OpenersAreExact(init);
      hide SameGroup, Opens;
      forall i: nat | i < n ensures Opens(apps, i) <==> Opens(init, i) { OpensWithout(apps, i); }
      assert Openers(apps) == if Opens(apps, n) then Openers(init) + [n] else Openers(init);
      assert forall i :: i in Openers(init) ==> i < n;
      forall i | 0 <= i < |apps| ensures Opens(apps, i) <==> i in Openers(apps) {
        if i < n { assert Opens(init, i) <==> i in Openers(init); }
      }
      forall j | 0 <= j < |Openers(init)| ensures Openers(init)[j] < n {
        assert Openers(init)[j] in Openers(init);
      }
      forall i | 0 <= i < |apps| && apps[i].bundle.None? ensures i in Openers(apps) {
        NoBundleOpens(apps, i);
      }
    }
  }

  lemma OpensWithout(apps: seq<App>, i: nat)
    requires i < |apps| - 1
    ensures Opens(apps, i) <==> Opens(apps[..|apps| - 1], i)
  {
    hide SameGroup;
    assert forall j :: 0 <= j <= i ==> apps[..|apps| - 1][j] == apps[j];
  }

  lemma NoBundleOpens(apps: seq<App>, i: nat)
    requires i < |apps| && apps[i].bundle.None?
    ensures Opens(apps, i)
  {
  }

  lemma {:induction false} EveryGroupHasItsOpener(apps: seq<App>, i: nat) returns (k: nat)
    requires i < |apps|
    ensures k in Openers(apps) && (k == i || SameGroup(apps[k], apps[i]))
    ensures forall j :: j in Openers(apps) && (j == i || SameGroup(apps[j], apps[i])) ==> j == k
    decreases i
  {
    hide Key, Openers;
    OpenersAreExact(apps);
    if Opens(apps, i) {
      k := i;
    } else {
      var j :| 0 <= j < i && SameGroup(apps[j], apps[i]);
      k := EveryGroupHasItsOpener(apps, j);
    }
    forall j | j in Openers(apps) && (j == i || SameGroup(apps[j], apps[i])) ensures j == k {
      OpenerInRange(apps, j);
      OpenerInRange(apps, k);
      OneOpener(apps, j, k);
    }
  }

  lemma OneOpener(apps: seq<App>, j: nat, k: nat)
    requires j < |apps| && k < |apps| && Opens(apps, j) && Opens(apps, k)
    requires j == k || SameGroup(apps[j], apps[k])
    ensures j == k
  {
  }

  lemma OpenerInRange(apps: seq<App>, i: nat)
    requires i in Openers(apps)
    ensures i < |apps|
  {
  }
}
