/** `restructure_cost_data`: the per-service breakdown.  The Cost Explorer
    answer grouped by linked account and service (`cost_data_dict`, a list of
    time periods each holding groups keyed `[account, service]`) becomes, for
    every configured account, its services sorted by name, each with the amount
    of every period it was billed in.

    The amount type is a parameter: the monthly drafts convert it with `float`
    while restructuring, the daily draft keeps the raw Cost Explorer string and
    converts it when rendering. */
module Breakdown {
  import opened Common
  import opened Calendar
  import opened Ordering
  import opened Ledger

  /** One element of `Groups`: `Keys[0]` (account), `Keys[1]` (service) and the
      `UnblendedCost` amount. */
  datatype Group<A> = Group(account: Key, service: Key, amount: A)

  /** One element of `ResultsByTime` of the grouped query. */
  datatype TimePeriodGroups<A> = TimePeriodGroups(start: Date, groups: seq<Group<A>>)

  /** account -> service -> period start -> amount, before sorting. */
  type Table<A> = map<Key, map<Key, map<Date, A>>>

  /** One service of an account in the sorted result. */
  datatype ServiceCosts<A> = ServiceCosts(service: Key, byPeriod: map<Date, A>)

  // ---------------------------------------------------------------------------
  // Reference definitions

  /** The services the groups of one period bill to account `a`. */
  function ServicesIn<A>(groups: seq<Group<A>>, a: Key): (r: set<Key>)
    ensures forall s :: s in r <==> exists j :: 0 <= j < |groups| && groups[j].account == a && groups[j].service == s
    decreases |groups|
  {
    if groups == [] then {}
    else
      var g := groups[|groups| - 1];
      assert forall j :: 0 <= j < |groups| - 1 ==> groups[..|groups| - 1][j] == groups[j];
      ServicesIn(groups[..|groups| - 1], a) + if g.account == a then {g.service} else {}
  }

  /** The services some group of the answer bills to account `a`. */
  function ServicesOf<A>(data: seq<TimePeriodGroups<A>>, a: Key): (r: set<Key>)
    ensures forall s :: s in r <==> exists i :: 0 <= i < |data| && s in ServicesIn(data[i].groups, a)
    decreases |data|
  {
    if data == [] then {}
    else
      assert forall i :: 0 <= i < |data| - 1 ==> data[..|data| - 1][i] == data[i];
      ServicesOf(data[..|data| - 1], a) + ServicesIn(data[|data| - 1].groups, a)
  }

  /** The amount of the last group of `groups` billing service `s` to account `a`. */
  function LatestIn<A>(groups: seq<Group<A>>, a: Key, s: Key): (r: Option<A>)
    ensures r.Some? <==> exists j :: 0 <= j < |groups| && groups[j].account == a && groups[j].service == s
    decreases |groups|
  {
    if groups == [] then None
    else
      var g := groups[|groups| - 1];
      if g.account == a && g.service == s then Some(g.amount)
      else
        assert forall j :: 0 <= j < |groups| - 1 ==> groups[..|groups| - 1][j] == groups[j];
        LatestIn(groups[..|groups| - 1], a, s)
  }

  /** The amount that ends up under `[a][s][d]`: that of the last group, in the
      order of the answer, billing `s` to `a` in a period starting `d`. */
  function Latest<A>(data: seq<TimePeriodGroups<A>>, a: Key, s: Key, d: Date): (r: Option<A>)
    ensures r.Some? ==> exists i :: 0 <= i < |data| && data[i].start == d
    ensures r.Some? ==> s in ServicesOf(data, a)
    decreases |data|
  {
    if data == [] then None
    else
      var last := data[|data| - 1];
      var init := data[..|data| - 1];
      assert forall i :: 0 <= i < |init| ==> init[i] == data[i];
      if last.start == d && LatestIn(last.groups, a, s).Some? then
        LatestIn(last.groups, a, s)
      else
        Latest(init, a, s, d)
  }

  /** One step of `Latest`: the last period of the answer decides if it bills
      `s` to `a` at `d`, the periods before it otherwise. */
  lemma LatestStep<A>(data: seq<TimePeriodGroups<A>>, a: Key, s: Key, d: Date)
    requires data != []
    ensures Latest(data, a, s, d) ==
      if data[|data| - 1].start == d && LatestIn(data[|data| - 1].groups, a, s).Some?
      then LatestIn(data[|data| - 1].groups, a, s) else Latest(data[..|data| - 1], a, s, d)
  {}

  /** Period `i` of the answer starts `d`, bills `s` to `a`, and no later
      period starting `d` bills it. */
  predicate LastBilling<A>(data: seq<TimePeriodGroups<A>>, a: Key, s: Key, d: Date, i: int)
  {
    0 <= i < |data| && data[i].start == d && LatestIn(data[i].groups, a, s).Some? &&
    forall k :: i < k < |data| && data[k].start == d ==> LatestIn(data[k].groups, a, s).None?
  }

  /** The amount kept for a period is that of the last period of the answer
      starting `d` that bills `s` to `a`: a start repeated across pages is
      overwritten by the later one. */
  lemma {:induction false} LatestIsLast<A>(data: seq<TimePeriodGroups<A>>, a: Key, s: Key, d: Date)
    ensures Latest(data, a, s, d).Some? ==>
      exists i :: LastBilling(data, a, s, d, i) && Latest(data, a, s, d) == LatestIn(data[i].groups, a, s)
    decreases |data|
  {
    if data != [] {
      var n := |data| - 1;
      var init := data[..n];
      LatestStep(data, a, s, d);
      if data[n].start == d && LatestIn(data[n].groups, a, s).Some? {
        assert LastBilling(data, a, s, d, n) && Latest(data, a, s, d) == LatestIn(data[n].groups, a, s);
      } else if Latest(init, a, s, d).Some? {
        assert Latest(data, a, s, d) == Latest(init, a, s, d);
        LatestIsLast(init, a, s, d);
        var i :| LastBilling(init, a, s, d, i) && Latest(init, a, s, d) == LatestIn(init[i].groups, a, s);
        assert init[i] == data[i];
        forall k | i < k < |data| && data[k].start == d
          ensures LatestIn(data[k].groups, a, s).None?
        {
          if k < n {
            assert init[k] == data[k] && i < k < |init| && init[k].start == d;
          } else {
            assert k == n;
          }
        }
        assert LastBilling(data, a, s, d, i) && Latest(data, a, s, d) == LatestIn(data[i].groups, a, s);
      } else {
        assert Latest(data, a, s, d).None?;
      }
    }
  }

  /** A period starting `d` yields an amount for `s` of `a` iff one of the
      periods of the answer starting `d` bills it. */
  lemma {:induction false} LatestSome<A>(data: seq<TimePeriodGroups<A>>, a: Key, s: Key, d: Date)
    ensures Latest(data, a, s, d).Some? <==>
      exists i :: 0 <= i < |data| && data[i].start == d && LatestIn(data[i].groups, a, s).Some?
    decreases |data|
  {
    if Latest(data, a, s, d).Some? {
      LatestIsLast(data, a, s, d);
      var i :| LastBilling(data, a, s, d, i) && Latest(data, a, s, d) == LatestIn(data[i].groups, a, s);
      assert 0 <= i < |data| && data[i].start == d && LatestIn(data[i].groups, a, s).Some?;
    } else if data != [] {
      var n := |data| - 1;
      var init := data[..n];
      LatestStep(data, a, s, d);
      assert Latest(init, a, s, d).None?;
      LatestSome(init, a, s, d);
      forall i | 0 <= i < |data| && data[i].start == d
        ensures LatestIn(data[i].groups, a, s).None?
      {
        if i < n {
          assert init[i] == data[i];
        }
      }
    }
  }

  /** The period starts of the answer. */
  ghost function Starts<A>(data: seq<TimePeriodGroups<A>>): set<Date> {
    set i | 0 <= i < |data| :: data[i].start
  }

  /** `{date: amount}` for service `s` of account `a`. */
  ghost function PeriodAmounts<A>(data: seq<TimePeriodGroups<A>>, a: Key, s: Key): map<Date, A> {
    map d | d in Starts(data) && Latest(data, a, s, d).Some? :: Latest(data, a, s, d).value
  }

  // ---------------------------------------------------------------------------
  // First pass: the services of every configured account

  /** `display[acct][service] = {}` when the account is configured (the daily
      draft's `try ... except: continue` skips the others). */
  function AddService<A>(t: Table<A>, g: Group<A>): Table<A> {
    if g.account in t then t[g.account := t[g.account][g.service := map[]]] else t
  }

  function AddServices<A>(t: Table<A>, groups: seq<Group<A>>): Table<A>
    decreases |groups|
  {
    if groups == [] then t else AddService(AddServices(t, groups[..|groups| - 1]), groups[|groups| - 1])
  }

  function CollectAll<A>(t: Table<A>, data: seq<TimePeriodGroups<A>>): Table<A>
    decreases |data|
  {
    if data == [] then t else AddServices(CollectAll(t, data[..|data| - 1]), data[|data| - 1].groups)
  }

  // ---------------------------------------------------------------------------
  // Second pass: the amounts

  /** `display[acct][service][date] = amount` when both keys exist. */
  function Fill<A>(t: Table<A>, d: Date, g: Group<A>): Table<A> {
    if g.account in t && g.service in t[g.account] then
      t[g.account := t[g.account][g.service := t[g.account][g.service][d := g.amount]]]
    else t
  }

  function FillPeriod<A>(t: Table<A>, d: Date, groups: seq<Group<A>>): Table<A>
    decreases |groups|
  {
    if groups == [] then t else Fill(FillPeriod(t, d, groups[..|groups| - 1]), d, groups[|groups| - 1])
  }

  function FillAll<A>(t: Table<A>, data: seq<TimePeriodGroups<A>>): Table<A>
    decreases |data|
  {
    if data == [] then t
    else
      var last := data[|data| - 1];
      FillPeriod(FillAll(t, data[..|data| - 1]), last.start, last.groups)
  }

  // ---------------------------------------------------------------------------
  // What the passes compute

  /** A table entry `[a][s]`, if any. */
  function Entry2<A>(t: Table<A>, a: Key, s: Key): Option<map<Date, A>> {
    if a in t && s in t[a] then Some(t[a][s]) else None
  }

  /** A table entry `[a][s][d]`, if any. */
  function Entry3<A>(t: Table<A>, a: Key, s: Key, d: Date): Option<A> {
    if a in t && s in t[a] && d in t[a][s] then Some(t[a][s][d]) else None
  }

  lemma {:induction false} AddServicesAt<A>(t: Table<A>, groups: seq<Group<A>>, a: Key, s: Key)
    ensures AddServices(t, groups).Keys == t.Keys
    ensures Entry2(AddServices(t, groups), a, s) ==
      if a in t && s in ServicesIn(groups, a) then Some(map[]) else Entry2(t, a, s)
    decreases |groups|
  {
    if groups != [] {
      AddServicesAt(t, groups[..|groups| - 1], a, s);
    }
  }

  /** The first pass keeps the configured accounts and gives each the services
      billed to it, all still empty. */
  lemma {:induction false} CollectAllAt<A>(t: Table<A>, data: seq<TimePeriodGroups<A>>, a: Key, s: Key)
    ensures CollectAll(t, data).Keys == t.Keys
    ensures Entry2(CollectAll(t, data), a, s) ==
      if a in t && s in ServicesOf(data, a) then Some(map[]) else Entry2(t, a, s)
    decreases |data|
  {
    if data != [] {
      CollectAllAt(t, data[..|data| - 1], a, s);
      AddServicesAt(CollectAll(t, data[..|data| - 1]), data[|data| - 1].groups, a, s);
    }
  }

  /** The second pass writes, for each (account, service, period) whose keys
      the first pass made, the last amount given; it creates no key above the
      period level. */
  lemma {:induction false} FillPeriodAt<A>(t: Table<A>, d: Date, groups: seq<Group<A>>, a: Key, s: Key, e: Date)
    ensures FillPeriod(t, d, groups).Keys == t.Keys
    ensures Entry2(FillPeriod(t, d, groups), a, s).Some? == Entry2(t, a, s).Some?
    ensures Entry3(FillPeriod(t, d, groups), a, s, e) ==
      if a in t && s in t[a] && e == d && LatestIn(groups, a, s).Some? then LatestIn(groups, a, s) else Entry3(t, a, s, e)
    decreases |groups|
  {
    if groups != [] {
      FillPeriodAt(t, d, groups[..|groups| - 1], a, s, e);
    }
  }

  lemma {:induction false} FillAllAt<A>(t: Table<A>, data: seq<TimePeriodGroups<A>>, a: Key, s: Key, e: Date)
    ensures FillAll(t, data).Keys == t.Keys
    ensures Entry2(FillAll(t, data), a, s).Some? == Entry2(t, a, s).Some?
    ensures Entry3(FillAll(t, data), a, s, e) ==
      if a in t && s in t[a] && Latest(data, a, s, e).Some? then Latest(data, a, s, e) else Entry3(t, a, s, e)
    decreases |data|
  {
    if data != [] {
      var last := data[|data| - 1];
      FillAllAt(t, data[..|data| - 1], a, s, e);
      FillPeriodAt(FillAll(t, data[..|data| - 1]), last.start, last.groups, a, s, e);
    }
  }

  /** The empty table of the configured accounts. */
  function EmptyTable<A>(accounts: seq<Key>): Table<A> {
    map a | a in accounts :: map[]
  }

  /** The table after both passes. */
  function Passes<A>(data: seq<TimePeriodGroups<A>>, accounts: seq<Key>): Table<A> {
    FillAll(CollectAll(EmptyTable(accounts), data), data)
  }

  /** After both passes, a configured account holds exactly the services billed
      to it, each with the amounts of the periods it was billed in. */
  lemma PassesAt<A>(data: seq<TimePeriodGroups<A>>, accounts: seq<Key>, a: Key, s: Key)
    requires a in accounts
    ensures var t := Passes(data, accounts);
      a in t && (s in t[a] <==> s in ServicesOf(data, a)) &&
      (s in t[a] ==> t[a][s] == PeriodAmounts(data, a, s))
  {
    var t0: Table<A> := EmptyTable(accounts);
    var t1 := CollectAll(t0, data);
    CollectAllAt(t0, data, a, s);
    FillAllAt(t1, data, a, s, Date(0, 0, 0));
    if s in ServicesOf(data, a) {
      FilledAmounts(t1, data, a, s);
    }
  }

  /** A service the first pass made ends up with the amounts of the periods it
      was billed in. */
  lemma FilledAmounts<A>(t1: Table<A>, data: seq<TimePeriodGroups<A>>, a: Key, s: Key)
    requires a in t1 && s in t1[a] && t1[a][s] == map[]
    ensures var t2 := FillAll(t1, data);
      a in t2 && s in t2[a] && t2[a][s] == PeriodAmounts(data, a, s)
  {
    var t2: Table<A> := FillAll(t1, data);
    FillAllAt(t1, data, a, s, Date(0, 0, 0));
    var filled: map<Date, A> := t2[a][s];
    var amounts := PeriodAmounts(data, a, s);
    forall e ensures (e in filled <==> e in amounts) && (e in filled ==> filled[e] == amounts[e]) {
      FillAllAt(t1, data, a, s, e);
    }
    assert filled.Keys == amounts.Keys;
  }

  /** The configured accounts are exactly the table's. */
  lemma PassesKeys<A>(data: seq<TimePeriodGroups<A>>, accounts: seq<Key>)
    ensures Passes<A>(data, accounts).Keys == set a | a in accounts
  {
    CollectAllAt(EmptyTable<A>(accounts), data, "", "");
    FillAllAt(CollectAll(EmptyTable<A>(accounts), data), data, "", "", Date(0, 0, 0));
  }

  // ---------------------------------------------------------------------------
  // The operation

  /** The names of a sorted service list. */
  function Names<A>(services: seq<ServiceCosts<A>>): seq<Key> {
    seq(|services|, i requires 0 <= i < |services| => services[i].service)
  }

  /** `dict(sorted(services.items()))`: the services of one account by name. */
  method SortServices<A>(services: map<Key, map<Date, A>>) returns (r: seq<ServiceCosts<A>>)
    ensures forall s :: s in Names(r) <==> s in services
    ensures StrictlySorted(Names(r), StrLess)
    ensures forall i :: 0 <= i < |r| ==> r[i].service in services && r[i].byPeriod == services[r[i].service]
  {
    var names := SortStrings(services.Keys);
    r := [];
    for i := 0 to |names|
      invariant Names(r) == names[..i]
      invariant forall j :: 0 <= j < |r| ==> r[j].service in services && r[j].byPeriod == services[r[j].service]
    {
      r := r + [ServiceCosts(names[i], services[names[i]])];
    }
    assert names[..|names|] == names;
  }

  /** The loop `for acct in account_numbers: display[acct] = {}`. */
  method SeedAccounts<A>(accounts: seq<Key>) returns (t: Table<A>)
    ensures t == EmptyTable(accounts)
  {
    t := map[];
    for i := 0 to |accounts|
      invariant t == map a | a in accounts[..i] :: map[]
    {
      t := t[accounts[i] := map[]];
      assert forall a :: a in accounts[..i + 1] <==> a in accounts[..i] || a == accounts[i];
    }
    assert accounts[..|accounts|] == accounts;
  }

  /** The first pass over every period's groups. */
  method CollectServices<A>(t0: Table<A>, data: seq<TimePeriodGroups<A>>) returns (t: Table<A>)
    ensures t == CollectAll(t0, data)
  {
    t := t0;
    for p := 0 to |data|
      invariant t == CollectAll(t0, data[..p])
    {
      var groups := data[p].groups;
      for j := 0 to |groups|
        invariant t == AddServices(CollectAll(t0, data[..p]), groups[..j])
      {
        var g := groups[j];
        if g.account in t {
          t := t[g.account := t[g.account][g.service := map[]]];
        }
        assert groups[..j + 1][..j] == groups[..j];
      }
      assert groups[..|groups|] == groups;
      assert data[..p + 1][..p] == data[..p];
    }
    assert data[..|data|] == data;
  }

  /** The second pass over every period's groups. */
  method FillAmounts<A>(t1: Table<A>, data: seq<TimePeriodGroups<A>>) returns (t: Table<A>)
    ensures t == FillAll(t1, data)
  {
    t := t1;
    for p := 0 to |data|
      invariant t == FillAll(t1, data[..p])
    {
      var date := data[p].start;
      var groups := data[p].groups;
      for j := 0 to |groups|
        invariant t == FillPeriod(FillAll(t1, data[..p]), date, groups[..j])
      {
        var g := groups[j];
        if g.account in t && g.service in t[g.account] {
          t := t[g.account := t[g.account][g.service := t[g.account][g.service][date := g.amount]]];
        }
        assert groups[..j + 1][..j] == groups[..j];
      }
      assert groups[..|groups|] == groups;
      assert data[..p + 1][..p] == data[..p];
    }
    assert data[..|data|] == data;
  }

  /** `services` is what account `a` should hold: the services billed to it,
      strictly ascending by name, each with its amount for every period it was
      billed in (the last one given, when a period repeats a group: `LatestSome`,
      `LatestIsLast`). */
  ghost predicate Restructured<A>(data: seq<TimePeriodGroups<A>>, a: Key, services: seq<ServiceCosts<A>>) {
    && StrictlySorted(Names(services), StrLess)
    && (forall s :: s in Names(services) <==> s in ServicesOf(data, a))
    && (forall i :: 0 <= i < |services| ==> services[i].byPeriod == PeriodAmounts(data, a, services[i].service))
  }

  /** The sorting step for one account of the filled table. */
  method SortAccount<A>(t: Table<A>, data: seq<TimePeriodGroups<A>>, accounts: seq<Key>, a: Key)
    returns (sorted: seq<ServiceCosts<A>>)
    requires t == Passes(data, accounts) && a in accounts
    ensures Restructured(data, a, sorted)
  {
    PassesAt(data, accounts, a, "");
    forall s ensures s in t[a] <==> s in ServicesOf(data, a)
      ensures s in t[a] ==> t[a][s] == PeriodAmounts(data, a, s)
    {
      PassesAt(data, accounts, a, s);
    }
    sorted := SortServices(t[a]);
  }

  /** `restructure_cost_data(cost_data, account_numbers)`. */
  method RestructureCostData<A>(data: seq<TimePeriodGroups<A>>, accounts: seq<Key>)
    returns (r: map<Key, seq<ServiceCosts<A>>>)
    ensures r.Keys == set a | a in accounts
    ensures forall a :: a in r ==> Restructured(data, a, r[a])
  {
    var t0 := SeedAccounts(accounts);
    var t1 := CollectServices(t0, data);
    var t := FillAmounts(t1, data);
    PassesKeys<A>(data, accounts);
    r := map[];
    var todo := t.Keys;
    while todo != {}
      invariant todo <= t.Keys
      invariant r.Keys == t.Keys - todo
      invariant forall a :: a in r ==> Restructured(data, a, r[a])
      decreases |todo|
    {
      var a :| a in todo;
      var sorted := SortAccount(t, data, accounts, a);
      r := r[a := sorted];
      todo := todo - {a};
    }
  }
}
