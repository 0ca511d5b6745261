/** The dashboard's counts: rows grouped by a key in the database, then spread
    over every known key with a running total. */
module Counts {
  import opened Common

  /** A row of groupBy: one key value and how many rows carry it. */
  datatype Group<K> = Group(key: K, count: nat)

  /** What groupBy returns for these rows: each key that occurs, once. */
  ghost predicate IsGrouped<K>(groups: seq<Group<K>>, rows: multiset<K>) {
    && (forall i, j :: 0 <= i < j < |groups| ==> groups[i].key != groups[j].key)
    && (forall i :: 0 <= i < |groups| ==> groups[i].count == rows[groups[i].key] > 0)
    && (forall k :: k in rows ==> InGroups(groups, k))
  }

  ghost predicate InGroups<K>(groups: seq<Group<K>>, key: K) {
    exists i :: 0 <= i < |groups| && groups[i].key == key
  }

  function Total<K>(groups: seq<Group<K>>): nat {
    if groups == [] then 0 else Total(groups[..|groups| - 1]) + groups[|groups| - 1].count
  }

  /** Grouping loses no row. */
  lemma {:induction false} GroupsTotal<K>(groups: seq<Group<K>>, rows: multiset<K>)
    requires IsGrouped(groups, rows)
    ensures Total(groups) == |rows|
  {
    if groups == [] {
      assert forall k :: !InGroups(groups, k);
      assert rows == multiset{};
    } else {
      var init, last := groups[..|groups| - 1], groups[|groups| - 1];
      var rest := rows[last.key := 0];
      forall k | k in rest ensures InGroups(init, k) {
        assert InGroups(groups, k);
        var i :| 0 <= i < |groups| && groups[i].key == k;
        assert init[i].key == k;
      }
      GroupsTotal(init, rest);
    }
  }

  /** The sum of a table's entries over a list of keys. */
  function SumOver<K>(table: map<K, nat>, keys: seq<K>): nat {
    if keys == [] then 0 else
      var last := keys[|keys| - 1];
      SumOver(table, keys[..|keys| - 1]) + (if last in table then table[last] else 0)
  }

  /** A table that counts rows exactly, summed over distinct keys, misses exactly
      the rows of the other keys. */
  lemma {:induction false} SumOfCounts<K>(table: map<K, nat>, keys: seq<K>, rows: multiset<K>)
    requires Distinct(keys) && forall k :: k in keys ==> k in table && table[k] == rows[k]
    ensures SumOver(table, keys) <= |rows|
    ensures SumOver(table, keys) == |rows| <==> forall k :: k in rows ==> k in keys
  {
    if keys == [] {
      if rows != multiset{} {
        var k :| k in rows;
        assert k !in keys;
      }
    } else {
      var init, last := keys[..|keys| - 1], keys[|keys| - 1];
      var rest := rows[last := 0];
      assert forall k :: k in keys <==> k in init || k == last;
      SumOfCounts(table, init, rest);
      assert forall k :: k in rest <==> k in rows && k != last;
    }
  }

  method ToCountsByKey<K(==)>(grouped: seq<Group<K>>, allStatuses: seq<K>, ghost rows: multiset<K>)
    returns (total: nat, byStatus: map<K, nat>)
    requires IsGrouped(grouped, rows)
    ensures total == |rows|
    ensures forall k :: k in byStatus <==> k in allStatuses || k in rows
    ensures forall k :: k in byStatus ==> byStatus[k] == rows[k]
    ensures Distinct(allStatuses) && (forall k :: k in rows ==> k in allStatuses) ==>
      total == SumOver(byStatus, allStatuses)
  {
    byStatus := map k | k in allStatuses :: 0;
    total := 0;
    for i := 0 to |grouped|
      invariant total == Total(grouped[..i])
      invariant forall k :: k in byStatus <==> k in allStatuses || InGroups(grouped[..i], k)
      invariant forall k :: k in byStatus ==> byStatus[k] == if InGroups(grouped[..i], k) then rows[k] else 0
    {
      var row := grouped[i];
      assert grouped[..i + 1][..i] == grouped[..i];
      InGroupsAppend(grouped, i);
      byStatus := byStatus[row.key := row.count];
      total := total + row.count;
    }
    assert grouped[..|grouped|] == grouped;
    GroupsTotal(grouped, rows);
    if Distinct(allStatuses) {
      SumOfCounts(byStatus, allStatuses, rows);
    }
  }

  lemma InGroupsAppend<K>(groups: seq<Group<K>>, i: nat)
    requires i < |groups|
    ensures forall k :: InGroups(groups[..i + 1], k) <==> InGroups(groups[..i], k) || groups[i].key == k
  {
  }

  // ------------------------------------------------- one organization or all

  /** The columns the dashboards count a job or an application by. */
  datatype Row<S> = Row(org: Id, status: S)

  /** The statuses of the rows a where clause selects: one organization's, or all. */
  ghost function Selected<S>(rows: seq<Row<S>>, org: Option<Id>): multiset<S> {
    if rows == [] then multiset{} else
      var last := rows[|rows| - 1];
      var rest := Selected(rows[..|rows| - 1], org);
      if org.None? || org.value == last.org then rest + multiset{last.status} else rest
  }

  ghost function SumOfOrgs<S>(rows: seq<Row<S>>, orgs: seq<Id>, status: S): nat {
    if orgs == [] then 0
    else SumOfOrgs(rows, orgs[..|orgs| - 1], status) + Selected(rows, Some(orgs[|orgs| - 1]))[status]
  }

  lemma {:induction false} NoRowsNoSum<S>(orgs: seq<Id>, status: S)
    ensures SumOfOrgs([], orgs, status) == 0
  {
    if orgs != [] {
      NoRowsNoSum(orgs[..|orgs| - 1], status);
    }
  }

  /** One more row adds to one organization only. */
  lemma {:induction false} OneMoreRow<S>(rows: seq<Row<S>>, row: Row<S>, orgs: seq<Id>, status: S)
    requires Distinct(orgs)
    ensures SumOfOrgs(rows + [row], orgs, status)
         == SumOfOrgs(rows, orgs, status) + if row.org in orgs && row.status == status then 1 else 0
  {
    assert (rows + [row])[..|rows|] == rows;
    if orgs != [] {
      var init := orgs[..|orgs| - 1];
      OneMoreRow(rows, row, init, status);
      assert row.org in orgs <==> row.org in init || row.org == orgs[|orgs| - 1];
    }
  }

  /** The platform's count of a status is the sum of the organizations' counts. */
  lemma {:induction false} PlatformIsSumOfOrganizations<S>(rows: seq<Row<S>>, orgs: seq<Id>, status: S)
    requires Distinct(orgs) && forall r :: r in rows ==> r.org in orgs
    ensures Selected(rows, None)[status] == SumOfOrgs(rows, orgs, status)
  {
    if rows == [] {
      NoRowsNoSum(orgs, status);
    } else {
      var init, last := rows[..|rows| - 1], rows[|rows| - 1];
      PlatformIsSumOfOrganizations(init, orgs, status);
      assert init + [last] == rows;
      OneMoreRow(init, last, orgs, status);
    }
  }

  // ----------------------------------------------------- subscriptions by plan

  datatype Plan = Plan(id: Id, key: string)

  /** Plan.id and Plan.key are unique columns. */
  ghost predicate ArePlans(plans: seq<Plan>) {
    forall i, j :: 0 <= i < j < |plans| ==> plans[i].id != plans[j].id && plans[i].key != plans[j].key
  }

  /** The keys under which counts are written: an empty key counts as missing. */
  predicate Keyed(plans: seq<Plan>, id: Id) {
    exists i :: 0 <= i < |plans| && plans[i].id == id && plans[i].key != ""
  }

  function KeysOf(plans: seq<Plan>): (keys: seq<string>)
    ensures |keys| == |plans| && forall i :: 0 <= i < |keys| ==> keys[i] == plans[i].key
  {
    seq(|plans|, i requires 0 <= i < |plans| => plans[i].key)
  }

  function PlanKeys(plans: seq<Plan>): set<string> { set p | p in plans :: p.key }

  /** What byPlan holds for one plan. */
  ghost function CountFor(p: Plan, rows: multiset<Id>): nat { if p.key == "" then 0 else rows[p.id] }

  lemma KeyedPrefix(init: seq<Plan>, last: Plan, id: Id)
    ensures Keyed(init + [last], id) <==> Keyed(init, id) || (last.id == id && last.key != "")
  {
    var plans := init + [last];
    if Keyed(init, id) {
      var i :| 0 <= i < |init| && init[i].id == id && init[i].key != "";
      assert plans[i] == init[i];
    }
    assert plans[|init|] == last;
    if Keyed(plans, id) && !(last.id == id && last.key != "") {
      var i :| 0 <= i < |plans| && plans[i].id == id && plans[i].key != "";
      assert init[i] == plans[i];
    }
  }

  /** The rows the last plan does not count. */
  ghost function Without(rows: multiset<Id>, last: Plan): multiset<Id> {
    if last.key == "" then rows else rows[last.id := 0]
  }

  lemma CountForOthers(init: seq<Plan>, last: Plan, p: Plan, rows: multiset<Id>)
    requires ArePlans(init + [last]) && p in init
    ensures CountFor(p, Without(rows, last)) == CountFor(p, rows)
  {
    var i :| 0 <= i < |init| && init[i] == p;
    var plans := init + [last];
    assert plans[i] == p && plans[|init|] == last;
  }

  /** Everything is counted by the plans exactly if what the last one does not
      count is by the others. */
  lemma KeyedByOthers(init: seq<Plan>, last: Plan, rows: multiset<Id>)
    ensures (forall id :: id in rows ==> Keyed(init + [last], id))
      <==> (forall id :: id in Without(rows, last) ==> Keyed(init, id))
  {
    forall id: Id ensures Keyed(init + [last], id) <==> Keyed(init, id) || (last.id == id && last.key != "") {
      KeyedPrefix(init, last, id);
    }
    forall id: Id ensures id in Without(rows, last) <==> id in rows && !(last.id == id && last.key != "") {
    }
  }

  lemma KeysOfPrefix(init: seq<Plan>, last: Plan)
    ensures KeysOf(init + [last]) == KeysOf(init) + [last.key]
  {
  }

  lemma SumOverAppend<K>(table: map<K, nat>, keys: seq<K>, k: K)
    ensures SumOver(table, keys + [k]) == SumOver(table, keys) + (if k in table then table[k] else 0)
  {
    assert (keys + [k])[..|keys|] == keys;
  }

  lemma {:induction false} PlanCountsSum(byPlan: map<string, nat>, plans: seq<Plan>, rows: multiset<Id>)
    requires ArePlans(plans)
    requires forall p :: p in plans ==> p.key in byPlan && byPlan[p.key] == CountFor(p, rows)
    ensures SumOver(byPlan, KeysOf(plans)) <= |rows|
    ensures SumOver(byPlan, KeysOf(plans)) == |rows| <==> forall id :: id in rows ==> Keyed(plans, id)
  {
    if plans == [] {
      assert forall id :: !Keyed(plans, id);
      if forall id :: id !in rows {
        assert rows == multiset{};
      }
    } else {
      var init, last := plans[..|plans| - 1], plans[|plans| - 1];
      assert plans == init + [last];
      forall p | p in init ensures byPlan[p.key] == CountFor(p, Without(rows, last)) {
        CountForOthers(init, last, p, rows);
      }
      PlanCountsSum(byPlan, init, Without(rows, last));
      KeyedByOthers(init, last, rows);
      KeysOfPrefix(init, last);
      SumOverAppend(byPlan, KeysOf(init), last.key);
      assert last in plans;
    }
  }

  /** What the loop has written for each plan after some groups. */
  ghost predicate CountedSoFar(byPlan: map<string, nat>, plans: seq<Plan>, groups: seq<Group<Id>>, rows: multiset<Id>) {
    forall p :: p in plans ==>
      p.key in byPlan && byPlan[p.key] == if InGroups(groups, p.id) then CountFor(p, rows) else 0
  }

  /** planKeyById of the source. */
  function KeyById(plans: seq<Plan>): (m: map<Id, string>)
    requires ArePlans(plans)
    ensures forall p :: p in plans ==> p.id in m && m[p.id] == p.key
    ensures forall id :: id in m ==> Plan(id, m[id]) in plans
  {
    var m := map p | p in plans :: p.id := p.key;
    assert forall id :: id in m ==> exists p :: p in plans && p.id == id && p.key == m[id];
    m
  }

  /** byPlan before the loop. */
  function ZeroCounts(plans: seq<Plan>): (m: map<string, nat>)
    ensures m.Keys == PlanKeys(plans) && forall rows :: CountedSoFar(m, plans, [], rows)
  {
    map k | k in PlanKeys(plans) :: 0
  }

  function Written(byPlan: map<string, nat>, keyById: map<Id, string>, row: Group<Id>): map<string, nat> {
    if row.key in keyById && keyById[row.key] != "" then byPlan[keyById[row.key] := row.count] else byPlan
  }

  /** The next group is written under the plan it names, if that plan has a key. */
  lemma CountNext(byPlan: map<string, nat>, plans: seq<Plan>, groups: seq<Group<Id>>, i: nat, rows: multiset<Id>)
    requires ArePlans(plans) && IsGrouped(groups, rows) && i < |groups|
    requires CountedSoFar(byPlan, plans, groups[..i], rows)
    ensures CountedSoFar(Written(byPlan, KeyById(plans), groups[i]), plans, groups[..i + 1], rows)
    ensures Written(byPlan, KeyById(plans), groups[i]).Keys == byPlan.Keys
  {
  }

  lemma AllCounted(byPlan: map<string, nat>, plans: seq<Plan>, groups: seq<Group<Id>>, rows: multiset<Id>)
    requires IsGrouped(groups, rows) && ArePlans(plans) && CountedSoFar(byPlan, plans, groups, rows)
    ensures Total(groups) == |rows|
    ensures forall p :: p in plans ==> p.key in byPlan && byPlan[p.key] == CountFor(p, rows)
    ensures SumOver(byPlan, KeysOf(plans)) <= |rows|
    ensures SumOver(byPlan, KeysOf(plans)) == |rows| <==> forall id :: id in rows ==> Keyed(plans, id)
  {
    forall p | p in plans ensures p.key in byPlan && byPlan[p.key] == CountFor(p, rows) {
    }
    GroupsTotal(groups, rows);
    PlanCountsSum(byPlan, plans, rows);
  }

  /** Every subscription references a plan, and no plan has an empty key. */
  ghost predicate Referenced(plans: seq<Plan>, rows: multiset<Id>) {
    && (forall id :: id in rows ==> exists i :: 0 <= i < |plans| && plans[i].id == id)
    && (forall i :: 0 <= i < |plans| ==> plans[i].key != "")
  }

  /** The schema's foreign key and the seeded plan keys give the condition. */
  lemma ReferencedAreKeyed(plans: seq<Plan>, rows: multiset<Id>)
    requires Referenced(plans, rows)
    ensures forall id :: id in rows ==> Keyed(plans, id)
  {
  }

  /** Every plan shows its own subscriptions, and the total equals their sum exactly
      when each subscription's plan was read and has a key. */
  method SubscriptionsByPlan(grouped: seq<Group<Id>>, plans: seq<Plan>, ghost rows: multiset<Id>)
    returns (total: nat, byPlan: map<string, nat>)
    requires IsGrouped(grouped, rows) && ArePlans(plans)
    ensures total == |rows|
    ensures byPlan.Keys == PlanKeys(plans)
    ensures forall p :: p in plans ==> byPlan[p.key] == CountFor(p, rows)
    ensures SumOver(byPlan, KeysOf(plans)) <= total
    ensures SumOver(byPlan, KeysOf(plans)) == total <==> forall id :: id in rows ==> Keyed(plans, id)
    ensures Referenced(plans, rows) ==> SumOver(byPlan, KeysOf(plans)) == total
  {
    var planKeyById := KeyById(plans);
    byPlan := ZeroCounts(plans);
    total := 0;
    assert grouped[..0] == [];
    for i := 0 to |grouped|
      invariant total == Total(grouped[..i])
      invariant byPlan.Keys == PlanKeys(plans)
      invariant CountedSoFar(byPlan, plans, grouped[..i], rows)
    {
      var row := grouped[i];
      assert grouped[..i + 1][..i] == grouped[..i];
      CountNext(byPlan, plans, grouped, i, rows);
      if row.key in planKeyById && planKeyById[row.key] != "" {
        byPlan := byPlan[planKeyById[row.key] := row.count];
      }
      total := total + row.count;
    }
    assert grouped[..|grouped|] == grouped;
    AllCounted(byPlan, plans, grouped, rows);
    if Referenced(plans, rows) {
      ReferencedAreKeyed(plans, rows);
    }
  }
}
