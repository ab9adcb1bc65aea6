/**
 Folding duplicate records along the plan: what a surviving record says in the end is exactly
 what all the records it stands for said; and where repointing a relation by one step of the
 plan misses the survivor.
 */
module EntityFold {
  import opened Common
  import opened EntityMerge

  // ---- Adding what is not there yet ------------------------------------------

  function Keys<T, K(==)>(list: seq<T>, key: T -> K): set<K> {
    set i | 0 <= i < |list| :: key(list[i])
  }

  /** The items whose key is not in the list yet, one per key, at its end. */
  function Absorb<T, K(==)>(list: seq<T>, items: seq<T>, key: T -> K): seq<T>
    decreases |items|
  {
    if items == [] then list
    else Absorb(if key(items[0]) in Keys(list, key) then list else list + [items[0]], items[1..], key)
  }

  lemma KeysConcat<T, K>(a: seq<T>, b: seq<T>, key: T -> K)
    ensures Keys(a + b, key) == Keys(a, key) + Keys(b, key)
  {
    var ab := a + b;
    assert forall i :: 0 <= i < |a| ==> ab[i] == a[i];
    assert forall i :: 0 <= i < |b| ==> ab[|a| + i] == b[i];
    forall k | k in Keys(ab, key) ensures k in Keys(a, key) + Keys(b, key) {
      var i :| 0 <= i < |ab| && key(ab[i]) == k;
      if i >= |a| { assert key(b[i - |a|]) == k; }
    }
    assert Keys(a, key) <= Keys(ab, key);
    forall k | k in Keys(b, key) ensures k in Keys(ab, key) {
      var i :| 0 <= i < |b| && key(b[i]) == k;
      assert key(ab[|a| + i]) == k;
    }
  }

  lemma {:induction false} AbsorbKeys<T, K>(list: seq<T>, items: seq<T>, key: T -> K)
    ensures Keys(Absorb(list, items, key), key) == Keys(list, key) + Keys(items, key)
    ensures list <= Absorb(list, items, key)
    decreases |items|
  {
    if items != [] {
      assert items == [items[0]] + items[1..];
      KeysConcat([items[0]], items[1..], key);
      KeysConcat(list, [items[0]], key);
      assert key([items[0]][0]) == key(items[0]);
      AbsorbKeys(if key(items[0]) in Keys(list, key) then list else list + [items[0]], items[1..], key);
    }
  }

  /** Item k is the first of its key, and its key is not in the list. */
  predicate NewAt<T, K(==)>(list: seq<T>, items: seq<T>, key: T -> K, k: int) {
    0 <= k < |items| && key(items[k]) !in Keys(list, key) && forall l :: 0 <= l < k ==> key(items[l]) != key(items[k])
  }

  /** What was added is the first item of its key, of a key that was not there, and no key is added twice. */
  lemma {:induction false} AbsorbAdds<T, K>(list: seq<T>, items: seq<T>, key: T -> K, j: nat)
    requires |list| <= j < |Absorb(list, items, key)|
    ensures var r := Absorb(list, items, key);
      && (exists k :: NewAt(list, items, key, k) && items[k] == r[j])
      && forall i :: 0 <= i < j ==> key(r[i]) != key(r[j])
    decreases |items|
  {
    var rest := items[1..];
    var more := if key(items[0]) in Keys(list, key) then list else list + [items[0]];
    AbsorbKeys(more, rest, key);
    assert items == [items[0]] + rest;
    KeysConcat(list, [items[0]], key);
    if j < |more| {
      assert NewAt(list, items, key, 0) && items[0] == Absorb(more, rest, key)[j];
      assert forall i :: 0 <= i < j ==> Absorb(more, rest, key)[i] == list[i];
    } else {
      AbsorbAdds(more, rest, key, j);
      var k :| NewAt(more, rest, key, k) && rest[k] == Absorb(more, rest, key)[j];
      assert key(items[0]) in Keys(more, key);
      assert forall l :: 0 < l <= k ==> items[l] == rest[l - 1];
      assert NewAt(list, items, key, k + 1);
    }
  }

  method AbsorbAll<T, K(==)>(list: seq<T>, items: seq<T>, key: T -> K) returns (r: seq<T>)
    ensures r == Absorb(list, items, key)
  {
    r := list;
    for i := 0 to |items|
      invariant Absorb(r, items[i..], key) == Absorb(list, items, key)
    {
      assert items[i..][1..] == items[i + 1..];
      if !(exists j :: 0 <= j < |r| && key(r[j]) == key(items[i])) {
        r := r + [items[i]];
      }
    }
  }

  // ---- Merging two records ---------------------------------------------------

  /** What a record says, up to case and spacing. */
  datatype Fact =
    | Observed(category: string, text: string)
    | Related(kind: string, target: string)
    | Named(name: string)
    | InRepo(repo: string)

  function ObservationKey(rules: Rules): Observation -> (string, string) {
    (o: Observation) => (o.category, rules.norm(o.text))
  }

  function RelationKey(rules: Rules): Relation -> (string, string) {
    (r: Relation) => (r.kind, rules.lower(r.target))
  }

  predicate Says(rules: Rules, r: Record, f: Fact) {
    match f
    case Observed(category, text) =>
      exists i :: 0 <= i < |r.observations| && r.observations[i].category == category
        && rules.norm(r.observations[i].text) == text
    case Related(kind, target) =>
      exists i :: 0 <= i < |r.relations| && r.relations[i].kind == kind && rules.lower(r.relations[i].target) == target
    case Named(name) => name == r.entity || exists i :: 0 <= i < |r.aliases| && rules.lower(r.aliases[i]) == name
    case InRepo(repo) => exists i :: 0 <= i < |r.repos| && rules.lower(r.repos[i]) == repo
  }

  /** The same by the keys under which entries are compared. */
  predicate SaysByKey(rules: Rules, r: Record, f: Fact) {
    match f
    case Observed(category, text) => (category, text) in Keys(r.observations, ObservationKey(rules))
    case Related(kind, target) => (kind, target) in Keys(r.relations, RelationKey(rules))
    case Named(name) => name in Keys(r.aliases, rules.lower) + {r.entity}
    case InRepo(repo) => repo in Keys(r.repos, rules.lower)
  }

  lemma SaysIffByKey(rules: Rules, r: Record, f: Fact)
    ensures Says(rules, r, f) <==> SaysByKey(rules, r, f)
  {
    match f
    case Observed(category, text) =>
      if i :| 0 <= i < |r.observations| && ObservationKey(rules)(r.observations[i]) == (category, text) {
        assert r.observations[i].category == category && rules.norm(r.observations[i].text) == text;
      }
    case Related(kind, target) =>
      if i :| 0 <= i < |r.relations| && RelationKey(rules)(r.relations[i]) == (kind, target) {
        assert r.relations[i].kind == kind && rules.lower(r.relations[i].target) == target;
      }
    case Named(_) =>
    case InRepo(_) =>
  }

  /** The names of a duplicate other than that of the record it folds into. */
  function OtherNames(rules: Rules, names: seq<string>, entity: string): seq<string> {
    if names == [] then []
    else (if rules.lower(names[0]) == entity then [] else [names[0]]) + OtherNames(rules, names[1..], entity)
  }

  function Merge(rules: Rules, c: Record, d: Record): Record {
    c.(observations := Absorb(c.observations, d.observations, ObservationKey(rules)),
       relations := Absorb(c.relations, d.relations, RelationKey(rules)),
       aliases := Absorb(c.aliases, OtherNames(rules, d.aliases + [d.entity], c.entity), rules.lower),
       repos := Absorb(c.repos, d.repos, rules.lower),
       domain := if c.domain == [] then d.domain else c.domain,
       summary := if c.summary == [] then d.summary else c.summary)
  }

  lemma {:induction false} OtherNamesKeys(rules: Rules, names: seq<string>, entity: string)
    ensures Keys(OtherNames(rules, names, entity), rules.lower) + {entity} == Keys(names, rules.lower) + {entity}
  {
    if names != [] {
      OtherNamesKeys(rules, names[1..], entity);
      assert names == [names[0]] + names[1..];
      KeysConcat([names[0]], names[1..], rules.lower);
      KeysConcat(if rules.lower(names[0]) == entity then [] else [names[0]],
                 OtherNames(rules, names[1..], entity), rules.lower);
      assert rules.lower([names[0]][0]) in Keys([names[0]], rules.lower);
    }
  }

  lemma MergedNames(rules: Rules, c: Record, d: Record)
    requires rules.lower(d.entity) == d.entity
    ensures Keys(Merge(rules, c, d).aliases, rules.lower) + {c.entity}
         == (Keys(c.aliases, rules.lower) + {c.entity}) + (Keys(d.aliases, rules.lower) + {d.entity})
  {
    var names := d.aliases + [d.entity];
    AbsorbKeys(c.aliases, OtherNames(rules, names, c.entity), rules.lower);
    OtherNamesKeys(rules, names, c.entity);
    KeysConcat(d.aliases, [d.entity], rules.lower);
    assert rules.lower([d.entity][0]) in Keys([d.entity], rules.lower);
    assert Keys([d.entity], rules.lower) == {d.entity};
    var a, b, n := Keys(c.aliases, rules.lower), Keys(names, rules.lower), {c.entity};
    assert a + n + b == a + (b + n);
  }

  /** A merged record says exactly what the two said. */
  lemma MergeFacts(rules: Rules, c: Record, d: Record, f: Fact)
    requires rules.lower(d.entity) == d.entity
    ensures Says(rules, Merge(rules, c, d), f) <==> Says(rules, c, f) || Says(rules, d, f)
  {
    SaysIffByKey(rules, c, f);
    SaysIffByKey(rules, d, f);
    SaysIffByKey(rules, Merge(rules, c, d), f);
    match f
    case Observed(_, _) => AbsorbKeys(c.observations, d.observations, ObservationKey(rules));
    case Related(_, _) => AbsorbKeys(c.relations, d.relations, RelationKey(rules));
    case Named(_) => MergedNames(rules, c, d);
    case InRepo(_) => AbsorbKeys(c.repos, d.repos, rules.lower);
  }

  // ---- Folding along the plan ------------------------------------------------

  function FoldStep(rules: Rules, m: map<string, Record>, e: Edge): map<string, Record> {
    if e.dup in m && e.into in m then m[e.into := Merge(rules, m[e.into], m[e.dup])] else m
  }

  function FoldAll(rules: Rules, m: map<string, Record>, plan: seq<Edge>): map<string, Record>
    decreases |plan|
  {
    if plan == [] then m else FoldAll(rules, FoldStep(rules, m, plan[0]), plan[1..])
  }

  /** Records sit under their own slugs, and slugs are in lower case. */
  ghost predicate Keyed(rules: Rules, m: map<string, Record>) {
    forall s :: s in m ==> m[s].entity == s && rules.lower(s) == s
  }

  /** What all the records that end up at this one say. */
  ghost predicate Said(rules: Rules, m: map<string, Record>, plan: seq<Edge>, root: string, f: Fact) {
    exists s :: s in m && Root(plan, s) == root && Says(rules, m[s], f)
  }

  lemma SaidStays(rules: Rules, m: map<string, Record>, plan: seq<Edge>, root: string, f: Fact)
    requires Keyed(rules, m) && plan != [] && Forest(plan) && Within(plan, m.Keys) && Said(rules, m, plan, root, f)
    ensures Said(rules, FoldStep(rules, m, plan[0]), plan[1..], root, f)
  {
    var e, tail, next := plan[0], plan[1..], FoldStep(rules, m, plan[0]);
    assert e.dup in m && e.into in m && e.dup != e.into;
    MergeFacts(rules, m[e.into], m[e.dup], f);
    var s :| s in m && Root(plan, s) == root && Says(rules, m[s], f);
    if s == e.dup {
      assert Root(tail, e.into) == root && Says(rules, next[e.into], f);
    } else {
      assert Root(tail, s) == root && Says(rules, next[s], f);
    }
  }

  lemma StepSaid(rules: Rules, m: map<string, Record>, plan: seq<Edge>, root: string, f: Fact)
    requires Keyed(rules, m) && plan != [] && Forest(plan) && Within(plan, m.Keys) && root !in Dups(plan)
    ensures Said(rules, FoldStep(rules, m, plan[0]), plan[1..], root, f) <==> Said(rules, m, plan, root, f)
  {
    var e, tail, next := plan[0], plan[1..], FoldStep(rules, m, plan[0]);
    assert e.dup in m && e.into in m && e.dup != e.into;
    MergeFacts(rules, m[e.into], m[e.dup], f);
    ForestTail(plan);
    if Said(rules, m, plan, root, f) { SaidStays(rules, m, plan, root, f); }
    if s :| s in next && Root(tail, s) == root && Says(rules, next[s], f) {
      SurvivorIsItsOwnRoot(tail, e.dup);
      assert root != e.dup;
      if s == e.into {
        assert Root(plan, e.dup) == root && Root(plan, e.into) == root;
        assert Says(rules, m[e.into], f) || Says(rules, m[e.dup], f);
      } else {
        assert Root(plan, s) == root;
      }
    }
  }

  /** After the fold a surviving record says exactly what the records it stands for said, and nothing else. */
  lemma {:induction false} FoldConserves(rules: Rules, m: map<string, Record>, plan: seq<Edge>, root: string, f: Fact)
    requires Keyed(rules, m) && Forest(plan) && Within(plan, m.Keys) && root in m && root !in Dups(plan)
    ensures root in FoldAll(rules, m, plan)
    ensures Says(rules, FoldAll(rules, m, plan)[root], f) <==> Said(rules, m, plan, root, f)
    decreases |plan|
  {
    if plan == [] {
      assert Root([], root) == root;
    } else {
      ForestTail(plan);
      StepSaid(rules, m, plan, root, f);
      assert forall i :: 0 <= i < |plan| - 1 ==> plan[1..][i] == plan[i + 1];
      FoldConserves(rules, FoldStep(rules, m, plan[0]), plan[1..], root, f);
    }
  }

  /** Its name, its own entries and, unless they were empty, its domain and summary are as they were. */
  predicate Grown(c: Record, d: Record, m: Record) {
    && m.entity == c.entity && c.observations <= m.observations && c.relations <= m.relations
    && c.aliases <= m.aliases && c.repos <= m.repos
    && m.domain == (if c.domain != [] then c.domain else d.domain)
    && m.summary == (if c.summary != [] then c.summary else d.summary)
  }

  lemma MergeGrows(rules: Rules, c: Record, d: Record)
    ensures Grown(c, d, Merge(rules, c, d))
  {
    AbsorbKeys(c.observations, d.observations, ObservationKey(rules));
    AbsorbKeys(c.relations, d.relations, RelationKey(rules));
    AbsorbKeys(c.aliases, OtherNames(rules, d.aliases + [d.entity], c.entity), rules.lower);
    AbsorbKeys(c.repos, d.repos, rules.lower);
  }

  class EntityTable {
    var records: map<string, Record>

    constructor (m: map<string, Record>)
      ensures records == m
    {
      records := m;
    }

    method MergeInto(rules: Rules, into: string, dup: string)
      requires into in records && dup in records
      modifies this
      ensures records == old(records)[into := Merge(rules, old(records)[into], old(records)[dup])]
      ensures Grown(old(records)[into], old(records)[dup], records[into])
    {
      var c, d := records[into], records[dup];
      var observations := AbsorbAll(c.observations, d.observations, ObservationKey(rules));
      var relations := AbsorbAll(c.relations, d.relations, RelationKey(rules));
      var aliases := AbsorbAll(c.aliases, OtherNames(rules, d.aliases + [d.entity], c.entity), rules.lower);
      var repos := AbsorbAll(c.repos, d.repos, rules.lower);
      c := c.(observations := observations, relations := relations, aliases := aliases, repos := repos);
      if c.domain == [] { c := c.(domain := d.domain); }
      if c.summary == [] { c := c.(summary := d.summary); }
      MergeGrows(rules, records[into], d);
      records := records[into := c];
    }

    method Fold(rules: Rules, plan: seq<Edge>)
      modifies this
      ensures records == FoldAll(rules, old(records), plan)
    {
      for i := 0 to |plan|
        invariant FoldAll(rules, records, plan[i..]) == FoldAll(rules, old(records), plan)
      {
        assert plan[i..][1..] == plan[i + 1..];
        if plan[i].dup in records && plan[i].into in records {
          MergeInto(rules, plan[i].into, plan[i].dup);
        }
      }
    }
  }

  // ---- Housekeeping as a whole ------------------------------------------------

  function Table(records: seq<Record>): map<string, Record> {
    if records == [] then map[]
    else Table(records[..|records| - 1])[records[|records| - 1].entity := records[|records| - 1]]
  }

  lemma {:induction false} TableHolds(records: seq<Record>)
    ensures Table(records).Keys == Slugs(records)
    ensures forall s :: s in Table(records) ==> Table(records)[s].entity == s
  {
    if records != [] {
      var n := |records| - 1;
      TableHolds(records[..n]);
      forall s ensures s in Slugs(records) <==> s in Slugs(records[..n]) || s == records[n].entity {
        if s in Slugs(records) {
          var i :| 0 <= i < |records| && records[i].entity == s;
          if i < n { assert records[..n][i].entity == s; }
        }
        if s in Slugs(records[..n]) {
          var i :| 0 <= i < n && records[..n][i].entity == s;
          assert records[i].entity == s;
        }
        if s == records[n].entity { assert records[n].entity in Slugs(records); }
      }
    }
  }

  /** Every fact of every record is on its surviving root after planning and folding, whatever the records are. */
  lemma MergingLosesNothing(rules: Rules, records: seq<Record>, s: string, f: Fact)
    requires s in Table(records) && forall x :: x in Table(records) ==> rules.lower(x) == x
    requires Says(rules, Table(records)[s], f)
    ensures var plan := Plan(rules, records);
      && Root(plan, s) !in Dups(plan)
      && Root(plan, s) in FoldAll(rules, Table(records), plan)
      && Says(rules, FoldAll(rules, Table(records), plan)[Root(plan, s)], f)
  {
    var plan := Plan(rules, records);
    PlanIsForest(rules, records);
    TableHolds(records);
    RootFollowsPlan(plan, s);
    RootWithin(plan, s, Slugs(records));
    FoldConserves(rules, Table(records), plan, Root(plan, s), f);
  }

  lemma {:induction false} RootWithin(plan: seq<Edge>, s: string, slugs: set<string>)
    requires Within(plan, slugs) && s in slugs
    ensures Root(plan, s) in slugs
    decreases |plan|
  {
    if plan != [] {
      assert forall i :: 0 <= i < |plan| - 1 ==> plan[1..][i] == plan[i + 1];
      RootWithin(plan[1..], if s == plan[0].dup then plan[0].into else s, slugs);
    }
  }

  // ---- Repointing relations ---------------------------------------------------

  /** The source's lookup: a single step of the plan. */
  function Repointed(plan: seq<Edge>, target: string): string
    decreases |plan|
  {
    if plan == [] then target else if plan[0].dup == target then plan[0].into else Repointed(plan[1..], target)
  }

  lemma {:induction false} RepointedIsOneStep(plan: seq<Edge>, target: string)
    ensures if target in Dups(plan) then exists i :: 0 <= i < |plan| && plan[i] == Edge(target, Repointed(plan, target))
            else Repointed(plan, target) == target
    decreases |plan|
  {
    if plan != [] {
      var tail := plan[1..];
      if plan[0].dup == target {
        assert plan[0] == Edge(target, plan[0].into);
        assert plan[0].dup in Dups(plan);
      } else {
        RepointedIsOneStep(tail, target);
        if target in Dups(plan) {
          var i :| 0 <= i < |plan| && plan[i].dup == target;
          assert tail[i - 1].dup == target;
          var j :| 0 <= j < |tail| && tail[j] == Edge(target, Repointed(tail, target));
          assert plan[j + 1] == tail[j];
        } else {
          forall i | 0 <= i < |tail| ensures tail[i].dup != target { assert plan[i + 1].dup in Dups(plan); }
        }
      }
    }
  }

  /** A repointed relation names the surviving record exactly when its new target was not merged away itself. */
  lemma RepointedIsRootIff(plan: seq<Edge>, target: string)
    requires Forest(plan)
    ensures Repointed(plan, target) == Root(plan, target) <==> Repointed(plan, target) !in Dups(plan)
  {
    RepointedIsOneStep(plan, target);
    RootFollowsPlan(plan, target);
    if target in Dups(plan) {
      var i :| 0 <= i < |plan| && plan[i] == Edge(target, Repointed(plan, target));
      assert Root(plan, target) == Root(plan, plan[i].into);
    } else {
      SurvivorIsItsOwnRoot(plan, target);
    }
    if Repointed(plan, target) !in Dups(plan) { SurvivorIsItsOwnRoot(plan, Repointed(plan, target)); }
  }

  /** No record both takes in another and is merged away. */
  ghost predicate NoChain(plan: seq<Edge>) {
    forall i :: 0 <= i < |plan| ==> plan[i].into !in Dups(plan)
  }

  ghost predicate AllReachRoot(plan: seq<Edge>) {
    forall target :: Repointed(plan, target) == Root(plan, target)
  }

  /** Every relation is repointed to a survivor exactly when the plan has no chain. */
  lemma RepointingSoundIff(plan: seq<Edge>)
    requires Forest(plan)
    ensures AllReachRoot(plan) <==> NoChain(plan)
  {
    if NoChain(plan) {
      forall target ensures Repointed(plan, target) == Root(plan, target) {
        RepointedIsRootIff(plan, target);
        RepointedIsOneStep(plan, target);
      }
    }
    if AllReachRoot(plan) {
      forall i | 0 <= i < |plan| ensures plan[i].into !in Dups(plan) {
        RepointedIsOneStep(plan, plan[i].dup);
        assert plan[i].dup in Dups(plan);
        var j :| 0 <= j < |plan| && plan[j] == Edge(plan[i].dup, Repointed(plan, plan[i].dup));
        assert j == i;
        RepointedIsRootIff(plan, plan[i].dup);
      }
    }
  }

  function Bare(entity: string, aliases: seq<string>): Record {
    Record(entity, aliases, [], [], [], [], [])
  }

  /** Three records on which it goes wrong: b takes in c, then a takes in b, and relations to c point to b. */
  lemma ChainLeavesDanglingRelation(rules: Rules)
    requires rules.slug(['b']) == Some(['b']) && rules.slug(['c']) == Some(['c'])
    ensures var plan := Plan(rules, [Bare(['b'], [['c']]), Bare(['a'], [['b']]), Bare(['c'], [])]);
      && plan == [Edge(['c'], ['b']), Edge(['b'], ['a'])]
      && Repointed(plan, ['c']) == ['b'] && ['b'] in Dups(plan) && Root(plan, ['c']) == ['a']
  {
    var a, b, c := ['a'], ['b'], ['c'];
    var rb, ra, rc := Bare(b, [c]), Bare(a, [b]), Bare(c, []);
    var records := [rb, ra, rc];
    var slugs := Slugs(records);
    assert records[0].entity in slugs && records[1].entity in slugs && records[2].entity in slugs;
    var p1, p2 := [Edge(c, b)], [Edge(c, b), Edge(b, a)];
    assert p1[0].dup in Dups(p1) && p2[0].dup in Dups(p2) && p2[1].dup in Dups(p2);
    assert PlanAliases(rules, slugs, b, [c], []) == p1 by {
      assert [c][1..] == [];
    }
    assert PlanAliases(rules, slugs, a, [b], p1) == p2 by {
      assert [b][1..] == [] && p1 + [Edge(b, a)] == p2;
    }
    assert records[1..] == [ra, rc] && records[1..][1..] == [rc] && [rc][1..] == [];
    assert PlanFrom(rules, slugs, [rc], p2) == p2;
    assert PlanFrom(rules, slugs, [ra, rc], p1) == p2;
    assert p2[1..] == [Edge(b, a)] && p2[1..][1..] == [];
    assert Root(p2[1..], b) == Root([], a) == a;
  }
}
