/**
 Merging duplicate entity records: the plan that folds a record into the one that lists it as an
 alias, the folding of records in the order of the plan, and the repointing of relations.
 Lower-casing, whitespace normalisation and slugs are whatever functions the rules give.
 */
module EntityMerge {
  import opened Common

  datatype Rules = Rules(slug: string -> Option<string>, lower: string -> string, norm: string -> string)

  datatype Observation = Observation(category: string, text: string)

  datatype Relation = Relation(kind: string, target: string)

  datatype Record = Record(
    entity: string, aliases: seq<string>, repos: seq<string>, domain: string, summary: string,
    observations: seq<Observation>, relations: seq<Relation>)

  /** The record dup folds into the record into. */
  datatype Edge = Edge(dup: string, into: string)

  // ---- The plan --------------------------------------------------------------

  function Dups(plan: seq<Edge>): set<string> {
    set i | 0 <= i < |plan| :: plan[i].dup
  }

  function PlanAliases(rules: Rules, slugs: set<string>, into: string, aliases: seq<string>, plan: seq<Edge>): seq<Edge>
    decreases |aliases|
  {
    if aliases == [] then plan
    else
      var dup := rules.slug(aliases[0]);
      var more := if dup.None? || dup.value == into || dup.value !in slugs || dup.value in Dups(plan) then plan
                  else plan + [Edge(dup.value, into)];
      PlanAliases(rules, slugs, into, aliases[1..], more)
  }

  function PlanFrom(rules: Rules, slugs: set<string>, records: seq<Record>, plan: seq<Edge>): seq<Edge>
    decreases |records|
  {
    if records == [] then plan
    else
      var more := if records[0].entity in Dups(plan) then plan
                  else PlanAliases(rules, slugs, records[0].entity, records[0].aliases, plan);
      PlanFrom(rules, slugs, records[1..], more)
  }

  function Slugs(records: seq<Record>): set<string> {
    set i | 0 <= i < |records| :: records[i].entity
  }

  function Plan(rules: Rules, records: seq<Record>): seq<Edge> {
    PlanFrom(rules, Slugs(records), records, [])
  }

  method PlanEntityMerges(rules: Rules, records: seq<Record>) returns (plan: seq<Edge>)
    ensures plan == Plan(rules, records)
  {
    var slugs := Slugs(records);
    plan := [];
    for r := 0 to |records|
      invariant PlanFrom(rules, slugs, records[r..], plan) == Plan(rules, records)
    {
      var canonical := records[r];
      assert records[r..][0] == canonical && records[r..][1..] == records[r + 1..];
      if canonical.entity !in Dups(plan) {
        ghost var before := plan;
        for a := 0 to |canonical.aliases|
          invariant PlanAliases(rules, slugs, canonical.entity, canonical.aliases[a..], plan)
                 == PlanAliases(rules, slugs, canonical.entity, canonical.aliases, before)
        {
          assert canonical.aliases[a..][1..] == canonical.aliases[a + 1..];
          var dup := rules.slug(canonical.aliases[a]);
          if dup.Some? && dup.value != canonical.entity && dup.value in slugs && dup.value !in Dups(plan) {
            plan := plan + [Edge(dup.value, canonical.entity)];
          }
        }
        assert canonical.aliases[|canonical.aliases|..] == [];
      }
    }
    assert records[|records|..] == [];
  }

  /** Each record folds once, never into itself, and before the record it folds into does. */
  ghost predicate Forest(plan: seq<Edge>) {
    && (forall i, j :: 0 <= i < j < |plan| ==> plan[i].dup != plan[j].dup)
    && (forall i, j :: 0 <= j <= i < |plan| ==> plan[i].into != plan[j].dup)
  }

  ghost predicate Within(plan: seq<Edge>, slugs: set<string>) {
    forall i :: 0 <= i < |plan| ==> plan[i].dup in slugs && plan[i].into in slugs
  }

  /** A surviving record lists no other surviving record as an alias. */
  ghost predicate Settled(rules: Rules, slugs: set<string>, r: Record, aliases: seq<string>, plan: seq<Edge>) {
    forall i :: 0 <= i < |aliases| ==>
      var dup := rules.slug(aliases[i]);
      dup.None? || dup.value == r.entity || dup.value !in slugs || dup.value in Dups(plan)
  }

  lemma DupsGrow(plan: seq<Edge>, e: Edge)
    ensures Dups(plan + [e]) == Dups(plan) + {e.dup}
  {
    var more := plan + [e];
    forall d ensures d in Dups(more) <==> d in Dups(plan) + {e.dup} {
      if d in Dups(plan) {
        var i :| 0 <= i < |plan| && plan[i].dup == d;
        assert more[i].dup == d;
      }
      if d == e.dup { assert more[|plan|].dup == d; }
    }
  }

  lemma ForestGrows(plan: seq<Edge>, e: Edge)
    requires Forest(plan) && e.dup !in Dups(plan) && e.into !in Dups(plan) && e.dup != e.into
    ensures Forest(plan + [e])
  {
    forall i | 0 <= i < |plan| ensures plan[i].dup in Dups(plan) {}
  }

  lemma {:induction false} AliasesPlanned(rules: Rules, slugs: set<string>, r: Record, aliases: seq<string>,
      plan: seq<Edge>)
    requires Forest(plan) && Within(plan, slugs) && r.entity in slugs && r.entity !in Dups(plan)
    ensures var done := PlanAliases(rules, slugs, r.entity, aliases, plan);
      Forest(done) && Within(done, slugs) && r.entity !in Dups(done) && Dups(plan) <= Dups(done)
      && Settled(rules, slugs, r, aliases, done)
    decreases |aliases|
  {
    if aliases != [] {
      var dup := rules.slug(aliases[0]);
      if dup.None? || dup.value == r.entity || dup.value !in slugs || dup.value in Dups(plan) {
        AliasesPlanned(rules, slugs, r, aliases[1..], plan);
      } else {
        var e := Edge(dup.value, r.entity);
        ForestGrows(plan, e);
        DupsGrow(plan, e);
        AliasesPlanned(rules, slugs, r, aliases[1..], plan + [e]);
      }
    }
  }

  lemma SettledStays(rules: Rules, slugs: set<string>, r: Record, aliases: seq<string>, plan: seq<Edge>,
      later: seq<Edge>)
    requires Settled(rules, slugs, r, aliases, plan) && Dups(plan) <= Dups(later)
    ensures Settled(rules, slugs, r, aliases, later)
  {
  }

  lemma {:induction false} RecordsPlanned(rules: Rules, slugs: set<string>, records: seq<Record>, plan: seq<Edge>)
    requires Forest(plan) && Within(plan, slugs) && Slugs(records) <= slugs
    ensures var done := PlanFrom(rules, slugs, records, plan);
      Forest(done) && Within(done, slugs) && Dups(plan) <= Dups(done)
      && forall i :: 0 <= i < |records| ==>
           records[i].entity in Dups(done) || Settled(rules, slugs, records[i], records[i].aliases, done)
    decreases |records|
  {
    if records != [] {
      var r, tail := records[0], records[1..];
      assert r.entity in Slugs(records);
      forall i | 0 <= i < |tail| ensures tail[i].entity in slugs { assert records[i + 1].entity in Slugs(records); }
      var more := if r.entity in Dups(plan) then plan else PlanAliases(rules, slugs, r.entity, r.aliases, plan);
      if r.entity !in Dups(plan) { AliasesPlanned(rules, slugs, r, r.aliases, plan); }
      RecordsPlanned(rules, slugs, tail, more);
      if r.entity !in Dups(plan) {
        SettledStays(rules, slugs, r, r.aliases, more, PlanFrom(rules, slugs, tail, more));
      }
    }
  }

  /** The plan is an acyclic forest in folding order, and leaves no two survivors of which one names the other. */
  lemma PlanIsForest(rules: Rules, records: seq<Record>)
    ensures Forest(Plan(rules, records)) && Within(Plan(rules, records), Slugs(records))
    ensures forall i :: 0 <= i < |records| && records[i].entity !in Dups(Plan(rules, records)) ==>
      Settled(rules, Slugs(records), records[i], records[i].aliases, Plan(rules, records))
  {
    RecordsPlanned(rules, Slugs(records), records, []);
  }

  /** Some record of that name lists the duplicate among its aliases. */
  ghost predicate Lists(rules: Rules, records: seq<Record>, e: Edge) {
    exists r :: r in records && r.entity == e.into && NamesAlias(rules, r.aliases, e.dup)
  }

  predicate NamesAlias(rules: Rules, aliases: seq<string>, dup: string) {
    exists i :: 0 <= i < |aliases| && rules.slug(aliases[i]) == Some(dup)
  }

  ghost predicate Listed(rules: Rules, records: seq<Record>, plan: seq<Edge>) {
    forall i :: 0 <= i < |plan| ==> Lists(rules, records, plan[i])
  }

  lemma {:induction false} AliasesListed(rules: Rules, slugs: set<string>, records: seq<Record>, r: Record,
      from: nat, plan: seq<Edge>)
    requires r in records && from <= |r.aliases| && Listed(rules, records, plan)
    ensures Listed(rules, records, PlanAliases(rules, slugs, r.entity, r.aliases[from..], plan))
    decreases |r.aliases| - from
  {
    if from < |r.aliases| {
      var dup := rules.slug(r.aliases[from]);
      assert r.aliases[from..][1..] == r.aliases[from + 1..];
      if dup.Some? {
        assert NamesAlias(rules, r.aliases, dup.value) && Lists(rules, records, Edge(dup.value, r.entity));
        AliasesListed(rules, slugs, records, r, from + 1, plan + [Edge(dup.value, r.entity)]);
      }
      AliasesListed(rules, slugs, records, r, from + 1, plan);
    }
  }

  lemma {:induction false} RecordsListed(rules: Rules, slugs: set<string>, records: seq<Record>, from: nat,
      plan: seq<Edge>)
    requires from <= |records| && Listed(rules, records, plan)
    ensures Listed(rules, records, PlanFrom(rules, slugs, records[from..], plan))
    decreases |records| - from
  {
    if from < |records| {
      var r := records[from];
      assert records[from..][0] == r && records[from..][1..] == records[from + 1..] && r.aliases[0..] == r.aliases;
      AliasesListed(rules, slugs, records, r, 0, plan);
      RecordsListed(rules, slugs, records, from + 1,
        if r.entity in Dups(plan) then plan else PlanAliases(rules, slugs, r.entity, r.aliases, plan));
    }
  }

  /** A record folds only into one that lists it as an alias. */
  lemma EdgesAreAliases(rules: Rules, records: seq<Record>)
    ensures Listed(rules, records, Plan(rules, records))
  {
    RecordsListed(rules, Slugs(records), records, 0, []);
    assert records[0..] == records;
  }

  // ---- The surviving root ----------------------------------------------------

  /** Where a record ends up: through the edges in folding order. */
  function Root(plan: seq<Edge>, s: string): string
    decreases |plan|
  {
    if plan == [] then s else Root(plan[1..], if s == plan[0].dup then plan[0].into else s)
  }

  lemma ForestTail(plan: seq<Edge>)
    requires Forest(plan) && plan != []
    ensures Forest(plan[1..]) && plan[0].dup !in Dups(plan[1..]) && Dups(plan) == {plan[0].dup} + Dups(plan[1..])
  {
    forall d ensures d in Dups(plan) <==> d in {plan[0].dup} + Dups(plan[1..]) {
      if d in Dups(plan[1..]) {
        var i :| 0 <= i < |plan| - 1 && plan[1..][i].dup == d;
        assert plan[i + 1].dup == d;
      }
      if d in Dups(plan) {
        var i :| 0 <= i < |plan| && plan[i].dup == d;
        if i > 0 { assert plan[1..][i - 1].dup == d; }
      }
      if d == plan[0].dup { assert plan[0].dup in Dups(plan); }
    }
  }

  lemma {:induction false} SurvivorIsItsOwnRoot(plan: seq<Edge>, s: string)
    requires Forest(plan) && s !in Dups(plan)
    ensures Root(plan, s) == s
    decreases |plan|
  {
    if plan != [] {
      ForestTail(plan);
      SurvivorIsItsOwnRoot(plan[1..], s);
    }
  }

  /** The root is what following the plan from record to record leads to, and it survives. */
  lemma {:induction false} RootFollowsPlan(plan: seq<Edge>, s: string)
    requires Forest(plan)
    ensures Root(plan, s) !in Dups(plan)
    ensures forall i :: 0 <= i < |plan| && plan[i].dup == s ==> Root(plan, s) == Root(plan, plan[i].into)
    decreases |plan|
  {
    if plan != [] {
      var e, tail := plan[0], plan[1..];
      ForestTail(plan);
      RootFollowsPlan(tail, if s == e.dup then e.into else s);
      RootIsNotGone(tail, if s == e.dup then e.into else s, e);
      forall i | 0 <= i < |plan| && plan[i].dup == s ensures Root(plan, s) == Root(plan, plan[i].into) {
        if i > 0 {
          assert tail[i - 1] == plan[i];
          RootFollowsPlan(tail, s);
        }
      }
    }
  }

  lemma {:induction false} RootIsNotGone(plan: seq<Edge>, s: string, gone: Edge)
    requires s != gone.dup && forall i :: 0 <= i < |plan| ==> plan[i].into != gone.dup
    ensures Root(plan, s) != gone.dup
    decreases |plan|
  {
    if plan != [] { RootIsNotGone(plan[1..], if s == plan[0].dup then plan[0].into else s, gone); }
  }
}
