/**
 * Which commission rule pays: ResolveCommissionRule of
 * internal/dbgen/commission.sql.gen.go and the specificity trigger of
 * db/migrations/0021_commission.up.sql.
 */
module RuleSelection {
  import opened Sums

  /** What a rule may be bound to; None is SQL NULL, "any". */
  datatype Scope = Scope(
    franchise: Option<int>, unit: Option<int>, franchiseCategory: Option<string>, service: Option<int>,
    originZone: Option<int>, destinationZone: Option<int>, customerCategory: Option<string>, paymentMode: Option<string>)

  datatype Rule = Rule(id: nat, commissionType: string, scheme: int, active: bool, schemeActive: bool, scope: Scope, priority: int)

  datatype Facts = Facts(commissionType: string, scheme: Option<int>, scope: Scope)

  function Weight(bound: bool, weight: nat): nat {
    if bound then weight else 0
  }

  function Specificity(s: Scope): nat {
    Weight(s.franchise.Some?, 32) + Weight(s.unit.Some?, 16) + Weight(s.franchiseCategory.Some?, 8)
    + Weight(s.service.Some?, 4) + Weight(s.originZone.Some?, 2) + Weight(s.destinationZone.Some?, 2)
    + Weight(s.customerCategory.Some?, 1) + Weight(s.paymentMode.Some?, 1)
  }

  /** NULL in the rule matches anything; a bound column needs the very same fact. */
  predicate Fits<T(==)>(bound: Option<T>, fact: Option<T>) {
    bound.None? || bound == fact
  }

  predicate Matches(r: Rule, f: Facts) {
    && r.active && r.schemeActive
    && r.commissionType == f.commissionType
    && (f.scheme.None? || f.scheme == Some(r.scheme))
    && Fits(r.scope.franchise, f.scope.franchise)
    && Fits(r.scope.franchiseCategory, f.scope.franchiseCategory)
    && Fits(r.scope.unit, f.scope.unit)
    && Fits(r.scope.service, f.scope.service)
    && Fits(r.scope.originZone, f.scope.originZone)
    && Fits(r.scope.destinationZone, f.scope.destinationZone)
    && Fits(r.scope.customerCategory, f.scope.customerCategory)
    && Fits(r.scope.paymentMode, f.scope.paymentMode)
  }

  /** Column by column: whatever a rule is bound to must be the very fact, and nothing else about the shipment matters. */
  lemma MatchesIff(r: Rule, f: Facts)
    ensures Matches(r, f) <==>
            && r.active && r.schemeActive && r.commissionType == f.commissionType
            && (f.scheme.Some? ==> f.scheme.value == r.scheme)
            && (r.scope.franchise.Some? ==> f.scope.franchise == r.scope.franchise)
            && (r.scope.unit.Some? ==> f.scope.unit == r.scope.unit)
            && (r.scope.franchiseCategory.Some? ==> f.scope.franchiseCategory == r.scope.franchiseCategory)
            && (r.scope.service.Some? ==> f.scope.service == r.scope.service)
            && (r.scope.originZone.Some? ==> f.scope.originZone == r.scope.originZone)
            && (r.scope.destinationZone.Some? ==> f.scope.destinationZone == r.scope.destinationZone)
            && (r.scope.customerCategory.Some? ==> f.scope.customerCategory == r.scope.customerCategory)
            && (r.scope.paymentMode.Some? ==> f.scope.paymentMode == r.scope.paymentMode)
  {
  }

  /** ORDER BY specificity DESC, priority DESC, id ASC. */
  predicate Before(a: Rule, b: Rule) {
    var x, y := Specificity(a.scope), Specificity(b.scope);
    x > y || (x == y && (a.priority > b.priority || (a.priority == b.priority && a.id < b.id)))
  }

  predicate DistinctIds(rules: seq<Rule>) {
    forall i, j :: 0 <= i < j < |rules| ==> rules[i].id != rules[j].id
  }

  function Place(candidates: seq<Rule>, r: Rule): seq<Rule> {
    if candidates == [] || Before(r, candidates[0]) then [r] + candidates
    else [candidates[0]] + Place(candidates[1..], r)
  }

  /** The rows the query returns, in its order. */
  function Candidates(rules: seq<Rule>, f: Facts): seq<Rule> {
    if rules == [] then []
    else
      var n := |rules| - 1;
      var rest := Candidates(rules[..n], f);
      if Matches(rules[n], f) then Place(rest, rules[n]) else rest
  }

  /** Only the first candidate pays; the others are kept to explain it. */
  function Winner(rules: seq<Rule>, f: Facts): Option<Rule> {
    var candidates := Candidates(rules, f);
    if candidates == [] then None else Some(candidates[0])
  }

  /** `w` matches and precedes every other rule that does. */
  ghost predicate Best(rules: seq<Rule>, f: Facts, w: Rule) {
    && w in rules && Matches(w, f)
    && forall r :: r in rules && Matches(r, f) ==> r == w || Before(w, r)
  }

  predicate Sorted(candidates: seq<Rule>) {
    forall i, j :: 0 <= i < j < |candidates| ==> Before(candidates[i], candidates[j])
  }

  lemma {:induction false} PlaceFacts(candidates: seq<Rule>, r: Rule)
    requires Sorted(candidates)
    requires forall c :: c in candidates ==> c.id != r.id
    ensures Sorted(Place(candidates, r))
    ensures forall c :: c in Place(candidates, r) <==> c == r || c in candidates
  {
    if candidates != [] && !Before(r, candidates[0]) {
      PlaceFacts(candidates[1..], r);
      var rest := Place(candidates[1..], r);
      assert candidates == [candidates[0]] + candidates[1..];
      forall j | 0 <= j < |rest|
        ensures Before(candidates[0], rest[j])
      {
        assert rest[j] in rest;
      }
    }
  }

  /** The query returns exactly the matching rules, strictly ordered. */
  lemma {:induction false} CandidateFacts(rules: seq<Rule>, f: Facts)
    requires DistinctIds(rules)
    ensures Sorted(Candidates(rules, f))
    ensures forall r :: r in Candidates(rules, f) <==> r in rules && Matches(r, f)
  {
    if rules != [] {
      var n := |rules| - 1;
      CandidateFacts(rules[..n], f);
      assert rules == rules[..n] + [rules[n]];
      if Matches(rules[n], f) {
        forall c | c in Candidates(rules[..n], f)
          ensures c.id != rules[n].id
        {
          assert c in rules[..n];
        }
        PlaceFacts(Candidates(rules[..n], f), rules[n]);
      }
    }
  }

  /** The winner is the unique best match; there is none only when nothing matches. */
  lemma WinnerIsBest(rules: seq<Rule>, f: Facts, w: Rule)
    requires DistinctIds(rules)
    ensures Winner(rules, f) == Some(w) <==> Best(rules, f, w)
    ensures Winner(rules, f).None? <==> forall r :: r in rules ==> !Matches(r, f)
  {
    CandidateFacts(rules, f);
    var candidates := Candidates(rules, f);
    if candidates != [] {
      var head := candidates[0];
      assert head in candidates;
      forall r | r in candidates
        ensures r == head || Before(head, r)
      {
      }
    }
  }

  /** Row order does not decide money. */
  lemma RowOrderIrrelevant(rules: seq<Rule>, other: seq<Rule>, f: Facts)
    requires DistinctIds(rules) && DistinctIds(other)
    requires forall r :: r in rules <==> r in other
    ensures Winner(rules, f) == Winner(other, f)
  {
    if Winner(rules, f).Some? {
      var w := Winner(rules, f).value;
      WinnerIsBest(rules, f, w);
      WinnerIsBest(other, f, w);
    } else if Winner(other, f).Some? {
      var w := Winner(other, f).value;
      WinnerIsBest(rules, f, w);
      WinnerIsBest(other, f, w);
    }
  }

  /** When a newer matching rule displaces the old winner: never on a mere tie. */
  predicate Displaces(r: Rule, w: Rule) {
    var x, y := Specificity(r.scope), Specificity(w.scope);
    x > y || (x == y && r.priority > w.priority)
  }

  lemma AddingRule(rules: seq<Rule>, f: Facts, r: Rule)
    requires DistinctIds(rules) && forall other :: other in rules ==> other.id < r.id
    ensures Winner(rules + [r], f) ==
            if Matches(r, f) && (Winner(rules, f).None? || Displaces(r, Winner(rules, f).value)) then Some(r)
            else Winner(rules, f)
  {
    var all := rules + [r];
    assert DistinctIds(all) by {
      assert forall i :: 0 <= i < |rules| ==> rules[i] in rules;
    }
    var prior := Winner(rules, f);
    WinnerIsBest(all, f, r);
    WinnerIsBest(rules, f, if prior.Some? then prior.value else r);
    if prior.Some? {
      WinnerIsBest(all, f, prior.value);
    }
  }

  // ----- What specificity means ---------------------------------------------

  predicate BindsAllOf(a: Scope, b: Scope) {
    && (b.franchise.Some? ==> a.franchise.Some?)
    && (b.unit.Some? ==> a.unit.Some?)
    && (b.franchiseCategory.Some? ==> a.franchiseCategory.Some?)
    && (b.service.Some? ==> a.service.Some?)
    && (b.originZone.Some? ==> a.originZone.Some?)
    && (b.destinationZone.Some? ==> a.destinationZone.Some?)
    && (b.customerCategory.Some? ==> a.customerCategory.Some?)
    && (b.paymentMode.Some? ==> a.paymentMode.Some?)
  }

  function Dimensions(s: Scope): nat {
    Weight(s.franchise.Some?, 1) + Weight(s.unit.Some?, 1) + Weight(s.franchiseCategory.Some?, 1)
    + Weight(s.service.Some?, 1) + Weight(s.originZone.Some?, 1) + Weight(s.destinationZone.Some?, 1)
    + Weight(s.customerCategory.Some?, 1) + Weight(s.paymentMode.Some?, 1)
  }

  /**
   * The heavy end first: with two dimensions or more the franchise is one of
   * them, with three the unit too, then the category, the service, a zone, and
   * with seven both zones.
   */
  predicate BindsHeavyEnd(s: Scope) {
    var n := Dimensions(s);
    && (n >= 2 ==> s.franchise.Some?)
    && (n >= 3 ==> s.unit.Some?)
    && (n >= 4 ==> s.franchiseCategory.Some?)
    && (n >= 5 ==> s.service.Some?)
    && (n >= 6 ==> s.originZone.Some? || s.destinationZone.Some?)
    && (n >= 7 ==> s.originZone.Some? && s.destinationZone.Some?)
  }

  /** The heaviest scope that binds n dimensions. */
  function Heaviest(n: nat): (s: Scope)
    requires n < 8
    ensures Dimensions(s) == n
  {
    Scope(if n >= 1 then Some(1) else None, if n >= 2 then Some(1) else None,
          if n >= 3 then Some("A") else None, if n >= 4 then Some(1) else None,
          if n >= 5 then Some(1) else None, if n >= 6 then Some(1) else None,
          if n >= 7 then Some("B") else None, None)
  }

  /** A scope that skips a heavy dimension weighs no more than the heaviest scope with one dimension less. */
  lemma SkippingLoses(s: Scope)
    requires Dimensions(s) > 0
    ensures BindsHeavyEnd(s) <==> Specificity(s) > Specificity(Heaviest(Dimensions(s) - 1))
  {
  }

  /** No scope weighs more than the heaviest of at least as many dimensions. */
  lemma HeaviestWeighsMost(s: Scope, n: nat)
    requires Dimensions(s) <= n < 8
    ensures Specificity(s) <= Specificity(Heaviest(n))
  {
  }

  lemma HeavyEndWeighsMore(a: Scope, b: Scope)
    requires BindsHeavyEnd(a) && Dimensions(b) < Dimensions(a)
    ensures Specificity(a) > Specificity(b)
  {
    SkippingLoses(a);
    HeaviestWeighsMost(b, Dimensions(a) - 1);
  }

  /** `a` precedes every rule that binds fewer dimensions. */
  ghost predicate CountDecides(a: Rule) {
    forall b: Rule :: Dimensions(b.scope) < Dimensions(a.scope) ==> Before(a, b)
  }

  /** The heaviest rule with one dimension less, which `a` precedes only when it weighs more. */
  lemma Rival(a: Rule)
    requires Dimensions(a.scope) > 0 && !BindsHeavyEnd(a.scope)
    ensures !CountDecides(a)
  {
    var rival := a.(scope := Heaviest(Dimensions(a.scope) - 1));
    SkippingLoses(a.scope);
    assert !Before(a, rival);
  }

  /**
   * The documented reading, that more bound dimensions win, holds of a rule
   * exactly when all of its dimensions but one come from the heavy end.
   */
  lemma CountDecidesIff(a: Rule)
    ensures CountDecides(a) <==> BindsHeavyEnd(a.scope)
  {
    if BindsHeavyEnd(a.scope) {
      forall b: Rule | Dimensions(b.scope) < Dimensions(a.scope)
        ensures Before(a, b)
      {
        HeavyEndWeighsMore(a.scope, b.scope);
      }
    } else if Dimensions(a.scope) > 0 {
      Rival(a);
    }
  }

  /** One franchise precedes six other bindings, so counting does not decide for those. */
  lemma FewerDimensionsCanPrecede(a: Rule, b: Rule)
    requires a.scope == Scope(Some(1), None, None, None, None, None, None, None)
    requires b.scope == Scope(None, None, Some("A"), Some(1), Some(1), Some(2), Some("B"), Some("C"))
    ensures Dimensions(a.scope) == 1 && Dimensions(b.scope) == 6 && Before(a, b) && !CountDecides(b)
  {
    CountDecidesIff(b);
  }

  /** A rule that binds everything another binds, and more, always precedes it. */
  lemma NarrowerPrecedes(a: Rule, b: Rule)
    requires BindsAllOf(a.scope, b.scope) && !BindsAllOf(b.scope, a.scope)
    ensures Before(a, b)
  {
  }
}
