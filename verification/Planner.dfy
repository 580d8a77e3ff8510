/** The greedy meal planner: one aggregate quantity per ingredient, drawn down day by day.
    Models backend/app/modules/planning/planner.py. */
module Planner {
  import opened Units
  import opened Stock

  type Tag = nat

  datatype Ingredient = Ingredient(name: Name, quantity: real, unit: Unit)

  /** The quantity a recipe needs for the servings asked for. */
  function Scaled(x: Ingredient, factor: real): real {
    x.quantity * factor
  }

  datatype Recipe = Recipe(id: RecipeId, prepMinutes: int, tags: set<Tag>, ingredients: seq<Ingredient>)

  /** What is left of one ingredient, in the base unit of its earliest-expiring item. */
  datatype Snapshot = Snapshot(quantity: real, unit: Unit, expiry: Date)

  type Snapshots = map<Name, Snapshot>

  /** The dictionary of snapshots that the helpers below change in place. */
  class Remaining {
    var snapshots: Snapshots

    constructor ()
      ensures snapshots == map[]
    {
      snapshots := map[];
    }
  }

  datatype PlannedDay = PlannedDay(date: Date, recipe: Recipe, servings: int, reserved: seq<Name>, lines: seq<Line>)

  datatype Error = NoMatchingRecipes | NegativeQuantity

  datatype Result<+T> = Ok(value: T) | Err(error: Error)

  // ----- Building the aggregate inventory -----

  function Counted(items: seq<Item>): seq<Item> {
    if items == [] then []
    else if items[0].Counts() then [items[0]] + Counted(items[1..])
    else Counted(items[1..])
  }

  function AddItem(m: Snapshots, x: Item): Snapshots {
    var m := if x.name in m then m else m[x.name := Snapshot(0.0, x.BaseUnit(), x.expiry)];
    if m[x.name].unit != x.BaseUnit() then m
    else m[x.name := Snapshot(m[x.name].quantity + x.BaseQuantity(), m[x.name].unit,
                              if x.expiry < m[x.name].expiry then x.expiry else m[x.name].expiry)]
  }

  function AddItems(items: seq<Item>): Snapshots {
    if items == [] then map[] else AddItem(AddItems(items[..|items| - 1]), items[|items| - 1])
  }

  function Build(stock: seq<Item>): Snapshots {
    AddItems(SortByExpiry(Counted(stock)))
  }

  method BuildRemainingInventory(inventory: seq<Item>) returns (remaining: Remaining)
    ensures fresh(remaining) && remaining.snapshots == AddItems(SortByExpiry(inventory))
  {
    remaining := new Remaining();
    var sorted := SortByExpiry(inventory);
    for k := 0 to |sorted|
      invariant remaining.snapshots == AddItems(sorted[..k])
    {
      var item := sorted[k];
      assert sorted[..k + 1][..k] == sorted[..k];
      if item.name !in remaining.snapshots {
        remaining.snapshots := remaining.snapshots[item.name := Snapshot(0.0, item.BaseUnit(), item.expiry)];
      }
      var snapshot := remaining.snapshots[item.name];
      if snapshot.unit == item.BaseUnit() {
        snapshot := snapshot.(quantity := snapshot.quantity + item.BaseQuantity());
        if item.expiry < snapshot.expiry {
          snapshot := snapshot.(expiry := item.expiry);
        }
        remaining.snapshots := remaining.snapshots[item.name := snapshot];
      }
    }
    assert sorted[..|sorted|] == sorted;
  }

  // ----- Drawing down -----

  /** Whether the planner draws on its stock for this demand. */
  predicate Draws(m: Snapshots, n: Name, quantity: real, unit: Unit) {
    n in m && m[n].unit == ToBase(quantity, unit).1 && m[n].quantity > 0.0
  }

  function Draw(m: Snapshots, n: Name, quantity: real, unit: Unit): Snapshots {
    if Draws(m, n, quantity, unit)
    then m[n := m[n].(quantity := Max(0.0, m[n].quantity - ToBase(quantity, unit).0))]
    else m
  }

  function DrawAll(m: Snapshots, ingredients: seq<Ingredient>, factor: real): Snapshots {
    if ingredients == [] then m
    else
      var last := ingredients[|ingredients| - 1];
      Draw(DrawAll(m, ingredients[..|ingredients| - 1], factor), last.name, Scaled(last, factor), last.unit)
  }

  function DrawnNames(m: Snapshots, ingredients: seq<Ingredient>, factor: real): seq<Name> {
    if ingredients == [] then []
    else
      var front, last := ingredients[..|ingredients| - 1], ingredients[|ingredients| - 1];
      DrawnNames(m, front, factor) +
      (if Draws(DrawAll(m, front, factor), last.name, Scaled(last, factor), last.unit) then [last.name] else [])
  }

  lemma DrawAllNext(m: Snapshots, ingredients: seq<Ingredient>, k: nat, factor: real)
    requires k < |ingredients|
    ensures var x := ingredients[k]; var before := DrawAll(m, ingredients[..k], factor);
            && DrawAll(m, ingredients[..k + 1], factor) == Draw(before, x.name, Scaled(x, factor), x.unit)
            && DrawnNames(m, ingredients[..k + 1], factor) ==
               DrawnNames(m, ingredients[..k], factor) +
                 (if Draws(before, x.name, Scaled(x, factor), x.unit) then [x.name] else [])
  {
    var upTo := ingredients[..k + 1];
    assert upTo[..|upTo| - 1] == ingredients[..k] && upTo[|upTo| - 1] == ingredients[k];
  }

  method ReserveIngredients(recipe: Recipe, remaining: Remaining, factor: real) returns (reserved: seq<Name>)
    modifies remaining
    ensures remaining.snapshots == DrawAll(old(remaining.snapshots), recipe.ingredients, factor)
    ensures reserved == DrawnNames(old(remaining.snapshots), recipe.ingredients, factor)
  {
    reserved := [];
    ghost var start := remaining.snapshots;
    var ingredients := recipe.ingredients;
    for k := 0 to |ingredients|
      invariant remaining.snapshots == DrawAll(start, ingredients[..k], factor)
      invariant reserved == DrawnNames(start, ingredients[..k], factor)
    {
      var ingredient := ingredients[k];
      assert ingredients[..k + 1][..k] == ingredients[..k];
      if ingredient.name in remaining.snapshots {
        var snapshot := remaining.snapshots[ingredient.name];
        var (required, unit) := ToBase(Scaled(ingredient, factor), ingredient.unit);
        if snapshot.unit == unit && snapshot.quantity > 0.0 {
          remaining.snapshots := remaining.snapshots[ingredient.name :=
            snapshot.(quantity := Max(0.0, snapshot.quantity - required))];
          reserved := reserved + [ingredient.name];
        }
      }
      DrawAllNext(start, ingredients, k, factor);
    }
    assert ingredients[..|ingredients|] == ingredients;
  }

  // ----- Scoring -----

  datatype Score = Score(urgent: real, complete: int, coverage: int, unused: int, quickness: int)

  /** Python's tuple order: the first differing component decides. */
  predicate Better(a: Score, b: Score) {
    if a.urgent != b.urgent then a.urgent > b.urgent
    else if a.complete != b.complete then a.complete > b.complete
    else if a.coverage != b.coverage then a.coverage > b.coverage
    else if a.unused != b.unused then a.unused > b.unused
    else a.quickness > b.quickness
  }

  /** Score a is better at its component k: it is larger there and the same before. */
  predicate BetterAt(a: seq<real>, b: seq<real>, k: nat) {
    k < |a| == |b| && a[k] > b[k] && forall j :: 0 <= j < k ==> a[j] == b[j]
  }

  /** The order is that of the tuples: urgency, complete matches, covered ingredients, no repeat, less time. */
  lemma BetterIsTupleOrder(a: Score, b: Score)
    ensures var x := [a.urgent, a.complete as real, a.coverage as real, a.unused as real, a.quickness as real];
            var y := [b.urgent, b.complete as real, b.coverage as real, b.unused as real, b.quickness as real];
            Better(a, b) <==> exists k: nat :: BetterAt(x, y, k)
  {
    var x := [a.urgent, a.complete as real, a.coverage as real, a.unused as real, a.quickness as real];
    var y := [b.urgent, b.complete as real, b.coverage as real, b.unused as real, b.quickness as real];
    if Better(a, b) {
      assert BetterAt(x, y, 0) || BetterAt(x, y, 1) || BetterAt(x, y, 2) || BetterAt(x, y, 3) || BetterAt(x, y, 4);
    }
    if k: nat :| BetterAt(x, y, k) {
      assert k > 0 ==> x[0] == y[0];
      assert k > 1 ==> x[1] == y[1];
      assert k > 2 ==> x[2] == y[2];
      assert k > 3 ==> x[3] == y[3];
    }
  }

  /** The urgency bucket's weight: expired, today or tomorrow, this week, later. */
  function Urgency(daysLeft: int): real {
    (if daysLeft < 0 then 5.0 else if daysLeft <= 1 then 4.0 else if daysLeft <= 7 then 2.0 else 1.0)
    + Max(0.0, 30.0 - daysLeft as real) / 100.0
  }

  /** Stock that expires sooner is never less urgent, and more urgent if it expires within thirty days. */
  lemma SoonerIsMoreUrgent(sooner: int, later: int)
    requires sooner < later
    ensures Urgency(sooner) >= Urgency(later)
    ensures Urgency(sooner) > Urgency(later) <==> sooner < 30
  {
  }

  /** The weights of the buckets, and what nearness adds to them. */
  lemma UrgencyWeights(d: int)
    ensures d < 0 ==> Urgency(d) == 5.0 + (30.0 - d as real) / 100.0
    ensures 0 <= d <= 1 ==> Urgency(d) == 4.0 + (30.0 - d as real) / 100.0
    ensures 2 <= d <= 7 ==> Urgency(d) == 2.0 + (30.0 - d as real) / 100.0
    ensures 8 <= d <= 30 ==> Urgency(d) == 1.0 + (30.0 - d as real) / 100.0
    ensures 30 <= d ==> Urgency(d) == 1.0
  {
  }

  function Tally(ingredients: seq<Ingredient>, m: Snapshots, today: Date, factor: real): Score {
    if ingredients == [] then Score(0.0, 0, 0, 0, 0)
    else
      var last := ingredients[|ingredients| - 1];
      var s := Tally(ingredients[..|ingredients| - 1], m, today, factor);
      if !Draws(m, last.name, Scaled(last, factor), last.unit) then s
      else
        s.(urgent := s.urgent + Urgency(m[last.name].expiry - today),
           coverage := s.coverage + 1,
           complete := s.complete + if m[last.name].quantity >= ToBase(Scaled(last, factor), last.unit).0 then 1 else 0)
  }

  function ScoreOf(r: Recipe, m: Snapshots, used: set<RecipeId>, today: Date, factor: real): Score {
    Tally(r.ingredients, m, today, factor).(unused := if r.id in used then 0 else 1, quickness := -r.prepMinutes)
  }

  /** The stock has something of an ingredient, in the base unit it is asked for in. */
  predicate Covered(m: Snapshots, x: Ingredient, factor: real) {
    x.name in m && m[x.name].quantity > 0.0 && m[x.name].unit == ToBase(x.quantity * factor, x.unit).1
  }

  /** And enough of it. */
  predicate Complete(m: Snapshots, x: Ingredient, factor: real) {
    Covered(m, x, factor) && m[x.name].quantity >= ToBase(x.quantity * factor, x.unit).0
  }

  function CoveredAt(xs: seq<Ingredient>, m: Snapshots, factor: real): set<nat> {
    set k: nat | k < |xs| && Covered(m, xs[k], factor)
  }

  function CompleteAt(xs: seq<Ingredient>, m: Snapshots, factor: real): set<nat> {
    set k: nat | k < |xs| && Complete(m, xs[k], factor)
  }

  lemma OneMoreCovered(front: seq<Ingredient>, x: Ingredient, m: Snapshots, factor: real)
    ensures |CoveredAt(front + [x], m, factor)| ==
            |CoveredAt(front, m, factor)| + if Covered(m, x, factor) then 1 else 0
  {
    assert CoveredAt(front + [x], m, factor) ==
      CoveredAt(front, m, factor) + if Covered(m, x, factor) then {|front|} else {};
  }

  lemma OneMoreComplete(front: seq<Ingredient>, x: Ingredient, m: Snapshots, factor: real)
    ensures |CompleteAt(front + [x], m, factor)| ==
            |CompleteAt(front, m, factor)| + if Complete(m, x, factor) then 1 else 0
  {
    assert CompleteAt(front + [x], m, factor) ==
      CompleteAt(front, m, factor) + if Complete(m, x, factor) then {|front|} else {};
  }

  lemma SamePositions(xs: seq<Ingredient>, m: Snapshots, factor: real)
    ensures CoveredAt(xs, m, factor) ==
            set k | 0 <= k < |xs| && xs[k].name in m && m[xs[k].name].quantity > 0.0
                    && m[xs[k].name].unit == ToBase(xs[k].quantity * factor, xs[k].unit).1
    ensures CompleteAt(xs, m, factor) ==
            set k | 0 <= k < |xs| && xs[k].name in m && m[xs[k].name].quantity > 0.0
                    && m[xs[k].name].unit == ToBase(xs[k].quantity * factor, xs[k].unit).1
                    && m[xs[k].name].quantity >= ToBase(xs[k].quantity * factor, xs[k].unit).0
  {
  }

  /** Coverage and complete matches count positions: an ingredient listed twice is covered twice. */
  lemma {:induction false} TallyCounts(ingredients: seq<Ingredient>, m: Snapshots, today: Date, factor: real)
    ensures Tally(ingredients, m, today, factor).coverage == |CoveredAt(ingredients, m, factor)|
    ensures Tally(ingredients, m, today, factor).complete == |CompleteAt(ingredients, m, factor)|
  {
    if ingredients != [] {
      var front, x := ingredients[..|ingredients| - 1], ingredients[|ingredients| - 1];
      assert ingredients == front + [x];
      TallyCounts(front, m, today, factor);
      OneMoreCovered(front, x, m, factor);
      OneMoreComplete(front, x, m, factor);
    }
  }

  /** Urgency adds up: each covered ingredient brings that of its stock, by the days left until it expires. */
  lemma {:induction false} UrgencyAddsUp(ingredients: seq<Ingredient>, x: Ingredient, m: Snapshots, today: Date,
      factor: real)
    ensures Tally([], m, today, factor).urgent == 0.0
    ensures Tally(ingredients + [x], m, today, factor).urgent == Tally(ingredients, m, today, factor).urgent +
            if Covered(m, x, factor) then Urgency(m[x.name].expiry - today) else 0.0
  {
    assert (ingredients + [x])[..|ingredients|] == ingredients;
  }

  /** Between recipes with the same ingredients, one not yet cooked is better than a repeat, and of two such the
      one that takes less time. */
  lemma SameIngredients(r: Recipe, q: Recipe, m: Snapshots, used: set<RecipeId>, today: Date, factor: real)
    requires r.ingredients == q.ingredients
    ensures Better(ScoreOf(r, m, used, today, factor), ScoreOf(q, m, used, today, factor)) <==>
            || (r.id !in used && q.id in used)
            || ((r.id in used <==> q.id in used) && r.prepMinutes < q.prepMinutes)
  {
  }

  /** Scoring counts against the inventory as it stands: an ingredient listed twice is covered twice. */
  method ScoreRecipe(recipe: Recipe, remaining: Remaining, used: set<RecipeId>, today: Date, factor: real)
      returns (s: Score)
    ensures s == ScoreOf(recipe, remaining.snapshots, used, today, factor)
    ensures 0 <= s.complete <= s.coverage <= |recipe.ingredients|
    ensures s.coverage as real <= s.urgent
    ensures var m, xs := remaining.snapshots, recipe.ingredients;
            s.coverage == |set k | 0 <= k < |xs| && xs[k].name in m && m[xs[k].name].quantity > 0.0
                                   && m[xs[k].name].unit == ToBase(xs[k].quantity * factor, xs[k].unit).1|
    ensures var m, xs := remaining.snapshots, recipe.ingredients;
            s.complete == |set k | 0 <= k < |xs| && xs[k].name in m && m[xs[k].name].quantity > 0.0
                                   && m[xs[k].name].unit == ToBase(xs[k].quantity * factor, xs[k].unit).1
                                   && m[xs[k].name].quantity >= ToBase(xs[k].quantity * factor, xs[k].unit).0|
    ensures s.unused == (if recipe.id in used then 0 else 1) && s.quickness == -recipe.prepMinutes
  {
    var urgent, coverage, complete := 0.0, 0, 0;
    var ingredients := recipe.ingredients;
    for k := 0 to |ingredients|
      invariant Score(urgent, complete, coverage, 0, 0) == Tally(ingredients[..k], remaining.snapshots, today, factor)
      invariant 0 <= complete <= coverage <= k
      invariant coverage as real <= urgent
    {
      var ingredient := ingredients[k];
      assert ingredients[..k + 1][..k] == ingredients[..k];
      if ingredient.name in remaining.snapshots {
        var snapshot := remaining.snapshots[ingredient.name];
        var (required, unit) := ToBase(Scaled(ingredient, factor), ingredient.unit);
        if snapshot.unit == unit && snapshot.quantity > 0.0 {
          coverage := coverage + 1;
          urgent := urgent + Urgency(snapshot.expiry - today);
          if snapshot.quantity >= required {
            complete := complete + 1;
          }
        }
      }
    }
    assert ingredients[..|ingredients|] == ingredients;
    TallyCounts(ingredients, remaining.snapshots, today, factor);
    SamePositions(ingredients, remaining.snapshots, factor);
    s := Score(urgent, complete, coverage, if recipe.id in used then 0 else 1, -recipe.prepMinutes);
  }

  function Scores(recipes: seq<Recipe>, m: Snapshots, used: set<RecipeId>, today: Date,
      factor: real): (scores: seq<Score>)
    ensures |scores| == |recipes|
  {
    seq(|recipes|, k requires 0 <= k < |recipes| => ScoreOf(recipes[k], m, used, today, factor))
  }

  /** Position c heads the stable descending sort: no score beats it, and it beats all before it. */
  ghost predicate FirstBest(scores: seq<Score>, c: nat) {
    && c < |scores|
    && (forall j :: 0 <= j < |scores| ==> !Better(scores[j], scores[c]))
    && (forall j :: 0 <= j < c ==> Better(scores[c], scores[j]))
  }

  function BestIndex(scores: seq<Score>): (c: nat)
    requires scores != []
    ensures c < |scores|
    ensures FirstBest(scores, c)
  {
    var last := |scores| - 1;
    if last == 0 then 0
    else
      var best := BestIndex(scores[..last]);
      if Better(scores[last], scores[best]) then last else best
  }

  /** The tuple order leaves exactly one first best position, so the choice is determined. */
  lemma FirstBestIsUnique(scores: seq<Score>, c: nat, d: nat)
    requires FirstBest(scores, c) && FirstBest(scores, d)
    ensures c == d && c == BestIndex(scores)
  {
    assert FirstBest(scores, BestIndex(scores));
  }

  function PickBest(recipes: seq<Recipe>, m: Snapshots, used: set<RecipeId>, today: Date, factor: real): (c: nat)
    requires recipes != []
    ensures c < |recipes|
  {
    BestIndex(Scores(recipes, m, used, today, factor))
  }

  // ----- Planning -----

  predicate Meets(r: Recipe, tags: set<Tag>, maxPrep: Option<int>) {
    tags <= r.tags && (maxPrep.Some? ==> r.prepMinutes <= maxPrep.value)
  }

  lemma FilteredStep(recipes: seq<Recipe>, k: nat, tags: set<Tag>, maxPrep: Option<int>)
    requires k < |recipes|
    ensures Filtered(recipes[k..], tags, maxPrep) ==
            (if Meets(recipes[k], tags, maxPrep) then [recipes[k]] else []) + Filtered(recipes[k + 1..], tags, maxPrep)
  {
    assert recipes[k..][1..] == recipes[k + 1..];
  }

  method FilterRecipes(recipes: seq<Recipe>, tags: set<Tag>, maxPrep: Option<int>) returns (filtered: seq<Recipe>)
    ensures filtered == Filtered(recipes, tags, maxPrep)
  {
    filtered := [];
    ghost var rest := Filtered(recipes, tags, maxPrep);
    for k := 0 to |recipes|
      invariant rest == Filtered(recipes[k..], tags, maxPrep)
      invariant Filtered(recipes, tags, maxPrep) == filtered + rest
    {
      var recipe := recipes[k];
      FilteredStep(recipes, k, tags, maxPrep);
      ghost var tail := Filtered(recipes[k + 1..], tags, maxPrep);
      if tags != {} && !(tags <= recipe.tags) {
        assert rest == [] + tail == tail;
        rest := tail;
        continue;
      }
      if maxPrep.Some? && recipe.prepMinutes > maxPrep.value {
        assert rest == [] + tail == tail;
        rest := tail;
        continue;
      }
      assert rest == [recipe] + tail;
      assert filtered + ([recipe] + tail) == (filtered + [recipe]) + tail;
      filtered := filtered + [recipe];
      rest := tail;
    }
  }

  function Filtered(recipes: seq<Recipe>, tags: set<Tag>, maxPrep: Option<int>): seq<Recipe> {
    if recipes == [] then []
    else (if Meets(recipes[0], tags, maxPrep) then [recipes[0]] else []) + Filtered(recipes[1..], tags, maxPrep)
  }

  lemma {:induction false} FilteredMembers(recipes: seq<Recipe>, tags: set<Tag>, maxPrep: Option<int>)
    ensures forall r :: r in Filtered(recipes, tags, maxPrep) <==>
              r in recipes && tags <= r.tags && (maxPrep.Some? ==> r.prepMinutes <= maxPrep.value)
  {
    if recipes != [] {
      FilteredMembers(recipes[1..], tags, maxPrep);
      assert recipes == [recipes[0]] + recipes[1..];
    }
  }

  /** The filter keeps the order of the recipes. */
  lemma {:induction false} FilterKeepsOrder(a: seq<Recipe>, b: seq<Recipe>, tags: set<Tag>, maxPrep: Option<int>)
    ensures Filtered(a + b, tags, maxPrep) == Filtered(a, tags, maxPrep) + Filtered(b, tags, maxPrep)
  {
    if a == [] {
      assert a + b == b;
    } else {
      FilterKeepsOrder(a[1..], b, tags, maxPrep);
      assert (a + b)[0] == a[0] && (a + b)[1..] == a[1..] + b;
      var first := if Meets(a[0], tags, maxPrep) then [a[0]] else [];
      assert first + (Filtered(a[1..], tags, maxPrep) + Filtered(b, tags, maxPrep)) ==
             (first + Filtered(a[1..], tags, maxPrep)) + Filtered(b, tags, maxPrep);
    }
  }

  lemma {:induction false} NoFilterKeepsAll(recipes: seq<Recipe>)
    ensures Filtered(recipes, {}, None) == recipes
  {
    if recipes != [] {
      NoFilterKeepsAll(recipes[1..]);
      assert recipes == [recipes[0]] + recipes[1..];
    }
  }

  predicate Scales(ingredients: seq<Ingredient>, factor: real) {
    forall k :: 0 <= k < |ingredients| ==> Scaled(ingredients[k], factor) >= 0.0
  }

  function LinesOn(date: Date, ingredients: seq<Ingredient>, factor: real): (lines: seq<Line>)
    requires Scales(ingredients, factor)
    ensures |lines| == |ingredients|
    ensures forall k :: 0 <= k < |lines| ==>
              lines[k] == Line(date, ingredients[k].name, Scaled(ingredients[k], factor), ingredients[k].unit)
  {
    seq(|ingredients|, k requires 0 <= k < |ingredients| =>
      Line(date, ingredients[k].name, Scaled(ingredients[k], factor), ingredients[k].unit))
  }

  datatype Progress = Progress(snapshots: Snapshots, used: set<RecipeId>, days: seq<PlannedDay>)

  /** One more day, cooking recipe r. A negative scaled quantity fails the validation of the day's lines. */
  function Cook(p: Progress, r: Recipe, servings: int, date: Date): Result<Progress> {
    var factor := servings as real / 2.0;
    if !Scales(r.ingredients, factor) then Err(NegativeQuantity)
    else
      Ok(Progress(DrawAll(p.snapshots, r.ingredients, factor), p.used + {r.id},
                  p.days + [PlannedDay(date, r, servings, DrawnNames(p.snapshots, r.ingredients, factor),
                                       LinesOn(date, r.ingredients, factor))]))
  }

  function Choice(p: Progress, candidates: seq<Recipe>, servings: int, today: Date): Recipe
    requires candidates != []
  {
    candidates[PickBest(candidates, p.snapshots, p.used, today, servings as real / 2.0)]
  }

  function NextDay(p: Progress, candidates: seq<Recipe>, servings: int, today: Date, date: Date): Result<Progress>
    requires candidates != []
  {
    Cook(p, Choice(p, candidates, servings, today), servings, date)
  }

  /** The plan's first d days. */
  function PlanDays(start: Snapshots, candidates: seq<Recipe>, servings: int, today: Date, d: nat): Result<Progress>
    requires candidates != []
  {
    if d == 0 then Ok(Progress(start, {}, []))
    else
      match PlanDays(start, candidates, servings, today, d - 1)
      case Err(e) => Err(e)
      case Ok(p) => NextDay(p, candidates, servings, today, today + d - 1)
  }

  /** What generate_plan returns. */
  function Plan(stock: seq<Item>, days: nat, servings: int, tags: set<Tag>, maxPrep: Option<int>,
                recipes: seq<Recipe>, today: Date): Result<seq<PlannedDay>>
  {
    if Filtered(recipes, tags, maxPrep) == [] then Err(NoMatchingRecipes)
    else
      match PlanDays(Build(stock), Filtered(recipes, tags, maxPrep), servings, today, days)
      case Err(e) => Err(e)
      case Ok(p) => Ok(p.days)
  }

  /** The candidate recipes: falling back to all recipes changes nothing, since then no filter was set. */
  method SelectCandidates(recipes: seq<Recipe>, tags: set<Tag>, maxPrep: Option<int>)
      returns (selected: Result<seq<Recipe>>)
    ensures selected == if Filtered(recipes, tags, maxPrep) == [] then Err(NoMatchingRecipes)
            else Ok(Filtered(recipes, tags, maxPrep))
  {
    if recipes == [] {
      return Err(NoMatchingRecipes);
    }
    var filtered := FilterRecipes(recipes, tags, maxPrep);
    if recipes != [] && (tags != {} || maxPrep.Some?) && filtered == [] {
      return Err(NoMatchingRecipes);
    }
    NoFilterKeepsAll(recipes);
    var candidates := if filtered != [] then filtered else recipes;
    selected := Ok(candidates);
  }

  /** Consecutive dates from today on, the servings asked for, and recipes on offer within both limits. */
  ghost predicate AsRequested(days: seq<PlannedDay>, servings: int, tags: set<Tag>, maxPrep: Option<int>,
                              recipes: seq<Recipe>, today: Date) {
    forall i :: 0 <= i < |days| ==>
      && days[i].date == today + i && days[i].servings == servings && days[i].recipe in recipes
      && tags <= days[i].recipe.tags && (maxPrep.Some? ==> days[i].recipe.prepMinutes <= maxPrep.value)
  }

  /** Each day has a line for each ingredient of its recipe, scaled from two servings to those given. */
  ghost predicate LinesScaled(days: seq<PlannedDay>, servings: int) {
    forall i :: 0 <= i < |days| ==>
      && |days[i].lines| == |days[i].recipe.ingredients|
      && forall k :: 0 <= k < |days[i].lines| ==>
           days[i].lines[k].quantity == days[i].recipe.ingredients[k].quantity * (servings as real / 2.0)
  }

  method GeneratePlan(stock: seq<Item>, days: nat, servings: int, tags: set<Tag>, maxPrep: Option<int>,
                      recipes: seq<Recipe>, today: Date) returns (result: Result<seq<PlannedDay>>)
    ensures result == Plan(stock, days, servings, tags, maxPrep, recipes, today)
    ensures result == Err(NoMatchingRecipes) <==>
            forall r :: r in recipes ==> !(tags <= r.tags && (maxPrep.Some? ==> r.prepMinutes <= maxPrep.value))
    ensures result.Ok? ==>
              |result.value| == days && AsRequested(result.value, servings, tags, maxPrep, recipes, today)
    ensures result.Ok? ==> LinesScaled(result.value, servings)
  {
    PlanFails(stock, days, servings, tags, maxPrep, recipes, today);
    var inventory := Counted(stock);
    var remaining := BuildRemainingInventory(inventory);
    var selected := SelectCandidates(recipes, tags, maxPrep);
    if selected.Err? {
      return Err(selected.error);
    }
    var candidates := selected.value;
    result := PlanAllDays(remaining, candidates, days, servings, today);
    if result.Ok? {
      PlanIsGreedy(stock, days, servings, tags, maxPrep, recipes, today);
      EveryLineScales(today, servings, result.value);
    }
  }

  /** After d days the planner's progress is p. */
  ghost predicate Reaches(start: Snapshots, candidates: seq<Recipe>, servings: int, today: Date, d: nat, p: Progress)
    requires candidates != []
  {
    PlanDays(start, candidates, servings, today, d) == Ok(p)
  }

  /** Planning one more day from p gives this outcome, and leaves these snapshots. */
  ghost predicate DayFollows(p: Progress, candidates: seq<Recipe>, servings: int, today: Date, date: Date,
                             day: Result<PlannedDay>, left: Snapshots)
    requires candidates != []
  {
    NextDay(p, candidates, servings, today, date) ==
      match day
      case Err(e) => Err(e)
      case Ok(d) => Ok(Progress(left, p.used + {d.recipe.id}, p.days + [d]))
  }

  /** One step on from there. */
  lemma NextStep(start: Snapshots, candidates: seq<Recipe>, servings: int, today: Date, d: nat, p: Progress,
      day: PlannedDay, left: Snapshots)
    requires candidates != [] && Reaches(start, candidates, servings, today, d, p)
    requires DayFollows(p, candidates, servings, today, today + d, Ok(day), left)
    ensures Reaches(start, candidates, servings, today, d + 1, Progress(left, p.used + {day.recipe.id}, p.days + [day]))
  {
  }

  lemma StepFails(start: Snapshots, candidates: seq<Recipe>, servings: int, today: Date, d: nat, p: Progress,
      error: Error, left: Snapshots, days: nat)
    requires candidates != [] && d < days && Reaches(start, candidates, servings, today, d, p)
    requires DayFollows(p, candidates, servings, today, today + d, Err(error), left)
    ensures PlanDays(start, candidates, servings, today, days) == Err(error)
  {
    PlanFailureSticks(start, candidates, servings, today, d + 1, days);
  }

  /** The loop over days. */
  method PlanAllDays(remaining: Remaining, candidates: seq<Recipe>, days: nat, servings: int, today: Date)
    returns (result: Result<seq<PlannedDay>>)
    requires candidates != []
    modifies remaining
    ensures result == match PlanDays(old(remaining.snapshots), candidates, servings, today, days)
                      case Err(e) => Err(e)
                      case Ok(p) => Ok(p.days)
  {
    var used: set<RecipeId> := {};
    var planDays: seq<PlannedDay> := [];
    ghost var start := remaining.snapshots;
    for offset := 0 to days
      invariant Reaches(start, candidates, servings, today, offset, Progress(remaining.snapshots, used, planDays))
    {
      ghost var before := Progress(remaining.snapshots, used, planDays);
      var next := PlanDay(candidates, remaining, used, planDays, servings, today, today + offset);
      if next.Err? {
        StepFails(start, candidates, servings, today, offset, before, next.error, remaining.snapshots, days);
        return Err(next.error);
      }
      NextStep(start, candidates, servings, today, offset, before, next.value, remaining.snapshots);
      planDays := planDays + [next.value];
      used := used + {next.value.recipe.id};
    }
    result := Ok(planDays);
  }

  /** The body of the loop over days. */
  method PlanDay(candidates: seq<Recipe>, remaining: Remaining, used: set<RecipeId>, ghost done: seq<PlannedDay>,
                 servings: int, today: Date, date: Date) returns (day: Result<PlannedDay>)
    requires candidates != []
    modifies remaining
    ensures DayFollows(Progress(old(remaining.snapshots), used, done), candidates, servings, today, date, day,
                       remaining.snapshots)
  {
    var factor := servings as real / 2.0;
    var recipe := candidates[PickBest(candidates, remaining.snapshots, used, today, factor)];
    var reserved := ReserveIngredients(recipe, remaining, factor);
    if !Scales(recipe.ingredients, factor) {
      return Err(NegativeQuantity);
    }
    day := Ok(PlannedDay(date, recipe, servings, reserved, LinesOn(date, recipe.ingredients, factor)));
  }

  lemma {:induction false} PlanFailureSticks(start: Snapshots, candidates: seq<Recipe>, servings: int, today: Date,
      d: nat, days: nat)
    requires candidates != [] && d <= days && PlanDays(start, candidates, servings, today, d).Err?
    ensures PlanDays(start, candidates, servings, today, days) == PlanDays(start, candidates, servings, today, d)
    decreases days
  {
    if d < days {
      PlanFailureSticks(start, candidates, servings, today, d, days - 1);
    }
  }

  // ----- What a plan is -----

  ghost function UsedIn(days: seq<PlannedDay>): set<RecipeId> {
    set d | d in days :: d.recipe.id
  }

  /** Day i of a plan was chosen from what the days before it left: its recipe is the first of the
      candidates that none beats, and its reserved names are those drawn from there. */
  ghost predicate ChosenWell(start: Snapshots, candidates: seq<Recipe>, servings: int, today: Date,
      days: seq<PlannedDay>, i: nat)
    requires candidates != [] && i < |days|
  {
    exists before ::
      && Reaches(start, candidates, servings, today, i, before)
      && before.days == days[..i] && before.used == UsedIn(days[..i])
      && ChosenFrom(before, candidates, days[i].recipe, today, servings as real / 2.0)
      && days[i].reserved == DrawnNames(before.snapshots, days[i].recipe.ingredients, servings as real / 2.0)
  }

  ghost predicate ChosenFrom(before: Progress, candidates: seq<Recipe>, r: Recipe, today: Date, factor: real) {
    var scores := Scores(candidates, before.snapshots, before.used, today, factor);
    exists c: nat :: FirstBest(scores, c) && candidates[c] == r
  }

  lemma ChoiceIsChosen(p: Progress, candidates: seq<Recipe>, servings: int, today: Date)
    requires candidates != []
    ensures ChosenFrom(p, candidates, Choice(p, candidates, servings, today), today, servings as real / 2.0)
  {
    var factor := servings as real / 2.0;
    var c := PickBest(candidates, p.snapshots, p.used, today, factor);
    assert FirstBest(Scores(candidates, p.snapshots, p.used, today, factor), c)
      && candidates[c] == Choice(p, candidates, servings, today);
  }

  /** The recipe chosen is one of the candidates, and no candidate scores better for what is left, with the recipes
      cooked so far counted as repeats and the servings asked for. */
  lemma NoneBeatsChoice(p: Progress, candidates: seq<Recipe>, servings: int, today: Date, k: nat)
    requires k < |candidates|
    ensures var chosen := Choice(p, candidates, servings, today);
            && chosen in candidates
            && !Better(ScoreOf(candidates[k], p.snapshots, p.used, today, servings as real / 2.0),
                       ScoreOf(chosen, p.snapshots, p.used, today, servings as real / 2.0))
  {
    var scores := Scores(candidates, p.snapshots, p.used, today, servings as real / 2.0);
    assert FirstBest(scores, BestIndex(scores));
    assert !Better(scores[k], scores[BestIndex(scores)]);
  }

  ghost predicate DayOk(today: Date, servings: int, day: PlannedDay, i: nat) {
    && day.date == today + i && day.servings == servings
    && Scales(day.recipe.ingredients, servings as real / 2.0)
    && day.lines == LinesOn(day.date, day.recipe.ingredients, servings as real / 2.0)
  }

  ghost predicate AllDaysOk(today: Date, servings: int, days: seq<PlannedDay>) {
    forall i :: 0 <= i < |days| ==> DayOk(today, servings, days[i], i)
  }

  ghost predicate AllChosen(start: Snapshots, candidates: seq<Recipe>, servings: int, today: Date,
      days: seq<PlannedDay>)
    requires candidates != []
  {
    forall i :: 0 <= i < |days| ==> ChosenWell(start, candidates, servings, today, days, i)
  }

  ghost predicate PlanOk(start: Snapshots, candidates: seq<Recipe>, servings: int, today: Date, days: seq<PlannedDay>)
    requires candidates != []
  {
    AllDaysOk(today, servings, days) && AllChosen(start, candidates, servings, today, days)
  }

  lemma CookAddsDay(p: Progress, r: Recipe, servings: int, today: Date, date: Date, i: nat, next: Progress)
    returns (day: PlannedDay)
    requires date == today + i && Cook(p, r, servings, date) == Ok(next)
    ensures next.days == p.days + [day] && next.used == p.used + {r.id}
    ensures day.recipe == r && DayOk(today, servings, day, i)
    ensures day.reserved == DrawnNames(p.snapshots, r.ingredients, servings as real / 2.0)
  {
    day := PlannedDay(date, r, servings, DrawnNames(p.snapshots, r.ingredients, servings as real / 2.0),
                      LinesOn(date, r.ingredients, servings as real / 2.0));
  }

  lemma UsedInAppend(days: seq<PlannedDay>, day: PlannedDay)
    ensures UsedIn(days + [day]) == UsedIn(days) + {day.recipe.id}
  {
    forall d | d in days + [day] ensures d in days || d == day {
    }
    assert day in days + [day] && forall d :: d in days ==> d in days + [day];
  }

  lemma EarlierDayStaysChosen(start: Snapshots, candidates: seq<Recipe>, servings: int, today: Date,
                              days: seq<PlannedDay>, day: PlannedDay, i: nat)
    requires candidates != [] && i < |days|
    ensures ChosenWell(start, candidates, servings, today, days, i) ==>
              ChosenWell(start, candidates, servings, today, days + [day], i)
  {
    assert (days + [day])[..i] == days[..i];
  }

  lemma LastDayChosen(start: Snapshots, candidates: seq<Recipe>, servings: int, today: Date, q: Progress,
      day: PlannedDay)
    requires candidates != [] && Reaches(start, candidates, servings, today, |q.days|, q) && q.used == UsedIn(q.days)
    requires day.recipe == Choice(q, candidates, servings, today)
    requires day.reserved == DrawnNames(q.snapshots, day.recipe.ingredients, servings as real / 2.0)
    ensures ChosenWell(start, candidates, servings, today, q.days + [day], |q.days|)
  {
    ChoiceIsChosen(q, candidates, servings, today);
    assert (q.days + [day])[..|q.days|] == q.days;
  }

  lemma StillChosen(start: Snapshots, candidates: seq<Recipe>, servings: int, today: Date, q: Progress, day: PlannedDay,
      i: nat)
    requires candidates != [] && Reaches(start, candidates, servings, today, |q.days|, q) && q.used == UsedIn(q.days)
    requires i < |q.days| ==> ChosenWell(start, candidates, servings, today, q.days, i)
    requires i <= |q.days| && day.recipe == Choice(q, candidates, servings, today)
    requires day.reserved == DrawnNames(q.snapshots, day.recipe.ingredients, servings as real / 2.0)
    ensures ChosenWell(start, candidates, servings, today, q.days + [day], i)
  {
    if i < |q.days| {
      EarlierDayStaysChosen(start, candidates, servings, today, q.days, day, i);
    } else {
      LastDayChosen(start, candidates, servings, today, q, day);
    }
  }

  lemma OneMoreChosen(start: Snapshots, candidates: seq<Recipe>, servings: int, today: Date, q: Progress,
      day: PlannedDay)
    requires candidates != [] && Reaches(start, candidates, servings, today, |q.days|, q) && q.used == UsedIn(q.days)
    requires AllChosen(start, candidates, servings, today, q.days)
             && day.recipe == Choice(q, candidates, servings, today)
    requires day.reserved == DrawnNames(q.snapshots, day.recipe.ingredients, servings as real / 2.0)
    ensures AllChosen(start, candidates, servings, today, q.days + [day])
  {
    var longer := q.days + [day];
    forall i | 0 <= i < |longer| ensures ChosenWell(start, candidates, servings, today, longer, i) {
      StillChosen(start, candidates, servings, today, q, day, i);
    }
  }

  /** One step back from a plan's progress after d days. */
  lemma LastStep(start: Snapshots, candidates: seq<Recipe>, servings: int, today: Date, d: nat, p: Progress)
    returns (q: Progress, r: Recipe, date: Date)
    requires candidates != [] && d > 0 && Reaches(start, candidates, servings, today, d, p)
    ensures Reaches(start, candidates, servings, today, d - 1, q) && r == Choice(q, candidates, servings, today)
    ensures date == today + d - 1 && Cook(q, r, servings, date) == Ok(p)
  {
    date := today + d - 1;
    var earlier := PlanDays(start, candidates, servings, today, d - 1);
    q := earlier.value;
    r := Choice(q, candidates, servings, today);
    assert earlier == Ok(q) && PlanDays(start, candidates, servings, today, d) == Cook(q, r, servings, date);
  }

  lemma {:induction false} PlanDaysChooseWell(start: Snapshots, candidates: seq<Recipe>, servings: int, today: Date,
      d: nat, p: Progress)
    requires candidates != [] && Reaches(start, candidates, servings, today, d, p)
    ensures |p.days| == d && p.used == UsedIn(p.days) && PlanOk(start, candidates, servings, today, p.days)
  {
    if d > 0 {
      var q, r, date := LastStep(start, candidates, servings, today, d, p);
      PlanDaysChooseWell(start, candidates, servings, today, d - 1, q);
      var day := CookAddsDay(q, r, servings, today, date, d - 1, p);
      UsedInAppend(q.days, day);
      OneMoreChosen(start, candidates, servings, today, q, day);
    }
  }

  lemma DayAsksFor(today: Date, servings: int, day: PlannedDay, i: nat, k: nat)
    requires DayOk(today, servings, day, i) && k < |day.lines|
    ensures |day.lines| == |day.recipe.ingredients|
    ensures day.lines[k].name == day.recipe.ingredients[k].name
            && day.lines[k].quantity == day.recipe.ingredients[k].quantity * (servings as real / 2.0)
            && day.lines[k].unit == day.recipe.ingredients[k].unit && day.lines[k].day == today + i
  {
  }

  lemma EveryLineScales(today: Date, servings: int, days: seq<PlannedDay>)
    requires AllDaysOk(today, servings, days)
    ensures LinesScaled(days, servings)
  {
    forall i | 0 <= i < |days| ensures DayOk(today, servings, days[i], i) {
    }
  }

  /** A plan has the requested number of consecutive days; every recipe is on offer, meets the tag and
      time limits, and is the first best choice for the inventory left by the earlier days. */
  lemma PlanIsGreedy(stock: seq<Item>, days: nat, servings: int, tags: set<Tag>, maxPrep: Option<int>,
      recipes: seq<Recipe>, today: Date)
    requires Plan(stock, days, servings, tags, maxPrep, recipes, today).Ok?
    ensures var plan := Plan(stock, days, servings, tags, maxPrep, recipes, today).value;
            var candidates := Filtered(recipes, tags, maxPrep);
            && |plan| == days && candidates != []
            && PlanOk(Build(stock), candidates, servings, today, plan)
            && AsRequested(plan, servings, tags, maxPrep, recipes, today)
  {
    var candidates := Filtered(recipes, tags, maxPrep);
    PlanDaysChooseWell(Build(stock), candidates, servings, today, days,
      PlanDays(Build(stock), candidates, servings, today, days).value);
    FilteredMembers(recipes, tags, maxPrep);
    var plan := Plan(stock, days, servings, tags, maxPrep, recipes, today).value;
    forall i | 0 <= i < days ensures plan[i].recipe in candidates && DayOk(today, servings, plan[i], i) {
      assert ChosenWell(Build(stock), candidates, servings, today, plan, i);
    }
  }

  /** Every line of a plan asks for its ingredient's quantity, scaled from two servings to those asked for. */
  lemma PlanScales(stock: seq<Item>, days: nat, servings: int, tags: set<Tag>, maxPrep: Option<int>,
      recipes: seq<Recipe>, today: Date, i: nat, k: nat)
    requires Plan(stock, days, servings, tags, maxPrep, recipes, today).Ok? && i < days
    ensures var plan := Plan(stock, days, servings, tags, maxPrep, recipes, today).value;
            && |plan| == days && |plan[i].lines| == |plan[i].recipe.ingredients|
            && (k < |plan[i].lines| ==>
                  var x, line := plan[i].recipe.ingredients[k], plan[i].lines[k];
                  && line.quantity == x.quantity * (servings as real / 2.0)
                  && line.name == x.name && line.unit == x.unit && line.day == today + i)
  {
    PlanIsGreedy(stock, days, servings, tags, maxPrep, recipes, today);
    var plan := Plan(stock, days, servings, tags, maxPrep, recipes, today).value;
    assert DayOk(today, servings, plan[i], i);
    if k < |plan[i].lines| {
      DayAsksFor(today, servings, plan[i], i, k);
    }
  }

  // ----- When planning fails -----

  /** Some recipe on offer has an ingredient whose scaled quantity is negative. */
  ghost predicate SomeNegative(recipes: seq<Recipe>, servings: int) {
    exists r, x :: r in recipes && x in r.ingredients && x.quantity * (servings as real / 2.0) < 0.0
  }

  lemma {:induction false} PlanDaysFail(start: Snapshots, candidates: seq<Recipe>, servings: int, today: Date, d: nat)
    requires candidates != [] && PlanDays(start, candidates, servings, today, d).Err?
    ensures PlanDays(start, candidates, servings, today, d) == Err(NegativeQuantity)
    ensures SomeNegative(candidates, servings)
  {
    var earlier := PlanDays(start, candidates, servings, today, d - 1);
    if earlier.Err? {
      PlanDaysFail(start, candidates, servings, today, d - 1);
    } else {
      DayFails(earlier.value, candidates, servings, today, today + d - 1);
    }
  }

  lemma DayFails(p: Progress, candidates: seq<Recipe>, servings: int, today: Date, date: Date)
    requires candidates != []
    ensures NextDay(p, candidates, servings, today, date).Err? ==>
              && NextDay(p, candidates, servings, today, date) == Err(NegativeQuantity)
              && SomeNegative(candidates, servings)
  {
    var r := Choice(p, candidates, servings, today);
    if !Scales(r.ingredients, servings as real / 2.0) {
      var k :| 0 <= k < |r.ingredients| && Scaled(r.ingredients[k], servings as real / 2.0) < 0.0;
      assert r in candidates && r.ingredients[k] in r.ingredients;
    }
  }

  /** Planning fails with no match exactly when no recipe on offer meets the limits, and otherwise only over a
      negative quantity. */
  lemma PlanFails(stock: seq<Item>, days: nat, servings: int, tags: set<Tag>, maxPrep: Option<int>,
      recipes: seq<Recipe>, today: Date)
    ensures var plan := Plan(stock, days, servings, tags, maxPrep, recipes, today);
            && (plan == Err(NoMatchingRecipes) <==>
                  forall r :: r in recipes ==>
                    !(tags <= r.tags && (maxPrep.Some? ==> r.prepMinutes <= maxPrep.value)))
            && (plan == Err(NegativeQuantity) ==> SomeNegative(recipes, servings))
  {
    var candidates := Filtered(recipes, tags, maxPrep);
    FilteredMembers(recipes, tags, maxPrep);
    if candidates == [] {
      assert forall r :: r in recipes ==> r !in candidates;
    } else {
      assert candidates[0] in candidates;
      if PlanDays(Build(stock), candidates, servings, today, days).Err? {
        PlanDaysFail(Build(stock), candidates, servings, today, days);
      }
    }
  }
}
