/** Creating and deleting meal plans, and the shopping list of the saved plan.
    Models backend/app/modules/planning/service.py. */
module PlanningService {
  import opened Units
  import opened Stock
  import opened Ledgers
  import opened ShoppingList
  import opened PlanTables
  import R = ReservationRun
  import A = Allocation
  import C = Conservation
  import opened UnitSums
  import P = Planner
  import opened Simulation
  import ReservationService

  /** A name field of a stored ingredient: missing, null, the empty text, or any other text with its
      normalised key. Text that is all blanks has the key of the empty text. */
  datatype NameField = NoName | NullName | EmptyName | NameText(key: Name)

  datatype UnitField = NoUnit | NullUnit | UnitText(unit: Unit)

  datatype Payload = Payload(ingredientName: NameField, canonicalName: NameField, name: NameField, quantity: real,
      unit: UnitField)

  datatype StoredRecipe = StoredRecipe(id: RecipeId, prepMinutes: int, tags: set<P.Tag>, ingredients: seq<Payload>)

  datatype Request = Request(days: nat, servings: int, tags: set<P.Tag>, maxPrep: Option<int>)

  datatype PlanResult = PlanResult(plan: PlanId, days: seq<P.PlannedDay>, shoppingList: seq<ShoppingItem>)

  datatype Error = NoMatchingRecipes | InvalidQuantity | InsufficientFree(name: Name) | PlanNotFound | InvalidIngredient

  datatype Result<+T> = Ok(value: T) | Err(error: Error)

  datatype ManualItem = ManualItem(household: HouseholdId, purchased: bool, item: ShoppingItem)

  /** The empty text comes first in string order. */
  const EMPTY_KEY: Name := 0

  type TextKey = n: Name | n != EMPTY_KEY witness 1

  /** The key of the text "none", which a nameless ingredient and a null unit end up with. */
  const NONE_KEY: TextKey

  // ----- The two readings of a stored ingredient -----

  /** What the planner is given: the canonical name, else the plain one, skipping null and empty ones. */
  function PlannerKey(p: Payload): Name {
    if p.canonicalName.NameText? then p.canonicalName.key
    else if p.name.NameText? then p.name.key
    else NONE_KEY
  }

  function PlannerUnit(p: Payload): Unit {
    match p.unit
    case NoUnit => Plain("unit")
    case NullUnit => Plain("none")
    case UnitText(u) => u
  }

  /** As the planner reads it: an ingredient whose name is blank is dropped. */
  function ForPlanner(p: Payload): Option<P.Ingredient> {
    if PlannerKey(p) == EMPTY_KEY then None else Some(P.Ingredient(PlannerKey(p), p.quantity, PlannerUnit(p)))
  }

  /** The first name field that is there, whatever it holds. */
  function FirstPresent(p: Payload): NameField {
    if p.ingredientName != NoName then p.ingredientName
    else if p.canonicalName != NoName then p.canonicalName
    else p.name
  }

  /** As the saved plan reads it: a first name field that is null, no name field, no unit, a null unit, or a
      negative quantity fails validation. */
  function ReadBack(p: Payload, day: Date, factor: real): Option<Line> {
    var scaled := P.Scaled(P.Ingredient(PlannerKey(p), p.quantity, PlannerUnit(p)), factor);
    if !p.unit.UnitText? || scaled < 0.0 then None
    else
      match FirstPresent(p)
      case NoName => None
      case NullName => None
      case EmptyName => Some(Line(day, EMPTY_KEY, scaled, p.unit.unit))
      case NameText(key) => Some(Line(day, key, scaled, p.unit.unit))
  }

  /** The unit is given, the planner's name is not blank, and the first name field is text that says the same:
      with no ingredient name, that the canonical name is text, or is missing while the plain one is text. */
  predicate WellFormed(p: Payload) {
    && p.unit.UnitText? && PlannerKey(p) != EMPTY_KEY
    && match p.ingredientName
       case NameText(key) => key == PlannerKey(p)
       case NoName => p.canonicalName.NameText? || (p.canonicalName == NoName && p.name.NameText?)
       case _ => false
  }

  /** The two readings agree exactly on well-formed ingredients. */
  lemma ReadingsAgreeIff(p: Payload, day: Date, factor: real)
    requires P.Scaled(P.Ingredient(PlannerKey(p), p.quantity, PlannerUnit(p)), factor) >= 0.0
    ensures WellFormed(p) <==>
              && ForPlanner(p).Some?
              && var x := ForPlanner(p).value;
                 ReadBack(p, day, factor) == Some(Line(day, x.name, P.Scaled(x, factor), x.unit))
  {
  }

  /** The ingredients the planner keeps. */
  function PlannerIngredients(payloads: seq<Payload>): seq<P.Ingredient> {
    if payloads == [] then []
    else
      var last := ForPlanner(payloads[|payloads| - 1]);
      PlannerIngredients(payloads[..|payloads| - 1]) + (if last.Some? then [last.value] else [])
  }

  function PlannerRecipe(r: StoredRecipe): (x: P.Recipe)
    ensures x.id == r.id && x.prepMinutes == r.prepMinutes && x.tags == r.tags
  {
    P.Recipe(r.id, r.prepMinutes, r.tags, PlannerIngredients(r.ingredients))
  }

  function PlannerRecipes(recipes: seq<StoredRecipe>): (r: seq<P.Recipe>)
    ensures |r| == |recipes|
    ensures forall k :: 0 <= k < |r| ==> r[k] == PlannerRecipe(recipes[k])
  {
    seq(|recipes|, k requires 0 <= k < |recipes| => PlannerRecipe(recipes[k]))
  }

  function ReadBackAll(payloads: seq<Payload>, day: Date, factor: real): Option<seq<Line>> {
    if payloads == [] then Some([])
    else
      match ReadBackAll(payloads[..|payloads| - 1], day, factor)
      case None => None
      case Some(lines) =>
        match ReadBack(payloads[|payloads| - 1], day, factor)
        case None => None
        case Some(line) => Some(lines + [line])
  }

  function Find(recipes: seq<StoredRecipe>, id: RecipeId): Option<StoredRecipe> {
    if recipes == [] then None else if recipes[0].id == id then Some(recipes[0]) else Find(recipes[1..], id)
  }

  /** The lines of a saved plan, recomputed from its recipes. */
  function SavedLines(days: seq<MealPlanDay>, recipes: seq<StoredRecipe>): Option<seq<Line>> {
    if days == [] then Some([])
    else
      var d := days[|days| - 1];
      match SavedLines(days[..|days| - 1], recipes)
      case None => None
      case Some(lines) =>
        match Find(recipes, d.recipe)
        case None => Some(lines)
        case Some(r) =>
          match ReadBackAll(r.ingredients, d.date, d.servings as real / 2.0)
          case None => None
          case Some(more) => Some(lines + more)
  }

  function SavedDays(days: seq<P.PlannedDay>): (r: seq<MealPlanDay>)
    ensures |r| == |days|
    ensures forall k :: 0 <= k < |r| ==> r[k] == MealPlanDay(days[k].date, days[k].recipe.id, days[k].servings)
  {
    seq(|days|, k requires 0 <= k < |days| => MealPlanDay(days[k].date, days[k].recipe.id, days[k].servings))
  }

  /** The household's newest plan. */
  function Latest(plans: seq<MealPlan>, h: HouseholdId): Option<MealPlan> {
    if plans == [] then None
    else if plans[|plans| - 1].household == h then Some(plans[|plans| - 1])
    else Latest(plans[..|plans| - 1], h)
  }

  /** The household's manual items that have not been bought. */
  function ManualFor(manual: seq<ManualItem>, h: HouseholdId): seq<ShoppingItem> {
    if manual == [] then []
    else (if manual[0].household == h && !manual[0].purchased then [manual[0].item] else [])
         + ManualFor(manual[1..], h)
  }

  /** A manual item is shown after those before it, if it is the household's own and not bought; else it changes
      nothing. */
  lemma {:induction false} ManualItemShown(manual: seq<ManualItem>, x: ManualItem, h: HouseholdId)
    ensures ManualFor([], h) == []
    ensures ManualFor(manual + [x], h) ==
            if x.household == h && !x.purchased then ManualFor(manual, h) + [x.item] else ManualFor(manual, h)
  {
    if manual == [] {
      assert manual + [x] == [x] && [x][1..] == [];
    } else {
      ManualItemShown(manual[1..], x, h);
      assert (manual + [x])[0] == manual[0] && (manual + [x])[1..] == manual[1..] + [x];
    }
  }

  // ----- The newest plan -----

  /** The plan found is the last of the household's, and none is found exactly when it has none. */
  lemma {:induction false} LatestIs(plans: seq<MealPlan>, h: HouseholdId) returns (k: nat)
    ensures Latest(plans, h).None? <==> forall p :: p in plans ==> p.household != h
    ensures Latest(plans, h).Some? ==>
              && k < |plans| && Latest(plans, h) == Some(plans[k]) && plans[k].household == h
              && forall j :: k < j < |plans| ==> plans[j].household != h
  {
    k := 0;
    if plans != [] {
      var last := |plans| - 1;
      if plans[last].household == h {
        k := last;
        assert plans[last] in plans;
      } else {
        k := LatestIs(plans[..last], h);
        assert plans == plans[..last] + [plans[last]];
      }
    }
  }

  /** A plan that another household creates is never this one's newest. */
  lemma CreationLeavesLatest(plans: seq<MealPlan>, plan: MealPlan, h: HouseholdId)
    ensures Latest(plans + [plan], h) == if plan.household == h then Some(plan) else Latest(plans, h)
  {
    assert (plans + [plan])[..|plans|] == plans;
  }

  /** Nor does the deletion of another household's plan change which plan is this one's newest. */
  lemma {:induction false} DeletionLeavesLatest(plans: seq<MealPlan>, id: PlanId, h: HouseholdId)
    requires forall p :: p in plans && p.id == id ==> p.household != h
    ensures Latest(Without(plans, id), h) == Latest(plans, h)
  {
    if plans != [] {
      var front, last := plans[..|plans| - 1], plans[|plans| - 1];
      DeletionLeavesLatest(front, id, h);
      assert last in plans;
      if last.id != id {
        CreationLeavesLatest(Without(front, id), last, h);
      } else {
        assert Without(plans, id) == Without(front, id);
      }
    }
  }

  // ----- What the two readings take from a stored ingredient -----

  /** The planner's reading: the canonical name if it is not missing, null or empty, else the plain name likewise,
      else "none"; a missing unit is "unit", a null one "none"; a blank name drops the ingredient. */
  lemma PlannerReads(p: Payload)
    ensures p.canonicalName.NameText? ==> PlannerKey(p) == p.canonicalName.key
    ensures !p.canonicalName.NameText? && p.name.NameText? ==> PlannerKey(p) == p.name.key
    ensures !p.canonicalName.NameText? && !p.name.NameText? ==> PlannerKey(p) == NONE_KEY
    ensures ForPlanner(p).None? <==> PlannerKey(p) == EMPTY_KEY
    ensures ForPlanner(p).Some? ==>
              var x := ForPlanner(p).value;
              && x.name == PlannerKey(p) && x.quantity == p.quantity
              && (p.unit.NoUnit? ==> x.unit == Plain("unit")) && (p.unit.NullUnit? ==> x.unit == Plain("none"))
              && (p.unit.UnitText? ==> x.unit == p.unit.unit)
  {
  }

  /** The ingredients of a recipe are read one by one, in order. */
  lemma PlannerReadsInOrder(front: seq<Payload>, p: Payload)
    ensures PlannerIngredients([]) == []
    ensures PlannerIngredients(front + [p]) ==
            PlannerIngredients(front) + if ForPlanner(p).Some? then [ForPlanner(p).value] else []
  {
    assert (front + [p])[..|front|] == front;
  }

  /** The saved plan's reading: it fails without unit text, with a negative quantity, or when the first name field
      that is there is null or none is there; otherwise it takes that field, the unit, and the quantity scaled from
      two servings to those of the day. */
  lemma SavedReads(p: Payload, day: Date, servings: int)
    ensures var line := ReadBack(p, day, servings as real / 2.0);
            var name := if p.ingredientName != NoName then p.ingredientName
                        else if p.canonicalName != NoName then p.canonicalName else p.name;
            && (line.None? <==>
                  || !p.unit.UnitText? || p.quantity * (servings as real / 2.0) < 0.0
                  || name == NoName || name == NullName)
            && (line.Some? ==>
                  && line.value.day == day && line.value.quantity == p.quantity * (servings as real / 2.0)
                  && p.unit == UnitText(line.value.unit)
                  && line.value.name == if name == EmptyName then EMPTY_KEY else name.key)
  {
  }

  lemma {:induction false} ReadsBackWhole(payloads: seq<Payload>, day: Date, factor: real)
    ensures ReadBackAll(payloads, day, factor).None? ==> exists p :: p in payloads && ReadBack(p, day, factor).None?
    ensures ReadBackAll(payloads, day, factor).Some? ==>
              var lines := ReadBackAll(payloads, day, factor).value;
              && |lines| == |payloads|
              && forall k :: 0 <= k < |lines| ==> ReadBack(payloads[k], day, factor) == Some(lines[k])
  {
    if payloads != [] {
      var front, p := payloads[..|payloads| - 1], payloads[|payloads| - 1];
      ReadsBackWhole(front, day, factor);
      if q :| q in front && ReadBack(q, day, factor).None? {
        assert q in payloads;
      }
    }
  }

  /** A stored recipe is read back whole, one line for each ingredient in order, or not at all. */
  lemma RecipeReadsBack(payloads: seq<Payload>, day: Date, servings: int, k: nat)
    requires k < |payloads|
    ensures ReadBackAll(payloads, day, servings as real / 2.0).Some? ==>
              var lines := ReadBackAll(payloads, day, servings as real / 2.0).value;
              && |lines| == |payloads| && lines[k].day == day
              && lines[k].quantity == payloads[k].quantity * (servings as real / 2.0)
              && payloads[k].unit == UnitText(lines[k].unit)
  {
    ReadsBackWhole(payloads, day, servings as real / 2.0);
    SavedReads(payloads[k], day, servings);
  }

  ghost predicate UniqueRecipes(recipes: seq<StoredRecipe>) {
    forall i, j :: 0 <= i < j < |recipes| ==> recipes[i].id != recipes[j].id
  }

  ghost predicate AllWellFormed(payloads: seq<Payload>) {
    forall p :: p in payloads ==> WellFormed(p)
  }

  // ----- The saved plan reads back as planned -----

  lemma {:induction false} FindsIt(recipes: seq<StoredRecipe>, r: StoredRecipe)
    requires UniqueRecipes(recipes) && r in recipes
    ensures Find(recipes, r.id) == Some(r)
  {
    if recipes[0] != r {
      assert r in recipes[1..];
      FindsIt(recipes[1..], r);
    }
  }

  lemma {:induction false} NotFoundIff(recipes: seq<StoredRecipe>, id: RecipeId)
    ensures Find(recipes, id).None? <==> forall r :: r in recipes ==> r.id != id
  {
    if recipes != [] {
      NotFoundIff(recipes[1..], id);
      assert recipes == [recipes[0]] + recipes[1..];
    }
  }

  /** The lines of a saved plan: those of the earlier days, then one for each stored ingredient of the last day's
      recipe, in order, in the stored quantity scaled from two servings to the day's. */
  lemma SavedDayReads(days: seq<MealPlanDay>, d: MealPlanDay, recipes: seq<StoredRecipe>, r: StoredRecipe,
                      lines: seq<Line>) returns (earlier: seq<Line>)
    requires UniqueRecipes(recipes) && r in recipes && r.id == d.recipe
    requires SavedLines(days + [d], recipes) == Some(lines)
    ensures SavedLines(days, recipes) == Some(earlier) && earlier <= lines
    ensures |lines| == |earlier| + |r.ingredients|
    ensures forall k :: 0 <= k < |r.ingredients| ==>
              && lines[|earlier| + k].day == d.date
              && lines[|earlier| + k].quantity == r.ingredients[k].quantity * (d.servings as real / 2.0)
              && r.ingredients[k].unit == UnitText(lines[|earlier| + k].unit)
  {
    assert (days + [d])[..|days|] == days;
    FindsIt(recipes, r);
    earlier := SavedLines(days, recipes).value;
    ReadsBackWhole(r.ingredients, d.date, d.servings as real / 2.0);
    var more := ReadBackAll(r.ingredients, d.date, d.servings as real / 2.0).value;
    assert lines == earlier + more;
    forall k | 0 <= k < |r.ingredients|
      ensures lines[|earlier| + k] == more[k] && lines[|earlier| + k].day == d.date
      ensures lines[|earlier| + k].quantity == r.ingredients[k].quantity * (d.servings as real / 2.0)
      ensures r.ingredients[k].unit == UnitText(lines[|earlier| + k].unit)
    {
      RecipeReadsBack(r.ingredients, d.date, d.servings, k);
    }
  }

  /** A day whose recipe is gone has no lines; a recipe that fails validation fails the plan. */
  lemma SavedDayFails(days: seq<MealPlanDay>, d: MealPlanDay, recipes: seq<StoredRecipe>)
    requires UniqueRecipes(recipes)
    ensures (forall r :: r in recipes ==> r.id != d.recipe) ==>
              SavedLines(days + [d], recipes) == SavedLines(days, recipes)
    ensures (exists r :: r in recipes && r.id == d.recipe
                         && ReadBackAll(r.ingredients, d.date, d.servings as real / 2.0).None?) ==>
              SavedLines(days + [d], recipes).None?
  {
    assert (days + [d])[..|days|] == days;
    NotFoundIff(recipes, d.recipe);
    forall r | r in recipes && r.id == d.recipe ensures Find(recipes, d.recipe) == Some(r) {
      FindsIt(recipes, r);
    }
  }

  lemma LinesOnSnoc(day: Date, front: seq<P.Ingredient>, x: P.Ingredient, factor: real)
    requires P.Scales(front + [x], factor)
    ensures P.Scales(front, factor) && P.Scaled(x, factor) >= 0.0
    ensures P.LinesOn(day, front + [x], factor) ==
            P.LinesOn(day, front, factor) + [Line(day, x.name, P.Scaled(x, factor), x.unit)]
  {
    assert forall k :: 0 <= k < |front| ==> (front + [x])[k] == front[k];
    assert (front + [x])[|front|] == x;
  }

  /** Reading back gives at least as many lines as planning did, and gives the same ones exactly when every
      ingredient is well formed. */
  lemma {:induction false} IngredientsReadBackIff(payloads: seq<Payload>, day: Date, factor: real)
    requires P.Scales(PlannerIngredients(payloads), factor)
    ensures ReadBackAll(payloads, day, factor).Some? ==> |ReadBackAll(payloads, day, factor).value| == |payloads|
    ensures |PlannerIngredients(payloads)| <= |payloads|
    ensures AllWellFormed(payloads) <==>
              ReadBackAll(payloads, day, factor) == Some(P.LinesOn(day, PlannerIngredients(payloads), factor))
  {
    if payloads != [] {
      var front, p := payloads[..|payloads| - 1], payloads[|payloads| - 1];
      assert payloads == front + [p];
      var kept := PlannerIngredients(front);
      if ForPlanner(p).Some? {
        LinesOnSnoc(day, kept, ForPlanner(p).value, factor);
        assert PlannerIngredients(payloads)[|kept|] == ForPlanner(p).value;
        IngredientsReadBackIff(front, day, factor);
        ReadingsAgreeIff(p, day, factor);
        SameLast(ReadBackAll(front, day, factor), P.LinesOn(day, kept, factor), ReadBack(p, day, factor),
                 Line(day, ForPlanner(p).value.name, P.Scaled(ForPlanner(p).value, factor), ForPlanner(p).value.unit));
      } else {
        assert PlannerIngredients(payloads) == kept;
        IngredientsReadBackIff(front, day, factor);
        assert p in payloads && !WellFormed(p);
      }
      assert AllWellFormed(payloads) <==> AllWellFormed(front) && WellFormed(p);
    }
  }

  function Extended(lines: Option<seq<Line>>, line: Option<Line>): Option<seq<Line>> {
    if lines.None? || line.None? then None else Some(lines.value + [line.value])
  }

  lemma SameLast(lines: Option<seq<Line>>, planned: seq<Line>, line: Option<Line>, last: Line)
    ensures Extended(lines, line) == Some(planned + [last]) <==> lines == Some(planned) && line == Some(last)
  {
    if lines.Some? && line.Some? && lines.value + [line.value] == planned + [last] {
      assert (lines.value + [line.value])[..|lines.value|] == lines.value;
      assert (planned + [last])[..|planned|] == planned;
    }
  }

  /** A planned day that cooks one of the stored recipes. */
  ghost predicate FromStore(recipes: seq<StoredRecipe>, d: P.PlannedDay) {
    && (exists r :: r in recipes && PlannerRecipe(r) == d.recipe)
    && P.Scales(d.recipe.ingredients, d.servings as real / 2.0)
    && d.lines == P.LinesOn(d.date, d.recipe.ingredients, d.servings as real / 2.0)
  }

  /** The recipe cooked on a planned day is well formed throughout. */
  ghost predicate CooksWellFormed(recipes: seq<StoredRecipe>, d: P.PlannedDay) {
    Find(recipes, d.recipe.id).Some? && AllWellFormed(Find(recipes, d.recipe.id).value.ingredients)
  }

  function DayReadBack(recipes: seq<StoredRecipe>, d: P.PlannedDay): Option<seq<Line>> {
    match Find(recipes, d.recipe.id)
    case None => Some([])
    case Some(r) => ReadBackAll(r.ingredients, d.date, d.servings as real / 2.0)
  }

  lemma DayReadsBackIff(recipes: seq<StoredRecipe>, d: P.PlannedDay)
    requires UniqueRecipes(recipes) && FromStore(recipes, d)
    ensures CooksWellFormed(recipes, d) <==> DayReadBack(recipes, d) == Some(d.lines)
    ensures DayReadBack(recipes, d).Some? ==> |d.lines| <= |DayReadBack(recipes, d).value|
  {
    var r :| r in recipes && PlannerRecipe(r) == d.recipe;
    FindsIt(recipes, r);
    IngredientsReadBackIff(r.ingredients, d.date, d.servings as real / 2.0);
  }

  function Joined(a: Option<seq<Line>>, b: Option<seq<Line>>): Option<seq<Line>> {
    if a.None? || b.None? then None else Some(a.value + b.value)
  }

  lemma SameParts(a: Option<seq<Line>>, b: Option<seq<Line>>, c: seq<Line>, d: seq<Line>)
    requires (a.Some? ==> |c| <= |a.value|) && (b.Some? ==> |d| <= |b.value|)
    ensures Joined(a, b) == Some(c + d) <==> a == Some(c) && b == Some(d)
  {
    if a.Some? && b.Some? && a.value + b.value == c + d {
      var joined := c + d;
      assert |a.value| + |b.value| == |c| + |d|;
      assert a.value == joined[..|a.value|] && c == joined[..|c|];
      assert b.value == joined[|a.value|..] && d == joined[|c|..];
    }
  }

  ghost predicate AllCookWellFormed(recipes: seq<StoredRecipe>, days: seq<P.PlannedDay>) {
    forall d :: d in days ==> CooksWellFormed(recipes, d)
  }

  /** The lines recomputed from a saved plan are the lines that were planned exactly when every recipe that the
      plan cooks is well formed. */
  lemma {:induction false} PlanReadsBackIff(recipes: seq<StoredRecipe>, days: seq<P.PlannedDay>)
    requires UniqueRecipes(recipes) && forall d :: d in days ==> FromStore(recipes, d)
    ensures SavedLines(SavedDays(days), recipes).Some? ==>
            |PlanLines(days)| <= |SavedLines(SavedDays(days), recipes).value|
    ensures SavedLines(SavedDays(days), recipes) == Some(PlanLines(days)) <==> AllCookWellFormed(recipes, days)
  {
    if days != [] {
      var front, d := days[..|days| - 1], days[|days| - 1];
      assert days == front + [d] && SavedDays(days)[..|front|] == SavedDays(front);
      PlanReadsBackIff(recipes, front);
      DayReadsBackIff(recipes, d);
      var earlier, today := SavedLines(SavedDays(front), recipes), DayReadBack(recipes, d);
      SavedLinesNext(recipes, days);
      SameParts(earlier, today, PlanLines(front), d.lines);
    }
  }

  lemma SavedLinesNext(recipes: seq<StoredRecipe>, days: seq<P.PlannedDay>)
    requires days != []
    ensures var front, d := days[..|days| - 1], days[|days| - 1];
            SavedLines(SavedDays(days), recipes) ==
              Joined(SavedLines(SavedDays(front), recipes), DayReadBack(recipes, d))
  {
    assert SavedDays(days)[..|days| - 1] == SavedDays(days[..|days| - 1]);
    if SavedLines(SavedDays(days[..|days| - 1]), recipes).Some? {
      var lines := SavedLines(SavedDays(days[..|days| - 1]), recipes).value;
      assert lines + [] == lines;
    }
  }

  lemma DayIsFromStore(recipes: seq<StoredRecipe>, d: P.PlannedDay, servings: int, today: Date, k: nat)
    requires d.recipe in PlannerRecipes(recipes) && P.DayOk(today, servings, d, k)
    ensures FromStore(recipes, d) && d.date == today + k
  {
    var i :| 0 <= i < |recipes| && PlannerRecipes(recipes)[i] == d.recipe;
    assert recipes[i] in recipes;
  }

  lemma PlanIsFromStore(stock: seq<Item>, q: Request, recipes: seq<StoredRecipe>, today: Date)
    requires P.Plan(stock, q.days, q.servings, q.tags, q.maxPrep, PlannerRecipes(recipes), today).Ok?
    ensures var days := P.Plan(stock, q.days, q.servings, q.tags, q.maxPrep, PlannerRecipes(recipes), today).value;
            && |days| == q.days
            && forall k :: 0 <= k < |days| ==> FromStore(recipes, days[k]) && days[k].date == today + k
  {
    P.PlanIsGreedy(stock, q.days, q.servings, q.tags, q.maxPrep, PlannerRecipes(recipes), today);
    var days := P.Plan(stock, q.days, q.servings, q.tags, q.maxPrep, PlannerRecipes(recipes), today).value;
    forall k | 0 <= k < |days| ensures FromStore(recipes, days[k]) && days[k].date == today + k {
      DayIsFromStore(recipes, days[k], q.servings, today, k);
    }
  }

  // ----- Consistency -----

  lemma {:induction false} LinesHaveDays(days: seq<P.PlannedDay>)
    requires forall k, l :: 0 <= k < |days| && l in days[k].lines ==> l.day == days[k].date
    ensures forall l :: l in PlanLines(days) ==> exists d :: d in SavedDays(days) && d.date == l.day
  {
    if days != [] {
      var last := |days| - 1;
      var front := days[..last];
      LinesHaveDays(front);
      assert SavedDays(front) == SavedDays(days)[..last];
      forall l | l in PlanLines(days) ensures exists d :: d in SavedDays(days) && d.date == l.day {
        if l in PlanLines(front) {
          var d :| d in SavedDays(front) && d.date == l.day;
          assert d in SavedDays(days);
        } else {
          assert SavedDays(days)[last] in SavedDays(days);
        }
      }
    }
  }

  /** The rows of a successful reservation keep the tables consistent. */
  lemma CreateKeepsConsistent(t: Tables, table: seq<Item>, plan: MealPlan, lines: seq<Line>)
    requires Distinct(table) && Consistent(t, table) && Fresh(t, plan.id)
    requires forall l :: l in lines ==> exists d :: d in plan.days && d.date == l.day
    requires R.ReserveLines(ActiveInventory(table, plan.household), LedgerOf(t.reservations), plan.id, lines).Ok?
    ensures var rows := R.ReserveLines(ActiveInventory(table, plan.household), LedgerOf(t.reservations), plan.id,
            lines).value.rows;
            Consistent(Created(t, plan, rows), table) && forall r :: r in rows ==> r.plan == plan.id
  {
    var stock := ActiveInventory(table, plan.household);
    var rows := R.ReserveLines(stock, LedgerOf(t.reservations), plan.id, lines).value.rows;
    var t' := Created(t, plan, rows);
    R.RowsBelong(stock, LedgerOf(t.reservations), plan.id, lines);
    assert plan in t'.plans;
    forall r | r in t'.reservations ensures Anchored(t', r) && r.quantity > 0.0 {
      if r in rows {
        var l, x :| l in lines && x in stock && r.day == l.day && r.unit == l.BaseUnit() == x.BaseUnit()
                    && x.Counts() && x.id == r.item && x.name == l.name;
      } else {
        assert Anchored(t, r);
        var p, d :| p in t.plans && p.id == r.plan && d in p.days && d.date == r.day;
        assert p in t'.plans;
      }
    }
    RowsFit(t, table, plan, lines);
    assert UniqueIds(t'.plans) by {
      forall i | 0 <= i < |t.plans| ensures t.plans[i].id != plan.id {
        assert t.plans[i] in t.plans;
      }
    }
  }

  lemma RowsFit(t: Tables, table: seq<Item>, plan: MealPlan, lines: seq<Line>)
    requires Distinct(table) && Consistent(t, table)
    requires R.ReserveLines(ActiveInventory(table, plan.household), LedgerOf(t.reservations), plan.id, lines).Ok?
    ensures var rows := R.ReserveLines(ActiveInventory(table, plan.household), LedgerOf(t.reservations), plan.id,
            lines).value.rows;
            forall k :: 0 <= k < |table| ==> Taken(t.reservations + rows, {table[k].id}) <= table[k].BaseQuantity()
  {
    var stock := ActiveInventory(table, plan.household);
    var external := LedgerOf(t.reservations);
    var run := R.ReserveLines(stock, external, plan.id, lines).value;
    ConsistentIsWithin(t, table, plan.household);
    R.RunStaysWithin(stock, external, plan.id, lines);
    R.RowsBelong(stock, external, plan.id, lines);
    forall k | 0 <= k < |table| ensures Taken(t.reservations + run.rows, {table[k].id}) <= table[k].BaseQuantity() {
      var x := table[k];
      TakenAppend(t.reservations, run.rows, {x.id});
      if x in stock {
        R.RunBooksItsRows(stock, external, plan.id, lines, x.id);
        LedgerSums(t.reservations, x.id);
        var j :| 0 <= j < |stock| && stock[j] == x;
      } else {
        forall r | r in run.rows ensures r.item !in {x.id} {
          var l, y :| l in lines && y in stock && r.day == l.day && r.unit == l.BaseUnit() == y.BaseUnit()
                      && y.Counts() && y.id == r.item && y.name == l.name;
          if y.id == x.id { SameIdSameItem(table, x, y); }
        }
        TakenNone(run.rows, {x.id});
      }
    }
  }

  lemma ConsistentIsWithin(t: Tables, table: seq<Item>, h: HouseholdId)
    requires Consistent(t, table)
    ensures R.Within(ActiveInventory(table, h), LedgerOf(t.reservations))
  {
    var stock := ActiveInventory(table, h);
    forall k | 0 <= k < |stock| ensures Lookup(LedgerOf(t.reservations), stock[k].id) <= stock[k].BaseQuantity() {
      assert stock[k] in stock;
      var j :| 0 <= j < |table| && table[j] == stock[k];
      LedgerSums(t.reservations, stock[k].id);
    }
  }

  /** For a plan reserved on consistent tables: its rows plus the gap on its shopping list are the demand,
      but for the mismatch between what the list and the allocator take to be free, and for at most EPS a line. */
  lemma PlanAndListMeetDemand(t: Tables, table: seq<Item>, h: HouseholdId, id: PlanId, lines: seq<Line>, n: Name)
    requires Distinct(table) && Consistent(t, table)
    requires R.ReserveLines(ActiveInventory(table, h), LedgerOf(t.reservations), id, lines).Ok?
    ensures var stock := ActiveInventory(table, h);
            var own := Taken(R.ReserveLines(stock, LedgerOf(t.reservations), id, lines).value.rows,
              IdsNamed(table, h, n));
            var gap := Gap(lines, stock, NameLedger(t.reservations, table, h), n);
            var mismatch := C.Mismatch(table, h, t.reservations, lines, n);
            mismatch <= Required(lines, n) - (own + gap) <= mismatch + LinesFor(lines, n) as real * A.EPS
  {
    ConsistentIsWithin(t, table, h);
    C.RowsAndGapMeetDemand(table, h, t.reservations, id, lines, n);
  }

  // ----- The service -----

  class Service {
    var inventory: seq<Item>
    var recipes: seq<StoredRecipe>
    var manual: seq<ManualItem>
    const session: Session
    const reservations: ReservationService.Service

    constructor (inventory: seq<Item>, recipes: seq<StoredRecipe>)
      requires Distinct(inventory) && UniqueRecipes(recipes)
      ensures Valid() && fresh(session)
      ensures this.inventory == inventory && this.recipes == recipes && manual == []
              && session.committed == Tables([], [])
    {
      var s := new Session();
      var r := new ReservationService.Service(s);
      session, reservations := s, r;
      this.inventory, this.recipes, manual := inventory, recipes, [];
      new;
      forall k | 0 <= k < |inventory| ensures Taken([], {inventory[k].id}) <= inventory[k].BaseQuantity() {
      }
    }

    /** No transaction is open and the committed tables are consistent. */
    ghost predicate Valid()
      reads this, session
    {
      && reservations.session == session && session.working == session.committed
      && Distinct(inventory) && UniqueRecipes(recipes) && Consistent(session.committed, inventory)
    }

    /** The derived part of the household's current list; None if a saved recipe fails validation. */
    ghost function CurrentList(h: HouseholdId): Option<seq<ShoppingItem>>
      reads this, session
    {
      match Latest(session.committed.plans, h)
      case None => Some([])
      case Some(plan) =>
        match SavedLines(plan.days, recipes)
        case None => None
        case Some(lines) => 
            Some(Derived(lines, ActiveInventory(inventory, h),
                         NameLedger(Others(session.committed.reservations, plan.id), inventory, h)))
    }

    /** Inserts the plan and reserves its lines in one transaction: committed on success, rolled back
        when a line is refused. */
    method Save(plan: MealPlan, days: seq<P.PlannedDay>, items: seq<Item>) returns (refused: Option<Name>)
      requires Valid() && Fresh(session.committed, plan.id)
      modifies session
      ensures session.working == session.committed
      ensures match R.ReserveLines(items, LedgerOf(old(session.committed.reservations)), plan.id, PlanLines(days))
              case Ok(run) => refused == None
                && session.committed == Tables(old(session.committed.plans) + [plan],
                                               old(session.committed.reservations) + run.rows)
              case Insufficient(n) => refused == Some(n) && session.committed == old(session.committed)
    {
      OthersAll(session.committed.reservations, plan.id);
      ghost var run := R.ReserveLines(items, LedgerOf(session.committed.reservations), plan.id, PlanLines(days));
      session.AddPlan(plan);
      assert Others(session.working.reservations, plan.id) == session.committed.reservations;
      refused := reservations.ReservePlan(plan.id, days, items);
      if refused.Some? {
        session.Rollback();
      } else {
        assert run.Ok? && session.working == Created(old(session.committed), plan, run.value.rows);
        session.Commit();
      }
    }

    /** Creates a plan: choose recipes, insert the plan, reserve its lines, commit. Any failure leaves the
        tables as they were. */
    method GeneratePlan(user: UserId, h: HouseholdId, q: Request, today: Date, id: PlanId)
        returns (result: Result<PlanResult>)
      requires Valid() && q.days >= 1 && Fresh(session.committed, id)
      modifies session
      ensures Valid()
      ensures var items, before := ActiveInventory(inventory, h), old(session.committed);
              match P.Plan(items, q.days, q.servings, q.tags, q.maxPrep, PlannerRecipes(recipes), today)
              case Err(e) => result == Err(if e.NoMatchingRecipes? then NoMatchingRecipes else InvalidQuantity)
              case Ok(days) =>
                match R.ReserveLines(items, LedgerOf(before.reservations), id, PlanLines(days))
                case Insufficient(n) => result == Err(InsufficientFree(n))
                case Ok(run) =>
                  && result == Ok(PlanResult(id, days, Derived(PlanLines(days), items,
                                                               NameLedger(before.reservations, inventory, h))))
                  && session.committed ==
                     Tables(before.plans + [MealPlan(id, user, h, today, today + q.days - 1, SavedDays(days))],
                            before.reservations + run.rows)
      ensures result.Err? ==> session.committed == old(session.committed)
      ensures result.Ok? ==>
                && |result.value.days| == q.days && P.LinesScaled(result.value.days, q.servings)
                && P.AsRequested(result.value.days, q.servings, q.tags, q.maxPrep, PlannerRecipes(recipes), today)
      ensures result.Ok? ==> Deleted(session.committed, id) == old(session.committed)
      ensures forall g: HouseholdId :: g != h ==>
                Latest(session.committed.plans, g) == Latest(old(session.committed.plans), g)
      ensures result.Ok? && AllCookWellFormed(recipes, result.value.days) ==>
                CurrentList(h) == Some(result.value.shoppingList)
    {
      var items := ActiveInventory(inventory, h);
      var plannerInput := PlannerRecipes(recipes);
      var planned := P.GeneratePlan(items, q.days, q.servings, q.tags, q.maxPrep, plannerInput, today);
      if planned.Err? {
        return Err(if planned.error.NoMatchingRecipes? then NoMatchingRecipes else InvalidQuantity);
      }
      var days := planned.value;
      PlanIsFromStore(items, q, recipes, today);
      var plan := MealPlan(id, user, h, days[0].date, days[|days| - 1].date, SavedDays(days));
      ghost var before := session.committed;
      ghost var run := R.ReserveLines(items, LedgerOf(before.reservations), id, PlanLines(days));
      assert plan == MealPlan(id, user, h, today, today + q.days - 1, SavedDays(days));
      var refused := Save(plan, days, items);
      if refused.Some? {
        return Err(InsufficientFree(refused.value));
      }
      assert session.committed == Created(before, plan, run.value.rows);
      Finish(before, plan, days);
      forall g: HouseholdId | g != h
        ensures Latest(session.committed.plans, g) == Latest(before.plans, g)
      {
        CreationLeavesLatest(before.plans, plan, g);
      }
      var others := reservations.ReservedQuantitiesByIngredient(inventory, h, id);
      var list := DeriveShoppingList(PlanLines(days), items, others);
      result := Ok(PlanResult(id, days, list));
    }

    /** The facts about the committed state that the caller is promised. */
    lemma Finish(before: Tables, plan: MealPlan, days: seq<P.PlannedDay>)
      requires Distinct(inventory) && UniqueRecipes(recipes) && Consistent(before, inventory) && Fresh(before, plan.id)
      requires plan.days == SavedDays(days) && forall k :: 0 <= k < |days| ==> FromStore(recipes, days[k])
      requires R.ReserveLines(ActiveInventory(inventory, plan.household), LedgerOf(before.reservations), plan.id,
               PlanLines(days)).Ok?
      ensures var rows := R.ReserveLines(ActiveInventory(inventory, plan.household), LedgerOf(before.reservations),
              plan.id, PlanLines(days)).value.rows;
              var after := Created(before, plan, rows);
              && Consistent(after, inventory) && Deleted(after, plan.id) == before
              && Others(after.reservations, plan.id) == before.reservations
              && Latest(after.plans, plan.household) == Some(plan)
      ensures AllCookWellFormed(recipes, days) ==> SavedLines(plan.days, recipes) == Some(PlanLines(days))
    {
      LinesHaveDays(days);
      CreateKeepsConsistent(before, inventory, plan, PlanLines(days));
      var rows := R.ReserveLines(ActiveInventory(inventory, plan.household), LedgerOf(before.reservations), plan.id,
        PlanLines(days)).value.rows;
      DeleteUndoesCreate(before, plan, rows);
      PlanReadsBackIff(recipes, days);
    }

    /** Only the plan's own user, in its household, can delete it. */
    method DeletePlan(id: PlanId, user: UserId, h: HouseholdId) returns (result: Result<()>)
      requires Valid()
      modifies session
      ensures Valid()
      ensures if exists p :: p in old(session.committed.plans) && p.id == id && p.user == user && p.household == h
              then result == Ok(()) && session.committed == Deleted(old(session.committed), id)
              else result == Err(PlanNotFound) && session.committed == old(session.committed)
      ensures forall g: HouseholdId :: g != h ==>
                Latest(session.committed.plans, g) == Latest(old(session.committed.plans), g)
    {
      var plans := session.working.plans;
      var found := false;
      for k := 0 to |plans|
        invariant found <==>
                    exists j :: 0 <= j < k && plans[j].id == id && plans[j].user == user && plans[j].household == h
      {
        if plans[k].id == id && plans[k].user == user && plans[k].household == h {
          found := true;
        }
      }
      if !found {
        return Err(PlanNotFound);
      }
      DeleteKeepsConsistent(session.committed, inventory, id);
      OwnPlanOnly(plans, id, user, h);
      forall g: HouseholdId | g != h ensures Latest(Without(plans, id), g) == Latest(plans, g) {
        DeletionLeavesLatest(plans, id, g);
      }
      session.DeletePlan(id);
      session.Commit();
      result := Ok(());
    }

    /** With unique ids, a plan found to be the household's is the only one with its id. */
    static lemma OwnPlanOnly(plans: seq<MealPlan>, id: PlanId, user: UserId, h: HouseholdId)
      requires UniqueIds(plans) && exists p :: p in plans && p.id == id && p.user == user && p.household == h
      ensures forall p :: p in plans && p.id == id ==> p.household == h
    {
      var p :| p in plans && p.id == id && p.user == user && p.household == h;
      var i :| 0 <= i < |plans| && plans[i] == p;
      forall q | q in plans && q.id == id ensures q.household == h {
        var j :| 0 <= j < |plans| && plans[j] == q;
        assert i == j;
      }
    }

    /** The list of the newest plan, recomputed, followed by the manual items. */
    method GetShoppingList(h: HouseholdId) returns (result: Result<seq<ShoppingItem>>)
      requires Valid()
      ensures result == match CurrentList(h)
                        case None => Err(InvalidIngredient)
                        case Some(derived) => Ok(derived + ManualFor(manual, h))
      ensures (forall p :: p in session.committed.plans ==> p.household != h) ==> result == Ok(ManualFor(manual, h))
      ensures (exists p :: p in session.committed.plans && p.household == h) ==>
                exists k :: 0 <= k < |session.committed.plans| && IsListOf(session.committed.plans, k, h, result)
    {
      ghost var k := LatestIs(session.committed.plans, h);
      var items := ActiveInventory(inventory, h);
      var manualItems := ManualFor(manual, h);
      var plan := Latest(session.working.plans, h);
      if plan.None? {
        assert [] + manualItems == manualItems;
        return Ok(manualItems);
      }
      var lines := SavedLines(plan.value.days, recipes);
      if lines.None? {
        assert IsListOf(session.committed.plans, k, h, Err(InvalidIngredient));
        return Err(InvalidIngredient);
      }
      var others := reservations.ReservedQuantitiesByIngredient(inventory, h, plan.value.id);
      var derived := DeriveShoppingList(lines.value, items, others);
      result := Ok(Merge(derived, manualItems));
      assert IsListOf(session.committed.plans, k, h, result);
    }

    /** Plan k is the household's, none of its plans comes later, and the result is that plan's list. */
    ghost predicate IsListOf(plans: seq<MealPlan>, k: nat, h: HouseholdId, result: Result<seq<ShoppingItem>>)
      requires k < |plans|
      reads this, session
    {
      && plans[k].household == h && (forall j :: k < j < |plans| ==> plans[j].household != h)
      && result == match SavedLines(plans[k].days, recipes)
                   case None => Err(InvalidIngredient)
                   case Some(lines) =>
                     Ok(Derived(lines, ActiveInventory(inventory, h),
                                NameLedger(Others(session.committed.reservations, plans[k].id), inventory, h))
                        + ManualFor(manual, h))
    }
  }
}
