# Verified model of the kitchen backend's stateful cores

This project models, in Dafny, the parts of the backend (`backend/app`) that keep state with rules attached,
and proves what those rules guarantee.

* **Units** (`Units.dfy`): spelling of units, conversion to a base unit, conversion between units.
* **Planning** (`Stock`, `Allocation`, `ReservationRun`, `Ledgers`, `Planner`, `Simulation`, `Rounding`,
  `ShoppingList`, `UnitSums`, `Conservation`, `PlanTables`, `ReservationService`, `PlanningService`, `Transactions`,
  `Interleavings`, `SerialRuns`): the greedy planner draws down one number per ingredient, the reservation service books
  the same demand item by item, and the shopping list subtracts totals once. The three are proved against each other;
  plan creation and deletion are proved all-or-nothing and inverse; and concurrent transactions are proved never to
  over-reserve an item, while each commit stores exactly its plan and rows, and a run of one transaction alone ends in
  the tables that the service commits.
* **Inventory** (`InventoryLog`, `InventoryHistory`, `InventoryService`): rows with versions, an event log with
  snapshots, and per-user undo.
* **Households** (`EventBus`, `Sse`, `Membership`, `MembershipRows`, `HouseholdService`): the bounded event bus in
  memory and on Redis, the replay-then-follow stream, and the membership state machine.

Code that changes things step by step is a class or a loop with a contract that ties the new state to a function of the
old one; what the system promises is then proved about those functions and over every run. Each service call on
inventory and membership is one atomic step; plan creation and deletion are split into their database steps in
`Transactions`.

Quantities are reals. A name is the position of its normalised text in string order; dates and ids are integers. Used
and discarded items are left out wherever the code leaves them out, and kept where it keeps them: the per-ingredient
sum of reservations also counts rows on retired items, and the theorems say what that does.

Results that hold less widely than one might expect, each with its exact condition:

* Rows plus shopping gap equal the demand only up to a mismatch: the list adds quantities without comparing units, and
  reservations on retired items count against it. `Conservation.RowsAndGapMeetDemand` is the equation with the mismatch,
  for demand and stock in any units; `Conservation.NoMismatchIff` says when it vanishes. With nothing held on retired
  items, demand is neither reserved nor listed exactly when the ingredient is short in one unit while another unit has
  stock to spare (`Conservation.LostIffShortAndSpare`); `Conservation.MixedUnitsLoseDemand` and
  `Conservation.MixedDemandLosesDemand` are cases of it.
* A user with memberships always has exactly one active one, except after leaving, as its last member, the household
  they had active: the code returns before it activates another. `Membership.SettledUnlessStranded` is the
  if-and-only-if, `Membership.LeavingAloneStrands` a run that shows it.
* A reconnecting client gets everything exactly when its last event was still in the history as the history was read, or
  no event followed it before the new subscription, and every event that its full queue dropped had come with the replay
  (`Sse.NothingMissingIff`, for every run with distinct event ids, overflow included). Event by event,
  `Sse.SentAsOftenAs` says how often it comes.
* The saved plan reads back as it was planned exactly when every recipe it cooks is well formed
  (`PlanningService.PlanReadsBackIff`, and `PlanningService.ReadingsAgreeIff` ingredient by ingredient). An ingredient
  with a null canonical name and a plain name is one that is not: the planner skips the null, the read-back refuses it.

## Model

| member | source | states |
|---|---|---|
| Units.NormalizeIsIdempotent | backend/app/core/units.py:70-71 | Storing the normalised spelling loses nothing: normalising it again gives the same unit, for every input text, with lower-casing of ASCII letters |
| Units.CompatibleIffSameBase | backend/app/core/units.py:82-91 | Two spellings are compatible if and only if conversion to base lands in the same base unit; so compatibility is an equivalence |
| Units.ConvertKeepsBase | backend/app/core/units.py:94-106 | Conversion succeeds exactly on compatible units, keeps the base quantity, and converting back returns the original |
| Units.ConvertComposes | backend/app/core/units.py:94-106 | Going through a third compatible unit gives the same quantity as converting directly |
| Units.BaseIsFixed | backend/app/core/units.py:74-79 | Converting a quantity that is already in a base unit is the identity, which the subtraction of reserved quantities relies on |
| Units.MetricMasses | backend/app/core/units.py:55-67 | Grams stay as they are; a kilogram is 1000 g |
| Units.ImperialMasses | backend/app/core/units.py:55-67 | An ounce is 28.3495 g, a pound 453.592 g |
| Units.MetricVolumes | backend/app/core/units.py:55-67 | Millilitres stay as they are; a litre is 1000 ml |
| Units.LargeVolumes | backend/app/core/units.py:55-67 | A gallon is 3785.41 ml |
| Units.MiddleVolumes | backend/app/core/units.py:55-67 | A pint is 473.176 ml, a cup 236.588 ml |
| Units.SmallVolumes | backend/app/core/units.py:55-67 | A tablespoon is 14.787 ml, a teaspoon 4.929 ml |
| Units.AliasesOfMasses | backend/app/core/units.py:3-53 | The words for masses and metric volumes stand for their units |
| Units.AliasesOfVolumes | backend/app/core/units.py:3-53 | So do the words for the other volumes |
| Units.AliasesOfCounts | backend/app/core/units.py:3-53 | And those for pieces, packs, cans, bottles and slices |
| Units.UnknownIsKept | backend/app/core/units.py:70-79 | A word that is in neither table is kept, and is its own base unit |
| Units.SpaceIsIgnored | backend/app/core/units.py:70-71 | Space before or after a unit makes no difference |
| Units.CaseIsIgnored | backend/app/core/units.py:70-71 | Texts that differ in the case of ASCII letters only are the same unit |
| Stock.ActiveInventory | backend/app/modules/planning/service.py:296-311 | The query returns exactly the household's items that are neither used nor discarded, none twice |
| Stock.ActiveInventoryIs | backend/app/modules/planning/service.py:296-311 | An item is in the inventory if and only if it is the household's and active or frozen; earlier expiry dates come first |
| Stock.InBaseUnits | backend/app/core/units.py:74-79 | The base quantity and unit of an item or a line are what conversion gives for its unit's text |
| Stock.SortSorts | backend/app/modules/planning/reservation.py:45-48 | Sorting by expiry gives a permutation in expiry order |
| Stock.SortIsStable | backend/app/modules/planning/service.py:304-308 | Items expiring on one date keep the order they came in |
| Stock.CandidatesMembers | backend/app/modules/planning/reservation.py:41-48 | The candidates of an ingredient are exactly its counted items, none twice |
| Stock.CandidatesInOrder | backend/app/modules/planning/reservation.py:45-48 | The candidates stand in order of expiry |
| Allocation.AllocateQuantity | backend/app/modules/planning/reservation.py:110-135 | The loop computes the allocation; every share is positive, within the item's free quantity and in the demanded base unit, and the sum is the smaller of demand and free stock, short by at most 1e-9 |
| Allocation.AllocateIsTight | backend/app/modules/planning/reservation.py:110-135 | The sum lies between min(demand, free) - 1e-9 and min(demand, free), and equals all the free stock unless demand is met within 1e-9 |
| Allocation.AmountClosedForm | backend/app/modules/planning/reservation.py:110-135 | The loop in closed form: an item gives its free quantity or the demand that the free stock before it leaves, whichever is less; nothing in another unit, and nothing once anything was taken and at most 1e-9 is left |
| Allocation.EarlierItemsDrainFirst | backend/app/modules/planning/reservation.py:110-135 | An item is touched only when every compatible candidate before it has been taken completely |
| Allocation.AmountWithinFree | backend/app/modules/planning/reservation.py:118-131 | No item gives more than it has free, and one in another base unit gives nothing |
| Allocation.FreeAfterShares | backend/app/modules/planning/reservation.py:58-72 | Booking the shares lowers the free total of the demanded unit by exactly their sum and leaves the other units alone |
| ReservationRun.LineMoves | backend/app/modules/planning/reservation.py:49-72 | One line moves a quantity from free stock to the plan's rows: demand or free stock, whichever is less, within 1e-9; other ingredients and units are untouched |
| ReservationRun.RunServesDemand | backend/app/modules/planning/reservation.py:39-74 | After all lines the free total is what the demand leaves, or nothing, at most 1e-9 more per line that asked; what is gone is in the plan's rows |
| ReservationRun.RunBooksItsRows | backend/app/modules/planning/reservation.py:58-72 | Every booking is matched by a row, item by item |
| ReservationRun.RunStaysWithin | backend/app/modules/planning/reservation.py:39-74 | No item is booked beyond its base quantity if none was before |
| ReservationRun.RowsBelong | backend/app/modules/planning/reservation.py:60-71 | Every row is the plan's, is positive, lies on the day of one of its lines, and takes from a counted item of that line's ingredient in its base unit |
| ReservationRun.RefusedIffShort | backend/app/modules/planning/reservation.py:53-57 | A line is refused if and only if another plan holds some item of the ingredient and free stock is short of the demand by more than 1e-9 |
| ReservationRun.LineFailsIff | backend/app/modules/planning/reservation.py:53-57 | Reserving a line fails if and only if that holds, and names the line's ingredient |
| ReservationRun.RunFailsIff | backend/app/modules/planning/reservation.py:39-57 | A run fails if and only if some line is refused after the lines before it, and names the first one's ingredient |
| ReservationRun.LineIsLocal | backend/app/modules/planning/reservation.py:58-72 | A line never lowers a booking, changes bookings only by its rows, and touches no item outside its stock |
| ReservationRun.NothingHeldNothingRefused | backend/app/modules/planning/reservation.py:53-57 | With nothing held by other plans no line is refused |
| Ledgers.LedgerSums | backend/app/modules/planning/reservation.py:96-108 | The per-item dictionary holds the sum of the item's rows |
| Ledgers.NameLedgerSums | backend/app/modules/planning/reservation.py:76-94 | The per-ingredient dictionary holds the sum of the rows on the household's items of that name, retired ones included |
| Ledgers.RowCountsForName | backend/app/modules/planning/reservation.py:76-94 | One more row counts for its item's name, used and discarded items included, and not at all if the item is another household's |
| ReservationService.Service.ReservedQuantitiesByItem | backend/app/modules/planning/reservation.py:96-108 | The loop returns, for every item, what the other plans hold of it |
| ReservationService.Service.ReservedQuantitiesByIngredient | backend/app/modules/planning/reservation.py:76-94 | The loop returns, for every ingredient name, what the other plans hold of the household's items |
| ReservationService.Service.GroupByName | backend/app/modules/planning/reservation.py:41-48 | Grouping gives every ingredient its candidates, earliest expiry first |
| ReservationService.Service.AddRows | backend/app/modules/planning/reservation.py:58-72 | One row per share is added to the session, in order, and the same quantities to the dictionary |
| ReservationService.Service.ReserveLine | backend/app/modules/planning/reservation.py:49-72 | One line is refused without a row, or adds exactly the rows and bookings of the run |
| ReservationService.Service.ReserveDay | backend/app/modules/planning/reservation.py:49-72 | The lines of a day continue the run of the lines before it |
| ReservationService.Service.ReserveDays | backend/app/modules/planning/reservation.py:49-74 | The loop over days reserves the plan's lines in order, or stops at the first refused one |
| ReservationService.Service.ReservePlan | backend/app/modules/planning/reservation.py:25-74 | The whole call adds exactly the run's rows to the session, or raises for the ingredient the run refuses |
| Planner.BuildRemainingInventory | backend/app/modules/planning/planner.py:202-217 | The loop builds one snapshot per ingredient from the items in expiry order |
| Planner.ReserveIngredients | backend/app/modules/planning/planner.py:177-200 | The loop draws the recipe down from the shared snapshots and returns the names drawn |
| Planner.ScoreRecipe | backend/app/modules/planning/planner.py:135-175 | The loop computes the score: coverage and complete matches count the positions whose ingredient is in stock in the unit asked for, the latter with enough of it; a repeat and the time count as given; urgency is at least one per covered ingredient |
| Planner.NoneBeatsChoice | backend/app/modules/planning/planner.py:118-133 | No candidate scores better than the chosen one for what is left, the recipes cooked so far and the servings asked for |
| Planner.TallyCounts | backend/app/modules/planning/planner.py:147-170 | Coverage and complete matches are the numbers of covered and completely covered positions |
| Planner.UrgencyAddsUp | backend/app/modules/planning/planner.py:147-170 | Each covered ingredient adds the urgency of its stock, and no other adds anything |
| Planner.UrgencyWeights | backend/app/modules/expiry/urgency.py:14-23 | The weights by days left: 5 expired, 4 up to a day, 2 up to a week, 1 after that, plus a hundredth for each day short of thirty |
| Planner.BetterIsTupleOrder | backend/app/modules/planning/planner.py:118-133 | Scores compare as tuples: urgency, complete matches, coverage, no repeat, less time; the first difference decides |
| Planner.SameIngredients | backend/app/modules/planning/planner.py:172-175 | Between recipes with the same ingredients, one not yet cooked beats a repeat, and otherwise the quicker one wins |
| Planner.BestIndex | backend/app/modules/planning/planner.py:118-133 | The choice is the first position whose score no other beats lexicographically |
| Planner.FirstBestIsUnique | backend/app/modules/planning/planner.py:118-133 | The tuple order leaves exactly one first best position, so the choice is determined |
| Planner.SoonerIsMoreUrgent | backend/app/modules/planning/planner.py:135-175 | Stock that expires sooner is never less urgent, and strictly more urgent if and only if it expires within thirty days |
| Planner.FilterRecipes | backend/app/modules/planning/planner.py:102-116 | The loop keeps exactly the recipes that meet the tag and time limits, in order |
| Planner.FilteredMembers | backend/app/modules/planning/planner.py:102-116 | A recipe is a candidate if and only if it is on offer, has all tags asked for and takes no longer than asked |
| Planner.FilterKeepsOrder | backend/app/modules/planning/planner.py:102-116 | The candidates stand in the order of the recipes |
| Planner.SelectCandidates | backend/app/modules/planning/planner.py:72-80 | Planning fails exactly when no recipe meets the filters; the fallback to all recipes never widens them |
| Planner.PlanDay | backend/app/modules/planning/planner.py:82-95 | One day cooks the best candidate for the inventory as it stands |
| Planner.PlanAllDays | backend/app/modules/planning/planner.py:79-96 | The loop over days threads inventory and used recipes from day to day |
| Planner.GeneratePlan | backend/app/modules/planning/planner.py:47-100 | Returns the specified plan; fails with no match exactly when no recipe meets both limits; a plan has consecutive dates from today, the servings asked for, recipes on offer within the limits, and a line per ingredient in its quantity times servings over two |
| Planner.PlanDaysChooseWell | backend/app/modules/planning/planner.py:79-96 | After any number of days, each day's choice was the first best for what the days before it left |
| Planner.PlanIsGreedy | backend/app/modules/planning/planner.py:47-100 | A plan has the requested number of consecutive dates and the servings asked for, every recipe is on offer and meets the filters, and each is the first best choice for the inventory left by the earlier days |
| Planner.PlanScales | backend/app/modules/planning/planner.py:77-93 | Line k of day i asks for ingredient k of its recipe, in the quantity for two times servings over two, in its unit, on that day |
| Planner.PlanFails | backend/app/modules/planning/planner.py:57-78 | Planning fails with no match exactly when no recipe on offer meets the limits, and otherwise only over a recipe with a negative scaled quantity |
| Simulation.BuildIsTotal | backend/app/modules/planning/planner.py:202-217 | Each snapshot is the total of the ingredient's items kept in the base unit of its earliest-expiring item, with that item's expiry date |
| Simulation.DrawClosedForm | backend/app/modules/planning/planner.py:177-200 | Drawing any lines leaves the starting quantity less their demand, or zero |
| Simulation.DrawnIff | backend/app/modules/planning/planner.py:177-200 | Drawing a recipe takes from exactly the ingredients asked for in the unit they are kept in and of which something is left |
| Simulation.PlannerDrawsItsLines | backend/app/modules/planning/planner.py:79-96 | What the planner has left is what drawing the lines of its own days leaves |
| Simulation.ReservedNamesAre | backend/app/modules/planning/planner.py:79-96 | A day names an ingredient as reserved if and only if it asks for it in the unit of the aggregate stock and the days before have not asked for all of that stock |
| Simulation.ReservationFollowsPlanner | backend/app/modules/planning/reservation.py:41-72 | After any k lines the allocator's free quantity is at least the planner's remaining quantity and exceeds it by at most 1e-9 per line that asked |
| Simulation.ReservationFollowsPlanDays | backend/app/modules/planning/planner.py:177-217 | The same for the planner's own dictionary after any number of days |
| Simulation.RemainingNonNegative | backend/app/modules/planning/planner.py:177-200 | Remaining quantities never go below zero and keep their unit |
| Rounding.RoundIsClose | backend/app/modules/planning/shopping_list.py:55-82 | Rounding to three decimals moves a quantity by at most 0.0005 and is idempotent |
| Rounding.RoundIsNearest | backend/app/modules/planning/shopping_list.py:55-82 | The result is the nearest number of thousandths, the even one of two equally near |
| ShoppingList.SumInventory | backend/app/modules/planning/shopping_list.py:22-32 | The loop totals the counted items of each name, and has an entry exactly for the names in stock |
| ShoppingList.SubtractHeld | backend/app/modules/planning/shopping_list.py:34-40 | In any order of the dictionary, each total is lowered by what others hold, not below zero |
| ShoppingList.SumFree | backend/app/modules/planning/shopping_list.py:22-40 | Both dictionaries hold stock and available quantity for every name |
| ShoppingList.SumDemand | backend/app/modules/planning/shopping_list.py:42-53 | The loop totals the demand per name and keeps the unit of its first line |
| ShoppingList.MakeEntry | backend/app/modules/planning/shopping_list.py:60-80 | An entry shows the gap in the display unit, rounded, with the reason decided by total stock |
| ShoppingList.DeriveShoppingList | backend/app/modules/planning/shopping_list.py:17-82 | The routine returns one entry per lacking ingredient, in name order |
| ShoppingList.ListedIffGap | backend/app/modules/planning/shopping_list.py:55-82 | An ingredient is listed if and only if its demand exceeds what is available |
| ShoppingList.ListInOrder | backend/app/modules/planning/shopping_list.py:55-57 | Names strictly increase, so none is listed twice |
| ShoppingList.ListEntry | backend/app/modules/planning/shopping_list.py:60-80 | Every entry has demand above what is available, and shows the difference in the unit of the ingredient's first line |
| ShoppingList.DisplayUnitIs | backend/app/modules/planning/shopping_list.py:42-53 | The unit shown is that of the ingredient's first line, as given |
| ShoppingList.ListReason | backend/app/modules/planning/shopping_list.py:73-77 | An entry says "not in inventory" if and only if no counted item of its name has any quantity |
| ShoppingList.ShownIsClose | backend/app/modules/planning/shopping_list.py:60-80 | The shown quantity is the gap divided by the display unit's factor, rounded; converted back, it differs from the gap by at most 0.0005 display units |
| UnitSums.CoveredIsAll | backend/app/modules/planning/reservation.py:110-135 | Covered demand is at most demand and at most free stock; it is all the demand exactly when no unit is short, and all the stock exactly when no unit has any to spare |
| UnitSums.DemandAddsUp | backend/app/modules/planning/shopping_list.py:42-53 | Summed over the units concerned, the demand per unit is the total that the list compares |
| UnitSums.FreeAddsUp | backend/app/modules/planning/shopping_list.py:22-40 | Summed over the units concerned, free stock per unit is all free stock |
| UnitSums.RunTakesCovered | backend/app/modules/planning/reservation.py:39-74 | A run's rows on an ingredient are what free stock in the demanded units covers, short by at most 1e-9 a line, whatever units the lines are in |
| Conservation.AvailableIsFree | backend/app/modules/planning/shopping_list.py:22-40 | What the list takes to be available is the allocator's free stock in any unit, less reservations on retired items |
| Conservation.OwnRowsCover | backend/app/modules/planning/reservation.py:39-74 | A plan's rows on an ingredient are the demand that free stock in the demanded units covers, short by at most 1e-9 a line |
| Conservation.RowsAndGapMeetDemand | backend/app/modules/planning/service.py:96-126 | The plan's rows plus the unrounded gap fall short of the demand by the mismatch and at most 1e-9 per line more, for demand and stock in any units and whatever other plans hold |
| Conservation.NoMismatchIff | backend/app/modules/planning/shopping_list.py:28-32 | The mismatch is zero exactly when no unit is short and the list sees at least the demand, or when the list sees exactly the stock that the demand can use |
| Conservation.LostIffShortAndSpare | backend/app/modules/planning/shopping_list.py:28-32 | With nothing held on retired items the mismatch is never negative, and demand is lost exactly when one unit is short while another has stock to spare |
| Conservation.DemandIsCovered | backend/app/modules/planning/service.py:96-126 | For an ingredient kept and asked for in one base unit, with nothing held on retired items, rows plus gap equal the demand within 1e-9 per line |
| Conservation.OtherUnitIsLost | backend/app/modules/planning/shopping_list.py:28-32 | Any demand in another unit than the stock, if the stock is enough by number, is neither reserved nor listed |
| Conservation.SecondUnitIsLost | backend/app/modules/planning/shopping_list.py:58-59 | Of any demand in two units, with stock enough by number in the first, the second is neither reserved nor listed |
| Conservation.MixedUnitsLoseDemand | backend/app/modules/planning/shopping_list.py:28-32 | A litre in stock hides a demand in grams: it is neither reserved nor listed |
| Conservation.MixedDemandLosesDemand | backend/app/modules/planning/shopping_list.py:42-53 | Of 200 g and 300 ml asked for with a kilogram in stock, the millilitres are neither reserved nor listed |
| PlanTables.DeleteUndoesCreate | backend/app/models/meal_plan.py:24-34 | Deleting a plan right after creating it restores plans, days and reservations row for row |
| PlanTables.DeleteKeepsConsistent | backend/app/modules/planning/service.py:257-268 | Deletion keeps every row on a live plan and one of its days, and every item within its quantity |
| PlanTables.Session.AddPlan | backend/app/modules/planning/service.py:97-99 | The flushed plan is visible to the open transaction only |
| PlanTables.Session.AddReservation | backend/app/modules/planning/reservation.py:60-71 | An added row is visible to the open transaction only |
| PlanTables.Session.DeletePlan | backend/app/models/meal_plan.py:24-34 | Exactly the plan with the id goes, with all its rows; every other plan stays, and its rows stay in order |
| PlanTables.Session.Commit | backend/app/modules/planning/service.py:101 | The open transaction becomes the committed state |
| PlanTables.Session.Rollback | backend/app/modules/planning/service.py:102-104 | The open transaction is discarded |
| PlanningService.ReadingsAgreeIff | backend/app/modules/planning/service.py:55-61 | The planner's and the saved plan's reading of an ingredient agree if and only if it is well formed, over missing, null, empty and blank name fields and missing or null units |
| PlanningService.PlannerReads | backend/app/modules/planning/service.py:49-65 | The planner takes the canonical name, else the plain one, else "none"; a missing unit is "unit", a null one "none"; a blank name drops the ingredient |
| PlanningService.PlannerReadsInOrder | backend/app/modules/planning/service.py:49-65 | Ingredients are read one by one, in order |
| PlanningService.SavedReads | backend/app/modules/planning/schemas.py:11-16 | Reading back takes the first name field that is there and the stored quantity times servings over two, and fails without a unit, with a null or no name, or below zero |
| PlanningService.RecipeReadsBack | backend/app/modules/planning/service.py:184-193 | A recipe reads back whole: line k has the stored quantity k times servings over two, in its unit, on the day |
| PlanningService.SavedDayReads | backend/app/modules/planning/service.py:168-193 | A saved plan's lines are those of its earlier days and then one for each stored ingredient of the last day's recipe, scaled to that day's servings |
| PlanningService.SavedDayFails | backend/app/modules/planning/service.py:168-193 | A day whose recipe is gone adds no line, and a recipe that fails validation fails the plan |
| PlanningService.IngredientsReadBackIff | backend/app/modules/planning/schemas.py:11-16 | A recipe's ingredients read back as planned if and only if each is well formed, and never as fewer lines |
| PlanningService.PlanReadsBackIff | backend/app/modules/planning/service.py:168-205 | The lines recomputed from a saved plan are the lines that were planned if and only if every recipe the plan cooks is well formed |
| PlanningService.PlanIsFromStore | backend/app/modules/planning/service.py:46-87 | Every planned day cooks a stored recipe on its date |
| PlanningService.CreateKeepsConsistent | backend/app/modules/planning/service.py:96-101 | A successful reservation keeps ids unique, every row on a live plan and one of its days, and every item within its quantity |
| PlanningService.PlanAndListMeetDemand | backend/app/modules/planning/service.py:96-126 | On any consistent tables, and for lines in any units, rows plus gap are the demand up to the mismatch and 1e-9 per line |
| PlanningService.Service.Save | backend/app/modules/planning/service.py:96-104 | On success exactly the plan and the run's rows are appended to the committed tables; on refusal they are as before |
| PlanningService.Service.Finish | backend/app/modules/planning/service.py:96-126 | The committed state after a success is consistent, undone by deletion, and has this plan as the household's newest |
| PlanningService.Service.GeneratePlan | backend/app/modules/planning/service.py:45-126 | Succeeds exactly when planning and reservation do; a failure changes no table; a success adds the plan and its rows, is undone by deletion, leaves every other household's newest plan, has the dates, servings, limits and scaled lines asked for, and if its recipes are well formed the list read back is the one answered |
| PlanningService.Service.DeletePlan | backend/app/modules/planning/service.py:257-268 | Deletes plan, days and reservations for the owner in its household, and otherwise reports not found and changes nothing; every other household keeps its newest plan |
| PlanningService.Service.GetShoppingList | backend/app/modules/planning/service.py:151-205 | For a household with no plan just its manual items; otherwise the list of its own last plan, recomputed, followed by them, or the validation error |
| PlanningService.LatestIs | backend/app/modules/planning/service.py:349-361 | The newest plan is the household's own and no plan of it comes later; there is none exactly when the household has no plan |
| PlanningService.CreationLeavesLatest | backend/app/modules/planning/service.py:349-361 | A new plan is its own household's newest and leaves every other household's |
| PlanningService.DeletionLeavesLatest | backend/app/modules/planning/service.py:349-361 | Deleting another household's plan leaves this one's newest |
| PlanningService.ManualItemShown | backend/app/modules/planning/service.py:318-329 | The manual items shown are the household's unbought ones, in order of creation |
| Interleavings.NeverOverReserved | backend/app/modules/planning/service.py:46-104 | In every interleaving of any number of creations and deletions, committed reservations never exceed any item's base quantity |
| Interleavings.RowsStayAnchored | backend/app/models/meal_plan.py:24-34 | In every interleaving plan ids are unique, and every committed row is positive and lies on a live plan and one of its days |
| Interleavings.AnswerCoversDemand | backend/app/modules/planning/service.py:101-126 | In every interleaving, while the plan lives: its rows plus the gap shown from the read after the commit never exceed the demand, and fall short by at most the mismatch, what other plans released in between, and 1e-9 a line |
| Interleavings.AnswerMeetsDemand | backend/app/modules/planning/service.py:101-126 | With one base unit the shortfall is at most what others released and 1e-9 a line |
| Interleavings.OwnFitsBeside | backend/app/modules/planning/reservation.py:96-108 | One plan's rows and the other plans' rows share the stock of an ingredient |
| Interleavings.ReadersExclude | backend/app/modules/planning/service.py:296-311 | Two transactions are never both past the read for a household that has stock |
| Transactions.StepKeepsInv | backend/app/modules/planning/reservation.py:31-74 | Every lock, read, insert, commit, second read and rollback keeps the invariant |
| Transactions.CommitRowsOk | backend/app/modules/planning/service.py:100-101 | A commit keeps every item within its quantity, every row on a live plan and day, and disturbs no other transaction |
| SerialRuns.CommitStores | backend/app/modules/planning/service.py:96-104 | In every interleaving, the commit of a creation comes when all its lines are reserved, appends its plan and stores exactly the rows of the reservation run over them; every other plan's rows stay, and its locks are released |
| SerialRuns.ReadStarts | backend/app/modules/planning/reservation.py:31-40 | The read takes the lines of the plan and the other plans' rows as they are committed |
| SerialRuns.DemandStays | backend/app/modules/planning/reservation.py:49-74 | Whatever happens between, what a transaction has to reserve is what it read: the lines done and to do together never change |
| SerialRuns.CommitRemoves | backend/app/modules/planning/service.py:257-268 | In every interleaving, the commit of a deletion removes exactly the plan with its rows |
| SerialRuns.OnlyCommitsWrite | backend/app/modules/planning/service.py:96-104 | Nothing but a commit changes a table |
| SerialRuns.CanRollBack | backend/app/modules/planning/service.py:102-104 | A transaction that has begun can always be rolled back, which writes nothing and releases its locks |
| SerialRuns.CanAnswer | backend/app/modules/planning/service.py:106-126 | A transaction that has committed can always answer, which writes nothing and ends it |
| SerialRuns.SerialCreation | backend/app/modules/planning/service.py:46-104 | From any state where nobody holds a lock, some run creates the plan and ends with exactly the plan and the rows of the reservation run added |
| SerialRuns.CreationIsSerialRun | backend/app/modules/planning/service.py:45-104 | A successful creation by the service is such a run: it reaches the tables that the service commits |
| SerialRuns.SerialDeletion | backend/app/modules/planning/service.py:257-268 | From any state some run deletes a plan, and takes exactly the plan and its rows |
| InventoryLog.StepKeepsInv | backend/app/modules/inventory/service.py:33-190 | Each of the five operations by any user keeps log, table, versions and removers in agreement |
| InventoryLog.ReachableInv | backend/app/modules/inventory/service.py:33-190 | The agreement holds after every run |
| InventoryLog.DeleteKeepsInv | backend/app/modules/inventory/repository.py:89-101 | Deleting, which clears the item reference of all its events, keeps the agreement |
| InventoryLog.UndoKeepsInv | backend/app/modules/inventory/event_service.py:83-177 | Undo, in both its branches, keeps the agreement |
| InventoryLog.UndoFails | backend/app/modules/inventory/event_service.py:83-155 | When undo is refused, case by case: no own event, a removal without a state or whose item is back, or a row that is not in the household |
| InventoryLog.LatestByIs | backend/app/modules/inventory/event_service.py:86-106 | The event that undo finds is the user's own in that household on that item, and none after it is |
| InventoryLog.ApplyPatches | backend/app/modules/inventory/repository.py:59-63 | Column by column, a given value is in the row and a column left out is as it was; null clears the canonical id |
| InventoryHistory.LogAgreesWithTable | backend/app/modules/inventory/event_service.py:27-81 | The newest event's new state is the current row, and it is empty exactly when the row is absent |
| InventoryHistory.OneRemover | backend/app/modules/inventory/event_service.py:86-139 | At most one user's latest event on an item is a removal, and then the row is absent |
| InventoryHistory.UndoNeverCollides | backend/app/modules/inventory/event_service.py:107-139 | The restore branch never inserts an id that already exists |
| InventoryHistory.VersionsStrictlyIncrease | backend/app/modules/inventory/event_service.py:119-135 | Over the life of an id, deletion and restoration included, versions strictly increase up to the row's |
| InventoryHistory.StaleIsRefused | backend/app/modules/inventory/repository.py:49-87 | An expected version is refused exactly when the row has another, and a refused call changes neither row nor log |
| InventoryHistory.UndoRoundTrip | backend/app/modules/inventory/event_service.py:107-177 | After a user's change and any operations that are not theirs on the item, one undo restores every field but the version and a second restores the changed fields |
| InventoryHistory.UndoDelete | backend/app/modules/inventory/event_service.py:107-139 | After a user's delete the row stays absent until undo re-creates it with every field, the next version and the caller as owner; a further undo does nothing |
| InventoryHistory.UndoCreateIsNoOp | backend/app/modules/inventory/event_service.py:141-155 | Undoing a creation changes nothing |
| InventoryService.RenameReplacesIngredient | backend/app/modules/inventory/service.py:91-140 | A rename always sets the canonical name and id from the catalog's answer for the new name, or clears the id |
| InventoryService.NewFieldsAre | backend/app/modules/inventory/service.py:33-66 | What a new item gets, column by column: rounded non-negative quantity, the catalog's name and id, the given expiry date or the shelf life, and the confidence that goes with it |
| InventoryService.EffectiveUpdates | backend/app/modules/inventory/service.py:91-128 | What an updated item gets, column by column: rounded non-negative quantity, the catalog's name after a rename, a given expiry date, and the shelf life after a move or rename without one |
| InventoryService.Repository.Create | backend/app/modules/inventory/repository.py:22-27 | Inserts the row with version 1 |
| InventoryService.Repository.GetById | backend/app/modules/inventory/repository.py:29-35 | Finds the row in its own household only |
| InventoryService.Repository.Update | backend/app/modules/inventory/repository.py:49-67 | Column by column: a given value is in the row, one left out stays, null clears the canonical id; version up by one; user, household, confidence, status and source stay; not found, stale and null are reported exactly when they apply and change nothing |
| InventoryService.Repository.SetFields | backend/app/modules/inventory/repository.py:59-63 | Setting the given fields one after the other gives each column its value |
| InventoryService.Repository.UpdateStatus | backend/app/modules/inventory/repository.py:69-87 | Sets the status and raises the version by one, or leaves everything |
| InventoryService.Repository.Delete | backend/app/modules/inventory/repository.py:89-101 | Clears the item reference of exactly the item's events and removes the row |
| InventoryService.EventService.LogEvent | backend/app/modules/inventory/event_service.py:47-81 | Appends one event with both snapshots |
| InventoryService.EventService.FindLatest | backend/app/modules/inventory/event_service.py:83-106 | The scan finds the caller's newest event about the item in the household |
| InventoryService.EventService.UndoLast | backend/app/modules/inventory/event_service.py:83-177 | Does the undo the state machine specifies, logging the undone event with the row as its new state, or changes nothing |
| InventoryService.Service.CreateItem | backend/app/modules/inventory/service.py:33-78 | Inserts the row of the completed fields at version 1 for the user and household, and logs one event with its snapshot |
| InventoryService.Service.UpdateItem | backend/app/modules/inventory/service.py:91-140 | The row gets each given value with the quantity rounded, and its version goes up by one; one event holds both snapshots; not found and stale are reported exactly when they apply, and an error changes nothing |
| InventoryService.Service.UpdateStatus | backend/app/modules/inventory/service.py:142-166 | The row gets the status and the next version, one event holds both snapshots, and an error changes nothing |
| InventoryService.Service.DeleteItem | backend/app/modules/inventory/service.py:168-184 | The row goes, one event holds its snapshot, and the item reference of its events is cleared, that event's included |
| InventoryService.Service.UndoLastEvent | backend/app/modules/inventory/service.py:186-190 | Is the undo step; if it changes anything, the row returned is stored and one undone event is logged |
| EventBus.HistoryIsRecent | backend/app/modules/households/event_bus.py:225-234 | After any calls the history is exactly the last min(500, n) events published to the household |
| EventBus.QueueIsRecent | backend/app/modules/households/event_bus.py:207-234 | After any calls a live queue is a suffix, of at most 100, of its household's events since subscription, and what was taken came from there in order and once |
| EventBus.WaitingCanBeTaken | backend/app/modules/households/event_bus.py:90-94 | A queue can be read exactly when it is live and not empty, so the runs above cover every consumer |
| EventBus.StepKeepsInv | backend/app/modules/households/event_bus.py:207-234 | Each publish, subscribe, consume and unsubscribe keeps histories, queues and listings right |
| EventBus.ScanIsSearch | backend/app/modules/households/event_bus.py:181-204 | The one-pass scan equals the indexed search, also when ids repeat |
| EventBus.SameContents | backend/app/modules/households/event_bus.py:118-133 | Push-and-trim and append-and-cut retain the same events |
| EventBus.BusesAgree | backend/app/modules/households/event_bus.py:181-241 | Both buses give the same events after an id: those after its first match among the last 500, or none |
| EventBus.CallsAreTheBus | backend/app/modules/households/event_bus.py:207-234 | The calls of a run are the bus's own: publishing is always possible, any new queue can be subscribed and any listed one unsubscribed, which takes exactly it off the list |
| EventBus.Queue.Put | backend/app/modules/households/event_bus.py:90-94 | A full queue drops its oldest event, then takes the new one |
| EventBus.Queue.Get | backend/app/modules/households/sse.py:37 | Takes the oldest event |
| EventBus.InMemoryBus.Subscribe | backend/app/modules/households/event_bus.py:212-217 | Adds a new, empty queue to the household and changes nothing else |
| EventBus.InMemoryBus.Unsubscribe | backend/app/modules/households/event_bus.py:218-223 | Removes the queue, and the household's entry with its last queue |
| EventBus.InMemoryBus.Publish | backend/app/modules/households/event_bus.py:225-234 | Keeps the caller's own event id or draws one, appends to the history and cuts it to 500, and puts the event on each of the household's queues, dropping the oldest of 100 |
| EventBus.InMemoryBus.GetEventsAfter | backend/app/modules/households/event_bus.py:236-241 | The loop returns the events after the first match, or none |
| EventBus.ReplayFollowsFirstMatch | backend/app/modules/households/event_bus.py:236-241 | What is replayed is what follows the first event with the id, and nothing if there is none, also when ids repeat |
| EventBus.RedisBus.Publish | backend/app/modules/households/event_bus.py:118-133 | Keeps the caller's own event id or draws one, pushes, and trims to the last 500 entries |
| EventBus.RedisBus.GetEventsAfter | backend/app/modules/households/event_bus.py:181-204 | The loop returns the events after the first match among the decodable entries, or none |
| EventBus.DecodesInOrder | backend/app/modules/households/event_bus.py:192-203 | Entries are decoded in order, and one that does not decode is passed over |
| Sse.EventStream.Next | backend/app/modules/households/sse.py:15-43 | One resumption of the generator: first "connected", then the replay event by event, then the head of the queue, or a keep-alive when it is empty |
| Sse.RunKeepsInv | backend/app/modules/households/sse.py:22-43 | Over every interleaving, overflow included, the replay is sent in order before anything live, and what was sent live is the events since the subscription up to the queue but for the dropped ones, in order and once each |
| Sse.StreamSends | backend/app/modules/households/router.py:231-240 | With distinct event ids, a live stream has replayed the events after the given one up to the read, if it was retained, and sent live those since the subscription that the queue did not drop |
| Sse.SentAsOftenAs | backend/app/modules/households/sse.py:24-41 | Each later event comes once from the replay if it was read and the last one retained, and once live if it came after the subscription and was not dropped; so it is missing exactly when neither holds |
| Sse.ReconnectLosesNothing | backend/app/modules/households/sse.py:24-41 | If the last event was retained and the queue never overflowed, every later event is sent once, and twice exactly if published between subscription and read |
| Sse.NothingMissingIff | backend/app/modules/households/sse.py:24-41 | For every run with distinct ids: nothing is missing if and only if the last event was retained or was the newest at subscription, and all that the queue dropped came with the replay |
| Sse.StreamIsConnection | backend/app/modules/households/router.py:231-240 | A stream's subscription on the bus, among any calls by others, behaves as one of these runs and reads the bus's history |
| Membership.MembershipHolds | backend/app/modules/households/service.py:35-175 | After every run each household has exactly one owner and hence a member, no pair repeats, members' households exist, invite codes differ, and no user has two active memberships |
| MembershipRows.StepsAreOperations | backend/app/modules/households/service.py:35-175 | The steps of a run are the operations, and only a used id or code, joining a missing household and an heir who is no member are left out |
| Membership.RunKeepsInv | backend/app/modules/households/service.py:35-175 | The invariant holds over every run |
| Membership.StepKeepsInv | backend/app/modules/households/service.py:35-175 | Each operation keeps the invariant |
| Membership.LeaveKeepsInv | backend/app/modules/households/service.py:90-115 | Leaving keeps one owner per household by promoting the longest member, or deletes the empty household |
| Membership.RemoveMemberKeepsInv | backend/app/modules/households/service.py:117-149 | Removing anyone, oneself included, keeps the invariant whichever remaining member is listed first |
| Membership.SettledUnlessStranded | backend/app/modules/households/service.py:90-110 | Every operation keeps a user's one active membership, except that leaving as the last member of the active household while belonging to another ends it |
| Membership.RunSettles | backend/app/modules/households/service.py:35-175 | Over every run without such a departure by the user, a user with memberships has exactly one active one |
| Membership.LeavingAloneStrands | backend/app/modules/households/service.py:100-105 | A run after which a user has a membership and none active |
| Membership.FirstHouseholdNeedsNoSwitch | backend/app/core/auth.py:107-133 | Creating the first household at sign-in, without the switch, leaves the same rows as the service does |
| HouseholdService.Repository.GetByInviteCode | backend/app/modules/households/repository.py:66-70 | Finds a household with the code, or reports that no household has it |
| HouseholdService.Repository.GetMembership | backend/app/modules/households/repository.py:48-55 | Finds the user's row in the household, or reports that there is none |
| MembershipRows.FindIsFirst | backend/app/modules/households/repository.py:48-55 | The row found is the first of the pair |
| HouseholdService.Repository.ListMembershipsForUser | backend/app/modules/households/repository.py:57-64 | Lists exactly the user's rows |
| MembershipRows.MembershipsInOrder | backend/app/modules/households/repository.py:57-64 | Memberships are listed in order of creation |
| MembershipRows.MembersInOrder | backend/app/modules/households/service.py:96-99 | So are members |
| HouseholdService.Repository.Create | backend/app/modules/households/repository.py:72-89 | Inserts the household with version 1 and its owner, active |
| HouseholdService.Repository.AddMember | backend/app/modules/households/repository.py:91-103 | Appends an active member row |
| HouseholdService.Repository.UpdateName | backend/app/modules/households/repository.py:105-112 | Changes the name and raises the version |
| Membership.RemoveTakesOne | backend/app/modules/households/repository.py:114-116 | Removing a row takes the user out of that household and leaves every other household's members and every other user's memberships, in order |
| MembershipRows.RemovalKeepsOrder | backend/app/modules/households/repository.py:114-116 | Removing a pair leaves the other rows in their order |
| Membership.DropTakesAll | backend/app/modules/households/repository.py:118-120 | Deleting a household takes all its members and leaves every other household's, in order |
| Membership.PromoteChangesRole | backend/app/modules/households/repository.py:122-126 | Promotion changes the role of the user's row and no other row or field |
| HouseholdService.Repository.RemoveMembership | backend/app/modules/households/repository.py:114-116 | Afterwards the user is not in the household; other households' members and other users' memberships are as before, in order |
| HouseholdService.Repository.DeleteHousehold | backend/app/modules/households/repository.py:118-120 | Afterwards the household and its members are gone; every other household and its members are as before, in order |
| HouseholdService.Repository.Promote | backend/app/modules/households/repository.py:122-126 | Row by row: the user's row has the owner's role, and every other row and field is as before |
| HouseholdService.Repository.SetActiveMembership | backend/app/modules/households/repository.py:128-142 | The loop makes the target the user's only active membership; without a target nothing changes |
| MembershipRows.ActivateIs | backend/app/modules/households/repository.py:128-142 | Row by row: the user's rows are active exactly in the target household, and nothing else changes |
| HouseholdService.Service.CreateHousehold | backend/app/modules/households/service.py:35-45 | The household is stored at version 1 with the user as owner, and is the user's only active one |
| HouseholdService.Service.UpdateHousehold | backend/app/modules/households/service.py:47-68 | Not found exactly for a missing household or an outsider; otherwise renames with the next version, and makes the household the user's only active one if asked |
| HouseholdService.Service.JoinHousehold | backend/app/modules/households/service.py:70-88 | The user is a member of the household with the code, which is their only active one, or no household has the code and nothing changes |
| HouseholdService.Service.LeaveHousehold | backend/app/modules/households/service.py:90-115 | Not found exactly for a missing household or an outsider; otherwise the user is gone from it, and the household is gone exactly if nobody else was in it |
| MembershipRows.LeaveIs | backend/app/modules/households/service.py:90-115 | Row by row: with nobody left the household goes and no other membership is switched to; else the user's oldest row becomes the active one if the lost one was, and the member with the oldest row becomes owner if none is left |
| MembershipRows.LeavingTakesTheMember | backend/app/modules/households/service.py:90-105 | Leaving succeeds exactly for a member, who is gone after it |
| HouseholdService.Service.RemoveMember | backend/app/modules/households/service.py:117-149 | Succeeds only if the actor has an owner's row and the user a row in the household; forbidden only to a member who is not an owner; not found only if one of them has no row; an error changes nothing; on success the user is gone and the other members are listed as before |
| HouseholdService.Service.TakeOut | backend/app/modules/households/service.py:128-149 | The part after the checks does the removal step |
| MembershipRows.RemovalOutcome | backend/app/modules/households/service.py:117-126 | Each outcome of a removal has its cause: an owner and a member, a member who is not an owner, or someone who is no member |
| MembershipRows.RemovalTakesTheMember | backend/app/modules/households/service.py:128-149 | After a removal the user is not in the household, and the other members are listed as before |
| MembershipRows.OnlyOwnersRemove | backend/app/modules/households/service.py:121-122 | In every state, a removal attempted by anyone but an owner changes nothing |
| MembershipRows.RemoveMemberIs | backend/app/modules/households/service.py:128-149 | Row by row: the removed user's oldest row becomes the active one if the lost one was, and the heir becomes owner if none is left; with nobody left the household goes |
| HouseholdService.Service.SwitchAway | backend/app/modules/households/service.py:107-110 | After an active membership is lost, the user's oldest one becomes active |
| HouseholdService.FirstActiveIsActive | backend/app/modules/households/service.py:151-164 | The first active membership is found whenever there is one |
| HouseholdService.Service.GetActiveHouseholdId | backend/app/modules/households/service.py:151-175 | Names a household the user belongs to: the active one if any, else the oldest; a user without any gets a first one, and otherwise nothing changes |

## Left out

- Units.NormalizeIsIdempotent: stripping removes the characters that Python's does, but only ASCII letters are lower-cased.
- Interleavings.NeverOverReserved: assumes inventory rows are not edited while reservations exist, since no code re-balances them, and a database that honours row locks (SQLite ignores them).
- Interleavings.NeverOverReserved: the lines of a plan are arbitrary lines on its days, so the planner's run between lock and read is not a step of its own.
- PlanningService.Service.GeneratePlan: needs at least one day, as the request schema demands (three to seven); the plan's id is fresh; the reservations are read for the list in the same step as the commit, and Interleavings.AnswerCoversDemand covers a read that comes later.
- Floating-point rounding: quantities are reals; only the 1e-9 cut-off and the three-decimal rounding are kept.
- Names and tags as text: names are opaque normalised keys, so a shopping item's unit is the normalised spelling.
- The shopping list that the planner itself computes, which the service discards.
- Surrogate ids of days and reservation rows: a day is known by its plan and date. Timestamps are positions in a sequence.
- Deleting households or items that other tables still refer to: foreign-key errors are not modelled.
- Interleavings inside inventory and membership calls: each call is one atomic step, although the version check is a read followed by a write.
- InventoryService.Service.UpdateItem: the confidence that the code computes for a moved or renamed item never reaches the row, and the model does not compute it. Catalog and shelf-life rules are function parameters.
- HouseholdService.Service.RemoveMember: which remaining member the database lists first is a parameter, because the relation has no order.
- HouseholdService.Service.CreateHousehold: the id and the invite code are parameters; drawing codes until one is unused is not modelled.
- Publication of household events when an inventory event is logged; Redis transport, pub/sub, history expiry, and the fall-back bus after a Redis error.
- Sse.NothingMissingIff: event ids are taken to be distinct; drawn ids are, and a caller that repeats one of its own is searched to its first match.
- Sse.EventStream.Next: an event's id line and data line are one chunk, disconnection is the caller no longer resuming, and time is the empty queue at a resumption.
- Adding manual shopping-list entries and their idempotency keys, the latest-plan view, list queries, routers, authentication, dashboard, mobile apps, migrations and infrastructure.
