# Production durations, backward planning and chart generation (Axelor ERP)

This project models three services of the Axelor ERP in Dafny and proves properties of the models.

- **Cycle durations and lead times of production process lines**
  (`ProdProcessLineServiceImpl`, module `ProdProcessLineService` in
  `prod_process_line.dfy`).
  - A line needs a number of cycles for a quantity. This is the quantity
    itself when the capacity per cycle is 0, and otherwise the quotient
    rounded up.
  - A machine (or machine-and-human) work center adds a fixed overhead:
    starting + ending + (cycles − 1) × setup.
  - The machine and human durations of a line follow from those. The planned
    duration is the machine duration when the machine time per cycle is at
    least the human time per cycle, and the human duration otherwise.
  - A line without a work center fails with an error naming the process and
    the line. So does a machine-capable work center without a machine.
  - The entire duration of a process is the sum of its line durations.
  - The lead time adds up, over the priorities that occur, the longest line
    at each priority. Lines with the same priority run side by side.
  - The next priority is the smallest line priority above a given one.
  - The loops of the source (the running total, the per-priority map and its
    sum) are methods. Each is proved equal to a reference function, and the
    properties are proved about those functions.
- **Backward ("at the latest", infinite capacity) placement of an operation
  order** (module `OperationOrderPlanning` in
  `operation_order_planning.dfy`). The order is a class whose planned start,
  end and duration the methods set in place.
  - The deadline is the earlier of the order's own planned end and the next
    operation's start.
  - Without a machine, the order ends at the deadline and starts its nominal
    duration before it.
  - With a machine, it takes the latest free slot the machine calendar offers
    in the window that ends at the deadline. It ends no later than the
    deadline only when the calendar keeps the slot within that window.
  - `computePlannedStartDateT` subtracts the entire cycle duration from the
    planned end. Java's `(int)` narrowing of that duration is written out.
- **Chart generation of the studio** (`ChartBuilderService`, module
  `ChartBuilder` in `chart_builder.dfy`). The service is a class whose state
  is the search fields, the default-value records and the onNew action it
  collects for one chart.
  - The group-field expression depends on the date type. The date branch is
    taken when the type name is a substring of
    `"LocalDate,DateTime,LocalDateTime"`, so `Date`, `Time` and even the empty
    name qualify.
  - The filter conditions are joined with AND/OR.
  - The JPQL query has its SELECT, FROM, WHERE and GROUP BY parts.
  - The search-fields block lists one entry per parameter filter.
  - An onNew action gives the parameters their default values.
  - The chart's XML text is assembled from these pieces.
  - The injected services are fields of a `Services` value: the relational
    and simple filter conditions, tag substitution, the target-field lookup,
    the field-type lookup and the model-name lookup. Each is an arbitrary
    function.

The entities are in `production_db.dfy` (module `ProductionDb`): work
centers, process lines and processes are datatypes, and the operation order
is a class. `wrappers.dfy` holds `Option` and `Result`. Exceptions of the
source are `Failure` values of `ProdError`. Quantities and capacities are
natural numbers and durations are integers, in seconds. Dates are integer
timestamps in seconds.

Behaviours of the code worth noting:
- The planned duration of a line is chosen by comparing the per-cycle times,
  not the line's total machine and human durations.
- The first filter's AND/OR operator is never used.
- A type name such as `Time` takes the date branch of the group-field
  expression.

## Model

| member | source | states |
|---|---|---|
| ProdProcessLineService.NbCycles | axelor-production/src/main/java/com/axelor/apps/production/service/ProdProcessLineServiceImpl.java:145-152 | capacity 0 gives the quantity itself; otherwise n satisfies (n − 1)·capacity < qty ≤ n·capacity, the rounding-up of the quotient |
| ProdProcessLineService.NbCyclesIsCeiling | axelor-production/src/main/java/com/axelor/apps/production/service/ProdProcessLineServiceImpl.java:148-152 | any m with (m − 1)·capacity < qty ≤ m·capacity is the cycle count: the ceiling is unique |
| ProdProcessLineService.NbCyclesExample | axelor-production/src/main/java/com/axelor/apps/production/service/ProdProcessLineServiceImpl.java:145-152 | 10 units at capacity 3 take 4 cycles; at capacity 0 they take 10 |
| ProdProcessLineService.DurationNbCyclesPairErrors | axelor-production/src/main/java/com/axelor/apps/production/service/ProdProcessLineServiceImpl.java:135-165 | a missing work center fails, and only it fails, with the error naming the process code (or "null") and the line; a machine or both-type work center without a machine fails with the work center's name exactly then; the computation succeeds exactly when neither applies |
| ProdProcessLineService.DurationNbCyclesPairValue | axelor-production/src/main/java/com/axelor/apps/production/service/ProdProcessLineServiceImpl.java:134-175 | on success the pair holds the cycle count and a fixed duration of starting + ending + (cycles − 1) × setup for a machine-capable work center and 0 for a human one |
| ProdProcessLineService.HumanWorkCenterIgnoresMachine | axelor-production/src/main/java/com/axelor/apps/production/service/ProdProcessLineServiceImpl.java:154-157 | a human work center always succeeds and its result does not depend on whether a machine is set |
| ProdProcessLineService.ZeroCyclesOverhead | axelor-production/src/main/java/com/axelor/apps/production/service/ProdProcessLineServiceImpl.java:145-175 | a quantity of 0 on a machine-capable work center with a machine gives 0 cycles and a fixed duration of starting + ending − setup, which is negative exactly when the setup exceeds starting + ending |
| ProdProcessLineService.ZeroCyclesNegativeExample | axelor-production/src/main/java/com/axelor/apps/production/service/ProdProcessLineServiceImpl.java:145-175 | a setup of 5 with no starting or ending duration gives a fixed duration of −5 for a quantity of 0 |
| ProdProcessLineService.GetDurationNbCyclesPair | axelor-production/src/main/java/com/axelor/apps/production/service/ProdProcessLineServiceImpl.java:131-176 | the step-by-step accumulation of the duration returns the pair, or the error, of the reference definition |
| ProdProcessLineService.MaxDuration | axelor-production/src/main/java/com/axelor/apps/production/service/ProdProcessLineServiceImpl.java:178-180 | 0 for no durations; otherwise one of the durations, and no duration is larger |
| ProdProcessLineService.MaxDurationSnoc | axelor-production/src/main/java/com/axelor/apps/production/service/ProdProcessLineServiceImpl.java:178-180 | the maximum of a list extended by d is d when d is larger (or the list was empty), else the old maximum |
| ProdProcessLineService.SelectPlanned | axelor-production/src/main/java/com/axelor/apps/production/service/ProdProcessLineServiceImpl.java:68-79 | the machine duration is chosen when the machine time per cycle is at least the human one (ties go to the machine), the human duration otherwise; the 0 fallback is never taken |
| ProdProcessLineService.EntireCycleDurationsSpec | axelor-production/src/main/java/com/axelor/apps/production/service/ProdProcessLineServiceImpl.java:57-86 | errors of the cycle pair propagate unchanged; otherwise machine = fixed + cycles × machine-per-cycle, human = cycles × human-per-cycle, and the result is the selected one of the two |
| ProdProcessLineService.NullPerCycleCountsAsZero | axelor-production/src/main/java/com/axelor/apps/production/service/ProdProcessLineServiceImpl.java:64-67 | a missing machine or human per-cycle duration gives the same durations as 0 |
| ProdProcessLineService.ComputeEntireCycleDuration | axelor-production/src/main/java/com/axelor/apps/production/service/ProdProcessLineServiceImpl.java:53-87 | returns the reference duration whether or not an order is given; on success with an order, its planned machine and human durations become the line's; on failure the order is untouched; no other field of the order changes |
| ProdProcessLineService.LineDurations | axelor-production/src/main/java/com/axelor/apps/production/service/ProdProcessLineServiceImpl.java:93-95 | on success there is one duration per line |
| ProdProcessLineService.LineDurationsStep | axelor-production/src/main/java/com/axelor/apps/production/service/ProdProcessLineServiceImpl.java:93-95 | handling line i extends the durations of the lines before it by that line's duration, or stops at the first error |
| ProdProcessLineService.LineDurationsSpec | axelor-production/src/main/java/com/axelor/apps/production/service/ProdProcessLineServiceImpl.java:93-95 | the durations succeed exactly when every line does, then the k-th is line k's; a failure is the error of the first failing line, all lines before it succeeding |
| ProdProcessLineService.LineDurationsPrefixFailure | axelor-production/src/main/java/com/axelor/apps/production/service/ProdProcessLineServiceImpl.java:93-95 | once a prefix of the lines fails, the whole list fails with the same error: the first exception ends the loop |
| ProdProcessLineService.ComputeEntireDuration | axelor-production/src/main/java/com/axelor/apps/production/service/ProdProcessLineServiceImpl.java:89-97 | the running total equals the sum of the line durations, or the first line error |
| ProdProcessLineService.Priorities | axelor-production/src/main/java/com/axelor/apps/production/service/ProdProcessLineServiceImpl.java:105 | one priority per line, the line's own |
| ProdProcessLineService.AtPriorityMembers | axelor-production/src/main/java/com/axelor/apps/production/service/ProdProcessLineServiceImpl.java:103-111 | the durations at priority p are non-empty exactly when p occurs; each is the duration of a line at p and every line at p contributes its duration |
| ProdProcessLineService.AtPrioritySnoc | axelor-production/src/main/java/com/axelor/apps/production/service/ProdProcessLineServiceImpl.java:104-111 | a new line adds its duration to its own priority's durations and to no other's |
| ProdProcessLineService.MaxPerPriorityKeys | axelor-production/src/main/java/com/axelor/apps/production/service/ProdProcessLineServiceImpl.java:109-110 | a new line adds its priority to the map's keys and no other key |
| ProdProcessLineService.MaxPerPriorityStep | axelor-production/src/main/java/com/axelor/apps/production/service/ProdProcessLineServiceImpl.java:105-111 | the per-priority maxima of the lines plus one are the old map with the new duration put at its priority when the priority is new or the duration larger, and unchanged otherwise |
| ProdProcessLineService.MaxPerPriorityLineStep | axelor-production/src/main/java/com/axelor/apps/production/service/ProdProcessLineServiceImpl.java:104-111 | the same update for the line at index i of a process |
| ProdProcessLineService.MaxPerPriorityAt | axelor-production/src/main/java/com/axelor/apps/production/service/ProdProcessLineServiceImpl.java:106-110 | the entry at each priority after one more line: the new duration at its priority when new or larger, the old entry otherwise |
| ProdProcessLineService.SumValuesPick | axelor-production/src/main/java/com/axelor/apps/production/service/ProdProcessLineServiceImpl.java:114 | the sum of a map's values can start from any key: the iteration order of the map does not matter |
| ProdProcessLineService.SumValuesUpdate | axelor-production/src/main/java/com/axelor/apps/production/service/ProdProcessLineServiceImpl.java:110-114 | putting v at key k changes the sum by v minus the value k had (0 if none) |
| ProdProcessLineService.MaxPerPriorityEmpty | axelor-production/src/main/java/com/axelor/apps/production/service/ProdProcessLineServiceImpl.java:103-114 | no lines give an empty map and a lead time of 0 |
| ProdProcessLineService.LeadTimeDistinctPriorities | axelor-production/src/main/java/com/axelor/apps/production/service/ProdProcessLineServiceImpl.java:99-115 | when all priorities differ, the lead time is the sum of all line durations, the entire duration |
| ProdProcessLineService.AtPriorityAll | axelor-production/src/main/java/com/axelor/apps/production/service/ProdProcessLineServiceImpl.java:104-111 | when all lines share priority p, the durations at p are all the durations in order |
| ProdProcessLineService.LeadTimeSinglePriority | axelor-production/src/main/java/com/axelor/apps/production/service/ProdProcessLineServiceImpl.java:99-115 | when all lines share one priority, the lead time is the longest line duration |
| ProdProcessLineService.LeadTimeNewPriority | axelor-production/src/main/java/com/axelor/apps/production/service/ProdProcessLineServiceImpl.java:109-114 | a line at a priority not seen before adds its whole duration to the lead time |
| ProdProcessLineService.LeadTimeExample | axelor-production/src/main/java/com/axelor/apps/production/service/ProdProcessLineServiceImpl.java:99-115 | lines of 100 and 150 at priority 1 and of 80 at priority 2 have a lead time of 230 |
| ProdProcessLineService.LeadTimeBounds | axelor-production/src/main/java/com/axelor/apps/production/service/ProdProcessLineServiceImpl.java:89-115 | with non-negative durations the lead time is at least every line duration and between 0 and the entire duration |
| ProdProcessLineService.LeadTimeAtLeastLine | axelor-production/src/main/java/com/axelor/apps/production/service/ProdProcessLineServiceImpl.java:109-114 | with non-negative durations no line takes longer than the lead time |
| ProdProcessLineService.LeadTimeAtMostSum | axelor-production/src/main/java/com/axelor/apps/production/service/ProdProcessLineServiceImpl.java:89-115 | with non-negative durations the lead time never exceeds the entire duration |
| ProdProcessLineService.MaxPerPriorityNonNegative | axelor-production/src/main/java/com/axelor/apps/production/service/ProdProcessLineServiceImpl.java:109-110 | with non-negative durations every per-priority maximum is non-negative |
| ProdProcessLineService.SumValuesNonNegative | axelor-production/src/main/java/com/axelor/apps/production/service/ProdProcessLineServiceImpl.java:114 | the sum of non-negative values is non-negative |
| ProdProcessLineService.ComputeLeadTimeDuration | axelor-production/src/main/java/com/axelor/apps/production/service/ProdProcessLineServiceImpl.java:99-115 | the map kept in the loop is the per-priority maxima of the lines handled so far, and the result is the sum over priorities of each priority's longest line, or the first line error |
| ProdProcessLineService.SumMapValues | axelor-production/src/main/java/com/axelor/apps/production/service/ProdProcessLineServiceImpl.java:114 | summing the values one key at a time gives the sum of the map's values |
| ProdProcessLineService.MinPriorityAbove | axelor-production/src/main/java/com/axelor/apps/production/service/ProdProcessLineServiceImpl.java:124-128 | none exactly when no line priority exceeds the given one; otherwise a line's priority, above the given one and not above any line priority that exceeds it |
| ProdProcessLineService.GetNextPriority | axelor-production/src/main/java/com/axelor/apps/production/service/ProdProcessLineServiceImpl.java:117-129 | a result exists exactly when the priority and the process are given and some line priority is greater; it is then the smallest such priority |
| ProdProcessLineService.NextPriorityExample | axelor-production/src/main/java/com/axelor/apps/production/service/ProdProcessLineServiceImpl.java:117-129 | over priorities 1, 1, 3, 5 the next after 1 is 3 and after 5 there is none |
| OperationOrderPlanning.MinDate | axelor-production/src/main/java/com/axelor/apps/production/service/operationorder/planning/OperationOrderPlanningAtTheLatestInfiniteCapacityService.java:86 | the earlier of two dates: not after either and equal to one of them |
| OperationOrderPlanning.AtTheLatestWithoutMachine | axelor-production/src/main/java/com/axelor/apps/production/service/operationorder/planning/OperationOrderPlanningAtTheLatestInfiniteCapacityService.java:83-116 | without a machine the order ends at the earlier of its planned end and the next operation's date, starts its duration before, and its planned duration is that duration |
| OperationOrderPlanning.AtTheLatestWithMachine | axelor-production/src/main/java/com/axelor/apps/production/service/operationorder/planning/OperationOrderPlanningAtTheLatestInfiniteCapacityService.java:83-103 | with a machine the slot is searched in [deadline − duration, deadline] and the order takes the slot's start and end, with their difference as planned duration |
| OperationOrderPlanning.AtTheLatestWellFormed | axelor-production/src/main/java/com/axelor/apps/production/service/operationorder/planning/OperationOrderPlanningAtTheLatestInfiniteCapacityService.java:96-115 | in both branches the planned duration is end − start; with a non-negative duration (no machine) or a well-formed slot (machine) start ≤ end and the duration is non-negative |
| OperationOrderPlanning.AtTheLatestNoLaterThanDeadline | axelor-production/src/main/java/com/axelor/apps/production/service/operationorder/planning/OperationOrderPlanningAtTheLatestInfiniteCapacityService.java:83-116 | when the calendar's slot ends by the deadline, the order ends no later than its own planned end and the next operation's date, with or without a machine |
| OperationOrderPlanning.PlanWithStrategyNotOutSourced | axelor-production/src/main/java/com/axelor/apps/production/service/operationorder/planning/OperationOrderPlanningAtTheLatestInfiniteCapacityService.java:78-119 | the order's planned start, end and duration become the at-the-latest placement of its old planned end; nothing else changes |
| OperationOrderPlanning.PlanWithStrategy | axelor-production/src/main/java/com/axelor/apps/production/service/operationorder/planning/OperationOrderPlanningAtTheLatestInfiniteCapacityService.java:69-76 | an outsourced order, and only it, goes to the outsourced path and is not placed here; any other order is placed at the latest |
| OperationOrderPlanning.ToInt32 | axelor-production/src/main/java/com/axelor/apps/production/service/operationorder/planning/OperationOrderPlanningAtTheLatestInfiniteCapacityService.java:128 | the `(int)` cast: a 32-bit value congruent to its argument modulo 2^32, and the argument itself when it fits |
| OperationOrderPlanning.ComputePlannedStartDateT | axelor-production/src/main/java/com/axelor/apps/production/service/operationorder/planning/OperationOrderPlanningAtTheLatestInfiniteCapacityService.java:121-134 | with a work center, the planned end minus the cycle duration narrowed to int; without one, the planned end |
| OperationOrderPlanning.PlannedStartBeforeEnd | axelor-production/src/main/java/com/axelor/apps/production/service/operationorder/planning/OperationOrderPlanningAtTheLatestInfiniteCapacityService.java:124-130 | a cycle duration that fits in an int is subtracted unchanged, so the start is not after the planned end |
| ChartBuilder.Contains | axelor-studio/src/main/java/com/axelor/studio/service/builder/ChartBuilderService.java:200 | `contains` holds exactly when the substring occurs at some position |
| ChartBuilder.OccursAtShift | axelor-studio/src/main/java/com/axelor/studio/service/builder/ChartBuilderService.java:200 | an occurrence at position i + 1 is an occurrence at i in the string without its first character |
| ChartBuilder.GroupFieldName | axelor-studio/src/main/java/com/axelor/studio/service/builder/ChartBuilderService.java:189-220 | no expression exactly when there is no field |
| ChartBuilder.DateNamesContain | axelor-studio/src/main/java/com/axelor/studio/service/builder/ChartBuilderService.java:199-200 | "Date", "Time" and "LocalDateTime" are substrings of the date type names |
| ChartBuilder.ShortTypeNamesAreDates | axelor-studio/src/main/java/com/axelor/studio/service/builder/ChartBuilderService.java:199-204 | a field of type name "Date", "Time" or "LocalDateTime" grouped by year gives YEAR(self.name) |
| ChartBuilder.GroupFieldNameBranches | axelor-studio/src/main/java/com/axelor/studio/service/builder/ChartBuilderService.java:199-217 | a non-date type ignores the date type; outside the date branch the target defaults to name + ".name" after "self."; inside it the target is ignored |
| ChartBuilder.JoinFilters | axelor-studio/src/main/java/com/axelor/studio/service/builder/ChartBuilderService.java:336-366 | no condition exactly when there are no filters |
| ChartBuilder.ConnectedSnoc | axelor-studio/src/main/java/com/axelor/studio/service/builder/ChartBuilderService.java:358-363 | appending a filter appends its connector and its condition |
| ChartBuilder.JoinFiltersFromFront | axelor-studio/src/main/java/com/axelor/studio/service/builder/ChartBuilderService.java:340-366 | the first condition stands alone and every later one is preceded by " AND " when its logicOp is 0 and " OR " otherwise |
| ChartBuilder.DefaultValueRecord | axelor-studio/src/main/java/com/axelor/studio/service/builder/ChartBuilderService.java:286-316 | a record exactly when a default value is given; it names the field and its expression starts with "eval:" |
| ChartBuilder.SearchEntriesExactlyForParameters | axelor-studio/src/main/java/com/axelor/studio/service/builder/ChartBuilderService.java:353-356 | exactly one search-field entry per parameter filter, so at most one per filter, and some entry exactly when some filter is a parameter |
| ChartBuilder.DefaultRecordsExactlyForDefaults | axelor-studio/src/main/java/com/axelor/studio/service/builder/ChartBuilderService.java:353-356 | some default-value record exactly when some parameter filter has a default value |
| ChartBuilder.FilterStep | axelor-studio/src/main/java/com/axelor/studio/service/builder/ChartBuilderService.java:340-364 | handling one filter joins its condition to those before and adds an entry and a record exactly when it is a parameter |
| ChartBuilder.IndentedAppend | axelor-studio/src/main/java/com/axelor/studio/service/builder/ChartBuilderService.java:264-266 | the lines of two lists of entries are the lines of the first followed by those of the second |
| ChartBuilder.IndentedInOrder | axelor-studio/src/main/java/com/axelor/studio/service/builder/ChartBuilderService.java:260-270 | each entry appears on its own line after the entries added before it and before those added after it |
| ChartBuilder.AggFieldOf | axelor-studio/src/main/java/com/axelor/studio/service/builder/ChartBuilderService.java:152-154 | an aggregate expression exactly when an aggregate field is chosen |
| ChartBuilder.WhereExactlyWithFilters | axelor-studio/src/main/java/com/axelor/studio/service/builder/ChartBuilderService.java:162-171 | the query with a condition is the query without one with the WHERE clause inserted right after FROM |
| ChartBuilder.AggregateExactlyWithAggregateField | axelor-studio/src/main/java/com/axelor/studio/service/builder/ChartBuilderService.java:145-177 | the query starts with the SELECT list; with an aggregate the list ends with its "aggField" column and the query ends grouping by it, without one the list ends with the group field and so does the query |
| ChartBuilder.OnInitExactlyWithAction | axelor-studio/src/main/java/com/axelor/studio/service/builder/ChartBuilderService.java:91-97 | the chart text starts with the opening tag, which has an onInit attribute naming the action exactly when there is an onNew action |
| ChartBuilder.GroupByExactlyWithAggregate | axelor-studio/src/main/java/com/axelor/studio/service/builder/ChartBuilderService.java:107-114 | the chart text ends with the series closing; with an aggregate it is the text without one with groupBy="aggField" inserted before that closing |
| ChartBuilder.ChartBuilderService.constructor | axelor-studio/src/main/java/com/axelor/studio/service/builder/ChartBuilderService.java:58-62 | the service starts with no search fields, no records and no onNew action |
| ChartBuilder.ChartBuilderService.GetOnNewAction | axelor-studio/src/main/java/com/axelor/studio/service/builder/ChartBuilderService.java:128-133 | returns the current onNew action |
| ChartBuilder.ChartBuilderService.SetDefaultValue | axelor-studio/src/main/java/com/axelor/studio/service/builder/ChartBuilderService.java:286-316 | appends the default-value record of the field, if a default is given, and changes nothing else |
| ChartBuilder.ChartBuilderService.AddSearchField | axelor-studio/src/main/java/com/axelor/studio/service/builder/ChartBuilderService.java:370-399 | appends the target field's search entry (typed, with its selection, or as a reference) and its default-value record |
| ChartBuilder.ChartBuilderService.CreateFilters | axelor-studio/src/main/java/com/axelor/studio/service/builder/ChartBuilderService.java:336-368 | returns the joined condition of the filters and appends the entries and records of the parameter filters, in order |
| ChartBuilder.ChartBuilderService.GetSearchFields | axelor-studio/src/main/java/com/axelor/studio/service/builder/ChartBuilderService.java:260-270 | the block holds the collected entries, each on its own line in insertion order, between the opening and closing tags |
| ChartBuilder.ChartBuilderService.SetOnNewAction | axelor-studio/src/main/java/com/axelor/studio/service/builder/ChartBuilderService.java:325-334 | when records were collected the onNew action is "action-<name>-default" on the chart's model with those records; otherwise it is left as it was |
| ChartBuilder.ChartBuilderService.PrepareQuery | axelor-studio/src/main/java/com/axelor/studio/service/builder/ChartBuilderService.java:143-178 | returns the query of the chart for the joined filter condition and the aggregate expression, and collects the parameters' entries and records |
| ChartBuilder.ChartBuilderService.CollectView | axelor-studio/src/main/java/com/axelor/studio/service/builder/ChartBuilderService.java:84-89 | the reset, prepareQuery and setOnNewAction of getView: the query for the joined filters, an aggregate exactly when one is chosen, the entries and records of the parameter filters, and an onNew action exactly when some parameter filter has a default value |
| ChartBuilder.ChartBuilderService.AssembleChart | axelor-studio/src/main/java/com/axelor/studio/service/builder/ChartBuilderService.java:91-114 | the text assembly of getView gives the chart text for the query, the aggregate, the onNew action and the collected search fields |
| ChartBuilder.ChartBuilderService.GetView | axelor-studio/src/main/java/com/axelor/studio/service/builder/ChartBuilderService.java:82-114 | after a reset, the search fields are exactly the parameter filters' entries, the records their defaults, the onNew action exists exactly when some parameter filter has a default value, and the text is the chart for the prepared query |

## Left out

- `XMLViews.fromXML` and the returned view object are not part of this model. `GetView` returns the XML text.
- Logging, I18n message lookup and the exception categories are left out. Errors are datatype values that carry the names the messages quote.
- The filter service, view loader and model repository are arbitrary functions passed in. Their own behaviour, including the condition text and the tag substitution, is not part of this model.
- The machine calendar search, the order's nominal duration and the next operation's date are parameters of the planning methods. The entire cycle duration of `computePlannedStartDateT` is a parameter too. `LocalDateTimeHelper.min` is not part of this model and is taken as the earlier of two present dates.
- OperationOrderPlanning.ComputePlannedStartDateT and OperationOrderPlanning.PlanWithStrategyNotOutSourced: failures of the collaborators are not modelled. The durations, the next operation's date and the calendar's slot are plain values, so the `AxelorException` that the cycle-duration computation, the duration and next-operation lookups or the calendar search can throw never arises.
- OperationOrderPlanning.AtTheLatestNoLaterThanDeadline: that the calendar's slot ends by the deadline is a hypothesis. The calendar search is not part of this model, so nothing bounds the slot it returns.
- The outsourced placement and the check that the planned start is not before the current time belong to a base class that is not part of this model. `PlanWithStrategy` leaves an outsourced order unchanged.
- ProdProcessLineService.NbCycles: quantities and capacities are natural numbers. `BigDecimal` fractions, scale and negative quantities are not modelled, and `RoundingMode.UP` is the ceiling only for these.
- ProdProcessLineService.ComputeEntireCycleDuration: durations are unbounded integers. The 64-bit `long` wrap-around of the source and the `longValue()` truncation of fractional products are not modelled.
- ProdProcessLineService.ComputeLeadTimeDuration: priorities are non-null integers. A null priority would make `getNextPriority` fail in the source. The iteration order of the `HashMap` is not modelled; the sum does not depend on it (`SumValuesPick`).
- ProdProcessLineService.GetNextPriority: process lines are never null.
- ChartBuilder.ChartBuilderService.GetView: the field grouped on is always present, since the source reads its label. The onNew action's record list is a value, so the aliasing of the Java list between the action and the service field is not modelled. It makes no difference here because nothing is added after the action is created.
- ChartBuilder.GroupFieldName: type names are present strings. A null type name would make `contains` fail in the source.
