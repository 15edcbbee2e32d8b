/** Cycle durations and lead times of production process lines: how many
    cycles a quantity needs, the fixed machine overhead, the machine and
    human durations of a line, the total duration and the lead time of a
    process, and the next priority of a process. */
module ProdProcessLineService {
  import opened Wrappers
  import opened ProductionDb

  /** The two exceptions the computation raises; each aborts it. */
  datatype ProdError =
    | ProcessLineMissingWorkCenter(processCode: string, lineName: string)
    | WorkCenterNoMachine(workCenterName: string)

  // ---------------------------------------------------------------------
  // Number of cycles and fixed duration of one line
  // ---------------------------------------------------------------------

  /** Number of cycles needed for `qty` units: the quantity itself when the
      capacity per cycle is 0, otherwise the quotient rounded up. */
  function NbCycles(qty: nat, capacity: nat): (n: nat)
    ensures capacity == 0 ==> n == qty
    ensures capacity > 0 ==> (n - 1) * capacity < qty <= n * capacity
  {
    if capacity == 0 then qty
    else
      var x := qty + capacity - 1;
      var n := x / capacity;
      assert x == n * capacity + x % capacity;
      assert (n - 1) * capacity == n * capacity - capacity;
      n
  }

  /** The bounds stated by NbCycles determine the number of cycles: it is
      the ceiling of qty / capacity. */
  lemma {:induction false} NbCyclesIsCeiling(qty: nat, capacity: nat, m: int)
    requires capacity > 0
    requires (m - 1) * capacity < qty <= m * capacity
    ensures m == NbCycles(qty, capacity)
  {
    var n := NbCycles(qty, capacity);
    if m < n {
      assert m <= n - 1;
      MulMonotone(m, n - 1, capacity);
      assert false;
    } else if m > n {
      assert n <= m - 1;
      MulMonotone(n, m - 1, capacity);
      assert false;
    }
  }

  lemma MulMonotone(a: int, b: int, c: nat)
    requires a <= b
    ensures a * c <= b * c
  {
    assert b * c - a * c == (b - a) * c;
  }

  /** Ten units at three per cycle take four cycles. */
  lemma NbCyclesExample()
    ensures NbCycles(10, 3) == 4 && NbCycles(10, 0) == 10
  {
  }

  /** The process code put in the missing-work-center message. */
  function CodeOrNull(line: ProdProcessLine): string {
    match line.processCode
    case Some(code) => code
    case None => "null"
  }

  /** Only machine and both-kind work centers need a machine and carry
      starting, ending and setup overhead. */
  predicate IsMachineCapable(t: WorkCenterType) {
    t == Machine || t == Both
  }

  /** The fixed duration of a machine-capable line run for n cycles. */
  function MachineOverhead(line: ProdProcessLine, n: nat): int {
    line.startingDuration + line.endingDuration + (n - 1) * line.setupDuration
  }

  datatype DurationNbCycles = DurationNbCycles(duration: int, nbCycles: nat)

  /** The fixed duration and the number of cycles of a line, or the error
      that aborts the computation. */
  function DurationNbCyclesPair(line: ProdProcessLine, qty: nat): Result<DurationNbCycles, ProdError> {
    match line.workCenter
    case None => Failure(ProcessLineMissingWorkCenter(CodeOrNull(line), line.name))
    case Some(wc) =>
      var n := NbCycles(qty, line.maxCapacityPerCycle);
      if IsMachineCapable(wc.typeSelect) then
        if wc.machine.None? then Failure(WorkCenterNoMachine(wc.name))
        else Success(DurationNbCycles(MachineOverhead(line, n), n))
      else Success(DurationNbCycles(0, n))
  }

  /** The error cases, both ways: a line without a work center fails with an
      error naming the process code (or "null") and the line; a machine or
      both-kind work center without a machine fails with an error naming the
      work center; in every other case the pair is computed. */
  lemma DurationNbCyclesPairErrors(line: ProdProcessLine, qty: nat)
    ensures line.workCenter.None? <==>
      DurationNbCyclesPair(line, qty) == Failure(ProcessLineMissingWorkCenter(CodeOrNull(line), line.name))
    ensures line.workCenter.Some? && IsMachineCapable(line.workCenter.value.typeSelect)
            && line.workCenter.value.machine.None?
      ==> DurationNbCyclesPair(line, qty) == Failure(WorkCenterNoMachine(line.workCenter.value.name))
    ensures (DurationNbCyclesPair(line, qty).Failure? && DurationNbCyclesPair(line, qty).error.WorkCenterNoMachine?)
      <==> line.workCenter.Some? && IsMachineCapable(line.workCenter.value.typeSelect)
           && line.workCenter.value.machine.None?
    ensures DurationNbCyclesPair(line, qty).Success? <==>
      line.workCenter.Some? && (IsMachineCapable(line.workCenter.value.typeSelect) ==> line.workCenter.value.machine.Some?)
  {
  }

  /** On success the cycle count is the ceiling count, and the fixed duration
      is the machine overhead for a machine-capable work center and 0 for a
      human one. */
  lemma DurationNbCyclesPairValue(line: ProdProcessLine, qty: nat)
    requires DurationNbCyclesPair(line, qty).Success?
    ensures var p := DurationNbCyclesPair(line, qty).value;
      && p.nbCycles == NbCycles(qty, line.maxCapacityPerCycle)
      && p.duration == (if IsMachineCapable(line.workCenter.value.typeSelect) then MachineOverhead(line, p.nbCycles) else 0)
  {
  }

  /** A human work center never looks at the machine: the result is the same
      whatever machine is attached, and it always succeeds. */
  lemma HumanWorkCenterIgnoresMachine(line: ProdProcessLine, qty: nat, other: Option<string>)
    requires line.workCenter.Some? && line.workCenter.value.typeSelect == Human
    ensures DurationNbCyclesPair(line, qty).Success?
    ensures DurationNbCyclesPair(line.(workCenter := Some(line.workCenter.value.(machine := other))), qty)
            == DurationNbCyclesPair(line, qty)
  {
  }

  /** A quantity of 0 needs no cycle, and a machine-capable work center then
      subtracts the setup once: the fixed duration is starting + ending -
      setup, which is negative exactly when the setup exceeds the starting
      and ending durations together. */
  lemma ZeroCyclesOverhead(line: ProdProcessLine)
    requires line.workCenter.Some? && IsMachineCapable(line.workCenter.value.typeSelect)
    requires line.workCenter.value.machine.Some?
    ensures DurationNbCyclesPair(line, 0)
            == Success(DurationNbCycles(line.startingDuration + line.endingDuration - line.setupDuration, 0))
    ensures DurationNbCyclesPair(line, 0).value.duration < 0
            <==> line.setupDuration > line.startingDuration + line.endingDuration
  {
    var n := NbCycles(0, line.maxCapacityPerCycle);
    if line.maxCapacityPerCycle > 0 {
      assert (n - 1) * line.maxCapacityPerCycle < 0;
    }
    assert n == 0;
  }

  /** A setup of 5 seconds with no starting or ending duration gives a fixed
      duration of -5 for a quantity of 0. */
  lemma ZeroCyclesNegativeExample()
    ensures var line := ProdProcessLine("L", None, Some(WorkCenter("W", Machine, Some("M"))),
                                        0, None, None, 0, 0, 5, 0);
      DurationNbCyclesPair(line, 0) == Success(DurationNbCycles(-5, 0))
  {
    var line := ProdProcessLine("L", None, Some(WorkCenter("W", Machine, Some("M"))), 0, None, None, 0, 0, 5, 0);
    ZeroCyclesOverhead(line);
  }

  /** getDurationNbCyclesPair: the fixed duration is accumulated step by step. */
  method GetDurationNbCyclesPair(line: ProdProcessLine, qty: nat) returns (r: Result<DurationNbCycles, ProdError>)
    ensures r == DurationNbCyclesPair(line, qty)
  {
    var duration := 0;
    if line.workCenter.None? {
      return Failure(ProcessLineMissingWorkCenter(CodeOrNull(line), line.name));
    }
    var workCenter := line.workCenter.value;
    var nbCycles: nat;
    if line.maxCapacityPerCycle == 0 {
      nbCycles := qty;
    } else {
      nbCycles := NbCycles(qty, line.maxCapacityPerCycle);
    }
    if workCenter.typeSelect == Machine || workCenter.typeSelect == Both {
      if workCenter.machine.None? {
        return Failure(WorkCenterNoMachine(workCenter.name));
      }
      duration := duration + line.startingDuration;
      duration := duration + line.endingDuration;
      duration := duration + (nbCycles - 1) * line.setupDuration;
    }
    return Success(DurationNbCycles(duration, nbCycles));
  }

  // ---------------------------------------------------------------------
  // Machine, human and planned durations of one line
  // ---------------------------------------------------------------------

  /** The largest of the durations, 0 for an empty list. */
  function MaxDuration(durations: seq<int>): (m: int)
    ensures |durations| == 0 ==> m == 0
    ensures |durations| > 0 ==> m in durations
    ensures forall k :: 0 <= k < |durations| ==> durations[k] <= m
    decreases |durations|
  {
    if |durations| == 0 then 0
    else if |durations| == 1 then durations[0]
    else
      var front := durations[..|durations| - 1];
      var rest := MaxDuration(front);
      var last := durations[|durations| - 1];
      assert durations == front + [last];
      if last > rest then last else rest
  }

  /** Appending one duration to a list keeps the larger of the old maximum and
      the new duration. */
  lemma MaxDurationSnoc(s: seq<int>, d: int)
    ensures MaxDuration(s + [d]) == if |s| == 0 || d > MaxDuration(s) then d else MaxDuration(s)
  {
    assert (s + [d])[..|s|] == s;
  }

  /** The planned duration: the machine duration when the machine time per
      cycle is the larger one, else the human duration when that is, else 0. */
  function SelectPlanned(machinePerCycle: int, humanPerCycle: int, machineDuration: int, humanDuration: int): (r: int)
    ensures r == if machinePerCycle >= humanPerCycle then machineDuration else humanDuration
  {
    var max := MaxDuration([machinePerCycle, humanPerCycle]);
    if machinePerCycle == max then machineDuration
    else if humanPerCycle == max then humanDuration
    else 0
  }

  function MachineDurationPerCycle(line: ProdProcessLine): int {
    line.durationPerCycle.GetOr(0)
  }

  function HumanDurationPerCycle(line: ProdProcessLine): int {
    line.humanDuration.GetOr(0)
  }

  datatype CycleDurations = CycleDurations(machineDuration: int, humanDuration: int, plannedDuration: int)

  /** The three durations computeEntireCycleDuration derives for a line. */
  function EntireCycleDurations(line: ProdProcessLine, qty: nat): Result<CycleDurations, ProdError> {
    match DurationNbCyclesPair(line, qty)
    case Failure(e) => Failure(e)
    case Success(p) =>
      var machinePerCycle := MachineDurationPerCycle(line);
      var humanPerCycle := HumanDurationPerCycle(line);
      var machineDuration := p.duration + p.nbCycles * machinePerCycle;
      var humanDuration := p.nbCycles * humanPerCycle;
      Success(CycleDurations(machineDuration, humanDuration,
                             SelectPlanned(machinePerCycle, humanPerCycle, machineDuration, humanDuration)))
  }

  /** The planned duration computeEntireCycleDuration returns. */
  function EntireCycleDuration(line: ProdProcessLine, qty: nat): Result<int, ProdError> {
    match EntireCycleDurations(line, qty)
    case Failure(e) => Failure(e)
    case Success(c) => Success(c.plannedDuration)
  }

  /** What a line's durations are: the machine duration is the fixed duration
      plus one machine time per cycle, the human duration one human time per
      cycle, and the planned duration is the machine one when the machine
      time per cycle is at least the human one (ties go to the machine),
      otherwise the human one; the 0 fallback is never taken. The call fails
      exactly when the pair does, with the same error. */
  lemma EntireCycleDurationsSpec(line: ProdProcessLine, qty: nat)
    ensures DurationNbCyclesPair(line, qty).Failure? ==>
      EntireCycleDurations(line, qty) == Failure(DurationNbCyclesPair(line, qty).error)
    ensures DurationNbCyclesPair(line, qty).Success? ==>
      var p := DurationNbCyclesPair(line, qty).value;
      var c := EntireCycleDurations(line, qty);
      var m := MachineDurationPerCycle(line);
      var h := HumanDurationPerCycle(line);
      && c.Success?
      && c.value.machineDuration == p.duration + p.nbCycles * m
      && c.value.humanDuration == p.nbCycles * h
      && c.value.plannedDuration == (if m >= h then c.value.machineDuration else c.value.humanDuration)
      && EntireCycleDuration(line, qty) == Success(c.value.plannedDuration)
  {
  }

  /** A null machine or human time per cycle counts as 0. */
  lemma NullPerCycleCountsAsZero(line: ProdProcessLine, qty: nat)
    ensures EntireCycleDurations(line.(durationPerCycle := None), qty)
            == EntireCycleDurations(line.(durationPerCycle := Some(0)), qty)
    ensures EntireCycleDurations(line.(humanDuration := None), qty)
            == EntireCycleDurations(line.(humanDuration := Some(0)), qty)
  {
  }

  /** computeEntireCycleDuration: returns the planned duration of the line and,
      when an operation order is supplied and nothing failed, records the
      machine and human durations on it. The result does not depend on the
      order. */
  method ComputeEntireCycleDuration(operationOrder: OperationOrder?, line: ProdProcessLine, qty: nat)
    returns (r: Result<int, ProdError>)
    modifies operationOrder
    ensures r == EntireCycleDuration(line, qty)
    ensures operationOrder != null && r.Success? ==>
      && operationOrder.plannedMachineDuration == EntireCycleDurations(line, qty).value.machineDuration
      && operationOrder.plannedHumanDuration == EntireCycleDurations(line, qty).value.humanDuration
    ensures operationOrder != null && r.Failure? ==> unchanged(operationOrder)
    ensures operationOrder != null ==>
      && operationOrder.outsourcing == old(operationOrder.outsourcing)
      && operationOrder.machine == old(operationOrder.machine)
      && operationOrder.workCenter == old(operationOrder.workCenter)
      && operationOrder.plannedStartDateT == old(operationOrder.plannedStartDateT)
      && operationOrder.plannedEndDateT == old(operationOrder.plannedEndDateT)
      && operationOrder.plannedDuration == old(operationOrder.plannedDuration)
  {
    var pair := GetDurationNbCyclesPair(line, qty);
    if pair.Failure? {
      return Failure(pair.error);
    }
    var duration := pair.value.duration;
    var nbCycles := pair.value.nbCycles;
    var machineDurationPerCycle := line.durationPerCycle.GetOr(0);
    var humanDurationPerCycle := line.humanDuration.GetOr(0);
    var maxDurationPerCycle := MaxDuration([machineDurationPerCycle, humanDurationPerCycle]);

    var plannedDuration := 0;
    var machineDuration := duration + nbCycles * machineDurationPerCycle;
    var humanDuration := nbCycles * humanDurationPerCycle;
    if machineDurationPerCycle == maxDurationPerCycle {
      plannedDuration := machineDuration;
    } else if humanDurationPerCycle == maxDurationPerCycle {
      plannedDuration := humanDuration;
    }

    if operationOrder != null {
      operationOrder.plannedMachineDuration := machineDuration;
      operationOrder.plannedHumanDuration := humanDuration;
    }
    return Success(plannedDuration);
  }

  // ---------------------------------------------------------------------
  // Entire duration and lead time of a process
  // ---------------------------------------------------------------------

  /** The planned durations of the lines, in order, or the error of the first
      line that fails. */
  function LineDurations(lines: seq<ProdProcessLine>, qty: nat): (r: Result<seq<int>, ProdError>)
    ensures r.Success? ==> |r.value| == |lines|
    decreases |lines|
  {
    if |lines| == 0 then Success([])
    else
      match LineDurations(lines[..|lines| - 1], qty)
      case Failure(e) => Failure(e)
      case Success(ds) =>
        match EntireCycleDuration(lines[|lines| - 1], qty)
        case Failure(e) => Failure(e)
        case Success(d) => Success(ds + [d])
  }

  /** Handling line i extends the durations of the lines before it. */
  lemma LineDurationsStep(lines: seq<ProdProcessLine>, i: nat, qty: nat)
    requires i < |lines|
    ensures LineDurations(lines[..i + 1], qty) ==
      match LineDurations(lines[..i], qty)
      case Failure(e) => Failure(e)
      case Success(ds) =>
        match EntireCycleDuration(lines[i], qty)
        case Failure(e) => Failure(e)
        case Success(d) => Success(ds + [d])
  {
    assert lines[..i + 1][..i] == lines[..i];
  }

  /** All lines succeed exactly when the list of durations is computed, and
      then each entry is the duration of its line; otherwise the error is the
      one of the first failing line. */
  lemma {:induction false} LineDurationsSpec(lines: seq<ProdProcessLine>, qty: nat)
    ensures LineDurations(lines, qty).Success? <==>
      forall k :: 0 <= k < |lines| ==> EntireCycleDuration(lines[k], qty).Success?
    ensures LineDurations(lines, qty).Success? ==>
      forall k :: 0 <= k < |lines| ==> LineDurations(lines, qty).value[k] == EntireCycleDuration(lines[k], qty).value
    ensures LineDurations(lines, qty).Failure? ==>
      exists k :: 0 <= k < |lines| && EntireCycleDuration(lines[k], qty) == Failure(LineDurations(lines, qty).error)
        && forall j :: 0 <= j < k ==> EntireCycleDuration(lines[j], qty).Success?
    decreases |lines|
  {
    if |lines| > 0 {
      var front := lines[..|lines| - 1];
      LineDurationsSpec(front, qty);
      assert forall k :: 0 <= k < |front| ==> front[k] == lines[k];
      match LineDurations(front, qty)
      case Failure(e) =>
        var k :| 0 <= k < |front| && EntireCycleDuration(front[k], qty) == Failure(e)
          && forall j :: 0 <= j < k ==> EntireCycleDuration(front[j], qty).Success?;
        assert EntireCycleDuration(lines[k], qty) == Failure(e);
      case Success(ds) =>
        if EntireCycleDuration(lines[|lines| - 1], qty).Failure? {
          var k := |lines| - 1;
          assert forall j :: 0 <= j < k ==> EntireCycleDuration(lines[j], qty).Success?;
        }
    }
  }

  /** A failure on a prefix of the lines is the failure of the whole list. */
  lemma {:induction false} LineDurationsPrefixFailure(lines: seq<ProdProcessLine>, i: nat, qty: nat)
    requires i <= |lines|
    requires LineDurations(lines[..i], qty).Failure?
    ensures LineDurations(lines, qty) == LineDurations(lines[..i], qty)
    decreases |lines| - i
  {
    if i < |lines| {
      var next := lines[..i + 1];
      assert next[..i] == lines[..i];
      LineDurationsPrefixFailure(lines, i + 1, qty);
    } else {
      assert lines[..i] == lines;
    }
  }

  /** The sum of a list of durations. */
  function Sum(ds: seq<int>): int
    decreases |ds|
  {
    if |ds| == 0 then 0 else Sum(ds[..|ds| - 1]) + ds[|ds| - 1]
  }

  /** The entire duration of a process: the sum of the line durations. */
  function EntireDuration(lines: seq<ProdProcessLine>, qty: nat): Result<int, ProdError> {
    match LineDurations(lines, qty)
    case Failure(e) => Failure(e)
    case Success(ds) => Success(Sum(ds))
  }

  /** computeEntireDuration: adds up the durations of the lines in order,
      with no operation order to write to. */
  method ComputeEntireDuration(process: ProdProcess, qty: nat) returns (r: Result<int, ProdError>)
    ensures r == EntireDuration(process.lines, qty)
  {
    var lines := process.lines;
    var totalDuration := 0;
    ghost var ds: seq<int> := [];
    var i := 0;
    while i < |lines|
      invariant 0 <= i <= |lines|
      invariant LineDurations(lines[..i], qty) == Success(ds)
      invariant totalDuration == Sum(ds)
    {
      var d := ComputeEntireCycleDuration(null, lines[i], qty);
      LineDurationsStep(lines, i, qty);
      if d.Failure? {
        LineDurationsPrefixFailure(lines, i + 1, qty);
        return Failure(d.error);
      }
      assert (ds + [d.value])[..|ds|] == ds;
      ds := ds + [d.value];
      totalDuration := totalDuration + d.value;
      i := i + 1;
    }
    assert lines[..i] == lines;
    return Success(totalDuration);
  }

  /** The priorities of the lines, in order. */
  function Priorities(lines: seq<ProdProcessLine>): (ps: seq<int>)
    ensures |ps| == |lines| && forall k :: 0 <= k < |lines| ==> ps[k] == lines[k].priority
  {
    seq(|lines|, k requires 0 <= k < |lines| => lines[k].priority)
  }

  /** The durations, in order, of the entries whose priority is p. */
  function AtPriority(ps: seq<int>, ds: seq<int>, p: int): seq<int>
    requires |ps| == |ds|
    decreases |ps|
  {
    if |ps| == 0 then []
    else
      var rest := AtPriority(ps[..|ps| - 1], ds[..|ds| - 1], p);
      if ps[|ps| - 1] == p then rest + [ds[|ds| - 1]] else rest
  }

  /** Some entry has priority p exactly when the durations at p are not empty;
      each of them is one of the durations. */
  lemma {:induction false} AtPriorityMembers(ps: seq<int>, ds: seq<int>, p: int)
    requires |ps| == |ds|
    ensures p in ps <==> |AtPriority(ps, ds, p)| > 0
    ensures forall d :: d in AtPriority(ps, ds, p) ==> exists k :: 0 <= k < |ps| && ps[k] == p && ds[k] == d
    ensures forall k :: 0 <= k < |ps| && ps[k] == p ==> ds[k] in AtPriority(ps, ds, p)
    decreases |ps|
  {
    if |ps| > 0 {
      var n := |ps| - 1;
      AtPriorityMembers(ps[..n], ds[..n], p);
      assert ps == ps[..n] + [ps[n]];
    }
  }

  /** The longest duration at each priority that occurs, the reference
      definition of the per-priority maxima. */
  function MaxPerPriority(ps: seq<int>, ds: seq<int>): (m: map<int, int>)
    requires |ps| == |ds|
  {
    map p | p in ps :: MaxDuration(AtPriority(ps, ds, p))
  }

  /** Appending one entry extends the durations at its own priority only. */
  lemma AtPrioritySnoc(ps: seq<int>, ds: seq<int>, p: int, d: int, q: int)
    requires |ps| == |ds|
    ensures AtPriority(ps + [p], ds + [d], q) == if q == p then AtPriority(ps, ds, q) + [d] else AtPriority(ps, ds, q)
  {
    assert (ps + [p])[..|ps|] == ps && (ds + [d])[..|ds|] == ds;
  }

  /** Adding one line adds its priority to the priorities that occur. */
  lemma MaxPerPriorityKeys(ps: seq<int>, ds: seq<int>, p: int, d: int)
    requires |ps| == |ds|
    ensures MaxPerPriority(ps + [p], ds + [d]).Keys == MaxPerPriority(ps, ds).Keys + {p}
  {
    var m := MaxPerPriority(ps, ds);
    var m' := MaxPerPriority(ps + [p], ds + [d]);
    forall q
      ensures q in m'.Keys <==> q in m.Keys + {p}
    {
      assert q in ps + [p] <==> q in ps || q == p;
    }
  }

  /** Adding one line keeps, at its priority, the larger of the old maximum
      and its duration, and records its duration at a priority not seen
      before: the update computeLeadTimeDuration makes to its map. */
  lemma MaxPerPriorityStep(ps: seq<int>, ds: seq<int>, p: int, d: int)
    requires |ps| == |ds|
    ensures var m := MaxPerPriority(ps, ds);
      MaxPerPriority(ps + [p], ds + [d]) == if p !in m || d > m[p] then m[p := d] else m
  {
    var m := MaxPerPriority(ps, ds);
    var m' := MaxPerPriority(ps + [p], ds + [d]);
    MaxPerPriorityKeys(ps, ds, p, d);
    if p !in m || d > m[p] {
      var expected := m[p := d];
      forall q | q in m'
        ensures m'[q] == expected[q]
      {
        MaxPerPriorityAt(ps, ds, p, d, q);
      }
      MapsEqual(m', expected);
    } else {
      assert m.Keys + {p} == m.Keys;
      forall q | q in m'
        ensures m'[q] == m[q]
      {
        MaxPerPriorityAt(ps, ds, p, d, q);
      }
      MapsEqual(m', m);
    }
  }

  /** MaxPerPriorityStep for the line at index i of a process. */
  lemma MaxPerPriorityLineStep(lines: seq<ProdProcessLine>, i: nat, ds: seq<int>, d: int)
    requires i < |lines| && |ds| == i
    ensures var m := MaxPerPriority(Priorities(lines)[..i], ds);
      var p := lines[i].priority;
      MaxPerPriority(Priorities(lines)[..i + 1], ds + [d]) == if p !in m || d > m[p] then m[p := d] else m
  {
    var ps := Priorities(lines);
    assert ps[..i + 1] == ps[..i] + [lines[i].priority];
    MaxPerPriorityStep(ps[..i], ds, lines[i].priority, d);
  }

  /** One entry of MaxPerPriorityStep. */
  lemma MaxPerPriorityAt(ps: seq<int>, ds: seq<int>, p: int, d: int, q: int)
    requires |ps| == |ds|
    requires q in ps + [p]
    ensures var m := MaxPerPriority(ps, ds);
      MaxPerPriority(ps + [p], ds + [d])[q] ==
        if q == p && (p !in m || d > m[p]) then d else m[q]
  {
    AtPrioritySnoc(ps, ds, p, d, q);
    if q == p {
      AtPriorityMembers(ps, ds, p);
      MaxDurationSnoc(AtPriority(ps, ds, p), d);
    } else {
      assert q in ps;
    }
  }

  lemma MapsEqual(a: map<int, int>, b: map<int, int>)
    requires a.Keys == b.Keys && forall q :: q in a ==> a[q] == b[q]
    ensures a == b
  {
    assert forall q :: q in a.Keys <==> q in b.Keys;
    assert forall q :: q in a ==> q in b && a[q] == b[q];
  }

  lemma HasKey(m: map<int, int>)
    requires m.Keys != {}
    ensures exists k :: k in m.Keys
  {
    if forall k :: k !in m.Keys {
      assert false;
    }
  }

  /** The sum of the values of a map, in no particular order. */
  ghost function SumValues(m: map<int, int>): int
    decreases m.Keys
  {
    if m.Keys == {} then 0
    else
      HasKey(m);
      var k :| k in m.Keys;
      assert (m - {k}).Keys < m.Keys;
      m[k] + SumValues(m - {k})
  }

  /** The sum does not depend on which key is taken first. */
  lemma {:induction false} SumValuesPick(m: map<int, int>, k: int)
    requires k in m
    ensures SumValues(m) == m[k] + SumValues(m - {k})
    decreases m.Keys
  {
    var k' :| k' in m && SumValues(m) == m[k'] + SumValues(m - {k'});
    if k' != k {
      assert (m - {k'}).Keys < m.Keys;
      assert (m - {k}).Keys < m.Keys;
      SumValuesPick(m - {k'}, k);
      SumValuesPick(m - {k}, k');
      assert m - {k'} - {k} == m - {k} - {k'};
    }
  }

  /** Writing a value at a key changes the sum by the difference. */
  lemma SumValuesUpdate(m: map<int, int>, k: int, v: int)
    ensures SumValues(m[k := v]) == SumValues(m) + v - (if k in m then m[k] else 0)
  {
    SumValuesPick(m[k := v], k);
    assert m[k := v] - {k} == m - {k};
    if k in m {
      SumValuesPick(m, k);
    } else {
      assert m - {k} == m;
    }
  }

  /** The lead time of lines with priorities ps and durations ds: the sum,
      over the priorities that occur, of the longest duration at that
      priority. */
  ghost function LeadTimeOf(ps: seq<int>, ds: seq<int>): int
    requires |ps| == |ds|
  {
    SumValues(MaxPerPriority(ps, ds))
  }

  /** The lead time of a process. */
  ghost function LeadTime(lines: seq<ProdProcessLine>, qty: nat): Result<int, ProdError> {
    match LineDurations(lines, qty)
    case Failure(e) => Failure(e)
    case Success(ds) => Success(LeadTimeOf(Priorities(lines), ds))
  }

  lemma MaxPerPriorityEmpty(ps: seq<int>, ds: seq<int>)
    requires |ps| == |ds| == 0
    ensures MaxPerPriority(ps, ds) == map[] && SumValues(MaxPerPriority(ps, ds)) == 0
  {
    MapsEqual(MaxPerPriority(ps, ds), map[]);
  }

  /** When every line has its own priority, nothing runs side by side: the
      lead time is the entire duration. */
  lemma {:induction false} LeadTimeDistinctPriorities(ps: seq<int>, ds: seq<int>)
    requires |ps| == |ds|
    requires forall i, j :: 0 <= i < j < |ps| ==> ps[i] != ps[j]
    ensures LeadTimeOf(ps, ds) == Sum(ds)
    decreases |ps|
  {
    if |ps| == 0 {
      MaxPerPriorityEmpty(ps, ds);
    } else {
      var n := |ps| - 1;
      var fps, fds := ps[..n], ds[..n];
      LeadTimeDistinctPriorities(fps, fds);
      assert ps == fps + [ps[n]] && ds == fds + [ds[n]];
      MaxPerPriorityStep(fps, fds, ps[n], ds[n]);
      var fm := MaxPerPriority(fps, fds);
      assert ps[n] !in fm;
      SumValuesUpdate(fm, ps[n], ds[n]);
    }
  }

  /** When all entries have priority p, the durations at p are all of them. */
  lemma {:induction false} AtPriorityAll(ps: seq<int>, ds: seq<int>, p: int)
    requires |ps| == |ds|
    requires forall k :: 0 <= k < |ps| ==> ps[k] == p
    ensures AtPriority(ps, ds, p) == ds
    decreases |ps|
  {
    if |ps| > 0 {
      var n := |ps| - 1;
      AtPriorityAll(ps[..n], ds[..n], p);
      assert ds == ds[..n] + [ds[n]];
    }
  }

  /** When all lines share one priority they all run side by side: the lead
      time is the longest line duration. */
  lemma LeadTimeSinglePriority(ps: seq<int>, ds: seq<int>, p: int)
    requires |ps| == |ds| > 0
    requires forall k :: 0 <= k < |ps| ==> ps[k] == p
    ensures LeadTimeOf(ps, ds) == MaxDuration(ds)
  {
    var m := MaxPerPriority(ps, ds);
    AtPriorityAll(ps, ds, p);
    assert m.Keys == {p} by {
      assert ps[0] == p;
      forall q
        ensures q in m.Keys <==> q == p
      {
        if q in ps {
          var k :| 0 <= k < |ps| && ps[k] == q;
        }
      }
    }
    SumValuesPick(m, p);
    assert (m - {p}).Keys == {};
  }

  /** A line at a priority not seen before adds its whole duration. */
  lemma LeadTimeNewPriority(ps: seq<int>, ds: seq<int>, p: int, d: int)
    requires |ps| == |ds| && p !in ps
    ensures LeadTimeOf(ps + [p], ds + [d]) == LeadTimeOf(ps, ds) + d
  {
    MaxPerPriorityStep(ps, ds, p, d);
    SumValuesUpdate(MaxPerPriority(ps, ds), p, d);
  }

  /** Lines of 100 and 150 at priority 1 and a line of 80 at priority 2 have
      a lead time of 150 + 80. */
  lemma LeadTimeExample()
    ensures LeadTimeOf([1, 1, 2], [100, 150, 80]) == 230
  {
    assert MaxDuration([100, 150]) == 150 by {
      MaxDurationSnoc([100], 150);
      assert [100] + [150] == [100, 150];
    }
    LeadTimeSinglePriority([1, 1], [100, 150], 1);
    LeadTimeNewPriority([1, 1], [100, 150], 2, 80);
    assert [1, 1] + [2] == [1, 1, 2] && [100, 150] + [80] == [100, 150, 80];
  }

  /** With non-negative durations, the lead time is at least every single
      line duration and at most the entire duration: running the lines of a
      priority side by side never takes longer than running all lines one
      after the other. */
  lemma LeadTimeBounds(ps: seq<int>, ds: seq<int>)
    requires |ps| == |ds|
    requires forall k :: 0 <= k < |ds| ==> ds[k] >= 0
    ensures forall k :: 0 <= k < |ds| ==> ds[k] <= LeadTimeOf(ps, ds)
    ensures 0 <= LeadTimeOf(ps, ds) <= Sum(ds)
  {
    MaxPerPriorityNonNegative(ps, ds);
    SumValuesNonNegative(MaxPerPriority(ps, ds));
    forall k | 0 <= k < |ds|
      ensures ds[k] <= LeadTimeOf(ps, ds)
    {
      LeadTimeAtLeastLine(ps, ds, k);
    }
    LeadTimeAtMostSum(ps, ds);
  }

  lemma LeadTimeAtLeastLine(ps: seq<int>, ds: seq<int>, k: int)
    requires |ps| == |ds|
    requires forall k :: 0 <= k < |ds| ==> ds[k] >= 0
    requires 0 <= k < |ds|
    ensures ds[k] <= LeadTimeOf(ps, ds)
  {
    var m := MaxPerPriority(ps, ds);
    MaxPerPriorityNonNegative(ps, ds);
    AtPriorityMembers(ps, ds, ps[k]);
    SumValuesPick(m, ps[k]);
    SumValuesNonNegative(m - {ps[k]});
  }

  lemma {:induction false} LeadTimeAtMostSum(ps: seq<int>, ds: seq<int>)
    requires |ps| == |ds|
    requires forall k :: 0 <= k < |ds| ==> ds[k] >= 0
    ensures LeadTimeOf(ps, ds) <= Sum(ds)
    decreases |ps|
  {
    if |ps| == 0 {
      MapsEqual(MaxPerPriority(ps, ds), map[]);
    } else {
      var n := |ps| - 1;
      var fps, fds := ps[..n], ds[..n];
      LeadTimeAtMostSum(fps, fds);
      assert ps == fps + [ps[n]] && ds == fds + [ds[n]];
      MaxPerPriorityStep(fps, fds, ps[n], ds[n]);
      var fm := MaxPerPriority(fps, fds);
      MaxPerPriorityNonNegative(fps, fds);
      if ps[n] !in fm || ds[n] > fm[ps[n]] {
        SumValuesUpdate(fm, ps[n], ds[n]);
      }
    }
  }

  lemma MaxPerPriorityNonNegative(ps: seq<int>, ds: seq<int>)
    requires |ps| == |ds|
    requires forall k :: 0 <= k < |ds| ==> ds[k] >= 0
    ensures forall p :: p in MaxPerPriority(ps, ds) ==> MaxPerPriority(ps, ds)[p] >= 0
  {
    forall p | p in MaxPerPriority(ps, ds)
      ensures MaxPerPriority(ps, ds)[p] >= 0
    {
      AtPriorityMembers(ps, ds, p);
    }
  }

  lemma {:induction false} SumValuesNonNegative(m: map<int, int>)
    requires forall p :: p in m ==> m[p] >= 0
    ensures SumValues(m) >= 0
    decreases m.Keys
  {
    if m.Keys != {} {
      HasKey(m);
      var k :| k in m.Keys;
      SumValuesPick(m, k);
      assert (m - {k}).Keys < m.Keys;
      SumValuesNonNegative(m - {k});
    }
  }

  /** computeLeadTimeDuration: keeps, in a map, the longest duration seen at
      each priority, then adds up the map's values. */
  method ComputeLeadTimeDuration(process: ProdProcess, qty: nat) returns (r: Result<int, ProdError>)
    ensures r == LeadTime(process.lines, qty)
  {
    var lines := process.lines;
    ghost var ds: seq<int> := [];
    var maxDurationPerPriority: map<int, int> := map[];
    var i := 0;
    while i < |lines|
      invariant 0 <= i <= |lines| && |ds| == i
      invariant LineDurations(lines[..i], qty) == Success(ds)
      invariant maxDurationPerPriority == MaxPerPriority(Priorities(lines)[..i], ds)
    {
      var priority := lines[i].priority;
      var computedDuration := ComputeEntireCycleDuration(null, lines[i], qty);
      LineDurationsStep(lines, i, qty);
      if computedDuration.Failure? {
        LineDurationsPrefixFailure(lines, i + 1, qty);
        return Failure(computedDuration.error);
      }
      var d := computedDuration.value;
      MaxPerPriorityLineStep(lines, i, ds, d);
      if priority !in maxDurationPerPriority || d > maxDurationPerPriority[priority] {
        maxDurationPerPriority := maxDurationPerPriority[priority := d];
      }
      ds := ds + [d];
      i := i + 1;
    }
    assert lines[..i] == lines;
    assert Priorities(lines)[..i] == Priorities(lines);

    var total := SumMapValues(maxDurationPerPriority);
    return Success(total);
  }

  /** The sum of the values of a map, taken one key at a time in any order. */
  method SumMapValues(m: map<int, int>) returns (total: int)
    ensures total == SumValues(m)
  {
    total := 0;
    var rest := m;
    while rest.Keys != {}
      invariant total + SumValues(rest) == SumValues(m)
      decreases rest.Keys
    {
      HasKey(rest);
      var p :| p in rest.Keys;
      SumValuesPick(rest, p);
      total := total + rest[p];
      rest := rest - {p};
    }
  }

  // ---------------------------------------------------------------------
  // Next priority
  // ---------------------------------------------------------------------

  /** The smallest line priority strictly greater than `priority`, if any. */
  function MinPriorityAbove(lines: seq<ProdProcessLine>, priority: int): (r: Option<int>)
    ensures r.None? <==> forall k :: 0 <= k < |lines| ==> lines[k].priority <= priority
    ensures r.Some? ==> r.value > priority && exists k :: 0 <= k < |lines| && lines[k].priority == r.value
    ensures r.Some? ==> forall k :: 0 <= k < |lines| && lines[k].priority > priority ==> r.value <= lines[k].priority
    decreases |lines|
  {
    if |lines| == 0 then None
    else
      var rest := MinPriorityAbove(lines[1..], priority);
      assert forall k :: 1 <= k < |lines| ==> lines[k] == lines[1..][k - 1];
      var p := lines[0].priority;
      if p <= priority then rest
      else if rest.Some? && rest.value < p then
        var j :| 0 <= j < |lines[1..]| && lines[1..][j].priority == rest.value;
        assert lines[j + 1].priority == rest.value;
        rest
      else Some(p)
  }

  /** getNextPriority: nothing when the priority or the process is missing or
      the process has no lines, otherwise the smallest greater priority. */
  function GetNextPriority(process: Option<ProdProcess>, priority: Option<int>): (r: Option<int>)
    ensures r.Some? <==>
      && priority.Some? && process.Some?
      && exists k :: 0 <= k < |process.value.lines| && process.value.lines[k].priority > priority.value
    ensures r.Some? ==> r == MinPriorityAbove(process.value.lines, priority.value)
  {
    if priority.None? || process.None? || |process.value.lines| == 0 then None
    else MinPriorityAbove(process.value.lines, priority.value)
  }

  function LineAt(priority: int): ProdProcessLine {
    ProdProcessLine("line", None, None, 0, None, None, 0, 0, 0, priority)
  }

  /** Over priorities 1, 1, 3, 5: after 1 comes 3, after 5 nothing. */
  lemma NextPriorityExample()
    ensures var process := Some(ProdProcess("P", [LineAt(1), LineAt(1), LineAt(3), LineAt(5)]));
      GetNextPriority(process, Some(1)) == Some(3) && GetNextPriority(process, Some(5)) == None
  {
    var lines := [LineAt(1), LineAt(1), LineAt(3), LineAt(5)];
    var r := MinPriorityAbove(lines, 1);
    assert lines[2].priority == 3;
    assert r.Some? && r.value <= 3;
  }
}
