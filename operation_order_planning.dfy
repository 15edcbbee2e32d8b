/** Backward ("at the latest", infinite capacity) placement of an operation
    order: the order is put as late as it can be. Without a machine it ends
    at the earlier of its own planned end and the start of the next
    operation; with a machine it takes the slot the machine calendar finds
    before that deadline, and ends no later than the deadline as long as
    the calendar keeps its slot within the window searched. The collaborators
    it consults are parameters: the nominal duration of the order, the start
    of the next operation, and the machine calendar's search for the latest
    free slot in a window. */
module OperationOrderPlanning {
  import opened Wrappers
  import opened ProductionDb

  /** A free time slot of a machine, as returned by the calendar search. */
  datatype MachineTimeSlot = MachineTimeSlot(startDateT: int, endDateT: int)

  /** Which placement an order is handed to. */
  datatype PlanningPath = OutsourcedPath | InternalPath

  /** The earlier of two dates. */
  function MinDate(a: int, b: int): (r: int)
    ensures r <= a && r <= b && (r == a || r == b)
  {
    if a <= b then a else b
  }

  /** The planned start, end and duration (in seconds) of an order. */
  datatype Placement = Placement(startDateT: int, endDateT: int, duration: int)

  /** Where planWithStrategyNotOutSourced puts an order whose planned end is
      `plannedEnd`: the deadline is the earlier of that end and the next
      operation's date; with a machine the order takes the slot found in the
      window [deadline - duration, deadline], otherwise it ends at the
      deadline and starts `duration` seconds before. The planned duration is
      the time between the planned start and end. */
  function AtTheLatest(plannedEnd: int, nextOperationDate: int, duration: int, hasMachine: bool,
                       furthestTimeSlotFrom: (int, int) -> MachineTimeSlot): Placement
  {
    var minDate := MinDate(plannedEnd, nextOperationDate);
    if hasMachine then
      var slot := furthestTimeSlotFrom(minDate - duration, minDate);
      Placement(slot.startDateT, slot.endDateT, slot.endDateT - slot.startDateT)
    else
      var start := minDate - duration;
      Placement(start, minDate, minDate - start)
  }

  /** Without a machine the order ends at the earlier of its planned end and
      the next operation's date, never later than either, and starts exactly
      its nominal duration before; the planned duration is that duration. */
  lemma AtTheLatestWithoutMachine(plannedEnd: int, nextOperationDate: int, duration: int,
                                  furthestTimeSlotFrom: (int, int) -> MachineTimeSlot)
    ensures var p := AtTheLatest(plannedEnd, nextOperationDate, duration, false, furthestTimeSlotFrom);
      && p.endDateT <= plannedEnd && p.endDateT <= nextOperationDate
      && (p.endDateT == plannedEnd || p.endDateT == nextOperationDate)
      && p.startDateT == p.endDateT - duration
      && p.duration == duration
  {
  }

  /** With a machine the calendar is searched backward over the window that
      ends at the deadline and is as long as the nominal duration, and the
      order adopts the slot found there, whatever its length. */
  lemma AtTheLatestWithMachine(plannedEnd: int, nextOperationDate: int, duration: int,
                               furthestTimeSlotFrom: (int, int) -> MachineTimeSlot)
    ensures var deadline := MinDate(plannedEnd, nextOperationDate);
      var slot := furthestTimeSlotFrom(deadline - duration, deadline);
      AtTheLatest(plannedEnd, nextOperationDate, duration, true, furthestTimeSlotFrom)
        == Placement(slot.startDateT, slot.endDateT, slot.endDateT - slot.startDateT)
  {
  }

  /** The placement is consistent: the planned duration is the time between
      start and end. With a non-negative duration (no machine) or a
      well-formed slot (machine) the start is not after the end and the
      planned duration is not negative. */
  lemma AtTheLatestWellFormed(plannedEnd: int, nextOperationDate: int, duration: int, hasMachine: bool,
                              furthestTimeSlotFrom: (int, int) -> MachineTimeSlot)
    requires !hasMachine ==> duration >= 0
    requires hasMachine ==>
      var deadline := MinDate(plannedEnd, nextOperationDate);
      var slot := furthestTimeSlotFrom(deadline - duration, deadline);
      slot.startDateT <= slot.endDateT
    ensures var p := AtTheLatest(plannedEnd, nextOperationDate, duration, hasMachine, furthestTimeSlotFrom);
      && p.duration == p.endDateT - p.startDateT
      && p.startDateT <= p.endDateT
      && p.duration >= 0
  {
  }

  /** Whenever the calendar returns a slot that ends by the deadline, as a
      search within the window [deadline - duration, deadline] does, the
      order ends no later than its own planned end and the next operation's
      date, in both branches. */
  lemma AtTheLatestNoLaterThanDeadline(plannedEnd: int, nextOperationDate: int, duration: int, hasMachine: bool,
                                       furthestTimeSlotFrom: (int, int) -> MachineTimeSlot)
    requires hasMachine ==>
      var deadline := MinDate(plannedEnd, nextOperationDate);
      furthestTimeSlotFrom(deadline - duration, deadline).endDateT <= deadline
    ensures var p := AtTheLatest(plannedEnd, nextOperationDate, duration, hasMachine, furthestTimeSlotFrom);
      p.endDateT <= plannedEnd && p.endDateT <= nextOperationDate
  {
  }

  /** planWithStrategyNotOutSourced: sets the planned end to the deadline,
      then places the order by the machine's calendar or by its duration and
      records the planned duration. `duration` is the order's nominal
      duration and `nextOperationDate` the start of the next operation. */
  method PlanWithStrategyNotOutSourced(operationOrder: OperationOrder, duration: int, nextOperationDate: int,
                                       furthestTimeSlotFrom: (int, int) -> MachineTimeSlot)
    modifies operationOrder`plannedStartDateT, operationOrder`plannedEndDateT, operationOrder`plannedDuration
    ensures var p := AtTheLatest(old(operationOrder.plannedEndDateT), nextOperationDate, duration,
                                 operationOrder.machine.Some?, furthestTimeSlotFrom);
      && operationOrder.plannedStartDateT == p.startDateT
      && operationOrder.plannedEndDateT == p.endDateT
      && operationOrder.plannedDuration == p.duration
  {
    var plannedEndDate := operationOrder.plannedEndDateT;
    var minDate := MinDate(plannedEndDate, nextOperationDate);
    operationOrder.plannedEndDateT := minDate;

    if operationOrder.machine.Some? {
      var freeMachineTimeSlot := furthestTimeSlotFrom(minDate - duration, minDate);
      operationOrder.plannedStartDateT := freeMachineTimeSlot.startDateT;
      operationOrder.plannedEndDateT := freeMachineTimeSlot.endDateT;
      operationOrder.plannedDuration := operationOrder.plannedEndDateT - operationOrder.plannedStartDateT;
    } else {
      operationOrder.plannedEndDateT := minDate;
      operationOrder.plannedStartDateT := operationOrder.plannedEndDateT - duration;
      operationOrder.plannedDuration := operationOrder.plannedEndDateT - operationOrder.plannedStartDateT;
    }
  }

  /** planWithStrategy: an outsourced order is handed to the outsourced
      placement, which is not part of this model and leaves the order as it
      is here; any other order is placed at the latest. */
  method PlanWithStrategy(operationOrder: OperationOrder, duration: int, nextOperationDate: int,
                          furthestTimeSlotFrom: (int, int) -> MachineTimeSlot)
    returns (path: PlanningPath)
    modifies operationOrder`plannedStartDateT, operationOrder`plannedEndDateT, operationOrder`plannedDuration
    ensures path == OutsourcedPath <==> operationOrder.outsourcing
    ensures operationOrder.outsourcing ==> unchanged(operationOrder)
    ensures !operationOrder.outsourcing ==>
      var p := AtTheLatest(old(operationOrder.plannedEndDateT), nextOperationDate, duration,
                           operationOrder.machine.Some?, furthestTimeSlotFrom);
      && operationOrder.plannedStartDateT == p.startDateT
      && operationOrder.plannedEndDateT == p.endDateT
      && operationOrder.plannedDuration == p.duration
  {
    if operationOrder.outsourcing {
      path := OutsourcedPath;
    } else {
      PlanWithStrategyNotOutSourced(operationOrder, duration, nextOperationDate, furthestTimeSlotFrom);
      path := InternalPath;
    }
  }

  const TWO_31: int := 0x8000_0000
  const TWO_32: int := 0x1_0000_0000

  /** Java's `(int)` narrowing of a long: keeps the low 32 bits, read as a
      two's-complement number. */
  function ToInt32(x: int): (r: int)
    ensures -TWO_31 <= r < TWO_31
    ensures (x - r) % TWO_32 == 0
    ensures -TWO_31 <= x < TWO_31 ==> r == x
  {
    var low := (x + TWO_31) % TWO_32;
    assert x + TWO_31 == (x + TWO_31) / TWO_32 * TWO_32 + low;
    low - TWO_31
  }

  /** computePlannedStartDateT: with a work center, the planned end minus the
      entire cycle duration of the order (`cycleDuration`, cast to int);
      without one, the planned end. */
  function ComputePlannedStartDateT(operationOrder: OperationOrder, cycleDuration: int): (r: int)
    reads operationOrder
    ensures operationOrder.workCenter.None? ==> r == operationOrder.plannedEndDateT
    ensures operationOrder.workCenter.Some? ==>
      r == operationOrder.plannedEndDateT - ToInt32(cycleDuration)
  {
    if operationOrder.workCenter.Some? then
      operationOrder.plannedEndDateT - ToInt32(cycleDuration)
    else
      operationOrder.plannedEndDateT
  }

  /** For a cycle duration that fits in an int, the start is the end minus
      that duration, and a non-negative duration never puts the start after
      the end; a duration of 2^31 seconds or more is wrapped by the cast. */
  lemma PlannedStartBeforeEnd(operationOrder: OperationOrder, cycleDuration: int)
    requires operationOrder.workCenter.Some?
    requires 0 <= cycleDuration < TWO_31
    ensures ComputePlannedStartDateT(operationOrder, cycleDuration) == operationOrder.plannedEndDateT - cycleDuration
    ensures ComputePlannedStartDateT(operationOrder, cycleDuration) <= operationOrder.plannedEndDateT
  {
  }
}
