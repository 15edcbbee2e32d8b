/** The production entities read and written by the duration and planning
    services. Values that the services only read are datatypes; the
    operation order, whose planned figures the services set in place, is a
    class. */
module ProductionDb {
  import opened Wrappers

  /** A work center is a machine, a human resource, or both. */
  datatype WorkCenterType = Human | Machine | Both

  /** A work center, with the name of the machine attached to it, if any. */
  datatype WorkCenter = WorkCenter(name: string, typeSelect: WorkCenterType, machine: Option<string>)

  /** One step of a production process. Durations are in seconds;
      `durationPerCycle` (machine) and `humanDuration` are nullable in the
      database. `processCode` is the code of the owning process, absent when
      the line has no process. */
  datatype ProdProcessLine = ProdProcessLine(
    name: string,
    processCode: Option<string>,
    workCenter: Option<WorkCenter>,
    maxCapacityPerCycle: nat,
    durationPerCycle: Option<int>,
    humanDuration: Option<int>,
    startingDuration: int,
    endingDuration: int,
    setupDuration: int,
    priority: int)

  /** A production process: its code and its lines in order. */
  datatype ProdProcess = ProdProcess(code: string, lines: seq<ProdProcessLine>)

  /** An operation order. Dates are timestamps in seconds. */
  class OperationOrder {
    var outsourcing: bool
    var machine: Option<string>
    var workCenter: Option<WorkCenter>
    var plannedStartDateT: int
    var plannedEndDateT: int
    var plannedDuration: int
    var plannedMachineDuration: int
    var plannedHumanDuration: int

    constructor (outsourcing: bool, machine: Option<string>, workCenter: Option<WorkCenter>,
                 plannedStartDateT: int, plannedEndDateT: int)
      ensures this.outsourcing == outsourcing && this.machine == machine
      ensures this.workCenter == workCenter
      ensures this.plannedStartDateT == plannedStartDateT && this.plannedEndDateT == plannedEndDateT
      ensures plannedDuration == 0 && plannedMachineDuration == 0 && plannedHumanDuration == 0
    {
      this.outsourcing := outsourcing;
      this.machine := machine;
      this.workCenter := workCenter;
      this.plannedStartDateT := plannedStartDateT;
      this.plannedEndDateT := plannedEndDateT;
      plannedDuration := 0;
      plannedMachineDuration := 0;
      plannedHumanDuration := 0;
    }
  }
}
