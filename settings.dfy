/** The configuration values the core is built from. The model takes them as
    a value; `Deployed` holds the values the repository ships with. */
module Settings {

  datatype Config = Config(
    numSupplierLot: nat,
    numSupplierPallet: nat,
    lotInvenLevel: nat,
    palletInvenLevel: nat,
    numMachinesCnc: nat,
    procTimeCutting: nat,
    capacityMachineCutting: nat,
    numStcMachinesAmr: nat,
    stcProcTimeTransit: nat,
    numCtiMachinesAmr: nat,
    ctiProcTimeTransit: nat,
    capacityMachineAmr: nat,
    numWorkersInInspect: nat,
    procTimeInspect: nat,
    policyReprocInsertPosition: string,
    eventLogging: bool)

  /** A configuration the resources can be built from: SimPy refuses a
      resource whose capacity is not positive. */
  predicate Buildable(c: Config) {
    c.capacityMachineCutting > 0 && c.capacityMachineAmr > 0
  }

  const Deployed: Config := Config(
    1, 1, 100000000, 10000000,
    2, 180, 1,
    2, 3, 2, 3, 6,
    5, 0,
    "FRONT", true)
}
