/** The IPAllocation resource as the controller reads and writes it. */
module Kube {
  import opened Net

  /** Readings of the clock. */
  type Time = int

  /** An address field: absent, not an address, or parsed. */
  datatype AddrText = Empty | Malformed | Parsed(addr: Addr)

  /** The Allocated condition: whether its status is True, and its last transition time. */
  datatype Condition = Condition(isTrue: bool, since: Time)

  datatype Phase = Pending | Allocated | Programmed | Failed

  datatype Status = Status(phase: Phase, address: AddrText, advertised: bool, interfaceName: string,
                           allocCond: Option<Condition>)

  datatype AllocSpec = AllocSpec(address: AddrText, poolName: string, family: Option<Family>)

  datatype Allocation = Allocation(name: string, uid: nat, version: nat, finalizer: bool, deleting: bool,
                                   spec: AllocSpec, status: Status)

  /** The address an allocation shows as allocated, with the time of the transition. */
  predicate Shows(s: Status, ip: Addr) {
    s.address == Parsed(ip) && s.allocCond.Some? && s.allocCond.value.isTrue
  }

  predicate ShowsSome(s: Status) {
    s.address.Parsed? && s.allocCond.Some? && s.allocCond.value.isTrue
  }
}
