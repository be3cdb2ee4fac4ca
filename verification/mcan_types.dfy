/**
 * The enumerations and records of the MCAN header: the peripheral selector,
 * message categories, device addresses, priorities, the identifier record and
 * the message record.
 *
 * C enumerations are plain integers: a field or argument of enumeration type
 * can hold any 32-bit value, not just the named ones. Each enumeration is
 * therefore given its code (the value C assigns to each name) and a partial
 * inverse from 32-bit words back to names.
 */
module McanTypes {
  import opened Options

  /** FDCAN_INTERFACE: which of the two FDCAN peripherals to drive. */
  datatype FdcanInterface = Fdcan1Periph | Fdcan2Periph

  function InterfaceCode(i: FdcanInterface): bv32 {
    match i
    case Fdcan1Periph => 0
    case Fdcan2Periph => 1
  }

  /** The named interface a 32-bit value stands for, if any. */
  function InterfaceFromCode(c: bv32): (r: Option<FdcanInterface>)
    ensures r.Some? <==> c < 2
    ensures r.Some? ==> InterfaceCode(r.value) == c
  {
    if c == 0 then Some(Fdcan1Periph)
    else if c == 1 then Some(Fdcan2Periph)
    else None
  }

  /** MCAN_TYPE: the category of a message. */
  datatype McanType = Command | Response | VehicleState | SensorData | Log

  function TypeCode(t: McanType): bv32 {
    match t
    case Command => 0
    case Response => 1
    case VehicleState => 2
    case SensorData => 3
    case Log => 4
  }

  function TypeFromCode(c: bv32): (r: Option<McanType>)
    ensures r.Some? <==> c < 5
    ensures r.Some? ==> TypeCode(r.value) == c
  {
    if c == 0 then Some(Command)
    else if c == 1 then Some(Response)
    else if c == 2 then Some(VehicleState)
    else if c == 3 then Some(SensorData)
    else if c == 4 then Some(Log)
    else None
  }

  /**
   * MCAN_DEV: a node on the bus. AllDevices is one more ordinal (5), not a
   * bit mask covering the others.
   */
  datatype McanDev = Power | MainCompute | Deployment | Mio | Camera | AllDevices

  function DevCode(d: McanDev): bv32 {
    match d
    case Power => 0
    case MainCompute => 1
    case Deployment => 2
    case Mio => 3
    case Camera => 4
    case AllDevices => 5
  }

  function DevFromCode(c: bv32): (r: Option<McanDev>)
    ensures r.Some? <==> c < 6
    ensures r.Some? ==> DevCode(r.value) == c
  {
    if c == 0 then Some(Power)
    else if c == 1 then Some(MainCompute)
    else if c == 2 then Some(Deployment)
    else if c == 3 then Some(Mio)
    else if c == 4 then Some(Camera)
    else if c == 5 then Some(AllDevices)
    else None
  }

  /** MCAN_PRI: message priority; a lower code is more urgent. */
  datatype McanPri = Emergency | Error | Warning | Debug

  function PriCode(p: McanPri): bv32 {
    match p
    case Emergency => 0
    case Error => 1
    case Warning => 2
    case Debug => 3
  }

  function PriFromCode(c: bv32): (r: Option<McanPri>)
    ensures r.Some? <==> c < 4
    ensures r.Some? ==> PriCode(r.value) == c
  {
    if c == 0 then Some(Emergency)
    else if c == 1 then Some(Error)
    else if c == 2 then Some(Warning)
    else if c == 3 then Some(Debug)
    else None
  }

  /** Every named value survives the trip to its code and back. */
  lemma CodesRoundTrip(i: FdcanInterface, t: McanType, d: McanDev, p: McanPri)
    ensures InterfaceFromCode(InterfaceCode(i)) == Some(i)
    ensures TypeFromCode(TypeCode(t)) == Some(t)
    ensures DevFromCode(DevCode(d)) == Some(d)
    ensures PriFromCode(PriCode(p)) == Some(p)
  {
  }

  /** a is declared before b in MCAN_PRI, so it has the smaller code. */
  predicate MoreUrgent(a: McanPri, b: McanPri) {
    PriCode(a) < PriCode(b)
  }

  /**
   * The declaration order of MCAN_PRI, from Emergency to Debug, is a strict
   * total order on priorities. Emergency comes before every other priority
   * and Debug after every other one. This documents the code order only:
   * nothing in the driver sorts or compares priorities.
   */
  lemma UrgencyOrder(a: McanPri, b: McanPri, c: McanPri)
    ensures !MoreUrgent(a, a)
    ensures a != b ==> MoreUrgent(a, b) || MoreUrgent(b, a)
    ensures MoreUrgent(a, b) && MoreUrgent(b, c) ==> MoreUrgent(a, c)
    ensures a != Emergency ==> MoreUrgent(Emergency, a)
    ensures a != Debug ==> MoreUrgent(a, Debug)
  {
    // Comparing codes of unknown priorities is costly for the solver; with
    // the priorities fixed each comparison is between two literals.
    match a
    case Emergency =>
    case Error =>
    case Warning =>
    case Debug =>
  }

  /** sMCAN_ID as the application fills it in, with named constants. */
  datatype McanId = McanId(
    msgType: McanType,
    txDevice: McanDev,
    rxDevice: McanDev,
    priority: McanPri,
    timeStamp: bv32)

  /**
   * sMCAN_ID as the words it holds. The decoder stores masked identifier bits
   * in these fields whether or not they name an enumeration member, so each
   * field is a 32-bit word.
   */
  datatype RawId = RawId(
    msgType: bv32,
    txDevice: bv32,
    rxDevice: bv32,
    priority: bv32,
    timeStamp: bv32)

  /** The words a record filled with named constants holds. */
  function ToRaw(id: McanId): RawId {
    RawId(TypeCode(id.msgType), DevCode(id.txDevice), DevCode(id.rxDevice),
          PriCode(id.priority), id.timeStamp)
  }

  /** The named constants a record of words stands for, if every field names one. */
  function FromRaw(r: RawId): Option<McanId> {
    var t := TypeFromCode(r.msgType);
    var tx := DevFromCode(r.txDevice);
    var rx := DevFromCode(r.rxDevice);
    var p := PriFromCode(r.priority);
    if t.Some? && tx.Some? && rx.Some? && p.Some?
    then Some(McanId(t.value, tx.value, rx.value, p.value, r.timeStamp))
    else None
  }

  /** Reading the names back from a record of named constants gives the record. */
  lemma FromRawToRaw(id: McanId)
    ensures FromRaw(ToRaw(id)) == Some(id)
  {
    CodesRoundTrip(Fdcan1Periph, id.msgType, id.txDevice, id.priority);
    CodesRoundTrip(Fdcan1Periph, id.msgType, id.rxDevice, id.priority);
  }

  /**
   * FromRaw rejects exactly the records holding a word outside some
   * enumeration's codes, and what it accepts converts back to the same words.
   */
  lemma ToRawFromRaw(r: RawId)
    ensures FromRaw(r).Some? <==>
      r.msgType < 5 && r.txDevice < 6 && r.rxDevice < 6 && r.priority < 4
    ensures FromRaw(r).Some? ==> ToRaw(FromRaw(r).value) == r
  {
  }

  /** Size of mcanData, the CAN-FD maximum payload. */
  const PayloadSize: nat := 64

  type Payload = s: seq<bv8> | |s| == PayloadSize witness seq(64, _ => 0)

  /** sMCAN_Message: an identifier record and a 64-byte payload. */
  datatype Message = Message(id: RawId, data: Payload)
}
