/**
 * The records MCAN hands to the FDCAN and UART drivers, and the driver calls
 * themselves. The drivers are foreign code: the model records which call is
 * made with which descriptor, and takes each call's HAL_OK or failure as an
 * input.
 */
module FdcanHal {
  import opened McanTypes

  /** The two FDCAN peripheral instances. */
  datatype Instance = Fdcan1 | Fdcan2

  datatype IdType = StandardId | ExtendedId

  datatype FilterType = FilterRange | FilterDual | FilterMask | FilterRangeNoEidm

  /** Where a matching frame goes. */
  datatype FilterConfig =
    | FilterDisable
    | FilterToRxFifo0
    | FilterToRxFifo1
    | FilterReject
    | FilterHighPriority
    | FilterToRxFifo0HighPriority
    | FilterToRxFifo1HighPriority

  /** FDCAN_FilterTypeDef. */
  datatype FilterDesc = FilterDesc(
    idType: IdType,
    filterIndex: nat,
    filterType: FilterType,
    filterConfig: FilterConfig,
    filterId1: bv32,
    filterId2: bv32)

  /**
   * The classic bit-mask filter rule: FilterID1 is the identifier to look
   * for and FilterID2 the mask of the bits that must agree with it.
   */
  predicate MaskFilterAccepts(f: FilterDesc, id: bv32)
    requires f.filterType == FilterMask
  {
    id & f.filterId2 == f.filterId1 & f.filterId2
  }

  datatype FrameType = DataFrame | RemoteFrame

  datatype ErrorStateIndicator = EsiActive | EsiPassive

  datatype BitRateSwitch = BrsOff | BrsOn

  datatype FdFormat = ClassicCan | FdCan

  datatype TxEventFifoControl = NoTxEvents | StoreTxEvents

  /** FDCAN_TxHeaderTypeDef; dataLength is the CAN-FD data length code. */
  datatype TxHeader = TxHeader(
    identifier: bv32,
    idType: IdType,
    txFrameType: FrameType,
    dataLength: nat,
    errorStateIndicator: ErrorStateIndicator,
    bitRateSwitch: BitRateSwitch,
    fdFormat: FdFormat,
    txEventFifoControl: TxEventFifoControl,
    messageMarker: nat)

  /** The data length code for a 64-byte CAN-FD payload. */
  const Dlc64: nat := 15

  /** Payload bytes of a CAN-FD data length code (ISO 11898-1). */
  function DlcBytes(dlc: nat): nat
    requires dlc < 16
  {
    if dlc <= 8 then dlc
    else [12, 16, 20, 24, 32, 48, 64][dlc - 9]
  }

  datatype RxFifo = RxFifo0 | RxFifo1

  /** The RX FIFO 0 interrupt sources. */
  datatype RxFifo0It = NewMessage | FifoFull | MessageLost

  /** The payload of a received frame: at most 64 bytes. */
  type FrameData = s: seq<bv8> | |s| <= PayloadSize

  /** What HAL_FDCAN_GetRxMessage hands back: the identifier and the payload. */
  datatype RxFrame = RxFrame(identifier: bv32, data: FrameData)

  /** The calls MCAN makes, in the order it makes them. */
  datatype Call =
    | Init(instance: Instance)
    | ConfigFilter(filter: FilterDesc)
    | Start
    | ActivateNotification(source: RxFifo0It, bufferIndexes: nat)
    | AddMessageToTxFifoQ(header: TxHeader, data: Payload)
    | GetRxMessage(fifo: RxFifo)
    | RxHandler(message: Message)

  /** A run of a driver-facing operation: what it returned and the calls it made. */
  datatype Run = Run(ok: bool, calls: seq<Call>)
}
