/**
 * The MCAN driver layer: peripheral selection and initialisation, the
 * acceptance filter, starting reception, transmission and the RX FIFO 0
 * completion callback. Each driver call's outcome is an input, and each
 * operation reports what it returned and the calls it made, in order.
 */
module Mcan {
  import opened Options
  import opened McanTypes
  import opened McanCodec
  import opened FdcanHal

  /** The peripheral instance a named interface stands for. */
  function InstanceFor(i: FdcanInterface): Instance {
    match i
    case Fdcan1Periph => Fdcan1
    case Fdcan2Periph => Fdcan2
  }

  /** The instance _MCAN_ConfigInterface picks for the interface value e. */
  function SelectInstance(e: bv32): Instance {
    if e == InterfaceCode(Fdcan1Periph) then Fdcan1
    else if e == InterfaceCode(Fdcan2Periph) then Fdcan2
    else Fdcan1
  }

  /**
   * Each named interface selects its own peripheral, and every value that
   * names no interface falls back to FDCAN1; so FDCAN2 is chosen for exactly
   * one value.
   */
  lemma SelectInstanceMatchesInterface(e: bv32)
    ensures InterfaceFromCode(e).Some? ==> SelectInstance(e) == InstanceFor(InterfaceFromCode(e).value)
    ensures InterfaceFromCode(e).None? ==> SelectInstance(e) == Fdcan1
    ensures SelectInstance(e) == Fdcan2 <==> e == InterfaceCode(Fdcan2Periph)
  {
  }

  /** The descriptor _MCAN_ConfigFilter programs. Its argument is not used. */
  function FilterDescriptor(uFilter: bv32): FilterDesc {
    FilterDesc(
      idType := ExtendedId,
      filterIndex := 0,
      filterType := FilterMask,
      filterConfig := FilterToRxFifo0,
      filterId1 := 0x01,
      filterId2 := 0x01)
  }

  /**
   * The filter is the same whatever is asked for: an extended-identifier
   * mask filter at index 0 that sends matches to RX FIFO 0. It accepts an
   * identifier exactly when bit 0 is set, that is when the time stamp is
   * odd: device and priority play no part.
   */
  lemma FixedFilter(uFilter: bv32, other: bv32, id: bv32)
    ensures FilterDescriptor(uFilter) == FilterDescriptor(other)
    ensures FilterDescriptor(uFilter).idType == ExtendedId
    ensures FilterDescriptor(uFilter).filterIndex == 0
    ensures FilterDescriptor(uFilter).filterType == FilterMask
    ensures FilterDescriptor(uFilter).filterConfig == FilterToRxFifo0
    ensures MaskFilterAccepts(FilterDescriptor(uFilter), id) <==> id & 1 == 1
    ensures MaskFilterAccepts(FilterDescriptor(uFilter), id) <==> Decode(id).timeStamp & 1 == 1
  {
  }

  /**
   * Two identifiers that differ only in their device fields are accepted or
   * rejected alike.
   */
  lemma FixedFilterIgnoresDevices(uFilter: bv32, a: bv32, b: bv32)
    requires a & !(RxDeviceMask | TxDeviceMask) == b & !(RxDeviceMask | TxDeviceMask)
    ensures MaskFilterAccepts(FilterDescriptor(uFilter), a) <==> MaskFilterAccepts(FilterDescriptor(uFilter), b)
  {
  }

  /**
   * MCAN_PeriphConfig, given whether HAL_FDCAN_Init and HAL_FDCAN_ConfigFilter
   * return HAL_OK. Initialisation of the selected peripheral comes first;
   * when it fails the filter is never touched. The result is true exactly
   * when both steps succeed.
   */
  function PeriphConfig(e: bv32, uFilter: bv32, initOk: bool, filterOk: bool): (r: Run)
    ensures r.ok <==> initOk && filterOk
    ensures 1 <= |r.calls| <= 2 && r.calls[0] == Init(SelectInstance(e))
    ensures !initOk ==> r.calls == [Init(SelectInstance(e))]
    ensures !initOk ==> forall c | c in r.calls :: !c.ConfigFilter?
    ensures initOk ==> r.calls[|r.calls| - 1] == ConfigFilter(FilterDescriptor(uFilter))
  {
    var init := Init(SelectInstance(e));
    if !initOk then Run(false, [init])
    else if !filterOk then Run(false, [init, ConfigFilter(FilterDescriptor(uFilter))])
    else Run(true, [init, ConfigFilter(FilterDescriptor(uFilter))])
  }

  /**
   * MCAN_StartRX_IT, given whether HAL_FDCAN_Start and
   * HAL_FDCAN_ActivateNotification return HAL_OK. Notification on new RX
   * FIFO 0 messages is requested only once the peripheral has started; the
   * result is true exactly when both succeed.
   */
  function StartRxIt(startOk: bool, notifyOk: bool): (r: Run)
    ensures r.ok <==> startOk && notifyOk
    ensures 1 <= |r.calls| <= 2 && r.calls[0] == Start
    ensures !startOk ==> r.calls == [Start]
    ensures !startOk ==> forall c | c in r.calls :: !c.ActivateNotification?
    ensures startOk ==> r.calls[|r.calls| - 1] == ActivateNotification(NewMessage, 0)
  {
    if !startOk then Run(false, [Start])
    else Run(notifyOk, [Start, ActivateNotification(NewMessage, 0)])
  }

  /** The fixed CAN-FD header MCAN_TX sends an identifier with. */
  function TxHeaderFor(identifier: bv32): TxHeader {
    TxHeader(
      identifier := identifier,
      idType := ExtendedId,
      txFrameType := DataFrame,
      dataLength := Dlc64,
      errorStateIndicator := EsiActive,
      bitRateSwitch := BrsOn,
      fdFormat := FdCan,
      txEventFifoControl := NoTxEvents,
      messageMarker := 0)
  }

  /**
   * MCAN_TX, given the identifier codec and whether
   * HAL_FDCAN_AddMessageToTxFifoQ returns HAL_OK. One frame is submitted: a
   * 64-byte FD data frame with bit-rate switching and no TX event, carrying
   * the message's payload. With the source's codec the identifier is the
   * type field plus the tx-device bits in the type slot; with the corrected
   * one it is a valid 29-bit extended identifier from which the message's
   * record decodes back, cut to its slots. The result is true exactly when
   * the submission is accepted.
   */
  function Transmit(codec: Codec, m: Message, fifoOk: bool): (r: Run)
    ensures r.ok == fifoOk
    ensures |r.calls| == 1 && r.calls[0].AddMessageToTxFifoQ?
    ensures r.calls[0].data == m.data
    ensures codec == AsWritten ==> r.calls[0].header.identifier == (m.id.txDevice & TypeMask) | m.id.msgType
    ensures codec == Corrected ==> Decode(r.calls[0].header.identifier) == Truncate(m.id)
    ensures codec == Corrected ==> r.calls[0].header.identifier & !IdMask == 0
    ensures r.calls[0].header.idType == ExtendedId
    ensures r.calls[0].header.txFrameType == DataFrame
    ensures r.calls[0].header.dataLength < 16
    ensures DlcBytes(r.calls[0].header.dataLength) == |m.data|
    ensures r.calls[0].header.errorStateIndicator == EsiActive
    ensures r.calls[0].header.bitRateSwitch == BrsOn
    ensures r.calls[0].header.fdFormat == FdCan
    ensures r.calls[0].header.txEventFifoControl == NoTxEvents
    ensures r.calls[0].header.messageMarker == 0
  {
    DecodeEncode(m.id);
    Run(fifoOk, [AddMessageToTxFifoQ(TxHeaderFor(EncodeWith(codec, m.id)), m.data)])
  }

  /** The registered receive buffer after the callback, and the calls it made. */
  datatype RxRun = RxRun(buffer: Message, calls: seq<Call>)

  /** The identifier record every field of which is 0. */
  const ZeroId: RawId := RawId(0, 0, 0, 0, 0)

  /**
   * HAL_FDCAN_RxFifo0Callback with the identifier codec, the interrupt
   * sources its, the frame the peripheral holds, whether
   * HAL_FDCAN_GetRxMessage and HAL_FDCAN_ActivateNotification return HAL_OK,
   * and the registered buffer.
   *
   * Without a new-message interrupt nothing happens. Otherwise the frame is
   * read, notification is re-armed whatever the read gave, the identifier is
   * decoded into the buffer and the handler is called once. The source's
   * codec leaves each field in place inside its mask; the corrected one
   * stores a fitting record that encodes back to the frame's 29 bits. A
   * read that fails leaves the zero-initialised header, which both codecs
   * decode to all zeros, and leaves the payload as it was.
   */
  function RxFifo0Callback(codec: Codec, its: set<RxFifo0It>, frame: RxFrame, readOk: bool, notifyOk: bool, buf: Message): (r: RxRun)
    ensures NewMessage !in its ==> r == RxRun(buf, [])
    ensures NewMessage in its ==>
      r.calls == [GetRxMessage(RxFifo0), ActivateNotification(NewMessage, 0), RxHandler(r.buffer)]
    ensures NewMessage in its && !readOk ==> r.buffer == Message(ZeroId, buf.data)
    ensures NewMessage in its && readOk && codec == AsWritten ==>
      && InMasks(r.buffer.id)
      && Join(r.buffer.id) == frame.identifier & IdMask
    ensures NewMessage in its && readOk && codec == Corrected ==>
      && Fits(r.buffer.id)
      && Encode(r.buffer.id) == frame.identifier & IdMask
    ensures NewMessage in its && readOk ==>
      && r.buffer.data[..|frame.data|] == frame.data
      && r.buffer.data[|frame.data|..] == buf.data[|frame.data|..]
  {
    if NewMessage !in its then RxRun(buf, [])
    else
      // _RxHeader starts zeroed and a failed read does not fill it.
      var identifier: bv32 := if readOk then frame.identifier else 0;
      var data: Payload := if readOk then frame.data + buf.data[|frame.data|..] else buf.data;
      var received := Message(DecodeWith(codec, identifier), data);
      RxRun(received, [GetRxMessage(RxFifo0), ActivateNotification(NewMessage, 0), RxHandler(received)])
  }

  /** What the re-arm call returns changes nothing the callback does. */
  lemma RxCallbackIgnoresNotifyResult(codec: Codec, its: set<RxFifo0It>, frame: RxFrame, readOk: bool, buf: Message)
    ensures RxFifo0Callback(codec, its, frame, readOk, true, buf) == RxFifo0Callback(codec, its, frame, readOk, false, buf)
  {
  }

  /**
   * With the corrected codec, a frame submitted by Transmit and read back by
   * the callback hands the handler the sent payload and the sent identifier
   * record cut to its slots, which is the sent record itself exactly when it
   * fits.
   */
  lemma TransmitThenReceive(m: Message, its: set<RxFifo0It>, notifyOk: bool, buf: Message)
    requires NewMessage in its
    ensures var sent := Transmit(Corrected, m, true).calls[0];
            var r := RxFifo0Callback(Corrected, its, RxFrame(sent.header.identifier, sent.data), true, notifyOk, buf);
            && r.buffer == Message(Truncate(m.id), m.data)
            && r.calls[2] == RxHandler(Message(Truncate(m.id), m.data))
            && (r.buffer == m <==> Fits(m.id))
  {
    DecodeEncode(m.id);
  }

  /**
   * With the source's codec, a message whose record holds named constants,
   * sent by Transmit and read back by the callback, reaches the handler with
   * the type's code as its time stamp and every other field 0. Only the
   * all-zero record (a Command from Power to Power at Emergency, stamp 0)
   * arrives as it was sent.
   */
  lemma TransmitThenReceiveAsWritten(id: McanId, data: Payload, its: set<RxFifo0It>, notifyOk: bool, buf: Message)
    requires NewMessage in its
    ensures var m := Message(ToRaw(id), data);
            var sent := Transmit(AsWritten, m, true).calls[0];
            var r := RxFifo0Callback(AsWritten, its, RxFrame(sent.header.identifier, sent.data), true, notifyOk, buf);
            && r.buffer == Message(RawId(0, 0, 0, 0, TypeCode(id.msgType)), data)
            && r.calls[2] == RxHandler(r.buffer)
            && (r.buffer == m <==> id == McanId(Command, Power, Power, Emergency, 0))
  {
    OrdinalsCollapseToType(id);
  }
}
