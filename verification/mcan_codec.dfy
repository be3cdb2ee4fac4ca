/**
 * The MCAN identifier codec: five bit fields of the 29-bit extended CAN
 * identifier (ISO 11898-1), and the conversions between an identifier word
 * and the identifier record.
 *
 * Two codecs live here. DecodeAsWritten and EncodeAsWritten follow the source
 * line by line; the lemmas about them show that encoding does not invert
 * decoding and that named constants do not reach their slots. Decode and
 * Encode are the corrected pair (each field shifted between bit 0 and its
 * slot, the slots laid over one another): the rest of the model uses them.
 */
module McanCodec {
  import opened Options
  import opened McanTypes

  // Field masks, in place within the identifier word.
  const StampMask: bv32 := 0x7FFF << 0
  const PriorityMask: bv32 := 0x07 << 15
  const RxDeviceMask: bv32 := 0x0F << 18
  const TxDeviceMask: bv32 := 0x0F << 22
  const TypeMask: bv32 := 0x07 << 26

  /** The 29 bits of an extended identifier. */
  const IdMask: bv32 := 0x1FFF_FFFF

  /**
   * The five masks are pairwise disjoint and together cover exactly the 29
   * bits of an extended identifier, nothing above bit 28.
   */
  lemma MasksPartitionIdentifier()
    ensures StampMask & PriorityMask == 0 && StampMask & RxDeviceMask == 0
    ensures StampMask & TxDeviceMask == 0 && StampMask & TypeMask == 0
    ensures PriorityMask & RxDeviceMask == 0 && PriorityMask & TxDeviceMask == 0
    ensures PriorityMask & TypeMask == 0
    ensures RxDeviceMask & TxDeviceMask == 0 && RxDeviceMask & TypeMask == 0
    ensures TxDeviceMask & TypeMask == 0
    ensures StampMask | PriorityMask | RxDeviceMask | TxDeviceMask | TypeMask == IdMask
    ensures IdMask & !0x1FFF_FFFF == 0
  {
  }

  /** Every field of r holds bits of its own mask only. */
  predicate InMasks(r: RawId) {
    && r.timeStamp & !StampMask == 0
    && r.priority & !PriorityMask == 0
    && r.rxDevice & !RxDeviceMask == 0
    && r.txDevice & !TxDeviceMask == 0
    && r.msgType & !TypeMask == 0
  }

  /** The word the fields of r make when laid over one another. */
  function Join(r: RawId): bv32 {
    r.timeStamp | r.priority | r.rxDevice | r.txDevice | r.msgType
  }

  /**
   * Two records whose fields lie in their masks are equal when they join to
   * the same word: the masks are disjoint, so each field is the join cut down
   * to its mask.
   */
  lemma JoinDeterminesRecord(a: RawId, b: RawId)
    requires InMasks(a) && InMasks(b)
    requires Join(a) == Join(b)
    ensures a == b
  {
  }

  // ---------------------------------------------------------------------
  // The codec as written
  // ---------------------------------------------------------------------

  /**
   * _MCAN_Conv_Uint32_To_ID: each field receives the identifier word ANDed
   * with its mask, unshifted. The fields so obtained lie in their masks and
   * lay over one another to the identifier's low 29 bits: bits 29 to 31 are
   * dropped and nothing else is lost.
   */
  function DecodeAsWritten(w: bv32): (r: RawId)
    ensures InMasks(r)
    ensures Join(r) == w & IdMask
  {
    RawId(
      msgType := w & TypeMask,
      txDevice := w & TxDeviceMask,
      rxDevice := w & RxDeviceMask,
      priority := w & PriorityMask,
      timeStamp := w & StampMask)
  }

  /** One step of _MCAN_Conv_ID_To_Uint32: keep the running bits inside mask, then OR the field in. */
  function EncodeStepAsWritten(u: bv32, mask: bv32, field: bv32): bv32 {
    (u & mask) | field
  }

  /**
   * _MCAN_Conv_ID_To_Uint32: starting from 0, each step keeps only the bits
   * of the running word inside the next field's mask. The masks are
   * disjoint, so the word that comes out is the type field plus whatever
   * the tx-device field has in the type slot; every other field is lost.
   */
  function EncodeAsWritten(r: RawId): (w: bv32)
    ensures w == (r.txDevice & TypeMask) | r.msgType
  {
    var u0: bv32 := 0;
    var u1 := EncodeStepAsWritten(u0, StampMask, r.timeStamp);
    var u2 := EncodeStepAsWritten(u1, PriorityMask, r.priority);
    var u3 := EncodeStepAsWritten(u2, RxDeviceMask, r.rxDevice);
    var u4 := EncodeStepAsWritten(u3, TxDeviceMask, r.txDevice);
    EncodeStepAsWritten(u4, TypeMask, r.msgType)
  }

  /**
   * Encoding a decoded identifier keeps only its type bits. The intended
   * round trip, giving back the identifier's 29 bits, therefore holds exactly
   * when the identifier has no bit set below the type slot.
   */
  lemma EncodeAsWrittenRoundTrip(w: bv32)
    ensures EncodeAsWritten(DecodeAsWritten(w)) == w & TypeMask
    ensures EncodeAsWritten(DecodeAsWritten(w)) == w & IdMask
            <==> w & (IdMask & !TypeMask) == 0
  {
  }

  /** Identifier 1 (time stamp 1, every other field 0) comes back as 0. */
  lemma EncodeAsWrittenCounterexample()
    ensures DecodeAsWritten(1) == RawId(0, 0, 0, 0, 1)
    ensures EncodeAsWritten(DecodeAsWritten(1)) == 0
    ensures EncodeAsWritten(DecodeAsWritten(1)) != 1 & IdMask
  {
  }

  /**
   * The opposite trip as written: a record whose fields lie in their masks
   * is recovered from its encoding exactly when only its type field is
   * non-zero.
   */
  lemma DecodeAsWrittenOfEncode(r: RawId)
    requires InMasks(r)
    ensures DecodeAsWritten(EncodeAsWritten(r)) == r
            <==> r.timeStamp == 0 && r.priority == 0 && r.rxDevice == 0 && r.txDevice == 0
  {
    var e := DecodeAsWritten(EncodeAsWritten(r));
    assert e.timeStamp == 0 && e.priority == 0 && e.rxDevice == 0 && e.txDevice == 0;
  }

  /**
   * A record filled with named constants, as the application fills it,
   * encodes as written to the type's code and nothing else: the codes are
   * small numbers that sit in the time-stamp slot, and the masks drop all
   * but the last. Decoding that word reads the type's code as a time stamp
   * and every other field as 0.
   */
  lemma OrdinalsCollapseToType(id: McanId)
    ensures EncodeAsWritten(ToRaw(id)) == TypeCode(id.msgType)
    ensures DecodeAsWritten(EncodeAsWritten(ToRaw(id))) == RawId(0, 0, 0, 0, TypeCode(id.msgType))
  {
    assert DevCode(id.txDevice) & TypeMask == 0;
    assert TypeCode(id.msgType) & StampMask == TypeCode(id.msgType);
  }

  /**
   * The identifier of the demonstration transmitter (type Log, both devices
   * AllDevices, priority Debug, stamp 0) goes on the wire as 4, which a
   * receiver decodes as a Command from Power to Power at priority Emergency
   * with time stamp 4.
   */
  lemma DemoIdentifierCollapses()
    ensures EncodeAsWritten(ToRaw(McanId(Log, AllDevices, AllDevices, Debug, 0))) == 4
    ensures DecodeAsWritten(4) == RawId(TypeCode(Command), DevCode(Power), DevCode(Power), PriCode(Emergency), 4)
  {
    OrdinalsCollapseToType(McanId(Log, AllDevices, AllDevices, Debug, 0));
  }

  // ---------------------------------------------------------------------
  // The corrected codec
  // ---------------------------------------------------------------------

  /** Every field of r is a value small enough for its slot (15, 3, 4, 4 and 3 bits). */
  predicate Fits(r: RawId) {
    && r.timeStamp & !0x7FFF == 0
    && r.priority & !0x7 == 0
    && r.rxDevice & !0xF == 0
    && r.txDevice & !0xF == 0
    && r.msgType & !0x7 == 0
  }

  /**
   * Each field cut to the width of its slot. A 32-bit time stamp keeps only
   * its low 15 bits. The result fits, and it is r itself exactly when r fits.
   */
  function Truncate(r: RawId): (t: RawId)
    ensures Fits(t)
    ensures Fits(r) ==> t == r
  {
    RawId(r.msgType & 0x7, r.txDevice & 0xF, r.rxDevice & 0xF, r.priority & 0x7, r.timeStamp & 0x7FFF)
  }

  /** Each field is its slot's bits, shifted down to bit 0. Every decoded field fits its slot. */
  function Decode(w: bv32): (r: RawId)
    ensures Fits(r)
  {
    RawId(
      msgType := (w & TypeMask) >> 26,
      txDevice := (w & TxDeviceMask) >> 22,
      rxDevice := (w & RxDeviceMask) >> 18,
      priority := (w & PriorityMask) >> 15,
      timeStamp := w & StampMask)
  }

  /**
   * The corrected encoder: each field shifted to its slot's offset, cut to
   * the slot, and the five laid over one another. Its result is a valid
   * 29-bit extended identifier.
   */
  function Encode(r: RawId): (w: bv32)
    ensures w & !IdMask == 0
  {
    (r.timeStamp & StampMask)
    | ((r.priority << 15) & PriorityMask)
    | ((r.rxDevice << 18) & RxDeviceMask)
    | ((r.txDevice << 22) & TxDeviceMask)
    | ((r.msgType << 26) & TypeMask)
  }

  /** Encoding a decoded identifier gives back its 29 bits, for every identifier word. */
  lemma EncodeDecode(w: bv32)
    ensures Encode(Decode(w)) == w & IdMask
  {
  }

  /**
   * Decoding an encoded record gives back each field cut to its slot's width,
   * so exactly the records that fit come back unchanged.
   */
  lemma DecodeEncode(r: RawId)
    ensures Decode(Encode(r)) == Truncate(r)
    ensures Decode(Encode(r)) == r <==> Fits(r)
  {
  }

  /** Every record of named constants fits, provided its time stamp is below 2^15. */
  lemma ToRawFits(id: McanId)
    ensures Fits(ToRaw(id)) <==> id.timeStamp < 0x8000
  {
  }

  /** Cutting a record of named constants to its slots cuts only its time stamp. */
  lemma TruncateToRaw(id: McanId)
    ensures Truncate(ToRaw(id)) == ToRaw(id.(timeStamp := id.timeStamp & 0x7FFF))
  {
  }

  /**
   * The round trip for records filled with named constants: encoding then
   * decoding then reading the names back gives the same record, for every
   * time stamp below 2^15; a larger stamp comes back cut to 15 bits.
   */
  lemma LogicalRoundTrip(id: McanId)
    ensures FromRaw(Decode(Encode(ToRaw(id)))) == Some(id.(timeStamp := id.timeStamp & 0x7FFF))
    ensures FromRaw(Decode(Encode(ToRaw(id)))) == Some(id) <==> id.timeStamp < 0x8000
  {
    var cut := id.(timeStamp := id.timeStamp & 0x7FFF);
    DecodeEncode(ToRaw(id));
    TruncateToRaw(id);
    FromRawToRaw(cut);
  }

  // ---------------------------------------------------------------------
  // Choosing a codec
  // ---------------------------------------------------------------------

  /** Which identifier codec a driver operation uses: the source's or the corrected one. */
  datatype Codec = AsWritten | Corrected

  function EncodeWith(c: Codec, r: RawId): bv32 {
    match c
    case AsWritten => EncodeAsWritten(r)
    case Corrected => Encode(r)
  }

  /**
   * Both codecs decode the zero word to the all-zero record. The source's
   * leaves each field in place inside its mask; the corrected one gives a
   * fitting record that encodes back to the word's 29 bits.
   */
  function DecodeWith(c: Codec, w: bv32): (r: RawId)
    ensures w == 0 ==> r == RawId(0, 0, 0, 0, 0)
    ensures c == AsWritten ==> InMasks(r) && Join(r) == w & IdMask
    ensures c == Corrected ==> Fits(r) && Encode(r) == w & IdMask
  {
    match c
    case AsWritten => DecodeAsWritten(w)
    case Corrected => EncodeDecode(w); Decode(w)
  }
}
