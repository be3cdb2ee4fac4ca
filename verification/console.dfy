/**
 * ConsoleLog: a priority tag and a message laid out in a fixed 50-character
 * buffer, which is then written to the console UART whole.
 */
module Console {
  import opened Options

  /** CONSOLE_PRI_MAX_CHAR: the width of the priority tag. */
  const PriMaxChar: nat := 10

  /** CONSOLE_MAX_CHAR: the size of the console buffer. */
  const MaxChar: nat := 50

  /** LOG_PRI. */
  datatype LogPri = LogError | LogWarning | LogInfo | LogDebug

  function LogPriCode(p: LogPri): bv32 {
    match p
    case LogError => 0
    case LogWarning => 1
    case LogInfo => 2
    case LogDebug => 3
  }

  /** The priority a 32-bit value stands for, if any. */
  function LogPriFromCode(c: bv32): (r: Option<LogPri>)
    ensures r.Some? <==> c < 4
    ensures r.Some? ==> LogPriCode(r.value) == c
  {
    if c == 0 then Some(LogError)
    else if c == 1 then Some(LogWarning)
    else if c == 2 then Some(LogInfo)
    else if c == 3 then Some(LogDebug)
    else None
  }

  /** The tag written for each priority; every tag is exactly PriMaxChar wide. */
  function Tag(p: LogPri): (t: string)
    ensures |t| == PriMaxChar
  {
    match p
    case LogError => "[ERROR]   "
    case LogWarning => "[WARNING] "
    case LogInfo => "[INFO]    "
    case LogDebug => "[DEBUG]   "
  }

  /**
   * The first PriMaxChar characters of the buffer once the priority switch
   * has run: the tag, or the NULs memset left when no case matched.
   */
  function TagField(c: bv32): (t: string)
    ensures |t| == PriMaxChar
  {
    var p := LogPriFromCode(c);
    if p.Some? then Tag(p.value) else seq(PriMaxChar, _ => '\0')
  }

  /** The priority a tag field names, if any. */
  function ParseTag(t: string): Option<LogPri> {
    if t == Tag(LogError) then Some(LogError)
    else if t == Tag(LogWarning) then Some(LogWarning)
    else if t == Tag(LogInfo) then Some(LogInfo)
    else if t == Tag(LogDebug) then Some(LogDebug)
    else None
  }

  /**
   * The four tags are distinct and none is blank, so a reader of the tag
   * field recovers the priority, or learns that the value named none.
   */
  lemma ParseTagField(c: bv32)
    ensures ParseTag(TagField(c)) == LogPriFromCode(c)
  {
    // Each tag differs from the others at index 1 and from a blank field at index 0.
    assert Tag(LogError)[1] == 'E' && Tag(LogWarning)[1] == 'W';
    assert Tag(LogInfo)[1] == 'I' && Tag(LogDebug)[1] == 'D';
    assert Tag(LogError)[0] == '[';
  }

  /** A C string's characters, the ones before its terminating NUL. */
  type Text = s: string | '\0' !in s

  /**
   * A message ConsoleLog copies literally: a text with no '%', which vsprintf
   * would take as the start of a conversion reading an argument.
   */
  type LogText = s: Text | '%' !in s

  /** The console buffer. */
  type Buffer = s: string | |s| == MaxChar witness seq(50, _ => '\0')

  /** The C string starting at index start of b: the characters up to the first NUL or the end of b. */
  function CStringAt(b: string, start: nat): string
    decreases |b| - start
  {
    if start >= |b| || b[start] == '\0' then []
    else [b[start]] + CStringAt(b, start + 1)
  }

  /** A text written at start and followed by a NUL reads back as that text. */
  lemma {:induction false} CStringAtReadsBack(b: string, start: nat, m: Text)
    requires start + |m| < |b|
    requires b[start..start + |m|] == m
    requires b[start + |m|] == '\0'
    ensures CStringAt(b, start) == m
    decreases |m|
  {
    if |m| == 0 {
    } else {
      assert b[start] == m[0];
      assert b[start + 1..start + 1 + |m[1..]|] == m[1..];
      CStringAtReadsBack(b, start + 1, m[1..]);
    }
  }

  /**
   * totalLen as the source computes it: strlen(message) + CONSOLE_PRI_MAX_CHAR
   * stored in a uint16_t, so taken modulo 2^16.
   */
  function TotalLenAsWritten(m: LogText): nat {
    (|m| + PriMaxChar) % 0x1_0000
  }

  /** The source's guard: the message is refused only when totalLen exceeds the buffer. */
  predicate AcceptsAsWritten(m: LogText) {
    TotalLenAsWritten(m) <= MaxChar
  }

  /** The corrected guard: the tag, the message and its NUL all fit in the buffer. */
  predicate Accepts(m: LogText) {
    |m| + PriMaxChar < MaxChar
  }

  /**
   * Whether the accepted path writes index i: memset writes the whole
   * buffer, sprintf the tag and its NUL when the priority has a tag, and
   * vsprintf the message and its NUL from index PriMaxChar on.
   */
  predicate Written(c: bv32, m: LogText, i: int) {
    || 0 <= i < MaxChar
    || (LogPriFromCode(c).Some? && 0 <= i <= PriMaxChar)
    || PriMaxChar <= i <= PriMaxChar + |m|
  }

  ghost predicate WritesInBounds(c: bv32, m: LogText) {
    forall i :: Written(c, m, i) ==> 0 <= i < MaxChar
  }

  /** The corrected guard admits a message exactly when every write lands inside the buffer. */
  lemma GuardKeepsWritesInBounds(c: bv32, m: LogText)
    ensures Accepts(m) <==> WritesInBounds(c, m)
  {
    assert Written(c, m, PriMaxChar + |m|);
  }

  /**
   * A 40-character message passes the source's guard, and its terminating
   * NUL lands at index 50, one past the end of the buffer.
   */
  lemma AsWrittenGuardOverrun(c: bv32, m: LogText)
    requires |m| == 40
    ensures AcceptsAsWritten(m)
    ensures Written(c, m, MaxChar)
    ensures !WritesInBounds(c, m)
  {
    assert Written(c, m, PriMaxChar + |m|);
  }

  /**
   * A 65526-character message makes totalLen wrap to 0, so it passes the
   * source's guard and is written tens of thousands of characters past the
   * end of the buffer.
   */
  lemma AsWrittenGuardWraps(c: bv32, m: LogText)
    requires |m| == 65526
    ensures TotalLenAsWritten(m) == 0
    ensures AcceptsAsWritten(m)
    ensures !WritesInBounds(c, m)
  {
    assert Written(c, m, PriMaxChar + |m|);
  }

  /**
   * Below the wrap-around, the 40-character message is the only one the
   * source's guard admits whose writes leave the buffer.
   */
  lemma AsWrittenGuardOverrunsOnlyAtForty(c: bv32, m: LogText)
    requires |m| < 65526
    ensures AcceptsAsWritten(m) && !WritesInBounds(c, m) <==> |m| == 40
  {
    GuardKeepsWritesInBounds(c, m);
  }

  /**
   * ConsoleLog with the priority value pri, a message without format
   * directives, and the buffer's earlier contents.
   *
   * A message too long for the buffer is refused: nothing is written and
   * nothing sent. Otherwise the buffer is cleared, the tag for pri (or
   * nothing) fills indices 0 to 9, the message follows from index 10 with
   * a NUL after it and NULs to the end, and all 50 characters go to the
   * UART whatever the message's length. A reader recovers both the priority
   * and the message from what was sent.
   */
  method ConsoleLog(pri: bv32, message: LogText, prior: Buffer) returns (ok: bool, buffer: Buffer, uart: string)
    ensures ok <==> Accepts(message)
    ensures !ok ==> buffer == prior && uart == []
    ensures ok ==> uart == buffer
    ensures ok ==> buffer[..PriMaxChar] == TagField(pri)
    ensures ok ==> buffer[PriMaxChar..PriMaxChar + |message|] == message
    ensures ok ==> forall i | PriMaxChar + |message| <= i < MaxChar :: buffer[i] == '\0'
    ensures ok ==> ParseTag(buffer[..PriMaxChar]) == LogPriFromCode(pri)
    ensures ok ==> CStringAt(buffer, PriMaxChar) == message
  {
    if |message| + PriMaxChar >= MaxChar {
      return false, prior, [];
    }
    // Clear the whole buffer.
    buffer := prior;
    var i := 0;
    while i < MaxChar
      invariant 0 <= i <= MaxChar
      invariant forall k | 0 <= k < i :: buffer[k] == '\0'
    {
      buffer := buffer[i := '\0'];
      i := i + 1;
    }
    // The priority switch writes the tag, then its NUL at index 10.
    var p := LogPriFromCode(pri);
    if p.Some? {
      var tag := Tag(p.value);
      var j := 0;
      while j < PriMaxChar
        invariant 0 <= j <= PriMaxChar
        invariant forall k | 0 <= k < j :: buffer[k] == tag[k]
        invariant forall k | j <= k < MaxChar :: buffer[k] == '\0'
      {
        buffer := buffer[j := tag[j]];
        j := j + 1;
      }
      buffer := buffer[PriMaxChar := '\0'];
    }
    assert buffer[..PriMaxChar] == TagField(pri);
    // Format the message from index 10: the text, then its NUL.
    var n := 0;
    while n < |message|
      invariant 0 <= n <= |message|
      invariant buffer[..PriMaxChar] == TagField(pri)
      invariant forall k | 0 <= k < n :: buffer[PriMaxChar + k] == message[k]
      invariant forall k | PriMaxChar + n <= k < MaxChar :: buffer[k] == '\0'
    {
      buffer := buffer[PriMaxChar + n := message[n]];
      n := n + 1;
    }
    buffer := buffer[PriMaxChar + |message| := '\0'];
    // Send all 50 characters to the UART.
    uart := buffer;
    ok := true;
    ParseTagField(pri);
    CStringAtReadsBack(buffer, PriMaxChar, message);
  }
}
