/**
  * The mbox reader of mbox.go: a cursor over a byte stream that keeps one
  * line of lookahead in a fixed 1000-byte array, validates the "From "
  * envelope line held there and turns it into a Message.
  *
  * Each operation that changes the reader is a method of the class MboxReader
  * whose new state is tied to a step function over Cursor, a snapshot of the
  * reader's fields; what mbox.go promises is proved about those functions.
  */
module Mbox {
  import opened MboxText

  /** Size of the array behind the lookahead slice (make([]byte, 1000)). */
  const Capacity: nat := 1000

  /** The envelope marker "From " (with its space), as bytes. */
  const FromMarker: seq<bv8> := [0x46, 0x72, 0x6F, 0x6D, 0x20]

  /** The three messages the envelope validator reports. */
  const NotFramed: string := "Mbox file not properly framed; 'From ' expected"
  const NoSender: string := "Sender address expected"
  const BlankSender: string := "Sender address cannot be whitespace"

  datatype Option<T> = None | Some(value: T)

  /**
    * A returned error: a message tagged with the line counter that was
    * current when it was raised (rendered "<line>:<text>" by errorf), or a
    * failure of the underlying reader other than end of input.
    */
  datatype Error = LineError(line: int, text: string) | IoFailure

  datatype Result<T> = Ok(value: T) | Err(error: Error)

  /**
    * A message of message.go: its header map and its sending address. The
    * reader never adds a header, so the map it builds is always empty.
    */
  datatype Message = Message(headers: map<seq<bv8>, seq<seq<bv8>>>, sendingAddress: seq<bv8>)

  /**
    * What the wrapped io.Reader yields: the bytes of input, then either end of
    * input (failsAtEnd false) or a read failure (failsAtEnd true) that
    * repeats on every later read.
    */
  datatype Source = Source(input: seq<bv8>, failsAtEnd: bool)

  /**
    * The fields of an MboxReader: the backing array of the prefetch slice,
    * the slice's length len(prefetch), prefetchLength, currentLine, and how
    * many bytes of the source have been consumed.
    */
  datatype Cursor = Cursor(prefetch: seq<bv8>, sliceLen: int, prefetchLength: int, currentLine: int, pos: int)

  predicate WellFormed(c: Cursor, src: Source) {
    |c.prefetch| == Capacity && 0 <= c.prefetchLength <= c.sliceLen <= Capacity &&
    0 <= c.pos <= |src.input|
  }

  function Min(a: int, b: int): (r: int) {
    if a <= b then a else b
  }

  /** The bytes still to be read. */
  function Rest(c: Cursor, src: Source): (r: seq<bv8>)
    requires 0 <= c.pos <= |src.input|
  {
    src.input[c.pos..]
  }

  /** ReadSlice('\n') returns an error other than io.EOF: no newline is left and the source fails at its end. */
  predicate ReadFails(c: Cursor, src: Source)
    requires 0 <= c.pos <= |src.input|
  {
    src.failsAtEnd && Newline !in Rest(c, src)
  }

  /** The next line fits the 1000-byte backing array (a longer one makes the reslice panic). */
  predicate LineFits(c: Cursor, src: Source)
    requires 0 <= c.pos <= |src.input|
  {
    |TakeLine(Rest(c, src))| <= Capacity
  }

  /** Every line of the source fits the backing array. */
  predicate AllLinesFit(src: Source) {
    forall p :: 0 <= p <= |src.input| ==> |TakeLine(src.input[p..])| <= Capacity
  }

  /** The reader as CreateMboxReader allocates it, before its first read. */
  function Initial(): (r: Cursor) {
    Cursor(seq(Capacity, _ => 0 as bv8), Capacity, 0, 0, 0)
  }

  /**
    * The backing array after copy(dst[0:dstLen], src): the first
    * min(dstLen, |src|) bytes come from src, every other byte is unchanged.
    */
  function CopyPrefix(dst: seq<bv8>, dstLen: int, src: seq<bv8>): (r: seq<bv8>)
    requires 0 <= dstLen <= |dst|
    ensures |r| == |dst|
    ensures forall i :: 0 <= i < Min(dstLen, |src|) ==> r[i] == src[i]
    ensures forall i :: Min(dstLen, |src|) <= i < |dst| ==> r[i] == dst[i]
  {
    var n := Min(dstLen, |src|);
    src[..n] + dst[n..]
  }

  /** The error a validation result carries, if any. */
  function ErrorOf<T>(r: Result<T>): (e: Option<Error>) {
    match r
    case Ok(_) => None
    case Err(e) => Some(e)
  }

  datatype Step = Step(err: Option<Error>, next: Cursor)

  /**
    * nextLine: reads the next line, copies it over the start of the backing
    * array and reslices. End of input is not an error; any other read
    * failure is returned and leaves the lookahead as it was.
    */
  function NextLineStep(c: Cursor, src: Source): (r: Step)
    requires WellFormed(c, src) && LineFits(c, src)
    ensures WellFormed(r.next, src)
    ensures r.err.Some? <==> ReadFails(c, src)
    ensures r.err.Some? ==> r.err.value == IoFailure && r.next == c.(pos := |src.input|)
    ensures r.err.None? ==>
      var line := TakeLine(Rest(c, src));
      r.next.sliceLen == r.next.prefetchLength == |line| &&
      r.next.currentLine == c.currentLine + 1 &&
      r.next.pos == c.pos + |line| &&
      (forall i :: 0 <= i < Min(c.sliceLen, |line|) ==> r.next.prefetch[i] == line[i]) &&
      (forall i :: Min(c.sliceLen, |line|) <= i < Capacity ==> r.next.prefetch[i] == c.prefetch[i])
  {
    var line := TakeLine(Rest(c, src));
    if ReadFails(c, src) then Step(Some(IoFailure), c.(pos := |src.input|))
    else Step(None, Cursor(CopyPrefix(c.prefetch, c.sliceLen, line), |line|, |line|, c.currentLine + 1, c.pos + |line|))
  }

  /**
    * extractSendingAddress: the first five bytes of the backing array must be
    * "From " (whatever the current line length), the line must be at least six
    * bytes long, and what follows the marker must not be all whitespace; the
    * sender is that text with its surrounding whitespace trimmed.
    */
  function ExtractSendingAddress(c: Cursor): (r: Result<seq<bv8>>)
    requires |c.prefetch| == Capacity && 0 <= c.prefetchLength <= c.sliceLen <= Capacity
    ensures r.Ok? <==>
      c.prefetch[..5] == FromMarker && c.prefetchLength >= 6 && !AllSpace(c.prefetch[5..c.sliceLen])
    ensures r.Ok? ==>
      r.value == TrimSpace(c.prefetch[5..c.sliceLen]) &&
      r.value != [] && !IsSpace(r.value[0]) && !IsSpace(r.value[|r.value| - 1])
    ensures c.prefetch[..5] != FromMarker ==> r == Err(LineError(c.currentLine, NotFramed))
    ensures c.prefetch[..5] == FromMarker && c.prefetchLength < 6 ==> r == Err(LineError(c.currentLine, NoSender))
    ensures c.prefetch[..5] == FromMarker && c.prefetchLength >= 6 && AllSpace(c.prefetch[5..c.sliceLen]) ==>
      r == Err(LineError(c.currentLine, BlankSender))
  {
    // each error is made as errorf makes it: the message tagged with the current line counter
    if c.prefetch[..5] != FromMarker then Err(LineError(c.currentLine, NotFramed))
    else if c.prefetchLength < 6 then Err(LineError(c.currentLine, NoSender))
    else
      var who := TrimSpace(c.prefetch[5..c.sliceLen]);
      if who == [] then Err(LineError(c.currentLine, BlankSender))
      else
        assert who[0] == who[..1][0] && who[|who| - 1] == who[|who| - 1..][0];
        Ok(who)
  }

  datatype Opened = Opened(reader: Option<Cursor>, err: Option<Error>)

  /**
    * CreateMboxReader: allocates a zeroed 1000-byte array, reads the first
    * line and validates it without consuming it. A failed read yields no
    * reader; a failed validation yields the reader together with the error.
    */
  function CreateStep(src: Source): (o: Opened)
    requires LineFits(Initial(), src)
    ensures o.reader.None? <==> ReadFails(Initial(), src)
    ensures o.reader.None? ==> o.err == Some(IoFailure)
    ensures o.reader.Some? ==>
      var c := o.reader.value;
      var line := TakeLine(src.input);
      WellFormed(c, src) && c.currentLine == 1 && c.pos == |line| &&
      c.sliceLen == c.prefetchLength == |line| &&
      c.prefetch[..|line|] == line &&
      (forall i :: |line| <= i < Capacity ==> c.prefetch[i] == 0) &&
      o.err == ErrorOf(ExtractSendingAddress(c))
  {
    var s := NextLineStep(Initial(), src);
    if s.err.Some? then Opened(None, s.err)
    else
      assert s.next.prefetch[..|TakeLine(src.input)|] == TakeLine(src.input);
      Opened(Some(s.next), ErrorOf(ExtractSendingAddress(s.next)))
  }

  datatype Parsed = Parsed(who: seq<bv8>, err: Option<Error>, next: Cursor)

  /** parseFrom: validates the lookahead and, only when it is a valid envelope, advances one line. */
  function ParseFromStep(c: Cursor, src: Source): (p: Parsed)
    requires WellFormed(c, src) && (ExtractSendingAddress(c).Ok? ==> LineFits(c, src))
    ensures WellFormed(p.next, src)
    ensures ExtractSendingAddress(c).Err? ==> p.who == [] && p.next == c && p.err == Some(ExtractSendingAddress(c).error)
    ensures ExtractSendingAddress(c).Ok? ==>
      p.who == TrimSpace(c.prefetch[5..c.sliceLen]) && p.who != [] &&
      (p.err.None? <==> !ReadFails(c, src)) &&
      p.next.prefetchLength == (if ReadFails(c, src) then c.prefetchLength else |TakeLine(Rest(c, src))|) &&
      p.next.currentLine == c.currentLine + (if ReadFails(c, src) then 0 else 1) &&
      p.next == NextLineStep(c, src).next && p.err == NextLineStep(c, src).err
  {
    match ExtractSendingAddress(c)
    case Err(e) => Parsed([], Some(e), c)
    case Ok(who) =>
      var s := NextLineStep(c, src);
      Parsed(who, s.err, s.next)
  }

  datatype Outcome = Outcome(msg: Option<Message>, err: Option<Error>, next: Cursor)

  /**
    * ReadMessage: yields a message exactly when the lookahead is a valid
    * envelope and the following read does not fail. The message carries the
    * trimmed sender and no headers, and the cursor has moved one line on.
    * Otherwise there is no message and the lookahead (array, lengths and
    * counter) is unchanged; a failed validation does not move the cursor at all.
    */
  function ReadMessageStep(c: Cursor, src: Source): (o: Outcome)
    requires WellFormed(c, src) && (ExtractSendingAddress(c).Ok? ==> LineFits(c, src))
    ensures WellFormed(o.next, src)
    ensures o.msg.Some? <==> o.err.None?
    ensures o.msg.Some? <==> ExtractSendingAddress(c).Ok? && !ReadFails(c, src)
    ensures o.msg.Some? ==>
      o.msg.value.headers == map[] &&
      o.msg.value.sendingAddress == TrimSpace(c.prefetch[5..c.sliceLen]) &&
      o.next.currentLine == c.currentLine + 1 &&
      o.next.pos == c.pos + |TakeLine(Rest(c, src))| &&
      o.next.prefetchLength == |TakeLine(Rest(c, src))|
    ensures o.msg.None? ==>
      o.next.prefetch == c.prefetch && o.next.sliceLen == c.sliceLen &&
      o.next.prefetchLength == c.prefetchLength && o.next.currentLine == c.currentLine
    ensures ExtractSendingAddress(c).Err? ==> o == Outcome(None, Some(ExtractSendingAddress(c).error), c)
    ensures ExtractSendingAddress(c).Ok? && ReadFails(c, src) ==> o.err == Some(IoFailure)
    ensures ExtractSendingAddress(c).Ok? ==> o.next == NextLineStep(c, src).next
  {
    var p := ParseFromStep(c, src);
    if p.err.Some? then Outcome(None, p.err, p.next)
    else Outcome(Some(Message(map[], p.who)), None, p.next)
  }

  /**
    * A read at end of input succeeds: the lookahead becomes the empty line,
    * the array is untouched and the line counter still goes up by one.
    */
  lemma NextLineAtEndOfInput(c: Cursor, src: Source)
    requires WellFormed(c, src) && c.pos == |src.input| && !src.failsAtEnd
    ensures LineFits(c, src)
    ensures var r := NextLineStep(c, src);
      r.err == None && r.next == c.(sliceLen := 0, prefetchLength := 0, currentLine := c.currentLine + 1)
  {
    assert Rest(c, src) == [];
    var r := NextLineStep(c, src);
    assert r.next.prefetch == c.prefetch;
  }

  /**
    * After a successful read the lookahead slice holds exactly the line just
    * read if and only if the bytes the copy skipped (those past the previous
    * length) already held the line's bytes.
    */
  lemma {:induction false} LookaheadExactIff(c: Cursor, src: Source)
    requires WellFormed(c, src) && LineFits(c, src) && !ReadFails(c, src)
    ensures var line := TakeLine(Rest(c, src));
      var next := NextLineStep(c, src).next;
      next.prefetch[..|line|] == line <==>
        forall i :: c.sliceLen <= i < |line| ==> c.prefetch[i] == line[i]
  {
    var line := TakeLine(Rest(c, src));
    var next := NextLineStep(c, src).next;
    if next.prefetch[..|line|] == line {
      forall i | c.sliceLen <= i < |line| ensures c.prefetch[i] == line[i] {
        assert next.prefetch[..|line|][i] == next.prefetch[i];
      }
    }
    if forall i :: c.sliceLen <= i < |line| ==> c.prefetch[i] == line[i] {
      assert forall i :: 0 <= i < |line| ==> next.prefetch[..|line|][i] == line[i];
    }
  }

  /**
    * A lookahead that fails validation is never consumed: reading again
    * returns the same error and leaves the reader as it was.
    */
  lemma FailedReadIsStable(c: Cursor, src: Source)
    requires WellFormed(c, src) && ExtractSendingAddress(c).Err?
    ensures ReadMessageStep(c, src).next == c
    ensures ReadMessageStep(ReadMessageStep(c, src).next, src) == ReadMessageStep(c, src)
  {
  }

  /**
    * Every error ReadMessage returns is either a read failure or one of the
    * three validator messages tagged with the line counter as it was before
    * the call.
    */
  lemma ErrorsCarryCurrentLine(c: Cursor, src: Source)
    requires WellFormed(c, src) && (ExtractSendingAddress(c).Ok? ==> LineFits(c, src))
    ensures var o := ReadMessageStep(c, src);
      o.err.Some? ==>
        o.err.value == IoFailure ||
        o.err.value in {LineError(c.currentLine, NotFramed), LineError(c.currentLine, NoSender),
                        LineError(c.currentLine, BlankSender)}
  {
  }

  /**
    * The sender is the text after the marker with its surrounding whitespace
    * removed: for any split of that text into whitespace, a part that neither
    * starts nor ends with whitespace, and whitespace, a framed line of at
    * least six bytes validates to exactly that part.
    */
  lemma {:induction false} SenderIsTrimmedText(c: Cursor, i: int, j: int)
    requires |c.prefetch| == Capacity && 6 <= c.prefetchLength <= c.sliceLen <= Capacity
    requires c.prefetch[..5] == FromMarker
    requires TrimmedAt(c.prefetch[5..c.sliceLen], i, j) && i < j
    ensures ExtractSendingAddress(c) == Ok(c.prefetch[5 + i..5 + j])
  {
    var text := c.prefetch[5..c.sliceLen];
    assert text[i..j] == c.prefetch[5 + i..5 + j] by {
      assert forall m :: 0 <= m < j - i ==> text[i..j][m] == c.prefetch[5 + i + m];
    }
    TrimSpaceUnique(text, i, j);
    assert !AllSpace(text) by { assert !IsSpace(text[i]); }
  }

  /**
    * An MboxReader: the prefetch slice (its backing array and its length),
    * prefetchLength, the 1-based line counter, and the byte source it reads
    * through, with how much of it has been consumed.
    */
  class MboxReader {
    var prefetch: array<bv8>
    var sliceLen: int
    var prefetchLength: int
    var currentLine: int
    var pos: int
    const input: seq<bv8>
    const failsAtEnd: bool

    ghost predicate Valid()
      reads this, prefetch
    {
      WellFormed(State(), Stream()) && AllLinesFit(Stream())
    }

    /** The reader's fields as a Cursor. */
    function State(): (c: Cursor)
      reads this, prefetch
    {
      Cursor(prefetch[..], sliceLen, prefetchLength, currentLine, pos)
    }

    function Stream(): (src: Source) {
      Source(input, failsAtEnd)
    }

    /** The reader as allocated at the start of CreateMboxReader, before its first read. */
    constructor (input: seq<bv8>, failsAtEnd: bool)
      requires AllLinesFit(Source(input, failsAtEnd))
      ensures Valid() && fresh(prefetch)
      ensures this.input == input && this.failsAtEnd == failsAtEnd
      ensures State() == Initial()
    {
      prefetch := new bv8[Capacity](_ => 0);
      sliceLen := Capacity;
      prefetchLength := 0;
      currentLine := 0;
      pos := 0;
      this.input := input;
      this.failsAtEnd := failsAtEnd;
    }

    /** nextLine, the one method that moves the cursor. */
    method NextLine() returns (err: Option<Error>)
      requires Valid()
      modifies this, prefetch
      ensures Valid() && prefetch == old(prefetch)
      ensures Step(err, State()) == NextLineStep(old(State()), Stream())
    {
      ghost var c := State();
      assert LineFits(c, Stream()) by { assert Rest(c, Stream()) == input[pos..]; }
      var rest := input[pos..];
      var line := TakeLine(rest);
      if failsAtEnd && Newline !in rest {
        pos := |input|;
        return Some(IoFailure);
      }
      var _ := Copy(prefetch, sliceLen, line);
      sliceLen := |line|;
      prefetchLength := sliceLen;
      currentLine := currentLine + 1;
      pos := pos + |line|;
      return None;
    }

    /** parseFrom: the sender of the lookahead envelope, advancing past it only when it is valid. */
    method ParseFrom() returns (who: seq<bv8>, err: Option<Error>)
      requires Valid()
      modifies this, prefetch
      ensures Valid() && prefetch == old(prefetch)
      ensures Parsed(who, err, State()) == ParseFromStep(old(State()), Stream())
    {
      assert LineFits(State(), Stream());
      var r := ExtractSendingAddress(State());
      if r.Err? {
        return [], Some(r.error);
      }
      who := r.value;
      err := NextLine();
    }

    /** ReadMessage: the next message, or no message and the error. */
    method ReadMessage() returns (msg: Option<Message>, err: Option<Error>)
      requires Valid()
      modifies this, prefetch
      ensures Valid() && prefetch == old(prefetch)
      ensures Outcome(msg, err, State()) == ReadMessageStep(old(State()), Stream())
    {
      var who;
      who, err := ParseFrom();
      if err.Some? {
        msg := None;
      } else {
        msg := Some(Message(map[], who));
      }
    }

    /** CreateMboxReader: no reader when the first read fails, else the reader and the validation error, if any. */
    static method CreateMboxReader(input: seq<bv8>, failsAtEnd: bool) returns (m: MboxReader?, err: Option<Error>)
      requires AllLinesFit(Source(input, failsAtEnd))
      ensures var o := CreateStep(Source(input, failsAtEnd));
        err == o.err && (m == null <==> o.reader.None?) &&
        (m != null ==>
          fresh(m) && fresh(m.prefetch) && m.Valid() &&
          m.Stream() == Source(input, failsAtEnd) && m.State() == o.reader.value)
    {
      m := new MboxReader(input, failsAtEnd);
      err := m.NextLine();
      if err.Some? {
        m := null;
        return;
      }
      err := ErrorOf(ExtractSendingAddress(m.State()));
    }
  }

  /**
    * Go's copy(dst[0:dstLen], src) into the backing array: copies
    * min(dstLen, |src|) bytes and returns that count.
    */
  method Copy(dst: array<bv8>, dstLen: int, src: seq<bv8>) returns (n: int)
    requires 0 <= dstLen <= dst.Length
    modifies dst
    ensures n == Min(dstLen, |src|)
    ensures dst[..] == CopyPrefix(old(dst[..]), dstLen, src)
  {
    n := Min(dstLen, |src|);
    var i := 0;
    while i < n
      invariant 0 <= i <= n
      invariant forall k :: 0 <= k < i ==> dst[k] == src[k]
      invariant forall k :: i <= k < dst.Length ==> dst[k] == old(dst[k])
    {
      dst[i] := src[i];
      i := i + 1;
    }
    assert dst[..] == CopyPrefix(old(dst[..]), dstLen, src);
  }
}
