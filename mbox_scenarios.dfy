/**
  * What the model of mbox.go does on the archives of mbox_test.go, stated
  * and proved. Bytes are written out; each constant's comment gives the
  * text it spells.
  */
module MboxScenarios {
  import opened MboxText
  import opened Mbox

  /** "From foo@bar.com\n" */
  const Envelope: seq<bv8> := [0x46, 0x72, 0x6F, 0x6D, 0x20, 0x66, 0x6F, 0x6F, 0x40, 0x62, 0x61, 0x72, 0x2E, 0x63, 0x6F, 0x6D, 0x0A]
  /** "Subject: Hello world\n" */
  const Subject: seq<bv8> := [0x53, 0x75, 0x62, 0x6A, 0x65, 0x63, 0x74, 0x3A, 0x20, 0x48, 0x65, 0x6C, 0x6C, 0x6F, 0x20, 0x77, 0x6F, 0x72, 0x6C, 0x64, 0x0A]
  /** "\n" */
  const Blank: seq<bv8> := [0x0A]
  /** "Test message\n" */
  const Body: seq<bv8> := [0x54, 0x65, 0x73, 0x74, 0x20, 0x6D, 0x65, 0x73, 0x73, 0x61, 0x67, 0x65, 0x0A]
  /** "From foo\n" */
  const FromFoo: seq<bv8> := [0x46, 0x72, 0x6F, 0x6D, 0x20, 0x66, 0x6F, 0x6F, 0x0A]
  /** "From " */
  const MarkerOnly: seq<bv8> := [0x46, 0x72, 0x6F, 0x6D, 0x20]
  /** " From " */
  const SpacedMarker: seq<bv8> := [0x20, 0x46, 0x72, 0x6F, 0x6D, 0x20]
  /** "From   \t\t  \t\t" */
  const BlankEnvelope: seq<bv8> := [0x46, 0x72, 0x6F, 0x6D, 0x20, 0x20, 0x20, 0x09, 0x09, 0x20, 0x20, 0x09, 0x09]
  /** "foo@bar.com" */
  const Sender: seq<bv8> := [0x66, 0x6F, 0x6F, 0x40, 0x62, 0x61, 0x72, 0x2E, 0x63, 0x6F, 0x6D]
  /** "Subject: Hello wo", the part of the Subject line that fits the previous line's length */
  const SubjectCut: seq<bv8> := [0x53, 0x75, 0x62, 0x6A, 0x65, 0x63, 0x74, 0x3A, 0x20, 0x48, 0x65, 0x6C, 0x6C, 0x6F, 0x20, 0x77, 0x6F]

  /** mboxWith1Message: an envelope, one header, the blank separator and a body line. */
  function OneMessage(): Source {
    Source(Envelope + (Subject + (Blank + Body)), false)
  }

  /** mboxWithMessageNoHeaders: an envelope directly followed by the blank separator. */
  function NoHeaders(): Source {
    Source(Envelope + (Blank + Body), false)
  }

  /** A lookahead holding the envelope line validates to the sender "foo@bar.com". */
  lemma EnvelopeValidates(c: Cursor)
    requires |c.prefetch| == Capacity && c.prefetchLength == c.sliceLen == |Envelope|
    requires c.prefetch[..|Envelope|] == Envelope
    ensures ExtractSendingAddress(c) == Ok(Sender)
  {
    var line := c.prefetch[..|Envelope|];
    assert c.prefetch[5..c.sliceLen] == line[5..];
    assert c.prefetch[..5] == line[..5];
    EnvelopeParts();
  }

  /** The envelope line is the marker followed by text that trims to the sender. */
  lemma EnvelopeParts()
    ensures Envelope[..5] == FromMarker
    ensures TrimSpace(Envelope[5..]) == Sender && !AllSpace(Envelope[5..])
  {
    var text := Envelope[5..];
    assert text == Sender + [Newline];
    assert TrimmedAt(text, 0, |Sender|);
    TrimSpaceUnique(text, 0, |Sender|);
  }

  /**
    * "\nFrom foo\n" is refused although its second line is an envelope: the
    * first line is "\n", so the first five bytes of the array are a newline
    * and four zero bytes. The reader is still returned, with the error.
    */
  lemma OpenRefusesLeadingNewline()
    ensures var o := CreateStep(Source(Blank + FromFoo, false));
      o.reader.Some? && o.err == Some(LineError(1, NotFramed))
  {
    var src := Source(Blank + FromFoo, false);
    TakeLineOf(Blank, FromFoo);
    var c := CreateStep(src).reader.value;
    assert c.prefetch[..5][0] == Newline;
  }

  /** "From " alone is framed but shorter than six bytes. */
  lemma OpenRefusesMarkerOnly()
    ensures var o := CreateStep(Source(MarkerOnly, false));
      o.reader.Some? && o.err == Some(LineError(1, NoSender))
  {
    var src := Source(MarkerOnly, false);
    TakeLineAtEnd(MarkerOnly);
    var c := CreateStep(src).reader.value;
    assert c.prefetch[..5] == MarkerOnly;
  }

  /** " From " is refused: the marker must start at the first byte. */
  lemma OpenRefusesLeadingSpace()
    ensures var o := CreateStep(Source(SpacedMarker, false));
      o.reader.Some? && o.err == Some(LineError(1, NotFramed))
  {
    var src := Source(SpacedMarker, false);
    TakeLineAtEnd(SpacedMarker);
    var c := CreateStep(src).reader.value;
    assert c.prefetch[..5][0] == SpacedMarker[0];
  }

  /** "From   \t\t  \t\t" is refused: the sender is all whitespace. */
  lemma OpenRefusesBlankSender()
    ensures var o := CreateStep(Source(BlankEnvelope, false));
      o.reader.Some? && o.err == Some(LineError(1, BlankSender))
  {
    var src := Source(BlankEnvelope, false);
    TakeLineAtEnd(BlankEnvelope);
    var c := CreateStep(src).reader.value;
    var line := c.prefetch[..|BlankEnvelope|];
    assert c.prefetch[..5] == line[..5];
    assert c.prefetch[5..c.sliceLen] == line[5..];
    BlankEnvelopeParts();
  }

  /** The blank envelope is the marker followed by blanks and tabs only. */
  lemma BlankEnvelopeParts()
    ensures BlankEnvelope[..5] == FromMarker
    ensures AllSpace(BlankEnvelope[5..])
  {
  }

  /** The reader opened on the one-message archive: no error, line 1, the envelope as lookahead. */
  lemma OpenOneMessage()
    ensures var o := CreateStep(OneMessage());
      o.reader.Some? && o.err == None &&
      o.reader.value.currentLine == 1 && o.reader.value.pos == |Envelope| &&
      o.reader.value.sliceLen == |Envelope| && o.reader.value.prefetch[..|Envelope|] == Envelope
  {
    var src := OneMessage();
    TakeLineOf(Envelope, Subject + (Blank + Body));
    EnvelopeValidates(CreateStep(src).reader.value);
  }

  /**
    * Reading from the envelope of the one-message archive: the message has
    * sender "foo@bar.com" and no headers, and the cursor moves to line 2.
    * The Subject line is longer than the envelope before it, so only its
    * first 17 bytes are copied and the lookahead reads "Subject: Hello wo"
    * followed by four zero bytes.
    */
  lemma ReadFromEnvelope(c: Cursor)
    requires WellFormed(c, OneMessage()) && c.pos == |Envelope|
    requires c.sliceLen == c.prefetchLength == |Envelope| && c.prefetch[..|Envelope|] == Envelope
    requires forall i :: |Envelope| <= i < Capacity ==> c.prefetch[i] == 0
    ensures LineFits(c, OneMessage())
    ensures var o := ReadMessageStep(c, OneMessage());
      o.msg == Some(Message(map[], Sender)) && o.err == None &&
      o.next.currentLine == c.currentLine + 1 && o.next.sliceLen == |Subject| &&
      o.next.prefetch[..|Subject|] == SubjectCut + [0, 0, 0, 0]
  {
    var src := OneMessage();
    assert Rest(c, src) == Subject + (Blank + Body);
    TakeLineOf(Subject, Blank + Body);
    EnvelopeValidates(c);
    var r := NextLineStep(c, src);
    assert Min(c.sliceLen, |Subject|) == |Envelope|;
    SubjectOverEnvelope(c.prefetch, r.next.prefetch);
    assert ReadMessageStep(c, src).next == r.next;
  }

  /**
    * Copying the Subject line over a 17-byte envelope slice whose array is
    * zero past the envelope: the first 21 bytes read "Subject: Hello wo" and
    * four zero bytes.
    */
  lemma SubjectOverEnvelope(before: seq<bv8>, after: seq<bv8>)
    requires |before| == |after| == Capacity
    requires forall i :: 0 <= i < |Envelope| ==> after[i] == Subject[i]
    requires forall i :: |Envelope| <= i < Capacity ==> after[i] == before[i]
    requires forall i :: |Envelope| <= i < Capacity ==> before[i] == 0
    ensures after[..|Subject|] == SubjectCut + [0, 0, 0, 0]
  {
    assert forall i :: 0 <= i < |Envelope| ==> SubjectCut[i] == Subject[i];
  }

  /** A lookahead that starts with "S" is no envelope: reading fails at the current line. */
  lemma ReadFromNonEnvelope(d: Cursor, src: Source)
    requires WellFormed(d, src) && LineFits(d, src) && d.prefetch[0] == Subject[0]
    ensures ReadMessageStep(d, src).err == Some(LineError(d.currentLine, NotFramed))
  {
    assert d.prefetch[..5][0] == Subject[0];
  }

  /**
    * The one-message archive, read twice: the first read yields the message,
    * the second fails at line 2, because the lookahead is the Subject line.
    */
  lemma ReadOneMessage()
    ensures var c := CreateStep(OneMessage()).reader.value;
      WellFormed(c, OneMessage()) && LineFits(c, OneMessage()) &&
      var o := ReadMessageStep(c, OneMessage());
      o.msg == Some(Message(map[], Sender)) &&
      LineFits(o.next, OneMessage()) &&
      ReadMessageStep(o.next, OneMessage()).err == Some(LineError(2, NotFramed))
  {
    var src := OneMessage();
    OpenOneMessage();
    var c := CreateStep(src).reader.value;
    ReadFromEnvelope(c);
    var o := ReadMessageStep(c, src);
    assert o.next.prefetch[0] == o.next.prefetch[..|Subject|][0];
    assert Rest(o.next, src) == Blank + Body;
    TakeLineOf(Blank, Body);
    ReadFromNonEnvelope(o.next, src);
  }

  /**
    * An envelope followed at once by the blank separator is accepted:
    * ReadMessage never looks at headers, so the message comes back with
    * sender "foo@bar.com" and no error.
    */
  lemma ReadHeaderlessMessage()
    ensures var c := CreateStep(NoHeaders()).reader.value;
      WellFormed(c, NoHeaders()) && LineFits(c, NoHeaders()) &&
      ReadMessageStep(c, NoHeaders()).msg == Some(Message(map[], Sender))
  {
    var src := NoHeaders();
    TakeLineOf(Envelope, Blank + Body);
    var c := CreateStep(src).reader.value;
    assert Rest(c, src) == Blank + Body;
    TakeLineOf(Blank, Body);
    EnvelopeValidates(c);
  }

  /**
    * The same archive through MboxReader itself, as the tests drive it:
    * CreateMboxReader returns a reader and no error, and ReadMessage returns
    * the message from foo@bar.com.
    */
  method ReadOneMessageThroughReader() returns (msg: Option<Message>, err: Option<Error>)
    ensures msg == Some(Message(map[], Sender)) && err == None
  {
    var src := OneMessage();
    OpenOneMessage();
    var c := CreateStep(src).reader.value;
    ReadFromEnvelope(c);
    var m;
    m, err := MboxReader.CreateMboxReader(src.input, src.failsAtEnd);
    msg, err := m.ReadMessage();
  }
}
