# mbox reader — a Dafny model

This project models the reader of the Go package `mbox`: `MboxReader` keeps one
line of lookahead over a byte stream. The line sits in a slice of a fixed
1000-byte array. The reader checks that this lookahead is a `From ` envelope
line and turns it into a `Message`, whose sender is the trimmed text after the
marker.

Files:

- `mbox_text.dfy` (module `MboxText`) holds the byte-level helpers the reader
  calls. `TrimSpace` is `strings.TrimSpace` over ASCII whitespace.
  `TakeLine` is the line `bufio.Reader.ReadSlice('\n')` returns.
- `mbox.dfy` (module `Mbox`) models mbox.go and the `Message` record of
  message.go.
  - The class `MboxReader` has the Go struct's fields. `prefetch` is the
    backing array and `sliceLen` is `len(prefetch)`. `prefetchLength` and
    `currentLine` are the Go fields of the same name. The wrapped reader is
    the constant input bytes with a consumed count `pos`.
  - Its methods `NextLine`, `ParseFrom` and `ReadMessage` change the object
    in place, with the in-place `copy` as a loop (`Copy`). The static method
    `CreateMboxReader` allocates a new reader and performs its first read.
  - Each method's postcondition ties its results and new state to a step
    function over `Cursor`, a snapshot of the fields. These are
    `NextLineStep`, `ParseFromStep`, `ReadMessageStep` and `CreateStep`. The
    properties are proved about those functions.
  - `ExtractSendingAddress` is a pure function of the snapshot, as in Go.
- `mbox_scenarios.dfy` (module `MboxScenarios`) states and proves what the
  model does on the archives of mbox_test.go.

The model keeps the behaviour as written:

- `copy(m.prefetch, slice)` copies only `min(len(prefetch), len(slice))`
  bytes. A line longer than the one before it therefore leaves older bytes in
  the lookahead. After the first message of the one-message test archive is
  read, the lookahead is `Subject: Hello wo` followed by four zero bytes.
- The `From ` test reads the first five bytes of the backing array, even when
  the current line is shorter than that.
- End of input is not an error: a read at end of input yields an empty
  lookahead and still increments the line counter. The comment on `nextLine`
  promises `io.EOF`.

Where the comments and tests of the package and its code disagree, the model
follows the code. `ReadMessage`'s doc comment (mbox.go:24-26) and the tests at
mbox_test.go:181-309 expect header parsing. `ReadMessage` does not parse
headers: its message has an empty header map, and it advances only past the
envelope line. `ReadHeaderlessMessage` shows that an envelope followed by a
blank line is accepted.

## Model

| member | source | states |
|---|---|---|
| `MboxText.TrimSpace` | mbox.go:67 | the result is an infix of its input with only whitespace outside it; it is empty exactly when the input is all whitespace |
| `MboxText.TrimSpaceUnique` | mbox.go:67 | any split into whitespace, a part neither starting nor ending with whitespace, and whitespace has TrimSpace as that part |
| `MboxText.TakeLine` | mbox.go:101 | the line read is the prefix of the remaining bytes through the first newline, or all of them when no newline is left |
| `Mbox.CopyPrefix` | mbox.go:105 | the array after `copy`: the first min(slice length, line length) bytes come from the line, every other byte keeps its old value, and the length is unchanged |
| `Mbox.Copy` | mbox.go:105 | copies min(slice length, line length) bytes into the backing array and leaves every other byte unchanged |
| `Mbox.NextLineStep` | mbox.go:100-110 | on success both lengths equal the line's length, the counter rises by one, positions below min(old length, line length) hold the line and every other position keeps its byte; a non-EOF read failure is returned and leaves the lookahead, lengths and counter unchanged |
| `Mbox.MboxReader.NextLine` | mbox.go:100-110 | the new fields and the returned error are those of NextLineStep on the old fields; the backing array is the same object |
| `Mbox.NextLineAtEndOfInput` | mbox.go:98-109 | at end of input the read returns no error, both lengths become 0, the array is untouched and the counter still rises by one |
| `Mbox.LookaheadExactIff` | mbox.go:105-107 | after a read the lookahead slice equals the line just read if and only if the bytes past the old length already held the line's bytes |
| `Mbox.ExtractSendingAddress` | mbox.go:60-72 | succeeds iff the first five array bytes are "From ", the length is at least 6 and the text after the marker is not all whitespace; the sender is that text trimmed, non-empty, without surrounding whitespace; otherwise the framing, length and whitespace errors in that order, each tagged with the current line |
| `Mbox.SenderIsTrimmedText` | mbox.go:64-71 | for a framed line of at least six bytes, the validator returns exactly the part of the text after the marker that is left between leading and trailing whitespace |
| `Mbox.ErrorsCarryCurrentLine` | mbox.go:44-47 | every error ReadMessage returns is a read failure or one of the three validator messages tagged with the line counter current at the check |
| `Mbox.CreateStep` | mbox.go:78-92 | a failed first read gives no reader; otherwise the reader is on line 1 with the whole first line in the array, zeros after it, and the validator's error, if any |
| `Mbox.MboxReader.constructor` | mbox.go:79-82 | a fresh 1000-byte zeroed array, slice length 1000, prefetchLength 0, counter 0, nothing consumed |
| `Mbox.MboxReader.CreateMboxReader` | mbox.go:78-92 | returns null exactly when CreateStep gives no reader; otherwise a fresh valid reader whose fields are CreateStep's reader, and CreateStep's error |
| `Mbox.ParseFromStep` | mbox.go:52-58 | a failed validation returns an empty sender and exactly the validator's error, and does not move; a valid envelope returns the trimmed sender, a non-empty one, together with the error and the new lookahead of the read that follows |
| `Mbox.MboxReader.ParseFrom` | mbox.go:52-58 | sender, error and new fields are those of ParseFromStep on the old fields |
| `Mbox.ReadMessageStep` | mbox.go:27-39 | a message comes back exactly when there is no error, i.e. when validation succeeds and the read does not fail; it has an empty header map and the trimmed sender; after a valid envelope the new lookahead is the one the following read leaves, stale bytes included; without a message the array, lengths and counter are unchanged |
| `Mbox.MboxReader.ReadMessage` | mbox.go:27-39 | message, error and new fields are those of ReadMessageStep on the old fields |
| `Mbox.FailedReadIsStable` | mbox.go:32-36 | a lookahead that fails validation is never consumed: reading again returns the same result from the same state |
| `MboxScenarios.OpenRefusesLeadingNewline` | mbox_test.go:107-113 | "\nFrom foo\n" gives a reader and the framing error at line 1 |
| `MboxScenarios.OpenRefusesMarkerOnly` | mbox_test.go:119-121 | "From " gives the "Sender address expected" error at line 1 |
| `MboxScenarios.OpenRefusesLeadingSpace` | mbox_test.go:126-128 | " From " gives the framing error at line 1 |
| `MboxScenarios.OpenRefusesBlankSender` | mbox_test.go:134-136 | an envelope whose sender is all blanks and tabs gives the whitespace error at line 1 |
| `MboxScenarios.OpenOneMessage` | mbox_test.go:141-149 | the one-message archive opens with no error, on line 1, with the envelope as lookahead |
| `MboxScenarios.ReadFromEnvelope` | mbox_test.go:168-175 | reading it yields sender "foo@bar.com" and no headers; the lookahead becomes "Subject: Hello wo" and four zero bytes |
| `MboxScenarios.ReadOneMessage` | mbox.go:61-62 | a second read of the one-message archive fails with the framing error at line 2 |
| `MboxScenarios.ReadHeaderlessMessage` | mbox_test.go:195-203 | an envelope followed by a blank line is read without error |
| `MboxScenarios.ReadOneMessageThroughReader` | mbox_test.go:156-175 | through the class, CreateMboxReader then ReadMessage return the message from foo@bar.com and no error |

## Left out

- The wrapped `io.Reader` and `bufio.Reader` are modelled as input bytes followed by end of input or by a read failure. The bytes pending when the failure occurs are consumed, as `ReadSlice` does.
- In the model the failure repeats on every later read. `bufio.Reader` clears its stored error once it has returned it, so a later Go read asks the wrapped reader again and may succeed. The model does not capture a reader that recovers after a failure.
- Lines over 1000 bytes are excluded by a precondition. A line of 1001 to 4096 bytes makes the reslice at mbox.go:106 panic. For a longer line `ReadSlice` returns its first 4096 bytes with `bufio.ErrBufferFull`. `nextLine` returns that error at mbox.go:102-103, having consumed those bytes and changed no field; this path is not modelled. `NextLineStep` requires `LineFits` of the line about to be read. `ParseFromStep` and `ReadMessageStep` require it only when the lookahead validates, since otherwise nothing is read. The class requires `AllLinesFit` of the whole input, so it does not admit an input whose over-long line a Go reader would never reach.
- MboxText.TrimSpace: trims only the six ASCII whitespace bytes. Go's `strings.TrimSpace` also trims multi-byte Unicode spaces such as U+0085 and U+00A0, so the sender differs for input holding those.
- Errors are (line, message) pairs. `errorf` is inlined: `ExtractSendingAddress` builds `LineError(currentLine, text)` directly. The decimal rendering `"%d:%s"` of `fmt.Errorf` is not modelled.
- The `Headers` getter of message.go is the `headers` field of the `Message` datatype.
- mbox.go has no header or body parsing, so none is modelled.
