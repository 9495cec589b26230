/**
  * Byte-level helpers the mbox reader relies on: the ASCII whitespace set and
  * the whitespace trimming of Go's strings.TrimSpace, and the line split that
  * bufio.Reader.ReadSlice('\n') performs on the bytes still to be read.
  */
module MboxText {

  /** The newline byte, '\n'. */
  const Newline: bv8 := 0x0A

  /** The ASCII whitespace bytes that strings.TrimSpace removes: '\t', '\n', '\v', '\f', '\r' and ' '. */
  predicate IsSpace(b: bv8) {
    b == 0x09 || b == 0x0A || b == 0x0B || b == 0x0C || b == 0x0D || b == 0x20
  }

  predicate AllSpace(s: seq<bv8>) {
    forall m :: 0 <= m < |s| ==> IsSpace(s[m])
  }

  /**
    * s[i..j] is what is left of s once its leading and trailing whitespace is
    * removed: every byte outside it is whitespace, and a non-empty s[i..j]
    * neither starts nor ends with whitespace.
    */
  predicate TrimmedAt(s: seq<bv8>, i: int, j: int) {
    0 <= i <= j <= |s| &&
    (forall m :: 0 <= m < i ==> IsSpace(s[m])) &&
    (forall m :: j <= m < |s| ==> IsSpace(s[m])) &&
    (i < j ==> !IsSpace(s[i]) && !IsSpace(s[j - 1]))
  }

  /** The index of the first byte at or after k that is not whitespace, or |s|. */
  function SkipSpaceForward(s: seq<bv8>, k: int): (r: int)
    requires 0 <= k <= |s|
    ensures k <= r <= |s|
    ensures forall m :: k <= m < r ==> IsSpace(s[m])
    ensures r < |s| ==> !IsSpace(s[r])
    decreases |s| - k
  {
    if k == |s| || !IsSpace(s[k]) then k else SkipSpaceForward(s, k + 1)
  }

  /** The index just past the last byte before k that is not whitespace, or 0. */
  function SkipSpaceBackward(s: seq<bv8>, k: int): (r: int)
    requires 0 <= k <= |s|
    ensures 0 <= r <= k
    ensures forall m :: r <= m < k ==> IsSpace(s[m])
    ensures r > 0 ==> !IsSpace(s[r - 1])
  {
    if k == 0 || !IsSpace(s[k - 1]) then k else SkipSpaceBackward(s, k - 1)
  }

  /**
    * strings.TrimSpace over ASCII whitespace: the result is the infix of s
    * left once its leading and its trailing whitespace are removed; it is
    * empty exactly when s is all whitespace.
    */
  function TrimSpace(s: seq<bv8>): (r: seq<bv8>)
    ensures exists i, j :: TrimmedAt(s, i, j) && r == s[i..j]
    ensures r == [] <==> AllSpace(s)
  {
    var i := SkipSpaceForward(s, 0);
    var j := if i == |s| then i else SkipSpaceBackward(s, |s|);
    assert i < |s| ==> i < j;
    assert TrimmedAt(s, i, j);
    s[i..j]
  }

  lemma TrimmedAtUnique(s: seq<bv8>, i: int, j: int, i2: int, j2: int)
    requires TrimmedAt(s, i, j) && TrimmedAt(s, i2, j2)
    ensures s[i..j] == s[i2..j2]
  {
  }

  /**
    * The trimmed text is unique: whenever s splits into whitespace, a part
    * that neither starts nor ends with whitespace, and whitespace, that part
    * is TrimSpace(s).
    */
  lemma {:induction false} TrimSpaceUnique(s: seq<bv8>, i: int, j: int)
    requires TrimmedAt(s, i, j)
    ensures TrimSpace(s) == s[i..j]
  {
    var i2, j2 :| TrimmedAt(s, i2, j2) && TrimSpace(s) == s[i2..j2];
    TrimmedAtUnique(s, i, j, i2, j2);
  }

  /** The index just past the first newline at or after k, or |rest| when there is none. */
  function LineEnd(rest: seq<bv8>, k: int): (e: int)
    requires 0 <= k <= |rest|
    ensures k <= e <= |rest|
    ensures forall m :: k <= m < e - 1 ==> rest[m] != Newline
    ensures (k < e && rest[e - 1] == Newline) || (e == |rest| && forall m :: k <= m < |rest| ==> rest[m] != Newline)
    decreases |rest| - k
  {
    if k == |rest| then k
    else if rest[k] == Newline then k + 1
    else LineEnd(rest, k + 1)
  }

  /**
    * The line bufio.Reader.ReadSlice('\n') hands out when rest is what is
    * still to be read: the bytes up to and including the first newline, or
    * all of rest when it holds no newline (the read then ends at end of input).
    */
  function TakeLine(rest: seq<bv8>): (line: seq<bv8>)
    ensures |line| <= |rest| && line == rest[..|line|]
    ensures forall m :: 0 <= m < |line| - 1 ==> line[m] != Newline
    ensures (|line| > 0 && line[|line| - 1] == Newline) || (line == rest && Newline !in rest)
  {
    var e := LineEnd(rest, 0);
    assert e == |rest| ==> rest[..e] == rest;
    rest[..e]
  }

  /** A line that ends with its only newline is what TakeLine yields from it followed by anything. */
  lemma TakeLineOf(line: seq<bv8>, more: seq<bv8>)
    requires |line| > 0 && line[|line| - 1] == Newline
    requires forall m :: 0 <= m < |line| - 1 ==> line[m] != Newline
    ensures TakeLine(line + more) == line
  {
    var t := TakeLine(line + more);
    assert (line + more)[|line| - 1] == Newline;
    assert |t| > 0 && t[|t| - 1] == Newline;
    assert forall m :: 0 <= m < |t| && m < |line| ==> t[m] == line[m];
  }

  /** With no newline left, TakeLine yields everything that remains. */
  lemma TakeLineAtEnd(rest: seq<bv8>)
    requires forall m :: 0 <= m < |rest| ==> rest[m] != Newline
    ensures TakeLine(rest) == rest
  {
  }
}
