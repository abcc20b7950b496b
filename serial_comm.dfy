/**
 * The USB serial side of the firmware: case-insensitive comparison of C
 * strings, cutting a line at its first CR or LF, and the line receivers
 * that assemble characters arriving one at a time into command lines.
 *
 * Each receiver keeps a 64-character buffer and an index that persist
 * between calls (the C code's `static` variables); here they are the
 * fields of a `LineReceiver`, one object per such buffer.
 */
module SerialComm {
  import opened Common
  import opened PicoSdk

  /** Size of every receive buffer; one place is kept for the terminator. */
  const SERIAL_BUF_LEN: nat := 64
  const LINE_MAX: nat := SERIAL_BUF_LEN - 1

  // ---------------------------------------------------------------------
  // Case-insensitive comparison
  // ---------------------------------------------------------------------

  /** The folded code of the first character, with the end of the string read as its NUL. */
  function FirstCode(s: string): int
  {
    if s == [] then 0 else LowerChar(s[0]) as int
  }

  /**
   * `stricmp_embedded`: walks both strings while neither has ended and
   * returns the difference of the first pair of folded codes that differ,
   * or of the codes where the shorter one ends.
   */
  function Stricmp(s1: string, s2: string): int
    requires '\0' !in s1 && '\0' !in s2
  {
    if s1 != [] && s2 != [] then
      if LowerChar(s1[0]) != LowerChar(s2[0]) then LowerChar(s1[0]) as int - LowerChar(s2[0]) as int
      else Stricmp(s1[1..], s2[1..])
    else FirstCode(s1) - FirstCode(s2)
  }

  /** Folding never produces a NUL from another character. */
  lemma LowerCharNotNul(c: char)
    requires c != '\0'
    ensures LowerChar(c) != '\0'
  {}

  /** The comparison reports equality exactly for strings equal up to ASCII case. */
  lemma {:induction false} StricmpZeroIff(s1: string, s2: string)
    requires '\0' !in s1 && '\0' !in s2
    ensures Stricmp(s1, s2) == 0 <==> Lower(s1) == Lower(s2)
  {
    if s1 != [] && s2 != [] {
      if LowerChar(s1[0]) != LowerChar(s2[0]) {
        assert Lower(s1)[0] != Lower(s2)[0];
      } else {
        StricmpZeroIff(s1[1..], s2[1..]);
        assert Lower(s1) == [LowerChar(s1[0])] + Lower(s1[1..]);
        assert Lower(s2) == [LowerChar(s2[0])] + Lower(s2[1..]);
      }
    } else if s1 != [] {
      LowerCharNotNul(s1[0]);
      assert |Lower(s1)| != |Lower(s2)|;
    } else if s2 != [] {
      LowerCharNotNul(s2[0]);
      assert |Lower(s1)| != |Lower(s2)|;
    }
  }

  /** Exchanging the arguments negates the result. */
  lemma {:induction false} StricmpAntisymmetric(s1: string, s2: string)
    requires '\0' !in s1 && '\0' !in s2
    ensures Stricmp(s1, s2) == -Stricmp(s2, s1)
  {
    if s1 != [] && s2 != [] && LowerChar(s1[0]) == LowerChar(s2[0]) {
      StricmpAntisymmetric(s1[1..], s2[1..]);
    }
  }

  /** Every string compares equal to itself. */
  lemma StricmpReflexive(s: string)
    requires '\0' !in s
    ensures Stricmp(s, s) == 0
  {
    StricmpZeroIff(s, s);
  }

  /** `test_command`: the words it answers, whatever their case. */
  function TestCommand(cmd: string): bool
    requires '\0' !in cmd
  {
    Stricmp(cmd, "test") == 0 || Stricmp(cmd, "t") == 0 || Stricmp(cmd, "H") == 0 || Stricmp(cmd, "HELP") == 0
  }

  /** `test_command` accepts exactly "test", "t", "h" and "help" in any mix of cases. */
  lemma TestCommandWords(cmd: string)
    requires '\0' !in cmd
    ensures TestCommand(cmd) <==> Lower(cmd) in {"test", "t", "h", "help"}
  {
    StricmpZeroIff(cmd, "test");
    StricmpZeroIff(cmd, "t");
    StricmpZeroIff(cmd, "H");
    StricmpZeroIff(cmd, "HELP");
    assert Lower("test") == "test" && Lower("t") == "t";
    assert Lower("H") == "h" && Lower("HELP") == "help";
  }

  // ---------------------------------------------------------------------
  // Cutting a line at its end-of-line character
  // ---------------------------------------------------------------------

  predicate IsEol(c: char) { c == '\r' || c == '\n' }

  /** The text before the first CR or LF. */
  function BeforeEol(s: string): (r: string)
    ensures r <= s
    ensures forall i :: 0 <= i < |r| ==> !IsEol(r[i])
    ensures |r| < |s| ==> IsEol(s[|r|])
  {
    if s == [] || IsEol(s[0]) then [] else [s[0]] + BeforeEol(s[1..])
  }

  /** A prefix free of CR and LF that ends at one of them, or at the end, is the text before the first. */
  lemma {:induction false} BeforeEolAt(s: string, m: nat)
    requires m <= |s|
    requires forall i :: 0 <= i < m ==> !IsEol(s[i])
    requires m == |s| || IsEol(s[m])
    ensures BeforeEol(s) == s[..m]
  {
    if m > 0 {
      BeforeEolAt(s[1..], m - 1);
      assert s[..m] == [s[0]] + s[1..][..m - 1];
    }
  }

  /** `strchr` for a character other than NUL: its first place in the C string, or -1. */
  method Strchr(a: array<char>, c: char) returns (p: int)
    requires '\0' in a[..] && c != '\0'
    ensures -1 <= p < CLen(a[..])
    ensures p == -1 ==> forall i :: 0 <= i < CLen(a[..]) ==> a[i] != c
    ensures p >= 0 ==> a[p] == c && forall i :: 0 <= i < p ==> a[i] != c
  {
    ghost var n := CLen(a[..]);
    var i := 0;
    while a[i] != '\0'
      invariant 0 <= i <= n
      invariant forall j :: 0 <= j < i ==> a[j] != c
      decreases n - i
    {
      if a[i] == c {
        return i;
      }
      i := i + 1;
    }
    return -1;
  }

  /**
   * `p = strchr(a, c); if (p) *p = '\0';`: ends the C string in `a` at its
   * first `c`, if it has one; nothing before that place changes.
   */
  method CutAt(a: array<char>, c: char)
    requires '\0' in a[..] && c != '\0'
    modifies a
    ensures '\0' in a[..]
    ensures CLen(a[..]) <= old(CLen(a[..]))
    ensures a[..CLen(a[..])] == old(a[..])[..CLen(a[..])]
    ensures forall i :: 0 <= i < CLen(a[..]) ==> a[i] != c
    ensures CLen(a[..]) < old(CLen(a[..])) ==> old(a[..])[CLen(a[..])] == c
    ensures forall i :: 0 <= i < a.Length ==> a[i] == old(a[i]) || (a[i] == '\0' && old(a[i]) == c)
  {
    var p := Strchr(a, c);
    if p >= 0 {
      a[p] := '\0';
      CLenAt(a[..], p);
    }
  }

  /**
   * `strip_newline`: ends the C string in `a` at its first CR and then at
   * its first LF, which together cut it at whichever comes first.  Only
   * a CR or LF is ever overwritten, and only by NUL.
   */
  method StripNewline(a: array<char>)
    requires '\0' in a[..]
    modifies a
    ensures '\0' in a[..]
    ensures a[..CLen(a[..])] == BeforeEol(old(a[..CLen(a[..])]))
    ensures forall i :: 0 <= i < a.Length ==> a[i] == old(a[i]) || (a[i] == '\0' && IsEol(old(a[i])))
  {
    ghost var s := a[..];
    ghost var n := CLen(s);
    CutAt(a, '\r');
    ghost var s1 := a[..];
    ghost var m1 := CLen(s1);
    CutAt(a, '\n');
    ghost var m := CLen(a[..]);
    assert s1[..m] == s[..m] by {
      assert s1[..m1] == s[..m1];
    }
    assert m == n || IsEol(s[m]) by {
      if m < m1 {
        assert s1[m] == '\n';
      }
    }
    BeforeEolAt(s[..n], m);
    assert s[..n][..m] == s[..m];
  }

  // ---------------------------------------------------------------------
  // Line receivers
  // ---------------------------------------------------------------------

  predicate IsEolInput(k: Input) { k.Char? && IsEol(k.c) }

  /** The C string a buffer holds once it is terminated: the text before its first NUL. */
  function CText(s: string): (r: string)
    ensures r <= s && '\0' !in r
    ensures |r| < |s| ==> s[|r|] == '\0'
  {
    var t := s + ['\0'];
    var n := CLen(t);
    assert forall i :: 0 <= i < n ==> t[i] == s[i];
    s[..n]
  }

  /** A line the buffer held, and the buffer afterwards. */
  datatype Line = Line(buffered: string, line: Option<string>)

  /**
   * One character handed to a receiver: an end of line yields the buffered
   * text (as a C string) and empties the buffer, unless the buffer is
   * already empty; any other character is kept while fewer than 63 are
   * buffered and dropped after that.
   */
  function Step(buffered: string, k: Input): (r: Line)
    requires |buffered| <= LINE_MAX
    ensures |r.buffered| <= LINE_MAX
    ensures !IsEolInput(k) ==> r.line == None
    ensures IsEolInput(k) ==> r.line == (if buffered == [] then None else Some(CText(buffered)))
    ensures IsEolInput(k) ==> r.buffered == []
    ensures k.Char? && !IsEol(k.c) ==>
      r.buffered == if |buffered| < LINE_MAX then buffered + [k.c] else buffered
    ensures k.TimedOut? ==> r.buffered == buffered
  {
    match k
    case TimedOut => Line(buffered, None)
    case Char(c) =>
      if IsEol(c) then
        if buffered == [] then Line(buffered, None) else Line([], Some(CText(buffered)))
      else if |buffered| < LINE_MAX then Line(buffered + [c], None)
      else Line(buffered, None)
  }

  /** The buffer after the characters of `s`, none of them an end of line, have been handed over. */
  function Fill(buffered: string, s: string): (r: string)
    requires |buffered| <= LINE_MAX
    requires forall i :: 0 <= i < |s| ==> !IsEol(s[i])
    decreases |s|
    ensures |r| <= LINE_MAX
  {
    if s == [] then buffered else Fill(Step(buffered, Char(s[0])).buffered, s[1..])
  }

  /** A receiver keeps the first 63 characters of what arrives and silently drops the rest. */
  lemma {:induction false} FillKeepsFirst63(buffered: string, s: string)
    requires |buffered| <= LINE_MAX
    requires forall i :: 0 <= i < |s| ==> !IsEol(s[i])
    decreases |s|
    ensures Fill(buffered, s) == Prefix(buffered + s, LINE_MAX)
  {
    if s != [] {
      var b' := Step(buffered, Char(s[0])).buffered;
      FillKeepsFirst63(b', s[1..]);
      if |buffered| < LINE_MAX {
        assert buffered + s == b' + s[1..];
      } else {
        assert Prefix(buffered + s, LINE_MAX) == buffered;
        assert Prefix(b' + s[1..], LINE_MAX) == buffered;
      }
    }
  }

  /**
   * What the CR+LF drain after a line consumes: every CR or LF that
   * follows, and the first input after them as well, whatever it is.
   */
  function Drain(pending: seq<Input>): (r: seq<Input>)
    ensures |r| <= |pending| && (pending != [] ==> |r| < |pending|)
    ensures r == pending[|pending| - |r|..]
  {
    if pending == [] then []
    else if IsEolInput(pending[0]) then Drain(pending[1..])
    else pending[1..]
  }

  /** The drain swallows the first character of whatever follows the line ending. */
  lemma {:induction false} DrainSwallowsNext(eols: seq<Input>, next: Input, rest: seq<Input>)
    requires forall i :: 0 <= i < |eols| ==> IsEolInput(eols[i])
    requires !IsEolInput(next)
    ensures Drain(eols + [next] + rest) == rest
  {
    if eols == [] {
      assert ([next] + rest)[1..] == rest;
    } else {
      DrainSwallowsNext(eols[1..], next, rest);
      assert (eols + [next] + rest)[1..] == eols[1..] + [next] + rest;
    }
  }

  /** What one call of a receiver returns, and what it leaves behind. */
  datatype Received = Received(buffered: string, line: Option<string>, pending: seq<Input>)

  function NextInput(pending: seq<Input>): Input
  {
    if pending == [] then TimedOut else pending[0]
  }

  function AfterNext(pending: seq<Input>): seq<Input>
  {
    if pending == [] then [] else pending[1..]
  }

  /**
   * `serial_receive_command`: one character is taken; when it completes a
   * line, the CR/LF drain follows before the line is returned.
   */
  function ReceiveSpec(buffered: string, pending: seq<Input>): (r: Received)
    requires |buffered| <= LINE_MAX
    ensures |r.buffered| <= LINE_MAX
    ensures r.line.Some? ==> IsEolInput(NextInput(pending)) && buffered != [] && r.buffered == []
    ensures r.line.Some? ==> r.line.value == CText(buffered) && r.pending == Drain(AfterNext(pending))
    ensures r.line.None? ==> r.pending == AfterNext(pending)
  {
    var s := Step(buffered, NextInput(pending));
    var rest := AfterNext(pending);
    Received(s.buffered, s.line, if s.line.Some? then Drain(rest) else rest)
  }

  /**
   * A receive buffer with its index.  `serial_receive_command`,
   * `serial_receive_command_fast` and `serial_comm_echo` each own one; the
   * first two run the same code.
   */
  class LineReceiver {
    var buf: array<char>
    var idx: int

    ghost predicate Valid()
      reads this
    {
      buf.Length == SERIAL_BUF_LEN && 0 <= idx <= LINE_MAX
    }

    /** The characters buffered so far. */
    function Buffered(): string
      reads this, buf
      requires Valid()
    {
      buf[..idx]
    }

    constructor ()
      ensures Valid() && Buffered() == [] && fresh(buf)
    {
      buf := new char[SERIAL_BUF_LEN](_ => '\0');
      idx := 0;
    }

    /** The common part of every receiver: one character in, possibly one line out. */
    method Accept(k: Input) returns (line: Option<string>)
      requires Valid()
      modifies this, buf
      ensures Valid() && buf == old(buf)
      ensures Line(Buffered(), line) == Step(old(Buffered()), k)
    {
      match k
      case TimedOut =>
        return None;
      case Char(c) =>
        if IsEol(c) {
          if idx == 0 {
            return None;
          }
          ghost var b := buf[..idx];
          buf[idx] := '\0';
          assert buf[..idx] == b;
          var n := CLenOfBuffer(idx);
          line := Some(buf[..n]);
          idx := 0;
        } else if idx < LINE_MAX {
          buf[idx] := c;
          idx := idx + 1;
          line := None;
        } else {
          line := None;
        }
    }

    /** Where the C string that starts the buffer ends, once `buf[end]` holds its terminator. */
    method CLenOfBuffer(end: int) returns (n: int)
      requires Valid() && 0 <= end < buf.Length && buf[end] == '\0'
      ensures 0 <= n <= end && buf[..n] == CText(buf[..end])
    {
      n := 0;
      while buf[n] != '\0'
        invariant 0 <= n <= end
        invariant forall i :: 0 <= i < n ==> buf[i] != '\0'
        decreases end - n
      {
        n := n + 1;
      }
      var t := buf[..end] + ['\0'];
      CLenAt(t, n);
    }

    /** `serial_receive_command` (and `serial_receive_command_fast`). */
    method Receive(con: Console) returns (line: Option<string>)
      requires Valid()
      modifies this, buf, con
      ensures Valid() && buf == old(buf)
      ensures Received(Buffered(), line, con.pending) == ReceiveSpec(old(Buffered()), old(con.pending))
    {
      var k := con.GetChar();
      line := Accept(k);
      if line.None? {
        return;
      }
      var next := con.GetChar();
      while IsEolInput(next)
        modifies con
        invariant Drain(AfterNext(old(con.pending))) == if IsEolInput(next) then Drain(con.pending) else con.pending
        decreases |con.pending| + if IsEolInput(next) then 1 else 0
      {
        next := con.GetChar();
      }
    }

    /** `serial_comm_echo`: one character in; a completed line is echoed, with no drain. */
    method Echo(con: Console) returns (echoed: Option<string>)
      requires Valid()
      modifies this, buf, con
      ensures Valid() && buf == old(buf)
      ensures Line(Buffered(), echoed) == Step(old(Buffered()), NextInput(old(con.pending)))
      ensures con.pending == AfterNext(old(con.pending))
    {
      var k := con.GetChar();
      echoed := Accept(k);
    }
  }
}
