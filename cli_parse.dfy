/**
 * The command-line parser of the clock-generator console: a line is cut
 * to the 127 characters of the command buffer, every '=' becomes a
 * space, the line is split into tokens at spaces, tabs, CRs and LFs (the
 * `strtok` loop), the first token is cut to the 31 characters of the key
 * buffer and folded to lower case, and the key selects a command.
 * Numeric arguments are read with `atoi` and converted to `unsigned`.
 */
module CliParse {
  import opened Common

  /** `char buf[128]`: the line keeps at most 127 characters. */
  const CMD_BUF_SIZE: nat := 128
  /** `char key[32]`: the key keeps at most 31 characters. */
  const KEY_BUF_SIZE: nat := 32
  /** Range of a 32-bit `int`/`long`. */
  const INT_MAX: int := 0x7FFF_FFFF
  const INT_MIN: int := -0x8000_0000

  /** The `strtok` delimiter set " \t\r\n". */
  predicate IsDelim(c: char)
  {
    c == ' ' || c == '\t' || c == '\r' || c == '\n'
  }

  /** `isspace` in the "C" locale: space, \t, \n, \v, \f, \r. */
  predicate IsSpace(c: char)
  {
    c == ' ' || '\t' <= c <= '\r'
  }

  predicate IsDigit(c: char)
  {
    '0' <= c <= '9'
  }

  // ---------------------------------------------------------------------
  // Character replacement and C strings held in arrays
  // ---------------------------------------------------------------------

  /** `s` with every `from` replaced by `to`. */
  function Replace(s: string, from: char, to: char): (r: string)
    ensures |r| == |s|
  {
    seq(|s|, i requires 0 <= i < |s| => if s[i] == from then to else s[i])
  }

  /**
   * `replace_char`: walks the C string in `a` up to its terminating NUL
   * and replaces every `from` by `to`; the terminator and everything
   * after it stay as they were.
   */
  method ReplaceChar(a: array<char>, from: char, to: char)
    requires '\0' in a[..]
    modifies a
    ensures a[..] == Replace(old(a[..CLen(a[..])]), from, to) + old(a[CLen(a[..])..])
  {
    ghost var n := CLen(a[..]);
    ghost var s := a[..];
    var p := 0;
    while a[p] != '\0'
      invariant 0 <= p <= n
      invariant forall j :: 0 <= j < p ==> a[j] == if s[j] == from then to else s[j]
      invariant forall j :: p <= j < a.Length ==> a[j] == s[j]
      decreases n - p
    {
      if a[p] == from {
        a[p] := to;
      }
      p := p + 1;
    }
    assert a[..] == Replace(s[..n], from, to) + s[n..];
  }

  /** `to_lower_inplace`: folds the C string in `a` to lower case up to its NUL. */
  method ToLowerInPlace(a: array<char>)
    requires '\0' in a[..]
    modifies a
    ensures a[..] == Lower(old(a[..CLen(a[..])])) + old(a[CLen(a[..])..])
  {
    ghost var n := CLen(a[..]);
    ghost var s := a[..];
    var p := 0;
    while a[p] != '\0'
      invariant 0 <= p <= n
      invariant forall j :: 0 <= j < p ==> a[j] == LowerChar(s[j])
      invariant forall j :: p <= j < a.Length ==> a[j] == s[j]
      decreases n - p
    {
      a[p] := LowerChar(a[p]);
      p := p + 1;
    }
    assert a[..] == Lower(s[..n]) + s[n..];
  }

  /**
   * `strncpy(dst, src, size); dst[size - 1] = '\0'` into a fresh buffer:
   * the first `size - 1` characters of `src` followed by NULs.
   */
  method CopyTruncated(src: string, size: nat) returns (dst: array<char>)
    requires size > 0 && '\0' !in src
    ensures fresh(dst) && dst.Length == size
    ensures '\0' in dst[..] && CLen(dst[..]) == |Prefix(src, size - 1)|
    ensures dst[..CLen(dst[..])] == Prefix(src, size - 1)
  {
    dst := new char[size](_ => '\0');
    var m := if |src| < size - 1 then |src| else size - 1;
    for i := 0 to m
      invariant dst[..i] == src[..i]
      invariant forall j :: i <= j < size ==> dst[j] == '\0'
    {
      dst[i] := src[i];
    }
    assert dst[..m] == Prefix(src, size - 1);
    assert dst[m] == '\0';
    CLenAt(dst[..], m);
  }

  /** Text free of NUL followed by a terminated tail holds that text as its C string. */
  lemma CStringOf(t: string, rest: seq<char>)
    requires '\0' !in t && rest != [] && rest[0] == '\0'
    ensures '\0' in t + rest && CLen(t + rest) == |t| && (t + rest)[..|t|] == t
  {
    CLenAt(t + rest, |t|);
  }

  // ---------------------------------------------------------------------
  // Tokens
  // ---------------------------------------------------------------------

  /** A token: non-empty and free of delimiters. */
  predicate IsWord(t: string)
  {
    t != [] && forall i :: 0 <= i < |t| ==> !IsDelim(t[i])
  }

  /** Length of the run of non-delimiters at the front of `s`. */
  function WordLen(s: string): (n: nat)
    ensures n <= |s|
    ensures forall i :: 0 <= i < n ==> !IsDelim(s[i])
    ensures n < |s| ==> IsDelim(s[n])
  {
    if s == [] || IsDelim(s[0]) then 0 else 1 + WordLen(s[1..])
  }

  /**
   * The tokens successive `strtok(.., " \t\r\n")` calls return: the maximal
   * runs of non-delimiters, in order.
   */
  function Tokens(s: string): (ts: seq<string>)
    decreases |s|
    ensures forall k :: 0 <= k < |ts| ==> IsWord(ts[k])
  {
    if s == [] then []
    else if IsDelim(s[0]) then Tokens(s[1..])
    else
      var n := WordLen(s);
      [s[..n]] + Tokens(s[n..])
  }

  lemma {:induction false} WordLenDelim(a: string, d: char, b: string)
    requires IsDelim(d)
    ensures WordLen(a + [d] + b) == WordLen(a)
  {
    if a != [] && !IsDelim(a[0]) {
      assert (a + [d] + b)[1..] == a[1..] + [d] + b;
      WordLenDelim(a[1..], d, b);
    }
  }

  /** A delimiter splits a line: runs of delimiters separate, and never make, tokens. */
  lemma {:induction false} TokensSplit(a: string, d: char, b: string)
    requires IsDelim(d)
    decreases |a|
    ensures Tokens(a + [d] + b) == Tokens(a) + Tokens(b)
  {
    var s := a + [d] + b;
    if a == [] {
      assert s[1..] == b;
    } else if IsDelim(a[0]) {
      assert s[1..] == a[1..] + [d] + b;
      TokensSplit(a[1..], d, b);
    } else {
      var n := WordLen(a);
      WordLenDelim(a, d, b);
      assert s[..n] == a[..n];
      assert s[n..] == a[n..] + [d] + b;
      TokensSplit(a[n..], d, b);
    }
  }

  /** Every character of every token comes from the line. */
  lemma {:induction false} TokenChars(s: string)
    decreases |s|
    ensures forall k, i :: 0 <= k < |Tokens(s)| && 0 <= i < |Tokens(s)[k]| ==> Tokens(s)[k][i] in s
  {
    if s != [] {
      if IsDelim(s[0]) {
        TokenChars(s[1..]);
      } else {
        var n := WordLen(s);
        TokenChars(s[n..]);
      }
    }
  }

  /** A single word is its own only token. */
  lemma TokensOfWord(w: string)
    requires IsWord(w)
    ensures Tokens(w) == [w]
  {
    assert WordLen(w) == |w|;
    assert w[..|w|] == w;
    assert w[|w|..] == [];
    assert Tokens([]) == [];
  }

  /** A line has no token exactly when it holds delimiters only. */
  lemma {:induction false} TokensEmpty(s: string)
    decreases |s|
    ensures Tokens(s) == [] <==> forall i :: 0 <= i < |s| ==> IsDelim(s[i])
  {
    if s != [] {
      TokensEmpty(s[1..]);
      assert forall i :: 1 <= i < |s| ==> s[i] == s[1..][i - 1];
    }
  }

  // ---------------------------------------------------------------------
  // Numbers
  // ---------------------------------------------------------------------

  function DigitChar(d: nat): (c: char)
    requires d < 10
    ensures IsDigit(c) && c as int - '0' as int == d
  {
    ('0' as int + d) as char
  }

  /** The decimal numeral of `n`, without leading zeros. */
  function Decimal(n: nat): (s: string)
    ensures s != [] && forall i :: 0 <= i < |s| ==> IsDigit(s[i])
    ensures n < 10 ==> s == [DigitChar(n)]
  {
    if n < 10 then [DigitChar(n)] else Decimal(n / 10) + [DigitChar(n % 10)]
  }

  function DigitOf(c: char): nat
    requires IsDigit(c)
  {
    c as int - '0' as int
  }

  /** The value of a string of decimal digits. */
  function DigitsValue(s: string): nat
    requires forall i :: 0 <= i < |s| ==> IsDigit(s[i])
  {
    if s == [] then 0 else DigitsValue(s[..|s| - 1]) * 10 + DigitOf(s[|s| - 1])
  }

  lemma {:induction false} DecimalValue(n: nat)
    ensures DigitsValue(Decimal(n)) == n
  {
    if n >= 10 {
      var s := Decimal(n);
      assert s[..|s| - 1] == Decimal(n / 10);
      DecimalValue(n / 10);
    }
  }

  /** Ten digits suffice for every 32-bit value. */
  lemma {:induction false} DecimalLength(n: nat, bound: nat, digits: nat)
    requires n < bound && bound <= Pow10(digits) && digits >= 1
    ensures |Decimal(n)| <= digits
  {
    if n >= 10 {
      DecimalLength(n / 10, Pow10(digits - 1), digits - 1);
    }
  }

  function Pow10(k: nat): (p: nat)
    ensures p >= 1
  {
    if k == 0 then 1 else 10 * Pow10(k - 1)
  }

  /** Number of decimal digits at the front of `s`. */
  function DigitLen(s: string): (n: nat)
    ensures n <= |s|
    ensures forall i :: 0 <= i < n ==> IsDigit(s[i])
    ensures n < |s| ==> !IsDigit(s[n])
  {
    if s == [] || !IsDigit(s[0]) then 0 else 1 + DigitLen(s[1..])
  }

  /** `s` without its leading white space. */
  function SkipSpace(s: string): (r: string)
    ensures r <= s || (|r| <= |s| && r == s[|s| - |r|..])
    ensures r == [] || !IsSpace(r[0])
  {
    if s != [] && IsSpace(s[0]) then SkipSpace(s[1..]) else s
  }

  /** A value outside the 32-bit range saturates at its nearest end. */
  function Clamp(v: int): (r: int)
    ensures INT_MIN <= r <= INT_MAX
    ensures INT_MIN <= v <= INT_MAX ==> r == v
    ensures v > INT_MAX ==> r == INT_MAX
    ensures v < INT_MIN ==> r == INT_MIN
  {
    if v < INT_MIN then INT_MIN else if v > INT_MAX then INT_MAX else v
  }

  /** The value of the digits at the front of `u` (0 when there are none). */
  function LeadingValue(u: string): nat
  {
    DigitsValue(u[..DigitLen(u)])
  }

  /**
   * `atoi`, which the C library implements as `(int)strtol(s, NULL, 10)`:
   * leading white space, an optional sign, then as many digits as follow;
   * no digits gives 0, and a value outside the 32-bit range saturates.
   */
  function Atoi(s: string): (n: int)
    ensures INT_MIN <= n <= INT_MAX
  {
    var t := SkipSpace(s);
    if t != [] && t[0] == '-' then Clamp(-(LeadingValue(t[1..]) as int))
    else if t != [] && t[0] == '+' then Clamp(LeadingValue(t[1..]))
    else Clamp(LeadingValue(t))
  }

  lemma {:induction false} DigitLenNumeral(d: string, rest: string)
    requires forall i :: 0 <= i < |d| ==> IsDigit(d[i])
    requires rest == [] || !IsDigit(rest[0])
    ensures DigitLen(d + rest) == |d|
  {
    if d != [] {
      assert (d + rest)[1..] == d[1..] + rest;
      DigitLenNumeral(d[1..], rest);
    }
  }

  /** The digits of a numeral are read up to the first character that is not a digit. */
  lemma LeadingValueNumeral(n: nat, rest: string)
    requires rest == [] || !IsDigit(rest[0])
    ensures LeadingValue(Decimal(n) + rest) == n
  {
    var d := Decimal(n);
    DigitLenNumeral(d, rest);
    assert (d + rest)[..|d|] == d;
    DecimalValue(n);
  }

  /**
   * `atoi` reads back a numeral, with or without a minus sign, and stops
   * at the first character that is not a digit; values beyond the 32-bit
   * range saturate.
   */
  lemma AtoiDecimal(n: nat, rest: string)
    requires rest == [] || !IsDigit(rest[0])
    ensures Atoi(Decimal(n) + rest) == Clamp(n)
    ensures Atoi("-" + Decimal(n) + rest) == Clamp(-(n as int))
  {
    AtoiNumeral(n, rest);
    AtoiNegatedNumeral(n, rest);
  }

  lemma AtoiNumeral(n: nat, rest: string)
    requires rest == [] || !IsDigit(rest[0])
    ensures Atoi(Decimal(n) + rest) == Clamp(n)
  {
    var d := Decimal(n);
    LeadingValueNumeral(n, rest);
    assert (d + rest)[0] == d[0];
    assert SkipSpace(d + rest) == d + rest;
  }

  lemma AtoiNegatedNumeral(n: nat, rest: string)
    requires rest == [] || !IsDigit(rest[0])
    ensures Atoi("-" + Decimal(n) + rest) == Clamp(-(n as int))
  {
    var d := Decimal(n);
    LeadingValueNumeral(n, rest);
    var m := "-" + d + rest;
    assert m[1..] == d + rest;
    assert SkipSpace(m) == m;
  }

  // ---------------------------------------------------------------------
  // Commands
  // ---------------------------------------------------------------------

  /** What a command line asks for. */
  datatype Command =
    | NoOp                          // empty, or delimiters only
    | Help                          // help, h, ?
    | Scan
    | WhoAmI
    | Init
    | SetOe(enable: bool)           // oe on, oe off
    | OeUsage                       // oe with a missing or unknown argument
    | SetFreq(ch: u32, mhz: u32)    // freq, clk, and the per-channel keys
    | FreqUsage                     // freq without a value
    | ClkUsage                      // clk without both values
    | Unknown

  /** `(unsigned)atoi(tok)`. */
  function Arg(tok: string): u32
  {
    ToUnsigned(Atoi(tok))
  }

  /** The key: the first token cut to the key buffer and folded to lower case. */
  function Key(tok: string): string
  {
    Lower(Prefix(tok, KEY_BUF_SIZE - 1))
  }

  /** `key` is one of "freq<i>", "ch<i>", "clk<i>", "cll<i>". */
  predicate IsChannelKey(key: string, i: nat)
    requires i < 10
  {
    var d := [DigitChar(i)];
    key == "freq" + d || key == "ch" + d || key == "clk" + d || key == "cll" + d
  }

  /** The first channel from `i` on whose keys include `key`. */
  function ChannelFrom(key: string, i: nat): (r: Option<nat>)
    requires i <= 3
    decreases 3 - i
    ensures r.Some? ==> i <= r.value < 3 && IsChannelKey(key, r.value)
    ensures r.None? ==> forall j :: i <= j < 3 ==> !IsChannelKey(key, j)
  {
    if i == 3 then None
    else if IsChannelKey(key, i) then Some(i)
    else ChannelFrom(key, i + 1)
  }

  /** The command a token list selects. */
  function Dispatch(toks: seq<string>): Command
  {
    if toks == [] then NoOp else Select(Key(toks[0]), ArgsOf(toks[1..]))
  }

  /**
   * What a command takes from the tokens after the key: how many there
   * are, the first folded to lower case (the argument of `oe`), and the
   * first two read as numbers.
   */
  datatype Args = Args(count: nat, mode: string, first: u32, second: u32)

  function ArgsOf(rest: seq<string>): Args
  {
    Args(|rest|,
         if |rest| >= 1 then Lower(rest[0]) else "",
         if |rest| >= 1 then Arg(rest[0]) else 0,
         if |rest| >= 2 then Arg(rest[1]) else 0)
  }

  /** The command a key selects. */
  function Select(key: string, args: Args): (c: Command)
    ensures c != NoOp
  {
    if key == "help" || key == "h" || key == "?" then Help
    else if key == "scan" then Scan
    else if key == "whoami" then WhoAmI
    else if key == "init" then Init
    else if key == "oe" then
      if args.count < 1 then OeUsage
      else if args.mode == "on" then SetOe(true)
      else if args.mode == "off" then SetOe(false)
      else OeUsage
    else if key == "freq" then
      if args.count < 1 then FreqUsage else SetFreq(0, args.first)
    else if key == "clk" then
      if args.count < 2 then ClkUsage else SetFreq(args.first, args.second)
    else
      match ChannelFrom(key, 0)
      case Some(i) => SetFreq(i, args.first)
      case None => Unknown
  }

  /** The text the tokenizer sees: the buffered prefix, with '=' turned into a space. */
  function Normalize(cmd: string): (line: string)
    ensures |line| == |Prefix(cmd, CMD_BUF_SIZE - 1)|
  {
    Replace(Prefix(cmd, CMD_BUF_SIZE - 1), '=', ' ')
  }

  /** `si5351_cli_handle`'s reading of a command line. */
  function Parse(cmd: string): Command
  {
    if cmd == [] then NoOp else Dispatch(Tokens(Normalize(cmd)))
  }

  /**
   * The line as `strtok` sees it: copied into the command buffer, which
   * truncates it, with '=' then replaced by a space in place.
   */
  method NormalizeLine(cmd: string) returns (line: string)
    requires '\0' !in cmd
    ensures line == Normalize(cmd)
  {
    var buf := CopyTruncated(cmd, CMD_BUF_SIZE);
    ghost var rest := buf[CLen(buf[..])..];
    ReplaceChar(buf, '=', ' ');
    assert '\0' !in Normalize(cmd) by {
      var t := Normalize(cmd);
      assert forall i :: 0 <= i < |t| ==> t[i] != '\0';
    }
    CStringOf(Normalize(cmd), rest);
    line := buf[..CLen(buf[..])];
  }

  /** The key: the token copied into the key buffer, which truncates it, and folded in place. */
  method KeyOf(tok: string) returns (key: string)
    requires '\0' !in tok
    ensures key == Key(tok)
  {
    var keyBuf := CopyTruncated(tok, KEY_BUF_SIZE);
    ghost var rest := keyBuf[CLen(keyBuf[..])..];
    ToLowerInPlace(keyBuf);
    assert '\0' !in Key(tok) by {
      var t := Key(tok);
      assert forall i :: 0 <= i < |t| ==> t[i] != '\0';
    }
    CStringOf(Key(tok), rest);
    key := keyBuf[..CLen(keyBuf[..])];
  }

  /** `si5351_cli_handle`'s choice of command once the key is known. */
  method DispatchKey(key: string, toks: seq<string>) returns (c: Command)
    requires toks != [] && key == Key(toks[0])
    ensures c == Dispatch(toks)
  {
    if key == "help" || key == "h" || key == "?" {
      return Help;
    }
    if key == "scan" {
      return Scan;
    }
    if key == "whoami" {
      return WhoAmI;
    }
    if key == "init" {
      return Init;
    }
    if key == "oe" {
      if |toks| < 2 {
        return OeUsage;
      }
      var m := Lower(toks[1]);
      if m == "on" {
        return SetOe(true);
      } else if m == "off" {
        return SetOe(false);
      }
      return OeUsage;
    }
    if key == "freq" {
      if |toks| < 2 {
        return FreqUsage;
      }
      return SetFreq(0, Arg(toks[1]));
    }
    if key == "clk" {
      if |toks| < 3 {
        return ClkUsage;
      }
      return SetFreq(Arg(toks[1]), Arg(toks[2]));
    }
    for i := 0 to 3
      invariant ChannelFrom(key, 0) == ChannelFrom(key, i)
    {
      if IsChannelKey(key, i) {
        return SetFreq(i, if |toks| >= 2 then Arg(toks[1]) else 0);
      }
    }
    return Unknown;
  }

  /** `si5351_cli_handle`'s reading of a line, through its two buffers. */
  method ParseLine(cmd: string) returns (c: Command)
    requires '\0' !in cmd
    ensures c == Parse(cmd)
  {
    if |cmd| == 0 {
      return NoOp;
    }
    var line := NormalizeLine(cmd);
    var toks := Tokens(line);
    if toks == [] {
      return NoOp;
    }
    TokenChars(line);
    assert '\0' !in toks[0] by {
      assert forall i :: 0 <= i < |toks[0]| ==> toks[0][i] in line;
    }
    var key := KeyOf(toks[0]);
    c := DispatchKey(key, toks);
  }

  // ---------------------------------------------------------------------
  // Properties of the reading
  // ---------------------------------------------------------------------

  /** The keys that select a command; every other key is unknown. */
  const KNOWN_KEYS: set<string> :=
    {"help", "h", "?", "scan", "whoami", "init", "oe", "freq", "clk",
     "freq0", "ch0", "clk0", "cll0", "freq1", "ch1", "clk1", "cll1",
     "freq2", "ch2", "clk2", "cll2"}

  /** A per-channel key ends in its channel's digit, so it is none of the plain keys. */
  lemma ChannelKeyShape(key: string, i: nat)
    requires i < 3 && IsChannelKey(key, i)
    ensures |key| >= 3 && key[|key| - 1] == DigitChar(i)
    ensures key !in {"help", "h", "?", "scan", "whoami", "init", "oe", "freq", "clk"}
  {
    var d := [DigitChar(i)];
    if key == "freq" + d {
      assert key[4] == DigitChar(i);
    } else if key == "ch" + d {
      assert key[2] == DigitChar(i);
    } else if key == "clk" + d {
      assert key[3] == DigitChar(i);
    } else {
      assert key[3] == DigitChar(i);
    }
  }

  lemma ChannelKeyKnown(key: string, i: nat)
    requires i < 3 && IsChannelKey(key, i)
    ensures key in KNOWN_KEYS
  {
    assert "freq" + ['0'] == "freq0" && "ch" + ['0'] == "ch0" && "clk" + ['0'] == "clk0" && "cll" + ['0'] == "cll0";
    assert "freq" + ['1'] == "freq1" && "ch" + ['1'] == "ch1" && "clk" + ['1'] == "clk1" && "cll" + ['1'] == "cll1";
    assert "freq" + ['2'] == "freq2" && "ch" + ['2'] == "ch2" && "clk" + ['2'] == "clk2" && "cll" + ['2'] == "cll2";
  }

  /** A per-channel key names exactly one channel. */
  lemma DispatchChannel(toks: seq<string>, i: nat)
    requires toks != [] && i < 3 && IsChannelKey(Key(toks[0]), i)
    ensures Dispatch(toks) == SetFreq(i, if |toks| >= 2 then Arg(toks[1]) else 0)
  {
    var key := Key(toks[0]);
    ChannelKeyShape(key, i);
    forall j | 0 <= j < i
      ensures !IsChannelKey(key, j)
    {
      if IsChannelKey(key, j) {
        ChannelKeyShape(key, j);
      }
    }
    assert ChannelFrom(key, 0) == Some(i);
  }

  /**
   * The keys that take arguments: `oe` reads its first argument, `freq`
   * sets channel 0 from its first, `clk` needs both a channel and a
   * frequency, and a missing argument selects only the usage text.
   */
  lemma DispatchArguments(toks: seq<string>)
    requires toks != []
    ensures Key(toks[0]) == "oe" ==>
              Dispatch(toks) == if |toks| < 2 then OeUsage
                                else if Lower(toks[1]) == "on" then SetOe(true)
                                else if Lower(toks[1]) == "off" then SetOe(false)
                                else OeUsage
    ensures Key(toks[0]) == "freq" ==>
              Dispatch(toks) == if |toks| < 2 then FreqUsage else SetFreq(0, Arg(toks[1]))
    ensures Key(toks[0]) == "clk" ==>
              Dispatch(toks) == if |toks| < 3 then ClkUsage else SetFreq(Arg(toks[1]), Arg(toks[2]))
  {
    var rest := toks[1..];
    assert |rest| >= 1 ==> rest[0] == toks[1];
    assert |rest| >= 2 ==> rest[1] == toks[2];
  }

  /** "Unknown command" is the answer exactly for a key outside the known set. */
  lemma DispatchUnknown(toks: seq<string>)
    ensures Dispatch(toks) == Unknown <==> toks != [] && Key(toks[0]) !in KNOWN_KEYS
  {
    if toks != [] {
      SelectUnknown(Key(toks[0]), ArgsOf(toks[1..]));
    }
  }

  lemma SelectUnknown(key: string, args: Args)
    ensures Select(key, args) == Unknown <==> key !in KNOWN_KEYS
  {
    assert DigitChar(0) == '0' && DigitChar(1) == '1' && DigitChar(2) == '2';
    if ChannelFrom(key, 0).Some? {
      ChannelKeyKnown(key, ChannelFrom(key, 0).value);
    } else {
      assert !IsChannelKey(key, 0) && !IsChannelKey(key, 1) && !IsChannelKey(key, 2);
    }
  }

  /** A line reads as nothing exactly when its buffered part holds only delimiters and '='. */
  lemma ParseNoOp(cmd: string)
    ensures Parse(cmd) == NoOp <==>
      forall i :: 0 <= i < |Prefix(cmd, CMD_BUF_SIZE - 1)| ==> IsDelim(cmd[i]) || cmd[i] == '='
  {
    var line := Normalize(cmd);
    TokensEmpty(line);
    assert Parse(cmd) == NoOp <==> Tokens(line) == [];
    assert forall i :: 0 <= i < |line| ==> (IsDelim(line[i]) <==> IsDelim(cmd[i]) || cmd[i] == '=');
  }

  /** Only the first 127 characters of a line count. */
  lemma ParseTruncates(cmd: string)
    ensures Parse(cmd) == Parse(Prefix(cmd, CMD_BUF_SIZE - 1))
  {
    assert Prefix(Prefix(cmd, CMD_BUF_SIZE - 1), CMD_BUF_SIZE - 1) == Prefix(cmd, CMD_BUF_SIZE - 1);
  }

  /** '=' and a space are interchangeable: `clk0=100` reads as `clk0 100`. */
  lemma ParseEqualsIsSpace(cmd: string)
    ensures Parse(Replace(cmd, '=', ' ')) == Parse(cmd)
  {
    var n := CMD_BUF_SIZE - 1;
    var r := Replace(cmd, '=', ' ');
    assert Prefix(r, n) == Replace(Prefix(cmd, n), '=', ' ');
    assert Normalize(r) == Normalize(cmd);
  }

  // Case folding commutes with every step of the reading.

  /** Each token folded to lower case. */
  function LowerAll(ts: seq<string>): (r: seq<string>)
    ensures |r| == |ts| && forall k :: 0 <= k < |ts| ==> r[k] == Lower(ts[k])
  {
    seq(|ts|, k requires 0 <= k < |ts| => Lower(ts[k]))
  }

  lemma {:induction false} WordLenLower(s: string)
    ensures WordLen(Lower(s)) == WordLen(s)
  {
    if s != [] {
      assert Lower(s)[1..] == Lower(s[1..]);
      WordLenLower(s[1..]);
    }
  }

  lemma {:induction false} TokensLower(s: string)
    decreases |s|
    ensures Tokens(Lower(s)) == LowerAll(Tokens(s))
  {
    var l := Lower(s);
    if s != [] {
      if IsDelim(s[0]) {
        assert l[1..] == Lower(s[1..]);
        TokensLower(s[1..]);
      } else {
        var n := WordLen(s);
        WordLenLower(s);
        assert Tokens(l) == [l[..n]] + Tokens(l[n..]);
        assert l[..n] == Lower(s[..n]);
        assert l[n..] == Lower(s[n..]);
        TokensLower(s[n..]);
        LowerAllCons(s[..n], Tokens(s[n..]));
      }
    }
  }

  lemma LowerAllCons(t: string, ts: seq<string>)
    ensures LowerAll([t] + ts) == [Lower(t)] + LowerAll(ts)
  {
  }

  lemma {:induction false} SkipSpaceLower(s: string)
    ensures SkipSpace(Lower(s)) == Lower(SkipSpace(s))
  {
    if s != [] && IsSpace(s[0]) {
      assert Lower(s)[1..] == Lower(s[1..]);
      SkipSpaceLower(s[1..]);
    }
  }

  lemma {:induction false} LeadingValueLower(u: string)
    ensures LeadingValue(Lower(u)) == LeadingValue(u)
  {
    var n := DigitLen(u);
    DigitLenLower(u);
    assert Lower(u)[..n] == u[..n];
  }

  lemma {:induction false} DigitLenLower(u: string)
    ensures DigitLen(Lower(u)) == DigitLen(u)
  {
    if u != [] {
      assert Lower(u)[1..] == Lower(u[1..]);
      DigitLenLower(u[1..]);
    }
  }

  /** Letters never change what `atoi` reads. */
  lemma AtoiLower(s: string)
    ensures Atoi(Lower(s)) == Atoi(s)
  {
    var t := SkipSpace(s);
    SkipSpaceLower(s);
    if t != [] {
      assert Lower(t)[1..] == Lower(t[1..]);
      LeadingValueLower(t[1..]);
    }
    LeadingValueLower(t);
  }

  lemma KeyLower(t: string)
    ensures Key(Lower(t)) == Key(t)
  {
    assert Prefix(Lower(t), KEY_BUF_SIZE - 1) == Lower(Prefix(t, KEY_BUF_SIZE - 1));
    LowerIdempotent(Prefix(t, KEY_BUF_SIZE - 1));
  }

  lemma DispatchLower(toks: seq<string>)
    ensures Dispatch(LowerAll(toks)) == Dispatch(toks)
  {
    var l := LowerAll(toks);
    if toks != [] {
      KeyLower(toks[0]);
      var rest := toks[1..];
      assert l[1..] == LowerAll(rest);
      if |rest| >= 1 {
        LowerIdempotent(rest[0]);
        AtoiLower(rest[0]);
      }
      if |rest| >= 2 {
        AtoiLower(rest[1]);
      }
      assert ArgsOf(l[1..]) == ArgsOf(rest);
    }
  }

  /** Commands are case-insensitive: a line reads the same in any mix of cases. */
  lemma ParseLower(cmd: string)
    ensures Parse(Lower(cmd)) == Parse(cmd)
  {
    var n := CMD_BUF_SIZE - 1;
    assert Prefix(Lower(cmd), n) == Lower(Prefix(cmd, n));
    assert Normalize(Lower(cmd)) == Lower(Normalize(cmd));
    TokensLower(Normalize(cmd));
    DispatchLower(Tokens(Normalize(cmd)));
  }

  // A canonical spelling of each command that reads back as that command.

  predicate Renderable(c: Command)
  {
    c.Help? || c.Scan? || c.WhoAmI? || c.Init? || c.SetOe? || (c.SetFreq? && c.ch < 3 && c.mhz <= INT_MAX)
  }

  /** The line an operator types for `c`. */
  function Render(c: Command): string
    requires Renderable(c)
  {
    match c
    case Help => "help"
    case Scan => "scan"
    case WhoAmI => "whoami"
    case Init => "init"
    case SetOe(on) => if on then "oe on" else "oe off"
    case SetFreq(ch, mhz) => "clk" + [DigitChar(ch)] + "=" + Decimal(mhz)
  }

  /** A word typed alone is read as its own key. */
  lemma ParseWord(w: string)
    requires IsWord(w) && |w| < KEY_BUF_SIZE && '=' !in w && Lower(w) == w
    ensures Parse(w) == Select(w, Args(0, "", 0, 0))
  {
    assert Normalize(w) == w;
    TokensOfWord(w);
    assert [w][1..] == [];
  }

  lemma ParseRenderKeyword(c: Command)
    requires c.Help? || c.Scan? || c.WhoAmI? || c.Init?
    ensures Parse(Render(c)) == c
  {
    var w := Render(c);
    assert IsWord(w) && Lower(w) == w;
    ParseWord(w);
  }

  lemma ParseOeLine(arg: string)
    requires IsWord(arg) && |arg| < 10 && '=' !in arg
    ensures Parse("oe" + [' '] + arg) == Select("oe", Args(1, Lower(arg), Arg(arg), 0))
  {
    var line := "oe" + [' '] + arg;
    assert Normalize(line) == line;
    TokensSplit("oe", ' ', arg);
    TokensOfWord("oe");
    TokensOfWord(arg);
    assert Tokens(line) == ["oe", arg];
    assert Key("oe") == "oe";
    assert ["oe", arg][1..] == [arg];
  }

  lemma ParseRenderOe(on: bool)
    ensures Parse(Render(SetOe(on))) == SetOe(on)
  {
    var arg := if on then "on" else "off";
    assert Render(SetOe(on)) == "oe" + [' '] + arg;
    ParseOeLine(arg);
    LowerKeeps(arg);
    SelectOe(arg, Arg(arg));
  }

  /** With one argument, "oe" selects on "on" and "off" and prints its usage otherwise. */
  lemma SelectOe(mode: string, first: u32)
    ensures Select("oe", Args(1, mode, first, 0))
         == if mode == "on" then SetOe(true) else if mode == "off" then SetOe(false) else OeUsage
  {
  }

  lemma ParseRenderFreq(ch: nat, mhz: u32)
    requires ch < 3 && mhz <= INT_MAX
    ensures Parse(Render(SetFreq(ch, mhz))) == SetFreq(ch, mhz)
  {
    var key := "clk" + [DigitChar(ch)];
    var d := Decimal(mhz);
    FreqLineTokens(ch, mhz);
    DispatchFreqTokens(key, d, ch, mhz);
  }

  /** The canonical frequency line splits into its key and its decimal value. */
  lemma FreqLineTokens(ch: nat, mhz: u32)
    requires ch < 3 && mhz <= INT_MAX
    ensures Render(SetFreq(ch, mhz)) != []
    ensures Tokens(Normalize(Render(SetFreq(ch, mhz)))) == ["clk" + [DigitChar(ch)], Decimal(mhz)]
  {
    var key := "clk" + [DigitChar(ch)];
    var d := Decimal(mhz);
    var line := Render(SetFreq(ch, mhz));
    assert Pow10(10) == 10000000000;
    DecimalLength(mhz, 0x8000_0000, 10);
    assert line == key + ['='] + d;
    assert Normalize(line) == key + [' '] + d;
    ChannelKeyIsWord(ch);
    TokensSplit(key, ' ', d);
    TokensOfWord(key);
    TokensOfWord(d);
  }

  lemma ChannelKeyIsWord(ch: nat)
    requires ch < 3
    ensures IsWord("clk" + [DigitChar(ch)])
  {
    var key := "clk" + [DigitChar(ch)];
    assert key[0] == 'c' && key[1] == 'l' && key[2] == 'k' && IsDigit(key[3]);
  }

  /** A channel key followed by a decimal value selects that channel at that value. */
  lemma DispatchFreqTokens(key: string, d: string, ch: nat, mhz: u32)
    requires ch < 3 && mhz <= INT_MAX && key == "clk" + [DigitChar(ch)] && d == Decimal(mhz)
    ensures Dispatch([key, d]) == SetFreq(ch, mhz)
  {
    assert Key(key) == key;
    DispatchChannel([key, d], ch);
    AtoiDecimal(mhz, []);
    assert d + [] == d;
  }

  /** Every command reads back from its canonical spelling. */
  lemma ParseRender(c: Command)
    requires Renderable(c)
    ensures Parse(Render(c)) == c
  {
    match c
    case Help => ParseRenderKeyword(c);
    case Scan => ParseRenderKeyword(c);
    case WhoAmI => ParseRenderKeyword(c);
    case Init => ParseRenderKeyword(c);
    case SetOe(on) => ParseRenderOe(on);
    case SetFreq(ch, mhz) => ParseRenderFreq(ch, mhz);
  }
}
