// The text-formatting part of m8r::DeviceStream: decimal conversion of
// 8/16/32-bit integers and newline expansion of C strings and flash strings.
// The device is reduced to the sequence of characters it has been handed.
module DeviceStream {
  import opened Ints

  /** The character the digit loop stores for the decimal digit d: d + '0'. */
  function DigitChar(d: nat): (ch: char)
    requires d < 10
    ensures ch == "0123456789"[d]
  {
    (d + '0' as int) as char
  }

  predicate IsDigit(ch: char) {
    '0' <= ch <= '9'
  }

  predicate AllDigits(s: seq<char>) {
    forall i :: 0 <= i < |s| ==> IsDigit(s[i])
  }

  /** The digits the conversion loop leaves in its buffer: most significant
      first, no leading zero, and nothing at all for 0. */
  function Decimal(v: nat): seq<char>
  {
    if v == 0 then [] else Decimal(v / 10) + [DigitChar(v % 10)]
  }

  /** Reading a digit string back as a number. */
  function DecimalValue(s: seq<char>): nat
    requires AllDigits(s)
  {
    if s == [] then 0 else 10 * DecimalValue(s[..|s| - 1]) + (s[|s| - 1] as int - '0' as int)
  }

  function Pow10(n: nat): (p: nat)
    ensures p >= 1
  {
    if n == 0 then 1 else 10 * Pow10(n - 1)
  }

  /** Parsing the emitted digits gives back the number. */
  lemma {:induction false} DecimalRoundTrip(v: nat)
    ensures AllDigits(Decimal(v))
    ensures DecimalValue(Decimal(v)) == v
  {
    if v > 0 {
      DecimalRoundTrip(v / 10);
      var s := Decimal(v);
      assert s[..|s| - 1] == Decimal(v / 10);
    }
  }

  /** The digit string is minimal: empty exactly for 0, otherwise n digits with
      10^(n-1) <= v < 10^n and a non-zero leading digit. */
  lemma {:induction false} DecimalMinimal(v: nat)
    ensures v == 0 <==> Decimal(v) == []
    ensures v > 0 ==> Pow10(|Decimal(v)| - 1) <= v < Pow10(|Decimal(v)|)
    ensures v > 0 ==> Decimal(v)[0] != '0'
  {
    if v >= 10 {
      DecimalMinimal(v / 10);
      var n := |Decimal(v / 10)|;
      assert |Decimal(v)| == n + 1;
      assert Pow10(n) == 10 * Pow10(n - 1);
      assert Decimal(v)[0] == Decimal(v / 10)[0];
    }
  }

  /** A value below 10^n has at most n digits. */
  lemma {:induction false} DecimalLengthBound(v: nat, n: nat)
    requires v < Pow10(n)
    ensures |Decimal(v)| <= n
  {
    if v > 0 {
      assert n > 0;
      DecimalLengthBound(v / 10, n - 1);
    }
  }

  /** Every 32-bit value needs at most 10 digits, so the digits and the
      terminating NUL fit the 11-character buffer. */
  lemma DecimalFitsBuffer(v: u32)
    ensures |Decimal(v)| <= 10
  {
    assert Pow10(10) == 10_000_000_000;
    DecimalLengthBound(v, 10);
  }

  /** The text write(v, isSigned) produces: with isSigned, a value whose int32
      reading is negative is printed as '-' followed by the digits of -v
      computed in 32-bit unsigned arithmetic. */
  function NumberText(v: u32, isSigned: bool): seq<char>
  {
    if isSigned && AsInt32(v) < 0 then ['-'] + Decimal(Wrap32(-(v as int))) else Decimal(v)
  }

  /** Conventional signed decimal of an integer. */
  function SignedDecimal(x: int): seq<char>
  {
    if x < 0 then ['-'] + Decimal(-x) else Decimal(x)
  }

  /** Digits, optionally preceded by '-'. */
  predicate SignedDigits(s: seq<char>) {
    if s != [] && s[0] == '-' then AllDigits(s[1..]) else AllDigits(s)
  }

  /** Reading a (possibly negated) digit string back as an integer. */
  function SignedValue(s: seq<char>): int
    requires SignedDigits(s)
  {
    if s != [] && s[0] == '-' then -(DecimalValue(s[1..]) as int) else DecimalValue(s)
  }

  /** An int32 converted to uint32 and written signed prints as its own signed
      decimal, INT32_MIN included (its negation in 32 bits is 2147483648). */
  lemma SignedNumberText(x: i32)
    ensures NumberText(Wrap32(x), true) == SignedDecimal(x)
  {
    var w := Wrap32(x);
    if x < 0 {
      WrapNegative(x);
      assert AsInt32(w) < 0;
      WrapNegative(-(w as int));
      assert Wrap32(-(w as int)) == -(x as int);
    } else {
      assert w == x;
    }
  }

  /** A negative value in int32 range is stored in a uint32_t as itself plus 2^32. */
  lemma WrapNegative(x: int)
    requires -0x1_0000_0000 <= x < 0
    ensures Wrap32(x) == x + 0x1_0000_0000
  {
  }

  /** Writing a signed value and parsing the text gives the value back. */
  lemma SignedRoundTrip(x: i32)
    ensures SignedDigits(NumberText(Wrap32(x), true))
    ensures SignedValue(NumberText(Wrap32(x), true)) == x
  {
    SignedNumberText(x);
    var t := NumberText(Wrap32(x), true);
    if x < 0 {
      var m: nat := -(x as int);
      DecimalRoundTrip(m);
      assert t == ['-'] + Decimal(m);
      assert t[1..] == Decimal(m);
    } else {
      DecimalRoundTrip(x);
      assert t == Decimal(x);
      assert t != [] ==> IsDigit(t[0]);
    }
  }

  /** The characters the device receives for one source character. */
  function ExpandChar(c: char): seq<char>
  {
    if c == '\n' then ['\r', '\n'] else [c]
  }

  /** Newline expansion: every '\n' is preceded by an inserted '\r'. */
  function Expand(s: seq<char>): seq<char>
  {
    if s == [] then [] else ExpandChar(s[0]) + Expand(s[1..])
  }

  /** Expanding one more character of a prefix of s. */
  lemma ExpandStep(s: seq<char>, i: nat)
    requires i < |s|
    ensures Expand(s[..i + 1]) == Expand(s[..i]) + ExpandChar(s[i])
  {
    assert s[..i + 1] == s[..i] + [s[i]];
    ExpandAppend(s[..i], [s[i]]);
    assert Expand([s[i]]) == ExpandChar(s[i]) + Expand([]);
  }

  /** Expansion works character by character, so it distributes over concatenation. */
  lemma {:induction false} ExpandAppend(a: seq<char>, b: seq<char>)
    ensures Expand(a + b) == Expand(a) + Expand(b)
  {
    if a == [] {
      assert a + b == b;
    } else {
      assert (a + b)[0] == a[0];
      assert (a + b)[1..] == a[1..] + b;
      ExpandAppend(a[1..], b);
    }
  }

  /** The output is the input plus one '\r' per '\n'. */
  lemma {:induction false} ExpandLength(s: seq<char>)
    ensures |Expand(s)| == |s| + multiset(s)['\n']
  {
    if s != [] {
      ExpandLength(s[1..]);
      assert s == [s[0]] + s[1..];
      assert multiset(s) == multiset{s[0]} + multiset(s[1..]);
    }
  }

  /** Text without a newline passes through unchanged. */
  lemma {:induction false} ExpandNoNewline(s: seq<char>)
    requires '\n' !in s
    ensures Expand(s) == s
  {
    if s != [] {
      assert '\n' !in s[1..];
      ExpandNoNewline(s[1..]);
    }
  }

  /** Undoing the expansion: "\r\n" becomes '\n'; everything else is kept. */
  function Collapse(t: seq<char>): seq<char>
  {
    if |t| >= 2 && t[0] == '\r' && t[1] == '\n' then ['\n'] + Collapse(t[2..])
    else if t == [] then []
    else [t[0]] + Collapse(t[1..])
  }

  /** An expanded text never starts with '\n': every '\n' has its '\r' before it. */
  lemma ExpandHead(s: seq<char>)
    ensures Expand(s) != [] ==> Expand(s)[0] != '\n'
  {
  }

  /** Expansion loses nothing: collapsing the device output recovers the text,
      including any '\r' the text already had before a '\n'. */
  lemma {:induction false} CollapseExpand(s: seq<char>)
    ensures Collapse(Expand(s)) == s
  {
    if s != [] {
      var e := Expand(s[1..]);
      CollapseExpand(s[1..]);
      ExpandHead(s[1..]);
      if s[0] == '\n' {
        assert Expand(s) == ['\r', '\n'] + e;
        assert Expand(s)[2..] == e;
      } else {
        assert Expand(s) == [s[0]] + e;
        assert Expand(s)[1..] == e;
      }
    }
  }

  /** The characters of the C string that starts at mem[0]: everything before
      the first NUL. */
  function CString(mem: seq<char>): (s: seq<char>)
    requires '\0' in mem
    ensures |s| < |mem| && s == mem[..|s|] && mem[|s|] == '\0' && '\0' !in s
  {
    if mem[0] == '\0' then [] else [mem[0]] + CString(mem[1..])
  }

  /** A NUL-free text followed by a NUL reads back as that text, whatever
      the memory after the NUL holds. */
  lemma {:induction false} CStringOfTerminated(s: seq<char>, rest: seq<char>)
    requires '\0' !in s
    ensures CString(s + ['\0'] + rest) == s
  {
    if s != [] {
      assert (s + ['\0'] + rest)[1..] == s[1..] + ['\0'] + rest;
      assert '\0' !in s[1..];
      CStringOfTerminated(s[1..], rest);
    }
  }

  /** The digit buffer, NUL-terminated and written as a C string, reaches the
      device unchanged. */
  lemma DigitsPassThrough(digits: seq<char>)
    requires AllDigits(digits)
    ensures Expand(CString(digits + ['\0'])) == digits
  {
    assert '\0' !in digits && '\n' !in digits by {
      forall i | 0 <= i < |digits| ensures digits[i] != '\0' && digits[i] != '\n' {
        assert IsDigit(digits[i]);
      }
    }
    CStringOfTerminated(digits, []);
    assert digits + ['\0'] + [] == digits + ['\0'];
    ExpandNoNewline(digits);
  }

  /** A DeviceStream over a character device. */
  class Stream {
    /** Every character handed to the device so far, in order. */
    var output: seq<char>

    constructor ()
      ensures output == []
    {
      output := [];
    }

    /** _device.write(c) */
    method Emit(c: char)
      modifies this
      ensures output == old(output) + [c]
    {
      output := output + [c];
    }

    /** The private write(uint32_t v, bool isSigned). */
    method WriteNumber(v: u32, isSigned: bool)
      modifies this
      ensures output == old(output) + NumberText(v, isSigned)
    {
      var n := v;
      if isSigned && AsInt32(n) < 0 {
        Emit('-');
        n := Wrap32(-(n as int));
      }
      ghost var before := output;
      assert before + Decimal(n) == old(output) + NumberText(v, isSigned);
      ghost var n0 := n;
      ghost var digits := Decimal(n);
      DecimalFitsBuffer(n);
      var buf := new char[11];
      var p := 11;
      p := p - 1;
      buf[p] := '\0';
      while n != 0
        invariant 0 <= p <= 10 && output == before
        invariant p == 10 - (|digits| - |Decimal(n)|)
        invariant digits + ['\0'] == Decimal(n) + buf[p..]
        decreases n
      {
        ghost var done := buf[p..];
        p := p - 1;
        buf[p] := DigitChar(n % 10);
        assert buf[p..] == [DigitChar(n % 10)] + done;
        n := n / 10;
      }
      DecimalRoundTrip(n0);
      DigitsPassThrough(digits);
      assert buf[p..] == digits + ['\0'];
      WriteCString(buf[p..]);
      assert output == before + digits;
    }

    /** The private write(const char* s): the characters before the NUL, each
        '\n' preceded by '\r'. The memory from s on is given as mem. */
    method WriteCString(mem: seq<char>)
      requires '\0' in mem
      modifies this
      ensures output == old(output) + Expand(CString(mem))
    {
      ghost var text := CString(mem);
      var i := 0;
      while mem[i] != '\0'
        invariant 0 <= i <= |text|
        invariant output == old(output) + Expand(mem[..i])
        decreases |text| - i
      {
        assert i < |text|;
        ghost var before := output;
        if mem[i] == '\n' {
          Emit('\r');
        }
        Emit(mem[i]);
        assert output == before + ExpandChar(mem[i]);
        ExpandStep(mem, i);
        i := i + 1;
      }
      assert i == |text|;
    }

    /** The private write(_FlashString s): the same loop over program memory. */
    method WriteFlashString(flash: seq<char>)
      requires '\0' in flash
      modifies this
      ensures output == old(output) + Expand(CString(flash))
    {
      ghost var text := CString(flash);
      var p := 0;
      while true
        invariant 0 <= p <= |text|
        invariant output == old(output) + Expand(flash[..p])
        decreases |text| - p
      {
        var c := flash[p];
        if c == '\0' {
          assert p == |text|;
          return;
        }
        assert p < |text|;
        ghost var before := output;
        if c == '\n' {
          Emit('\r');
        }
        Emit(c);
        assert output == before + ExpandChar(c);
        ExpandStep(flash, p);
        p := p + 1;
      }
    }

    /** operator<<(uint8_t): unsigned. */
    method WriteU8(v: u8)
      modifies this
      ensures output == old(output) + Decimal(v)
    {
      WriteNumber(v, false);
    }

    /** operator<<(int16_t): signed. */
    method WriteI16(v: i16)
      modifies this
      ensures output == old(output) + SignedDecimal(v)
    {
      SignedNumberText(v);
      WriteNumber(Wrap32(v), true);
    }

    /** operator<<(uint16_t): unsigned. */
    method WriteU16(v: u16)
      modifies this
      ensures output == old(output) + Decimal(v)
    {
      WriteNumber(v, false);
    }

    /** operator<<(int32_t): signed. */
    method WriteI32(v: i32)
      modifies this
      ensures output == old(output) + SignedDecimal(v)
    {
      SignedNumberText(v);
      WriteNumber(Wrap32(v), true);
    }

    /** operator<<(uint32_t): unsigned. */
    method WriteU32(v: u32)
      modifies this
      ensures output == old(output) + Decimal(v)
    {
      WriteNumber(v, false);
    }
  }
}
