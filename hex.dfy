// toHex of AVRPowerSupply.cpp: lowercase hexadecimal text of an error code,
// written backwards into a caller's character buffer and preceded by "0x".
module Hex {
  import opened Ints
  import DeviceStream

  /** The character stored for a nibble: c + 'a' - 10 above 9, else c + '0'. */
  function HexChar(c: nat): (ch: char)
    requires c < 16
    ensures ch == "0123456789abcdef"[c]
  {
    if c > 9 then (c + 'a' as int - 10) as char else (c + '0' as int) as char
  }

  /** The digits the loop produces for u, two nibbles per iteration, most
      significant first; empty for 0. */
  function HexPairs(u: nat): seq<char>
  {
    if u == 0 then [] else HexPairs(u / 256) + [HexChar(u / 16 % 16), HexChar(u % 16)]
  }

  /** The text toHex returns: "0x", then "00" for 0 and the digit pairs otherwise. */
  function HexText(u: u32): seq<char>
  {
    ['0', 'x'] + HexDigits(u)
  }

  /** The digits after "0x": "00" for 0, the digit pairs otherwise. */
  function HexDigits(u: u32): seq<char>
  {
    if u == 0 then ['0', '0'] else HexPairs(u)
  }

  /** The value of a lowercase hexadecimal digit. */
  function HexDigitValue(ch: char): nat
  {
    if '0' <= ch <= '9' then ch as int - '0' as int
    else if 'a' <= ch <= 'f' then ch as int - 'a' as int + 10
    else 0
  }

  /** Reading hexadecimal digits back as a number. */
  function HexValue(s: seq<char>): nat
  {
    if s == [] then 0 else 16 * HexValue(s[..|s| - 1]) + HexDigitValue(s[|s| - 1])
  }

  function Pow256(k: nat): (p: nat)
    ensures p >= 1
  {
    if k == 0 then 1 else 256 * Pow256(k - 1)
  }

  /** Reading the digit pairs back gives the number. */
  lemma {:induction false} HexPairsRoundTrip(u: nat)
    ensures HexValue(HexPairs(u)) == u
  {
    if u > 0 {
      var hi := u / 16 % 16;
      var lo := u % 16;
      HexPairsRoundTrip(u / 256);
      HexValuePair(HexPairs(u / 256), HexChar(hi), HexChar(lo));
      HexDigitValueOfChar(hi);
      HexDigitValueOfChar(lo);
      NibbleSplit(u);
    }
  }

  lemma HexDigitValueOfChar(c: nat)
    requires c < 16
    ensures HexDigitValue(HexChar(c)) == c
  {
  }

  /** Appending two digits multiplies the value read so far by 256. */
  lemma HexValuePair(s: seq<char>, a: char, b: char)
    ensures HexValue(s + [a, b]) == 256 * HexValue(s) + 16 * HexDigitValue(a) + HexDigitValue(b)
  {
    var t := s + [a, b];
    assert t[..|t| - 1] == s + [a];
    assert (s + [a])[..|s|] == s;
  }

  /** A number is its bytes above the low one, then its two low nibbles. */
  lemma NibbleSplit(u: nat)
    ensures u == 256 * (u / 256) + 16 * (u / 16 % 16) + u % 16
    ensures u / 16 / 16 == u / 256
  {
    var q := u / 16;
    assert u == 16 * q + u % 16;
    assert q == 16 * (q / 16) + q % 16;
    assert q / 16 == u / 256;
  }

  /** toHex's text is "0x" followed by digits that read back as the code. */
  lemma HexTextRoundTrip(u: u32)
    ensures HexText(u)[..2] == ['0', 'x']
    ensures HexValue(HexText(u)[2..]) == u
  {
    HexPairsRoundTrip(u);
    assert HexText(u)[2..] == if u == 0 then ['0', '0'] else HexPairs(u);
  }

  /** The digit pairs are minimal: an even number 2k of digits with
      256^(k-1) <= u < 256^k, so the leading pair is never "00". */
  lemma {:induction false} HexPairsMinimal(u: nat)
    ensures |HexPairs(u)| % 2 == 0
    ensures u == 0 <==> HexPairs(u) == []
    ensures u > 0 ==> Pow256(|HexPairs(u)| / 2 - 1) <= u < Pow256(|HexPairs(u)| / 2)
  {
    if u > 0 {
      var q := u / 256;
      HexPairsMinimal(q);
      var k := |HexPairs(q)| / 2;
      assert |HexPairs(u)| / 2 == k + 1;
      if q > 0 {
        assert Pow256(k) == 256 * Pow256(k - 1);
        assert 256 * Pow256(k - 1) <= 256 * q <= u;
      }
      assert u < 256 * (q + 1) <= 256 * Pow256(k);
    }
  }

  /** Below 256^k there are at most 2k digits, and from 256^k on at least 2k + 2. */
  lemma HexPairsLength(u: nat, k: nat)
    ensures u < Pow256(k) <==> |HexPairs(u)| <= 2 * k
  {
    HexPairsMinimal(u);
    if u > 0 {
      var m := |HexPairs(u)| / 2;
      if u < Pow256(k) {
        Pow256Monotone(k, m - 1);
      } else {
        Pow256Monotone(m, k);
      }
    }
  }

  /** 256^a < 256^b whenever a < b. */
  lemma {:induction false} Pow256Monotone(a: nat, b: nat)
    ensures a < b ==> Pow256(a) < Pow256(b)
    decreases b
  {
    if a < b {
      Pow256Monotone(a, b - 1);
    }
  }

  /** How many characters toHex stores: the text and its terminating NUL. */
  function HexWriteCount(u: u32): nat
  {
    |HexText(u)| + 1
  }

  /** As written (toHex's pointer starts at buf + 10), every store lands at or
      above buf[0] exactly when the code is below 2^24: codes needing 7 or 8
      digits store 11 characters downwards from offset 10. */
  lemma AsWrittenInBounds(u: u32)
    ensures HexWriteCount(u) <= 10 <==> u < 0x100_0000
  {
    assert Pow256(3) == 0x100_0000 by {
      assert Pow256(1) == 0x100;
      assert Pow256(2) == 0x1_0000;
    }
    HexPairsLength(u, 3);
    HexPairsMinimal(u);
    assert u != 0 ==> |HexText(u)| == 2 + |HexPairs(u)|;
  }

  /** The input that shows it: 0x01000000 is stored as "0x01000000" plus NUL,
      eleven characters from offset 10 down, the last at buf[-1]. */
  lemma AsWrittenOverrun()
    ensures 10 - HexWriteCount(0x100_0000) == -1
  {
    assert Pow256(3) == 0x100_0000 && Pow256(4) == 0x1_0000_0000 by {
      assert Pow256(1) == 0x100;
      assert Pow256(2) == 0x1_0000;
    }
    HexPairsLength(0x100_0000, 3);
    HexPairsLength(0x100_0000, 4);
    HexPairsMinimal(0x100_0000);
  }

  /** Every 32-bit code needs at most 11 characters, so starting from the end
      of reportError's 12-character buffer always fits. */
  lemma CorrectedFits(u: u32)
    ensures HexWriteCount(u) <= 11
  {
    assert Pow256(4) == 0x1_0000_0000 by {
      assert Pow256(1) == 0x100;
      assert Pow256(2) == 0x1_0000;
      assert Pow256(3) == 0x100_0000;
    }
    HexPairsLength(u, 4);
    assert u != 0 ==> |HexText(u)| == 2 + |HexPairs(u)|;
  }

  /** One iteration of toHex's loop: the pair for n goes in front of the
      digits stored so far, leaving those of n / 256 still to store. */
  lemma PairStep(u: nat, n: nat, done: seq<char>)
    requires n > 0
    requires HexPairs(u) == HexPairs(n) + done
    ensures n / 16 / 16 == n / 256
    ensures HexPairs(u) == HexPairs(n / 256) + ([HexChar(n / 16 % 16), HexChar(n % 16)] + done)
  {
    assert n / 16 / 16 == n / 256 by {
      NibbleSplit(n);
    }
    var pair := [HexChar(n / 16 % 16), HexChar(n % 16)];
    var rest := HexPairs(n / 256);
    assert HexPairs(n) == rest + pair;
    assert rest + pair + done == rest + (pair + done);
  }

  /** toHex's loop: for a nonzero code, the digit pairs stored downwards from
      offset end, least significant nibble first. */
  method StorePairs(buf: array<char>, end: nat, u: u32) returns (p: nat)
    requires u > 0
    requires |HexPairs(u)| <= end <= buf.Length
    modifies buf
    ensures p == end - |HexPairs(u)|
    ensures buf[p..end] == HexPairs(u)
    ensures forall i :: 0 <= i < p || end <= i < buf.Length ==> buf[i] == old(buf[i])
  {
    p := end;
    var n := u;
    while n != 0
      invariant p == end - (|HexPairs(u)| - |HexPairs(n)|) && |HexPairs(n)| <= p <= end
      invariant HexPairs(u) == HexPairs(n) + buf[p..end]
      invariant forall i :: 0 <= i < p || end <= i < buf.Length ==> buf[i] == old(buf[i])
      decreases n
    {
      PairStep(u, n, buf[p..end]);
      var c := n % 16;
      p := Prepend(buf, p, end, HexChar(c));
      n := n / 16;
      c := n % 16;
      p := Prepend(buf, p, end, HexChar(c));
      n := n / 16;
    }
  }

  /** One store *--p = c of toHex: c goes in front of what is stored so far. */
  method Prepend(buf: array<char>, p: nat, end: nat, c: char) returns (q: nat)
    requires 0 < p <= end <= buf.Length
    modifies buf
    ensures q == p - 1
    ensures buf[q..end] == [c] + old(buf[p..end])
    ensures forall i :: 0 <= i < q || end <= i < buf.Length ==> buf[i] == old(buf[i])
  {
    q := p - 1;
    buf[q] := c;
    assert buf[q..end] == [c] + buf[p..end];
  }

  /** The part of toHex before the "0x": the NUL, then "00" for 0 or the
      digit pairs, stored downwards from offset end. */
  method StoreDigits(buf: array<char>, end: nat, u: u32) returns (p: nat)
    requires |HexDigits(u)| + 1 <= end <= buf.Length
    modifies buf
    ensures p == end - 1 - |HexDigits(u)|
    ensures buf[p..end] == HexDigits(u) + ['\0']
    ensures forall i :: 0 <= i < p || end <= i < buf.Length ==> buf[i] == old(buf[i])
  {
    p := Prepend(buf, end, end, '\0');
    if u == 0 {
      p := Prepend(buf, p, end, '0');
      p := Prepend(buf, p, end, '0');
      assert buf[p..end] == ['0', '0', '\0'];
    } else {
      ghost var nul := buf[p..end];
      assert nul == ['\0'];
      var q := StorePairs(buf, p, u);
      assert buf[p..end] == nul;
      assert buf[q..end] == buf[q..p] + buf[p..end];
      p := q;
    }
  }

  /** toHex with its pointer starting at offset end of buf: the text and its
      NUL occupy buf[start..end], and nothing outside them changes. */
  method ToHex(buf: array<char>, end: nat, u: u32) returns (start: nat)
    requires end <= buf.Length
    requires HexWriteCount(u) <= end
    modifies buf
    ensures start == end - HexWriteCount(u)
    ensures buf[start..end] == HexText(u) + ['\0']
    ensures forall i :: 0 <= i < start || end <= i < buf.Length ==> buf[i] == old(buf[i])
  {
    var p := StoreDigits(buf, end, u);
    p := Prepend(buf, p, end, 'x');
    start := Prepend(buf, p, end, '0');
  }

  /** The error code text reportError shows, with toHex's pointer starting at
      the end of the 12-character buffer. */
  method ErrorCodeText(code: u32) returns (text: seq<char>)
    ensures text == HexText(code)
  {
    var buf := new char[12];
    CorrectedFits(code);
    var p := ToHex(buf, buf.Length, code);
    assert buf[p..] == HexText(code) + ['\0'] + [];
    HexTextAlphabet(code);
    DeviceStream.CStringOfTerminated(HexText(code), []);
    text := DeviceStream.CString(buf[p..]);
  }

  /** The error code text as reportError obtains it: toHex starts at buf + 10
      of the 12-character buffer, which stays in bounds only for codes below
      2^24. */
  method ErrorCodeTextAsWritten(code: u32) returns (text: seq<char>)
    requires code < 0x100_0000
    ensures text == HexText(code)
  {
    var buf := new char[12];
    AsWrittenInBounds(code);
    var p := ToHex(buf, 10, code);
    assert buf[p..] == HexText(code) + ['\0'] + buf[10..];
    HexTextAlphabet(code);
    DeviceStream.CStringOfTerminated(HexText(code), buf[10..]);
    text := DeviceStream.CString(buf[p..]);
  }

  /** toHex's text holds only '0'..'9', 'a'..'f' and the 'x' of its prefix. */
  lemma HexTextAlphabet(u: u32)
    ensures forall i :: 0 <= i < |HexText(u)| ==> HexText(u)[i] in "0123456789abcdefx"
  {
    HexPairsAlphabet(u);
  }

  lemma {:induction false} HexPairsAlphabet(u: nat)
    ensures forall i :: 0 <= i < |HexPairs(u)| ==> HexPairs(u)[i] in "0123456789abcdef"
  {
    if u > 0 {
      HexPairsAlphabet(u / 256);
    }
  }
}
