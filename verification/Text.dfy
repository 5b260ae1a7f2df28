/** Go strings as the program meets them: trimming, and their UTF-8 bytes. */
module Text {
  import opened Seqs

  // A byte; the encoders below only produce values from 0 to 255.
  type byte = int

  const NUL: char := '\0'

  predicate IsSpace(c: char) {
    var n := c as int;
    || 0x09 <= n <= 0x0D || n == 0x20 || n == 0x85 || n == 0xA0 || n == 0x1680
    || 0x2000 <= n <= 0x200A || n == 0x2028 || n == 0x2029 || n == 0x202F || n == 0x205F || n == 0x3000
  }

  function TrimSpace(s: string): (r: string)
    ensures |r| <= |s|
    ensures r != "" ==> !IsSpace(r[0]) && !IsSpace(r[|r| - 1])
    decreases |s|
  {
    if s == "" then s
    else if IsSpace(s[0]) then TrimSpace(s[1..])
    else if IsSpace(s[|s| - 1]) then TrimSpace(s[..|s| - 1])
    else s
  }

  /** Trimming takes off spaces at both ends, and leaves none there. */
  lemma {:induction false} TrimMeans(s: string) returns (left: string, right: string)
    ensures s == left + TrimSpace(s) + right
    ensures (forall c | c in left :: IsSpace(c)) && (forall c | c in right :: IsSpace(c))
    ensures TrimSpace(s) != "" ==> !IsSpace(TrimSpace(s)[0]) && !IsSpace(TrimSpace(s)[|TrimSpace(s)| - 1])
    decreases |s|
  {
    left, right := "", "";
    if s == "" {
    } else if IsSpace(s[0]) {
      left, right := TrimMeans(s[1..]);
      left := [s[0]] + left;
      assert s == [s[0]] + s[1..];
    } else if IsSpace(s[|s| - 1]) {
      left, right := TrimMeans(s[..|s| - 1]);
      right := right + [s[|s| - 1]];
      assert s == s[..|s| - 1] + [s[|s| - 1]];
    }
  }

  // What the program requires of an identity: not blank, and nothing to trim.
  predicate Clean(s: string) {
    TrimSpace(s) != "" && TrimSpace(s) == s
  }

  lemma CleanMeans(s: string)
    ensures Clean(s) <==> s != "" && !IsSpace(s[0]) && !IsSpace(s[|s| - 1])
  {
  }

  // ----- UTF-8 -----

  function Utf8(c: char): (r: seq<byte>)
    ensures |r| >= 1
  {
    var n := c as int;
    if n < 0x80 then [n]
    else if n < 0x800 then [0xC0 + n / 0x40, 0x80 + n % 0x40]
    else if n < 0x10000 then [0xE0 + n / 0x1000, 0x80 + n / 0x40 % 0x40, 0x80 + n % 0x40]
    else [0xF0 + n / 0x40000, 0x80 + n / 0x1000 % 0x40, 0x80 + n / 0x40 % 0x40, 0x80 + n % 0x40]
  }

  function Bytes(s: string): seq<byte> {
    if s == "" then [] else Utf8(s[0]) + Bytes(s[1..])
  }

  // The first byte of a character says how many follow.
  function Width(lead: byte): nat {
    if lead < 0x80 then 1 else if lead < 0xE0 then 2 else if lead < 0xF0 then 3 else 4
  }

  lemma Utf8Injective(c: char, d: char)
    requires Utf8(c) == Utf8(d)
    ensures c == d
  {
    var n, m := c as int, d as int;
    assert Utf8(c)[0] == Utf8(d)[0] && |Utf8(c)| == |Utf8(d)|;
    if |Utf8(c)| >= 2 { assert Utf8(c)[1] == Utf8(d)[1]; }
    if |Utf8(c)| >= 3 { assert Utf8(c)[2] == Utf8(d)[2]; }
    if |Utf8(c)| >= 4 { assert Utf8(c)[3] == Utf8(d)[3]; }
    Recompose(n);
    Recompose(m);
  }

  lemma Recompose(n: nat)
    ensures n == n / 0x40 * 0x40 + n % 0x40
    ensures n / 0x40 == n / 0x1000 * 0x40 + n / 0x40 % 0x40
    ensures n / 0x1000 == n / 0x40000 * 0x40 + n / 0x1000 % 0x40
  {
  }

  lemma Utf8PrefixFree(c: char, s: seq<byte>, d: char, t: seq<byte>)
    requires Utf8(c) + s == Utf8(d) + t
    ensures c == d && s == t
  {
    assert (Utf8(c) + s)[0] == (Utf8(d) + t)[0];
    SplitSum(Utf8(c), s, Utf8(d), t);
    Utf8Injective(c, d);
  }

  predicate NulFree(s: string) {
    forall i | 0 <= i < |s| :: s[i] != NUL
  }

  function Terminated(s: string): (r: seq<byte>)
    ensures |r| >= 1
  {
    Bytes(s) + [0]
  }

  lemma TerminatedFront(x: string)
    ensures x == "" ==> Terminated(x) == [0]
    ensures x != "" ==> Terminated(x) == Utf8(x[0]) + Terminated(x[1..])
  {
  }

  lemma LeadByte(x: string, s: seq<byte>)
    requires NulFree(x)
    ensures (Terminated(x) + s)[0] == 0 <==> x == ""
  {
  }

  // A NUL-terminated text without NULs can be read back, whatever follows it.
  lemma {:induction false} TerminatedTextInjective(x: string, s: seq<byte>, y: string, t: seq<byte>)
    requires NulFree(x) && NulFree(y)
    requires Terminated(x) + s == Terminated(y) + t
    ensures x == y && s == t
    decreases |x|
  {
    LeadByte(x, s);
    LeadByte(y, t);
    TerminatedFront(x);
    TerminatedFront(y);
    if x == "" {
      SplitSum([0], s, [0], t);
    } else {
      Assoc(Utf8(x[0]), Terminated(x[1..]), s);
      Assoc(Utf8(y[0]), Terminated(y[1..]), t);
      Utf8PrefixFree(x[0], Terminated(x[1..]) + s, y[0], Terminated(y[1..]) + t);
      TerminatedTextInjective(x[1..], s, y[1..], t);
      assert x == [x[0]] + x[1..] && y == [y[0]] + y[1..];
    }
  }

  // ----- big-endian integers -----

  // The k-th byte of n, counted from the least significant one.
  function Digit(n: nat, k: nat): byte {
    if k == 0 then n % 0x100 else Digit(n / 0x100, k - 1)
  }

  function BigEndian(n: nat, width: nat): seq<byte> {
    seq(width, i requires 0 <= i < width => Digit(n, width - 1 - i))
  }

  // What bytes spell, the most significant first.
  function Spelled(bytes: seq<byte>): int {
    if bytes == [] then 0 else Spelled(bytes[..|bytes| - 1]) * 0x100 + bytes[|bytes| - 1]
  }

  lemma {:induction false} BigEndianSpells(n: nat, width: nat)
    requires n < Pow256(width)
    ensures Spelled(BigEndian(n, width)) == n
    decreases width
  {
    var bytes := BigEndian(n, width);
    if width > 0 {
      BigEndianSpells(n / 0x100, width - 1);
      var front := BigEndian(n / 0x100, width - 1);
      forall i | 0 <= i < width - 1 ensures bytes[i] == front[i] {
        assert Digit(n, width - 1 - i) == Digit(n / 0x100, width - 2 - i);
      }
      assert bytes[..width - 1] == front && bytes[width - 1] == Digit(n, 0);
    }
  }

  function Pow256(k: nat): nat {
    if k == 0 then 1 else 0x100 * Pow256(k - 1)
  }

  lemma {:induction false} DigitsInjective(n: nat, m: nat, width: nat)
    requires n < Pow256(width) && m < Pow256(width)
    requires forall k: nat | k < width :: Digit(n, k) == Digit(m, k)
    ensures n == m
    decreases width
  {
    if width > 0 {
      assert Digit(n, 0) == Digit(m, 0);
      forall k: nat | k < width - 1 ensures Digit(n / 0x100, k) == Digit(m / 0x100, k) {
        assert Digit(n, k + 1) == Digit(m, k + 1);
      }
      DigitsInjective(n / 0x100, m / 0x100, width - 1);
    }
  }

  lemma BigEndianInjective(n: nat, m: nat, width: nat)
    requires n < Pow256(width) && m < Pow256(width)
    requires BigEndian(n, width) == BigEndian(m, width)
    ensures n == m
  {
    forall k: nat | k < width ensures Digit(n, k) == Digit(m, k) {
      assert BigEndian(n, width)[width - 1 - k] == BigEndian(m, width)[width - 1 - k];
    }
    DigitsInjective(n, m, width);
  }

  lemma {:induction false} SmallDigits(n: nat, k: nat)
    requires n < 0x100
    ensures Digit(n, k) == if k == 0 then n else 0
    decreases k
  {
    if k > 0 { SmallDigits(n / 0x100, k - 1); }
  }

}
