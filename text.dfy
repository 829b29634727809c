/** String helpers shared by the modules: JavaScript's `Array.prototype.join`,
    decimal rendering of integers (template-string interpolation) and
    substring and character counting used to state properties. */
module Text {
  import opened Wrappers

  predicate IsDigit(c: char) {
    '0' <= c <= '9'
  }

  predicate AllDigits(s: string) {
    forall i :: 0 <= i < |s| ==> IsDigit(s[i])
  }

  /** `parts.join(sep)`: the parts with `sep` between neighbours. */
  function Join(parts: seq<string>, sep: string): string {
    if |parts| == 0 then ""
    else if |parts| == 1 then parts[0]
    else parts[0] + sep + Join(parts[1..], sep)
  }

  /** `t` occurs in `s` starting at position `k`. */
  ghost predicate OccursAt(s: string, t: string, k: int) {
    0 <= k <= |s| - |t| && s[k..k + |t|] == t
  }

  /** `t` occurs in `s` at some position. */
  ghost predicate Contains(s: string, t: string) {
    exists k :: OccursAt(s, t, k)
  }

  /** Every part occurs in the joined string, so a joined message
      enumerates all of its parts. */
  lemma {:induction false} JoinContainsEach(parts: seq<string>, sep: string, i: nat)
    requires i < |parts|
    ensures Contains(Join(parts, sep), parts[i])
  {
    var j := Join(parts, sep);
    if |parts| == 1 {
      assert OccursAt(j, parts[0], 0);
    } else if i == 0 {
      assert j == parts[0] + (sep + Join(parts[1..], sep));
      assert OccursAt(j, parts[0], 0);
    } else {
      JoinContainsEach(parts[1..], sep, i - 1);
      var rest := Join(parts[1..], sep);
      assert parts[1..][i - 1] == parts[i];
      var k :| OccursAt(rest, parts[i], k);
      var off := |parts[0]| + |sep|;
      assert j == (parts[0] + sep) + rest;
      assert j[off + k..off + k + |parts[i]|] == rest[k..k + |parts[i]|];
      assert OccursAt(j, parts[i], off + k);
    }
  }

  /** Every part occurs in a message made of a prefix and the join. */
  lemma PrefixedJoinContainsEach(prefix: string, parts: seq<string>, sep: string, i: nat)
    requires i < |parts|
    ensures Contains(prefix + Join(parts, sep), parts[i])
  {
    var joined := Join(parts, sep);
    JoinContainsEach(parts, sep, i);
    var k :| OccursAt(joined, parts[i], k);
    assert (prefix + joined)[|prefix| + k..|prefix| + k + |parts[i]|] == joined[k..k + |parts[i]|];
    assert OccursAt(prefix + joined, parts[i], |prefix| + k);
  }

  /** With a non-empty separator, a join is empty exactly when there is
      at most one part and that part is empty. */
  lemma {:induction false} JoinEmptyIff(parts: seq<string>, sep: string)
    requires sep != ""
    ensures Join(parts, sep) == "" <==> (|parts| <= 1 && forall i :: 0 <= i < |parts| ==> parts[i] == "")
  {
    if |parts| >= 2 {
      assert |Join(parts, sep)| >= |sep|;
    }
  }

  function DigitChar(d: nat): (c: char)
    requires d < 10
    ensures IsDigit(c)
  {
    "0123456789"[d]
  }

  /** The decimal digits of `n`, most significant first, no leading zero. */
  function NatToDecimal(n: nat): (r: string)
    ensures |r| >= 1 && AllDigits(r)
    ensures n >= 10 <==> |r| >= 2
    decreases n
  {
    if n < 10 then [DigitChar(n)] else NatToDecimal(n / 10) + [DigitChar(n % 10)]
  }

  /** How JavaScript renders an integer in a template string. */
  function IntToDecimal(n: int): (r: string)
    ensures |r| >= 1
    ensures n < 0 <==> r[0] == '-'
  {
    if n < 0 then "-" + NatToDecimal(-n) else NatToDecimal(n)
  }

  /** `${x}` of a possibly undefined string. */
  function Render(x: Option<string>): string {
    x.GetOr("undefined")
  }

  /** Number of occurrences of `c` in `s`. */
  function CountChar(s: string, c: char): nat {
    if s == [] then 0 else (if s[0] == c then 1 else 0) + CountChar(s[1..], c)
  }

  lemma {:induction false} CountCharConcat(a: string, b: string, c: char)
    ensures CountChar(a + b, c) == CountChar(a, c) + CountChar(b, c)
  {
    if a != [] {
      assert (a + b)[1..] == a[1..] + b;
      CountCharConcat(a[1..], b, c);
    } else {
      assert a + b == b;
    }
  }
}
