/** The regular expression /(["'])(\\?.)*?\1/ with which both error
    normalisers pull the offending value out of a duplicate-key message
    (src/middlewares/error.middleware.js:16, src/middlewares/errorHandler.js:16).
    `FirstMatch` follows the JavaScript engine: the leftmost start position
    wins, and from that start the lazy loop tries, at each position, first
    to close with the same quote, then to consume a backslash escape, then
    a single character; `.` never consumes a line terminator. */
module QuotedValue {
  import opened Wrappers

  predicate IsQuote(c: char) {
    c == '"' || c == '\''
  }

  /** The characters `.` does not match. */
  predicate IsLineTerminator(c: char) {
    c == '\n' || c == '\r' || c == '\U{2028}' || c == '\U{2029}'
  }

  predicate NoLineTerminator(s: string, a: nat, b: nat)
    requires b <= |s|
  {
    forall k :: a <= k < b ==> !IsLineTerminator(s[k])
  }

  /** Where `(\\?.)*?\1` with quote `q`, entered at position `j`, succeeds
      first in backtracking order: the index just past the closing quote. */
  function CloseFrom(s: string, q: char, j: nat): (r: Option<nat>)
    requires j <= |s|
    ensures r.Some? ==> j < r.value <= |s| && s[r.value - 1] == q && NoLineTerminator(s, j, r.value - 1)
    decreases |s| - j
  {
    if j == |s| then None
    else if s[j] == q then Some(j + 1)
    else
      var escaped := if s[j] == '\\' && j + 1 < |s| && !IsLineTerminator(s[j + 1])
                     then CloseFrom(s, q, j + 2) else None;
      if escaped.Some? then escaped
      else if IsLineTerminator(s[j]) then None
      else CloseFrom(s, q, j + 1)
  }

  /** The leftmost match at or after `i`, as (start, end). */
  function FirstMatchFrom(s: string, i: nat): (r: Option<(nat, nat)>)
    requires i <= |s|
    ensures r.Some? ==> var (a, b) := r.value;
      i <= a && a + 2 <= b <= |s| && IsQuote(s[a]) && s[b - 1] == s[a] && NoLineTerminator(s, a + 1, b - 1)
    decreases |s| - i
  {
    if i == |s| then None
    else if IsQuote(s[i]) && CloseFrom(s, s[i], i + 1).Some? then Some((i, CloseFrom(s, s[i], i + 1).value))
    else FirstMatchFrom(s, i + 1)
  }

  /** `s.match(/(["'])(\\?.)*?\1/)?.[0]`: the matched text, if any. */
  function FirstMatch(s: string): (r: Option<string>)
    ensures r.Some? ==> |r.value| >= 2 && IsQuote(r.value[0]) && r.value[|r.value| - 1] == r.value[0]
  {
    match FirstMatchFrom(s, 0)
    case None => None
    case Some((a, b)) => Some(s[a..b])
  }

  /** `s[a..b]` opens and closes with the same quote and has no line
      terminator between: the shape of every match. */
  ghost predicate QuotedSpan(s: string, a: int, b: int) {
    0 <= a && a + 2 <= b <= |s| && IsQuote(s[a]) && s[b - 1] == s[a] && NoLineTerminator(s, a + 1, b - 1)
  }

  /** Some quoted span starts at `a`. */
  ghost predicate SpanStartsAt(s: string, a: int) {
    exists b :: QuotedSpan(s, a, b)
  }

  /** The closing quote `q` occurs at or after `j`, before any line terminator. */
  ghost predicate CloserAfter(s: string, q: char, j: nat)
    requires j <= |s|
  {
    exists k :: j <= k < |s| && s[k] == q && NoLineTerminator(s, j, k)
  }

  /** The lazy loop fails only when no closing quote is reachable:
      backtracking through the escape alternative never loses a match. */
  lemma {:induction false} CloseFromSucceedsIff(s: string, q: char, j: nat)
    requires j <= |s| && IsQuote(q)
    ensures CloseFrom(s, q, j).Some? <==> CloserAfter(s, q, j)
    decreases |s| - j
  {
    if j == |s| {
    } else if s[j] == q {
      assert NoLineTerminator(s, j, j);
    } else {
      var escaped := if s[j] == '\\' && j + 1 < |s| && !IsLineTerminator(s[j + 1])
                     then CloseFrom(s, q, j + 2) else None;
      if escaped.Some? {
        var e := escaped.value;
        assert NoLineTerminator(s, j, e - 1);
      } else if IsLineTerminator(s[j]) {
        forall k | j <= k < |s| && s[k] == q ensures !NoLineTerminator(s, j, k) {
          assert k != j;
        }
      } else {
        CloseFromSucceedsIff(s, q, j + 1);
        if CloserAfter(s, q, j) {
          var k :| j <= k < |s| && s[k] == q && NoLineTerminator(s, j, k);
          assert k != j;
          assert NoLineTerminator(s, j + 1, k);
        }
        if CloserAfter(s, q, j + 1) {
          var k :| j + 1 <= k < |s| && s[k] == q && NoLineTerminator(s, j + 1, k);
          assert NoLineTerminator(s, j, k);
        }
      }
    }
  }

  /** A span starts at `a` exactly when the lazy loop succeeds from `a + 1`. */
  lemma SpanStartsAtIff(s: string, a: nat)
    requires a < |s|
    ensures SpanStartsAt(s, a) <==> IsQuote(s[a]) && CloseFrom(s, s[a], a + 1).Some?
  {
    if IsQuote(s[a]) {
      CloseFromSucceedsIff(s, s[a], a + 1);
      if SpanStartsAt(s, a) {
        var b :| QuotedSpan(s, a, b);
        assert s[b - 1] == s[a] && NoLineTerminator(s, a + 1, b - 1);
      }
      if CloseFrom(s, s[a], a + 1).Some? {
        var k :| a + 1 <= k < |s| && s[k] == s[a] && NoLineTerminator(s, a + 1, k);
        assert QuotedSpan(s, a, k + 1);
      }
    }
  }

  /** The search returns the leftmost start at which any quoted span starts,
      and nothing exactly when no quoted span exists at or after `i`. */
  lemma {:induction false} FirstMatchFromLeftmost(s: string, i: nat)
    requires i <= |s|
    ensures FirstMatchFrom(s, i).None? <==> forall a :: i <= a < |s| ==> !SpanStartsAt(s, a)
    ensures FirstMatchFrom(s, i).Some? ==>
      var a := FirstMatchFrom(s, i).value.0;
      SpanStartsAt(s, a) && forall k :: i <= k < a ==> !SpanStartsAt(s, k)
    decreases |s| - i
  {
    if i < |s| {
      SpanStartsAtIff(s, i);
      if !(IsQuote(s[i]) && CloseFrom(s, s[i], i + 1).Some?) {
        FirstMatchFromLeftmost(s, i + 1);
      }
    }
  }

  /** The match is found exactly when `s` holds a quoted span, it is one,
      and no quoted span starts further left. */
  lemma MatchIsLeftmostSpan(s: string)
    ensures FirstMatch(s).None? <==> forall a, b :: !QuotedSpan(s, a, b)
    ensures FirstMatch(s).Some? ==>
      exists a, b :: QuotedSpan(s, a, b) && FirstMatch(s).value == s[a..b] && forall k, c :: k < a ==> !QuotedSpan(s, k, c)
  {
    FirstMatchFromLeftmost(s, 0);
    if FirstMatchFrom(s, 0).None? {
      forall a, b ensures !QuotedSpan(s, a, b) {
        if QuotedSpan(s, a, b) {
          assert SpanStartsAt(s, a);
        }
      }
    } else {
      var (a, b) := FirstMatchFrom(s, 0).value;
      assert QuotedSpan(s, a, b);
      forall k, c | k < a ensures !QuotedSpan(s, k, c) {
        if QuotedSpan(s, k, c) {
          assert SpanStartsAt(s, k);
        }
      }
    }
  }

  /** Between `j` and the closing quote at `e - 1` there is no quote `q`,
      no backslash and no line terminator: the loop closes at `e`. */
  lemma {:induction false} CloseAtFirstQuote(s: string, q: char, j: nat, e: nat)
    requires j < e <= |s| && s[e - 1] == q
    requires forall k :: j <= k < e - 1 ==> s[k] != q && s[k] != '\\' && !IsLineTerminator(s[k])
    ensures CloseFrom(s, q, j) == Some(e)
    decreases e - j
  {
    if j < e - 1 {
      CloseAtFirstQuote(s, q, j + 1, e);
    }
  }

  /** Without backslashes, the match is the leftmost quote up to the next
      occurrence of the same quote. */
  lemma {:induction false} MatchWithoutEscapes(s: string, a: nat, e: nat)
    requires a + 2 <= e <= |s| && IsQuote(s[a]) && s[e - 1] == s[a]
    requires forall k :: 0 <= k < a ==> !IsQuote(s[k])
    requires forall k :: a < k < e - 1 ==> s[k] != s[a] && s[k] != '\\' && !IsLineTerminator(s[k])
    ensures FirstMatch(s) == Some(s[a..e])
  {
    CloseAtFirstQuote(s, s[a], a + 1, e);
    FirstMatchSkipsTo(s, 0, a);
  }

  lemma {:induction false} FirstMatchSkipsTo(s: string, i: nat, a: nat)
    requires i <= a < |s|
    requires forall k :: i <= k < a ==> !IsQuote(s[k])
    ensures FirstMatchFrom(s, i) == FirstMatchFrom(s, a)
    decreases a - i
  {
    if i < a {
      FirstMatchSkipsTo(s, i + 1, a);
    }
  }
}
