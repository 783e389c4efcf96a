/**
 Byte strings as the daemon uses them: decimal rendering, and the NUL-joined
 record that a request fingerprint is. A `char` stands for one byte.
 */
module Text {
  import opened Wrappers

  const NUL: char := '\0'

  predicate NulFree(s: string) {
    NUL !in s
  }

  predicate AllNulFree(fields: seq<string>) {
    forall i | 0 <= i < |fields| :: NulFree(fields[i])
  }

  // ---------------------------------------------------------------------
  // Decimal rendering (strconv.FormatUint, strconv.Itoa)
  // ---------------------------------------------------------------------

  const DIGITS: string := "0123456789"

  function Decimal(n: nat): (s: string)
    ensures |s| > 0
    ensures forall i | 0 <= i < |s| :: '0' <= s[i] <= '9'
  {
    if n < 10 then [DIGITS[n]] else Decimal(n / 10) + [DIGITS[n % 10]]
  }

  lemma DecimalInjective(m: nat, n: nat)
    requires Decimal(m) == Decimal(n)
    ensures m == n
  {
    ParseOfDecimal(m);
    ParseOfDecimal(n);
  }

  // ---------------------------------------------------------------------
  // NUL-joined records
  // ---------------------------------------------------------------------

  function Join(fields: seq<string>): string {
    if fields == [] then ""
    else if |fields| == 1 then fields[0]
    else fields[0] + [NUL] + Join(fields[1..])
  }

  /** How many NUL bytes a string holds. */
  function Nuls(s: string): nat {
    if s == "" then 0 else (if s[0] == NUL then 1 else 0) + Nuls(s[1..])
  }

  function TotalNuls(fields: seq<string>): nat {
    if fields == [] then 0 else Nuls(fields[0]) + TotalNuls(fields[1..])
  }

  lemma {:induction false} NulsConcat(a: string, b: string)
    ensures Nuls(a + b) == Nuls(a) + Nuls(b)
  {
    if a == "" {
      assert a + b == b;
    } else {
      assert (a + b)[1..] == a[1..] + b;
      NulsConcat(a[1..], b);
    }
  }

  lemma {:induction false} NulsZero(s: string)
    ensures Nuls(s) == 0 <==> NulFree(s)
  {
    if s != "" {
      NulsZero(s[1..]);
      assert s == [s[0]] + s[1..];
    }
  }

  lemma {:induction false} TotalNulsZero(fields: seq<string>)
    ensures TotalNuls(fields) == 0 <==> AllNulFree(fields)
  {
    if fields != [] {
      NulsZero(fields[0]);
      TotalNulsZero(fields[1..]);
      assert AllNulFree(fields) <==> NulFree(fields[0]) && AllNulFree(fields[1..]) by {
        assert forall i | 0 <= i < |fields[1..]| :: fields[1..][i] == fields[i + 1];
      }
    }
  }

  /** A record of n fields carries its n - 1 separators plus whatever its fields hold. */
  lemma {:induction false} NulsOfJoin(fields: seq<string>)
    requires fields != []
    ensures Nuls(Join(fields)) == |fields| - 1 + TotalNuls(fields)
  {
    if |fields| == 1 {
      assert TotalNuls(fields[1..]) == 0;
    } else {
      NulsOfJoin(fields[1..]);
      NulsConcat([NUL], Join(fields[1..]));
      NulsConcat(fields[0], [NUL] + Join(fields[1..]));
      assert Join(fields) == fields[0] + ([NUL] + Join(fields[1..]));
      assert Nuls([NUL]) == 1;
    }
  }

  lemma HeadBeforeNul(a: string, x: string, b: string, y: string)
    requires NulFree(a) && NulFree(b)
    requires a + [NUL] + x == b + [NUL] + y
    ensures a == b && x == y
  {
    var s := a + [NUL] + x;
    assert s[|a|] == NUL && s[|b|] == NUL;
    assert forall i | 0 <= i < |a| :: s[i] == a[i];
    assert forall i | 0 <= i < |b| :: s[i] == b[i];
    assert |a| == |b|;
    assert a == s[..|a|] && b == s[..|b|];
    assert x == s[|a| + 1..] && y == s[|b| + 1..];
  }

  /** Records of equal arity with NUL-free fields are told apart by their joined form. */
  lemma {:induction false} JoinInjective(xs: seq<string>, ys: seq<string>)
    requires |xs| == |ys| && AllNulFree(xs) && AllNulFree(ys)
    requires Join(xs) == Join(ys)
    ensures xs == ys
  {
    if |xs| > 1 {
      HeadBeforeNul(xs[0], Join(xs[1..]), ys[0], Join(ys[1..]));
      JoinInjective(xs[1..], ys[1..]);
      assert xs == [xs[0]] + xs[1..] && ys == [ys[0]] + ys[1..];
    } else if |xs| == 1 {
      assert xs == [Join(xs)] && ys == [Join(ys)];
    }
  }

  /** A NUL inside one field can be moved across the separator that follows it. */
  lemma {:induction false} ShiftNul(pre: seq<string>, x: string, y: string, next: string, rest: seq<string>)
    ensures Join(pre + [x + [NUL] + y, next] + rest) == Join(pre + [x, y + [NUL] + next] + rest)
  {
    var left, right := pre + [x + [NUL] + y, next] + rest, pre + [x, y + [NUL] + next] + rest;
    if pre == [] {
      assert left[1..] == [next] + rest && right[1..] == [y + [NUL] + next] + rest;
      if rest == [] {
        assert Join(left) == (x + [NUL] + y) + [NUL] + next;
        assert Join(right) == x + [NUL] + (y + [NUL] + next);
      } else {
        assert ([next] + rest)[1..] == rest && ([y + [NUL] + next] + rest)[1..] == rest;
        assert Join(left) == (x + [NUL] + y) + [NUL] + (next + [NUL] + Join(rest));
        assert Join(right) == x + [NUL] + ((y + [NUL] + next) + [NUL] + Join(rest));
      }
    } else {
      assert left[1..] == pre[1..] + [x + [NUL] + y, next] + rest;
      assert right[1..] == pre[1..] + [x, y + [NUL] + next] + rest;
      ShiftNul(pre[1..], x, y, next, rest);
    }
  }

  /** Where the first NUL of a string sits. */
  lemma SplitAtNul(s: string) returns (x: string, y: string)
    requires !NulFree(s)
    ensures s == x + [NUL] + y
  {
    var i :| 0 <= i < |s| && s[i] == NUL;
    x, y := s[..i], s[i + 1..];
  }

  // ---------------------------------------------------------------------
  // Trimming, case and search, as Go's strings package has them
  // ---------------------------------------------------------------------

  /** unicode.IsSpace. */
  predicate IsSpace(c: char) {
    '\t' <= c <= '\r' || c == ' ' || c == '\U{85}' || c == '\U{A0}' || c == '\U{1680}'
    || '\U{2000}' <= c <= '\U{200A}' || c == '\U{2028}' || c == '\U{2029}' || c == '\U{202F}'
    || c == '\U{205F}' || c == '\U{3000}'
  }

  predicate Trimmed(s: string) {
    s == "" || (!IsSpace(s[0]) && !IsSpace(s[|s| - 1]))
  }

  /** strings.TrimSpace. */
  function TrimSpace(s: string): (r: string)
    ensures Trimmed(r) && |r| <= |s|
    ensures Trimmed(s) ==> r == s
  {
    if s == "" then ""
    else if IsSpace(s[0]) then TrimSpace(s[1..])
    else if IsSpace(s[|s| - 1]) then TrimSpace(s[..|s| - 1])
    else s
  }

  function LowerChar(c: char): char {
    if 'A' <= c <= 'Z' then (c as int + 32) as char else c
  }

  /** strings.ToLower on ASCII letters. */
  function Lower(s: string): (r: string)
    ensures |r| == |s|
    ensures forall i | 0 <= i < |s| :: r[i] == LowerChar(s[i])
  {
    seq(|s|, i requires 0 <= i < |s| => LowerChar(s[i]))
  }

  lemma LowerIsStable(s: string)
    ensures Lower(Lower(s)) == Lower(s)
    ensures Trimmed(s) ==> Trimmed(Lower(s))
  {
  }

  function UpperChar(c: char): char {
    if 'a' <= c <= 'z' then (c as int - 32) as char else c
  }

  /** strings.ToUpper on ASCII letters. */
  function Upper(s: string): (r: string)
    ensures |r| == |s|
    ensures forall i | 0 <= i < |s| :: r[i] == UpperChar(s[i])
  {
    seq(|s|, i requires 0 <= i < |s| => UpperChar(s[i]))
  }

  lemma UpperIsStable(s: string)
    ensures Upper(Upper(s)) == Upper(s)
    ensures Trimmed(s) ==> Trimmed(Upper(s))
  {
  }

  /** len of the UTF-8 encoding. */
  function ByteLength(s: string): nat {
    if s == "" then 0
    else ByteLength(s[1..]) + (if s[0] < '\U{80}' then 1 else if s[0] < '\U{800}' then 2 else if s[0] < '\U{10000}' then 3 else 4)
  }

  /** strconv.Atoi without its range limit. */
  function ParseDigits(s: string): Option<nat> {
    if s == "" || !('0' <= s[|s| - 1] <= '9') then None
    else
      var d := s[|s| - 1] as int - '0' as int;
      if |s| == 1 then Some(d)
      else
        var front := ParseDigits(s[..|s| - 1]);
        if front.None? then None else Some(front.value * 10 + d)
  }

  function ParseInt(s: string): Option<int> {
    if s != "" && (s[0] == '+' || s[0] == '-') then
      var n := ParseDigits(s[1..]);
      if n.None? then None
      else
        var v: int := n.value;
        Some(if s[0] == '-' then -v else v)
    else
      var n := ParseDigits(s);
      if n.None? then None else Some(n.value)
  }

  lemma {:induction false} ParseOfDecimal(n: nat)
    ensures ParseDigits(Decimal(n)) == Some(n) && ParseInt(Decimal(n)) == Some(n)
  {
    var s := Decimal(n);
    if n >= 10 {
      ParseOfDecimal(n / 10);
      assert s[..|s| - 1] == Decimal(n / 10);
    }
  }

  /** The position of the first c, or |s|. */
  function FirstOf(s: string, c: char): (i: nat)
    ensures i <= |s| && (i < |s| ==> s[i] == c) && (forall k | 0 <= k < i :: s[k] != c)
  {
    if s == "" || s[0] == c then 0 else 1 + FirstOf(s[1..], c)
  }

  predicate Contains(s: string, part: string) {
    part <= s || (s != "" && Contains(s[1..], part))
  }
}
