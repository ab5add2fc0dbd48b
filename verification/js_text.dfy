/**
  The few JavaScript string built-ins the server relies on, on `seq<char>`:
  `String.prototype.replace` with a string pattern, `includes`, `split(" ")[0]`,
  `parseFloat`, number-to-string for integers, and ASCII case mapping.
*/
module JsText {
  import opened Wrappers

  /** `pat` occurs in `s` starting at index `i`. */
  predicate OccursAt(s: string, pat: string, i: int) {
    0 <= i && i + |pat| <= |s| && s[i..i + |pat|] == pat
  }

  /** `s.replace(pat, rep)`: only the FIRST occurrence of `pat` is replaced. */
  function ReplaceFirst(s: string, pat: string, rep: string): (r: string)
    ensures |r| == |s| || |r| == |s| - |pat| + |rep|
    decreases |s|
  {
    if |pat| <= |s| && s[..|pat|] == pat then rep + s[|pat|..]
    else if |s| == 0 then s
    else [s[0]] + ReplaceFirst(s[1..], pat, rep)
  }

  /** An occurrence in the tail is an occurrence one place further in the whole. */
  lemma OccursShift(s: string, pat: string, j: int)
    requires |s| > 0 && 0 <= j
    ensures OccursAt(s[1..], pat, j) <==> OccursAt(s, pat, j + 1)
  {
    if j + 1 + |pat| <= |s| {
      assert s[1..][j..j + |pat|] == s[j + 1..j + 1 + |pat|];
    }
  }

  /** Without an occurrence, `replace` returns the string unchanged. */
  lemma {:induction false} ReplaceFirstAbsent(s: string, pat: string, rep: string)
    requires forall j :: !OccursAt(s, pat, j)
    ensures ReplaceFirst(s, pat, rep) == s
    decreases |s|
  {
    assert !OccursAt(s, pat, 0);
    if |s| != 0 {
      forall j ensures !OccursAt(s[1..], pat, j) {
        if 0 <= j {
          OccursShift(s, pat, j);
        }
      }
      ReplaceFirstAbsent(s[1..], pat, rep);
      assert [s[0]] + s[1..] == s;
    }
  }

  /** Without an occurrence at the start, `replace` keeps the first character and looks further. */
  lemma ReplaceFirstSkips(s: string, pat: string, rep: string)
    requires |s| > 0 && !OccursAt(s, pat, 0)
    ensures ReplaceFirst(s, pat, rep) == [s[0]] + ReplaceFirst(s[1..], pat, rep)
  {
    if |pat| <= |s| {
      assert s[0..0 + |pat|] == s[..|pat|];
    }
  }

  /** With a first occurrence at `i`, exactly that occurrence is replaced. */
  lemma {:induction false} ReplaceFirstAt(s: string, pat: string, rep: string, i: nat)
    requires OccursAt(s, pat, i)
    requires forall j :: 0 <= j < i ==> !OccursAt(s, pat, j)
    ensures ReplaceFirst(s, pat, rep) == s[..i] + rep + s[i + |pat|..]
    decreases i
  {
    if i == 0 {
      assert s[..|pat|] == pat;
    } else {
      assert !OccursAt(s, pat, 0);
      var t := s[1..];
      OccursShift(s, pat, i - 1);
      forall j | 0 <= j < i - 1 ensures !OccursAt(t, pat, j) {
        OccursShift(s, pat, j);
      }
      ReplaceFirstAt(t, pat, rep, i - 1);
      ReplaceFirstSkips(s, pat, rep);
      calc {
        ReplaceFirst(s, pat, rep);
        [s[0]] + ReplaceFirst(t, pat, rep);
        [s[0]] + (t[..i - 1] + rep + t[i - 1 + |pat|..]);
        { assert [s[0]] + t[..i - 1] == s[..i]; assert t[i - 1 + |pat|..] == s[i + |pat|..]; }
        s[..i] + rep + s[i + |pat|..];
      }
    }
  }

  /** `s.includes(sub)`. */
  function Includes(s: string, sub: string): bool
    decreases |s|
  {
    if |sub| > |s| then false
    else if s[..|sub|] == sub then true
    else |s| > 0 && Includes(s[1..], sub)
  }

  /** `includes` holds exactly when some occurrence exists. */
  lemma {:induction false} IncludesIffOccurs(s: string, sub: string)
    ensures Includes(s, sub) <==> exists i :: OccursAt(s, sub, i)
    decreases |s|
  {
    if |sub| > |s| {
    } else if s[..|sub|] == sub {
      assert OccursAt(s, sub, 0);
    } else {
      assert |s| > 0;
      IncludesIffOccurs(s[1..], sub);
      if exists i :: OccursAt(s, sub, i) {
        var i :| OccursAt(s, sub, i);
        OccursShift(s, sub, i - 1);
      }
      if exists i :: OccursAt(s[1..], sub, i) {
        var i :| OccursAt(s[1..], sub, i);
        OccursShift(s, sub, i);
      }
    }
  }

  /** Some character `a` in `s` is directly followed by `b`. */
  predicate HasPair(s: string, a: char, b: char)
    decreases |s|
  {
    |s| >= 2 && ((s[0] == a && s[1] == b) || HasPair(s[1..], a, b))
  }

  lemma {:induction false} HasPairAppend(x: string, y: string, a: char, b: char)
    ensures HasPair(x + y, a, b)
        <==> HasPair(x, a, b) || HasPair(y, a, b) || (|x| > 0 && |y| > 0 && x[|x| - 1] == a && y[0] == b)
    decreases |x|
  {
    if |x| == 0 {
      assert x + y == y;
    } else if |x| == 1 {
      assert (x + y)[1..] == y;
    } else {
      assert (x + y)[1..] == x[1..] + y;
      HasPairAppend(x[1..], y, a, b);
    }
  }

  /** The character `c` does not occur in `s`. */
  predicate Lacks(s: string, c: char) {
    forall k :: 0 <= k < |s| ==> s[k] != c
  }

  /** A text without the character `a`, or without `b`, has no pair of the two. */
  lemma {:induction false} NoPairWithout(s: string, a: char, b: char)
    requires Lacks(s, a) || Lacks(s, b)
    ensures !HasPair(s, a, b)
    decreases |s|
  {
    if |s| >= 2 {
      NoPairWithout(s[1..], a, b);
    }
  }

  /** A prefix without `b` that does not end in `a` adds no pair `a b`. */
  lemma NoPairAfterLacking(x: string, y: string, a: char, b: char)
    requires Lacks(x, b) && (|x| > 0 ==> x[|x| - 1] != a)
    requires !HasPair(y, a, b)
    ensures !HasPair(x + y, a, b)
  {
    NoPairWithout(x, a, b);
    HasPairAppend(x, y, a, b);
  }

  lemma {:induction false} PairAt(s: string, j: nat, a: char, b: char)
    requires j + 1 < |s| && s[j] == a && s[j + 1] == b
    ensures HasPair(s, a, b)
    decreases j
  {
    if j > 0 {
      PairAt(s[1..], j - 1, a, b);
    }
  }

  /** Every two adjacent characters of an included text occur adjacent in the text. */
  lemma IncludedPair(s: string, sub: string, k: nat)
    requires k + 1 < |sub| && Includes(s, sub)
    ensures HasPair(s, sub[k], sub[k + 1])
  {
    IncludesIffOccurs(s, sub);
    var i :| OccursAt(s, sub, i);
    assert s[i..i + |sub|][k] == s[i + k] && s[i..i + |sub|][k + 1] == s[i + k + 1];
    PairAt(s, i + k, sub[k], sub[k + 1]);
  }

  /** A text lacking some adjacent pair of `sub` does not include `sub`. */
  lemma NotIncludedWithoutPair(s: string, sub: string, k: nat)
    requires k + 1 < |sub| && !HasPair(s, sub[k], sub[k + 1])
    ensures !Includes(s, sub)
  {
    if Includes(s, sub) {
      IncludedPair(s, sub, k);
    }
  }

  /** A text placed between two others is included in the whole. */
  lemma IncludesMiddle(pre: string, sub: string, post: string)
    ensures Includes(pre + sub + post, sub)
  {
    var s := pre + sub + post;
    assert s[|pre|..|pre| + |sub|] == sub;
    assert OccursAt(s, sub, |pre|);
    IncludesIffOccurs(s, sub);
  }

  /** `s.split(" ")[0]`: everything before the first space (all of `s` if it has none). */
  function FirstToken(s: string): string
    decreases |s|
  {
    if |s| == 0 || s[0] == ' ' then [] else [s[0]] + FirstToken(s[1..])
  }

  /** The first token is a space-free prefix, and it stops at a space or at the end. */
  lemma {:induction false} FirstTokenIsPrefix(s: string)
    ensures |FirstToken(s)| <= |s| && FirstToken(s) == s[..|FirstToken(s)|]
    ensures forall k :: 0 <= k < |FirstToken(s)| ==> FirstToken(s)[k] != ' '
    ensures |FirstToken(s)| < |s| ==> s[|FirstToken(s)|] == ' '
    decreases |s|
  {
    if |s| != 0 && s[0] != ' ' {
      FirstTokenIsPrefix(s[1..]);
    }
  }

  /** Text after the first space never changes the first token. */
  lemma {:induction false} FirstTokenIgnoresRest(tok: string, rest: string)
    requires forall k :: 0 <= k < |tok| ==> tok[k] != ' '
    ensures FirstToken(tok + " " + rest) == tok
    decreases |tok|
  {
    if |tok| == 0 {
    } else {
      assert (tok + " " + rest)[1..] == tok[1..] + " " + rest;
      FirstTokenIgnoresRest(tok[1..], rest);
    }
  }

  predicate IsDigit(c: char) { '0' <= c <= '9' }

  /** Length of the run of decimal digits at the start of `s`. */
  function DigitRun(s: string): (n: nat)
    ensures n <= |s|
    ensures forall k :: 0 <= k < n ==> IsDigit(s[k])
    ensures n < |s| ==> !IsDigit(s[n])
    decreases |s|
  {
    if |s| > 0 && IsDigit(s[0]) then 1 + DigitRun(s[1..]) else 0
  }

  /** The value of a string of decimal digits, most significant first. */
  function DigitsValue(d: string): nat
    requires forall k :: 0 <= k < |d| ==> IsDigit(d[k])
    decreases |d|
  {
    if |d| == 0 then 0
    else
      assert IsDigit(d[|d| - 1]);
      10 * DigitsValue(d[..|d| - 1]) + (d[|d| - 1] as int - '0' as int)
  }

  function Pow10(n: nat): (p: nat)
    ensures p >= 1
  {
    if n == 0 then 1 else 10 * Pow10(n - 1)
  }

  /**
    `parseFloat(s)` for the decimal forms the server reads: an optional sign,
    digits, and an optional fraction; `None` stands for NaN (no digit at all).
    The longest valid prefix is read and the rest ignored.
  */
  function ParseFloat(s: string): Option<real> {
    var negative := |s| > 0 && s[0] == '-';
    var body := if |s| > 0 && (s[0] == '-' || s[0] == '+') then s[1..] else s;
    var n := DigitRun(body);
    var after := body[n..];
    var f := if |after| > 0 && after[0] == '.' then DigitRun(after[1..]) else 0;
    var fraction := if f > 0 then after[1..1 + f] else [];
    if n == 0 && f == 0 then None
    else
      var magnitude := DigitsValue(body[..n]) as real + DigitsValue(fraction) as real / Pow10(f) as real;
      Some(if negative then -magnitude else magnitude)
  }

  function DigitChar(d: nat): char
    requires d < 10
  {
    "0123456789"[d]
  }

  /** Decimal text of a natural number, as `String(n)` prints it. */
  function NatText(n: nat): (t: string)
    ensures |t| > 0
    ensures forall k :: 0 <= k < |t| ==> IsDigit(t[k])
  {
    if n < 10 then [DigitChar(n)] else NatText(n / 10) + [DigitChar(n % 10)]
  }

  /** Decimal text of an integer, as `String(i)` and `JSON.stringify(i)` print it. */
  function IntText(i: int): (t: string)
    ensures |t| > 0
    ensures forall k :: 0 <= k < |t| ==> IsDigit(t[k]) || (k == 0 && t[k] == '-')
  {
    if i < 0 then "-" + NatText(-i) else NatText(i)
  }

  /** Reading the digits back gives the number that was printed. */
  lemma {:induction false} NatTextValue(n: nat)
    ensures DigitsValue(NatText(n)) == n
  {
    if n >= 10 {
      NatTextValue(n / 10);
      var t := NatText(n);
      assert t[..|t| - 1] == NatText(n / 10);
    }
  }

  /** A digit string alone is read as a whole: its value, with no fraction. */
  lemma ParseFloatDigits(t: string)
    requires |t| > 0 && forall k :: 0 <= k < |t| ==> IsDigit(t[k])
    ensures t[0] != '-' && t[0] != '+'
    ensures DigitRun(t) == |t| && t[..|t|] == t && t[|t|..] == []
    ensures ParseFloat(t) == Some(DigitsValue(t) as real)
  {
    DigitRunOf(t, []);
    assert t + [] == t;
    assert IsDigit(t[0]);
  }

  /** `parseFloat(String(i)) === i` for every integer `i`. */
  lemma ParseFloatIntText(i: int)
    ensures ParseFloat(IntText(i)) == Some(i as real)
  {
    var m: nat := if i < 0 then -i else i;
    var t := NatText(m);
    NatTextValue(m);
    ParseFloatDigits(t);
    if i < 0 {
      var s := IntText(i);
      assert s == ['-'] + t;
      assert s[0] == '-' && s[1..] == t;
    }
  }

  /**
    `parseInt(s)` for the decimal forms the server reads: an optional sign and
    digits; `None` stands for NaN. The rest of the string is ignored.
  */
  function ParseInt(s: string): Option<int> {
    if |s| > 0 && s[0] == '-' then
      match ParseDigits(s[1..])
      case None => None
      case Some(magnitude) => Some(-magnitude)
    else if |s| > 0 && s[0] == '+' then ParseDigits(s[1..])
    else ParseDigits(s)
  }

  /** The value of the run of digits at the start of `body`, if there is one. */
  function ParseDigits(body: string): Option<int> {
    var n := DigitRun(body);
    if n == 0 then None else Some(DigitsValue(body[..n]) as int)
  }

  /** A digit string followed by a non-digit (or nothing) is a run of exactly its length. */
  lemma {:induction false} DigitRunOf(t: string, rest: string)
    requires forall k :: 0 <= k < |t| ==> IsDigit(t[k])
    requires |rest| == 0 || !IsDigit(rest[0])
    ensures DigitRun(t + rest) == |t|
    decreases |t|
  {
    if |t| > 0 {
      assert (t + rest)[1..] == t[1..] + rest;
      DigitRunOf(t[1..], rest);
    }
  }

  /** Unsigned digits followed by a non-digit parse to their value. */
  lemma ParseIntDigits(t: string, rest: string)
    requires |t| > 0 && forall k :: 0 <= k < |t| ==> IsDigit(t[k])
    requires |rest| == 0 || !IsDigit(rest[0])
    ensures ParseDigits(t + rest) == Some(DigitsValue(t) as int)
    ensures ParseInt(t + rest) == Some(DigitsValue(t) as int)
  {
    var s := t + rest;
    DigitRunOf(t, rest);
    assert s[0] == t[0] && IsDigit(t[0]);
    assert s[..|t|] == t;
  }

  /** `parseInt(String(i) + rest) === i` when `rest` does not continue the digits (a newline, say). */
  lemma ParseIntText(i: int, rest: string)
    requires |rest| == 0 || !IsDigit(rest[0])
    ensures ParseInt(IntText(i) + rest) == Some(i)
  {
    var m: nat := if i < 0 then -i else i;
    NatTextValue(m);
    if i < 0 {
      var s := IntText(i) + rest;
      assert s == ['-'] + (NatText(m) + rest);
      assert s[0] == '-' && s[1..] == NatText(m) + rest;
      ParseIntDigits(NatText(m), rest);
    } else {
      ParseIntDigits(NatText(m), rest);
    }
  }

  function LowerChar(c: char): char {
    if 'A' <= c <= 'Z' then (c as int + 32) as char else c
  }

  function UpperChar(c: char): char {
    if 'a' <= c <= 'z' then (c as int - 32) as char else c
  }

  /** `s.toLowerCase()` on ASCII letters. */
  function ToLower(s: string): (r: string)
    ensures |r| == |s|
    ensures forall k :: 0 <= k < |s| ==> r[k] == LowerChar(s[k])
  {
    seq(|s|, k requires 0 <= k < |s| => LowerChar(s[k]))
  }

  /** `s.toUpperCase()` on ASCII letters. */
  function ToUpper(s: string): (r: string)
    ensures |r| == |s|
    ensures forall k :: 0 <= k < |s| ==> r[k] == UpperChar(s[k])
  {
    seq(|s|, k requires 0 <= k < |s| => UpperChar(s[k]))
  }
}
