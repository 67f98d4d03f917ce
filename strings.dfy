/**
 * String facts and the string operations the application uses:
 * occurrence of one string inside another, `join`, ASCII `toLowerCase`,
 * `replace(/\s+/g, ...)`, `replace(/c/g, ...)` and decimal numerals.
 */
module Strings {

  /** `s` occurs in `t` starting at index `i`. */
  predicate OccursAt(s: string, t: string, i: int) {
    0 <= i && i + |s| <= |t| && t[i..i + |s|] == s
  }

  /** `s` is a substring of `t`. */
  ghost predicate IsInfix(s: string, t: string) {
    exists i :: OccursAt(s, t, i)
  }

  lemma {:induction false} OccursInMiddle(a: string, b: string, c: string)
    ensures OccursAt(b, a + b + c, |a|)
  {
    assert (a + b + c)[|a|..|a| + |b|] == b;
  }

  /** Equal strings with the same prefix and suffix agree in between. */
  lemma {:induction false} CancelFrame(x: string, a: string, b: string, y: string)
    requires x + a + y == x + b + y
    ensures a == b
  {
    assert |a| == |b|;
    assert a == (x + a + y)[|x|..|x| + |a|];
    assert b == (x + b + y)[|x|..|x| + |b|];
  }

  /** An occurrence inside an occurrence is an occurrence. */
  lemma {:induction false} OccursAtTrans(s: string, t: string, u: string, i: int, j: int)
    requires OccursAt(s, t, i) && OccursAt(t, u, j)
    ensures OccursAt(s, u, i + j)
  {
    forall k | 0 <= k < |s| ensures u[i + j + k] == s[k] {
      assert u[j + (i + k)] == t[i + k];
    }
    assert u[i + j..i + j + |s|] == s;
  }

  /** A character of a substring is a character of the whole. */
  lemma {:induction false} CharOfInfix(c: char, s: string, t: string)
    requires IsInfix(s, t) && c in s
    ensures c in t
  {
    var i :| OccursAt(s, t, i);
    var k :| 0 <= k < |s| && s[k] == c;
    assert t[i + k] == s[k];
  }

  /** `ss.join('')`. */
  function Concat(ss: seq<string>): string {
    if ss == [] then "" else ss[0] + Concat(ss[1..])
  }

  lemma {:induction false} ConcatAppend(a: seq<string>, b: seq<string>)
    ensures Concat(a + b) == Concat(a) + Concat(b)
  {
    if a == [] {
      assert a + b == b;
    } else {
      assert (a + b)[1..] == a[1..] + b;
      ConcatAppend(a[1..], b);
    }
  }

  /** Splitting off the last piece. */
  lemma {:induction false} ConcatSnoc(ss: seq<string>)
    requires |ss| > 0
    ensures Concat(ss) == Concat(ss[..|ss| - 1]) + ss[|ss| - 1]
  {
    assert ss == ss[..|ss| - 1] + [ss[|ss| - 1]];
    ConcatAppend(ss[..|ss| - 1], [ss[|ss| - 1]]);
    assert Concat([ss[|ss| - 1]]) == ss[|ss| - 1] + Concat([]);
  }

  /** Element `i` of `ss` stands in `Concat(ss)` right after the elements before it. */
  lemma {:induction false} ConcatAt(ss: seq<string>, i: int)
    requires 0 <= i < |ss|
    ensures OccursAt(ss[i], Concat(ss), |Concat(ss[..i])|)
  {
    assert ss == ss[..i] + ([ss[i]] + ss[i + 1..]);
    ConcatAppend(ss[..i], [ss[i]] + ss[i + 1..]);
    assert Concat([ss[i]] + ss[i + 1..]) == ss[i] + Concat(ss[i + 1..]);
    OccursInMiddle(Concat(ss[..i]), ss[i], Concat(ss[i + 1..]));
  }

  /** A piece of a piece of a concatenation stands where the offsets add up to. */
  lemma {:induction false} ConcatNestedAt(ss: seq<string>, k: int, pre: string, items: seq<string>, post: string, i: int)
    requires 0 <= k < |ss| && 0 <= i < |items|
    requires ss[k] == pre + Concat(items) + post
    ensures OccursAt(items[i], Concat(ss), |pre| + |Concat(items[..i])| + |Concat(ss[..k])|)
  {
    var inner := |pre| + |Concat(items[..i])|;
    ConcatInFrame(pre, items, post, i);
    assert OccursAt(items[i], ss[k], inner);
    ConcatPieceAt(ss, k, items[i], inner);
  }

  lemma {:induction false} ConcatPieceAt(ss: seq<string>, k: int, x: string, inner: int)
    requires 0 <= k < |ss|
    requires OccursAt(x, ss[k], inner)
    ensures OccursAt(x, Concat(ss), inner + |Concat(ss[..k])|)
  {
    ConcatAt(ss, k);
    OccursAtTrans(x, ss[k], Concat(ss), inner, |Concat(ss[..k])|);
  }

  lemma {:induction false} ConcatInFrame(pre: string, items: seq<string>, post: string, i: int)
    requires 0 <= i < |items|
    ensures OccursAt(items[i], pre + Concat(items) + post, |pre| + |Concat(items[..i])|)
  {
    ConcatAt(items, i);
    OccursInMiddle(pre, Concat(items), post);
    OccursAtTrans(items[i], Concat(items), pre + Concat(items) + post, |Concat(items[..i])|, |pre|);
  }

  /** Later elements stand after earlier ones, without overlap. */
  lemma {:induction false} ConcatOrdered(ss: seq<string>, i: int, j: int)
    requires 0 <= i < j <= |ss|
    ensures |Concat(ss[..i])| + |ss[i]| <= |Concat(ss[..j])|
  {
    assert ss[..j] == ss[..i] + [ss[i]] + ss[i + 1..j];
    ConcatAppend(ss[..i] + [ss[i]], ss[i + 1..j]);
    ConcatAppend(ss[..i], [ss[i]]);
    assert Concat([ss[i]]) == ss[i] + Concat([]);
  }

  /** Two neighbouring fragments stand together. */
  lemma {:induction false} PairAt(f: seq<string>, i: nat)
    requires i + 1 < |f|
    ensures OccursAt(f[i] + f[i + 1], Concat(f), |Concat(f[..i])|)
  {
    assert f == f[..i] + ([f[i], f[i + 1]] + f[i + 2..]);
    ConcatAppend(f[..i], [f[i], f[i + 1]] + f[i + 2..]);
    ConcatAppend([f[i], f[i + 1]], f[i + 2..]);
    assert Concat([f[i], f[i + 1]]) == f[i] + f[i + 1] by {
      assert [f[i], f[i + 1]][1..] == [f[i + 1]];
    }
    OccursInMiddle(Concat(f[..i]), f[i] + f[i + 1], Concat(f[i + 2..]));
  }

  /** Characters of `Concat(ss)` are the characters of its elements. */
  lemma {:induction false} CharOfConcat(c: char, ss: seq<string>)
    requires forall k :: 0 <= k < |ss| ==> c !in ss[k]
    ensures c !in Concat(ss)
  {
    if ss != [] {
      CharOfConcat(c, ss[1..]);
    }
  }

  /** `ss.join(sep)`. */
  function Join(ss: seq<string>, sep: string): string {
    if ss == [] then "" else if |ss| == 1 then ss[0] else ss[0] + sep + Join(ss[1..], sep)
  }

  /** Every element of `ss` occurs in `ss.join(sep)`. */
  lemma {:induction false} JoinContains(ss: seq<string>, sep: string, i: int)
    requires 0 <= i < |ss|
    ensures IsInfix(ss[i], Join(ss, sep))
  {
    if i == 0 {
      if |ss| == 1 {
        assert OccursAt(ss[0], Join(ss, sep), 0);
      } else {
        assert Join(ss, sep) == ss[0] + (sep + Join(ss[1..], sep));
        OccursInMiddle("", ss[0], sep + Join(ss[1..], sep));
      }
    } else {
      JoinContains(ss[1..], sep, i - 1);
      var k :| OccursAt(ss[i], Join(ss[1..], sep), k);
      OccursInMiddle(ss[0] + sep, Join(ss[1..], sep), "");
      assert Join(ss, sep) == (ss[0] + sep) + Join(ss[1..], sep) + "";
      OccursAtTrans(ss[i], Join(ss[1..], sep), Join(ss, sep), k, |ss[0] + sep|);
    }
  }

  // ----- ASCII letter case (`toLowerCase` restricted to ASCII) -----

  predicate IsUpper(c: char) { 'A' <= c <= 'Z' }

  function LowerChar(c: char): char {
    if IsUpper(c) then (c as int + 32) as char else c
  }

  /** `s.toLowerCase()` on ASCII letters. */
  function Lower(s: string): (r: string)
    ensures |r| == |s|
    ensures forall k :: 0 <= k < |s| ==> r[k] == LowerChar(s[k])
  {
    if s == [] then [] else [LowerChar(s[0])] + Lower(s[1..])
  }

  /** A capitalised word loses only its capital. */
  lemma {:induction false} LowerCapitalised(s: string)
    requires |s| > 0
    requires forall k :: 1 <= k < |s| ==> !IsUpper(s[k])
    ensures Lower(s) == [LowerChar(s[0])] + s[1..]
  {
    assert forall k :: 1 <= k < |s| ==> Lower(s)[k] == s[k];
  }

  lemma {:induction false} LowerHasNoUpper(s: string)
    ensures forall c :: c in Lower(s) ==> !IsUpper(c)
  {
    forall c | c in Lower(s) ensures !IsUpper(c) {
      var k :| 0 <= k < |Lower(s)| && Lower(s)[k] == c;
    }
  }

  lemma {:induction false} LowerIdempotent(s: string)
    ensures Lower(Lower(s)) == Lower(s)
  {
  }

  // ----- whitespace (the regular-expression class `\s`, restricted to ASCII) -----

  predicate IsSpace(c: char) {
    c == ' ' || c == '\t' || c == '\n' || c == '\r' || c == '\U{0B}' || c == '\U{0C}'
  }

  predicate NoSpace(s: string) {
    forall k :: 0 <= k < |s| ==> !IsSpace(s[k])
  }

  /** Drops the whitespace run at the start of `s`. */
  function DropSpaceRun(s: string): (r: string)
    ensures |r| <= |s|
    ensures r == [] || !IsSpace(r[0])
  {
    if s != [] && IsSpace(s[0]) then DropSpaceRun(s[1..]) else s
  }

  /** `s.replace(/\s+/g, rep)`: every maximal run of whitespace becomes one `rep`. */
  function ReplaceSpaceRuns(s: string, rep: string): (r: string)
    decreases |s|
  {
    if s == [] then []
    else if IsSpace(s[0]) then rep + ReplaceSpaceRuns(DropSpaceRun(s), rep)
    else [s[0]] + ReplaceSpaceRuns(s[1..], rep)
  }

  /** A whitespace-free replacement leaves no whitespace behind. */
  lemma {:induction false} ReplaceSpaceRunsNoSpace(s: string, rep: string)
    requires NoSpace(rep)
    ensures NoSpace(ReplaceSpaceRuns(s, rep))
    decreases |s|
  {
    if s == [] {
    } else if IsSpace(s[0]) {
      ReplaceSpaceRunsNoSpace(DropSpaceRun(s), rep);
    } else {
      ReplaceSpaceRunsNoSpace(s[1..], rep);
    }
  }

  /** A string without whitespace is left as it is. */
  lemma {:induction false} ReplaceSpaceRunsIdentity(s: string, rep: string)
    requires NoSpace(s)
    ensures ReplaceSpaceRuns(s, rep) == s
  {
    if s != [] {
      ReplaceSpaceRunsIdentity(s[1..], rep);
    }
  }

  /** Whitespace runs are replaced one by one; the rest is kept. */
  lemma {:induction false} ReplaceSpaceRunsSplit(a: string, w: string, b: string, rep: string)
    requires a == [] || !IsSpace(a[|a| - 1])
    requires w != [] && forall k :: 0 <= k < |w| ==> IsSpace(w[k])
    requires b == [] || !IsSpace(b[0])
    ensures ReplaceSpaceRuns(a + w + b, rep) == ReplaceSpaceRuns(a, rep) + rep + ReplaceSpaceRuns(b, rep)
    decreases |a|, 1
  {
    if a == [] {
      assert a + w + b == w + b;
      DropRunOfSpaces(w, b);
      SpaceStep(w + b, rep);
    } else if IsSpace(a[0]) {
      SplitAfterSpace(a, w, b, rep);
    } else {
      SplitAfterKeep(a, w, b, rep);
    }
  }

  lemma {:induction false} SplitAfterSpace(a: string, w: string, b: string, rep: string)
    requires a != [] && IsSpace(a[0])
    requires a == [] || !IsSpace(a[|a| - 1])
    requires w != [] && forall k :: 0 <= k < |w| ==> IsSpace(w[k])
    requires b == [] || !IsSpace(b[0])
    ensures ReplaceSpaceRuns(a + w + b, rep) == ReplaceSpaceRuns(a, rep) + rep + ReplaceSpaceRuns(b, rep)
    decreases |a|, 0
  {
    var a' := DropSpaceRun(a);
    LeadingRunStep(a, w + b, rep);
    assert a + w + b == a + (w + b) && a' + (w + b) == a' + w + b;
    ReplaceSpaceRunsSplit(a', w, b, rep);
    var ra', rb := ReplaceSpaceRuns(a', rep), ReplaceSpaceRuns(b, rep);
    assert rep + (ra' + rep + rb) == (rep + ra') + rep + rb;
  }

  /** A leading whitespace run of `a` becomes one `rep`, before and after appending `t`. */
  lemma {:induction false} LeadingRunStep(a: string, t: string, rep: string)
    requires a != [] && IsSpace(a[0]) && !IsSpace(a[|a| - 1])
    ensures |DropSpaceRun(a)| < |a|
    ensures DropSpaceRun(a) != [] && !IsSpace(DropSpaceRun(a)[|DropSpaceRun(a)| - 1])
    ensures ReplaceSpaceRuns(a + t, rep) == rep + ReplaceSpaceRuns(DropSpaceRun(a) + t, rep)
    ensures ReplaceSpaceRuns(a, rep) == rep + ReplaceSpaceRuns(DropSpaceRun(a), rep)
  {
    DropRunPrefix(a, t);
    assert (a + t)[0] == a[0];
    SpaceStep(a + t, rep);
    SpaceStep(a, rep);
  }

  lemma {:induction false} SplitAfterKeep(a: string, w: string, b: string, rep: string)
    requires a != [] && !IsSpace(a[0])
    requires a == [] || !IsSpace(a[|a| - 1])
    requires w != [] && forall k :: 0 <= k < |w| ==> IsSpace(w[k])
    requires b == [] || !IsSpace(b[0])
    ensures ReplaceSpaceRuns(a + w + b, rep) == ReplaceSpaceRuns(a, rep) + rep + ReplaceSpaceRuns(b, rep)
    decreases |a|, 0
  {
    assert (a + w + b)[1..] == a[1..] + w + b;
    ReplaceSpaceRunsSplit(a[1..], w, b, rep);
    KeepStep(a + w + b, rep);
    KeepStep(a, rep);
  }

  lemma {:induction false} SpaceStep(s: string, rep: string)
    requires s != [] && IsSpace(s[0])
    ensures ReplaceSpaceRuns(s, rep) == rep + ReplaceSpaceRuns(DropSpaceRun(s), rep)
  {
  }

  lemma {:induction false} KeepStep(s: string, rep: string)
    requires s != [] && !IsSpace(s[0])
    ensures ReplaceSpaceRuns(s, rep) == [s[0]] + ReplaceSpaceRuns(s[1..], rep)
  {
  }

  lemma {:induction false} DropRunOfSpaces(w: string, b: string)
    requires forall k :: 0 <= k < |w| ==> IsSpace(w[k])
    requires b == [] || !IsSpace(b[0])
    ensures DropSpaceRun(w + b) == b
  {
    if w != [] {
      assert (w + b)[1..] == w[1..] + b;
      DropRunOfSpaces(w[1..], b);
    }
  }

  /** Dropping a leading run from `a` first does not disturb what follows `a`. */
  lemma {:induction false} DropRunPrefix(a: string, t: string)
    requires a != [] && !IsSpace(a[|a| - 1])
    ensures DropSpaceRun(a + t) == DropSpaceRun(a) + t
    ensures |DropSpaceRun(a)| > 0 && !IsSpace(DropSpaceRun(a)[|DropSpaceRun(a)| - 1])
    ensures |DropSpaceRun(a)| < |a| || !IsSpace(a[0])
  {
    if IsSpace(a[0]) {
      assert (a + t)[1..] == a[1..] + t;
      DropRunPrefix(a[1..], t);
    }
  }

  // ----- replacing one character -----

  /** `s.replace(/c/g, rep)`. */
  function ReplaceChar(s: string, c: char, rep: string): string {
    if s == [] then []
    else (if s[0] == c then rep else [s[0]]) + ReplaceChar(s[1..], c, rep)
  }

  /** After the replacement `c` is gone, if `rep` does not mention it. */
  lemma {:induction false} ReplaceCharRemoves(s: string, c: char, rep: string)
    requires c !in rep
    ensures c !in ReplaceChar(s, c, rep)
  {
    if s != [] {
      ReplaceCharRemoves(s[1..], c, rep);
    }
  }

  /** Characters other than `c` survive, and only those `rep` adds appear. */
  lemma {:induction false} ReplaceCharKeepsAbsent(s: string, c: char, rep: string, d: char)
    requires d !in s && d !in rep
    ensures d !in ReplaceChar(s, c, rep)
  {
    if s != [] {
      ReplaceCharKeepsAbsent(s[1..], c, rep, d);
    }
  }

  /** The replacement works character by character, so it splits over a concatenation. */
  lemma {:induction false} ReplaceCharAppend(a: string, b: string, c: char, rep: string)
    ensures ReplaceChar(a + b, c, rep) == ReplaceChar(a, c, rep) + ReplaceChar(b, c, rep)
  {
    if a == [] {
      assert a + b == b;
    } else {
      assert (a + b)[1..] == a[1..] + b;
      ReplaceCharAppend(a[1..], b, c, rep);
    }
  }

  /** Replacing a character that does not occur changes nothing. */
  lemma {:induction false} ReplaceCharIdentity(s: string, c: char, rep: string)
    requires c !in s
    ensures ReplaceChar(s, c, rep) == s
  {
    if s != [] {
      ReplaceCharIdentity(s[1..], c, rep);
    }
  }

  lemma {:induction false} LowerKeepsNoSpace(s: string)
    ensures NoSpace(s) ==> NoSpace(Lower(s))
  {
  }

  /** The characters of the result come from the input or from the replacement. */
  lemma {:induction false} ReplaceSpaceRunsChars(s: string, rep: string)
    ensures forall c :: c in ReplaceSpaceRuns(s, rep) ==> c in s || c in rep
    decreases |s|
  {
    if s == [] {
    } else if IsSpace(s[0]) {
      ReplaceSpaceRunsChars(DropSpaceRun(s), rep);
      DropSpaceRunChars(s);
    } else {
      ReplaceSpaceRunsChars(s[1..], rep);
    }
  }

  lemma {:induction false} DropSpaceRunChars(s: string)
    ensures forall c :: c in DropSpaceRun(s) ==> c in s
  {
    if s != [] && IsSpace(s[0]) {
      DropSpaceRunChars(s[1..]);
    }
  }

  // ----- decimal numerals -----

  predicate IsDigit(c: char) { '0' <= c <= '9' }

  function DigitChar(d: nat): char
    requires d < 10
  {
    ('0' as int + d) as char
  }

  function DigitValue(c: char): nat
    requires IsDigit(c)
  {
    c as int - '0' as int
  }

  /** The decimal numeral of `n`, as `${n}` writes it. */
  function NatToString(n: nat): (r: string)
    ensures |r| >= 1
    ensures forall k :: 0 <= k < |r| ==> IsDigit(r[k])
  {
    if n < 10 then [DigitChar(n)] else NatToString(n / 10) + [DigitChar(n % 10)]
  }

  /** The value of a string of decimal digits. */
  function DigitsValue(s: string): nat
    requires forall k :: 0 <= k < |s| ==> IsDigit(s[k])
  {
    if s == [] then 0 else DigitsValue(s[..|s| - 1]) * 10 + DigitValue(s[|s| - 1])
  }

  /** Reading back a numeral gives the number. */
  lemma {:induction false} NatToStringRoundTrip(n: nat)
    ensures DigitsValue(NatToString(n)) == n
  {
    if n >= 10 {
      var s := NatToString(n);
      assert s[..|s| - 1] == NatToString(n / 10);
      NatToStringRoundTrip(n / 10);
    }
  }

  /** Different numbers have different numerals. */
  lemma {:induction false} NatToStringInjective(m: nat, n: nat)
    requires NatToString(m) == NatToString(n)
    ensures m == n
  {
    NatToStringRoundTrip(m);
    NatToStringRoundTrip(n);
  }
}
