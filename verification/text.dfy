/**
  String operations the components use: `trim`, `startsWith`, `includes`, `toLowerCase`,
  `join`, and the decimal rendering behind `toString`/`padStart`/`Number`.
  JavaScript's Unicode case mapping and Unicode white space are restricted to ASCII here.
*/
module Text {

  /** The ASCII characters `String.prototype.trim` removes. */
  predicate IsSpace(c: char) {
    c == ' ' || c == '\t' || c == '\n' || c == '\r' || c == '\U{000B}' || c == '\U{000C}'
  }

  /** `s` with its leading white space removed. */
  function TrimStart(s: string): (r: string)
    ensures |r| <= |s| && r == s[|s| - |r|..]
    ensures forall i :: 0 <= i < |s| - |r| ==> IsSpace(s[i])
    ensures r != [] ==> !IsSpace(r[0])
  {
    if s != [] && IsSpace(s[0]) then TrimStart(s[1..]) else s
  }

  /** `s` with its trailing white space removed. */
  function TrimEnd(s: string): (r: string)
    ensures |r| <= |s| && r == s[..|r|]
    ensures forall i :: |r| <= i < |s| ==> IsSpace(s[i])
    ensures r != [] ==> !IsSpace(r[|r| - 1])
  {
    if s != [] && IsSpace(s[|s| - 1]) then TrimEnd(s[..|s| - 1]) else s
  }

  /** `s.trim()`. */
  function Trim(s: string): string {
    TrimEnd(TrimStart(s))
  }

  /** `!s.trim()`: the string is empty once trimmed. */
  predicate IsBlank(s: string) {
    Trim(s) == ""
  }

  /** A string is blank exactly when every one of its characters is white space. */
  lemma BlankIffAllSpace(s: string)
    ensures IsBlank(s) <==> forall i :: 0 <= i < |s| ==> IsSpace(s[i])
  {
    var t := TrimStart(s);
    assert forall i :: 0 <= i < |t| ==> t[i] == s[|s| - |t| + i];
  }

  /** `s || fallback` for a string: the empty string is falsy. */
  function OrElse(s: string, fallback: string): (r: string)
    ensures s != "" ==> r == s
    ensures s == "" ==> r == fallback
  {
    if s == "" then fallback else s
  }

  /** A string without white space is its own trim. */
  lemma TrimNoSpace(s: string)
    requires forall i :: 0 <= i < |s| ==> !IsSpace(s[i])
    ensures Trim(s) == s
  {
  }

  /** `s.startsWith(prefix)`. */
  predicate StartsWith(s: string, prefix: string) {
    prefix <= s
  }

  /** `t` occurs in `s` at position `i`. */
  predicate OccursAt(s: string, t: string, i: int) {
    0 <= i && i + |t| <= |s| && s[i..i + |t|] == t
  }

  /** `s.includes(t)`: scans `s` from the left for an occurrence of `t`. */
  function Contains(s: string, t: string): (b: bool)
    ensures b <==> exists i :: OccursAt(s, t, i)
  {
    assert OccursAt(s, t, 0) <==> t <= s by {
      if |t| <= |s| {
        assert s[0..|t|] == s[..|t|];
      }
    }
    if t <= s then
      true
    else if s == [] then
      assert forall i :: !OccursAt(s, t, i);
      false
    else
      var b := Contains(s[1..], t);
      assert forall i :: OccursAt(s[1..], t, i) ==> OccursAt(s, t, i + 1) by {
        forall i | OccursAt(s[1..], t, i) ensures OccursAt(s, t, i + 1) {
          assert s[i + 1..i + 1 + |t|] == s[1..][i..i + |t|];
        }
      }
      assert forall i :: OccursAt(s, t, i) ==> i > 0 && OccursAt(s[1..], t, i - 1) by {
        forall i | OccursAt(s, t, i) ensures i > 0 && OccursAt(s[1..], t, i - 1) {
          assert s[i..i + |t|] == s[1..][i - 1..i - 1 + |t|];
        }
      }
      b
  }

  /** `toLowerCase` on one character, ASCII letters only. */
  function LowerChar(c: char): char {
    if 'A' <= c <= 'Z' then (c as int + 32) as char else c
  }

  /** `s.toLowerCase()`, ASCII letters only. */
  function ToLower(s: string): (r: string)
    ensures |r| == |s|
    ensures forall i :: 0 <= i < |s| ==> r[i] == LowerChar(s[i])
  {
    seq(|s|, i requires 0 <= i < |s| => LowerChar(s[i]))
  }

  /** `xs.join(sep)`. */
  function Join(xs: seq<string>, sep: string): string {
    if xs == [] then ""
    else if |xs| == 1 then xs[0]
    else xs[0] + sep + Join(xs[1..], sep)
  }

  /** Total length of the strings in `xs`. */
  function TotalLength(xs: seq<string>): nat {
    if xs == [] then 0 else |xs[0]| + TotalLength(xs[1..])
  }

  /** Joining one more name appends the separator and that name. */
  lemma {:induction false} JoinSnoc(xs: seq<string>, y: string, sep: string)
    ensures Join(xs + [y], sep) == if xs == [] then y else Join(xs, sep) + sep + y
  {
    if |xs| == 1 {
      assert xs + [y] == [xs[0], y];
    } else if |xs| > 1 {
      assert (xs + [y])[1..] == xs[1..] + [y];
      JoinSnoc(xs[1..], y, sep);
    }
  }

  /** Where name `k` starts in `Join(xs, sep)`: after the names before it and one separator each. */
  function NameOffset(xs: seq<string>, sep: string, k: nat): nat
    requires k <= |xs|
  {
    TotalLength(xs[..k]) + k * |sep|
  }

  /** The strings in `[u] + vs` are `u` and then the strings in `vs`. */
  lemma TotalLengthCons(xs: seq<string>, k: nat)
    requires 0 < k <= |xs|
    ensures TotalLength(xs[..k]) == |xs[0]| + TotalLength(xs[1..][..k - 1])
  {
    assert xs[..k][1..] == xs[1..][..k - 1];
  }

  /** A slice of `u + v` that lies inside `v`. */
  lemma SliceOfSuffix(u: string, v: string, a: nat, b: nat)
    requires a <= b <= |v|
    ensures (u + v)[|u| + a..|u| + b] == v[a..b]
  {
  }

  /** Past the first name, offsets are those in the rest of the list, shifted by the first name and a separator. */
  lemma NameOffsetCons(xs: seq<string>, sep: string, k: nat)
    requires 0 < k <= |xs|
    ensures NameOffset(xs, sep, k) == |xs[0]| + |sep| + NameOffset(xs[1..], sep, k - 1)
  {
    TotalLengthCons(xs, k);
  }

  /** The next name starts after this one and one separator. */
  lemma {:induction false} NameOffsetNext(xs: seq<string>, sep: string, k: nat)
    requires k < |xs|
    ensures NameOffset(xs, sep, k + 1) == NameOffset(xs, sep, k) + |xs[k]| + |sep|
  {
    if k == 0 {
      assert xs[..1] == [xs[0]];
      assert xs[..1][1..] == [];
      assert xs[..0] == [];
    } else {
      NameOffsetCons(xs, sep, k);
      NameOffsetCons(xs, sep, k + 1);
      NameOffsetNext(xs[1..], sep, k - 1);
    }
  }

  /** Name `k` of the list occupies the joined string from `NameOffset(xs, sep, k)` on. */
  lemma {:induction false} JoinNameAt(xs: seq<string>, sep: string, k: nat)
    requires k < |xs|
    ensures NameOffset(xs, sep, k) + |xs[k]| <= |Join(xs, sep)|
    ensures Join(xs, sep)[NameOffset(xs, sep, k)..NameOffset(xs, sep, k) + |xs[k]|] == xs[k]
  {
    if k == 0 {
      assert xs[..0] == [];
      if |xs| > 1 {
        assert Join(xs, sep) == xs[0] + (sep + Join(xs[1..], sep));
      }
    } else {
      var u := xs[0] + sep;
      assert Join(xs, sep) == u + Join(xs[1..], sep);
      NameOffsetCons(xs, sep, k);
      JoinNameAt(xs[1..], sep, k - 1);
      SliceOfSuffix(u, Join(xs[1..], sep), NameOffset(xs[1..], sep, k - 1), NameOffset(xs[1..], sep, k - 1) + |xs[k]|);
    }
  }

  /** Between name `k` and name `k + 1` of the joined string stands exactly one separator. */
  lemma {:induction false} JoinSeparatorAt(xs: seq<string>, sep: string, k: nat)
    requires k + 1 < |xs|
    ensures NameOffset(xs, sep, k + 1) == NameOffset(xs, sep, k) + |xs[k]| + |sep|
    ensures NameOffset(xs, sep, k + 1) <= |Join(xs, sep)|
    ensures Join(xs, sep)[NameOffset(xs, sep, k) + |xs[k]|..NameOffset(xs, sep, k + 1)] == sep
  {
    NameOffsetNext(xs, sep, k);
    JoinNameAt(xs, sep, k + 1);
    var u := xs[0] + sep;
    assert Join(xs, sep) == u + Join(xs[1..], sep);
    if k == 0 {
      assert xs[..0] == [];
      assert Join(xs, sep) == xs[0] + sep + Join(xs[1..], sep);
    } else {
      NameOffsetCons(xs, sep, k);
      NameOffsetNext(xs[1..], sep, k - 1);
      JoinSeparatorAt(xs[1..], sep, k - 1);
      SliceOfSuffix(u, Join(xs[1..], sep), NameOffset(xs[1..], sep, k - 1) + |xs[k]|, NameOffset(xs[1..], sep, k));
    }
  }

  /** The length of a joined string: every name and one separator between each neighbouring pair. */
  lemma {:induction false} JoinLength(xs: seq<string>, sep: string)
    ensures |Join(xs, sep)| == TotalLength(xs) + (if xs == [] then 0 else (|xs| - 1) * |sep|)
  {
    if |xs| > 1 {
      JoinLength(xs[1..], sep);
    }
  }

  /** The decimal digit character for `d`. */
  function DigitChar(d: nat): char
    requires d < 10
  {
    ('0' as int + d) as char
  }

  predicate IsDigit(c: char) {
    '0' <= c <= '9'
  }

  /** The value of a decimal digit character. */
  function DigitValue(c: char): nat
    requires IsDigit(c)
  {
    c as int - '0' as int
  }

  /** `n.toString()` for a natural number: its decimal digits, most significant first. */
  function Digits(n: nat): (s: string)
    ensures |s| >= 1
    ensures forall i :: 0 <= i < |s| ==> IsDigit(s[i])
    ensures n < 10 <==> |s| == 1
  {
    if n < 10 then [DigitChar(n)] else Digits(n / 10) + [DigitChar(n % 10)]
  }

  /** The value of a string of decimal digits (leading zeros allowed). */
  function ParseDecimal(s: string): nat
    requires forall i :: 0 <= i < |s| ==> IsDigit(s[i])
  {
    if s == [] then 0 else ParseDecimal(s[..|s| - 1]) * 10 + DigitValue(s[|s| - 1])
  }

  /** Reading back the decimal rendering of `n` gives `n`. */
  lemma {:induction false} ParseDigits(n: nat)
    ensures ParseDecimal(Digits(n)) == n
  {
    if n >= 10 {
      var s := Digits(n);
      assert s[..|s| - 1] == Digits(n / 10);
      ParseDigits(n / 10);
    } else {
      assert Digits(n)[..0] == [];
    }
  }

  /** A leading zero does not change the value of a digit string. */
  lemma {:induction false} ParseLeadingZero(s: string)
    requires forall i :: 0 <= i < |s| ==> IsDigit(s[i])
    ensures ParseDecimal("0" + s) == ParseDecimal(s)
  {
    if s != [] {
      assert ("0" + s)[..|s|] == "0" + s[..|s| - 1];
      ParseLeadingZero(s[..|s| - 1]);
    } else {
      assert ("0" + s)[..0] == [];
    }
  }

  /** `s.padStart(2, "0")`. */
  function PadStart2(s: string): string {
    if |s| >= 2 then s else seq(2 - |s|, _ => '0') + s
  }

  /** Two-digit rendering of a number below 100 (the seconds field of a duration). */
  lemma TwoDigitField(n: nat)
    requires n < 100
    ensures |PadStart2(Digits(n))| == 2
    ensures forall i :: 0 <= i < 2 ==> IsDigit(PadStart2(Digits(n))[i])
    ensures ParseDecimal(PadStart2(Digits(n))) == n
  {
    ParseDigits(n);
    if n < 10 {
      assert PadStart2(Digits(n)) == "0" + Digits(n);
      ParseLeadingZero(Digits(n));
    } else {
      assert Digits(n) == Digits(n / 10) + [DigitChar(n % 10)];
    }
  }
}
