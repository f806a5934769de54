/**
 * String primitives the client relies on: `String.prototype.trim`,
 * `toLowerCase`, `includes`, `split("\n")` / `join("\n")` and the decimal
 * rendering of a number inside a template literal.
 *
 * Whitespace is the ASCII and common Unicode subset of ECMAScript's
 * WhiteSpace and LineTerminator; lower-casing maps ASCII letters only.
 */
module Text {

  predicate IsSpace(c: char) {
    c == ' ' || c == '\t' || c == '\n' || c == '\r' || c == '\U{000B}' || c == '\U{000C}'
    || c == '\U{00A0}' || c == '\U{2028}' || c == '\U{2029}' || c == '\U{FEFF}'
  }

  function TrimStart(s: string): (r: string)
    ensures |r| <= |s|
    ensures r == [] || !IsSpace(r[0])
  {
    if s == [] || !IsSpace(s[0]) then s else TrimStart(s[1..])
  }

  function TrimEnd(s: string): (r: string)
    ensures |r| <= |s| && r == s[..|r|]
    ensures r == [] || !IsSpace(r[|r| - 1])
  {
    if s == [] || !IsSpace(s[|s| - 1]) then s else TrimEnd(s[..|s| - 1])
  }

  /**
   * `s.trim()`: drops leading and trailing whitespace, keeping a contiguous
   * middle part; everything dropped at either end is whitespace.
   */
  function Trim(s: string): (r: string)
    ensures LeadingSpace(s) + |r| <= |s|
    ensures r == s[LeadingSpace(s)..LeadingSpace(s) + |r|]
    ensures AllSpace(s[..LeadingSpace(s)]) && AllSpace(s[LeadingSpace(s) + |r|..])
  {
    var a := TrimStart(s);
    var r := TrimEnd(a);
    TrimStartIsSuffix(s);
    TrimStartDropsSpace(s);
    TrimEndDropsSpace(a);
    var k := LeadingSpace(s);
    assert a == s[k..];
    assert r == s[k..k + |r|] by { assert r == a[..|r|]; }
    assert AllSpace(s[k + |r|..]) by { assert s[k + |r|..] == a[|r|..]; }
    r
  }

  /** How many characters `trim` drops at the front. */
  function LeadingSpace(s: string): nat {
    |s| - |TrimStart(s)|
  }

  lemma {:induction false} TrimStartIsSuffix(s: string)
    ensures TrimStart(s) == s[|s| - |TrimStart(s)|..]
  {
    if s != [] && IsSpace(s[0]) {
      TrimStartIsSuffix(s[1..]);
    }
  }

  /** What `trimStart` drops is whitespace. */
  lemma {:induction false} TrimStartDropsSpace(s: string)
    ensures AllSpace(s[..|s| - |TrimStart(s)|])
  {
    if s != [] && IsSpace(s[0]) {
      TrimStartDropsSpace(s[1..]);
      var k := |s| - |TrimStart(s)|;
      forall i | 0 <= i < k ensures IsSpace(s[..k][i]) {
        if i > 0 { assert s[..k][i] == s[1..][..k - 1][i - 1]; }
      }
    }
  }

  /** What `trimEnd` drops is whitespace. */
  lemma {:induction false} TrimEndDropsSpace(s: string)
    ensures AllSpace(s[|TrimEnd(s)|..])
  {
    if s != [] && IsSpace(s[|s| - 1]) {
      var t := s[..|s| - 1];
      TrimEndDropsSpace(t);
      var k := |TrimEnd(s)|;
      forall i | 0 <= i < |s| - k ensures IsSpace(s[k..][i]) {
        if k + i < |s| - 1 { assert s[k..][i] == t[k..][i]; }
      }
    }
  }

  /** What the trimmed text is made of: no whitespace at either end. */
  predicate IsTrimmed(s: string) {
    s == [] || (!IsSpace(s[0]) && !IsSpace(s[|s| - 1]))
  }

  lemma TrimmedFixed(s: string)
    requires IsTrimmed(s)
    ensures Trim(s) == s
  {
  }

  /** The result of trimming is trimmed, and trimming twice changes nothing. */
  lemma TrimIsTrimmed(s: string)
    ensures IsTrimmed(Trim(s))
    ensures Trim(Trim(s)) == Trim(s)
  {
    var a := TrimStart(s);
    var r := TrimEnd(a);
    if r != [] {
      assert r[0] == a[0];
    }
    TrimmedFixed(r);
  }

  /** A string trims to "" exactly when every character is whitespace. */
  lemma TrimEmptyIff(s: string)
    ensures Trim(s) == "" <==> AllSpace(s)
  {
    TrimStartEmptyIff(s);
    var a := TrimStart(s);
    if a != [] {
      assert TrimEnd(a) != [] by {
        assert !IsSpace(a[0]);
        if TrimEnd(a) == [] { TrimEndEmpty(a); }
      }
    }
  }

  predicate AllSpace(s: string) {
    forall i :: 0 <= i < |s| ==> IsSpace(s[i])
  }

  lemma {:induction false} TrimStartEmptyIff(s: string)
    ensures TrimStart(s) == "" <==> AllSpace(s)
  {
    if s != [] && IsSpace(s[0]) {
      TrimStartEmptyIff(s[1..]);
      assert AllSpace(s) <==> AllSpace(s[1..]) by {
        if AllSpace(s[1..]) {
          forall i | 0 <= i < |s| ensures IsSpace(s[i]) {
            if i > 0 { assert s[i] == s[1..][i - 1]; }
          }
        }
      }
    }
  }

  lemma {:induction false} TrimEndEmpty(s: string)
    requires TrimEnd(s) == []
    ensures AllSpace(s)
  {
    if s != [] {
      TrimEndEmpty(s[..|s| - 1]);
      forall i | 0 <= i < |s| ensures IsSpace(s[i]) {
        if i < |s| - 1 { assert s[i] == s[..|s| - 1][i]; }
      }
    }
  }

  function ToLowerChar(c: char): char {
    if 'A' <= c <= 'Z' then (c as int + 32) as char else c
  }

  /** `s.toLowerCase()` on ASCII letters. */
  function ToLower(s: string): (r: string)
    ensures |r| == |s|
    ensures forall i :: 0 <= i < |s| ==> r[i] == ToLowerChar(s[i])
  {
    if s == [] then [] else [ToLowerChar(s[0])] + ToLower(s[1..])
  }

  /**
   * `s.length`: JavaScript counts UTF-16 code units, so a character outside
   * the Basic Multilingual Plane counts twice.
   */
  function Utf16Length(s: string): (r: nat)
    ensures |s| <= r <= 2 * |s|
  {
    if s == [] then 0 else (if s[0] as int > 0xFFFF then 2 else 1) + Utf16Length(s[1..])
  }

  /** Without characters beyond the Basic Multilingual Plane, code units and characters agree. */
  lemma {:induction false} BmpLength(s: string)
    requires forall i :: 0 <= i < |s| ==> s[i] as int <= 0xFFFF
    ensures Utf16Length(s) == |s|
  {
    if s != [] {
      BmpLength(s[1..]);
    }
  }

  /** Two emoji make a four-unit text: `"😀😀".length === 4`. */
  lemma AstralCountsTwice()
    ensures |"\U{1F600}\U{1F600}"| == 2
    ensures Utf16Length("\U{1F600}\U{1F600}") == 4
  {
    assert "\U{1F600}\U{1F600}"[1..] == "\U{1F600}";
    assert "\U{1F600}"[1..] == "";
  }

  /** `s.includes(c)` for a one-character needle. */
  predicate Contains(s: string, c: char) {
    exists i :: 0 <= i < |s| && s[i] == c
  }

  // ---------------------------------------------------------------------
  // Lines: `split("\n")` and `join("\n")`.

  /** `s.split("\n")`: always at least one line, none holding a newline. */
  function Lines(s: string): (r: seq<string>)
    ensures |r| >= 1
    ensures forall k :: 0 <= k < |r| ==> '\n' !in r[k]
  {
    if s == [] then [""]
    else if s[0] == '\n' then [""] + Lines(s[1..])
    else
      var rest := Lines(s[1..]);
      [[s[0]] + rest[0]] + rest[1..]
  }

  /** `lines.join("\n")`. */
  function JoinLines(ls: seq<string>): string
    requires |ls| >= 1
  {
    if |ls| == 1 then ls[0] else ls[0] + "\n" + JoinLines(ls[1..])
  }

  /** Joining the pieces of a split gives back the original text. */
  lemma {:induction false} JoinLinesOfLines(s: string)
    ensures JoinLines(Lines(s)) == s
  {
    if s == [] {
    } else if s[0] == '\n' {
      JoinLinesOfLines(s[1..]);
      assert Lines(s)[1..] == Lines(s[1..]);
    } else {
      var rest := Lines(s[1..]);
      JoinLinesOfLines(s[1..]);
      var ls := Lines(s);
      assert ls[0] == [s[0]] + rest[0];
      if |rest| == 1 {
        assert JoinLines(ls) == [s[0]] + rest[0];
      } else {
        assert ls[1..] == rest[1..];
        assert JoinLines(ls) == [s[0]] + rest[0] + "\n" + JoinLines(rest[1..]);
        assert JoinLines(rest) == rest[0] + "\n" + JoinLines(rest[1..]);
      }
    }
  }

  /** Splitting the join of newline-free lines gives back the lines. */
  lemma {:induction false} LinesOfJoinLines(ls: seq<string>)
    requires |ls| >= 1
    requires forall k :: 0 <= k < |ls| ==> '\n' !in ls[k]
    ensures Lines(JoinLines(ls)) == ls
  {
    if |ls| == 1 {
      LinesOfLine(ls[0], []);
      assert ls[0] + [] == ls[0];
    } else {
      LinesOfJoinLines(ls[1..]);
      var tail := JoinLines(ls[1..]);
      LinesOfLine(ls[0], "\n" + tail);
      assert ls[0] + ("\n" + tail) == ls[0] + "\n" + tail;
      assert Lines("\n" + tail) == [""] + ls[1..] by {
        assert ("\n" + tail)[1..] == tail;
      }
      assert ls[0] + "" == ls[0];
      assert [ls[0]] + ls[1..] == ls;
    }
  }

  /** A newline-free head glues onto the first line of whatever follows. */
  lemma {:induction false} LinesOfLine(w: string, t: string)
    requires '\n' !in w
    ensures Lines(w + t) == [w + Lines(t)[0]] + Lines(t)[1..]
  {
    if w != [] {
      assert (w + t)[0] == w[0];
      assert (w + t)[1..] == w[1..] + t;
      LinesOfLine(w[1..], t);
      assert [w[0]] + (w[1..] + Lines(t)[0]) == w + Lines(t)[0];
    } else {
      assert w + t == t;
      assert w + Lines(t)[0] == Lines(t)[0];
      assert Lines(t) == [Lines(t)[0]] + Lines(t)[1..];
    }
  }

  /** Joining splits at every line boundary. */
  lemma {:induction false} JoinLinesSplit(ls: seq<string>, k: nat)
    requires 1 <= k < |ls|
    ensures JoinLines(ls) == JoinLines(ls[..k]) + "\n" + JoinLines(ls[k..])
  {
    if k == 1 {
      assert ls[..1] == [ls[0]];
      assert ls[1..] == ls[k..];
    } else {
      JoinLinesSplit(ls[1..], k - 1);
      assert ls[1..][..k - 1] == ls[..k][1..];
      assert ls[1..][k - 1..] == ls[k..];
    }
  }

  // ---------------------------------------------------------------------
  // Decimal rendering of a natural number, as a template literal prints it.

  function DigitChar(d: nat): char
    requires d < 10
  {
    "0123456789"[d]
  }

  /** `${n}`: the shortest decimal text of `n`, without leading zeros. */
  function Decimal(n: nat): (r: string)
    ensures |r| >= 1
    ensures forall i :: 0 <= i < |r| ==> '0' <= r[i] <= '9'
    ensures n >= 10 ==> r[0] != '0'
  {
    if n < 10 then [DigitChar(n)] else Decimal(n / 10) + [DigitChar(n % 10)]
  }

  /** The number a text of decimal digits denotes. */
  function DecValue(s: string): nat
    requires forall i :: 0 <= i < |s| ==> '0' <= s[i] <= '9'
  {
    if s == [] then 0 else DecValue(s[..|s| - 1]) * 10 + (s[|s| - 1] as int - '0' as int)
  }

  /** The decimal text of `n` reads back as `n`. */
  lemma {:induction false} DecimalValue(n: nat)
    ensures DecValue(Decimal(n)) == n
  {
    var r := Decimal(n);
    if n >= 10 {
      DecimalValue(n / 10);
      assert r[..|r| - 1] == Decimal(n / 10);
    }
  }
}
