/**
 * The string primitives of Java and JavaScript that the backend and the
 * front ends rely on, over `string` (a sequence of characters). Case folding
 * covers the ASCII letters only.
 */
module Text {
  import opened Wrappers

  /** `Character.toLowerCase` / `String.prototype.toLowerCase` on one character. */
  function LowerChar(c: char): char {
    if 'A' <= c <= 'Z' then (c as int + 32) as char else c
  }

  /** `String.toLowerCase()`. */
  function Lower(s: string): (r: string)
    ensures |r| == |s|
    ensures forall i :: 0 <= i < |s| ==> r[i] == LowerChar(s[i])
  {
    seq(|s|, i requires 0 <= i < |s| => LowerChar(s[i]))
  }

  /** `a.equalsIgnoreCase(b)` for a non-null argument. */
  predicate EqualsIgnoreCase(a: string, b: string) {
    Lower(a) == Lower(b)
  }

  /**
   * `Character.isWhitespace`, the test behind `String.isBlank()`: the Unicode space, line and
   * paragraph separators except the no-break spaces U+00A0, U+2007 and U+202F, plus the
   * controls U+0009-U+000D and U+001C-U+001F.
   */
  predicate IsWhitespace(c: char)
    ensures IsWhitespace(c) ==> (IsTrimmed(c) <==> c as int < 128)
  {
    c == ' ' || 9 <= c as int <= 13 || 28 <= c as int <= 31
    || c as int == 0x1680 || 0x2000 <= c as int <= 0x2006 || 0x2008 <= c as int <= 0x200A
    || c as int == 0x2028 || c as int == 0x2029 || c as int == 0x205F || c as int == 0x3000
  }

  /** `value != null && !value.isBlank()`. */
  predicate HasValue(s: Option<string>) {
    s.Some? && exists i :: 0 <= i < |s.value| && !IsWhitespace(s.value[i])
  }

  /** Java's `String.trim()` drops every character up to U+0020 at both ends. */
  predicate IsTrimmed(c: char) {
    c as int <= 32
  }

  function TrimStart(s: string): (r: string)
    ensures |r| <= |s| && r == s[|s| - |r|..]
    ensures r == [] || !IsTrimmed(r[0])
    ensures forall k :: 0 <= k < |s| - |r| ==> IsTrimmed(s[k])
  {
    if s != [] && IsTrimmed(s[0]) then TrimStart(s[1..]) else s
  }

  function TrimEnd(s: string): (r: string)
    ensures |r| <= |s| && r == s[..|r|]
    ensures r == [] || !IsTrimmed(r[|r| - 1])
    ensures forall k :: |r| <= k < |s| ==> IsTrimmed(s[k])
  {
    if s != [] && IsTrimmed(s[|s| - 1]) then TrimEnd(s[..|s| - 1]) else s
  }

  /** `String.trim()`: the middle of s, from its first to its last character above U+0020. */
  function Trim(s: string): (r: string)
    ensures |r| <= |s|
    ensures r == [] || (!IsTrimmed(r[0]) && !IsTrimmed(r[|r| - 1]))
    ensures r == [] <==> forall k :: 0 <= k < |s| ==> IsTrimmed(s[k])
  {
    TrimEnd(TrimStart(s))
  }

  /** Trimming keeps a contiguous part of s and cuts only characters up to U+0020 around it. */
  lemma TrimIsMiddle(s: string)
    ensures var r := Trim(s);
      exists i ::
        && 0 <= i <= |s| - |r| && s[i..][..|r|] == r
        && (forall k :: 0 <= k < i ==> IsTrimmed(s[k]))
        && (forall k :: |r| <= k < |s[i..]| ==> IsTrimmed(s[i..][k]))
  {
    var t := TrimStart(s);
    assert s[|s| - |t|..] == t;
  }

  /** `trim()` leaves s as it is: it neither starts nor ends with a character up to U+0020. */
  predicate TrimFixed(s: string) {
    s == [] || (!IsTrimmed(s[0]) && !IsTrimmed(s[|s| - 1]))
  }

  predicate AllTrimmed(s: string) {
    forall k :: 0 <= k < |s| ==> IsTrimmed(s[k])
  }

  lemma {:induction false} TrimStartPrefix(a: string, m: string)
    requires AllTrimmed(a) && (m == [] || !IsTrimmed(m[0]))
    ensures TrimStart(a + m) == m
  {
    if a != [] {
      assert (a + m)[1..] == a[1..] + m;
      TrimStartPrefix(a[1..], m);
    }
  }

  lemma {:induction false} TrimEndSuffix(m: string, b: string)
    requires AllTrimmed(b) && (m == [] || !IsTrimmed(m[|m| - 1]))
    ensures TrimEnd(m + b) == m
  {
    if b != [] {
      assert (m + b)[..|m + b| - 1] == m + b[..|b| - 1];
      TrimEndSuffix(m, b[..|b| - 1]);
    }
  }

  /** Trimming a string that is m padded with characters up to U+0020 yields m, when m is itself trimmed. */
  lemma TrimAround(a: string, m: string, b: string)
    requires AllTrimmed(a) && AllTrimmed(b) && TrimFixed(m)
    ensures Trim(a + m + b) == m
  {
    if m == [] {
      assert a + m + b == a + b;
      assert forall k :: 0 <= k < |a + b| ==> IsTrimmed((a + b)[k]) by {
        forall k | 0 <= k < |a + b| ensures IsTrimmed((a + b)[k]) {
          if k >= |a| { assert (a + b)[k] == b[k - |a|]; }
        }
      }
    } else {
      assert a + m + b == a + (m + b);
      assert (m + b)[0] == m[0];
      TrimStartPrefix(a, m + b);
      TrimEndSuffix(m, b);
    }
  }

  /** Trimming two words joined by a space: which parts survive. */
  lemma TrimJoinSpace(f: string, l: string)
    ensures Trim(f + " " + l) == [] <==> AllTrimmed(f) && AllTrimmed(l)
    ensures TrimFixed(f) && TrimFixed(l) && f != [] && l != [] ==> Trim(f + " " + l) == f + " " + l
    ensures TrimFixed(f) && l == [] ==> Trim(f + " " + l) == f
    ensures f == [] && TrimFixed(l) ==> Trim(f + " " + l) == l
  {
    var s := f + " " + l;
    assert AllTrimmed(s) <==> AllTrimmed(f) && AllTrimmed(l) by {
      if AllTrimmed(f) && AllTrimmed(l) {
        forall k | 0 <= k < |s| ensures IsTrimmed(s[k]) {
          if k > |f| { assert s[k] == l[k - |f| - 1]; }
        }
      }
      if AllTrimmed(s) {
        forall k | 0 <= k < |f| ensures IsTrimmed(f[k]) { assert s[k] == f[k]; }
        forall k | 0 <= k < |l| ensures IsTrimmed(l[k]) { assert s[k + |f| + 1] == l[k]; }
      }
    }
    if TrimFixed(f) && TrimFixed(l) && f != [] && l != [] {
      assert [] + s + [] == s;
      TrimAround([], s, []);
    }
    if TrimFixed(f) && l == [] {
      assert s == [] + f + " ";
      TrimAround([], f, " ");
    }
    if f == [] && TrimFixed(l) {
      assert s == " " + l + [];
      TrimAround(" ", l, []);
    }
  }

  predicate StartsWith(s: string, p: string) {
    |p| <= |s| && s[..|p|] == p
  }

  predicate EndsWith(s: string, p: string) {
    |p| <= |s| && s[|s| - |p|..] == p
  }

  /** `s.contains(t)`: t occurs in s at some position. */
  predicate Contains(s: string, t: string)
    decreases |s|
  {
    StartsWith(s, t) || (s != [] && Contains(s[1..], t))
  }

  lemma ContainsEmpty(s: string)
    ensures Contains(s, "")
  {
  }

  /** `s.lastIndexOf(c)`: -1 when c does not occur. */
  function LastIndexOf(s: string, c: char): (r: int)
    ensures -1 <= r < |s|
    ensures r == -1 <==> c !in s
    ensures r >= 0 ==> s[r] == c && c !in s[r + 1..]
  {
    if s == [] then -1
    else if s[|s| - 1] == c then |s| - 1
    else LastIndexOf(s[..|s| - 1], c)
  }

  /** The pieces joined back with commas between them. */
  function JoinComma(ps: seq<string>): string {
    if ps == [] then "" else if |ps| == 1 then ps[0] else ps[0] + "," + JoinComma(ps[1..])
  }

  /** The pieces of s between commas, empty pieces included. */
  function CommaPieces(s: string): (r: seq<string>)
    ensures |r| >= 1
    ensures forall p :: p in r ==> ',' !in p
    ensures JoinComma(r) == s
  {
    if s == [] then [""]
    else
      var rest := CommaPieces(s[1..]);
      assert s == [s[0]] + s[1..];
      if s[0] == ',' then [""] + rest
      else
        var r := [[s[0]] + rest[0]] + rest[1..];
        assert forall p :: p in r ==> p == r[0] || p in rest;
        r
  }

  lemma {:induction false} JoinCommaSnoc(ps: seq<string>, x: string)
    requires ps != []
    ensures JoinComma(ps + [x]) == JoinComma(ps) + "," + x
    decreases |ps|
  {
    if |ps| > 1 {
      assert (ps + [x])[1..] == ps[1..] + [x];
      JoinCommaSnoc(ps[1..], x);
    }
  }

  /** Dropping trailing empty pieces drops only trailing commas from the joined string. */
  lemma {:induction false} DropTrailingJoin(ps: seq<string>)
    ensures var j, full := JoinComma(DropTrailingEmpty(ps)), JoinComma(ps);
      |j| <= |full| && full[..|j|] == j && forall i :: |j| <= i < |full| ==> full[i] == ','
    decreases |ps|
  {
    if ps != [] && ps[|ps| - 1] == "" {
      var init := ps[..|ps| - 1];
      DropTrailingJoin(init);
      if init != [] {
        assert ps == init + [""];
        JoinCommaSnoc(init, "");
      }
    }
  }

  function DropTrailingEmpty(ps: seq<string>): (r: seq<string>)
    ensures |r| <= |ps| && r == ps[..|r|]
    ensures r == [] || r[|r| - 1] != ""
  {
    if ps != [] && ps[|ps| - 1] == "" then DropTrailingEmpty(ps[..|ps| - 1]) else ps
  }

  /** Java's `s.split(",")`: no comma gives [s]; otherwise trailing empty pieces are removed. */
  function SplitComma(s: string): (r: seq<string>)
    ensures ',' !in s ==> r == [s]
    ensures forall p :: p in r ==> ',' !in p
    ensures ',' in s ==> r == [] || r[|r| - 1] != ""
    ensures var j := JoinComma(r);
      |j| <= |s| && s[..|j|] == j && forall i :: |j| <= i < |s| ==> s[i] == ','
  {
    if ',' in s then
      var pieces := CommaPieces(s);
      DropTrailingJoin(pieces);
      DropTrailingEmpty(pieces)
    else [s]
  }
}
