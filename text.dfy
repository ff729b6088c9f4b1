/**
 * String helpers shared by the components: substring search (JavaScript's
 * `includes`/`indexOf`), `trim`, ASCII case mapping, decimal rendering of
 * counts and status codes, and joining/splitting on a separator character.
 * Strings are sequences of characters; JavaScript's UTF-16 code units are
 * not distinguished from characters.
 */
module Text {
  import opened Common

  /** `pat` occurs in `s` at position `i`. */
  predicate OccursAt(s: string, pat: string, i: nat) {
    i + |pat| <= |s| && s[i..i + |pat|] == pat
  }

  /** The first position at or after `from` where `pat` occurs in `s` (JavaScript `indexOf(pat, from)`). */
  function IndexOfFrom(s: string, pat: string, from: nat): (r: Option<nat>)
    requires from <= |s|
    ensures r.Some? ==> from <= r.value && OccursAt(s, pat, r.value)
    ensures r.Some? ==> forall j :: from <= j < r.value ==> !OccursAt(s, pat, j)
    ensures r.None? ==> forall j :: from <= j ==> !OccursAt(s, pat, j)
    decreases |s| - from
  {
    if from + |pat| > |s| then None
    else if s[from..from + |pat|] == pat then Some(from)
    else IndexOfFrom(s, pat, from + 1)
  }

  function IndexOf(s: string, pat: string): Option<nat> {
    IndexOfFrom(s, pat, 0)
  }

  /** JavaScript `s.includes(pat)`. */
  predicate Contains(s: string, pat: string) {
    IndexOf(s, pat).Some?
  }

  lemma ContainsAt(s: string, pat: string, i: nat)
    requires OccursAt(s, pat, i)
    ensures Contains(s, pat)
  {
  }

  /** A character-level view of "contains": a pattern that holds a character absent from `s` never occurs. */
  lemma {:induction false} NotContainsWhenCharMissing(s: string, pat: string, k: nat)
    requires k < |pat| && pat[k] !in s
    ensures !Contains(s, pat)
  {
    forall j: nat | j + |pat| <= |s| ensures !OccursAt(s, pat, j) {
      assert s[j..j + |pat|][k] == s[j + k] && s[j + k] in s;
    }
  }

  /**
   * A pattern whose first character appears in the head `a` only at its
   * start, and which does not begin `a`, occurs in `a + b` exactly when it
   * occurs in `b`.
   */
  lemma ContainsAfterHead(a: string, b: string, pat: string)
    requires 0 < |pat| <= |a|
    requires forall j :: 0 < j < |a| ==> a[j] != pat[0]
    requires a[..|pat|] != pat
    ensures Contains(a + b, pat) <==> Contains(b, pat)
  {
    var m := a + b;
    if Contains(b, pat) {
      var j := IndexOf(b, pat).value;
      assert m[|a| + j..|a| + j + |pat|] == b[j..j + |pat|];
      ContainsAt(m, pat, |a| + j);
    } else {
      forall j: nat ensures !OccursAt(m, pat, j) {
        if j + |pat| > |m| {
        } else if j >= |a| {
          assert !OccursAt(b, pat, j - |a|);
          assert m[j..j + |pat|] == b[j - |a|..j - |a| + |pat|];
        } else if j == 0 {
          assert m[..|pat|] == a[..|pat|];
        } else {
          assert m[j..j + |pat|][0] == a[j];
        }
      }
    }
  }

  /** JavaScript `s.replace(pat, rep)` with a string pattern: only the first occurrence is replaced. */
  function ReplaceFirst(s: string, pat: string, rep: string): (r: string)
    ensures !Contains(s, pat) ==> r == s
    ensures Contains(s, pat) ==> exists i: nat :: OccursAt(s, pat, i) && r == s[..i] + rep + s[i + |pat|..]
  {
    match IndexOf(s, pat)
    case None => s
    case Some(i) => s[..i] + rep + s[i + |pat|..]
  }

  /** The characters JavaScript's `trim` removes that this model knows about. */
  predicate IsSpace(c: char) {
    c == ' ' || c == '\t' || c == '\n' || c == '\r' || c == '\U{000B}' || c == '\U{000C}'
    || c == '\U{00A0}' || c == '\U{FEFF}' || c == '\U{2028}' || c == '\U{2029}'
  }

  /** Every character of `s` is white space (so `s.trim()` is empty). */
  predicate IsBlank(s: string) {
    forall i :: 0 <= i < |s| ==> IsSpace(s[i])
  }

  function TrimStart(s: string): (r: string)
    ensures |r| <= |s| && r == s[|s| - |r|..]
    ensures r != [] ==> !IsSpace(r[0])
    ensures r == [] <==> IsBlank(s)
  {
    if s == [] then []
    else if IsSpace(s[0]) then TrimStart(s[1..])
    else s
  }

  function TrimEnd(s: string): (r: string)
    ensures |r| <= |s| && r == s[..|r|]
    ensures r != [] ==> !IsSpace(r[|r| - 1])
    ensures r == [] <==> IsBlank(s)
  {
    if s == [] then []
    else if IsSpace(s[|s| - 1]) then TrimEnd(s[..|s| - 1])
    else s
  }

  /** JavaScript `s.trim()`. */
  function Trim(s: string): (r: string)
    ensures r == [] <==> IsBlank(s)
    ensures r != [] ==> !IsSpace(r[0]) && !IsSpace(r[|r| - 1])
    ensures exists i: nat :: OccursAt(s, r, i)
  {
    var t := TrimStart(s);
    var r := TrimEnd(t);
    assert r == s[|s| - |t|..][..|r|];
    assert OccursAt(s, r, |s| - |t|);
    r
  }

  function LowerChar(c: char): (r: char)
    ensures 'A' <= c <= 'Z' ==> 'a' <= r <= 'z'
    ensures !('A' <= c <= 'Z') ==> r == c
  {
    if 'A' <= c <= 'Z' then (c as int - 'A' as int + 'a' as int) as char else c
  }

  function UpperChar(c: char): (r: char)
    ensures 'a' <= c <= 'z' ==> 'A' <= r <= 'Z'
    ensures !('a' <= c <= 'z') ==> r == c
  {
    if 'a' <= c <= 'z' then (c as int - 'a' as int + 'A' as int) as char else c
  }

  /** JavaScript `toLowerCase`, restricted to ASCII letters. */
  function ToLower(s: string): (r: string)
    ensures |r| == |s|
    ensures forall i :: 0 <= i < |s| ==> r[i] == LowerChar(s[i])
  {
    seq(|s|, i requires 0 <= i < |s| => LowerChar(s[i]))
  }

  /** JavaScript `toUpperCase`, restricted to ASCII letters. */
  function ToUpper(s: string): (r: string)
    ensures |r| == |s|
    ensures forall i :: 0 <= i < |s| ==> r[i] == UpperChar(s[i])
  {
    seq(|s|, i requires 0 <= i < |s| => UpperChar(s[i]))
  }

  /** JavaScript `s.substring(0, n)`: at most the first `n` characters. */
  function Prefix(s: string, n: nat): (r: string)
    ensures |r| == if |s| <= n then |s| else n
    ensures r <= s
  {
    if |s| <= n then s else s[..n]
  }

  predicate IsDigit(c: char) {
    '0' <= c <= '9'
  }

  function DigitChar(d: nat): (c: char)
    requires d < 10
    ensures IsDigit(c)
  {
    ('0' as int + d) as char
  }

  function DigitValue(c: char): nat
    requires IsDigit(c)
  {
    c as int - '0' as int
  }

  /** The decimal rendering JavaScript gives a non-negative integer in a template literal. */
  function NatToString(n: nat): (r: string)
    ensures r != []
    ensures forall i :: 0 <= i < |r| ==> IsDigit(r[i])
    ensures |r| > 1 ==> r[0] != '0'
  {
    if n < 10 then [DigitChar(n)] else NatToString(n / 10) + [DigitChar(n % 10)]
  }

  /** Reads a decimal numeral back; the inverse of NatToString. */
  function ParseNat(s: string): nat
    requires forall i :: 0 <= i < |s| ==> IsDigit(s[i])
  {
    if s == [] then 0 else ParseNat(s[..|s| - 1]) * 10 + DigitValue(s[|s| - 1])
  }

  lemma {:induction false} ParseNatToString(n: nat)
    ensures ParseNat(NatToString(n)) == n
  {
    if n >= 10 {
      var s := NatToString(n / 10);
      ParseNatToString(n / 10);
      assert (s + [DigitChar(n % 10)])[..|s|] == s;
    }
  }

  /** Rendering is injective: distinct counts show as distinct numerals. */
  lemma NatToStringInjective(m: nat, n: nat)
    requires NatToString(m) == NatToString(n)
    ensures m == n
  {
    ParseNatToString(m);
    ParseNatToString(n);
  }

  /** JavaScript `xs.join(sep)` for a one-character separator. */
  function Join(xs: seq<string>, sep: char): string {
    if |xs| == 0 then ""
    else if |xs| == 1 then xs[0]
    else xs[0] + [sep] + Join(xs[1..], sep)
  }

  /** JavaScript `s.split(sep)` for a one-character separator. */
  function Split(s: string, sep: char): (r: seq<string>)
    ensures |r| >= 1
    decreases |s|
  {
    if s == [] then [""]
    else
      var r := Split(s[1..], sep);
      if s[0] == sep then [""] + r else [[s[0]] + r[0]] + r[1..]
  }

  function FirstIndexOfChar(s: string, c: char): (i: nat)
    requires c in s
    ensures i < |s| && s[i] == c && forall k :: 0 <= k < i ==> s[k] != c
  {
    if s[0] == c then 0 else 1 + FirstIndexOfChar(s[1..], c)
  }

  function LastIndexOfChar(s: string, c: char): (i: nat)
    requires c in s
    ensures i < |s| && s[i] == c && c !in s[i + 1..]
  {
    if s[|s| - 1] == c then |s| - 1
    else
      assert c in s[..|s| - 1] by {
        var k :| 0 <= k < |s| && s[k] == c;
        assert s[..|s| - 1][k] == c;
      }
      var i := LastIndexOfChar(s[..|s| - 1], c);
      assert s[i + 1..] == s[..|s| - 1][i + 1..] + [s[|s| - 1]];
      i
  }

  /** A text without the separator splits into itself. */
  lemma {:induction false} SplitNoSep(s: string, sep: char)
    requires forall k :: 0 <= k < |s| ==> s[k] != sep
    ensures Split(s, sep) == [s]
    decreases |s|
  {
    if s != [] {
      SplitNoSep(s[1..], sep);
      assert [s[0]] + s[1..] == s;
    }
  }

  /** The text before the first separator becomes the first piece, and the rest splits on. */
  lemma {:induction false} SplitPrefix(a: string, sep: char, b: string)
    requires forall k :: 0 <= k < |a| ==> a[k] != sep
    ensures Split(a + [sep] + b, sep) == [a] + Split(b, sep)
    decreases |a|
  {
    var s := a + [sep] + b;
    if a == [] {
      assert s[0] == sep && s[1..] == b;
    } else {
      assert s[0] == a[0] && s[1..] == a[1..] + [sep] + b;
      SplitPrefix(a[1..], sep, b);
      assert [a[0]] + a[1..] == a;
    }
  }

  /** Splitting a joined list gives the list back when no piece contains the separator. */
  lemma {:induction false} SplitJoin(xs: seq<string>, sep: char)
    requires |xs| >= 1
    requires forall k :: 0 <= k < |xs| ==> sep !in xs[k]
    ensures Split(Join(xs, sep), sep) == xs
  {
    assert sep !in xs[0];
    if |xs| == 1 {
      SplitNoSep(xs[0], sep);
    } else {
      SplitPrefix(xs[0], sep, Join(xs[1..], sep));
      SplitJoin(xs[1..], sep);
      assert [xs[0]] + xs[1..] == xs;
    }
  }

  /** The last element of a non-empty list (`pop` on a copy). */
  function Last<T>(xs: seq<T>): T
    requires |xs| >= 1
  {
    xs[|xs| - 1]
  }

  /** `r` is the text after the last `c` in `s`, or all of `s` when there is no `c`. */
  predicate LastPiece(s: string, c: char, r: string) {
    && |r| <= |s| && r == s[|s| - |r|..]
    && (forall k :: 0 <= k < |r| ==> r[k] != c)
    && (|r| < |s| ==> s[|s| - |r| - 1] == c)
  }

  /** The last piece of `s.split(c)` is the text after the last `c`; it is all of `s` exactly when there is one piece. */
  lemma {:induction false} SplitLast(s: string, c: char)
    ensures LastPiece(s, c, Last(Split(s, c)))
    ensures |Split(s, c)| == 1 ==> Last(Split(s, c)) == s
    ensures |Split(s, c)| > 1 ==> |Last(Split(s, c))| < |s|
    decreases |s|
  {
    if s != [] {
      var t := Split(s[1..], c);
      SplitLast(s[1..], c);
      SplitLastStep(s, c);
      LastPieceStep(s, c, Last(t), |t| > 1, Last(Split(s, c)), |Split(s, c)| > 1);
    }
  }

  /** How one more leading character changes the last piece and the number of pieces. */
  lemma SplitLastStep(s: string, c: char)
    requires s != []
    ensures var t := Split(s[1..], c);
      && Last(Split(s, c)) == (if s[0] == c || |t| > 1 then Last(t) else [s[0]] + Last(t))
      && (|Split(s, c)| > 1 <==> s[0] == c || |t| > 1)
  {
  }

  /**
   * The step of `SplitLast` on sequences alone: from the tail's last piece
   * `r` (with `many` saying whether the tail has several pieces) to the
   * text's last piece `r2` (with `many2`).
   */
  lemma LastPieceStep(s: string, c: char, r: string, many: bool, r2: string, many2: bool)
    requires s != [] && LastPiece(s[1..], c, r)
    requires !many ==> r == s[1..]
    requires many ==> |r| < |s| - 1
    requires r2 == (if s[0] == c || many then r else [s[0]] + r)
    requires many2 <==> s[0] == c || many
    ensures LastPiece(s, c, r2)
    ensures !many2 ==> r2 == s
    ensures many2 ==> |r2| < |s|
  {
    if s[0] == c || many {
      LastPieceCons(s, c, r);
    } else {
      assert [s[0]] + s[1..] == s;
      LastPieceFront(s, c);
    }
  }

  /** A text whose first character and tail hold no `c` is its own last piece. */
  lemma LastPieceFront(s: string, c: char)
    requires s != [] && s[0] != c && LastPiece(s[1..], c, s[1..])
    ensures LastPiece(s, c, s)
  {
    assert forall k :: 1 <= k < |s| ==> s[k] == s[1..][k - 1];
  }

  /** A last piece of the tail that is shorter than the tail, or follows a separator, is a last piece of the whole. */
  lemma LastPieceCons(s: string, c: char, r: string)
    requires s != [] && LastPiece(s[1..], c, r)
    requires |r| == |s| - 1 ==> s[0] == c
    ensures LastPiece(s, c, r)
  {
    var n := |s|;
    assert s[n - |r|..] == s[1..][n - 1 - |r|..];
    if |r| < n - 1 {
      assert s[n - |r| - 1] == s[1..][n - 1 - |r| - 1];
    }
  }

  /** A last piece shorter than the text exactly when the text holds a `c`. */
  lemma LastPieceWhole(s: string, c: char, r: string)
    requires LastPiece(s, c, r)
    ensures c in s <==> |r| < |s|
  {
    if |r| < |s| {
      assert s[|s| - |r| - 1] in s;
    } else {
      assert r == s;
      assert forall k :: 0 <= k < |s| ==> s[k] != c;
    }
  }

  /** The first piece of `s.split(c)` is the text before the first `c`, or all of `s`. */
  lemma {:induction false} SplitFirst(s: string, c: char)
    ensures var r := Split(s, c)[0];
      && r <= s && (forall k :: 0 <= k < |r| ==> r[k] != c)
      && (|r| < |s| ==> s[|r|] == c)
    decreases |s|
  {
    if s != [] {
      SplitFirst(s[1..], c);
      var t := Split(s[1..], c);
      if s[0] != c {
        var r := [s[0]] + t[0];
        assert Split(s, c)[0] == r;
        assert s == [s[0]] + s[1..];
        assert forall k :: 1 <= k < |r| ==> r[k] == t[0][k - 1];
      }
    }
  }

  /** `name.split('.').pop()`: the file extension used in upload paths. */
  function FileExtension(name: string): (ext: string)
    ensures |ext| <= |name| && '.' !in ext && ext == name[|name| - |ext|..]
    ensures '.' in name ==> |ext| < |name| && name[|name| - |ext| - 1] == '.'
    ensures '.' !in name ==> ext == name
  {
    SplitLast(name, '.');
    LastPieceWhole(name, '.', Last(Split(name, '.')));
    Last(Split(name, '.'))
  }

  /** `s.split(c)[0]`: the text before the first `c`, or all of `s` when there is none. */
  function BeforeFirst(s: string, c: char): (r: string)
    ensures r <= s && c !in r
    ensures c !in s ==> r == s
    ensures c in s ==> |r| < |s| && s[|r|] == c
  {
    SplitFirst(s, c);
    FirstPieceWhole(s, c, Split(s, c)[0]);
    Split(s, c)[0]
  }

  /** A first piece is shorter than the text exactly when the text holds a `c`. */
  lemma FirstPieceWhole(s: string, c: char, r: string)
    requires r <= s && (forall k :: 0 <= k < |r| ==> r[k] != c) && (|r| < |s| ==> s[|r|] == c)
    ensures c !in r
    ensures c in s <==> |r| < |s|
  {
    if |r| < |s| {
      assert s[|r|] in s;
    } else {
      assert r == s;
    }
  }

  /** A name ending in "." and a dot-free extension has that extension. */
  lemma ExtensionAfterDot(a: string, ext: string)
    requires '.' !in ext
    ensures FileExtension(a + "." + ext) == ext
  {
    var name := a + "." + ext;
    var r := FileExtension(name);
    var n := |name|;
    assert name[n - |ext| - 1] == '.';
    assert forall k :: n - |ext| <= k < n ==> name[k] == ext[k - (n - |ext|)];
    assert forall k :: n - |r| <= k < n ==> name[k] == r[k - (n - |r|)];
    assert name[n - |r| - 1] == '.';
    assert |r| == |ext|;
  }

  /** The text before the first separator is the part written before it. */
  lemma BeforeFirstOfJoin(a: string, c: char, b: string)
    requires c !in a
    ensures BeforeFirst(a + [c] + b, c) == a
  {
    var s := a + [c] + b;
    var r := BeforeFirst(s, c);
    assert s[|a|] == c;
    assert forall k :: 0 <= k < |a| ==> s[k] == a[k];
    assert forall k :: 0 <= k < |r| ==> s[k] == r[k];
    assert |r| == |a|;
  }

  /** Lowercasing after uppercasing is the same as lowercasing. */
  lemma ToLowerToUpper(s: string)
    ensures ToLower(ToUpper(s)) == ToLower(s)
  {
    forall k | 0 <= k < |s| ensures ToLower(ToUpper(s))[k] == ToLower(s)[k] {
      assert LowerChar(UpperChar(s[k])) == LowerChar(s[k]);
    }
  }
}
