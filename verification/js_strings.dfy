/**
 JavaScript strings as the handler sees them: sequences of UTF-16 code units,
 with the three string operations the handler relies on (`trim`, `split` on a
 one-unit separator, and its inverse `join`) and JavaScript truthiness of an
 optional string field.
 */
module JsStrings {

  /** One UTF-16 code unit: the element type of a JavaScript string. */
  newtype CodeUnit = x: int | 0 <= x < 0x1_0000

  type Str = seq<CodeUnit>

  /** An optional string: `undefined` or `null` (Absent), or a string. */
  datatype Field = Absent | Present(s: Str)

  /** `!!f` for a string-valued field: present and non-empty. */
  predicate Truthy(f: Field) {
    f.Present? && |f.s| > 0
  }

  /** A string literal of the handler as UTF-16 code units. Only literals in
      the Basic Multilingual Plane are accepted: there a character is the one
      code unit of equal value. The subject's emoji is spelled out as its
      surrogate pair where it is used. */
  function Lit(s: string): Str
    requires forall i | 0 <= i < |s| :: s[i] as int < 0x1_0000
  {
    seq(|s|, i requires 0 <= i < |s| => s[i] as int as CodeUnit)
  }

  const Comma: CodeUnit := 0x2C

  // ---------------------------------------------------------------------------
  // String.prototype.trim

  /** ECMAScript WhiteSpace and LineTerminator code units, the set `trim` removes. */
  predicate IsWhiteSpace(u: CodeUnit) {
    || u == 0x09 || u == 0x0B || u == 0x0C || u == 0x20 || u == 0xA0 || u == 0xFEFF
    || u == 0x1680 || (0x2000 <= u <= 0x200A) || u == 0x202F || u == 0x205F || u == 0x3000
    || u == 0x0A || u == 0x0D || u == 0x2028 || u == 0x2029
  }

  predicate AllWhiteSpace(s: Str) {
    forall k | 0 <= k < |s| :: IsWhiteSpace(s[k])
  }

  /** Neither the first nor the last unit of `s` is white space. */
  predicate NoEdgeWhiteSpace(s: Str) {
    s == [] || (!IsWhiteSpace(s[0]) && !IsWhiteSpace(s[|s| - 1]))
  }

  /** `r` is `s` with its leading and trailing white space removed:
      the declarative reference for `Trim`. */
  ghost predicate IsTrimOf(r: Str, s: Str) {
    exists i, j | 0 <= i <= j <= |s| ::
      && r == s[i..j]
      && AllWhiteSpace(s[..i])
      && AllWhiteSpace(s[j..])
      && NoEdgeWhiteSpace(r)
  }

  /** `s.trimStart()`: a suffix of `s` that does not start with white space. */
  function TrimStart(s: Str): (r: Str)
    ensures |r| <= |s| && r == s[|s| - |r|..]
    ensures r == [] || !IsWhiteSpace(r[0])
  {
    if |s| > 0 && IsWhiteSpace(s[0]) then TrimStart(s[1..]) else s
  }

  /** `s.trimEnd()`: a prefix of `s` that does not end with white space. */
  function TrimEnd(s: Str): (r: Str)
    ensures |r| <= |s| && r == s[..|r|]
    ensures r == [] || !IsWhiteSpace(r[|r| - 1])
  {
    if |s| > 0 && IsWhiteSpace(s[|s| - 1]) then TrimEnd(s[..|s| - 1]) else s
  }

  /** What `TrimStart` removes is white space. */
  lemma {:induction false} TrimStartRemovesWhiteSpace(s: Str)
    ensures AllWhiteSpace(s[..|s| - |TrimStart(s)|])
  {
    if |s| > 0 && IsWhiteSpace(s[0]) {
      TrimStartRemovesWhiteSpace(s[1..]);
      var n := |s| - |TrimStart(s)|;
      forall k | 0 <= k < n ensures IsWhiteSpace(s[..n][k]) {
        if k > 0 { assert s[..n][k] == s[1..][..n - 1][k - 1]; }
      }
    }
  }

  /** What `TrimEnd` removes is white space. */
  lemma {:induction false} TrimEndRemovesWhiteSpace(s: Str)
    ensures AllWhiteSpace(s[|TrimEnd(s)|..])
  {
    if |s| > 0 && IsWhiteSpace(s[|s| - 1]) {
      var m := |s| - 1;
      TrimEndRemovesWhiteSpace(s[..m]);
      var n := |TrimEnd(s)|;
      forall k | 0 <= k < |s| - n ensures IsWhiteSpace(s[n..][k]) {
        if n + k < m { assert s[n..][k] == s[..m][n..][k]; }
      }
    }
  }

  /** `s.trim()` */
  function Trim(s: Str): (r: Str)
    ensures |r| <= |s|
    ensures NoEdgeWhiteSpace(r)
  {
    var a := TrimStart(s);
    var r := TrimEnd(a);
    assert r != [] ==> r[0] == a[0];
    r
  }

  /** `Trim` removes exactly the leading and trailing white space. */
  lemma TrimIsTrimOf(s: Str)
    ensures IsTrimOf(Trim(s), s)
  {
    var a := TrimStart(s);
    var r := TrimEnd(a);
    var i := |s| - |a|;
    TrimStartRemovesWhiteSpace(s);
    TrimEndRemovesWhiteSpace(a);
    assert r == s[i..i + |r|];
    assert s[i + |r|..] == a[|r|..];
  }

  /** The white-space prefix that `TrimStart` removes is the longest one. */
  lemma {:induction false} TrimStartRemovesExactly(s: Str, i: nat)
    requires i <= |s| && AllWhiteSpace(s[..i])
    requires i == |s| || !IsWhiteSpace(s[i])
    ensures |TrimStart(s)| == |s| - i
  {
    if i > 0 {
      assert s[0] == s[..i][0];
      assert s[1..][..i - 1] == s[1..i];
      assert forall k | 0 <= k < i - 1 :: s[1..i][k] == s[..i][k + 1];
      TrimStartRemovesExactly(s[1..], i - 1);
    }
  }

  /** The white-space suffix that `TrimEnd` removes is the longest one. */
  lemma {:induction false} TrimEndKeepsExactly(s: Str, j: nat)
    requires j <= |s| && AllWhiteSpace(s[j..])
    requires j == 0 || !IsWhiteSpace(s[j - 1])
    ensures |TrimEnd(s)| == j
  {
    if j < |s| {
      var n := |s| - 1;
      assert s[n] == s[j..][n - j];
      assert s[..n][j..] == s[j..n];
      assert forall k | 0 <= k < n - j :: s[j..n][k] == s[j..][k];
      TrimEndKeepsExactly(s[..n], j);
    }
  }

  /** A slice with only white space around it and none at its edges is `Trim(s)`. */
  lemma TrimmedSlice(s: Str, i: nat, j: nat)
    requires i <= j <= |s| && AllWhiteSpace(s[..i]) && AllWhiteSpace(s[j..])
    requires NoEdgeWhiteSpace(s[i..j])
    ensures s[i..j] == Trim(s)
  {
    if i == j {
      WhiteAroundEmpty(s, i);
      TrimStartRemovesExactly(s, |s|);
    } else {
      NonEmptyTrimmedSlice(s, i, j);
    }
  }

  lemma NonEmptyTrimmedSlice(s: Str, i: nat, j: nat)
    requires i < j <= |s| && AllWhiteSpace(s[..i]) && AllWhiteSpace(s[j..])
    requires NoEdgeWhiteSpace(s[i..j])
    ensures s[i..j] == Trim(s)
  {
    var a := TrimStart(s);
    assert a == s[i..] by {
      assert s[i] == s[i..j][0];
      TrimStartRemovesExactly(s, i);
    }
    assert TrimEnd(a) == a[..j - i] by {
      assert a[j - i..] == s[j..];
      assert a[j - i - 1] == s[i..j][j - i - 1];
      TrimEndKeepsExactly(a, j - i);
    }
    assert a[..j - i] == s[i..j];
  }

  lemma WhiteAroundEmpty(s: Str, i: nat)
    requires i <= |s| && AllWhiteSpace(s[..i]) && AllWhiteSpace(s[i..])
    ensures AllWhiteSpace(s)
  {
  }

  /** `Trim` is the only trim of `s`: its result is exactly what the
      declarative description `IsTrimOf` allows. */
  lemma TrimOfIsTrim(s: Str, t: Str)
    requires IsTrimOf(t, s)
    ensures t == Trim(s)
  {
    var i, j :| 0 <= i <= j <= |s| && t == s[i..j] && AllWhiteSpace(s[..i])
                && AllWhiteSpace(s[j..]) && NoEdgeWhiteSpace(t);
    TrimmedSlice(s, i, j);
  }

  /** Trimming twice removes nothing more. */
  lemma TrimIdempotent(s: Str)
    ensures Trim(Trim(s)) == Trim(s)
  {
  }

  // ---------------------------------------------------------------------------
  // String.prototype.split and Array.prototype.join with a one-unit separator

  /** Number of occurrences of `u` in `s`. */
  function CountOf(s: Str, u: CodeUnit): nat {
    if |s| == 0 then 0 else (if s[0] == u then 1 else 0) + CountOf(s[1..], u)
  }

  /** `s.split(sep)`: the maximal separator-free runs of `s`, in order,
      including empty runs before, between and after separators. */
  function Split(s: Str, sep: CodeUnit): (r: seq<Str>)
    ensures |r| == CountOf(s, sep) + 1
    ensures forall k | 0 <= k < |r| :: sep !in r[k]
  {
    if |s| == 0 then [[]]
    else
      var rest := Split(s[1..], sep);
      if s[0] == sep then [[]] + rest
      else [[s[0]] + rest[0]] + rest[1..]
  }

  /** `pieces.join(sep)`; the empty array joins to the empty string. */
  function Join(pieces: seq<Str>, sep: CodeUnit): Str {
    if |pieces| == 0 then []
    else if |pieces| == 1 then pieces[0]
    else pieces[0] + [sep] + Join(pieces[1..], sep)
  }

  /** Joining the pieces of a split gives back the original string. */
  lemma {:induction false} JoinSplit(s: Str, sep: CodeUnit)
    ensures Join(Split(s, sep), sep) == s
  {
    if |s| > 0 {
      var rest := Split(s[1..], sep);
      JoinSplit(s[1..], sep);
      if s[0] == sep {
        assert ([[]] + rest)[1..] == rest;
      } else {
        var r := [[s[0]] + rest[0]] + rest[1..];
        assert r[1..] == rest[1..];
        if |rest| > 1 {
          assert rest == [rest[0]] + rest[1..];
          assert Join(rest, sep) == rest[0] + [sep] + Join(rest[1..], sep);
        }
      }
    }
  }

  /** Splitting at a separator splits the two halves independently. */
  lemma {:induction false} SplitAppend(a: Str, b: Str, sep: CodeUnit)
    ensures Split(a + [sep] + b, sep) == Split(a, sep) + Split(b, sep)
  {
    if |a| == 0 {
      assert a + [sep] + b == [sep] + b;
      assert ([sep] + b)[1..] == b;
    } else {
      assert (a + [sep] + b)[1..] == a[1..] + [sep] + b;
      SplitAppend(a[1..], b, sep);
    }
  }

  /** A separator-free string splits to itself. */
  lemma {:induction false} SplitNoSeparator(p: Str, sep: CodeUnit)
    requires sep !in p
    ensures Split(p, sep) == [p]
  {
    if |p| > 0 {
      SplitNoSeparator(p[1..], sep);
      assert [p[0]] + p[1..] == p;
    }
  }

  /** Splitting a join of separator-free pieces gives the pieces back. */
  lemma {:induction false} SplitJoin(pieces: seq<Str>, sep: CodeUnit)
    requires |pieces| >= 1
    requires forall k | 0 <= k < |pieces| :: sep !in pieces[k]
    ensures Split(Join(pieces, sep), sep) == pieces
  {
    SplitNoSeparator(pieces[0], sep);
    if |pieces| > 1 {
      SplitJoin(pieces[1..], sep);
      SplitAppend(pieces[0], Join(pieces[1..], sep), sep);
      assert pieces == [pieces[0]] + pieces[1..];
    }
  }
}
