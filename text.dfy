/** The string helpers of Go's `strings` package that the core uses: `TrimSpace`,
    `Split` on a comma, `Join`, plus the ASCII part of SQL `LOWER` and substring search. */
module Text {

  /** `unicode.IsSpace`: the Latin-1 white space characters and the Unicode
      White_Space property above them. */
  predicate IsSpace(c: char) {
    c == ' ' || c == '\t' || c == '\n' || c == '\U{000B}' || c == '\U{000C}' || c == '\r'
    || c == '\U{0085}' || c == '\U{00A0}' || c == '\U{1680}'
    || ('\U{2000}' <= c <= '\U{200A}')
    || c == '\U{2028}' || c == '\U{2029}' || c == '\U{202F}' || c == '\U{205F}' || c == '\U{3000}'
  }

  /** Drops leading white space; what is left is a suffix of `s`. */
  function TrimLeft(s: string): (r: string)
    ensures |r| <= |s| && r == s[|s| - |r|..]
    ensures r == [] || !IsSpace(r[0])
    ensures forall i :: 0 <= i < |s| - |r| ==> IsSpace(s[i])
  {
    if s != [] && IsSpace(s[0]) then TrimLeft(s[1..]) else s
  }

  /** Drops trailing white space; what is left is a prefix of `s`. */
  function TrimRight(s: string): (r: string)
    ensures |r| <= |s| && r == s[..|r|]
    ensures r == [] || !IsSpace(r[|r| - 1])
    ensures forall i :: |r| <= i < |s| ==> IsSpace(s[i])
  {
    if s != [] && IsSpace(s[|s| - 1]) then TrimRight(s[..|s| - 1]) else s
  }

  /** `strings.TrimSpace`. */
  function TrimSpace(s: string): string
  {
    TrimRight(TrimLeft(s))
  }

  /** `r` occurs in `s` starting at index `i`. */
  predicate SliceAt(s: string, r: string, i: int) {
    0 <= i <= |s| - |r| && s[i..i + |r|] == r
  }

  /** What `TrimSpace` keeps is a slice of its input with no white space at either end. */
  lemma TrimSpaceShape(s: string)
    ensures var r := TrimSpace(s);
      (r == [] || (!IsSpace(r[0]) && !IsSpace(r[|r| - 1]))) &&
      exists i :: SliceAt(s, r, i)
  {
    var l := TrimLeft(s);
    var r := TrimRight(l);
    var i := |s| - |l|;
    assert l == s[i..] && r == l[..|r|];
    assert s[i..][..|r|] == s[i..i + |r|];
    assert SliceAt(s, r, i);
  }

  /** No white space at either end. */
  predicate Trimmed(s: string) {
    s == [] || (!IsSpace(s[0]) && !IsSpace(s[|s| - 1]))
  }

  /** `TrimSpace` leaves no white space at either end and adds no character. */
  lemma TrimSpaceTrims(s: string, c: char)
    ensures Trimmed(TrimSpace(s))
    ensures c !in s ==> c !in TrimSpace(s)
  {
    TrimSpaceShape(s);
    if c !in s {
      var k :| SliceAt(s, TrimSpace(s), k);
      NotInSlice(s, k, k + |TrimSpace(s)|, c);
    }
  }

  /** A string with no white space at either end is left as it is. */
  lemma TrimSpaceFixed(s: string)
    requires Trimmed(s)
    ensures TrimSpace(s) == s
  {
  }

  /** A character that is not in `s` is not in any slice of it. */
  lemma NotInSlice(s: string, i: int, j: int, c: char)
    requires 0 <= i <= j <= |s| && c !in s
    ensures c !in s[i..j]
  {
  }

  /** `strings.Split(s, ",")`: the pieces between commas, one more than there are commas. */
  function Split(s: string): (r: seq<string>)
    ensures |r| >= 1
    ensures forall i :: 0 <= i < |r| ==> ',' !in r[i]
  {
    if s == [] then [[]]
    else
      var rest := Split(s[1..]);
      if s[0] == ',' then [[]] + rest else [[s[0]] + rest[0]] + rest[1..]
  }

  /** `strings.Join(parts, sep)`. */
  function Join(parts: seq<string>, sep: string): string
  {
    if parts == [] then []
    else if |parts| == 1 then parts[0]
    else parts[0] + sep + Join(parts[1..], sep)
  }

  /** Joining the pieces of a split with the separator gives back the input. */
  lemma {:induction false} JoinSplit(s: string)
    ensures Join(Split(s), ",") == s
  {
    if s != [] {
      var rest := Split(s[1..]);
      JoinSplit(s[1..]);
      if s[0] != ',' {
        var r := Split(s);
        assert r[0] == [s[0]] + rest[0] && r[1..] == rest[1..];
        if |rest| > 1 {
          assert Join(rest, ",") == rest[0] + "," + Join(rest[1..], ",");
        }
      }
    }
  }

  /** A string without a comma splits into itself alone. */
  lemma {:induction false} SplitNoComma(s: string)
    requires ',' !in s
    ensures Split(s) == [s]
  {
    if s != [] {
      assert s[0] in s;
      assert ',' !in s[1..] by { NotInSlice(s, 1, |s|, ','); }
      SplitNoComma(s[1..]);
      assert [s[0]] + s[1..] == s;
    }
  }

  /** A comma-free piece followed by a comma splits off as the first piece. */
  lemma {:induction false} SplitAfterPiece(a: string, rest: string)
    requires ',' !in a
    ensures Split(a + [','] + rest) == [a] + Split(rest)
  {
    if a == [] {
      assert a + [','] + rest == [','] + rest;
    } else {
      assert a[0] in a;
      assert ',' !in a[1..] by { NotInSlice(a, 1, |a|, ','); }
      assert (a + [','] + rest)[1..] == a[1..] + [','] + rest;
      SplitAfterPiece(a[1..], rest);
      assert [a[0]] + a[1..] == a;
    }
  }

  /** Splitting comma-free pieces joined with commas gives the pieces back. */
  lemma {:induction false} SplitJoin(parts: seq<string>)
    requires |parts| >= 1 && forall i :: 0 <= i < |parts| ==> ',' !in parts[i]
    ensures Split(Join(parts, ",")) == parts
  {
    if |parts| == 1 {
      SplitNoComma(parts[0]);
    } else {
      SplitJoin(parts[1..]);
      assert Join(parts, ",") == parts[0] + [','] + Join(parts[1..], ",");
      SplitAfterPiece(parts[0], Join(parts[1..], ","));
      assert parts == [parts[0]] + parts[1..];
    }
  }

  /** The ASCII part of SQL `LOWER`. */
  function LowerChar(c: char): char
  {
    if 'A' <= c <= 'Z' then (c as int + 32) as char else c
  }

  function Lower(s: string): (r: string)
    ensures |r| == |s| && forall i :: 0 <= i < |s| ==> r[i] == LowerChar(s[i])
  {
    if s == [] then [] else [LowerChar(s[0])] + Lower(s[1..])
  }

  predicate HasPrefix(s: string, p: string) {
    |p| <= |s| && s[..|p|] == p
  }

  /** `needle` occurs somewhere in `s` as a contiguous substring. */
  predicate Contains(s: string, needle: string)
    decreases |s|
  {
    HasPrefix(s, needle) || (s != [] && Contains(s[1..], needle))
  }

  /** `Contains` holds exactly when the needle is a slice of `s`. */
  lemma {:induction false} ContainsAt(s: string, needle: string)
    ensures Contains(s, needle) <==> exists i :: SliceAt(s, needle, i)
    decreases |s|
  {
    if HasPrefix(s, needle) {
      assert SliceAt(s, needle, 0);
    }
    if s != [] {
      ContainsAt(s[1..], needle);
      if Contains(s[1..], needle) {
        var i :| SliceAt(s[1..], needle, i);
        assert SliceAt(s, needle, i + 1);
      }
      if exists i :: SliceAt(s, needle, i) {
        var i :| SliceAt(s, needle, i);
        if i > 0 {
          assert SliceAt(s[1..], needle, i - 1);
        }
      }
    }
  }
}
