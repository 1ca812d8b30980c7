/** The two string operations the .env parser relies on: Go's strings.TrimSpace
    and strings.SplitN(s, "=", 2). */
module Text {

  /** unicode.IsSpace: the ASCII blanks, NEL, NO-BREAK SPACE and the other
      characters with Unicode's White_Space property. */
  predicate IsSpace(c: char) {
    || c == ' ' || c == '\t' || c == '\n' || c == '\r'
    || c == '\U{000B}' || c == '\U{000C}' || c == '\U{0085}' || c == '\U{00A0}'
    || c == '\U{1680}' || ('\U{2000}' <= c <= '\U{200A}')
    || c == '\U{2028}' || c == '\U{2029}' || c == '\U{202F}' || c == '\U{205F}'
    || c == '\U{3000}'
  }

  predicate AllSpace(s: string) {
    forall i :: 0 <= i < |s| ==> IsSpace(s[i])
  }

  /** Neither the first nor the last character is white space. */
  predicate Trimmed(s: string) {
    s == [] || (!IsSpace(s[0]) && !IsSpace(s[|s| - 1]))
  }

  /** Drops leading white space: the result is a suffix of s and all that was
      dropped is white space. */
  function TrimLeftSpace(s: string): (r: string)
    ensures |r| <= |s| && r == s[|s| - |r|..]
    ensures r == [] || !IsSpace(r[0])
    ensures forall i :: 0 <= i < |s| - |r| ==> IsSpace(s[i])
  {
    if s != [] && IsSpace(s[0]) then
      TrimLeftSpace(s[1..])
    else
      s
  }

  /** Drops trailing white space: the result is a prefix of s and all that was
      dropped is white space. */
  function TrimRightSpace(s: string): (r: string)
    ensures |r| <= |s| && r == s[..|r|]
    ensures r == [] || !IsSpace(r[|r| - 1])
    ensures forall i :: |r| <= i < |s| ==> IsSpace(s[i])
  {
    if s != [] && IsSpace(s[|s| - 1]) then
      TrimRightSpace(s[..|s| - 1])
    else
      s
  }

  /** strings.TrimSpace. */
  function TrimSpace(s: string): (r: string)
    ensures |r| <= |s| && Trimmed(r)
  {
    TrimRightSpace(TrimLeftSpace(s))
  }

  /** Trimming adds no character: what is absent from s is absent from the result. */
  lemma TrimSpaceAbsent(s: string, c: char)
    requires c !in s
    ensures c !in TrimSpace(s)
  {
    var l := TrimLeftSpace(s);
    assert c !in l;
  }

  /** Trimming removes only white space: a character that is not white space
      is in the result exactly when it is in s. */
  lemma TrimSpaceKeeps(s: string, c: char)
    requires !IsSpace(c)
    ensures c in TrimSpace(s) <==> c in s
  {
    if c in s {
      var j :| 0 <= j < |s| && s[j] == c;
      var l := TrimLeftSpace(s);
      var d := |s| - |l|;
      assert l[j - d] == c;
      var t := TrimRightSpace(l);
      assert t[j - d] == c;
    } else {
      TrimSpaceAbsent(s, c);
    }
  }

  /** A line trims to nothing exactly when it is all white space. */
  lemma TrimSpaceEmptyIff(s: string)
    ensures TrimSpace(s) == [] <==> AllSpace(s)
  {
    if AllSpace(s) {
      assert s + [] + [] == s;
      TrimSpaceSurrounded(s, [], []);
    } else {
      var j :| 0 <= j < |s| && !IsSpace(s[j]);
      TrimSpaceKeeps(s, s[j]);
    }
  }

  /** Joining two white-space strings gives a white-space string. */
  lemma AllSpaceConcat(x: string, y: string)
    requires AllSpace(x) && AllSpace(y)
    ensures AllSpace(x + y)
  {
    assert forall i :: 0 <= i < |x + y| ==> (x + y)[i] == if i < |x| then x[i] else y[i - |x|];
  }

  /** Leading white space in front of a string that does not start with white
      space is exactly what TrimLeftSpace drops. */
  lemma {:induction false} TrimLeftSpaceSkips(a: string, x: string)
    requires AllSpace(a) && (x == [] || !IsSpace(x[0]))
    ensures TrimLeftSpace(a + x) == x
  {
    if a == [] {
      assert a + x == x;
    } else {
      assert (a + x)[0] == a[0];
      assert (a + x)[1..] == a[1..] + x;
      TrimLeftSpaceSkips(a[1..], x);
    }
  }

  /** Trailing white space after a string that does not end with white space
      is exactly what TrimRightSpace drops. */
  lemma {:induction false} TrimRightSpaceSkips(x: string, b: string)
    requires AllSpace(b) && (x == [] || !IsSpace(x[|x| - 1]))
    ensures TrimRightSpace(x + b) == x
  {
    if b == [] {
      assert x + b == x;
    } else {
      var n := |b| - 1;
      assert (x + b)[|x + b| - 1] == b[n];
      assert (x + b)[..|x + b| - 1] == x + b[..n];
      TrimRightSpaceSkips(x, b[..n]);
    }
  }

  /** Whatever white space surrounds a trimmed string, TrimSpace gives back
      exactly that string. */
  lemma TrimSpaceSurrounded(a: string, r: string, b: string)
    requires AllSpace(a) && AllSpace(b) && Trimmed(r)
    ensures TrimSpace(a + r + b) == r
  {
    if r == [] {
      assert a + r + b == (a + b) + [];
      AllSpaceConcat(a, b);
      TrimLeftSpaceSkips(a + b, []);
    } else {
      assert a + r + b == a + (r + b);
      TrimLeftSpaceSkips(a, r + b);
      TrimRightSpaceSkips(r, b);
    }
  }

  /** Trimming twice trims no more than trimming once. */
  lemma TrimSpaceIdempotent(s: string)
    ensures TrimSpace(TrimSpace(s)) == TrimSpace(s)
  {
    var r := TrimSpace(s);
    assert [] + r + [] == r;
    TrimSpaceSurrounded([], r, []);
  }

  /** The result of strings.SplitN(s, sep, 2) for a one-character separator:
      no separator, or the text before the first one and everything after it. */
  datatype Cut = NoSeparator | Cut(before: string, after: string)

  /** strings.SplitN(s, "=", 2): splits at the first '=' only. */
  function SplitAtFirst(s: string, sep: char): (c: Cut)
    ensures c.NoSeparator? <==> sep !in s
    ensures c.Cut? ==> s == c.before + [sep] + c.after && sep !in c.before
  {
    if s == [] then NoSeparator
    else if s[0] == sep then Cut([], s[1..])
    else
      match SplitAtFirst(s[1..], sep)
      case NoSeparator => NoSeparator
      case Cut(b, a) =>
        assert s == [s[0]] + s[1..];
        Cut([s[0]] + b, a)
  }

  /** Joining two parts with the separator and splitting again gives the parts
      back, as long as the first part has no separator; the second may. */
  lemma {:induction false} SplitAtFirstJoin(before: string, sep: char, after: string)
    requires sep !in before
    ensures SplitAtFirst(before + [sep] + after, sep) == Cut(before, after)
  {
    var s := before + [sep] + after;
    if before == [] {
      assert s[0] == sep && s[1..] == after;
    } else {
      assert s[0] == before[0] != sep;
      assert s[1..] == before[1..] + [sep] + after;
      SplitAtFirstJoin(before[1..], sep, after);
      assert [s[0]] + before[1..] == before;
    }
  }
}
