/**
 * JavaScript's `String.prototype.trim`: removes leading and trailing white space,
 * where white space is the ECMAScript WhiteSpace and LineTerminator code points.
 */
module Text {

  /** ECMAScript WhiteSpace (TAB, VT, FF, ZWNBSP and the Zs category) and LineTerminator (LF, CR, LS, PS). */
  predicate IsJsSpace(c: char)
  {
    var n := c as int;
    || n == 0x09 || n == 0x0A || n == 0x0B || n == 0x0C || n == 0x0D
    || n == 0x20 || n == 0xA0 || n == 0x1680
    || (0x2000 <= n <= 0x200A)
    || n == 0x2028 || n == 0x2029 || n == 0x202F || n == 0x205F
    || n == 0x3000 || n == 0xFEFF
  }

  /** Every character of `s` is white space (vacuously true of the empty string). */
  predicate Blank(s: string)
  {
    forall k {:trigger IsJsSpace(s[k])} :: 0 <= k < |s| ==> IsJsSpace(s[k])
  }

  /** `s` without its leading white space. */
  function TrimStart(s: string): string
    decreases |s|
  {
    if s != [] && IsJsSpace(s[0]) then TrimStart(s[1..]) else s
  }

  /** `s` without its trailing white space. */
  function TrimEnd(s: string): string
    decreases |s|
  {
    if s != [] && IsJsSpace(s[|s| - 1]) then TrimEnd(s[..|s| - 1]) else s
  }

  /** `s.trim()`: what is left once white space is cut from both ends. */
  function Trim(s: string): string
  {
    TrimEnd(TrimStart(s))
  }

  /** Cutting the front leaves a suffix, after only white space, that starts with non-space. */
  lemma {:induction false} TrimStartShape(s: string)
    ensures |TrimStart(s)| <= |s|
    ensures TrimStart(s) == s[|s| - |TrimStart(s)|..]
    ensures Blank(s[..|s| - |TrimStart(s)|])
    ensures TrimStart(s) != [] ==> !IsJsSpace(TrimStart(s)[0])
    decreases |s|
  {
    if s != [] && IsJsSpace(s[0]) {
      var rest := s[1..];
      TrimStartShape(rest);
      var t := TrimStart(rest);
      var n := |s| - |t|;
      assert rest[|rest| - |t|..] == s[n..];
      forall k | 0 <= k < n ensures IsJsSpace(s[..n][k]) {
        if k == 0 {
          assert s[..n][0] == s[0];
        } else {
          assert s[..n][k] == rest[..n - 1][k - 1];
          assert IsJsSpace(rest[..n - 1][k - 1]);
        }
      }
    } else {
      assert s[..0] == [];
      assert s[0..] == s;
    }
  }

  /** Cutting the back leaves a prefix, before only white space, that ends with non-space. */
  lemma {:induction false} TrimEndShape(s: string)
    ensures |TrimEnd(s)| <= |s|
    ensures TrimEnd(s) == s[..|TrimEnd(s)|]
    ensures Blank(s[|TrimEnd(s)|..])
    ensures TrimEnd(s) != [] ==> !IsJsSpace(TrimEnd(s)[|TrimEnd(s)| - 1])
    ensures s != [] && !IsJsSpace(s[0]) ==> TrimEnd(s) != []
    decreases |s|
  {
    if s != [] && IsJsSpace(s[|s| - 1]) {
      var init := s[..|s| - 1];
      TrimEndShape(init);
      var t := TrimEnd(init);
      var m := |t|;
      assert init[..m] == s[..m];
      forall k | 0 <= k < |s| - m ensures IsJsSpace(s[m..][k]) {
        if k == |s| - m - 1 {
          assert s[m..][k] == s[|s| - 1];
        } else {
          assert s[m..][k] == init[m..][k];
          assert IsJsSpace(init[m..][k]);
        }
      }
      if |s| >= 2 {
        assert init[0] == s[0];
      }
    } else {
      assert s[..|s|] == s;
      assert s[|s|..] == [];
    }
  }

  /** Trimming leaves nothing exactly when the string is all white space. */
  lemma {:induction false} TrimEmptyIffBlank(s: string)
    ensures Trim(s) == [] <==> Blank(s)
  {
    TrimStartShape(s);
    var t := TrimStart(s);
    var n := |s| - |t|;
    TrimEndShape(t);
    if t == [] {
      assert s[..n] == s;
    } else {
      assert s[n] == t[0];
      assert !IsJsSpace(s[n]);
    }
  }

  /**
   * What trimming leaves: the contiguous middle of `s`, neither starting nor ending with
   * white space, with only white space cut off on either side.
   */
  lemma {:induction false} TrimShape(s: string)
    ensures var r := Trim(s);
            var n := |s| - |TrimStart(s)|;
            && (r == [] <==> Blank(s))
            && (r != [] ==> !IsJsSpace(r[0]) && !IsJsSpace(r[|r| - 1]))
            && 0 <= n <= n + |r| <= |s|
            && r == s[n..n + |r|]
            && Blank(s[..n]) && Blank(s[n + |r|..])
  {
    TrimEmptyIffBlank(s);
    TrimStartShape(s);
    var t := TrimStart(s);
    var n := |s| - |t|;
    TrimEndShape(t);
    var r := Trim(s);
    assert r == t[..|r|];
    assert t[..|r|] == s[n..n + |r|];
    assert t[|r|..] == s[n + |r|..];
    if r != [] {
      assert r[0] == t[0];
    }
  }

  /**
   * Trim agrees with its declarative reading: whenever `s` is white space, then `m`,
   * then white space, and `m` neither starts nor ends with white space, the trimmed
   * string is exactly `m`.
   */
  lemma {:induction false} TrimCharacterised(a: string, m: string, b: string)
    requires Blank(a) && Blank(b)
    requires m != [] ==> !IsJsSpace(m[0]) && !IsJsSpace(m[|m| - 1])
    ensures Trim(a + m + b) == m
  {
    if m == [] {
      assert a + m + b == a + b;
      BlankAppend(a, b);
      TrimEmptyIffBlank(a + b);
    } else {
      TrimCore(a, m, b);
    }
  }

  lemma {:induction false} BlankAppend(a: string, b: string)
    requires Blank(a) && Blank(b)
    ensures Blank(a + b)
  {
    var s := a + b;
    forall k | 0 <= k < |s| ensures IsJsSpace(s[k]) {
      if k < |a| {
        assert s[k] == a[k] && IsJsSpace(a[k]);
      } else {
        assert s[k] == b[k - |a|] && IsJsSpace(b[k - |a|]);
      }
    }
  }

  /** White space, a core with non-space ends, white space: the trim starts and ends at the core. */
  lemma {:induction false} TrimCore(a: string, m: string, b: string)
    requires Blank(a) && Blank(b)
    requires m != [] && !IsJsSpace(m[0]) && !IsJsSpace(m[|m| - 1])
    ensures Trim(a + m + b) == m
  {
    var s := a + m + b;
    TrimShape(s);
    var r := Trim(s);
    var n := |s| - |TrimStart(s)|;
    var e := n + |r|;
    var f := |a| + |m|;
    BlankParts(a, m, b);
    assert s[|a|] == m[0] && s[f - 1] == m[|m| - 1];
    assert !Blank(s) by { assert !IsJsSpace(s[|a|]); }
    BlankBefore(s, n);
    BlankFrom(s, e);
    assert r[0] == s[n] && r[|r| - 1] == s[e - 1];
    assert n == |a| && e == f;
    assert s[|a|..f] == m;
  }

  /** In white space, a core, white space: every index outside the core is white space. */
  lemma {:induction false} BlankParts(a: string, m: string, b: string)
    requires Blank(a) && Blank(b)
    ensures forall j :: 0 <= j < |a| ==> IsJsSpace((a + m + b)[j])
    ensures forall j :: |a| + |m| <= j < |a + m + b| ==> IsJsSpace((a + m + b)[j])
  {
    var s := a + m + b;
    forall j | 0 <= j < |a| ensures IsJsSpace(s[j]) {
      assert s[j] == a[j];
    }
    forall j | |a| + |m| <= j < |s| ensures IsJsSpace(s[j]) {
      assert s[j] == b[j - |a| - |m|];
    }
  }

  /** A blank prefix, index by index. */
  lemma {:induction false} BlankBefore(s: string, n: int)
    requires 0 <= n <= |s| && Blank(s[..n])
    ensures forall j :: 0 <= j < n ==> IsJsSpace(s[j])
  {
    forall j | 0 <= j < n ensures IsJsSpace(s[j]) {
      assert s[..n][j] == s[j];
    }
  }

  /** A blank suffix, index by index. */
  lemma {:induction false} BlankFrom(s: string, e: int)
    requires 0 <= e <= |s| && Blank(s[e..])
    ensures forall j :: e <= j < |s| ==> IsJsSpace(s[j])
  {
    forall j | e <= j < |s| ensures IsJsSpace(s[j]) {
      assert s[e..][j - e] == s[j];
    }
  }
}
