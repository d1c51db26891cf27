/**
 * JavaScript's notion of white space, shared by `String.prototype.trim`
 * and the regular-expression class `\s`: the WhiteSpace and
 * LineTerminator code points of the ECMAScript language specification
 * (sections 12.2 and 12.3 of ECMA-262).
 */
module Text {

  predicate IsWhitespace(c: char)
  {
    || c == '\t' || c == '\n' || c == '\U{000B}' || c == '\U{000C}' || c == '\r' || c == ' '
    || c == '\U{00A0}' || c == '\U{1680}' || ('\U{2000}' <= c <= '\U{200A}')
    || c == '\U{2028}' || c == '\U{2029}' || c == '\U{202F}' || c == '\U{205F}'
    || c == '\U{3000}' || c == '\U{FEFF}'
  }

  predicate AllWhitespace(s: string)
  {
    forall k :: 0 <= k < |s| ==> IsWhitespace(s[k])
  }

  /** Leading white space removed. */
  function TrimStart(s: string): string
  {
    if s != [] && IsWhitespace(s[0]) then TrimStart(s[1..]) else s
  }

  /** Trailing white space removed. */
  function TrimEnd(s: string): string
  {
    if s != [] && IsWhitespace(s[|s| - 1]) then TrimEnd(s[..|s| - 1]) else s
  }

  /** TrimStart leaves a suffix that is empty or starts with a non-space, and drops only white space. */
  lemma {:induction false} TrimStartSuffix(s: string)
    ensures var r := TrimStart(s);
      && |r| <= |s| && r == s[|s| - |r|..]
      && AllWhitespace(s[..|s| - |r|])
      && (r == [] || !IsWhitespace(r[0]))
    decreases |s|
  {
    if s != [] && IsWhitespace(s[0]) {
      TrimStartSuffix(s[1..]);
      var r := TrimStart(s);
      assert s[1..][|s| - 1 - |r|..] == s[|s| - |r|..];
      forall k | 0 <= k < |s| - |r|
        ensures IsWhitespace(s[k])
      {
        if k > 0 {
          assert s[k] == s[1..][..|s| - 1 - |r|][k - 1];
        }
      }
    }
  }

  /** TrimEnd leaves a prefix that is empty or ends with a non-space, and drops only white space. */
  lemma {:induction false} TrimEndPrefix(s: string)
    ensures var r := TrimEnd(s);
      && |r| <= |s| && r == s[..|r|]
      && AllWhitespace(s[|r|..])
      && (r == [] || !IsWhitespace(r[|r| - 1]))
    decreases |s|
  {
    if s != [] && IsWhitespace(s[|s| - 1]) {
      var s' := s[..|s| - 1];
      TrimEndPrefix(s');
      var r := TrimEnd(s);
      assert s'[..|r|] == s[..|r|];
      forall k | |r| <= k < |s|
        ensures IsWhitespace(s[k])
      {
        if k < |s| - 1 {
          assert s[k] == s'[|r|..][k - |r|];
        }
      }
    }
  }

  /** `s.trim()`. */
  function Trim(s: string): (r: string)
  {
    TrimEnd(TrimStart(s))
  }

  /**
   * The trimmed string is the slice of the input between its leading and its
   * trailing white space, and it neither starts nor ends with white space.
   */
  lemma TrimIsCore(s: string)
    ensures var r := Trim(s);
      && (r == [] || (!IsWhitespace(r[0]) && !IsWhitespace(r[|r| - 1])))
      && exists lead :: 0 <= lead <= |s| - |r| && r == s[lead..lead + |r|]
           && AllWhitespace(s[..lead]) && AllWhitespace(s[lead + |r|..])
  {
    var t := TrimStart(s);
    var r := TrimEnd(t);
    TrimStartSuffix(s);
    TrimEndPrefix(t);
    var lead := |s| - |t|;
    assert t == s[lead..];
    assert r == t[..|r|];
    assert r == s[lead..lead + |r|];
    assert s[lead + |r|..] == t[|r|..];
    assert r != [] ==> r[0] == t[0];
  }

  lemma {:induction false} TrimStartPadding(pad: string, s: string)
    requires AllWhitespace(pad)
    ensures TrimStart(pad + s) == TrimStart(s)
    decreases |pad|
  {
    if pad == [] {
      assert pad + s == s;
    } else {
      assert (pad + s)[1..] == pad[1..] + s;
      TrimStartPadding(pad[1..], s);
    }
  }

  lemma {:induction false} TrimEndPadding(s: string, pad: string)
    requires AllWhitespace(pad)
    ensures TrimEnd(s + pad) == TrimEnd(s)
    decreases |pad|
  {
    if pad == [] {
      assert s + pad == s;
    } else {
      var pad' := pad[..|pad| - 1];
      assert (s + pad)[..|s + pad| - 1] == s + pad';
      TrimEndPadding(s, pad');
    }
  }

  /** Text that follows a non-space is untouched by TrimStart. */
  lemma {:induction false} TrimStartAppend(s: string, t: string)
    requires TrimStart(s) != []
    ensures TrimStart(s + t) == TrimStart(s) + t
    decreases |s|
  {
    if IsWhitespace(s[0]) {
      assert (s + t)[1..] == s[1..] + t;
      TrimStartAppend(s[1..], t);
    }
  }

  lemma AllWhitespaceConcat(a: string, b: string)
    requires AllWhitespace(a) && AllWhitespace(b)
    ensures AllWhitespace(a + b)
  {
    forall k | 0 <= k < |a + b|
      ensures IsWhitespace((a + b)[k])
    {
      if k < |a| {
        assert (a + b)[k] == a[k];
      } else {
        assert (a + b)[k] == b[k - |a|];
      }
    }
  }

  /** Leading or trailing white space added to a field does not change what it trims to. */
  lemma TrimIgnoresPadding(pre: string, s: string, post: string)
    requires AllWhitespace(pre) && AllWhitespace(post)
    ensures Trim(pre + s + post) == Trim(s)
  {
    assert pre + s + post == pre + (s + post);
    TrimStartPadding(pre, s + post);
    TrimStartSuffix(s);
    if TrimStart(s) == [] {
      assert s[..|s|] == s;
      AllWhitespaceConcat(s, post);
      TrimStartPadding(s + post, []);
      assert s + post + [] == s + post;
    } else {
      TrimStartAppend(s, post);
      TrimEndPadding(TrimStart(s), post);
    }
  }

  /** Trimming twice is trimming once. */
  lemma TrimIdempotent(s: string)
    ensures Trim(Trim(s)) == Trim(s)
  {
    var y := Trim(s);
    TrimStartSuffix(s);
    TrimEndPrefix(TrimStart(s));
    if y != [] {
      assert y[0] == TrimStart(s)[0];
      assert TrimStart(y) == y;
    }
  }

  // ---------------------------------------------------------------------
  // String length
  // ---------------------------------------------------------------------

  /** The UTF-16 code units that encode `c`: a surrogate pair above U+FFFF. */
  function CodeUnits(c: char): nat
  {
    if c as int < 0x1_0000 then 1 else 2
  }

  /**
   * JavaScript's `s.length`: the number of UTF-16 code units, which is the
   * number of code points plus one for each code point above U+FFFF.
   */
  function Utf16Length(s: string): (n: nat)
    ensures |s| <= n <= 2 * |s|
  {
    if s == [] then 0 else Utf16Length(s[..|s| - 1]) + CodeUnits(s[|s| - 1])
  }

  /** Every character is in the Basic Multilingual Plane (one code unit each). */
  predicate InBasicPlane(s: string)
  {
    forall k :: 0 <= k < |s| ==> s[k] as int < 0x1_0000
  }

  /** The length of a concatenation is the sum of the lengths. */
  lemma {:induction false} Utf16LengthConcat(a: string, b: string)
    ensures Utf16Length(a + b) == Utf16Length(a) + Utf16Length(b)
    decreases |b|
  {
    if b == [] {
      assert a + b == a;
    } else {
      var b' := b[..|b| - 1];
      assert (a + b)[..|a + b| - 1] == a + b';
      Utf16LengthConcat(a, b');
    }
  }

  /** The two lengths agree exactly when no character needs a surrogate pair. */
  lemma {:induction false} Utf16LengthBasicPlane(s: string)
    ensures Utf16Length(s) == |s| <==> InBasicPlane(s)
    decreases |s|
  {
    if s != [] {
      var s' := s[..|s| - 1];
      Utf16LengthBasicPlane(s');
      assert forall k :: 0 <= k < |s'| ==> s'[k] == s[k];
      if Utf16Length(s) == |s| {
        assert InBasicPlane(s');
        assert s[|s| - 1] as int < 0x1_0000;
      }
    }
  }
}
