/** The string operations the symbol and venue normalisers are made of. */
module Text {
  predicate Space(c: char) { c == ' ' || '\t' <= c <= '\r' || '\U{1C}' <= c <= '\U{1F}' }

  /** Space, tab, line feed, vertical tab, form feed, carriage return and the four separators. */
  const BLANKS := [' ', '\t', '\n', '\U{0B}', '\U{0C}', '\r', '\U{1C}', '\U{1D}', '\U{1E}', '\U{1F}']

  lemma SpaceIsBlank(c: char)
    ensures Space(c) <==> c in BLANKS
  {
    var b := BLANKS;
    assert b[0] == ' ' && b[1] == '\t' && b[2] == '\n' && b[3] == '\U{0B}' && b[4] == '\U{0C}';
    assert b[5] == '\r' && b[6] == '\U{1C}' && b[7] == '\U{1D}' && b[8] == '\U{1E}' && b[9] == '\U{1F}';
  }

  function UpperChar(c: char): char { if 'a' <= c <= 'z' then c - 'a' + 'A' else c }

  function LowerChar(c: char): char { if 'A' <= c <= 'Z' then c - 'A' + 'a' else c }

  function Upper(s: string): string { seq(|s|, i requires 0 <= i < |s| => UpperChar(s[i])) }

  function Lower(s: string): string { seq(|s|, i requires 0 <= i < |s| => LowerChar(s[i])) }

  function Strip(s: string): string {
    if s == "" then s
    else if Space(s[0]) then Strip(s[1..])
    else if Space(s[|s| - 1]) then Strip(s[..|s| - 1])
    else s
  }

  function Without(s: string, c: char): string {
    if s == "" then s else (if s[0] == c then "" else [s[0]]) + Without(s[1..], c)
  }

  predicate EndsWith(s: string, tail: string) { |tail| <= |s| && s[|s| - |tail|..] == tail }

  predicate Trimmed(s: string) { s == "" || (!Space(s[0]) && !Space(s[|s| - 1])) }

  predicate NoLower(s: string) { forall i :: 0 <= i < |s| ==> UpperChar(s[i]) == s[i] }

  lemma {:induction false} StripTrims(s: string)
    ensures Trimmed(Strip(s)) && (forall c <- Strip(s) :: c in s) && (Trimmed(s) ==> Strip(s) == s)
  {
    if s != "" {
      if Space(s[0]) { StripTrims(s[1..]); }
      else if Space(s[|s| - 1]) { StripTrims(s[..|s| - 1]); }
    }
  }

  lemma StripUpper(s: string)
    ensures NoLower(Strip(Upper(s))) && Trimmed(Strip(Upper(s)))
  {
    StripTrims(Upper(s));
    forall i | 0 <= i < |Strip(Upper(s))| ensures UpperChar(Strip(Upper(s))[i]) == Strip(Upper(s))[i] {
      assert Strip(Upper(s))[i] in Upper(s);
    }
  }

  lemma UpperOfUpper(s: string)
    requires NoLower(s) && Trimmed(s)
    ensures Strip(Upper(s)) == s
  {
    assert Upper(s) == s;
    StripTrims(s);
  }

  lemma LowerOfStrip(s: string)
    ensures Lower(Strip(Lower(Strip(s)))) == Lower(Strip(s))
  {
    var t := Lower(Strip(s));
    StripTrims(s);
    assert Trimmed(t);
    StripTrims(t);
    assert Lower(t) == t;
  }

  lemma UpperHasNoLower(s: string)
    ensures forall c <- Upper(s) :: !('a' <= c <= 'z')
  {
    forall c | c in Upper(s) ensures !('a' <= c <= 'z') { var i :| 0 <= i < |Upper(s)| && Upper(s)[i] == c; }
  }

  lemma NoLowerIsUpper(s: string)
    requires forall c <- s :: !('a' <= c <= 'z')
    ensures Upper(s) == s
  {
    assert forall i :: 0 <= i < |s| ==> s[i] in s;
  }

  // ---- Spellings ----

  /** A letter in either case, or any other character as it is; `d` is the capital. */
  predicate SameLetter(c: char, d: char) { c == d || ('a' <= c <= 'z' && 'A' <= d <= 'Z' && c - 'a' == d - 'A') }

  predicate Plain(s: string) { forall c <- s :: 'A' <= c <= 'Z' || '0' <= c <= '9' }

  predicate AllSpace(s: string) { forall c <- s :: c in BLANKS }

  predicate SameUpToCase(s: string, t: string) { |s| == |t| && forall i :: 0 <= i < |s| ==> SameLetter(s[i], t[i]) }

  /** The text in any case, with any slashes and dashes put in. */
  predicate Spells(s: string, t: string) {
    if s == "" then t == ""
    else if s[0] == '/' || s[0] == '-' then Spells(s[1..], t)
    else t != "" && SameLetter(s[0], t[0]) && Spells(s[1..], t[1..])
  }

  lemma {:induction false} WithoutHasNone(s: string, c: char)
    ensures c !in Without(s, c) && forall d <- Without(s, c) :: d in s
    ensures c !in s ==> Without(s, c) == s
  {
    if s != "" { WithoutHasNone(s[1..], c); }
  }

  lemma WithoutFirst(s: string, c: char)
    requires s != ""
    ensures Without(s, c) == (if s[0] == c then "" else [s[0]]) + Without(s[1..], c)
  {
  }

  /** What is left of a spelling without its separators, in capitals. */
  lemma {:induction false} SpellingCleans(s: string, t: string)
    requires Spells(s, t) && Plain(t)
    ensures Without(Without(Upper(s), '/'), '-') == t
  {
    if s != "" {
      var u, c := Upper(s), UpperChar(s[0]);
      assert u == [c] + Upper(s[1..]);
      var once := Without(u, '/');
      WithoutFirst(u, '/');
      assert u[1..] == Upper(s[1..]);
      if s[0] == '/' {
        SpellingCleans(s[1..], t);
        assert once == Without(Upper(s[1..]), '/');
      } else {
        assert once == [c] + Without(Upper(s[1..]), '/');
        assert once[1..] == Without(Upper(s[1..]), '/');
        WithoutFirst(once, '-');
        if s[0] == '-' {
          SpellingCleans(s[1..], t);
        } else {
          assert t[0] in t && c == t[0];
          assert forall d <- t[1..] :: d in t;
          SpellingCleans(s[1..], t[1..]);
          assert t == [t[0]] + t[1..];
        }
      }
    }
  }

  lemma {:induction false} StripBlanks(left: string, s: string, right: string)
    requires AllSpace(left) && AllSpace(right) && Trimmed(s)
    ensures Strip(left + s + right) == s
    decreases |left| + |right|
  {
    var all := left + s + right;
    if left != "" {
      SpaceIsBlank(left[0]);
      assert all[0] == left[0] && all[1..] == left[1..] + s + right;
      StripBlanks(left[1..], s, right);
    } else if right != "" {
      var last := |right| - 1;
      SpaceIsBlank(right[last]);
      assert right[last] in right && all[|all| - 1] == right[last] && all[..|all| - 1] == left + s + right[..last];
      if Space(all[0]) {
        hide Space;
        assert s == "";
        assert right[0] in right && all[1..] == left + s + right[1..];
        StripBlanks(left, s, right[1..]);
      } else {
        StripBlanks(left, s, right[..last]);
      }
    } else {
      assert all == s;
      StripTrims(s);
    }
  }

  lemma UpperOfCase(s: string, t: string)
    requires SameUpToCase(s, t) && NoLower(t)
    ensures Upper(s) == t
  {
  }

  /** A string in any case between blanks, in capitals and trimmed. */
  lemma UpperStripped(left: string, s: string, right: string, t: string)
    requires AllSpace(left) && AllSpace(right) && SameUpToCase(s, t) && NoLower(t) && Trimmed(t)
    ensures Strip(Upper(left + s + right)) == t
  {
    UpperOfCase(s, t);
    assert Upper(left + s + right) == left + t + right by {
      forall c | c in left || c in right ensures UpperChar(c) == c {}
      assert forall i :: 0 <= i < |left| ==> left[i] in left;
      assert forall i :: 0 <= i < |right| ==> right[i] in right;
    }
    StripBlanks(left, t, right);
  }
}
