/** String helpers with the meaning the JavaScript built-ins have in the LifeLink
    components: `toLowerCase` (ASCII letters only), `trim`, `includes` and
    `split(' ')[0]`. Strings are sequences of characters. */
module Text {

  /** The characters `String.prototype.trim` strips: the white-space characters (tab,
      vertical tab, form feed, the byte-order mark and every space separator, among them
      the no-break space, the en to hair spaces and the ideographic space) and the line
      terminators. */
  predicate IsSpace(c: char) {
    c == '\t' || c == '\U{B}' || c == '\U{C}' || c == '\U{FEFF}'
    || c == ' ' || c == '\U{A0}' || c == '\U{1680}' || ('\U{2000}' <= c <= '\U{200A}')
    || c == '\U{202F}' || c == '\U{205F}' || c == '\U{3000}'
    || c == '\n' || c == '\r' || c == '\U{2028}' || c == '\U{2029}'
  }

  predicate AllSpace(s: string) {
    forall i :: 0 <= i < |s| ==> IsSpace(s[i])
  }

  predicate IsUpper(c: char) {
    'A' <= c <= 'Z'
  }

  function LowerChar(c: char): (r: char)
    ensures !IsUpper(r)
    ensures IsSpace(r) <==> IsSpace(c)
    ensures !IsUpper(c) ==> r == c
  {
    if IsUpper(c) then (c as int + 32) as char else c
  }

  /** `s.toLowerCase()`, restricted to ASCII letters. */
  function Lower(s: string): (r: string)
    ensures |r| == |s|
    ensures forall i :: 0 <= i < |s| ==> r[i] == LowerChar(s[i])
  {
    seq(|s|, i requires 0 <= i < |s| => LowerChar(s[i]))
  }

  predicate NoUpper(s: string) {
    forall i :: 0 <= i < |s| ==> !IsUpper(s[i])
  }

  /** Lowercasing leaves a string without upper-case letters unchanged, so it is idempotent. */
  lemma LowerFixesLowercase(s: string)
    requires NoUpper(s)
    ensures Lower(s) == s
  {
  }

  lemma LowerIdempotent(s: string)
    ensures Lower(Lower(s)) == Lower(s)
  {
    LowerFixesLowercase(Lower(s));
  }

  /** Number of whitespace characters at the front of `s`. */
  function LeadingSpaces(s: string): (k: nat)
    ensures k <= |s| && AllSpace(s[..k])
    ensures k == |s| || !IsSpace(s[k])
  {
    if s == [] || !IsSpace(s[0]) then 0
    else
      var k := 1 + LeadingSpaces(s[1..]);
      assert s[..k] == [s[0]] + s[1..][..k - 1];
      k
  }

  /** Index where the trailing run of whitespace of `s` begins. */
  function TrailingStart(s: string): (k: nat)
    ensures k <= |s| && AllSpace(s[k..])
    ensures k == 0 || !IsSpace(s[k - 1])
  {
    if s == [] || !IsSpace(s[|s| - 1]) then |s|
    else
      var k := TrailingStart(s[..|s| - 1]);
      assert s[k..] == s[..|s| - 1][k..] + [s[|s| - 1]];
      k
  }

  /** `s.trim()`: the longest infix of `s` that neither starts nor ends with whitespace;
      everything it drops is whitespace. */
  function Trim(s: string): (r: string)
    ensures |r| <= |s|
    ensures r == [] || (!IsSpace(r[0]) && !IsSpace(r[|r| - 1]))
    ensures r == [] <==> AllSpace(s)
    ensures forall c :: c in r ==> c in s
    ensures exists b, e :: 0 <= b <= e <= |s| && r == s[b..e] && AllSpace(s[..b]) && AllSpace(s[e..])
  {
    var e := TrailingStart(s);
    var b := LeadingSpaces(s[..e]);
    assert s[b..e] == s[..e][b..];
    assert s[..b] == s[..e][..b];
    assert AllSpace(s) ==> e == 0;
    assert b == e ==> s == s[..e][..b] + s[e..];
    s[b..e]
  }

  /** Trimming twice is trimming once. */
  lemma TrimIdempotent(s: string)
    ensures Trim(Trim(s)) == Trim(s)
  {
    var t := Trim(s);
    if t != [] {
      assert TrailingStart(t) == |t|;
      assert t[..|t|] == t;
      assert LeadingSpaces(t) == 0;
    }
  }

  /** A lowercased, trimmed string is its own lowercase: the normalised e-mail
      compares equal to itself once stored. */
  lemma LowerOfTrimmedLower(s: string)
    ensures Lower(Trim(Lower(s))) == Trim(Lower(s))
  {
    var t := Trim(Lower(s));
    forall i | 0 <= i < |t| ensures !IsUpper(t[i]) {
      assert t[i] in t;
    }
    LowerFixesLowercase(t);
  }

  /** `!s.trim()`: the input is empty after trimming. */
  predicate IsBlank(s: string) {
    Trim(s) == []
  }

  predicate IsPrefix(p: string, s: string) {
    |p| <= |s| && s[..|p|] == p
  }

  /** `s.includes(sub)`, computed by trying each start position in turn. */
  predicate Contains(s: string, sub: string)
    decreases |s|
  {
    IsPrefix(sub, s) || (s != [] && Contains(s[1..], sub))
  }

  /** `sub` occurs in `s` starting at position `i`. */
  predicate OccursAt(s: string, sub: string, i: int) {
    0 <= i <= |s| - |sub| && s[i..i + |sub|] == sub
  }

  /** `includes` is substring containment: `sub` occurs at some position of `s`. */
  lemma {:induction false} ContainsIffOccurs(s: string, sub: string)
    ensures Contains(s, sub) <==> exists i :: OccursAt(s, sub, i)
  {
    if IsPrefix(sub, s) {
      assert OccursAt(s, sub, 0);
    } else if s == [] {
      assert forall i :: !OccursAt(s, sub, i);
    } else {
      ContainsIffOccurs(s[1..], sub);
      if exists i :: OccursAt(s, sub, i) {
        var i :| OccursAt(s, sub, i);
        assert i != 0;
        assert OccursAt(s[1..], sub, i - 1) by {
          assert s[1..][i - 1..i - 1 + |sub|] == s[i..i + |sub|];
        }
      }
      if Contains(s[1..], sub) {
        var j :| OccursAt(s[1..], sub, j);
        assert OccursAt(s, sub, j + 1) by {
          assert s[1..][j..j + |sub|] == s[j + 1..j + 1 + |sub|];
        }
      }
    }
  }

  /** The empty search term occurs in every string. */
  lemma ContainsEmpty(s: string)
    ensures Contains(s, "")
  {
  }

  /** `s.split(' ')[0]`: the characters before the first space, or all of `s`. */
  function FirstWord(s: string): (r: string)
    ensures IsPrefix(r, s) && ' ' !in r
    ensures |r| == |s| || s[|r|] == ' '
  {
    if s == [] || s[0] == ' ' then [] else [s[0]] + FirstWord(s[1..])
  }
}
