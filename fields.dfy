/**
  The handler's field normalisation `value.slice(0, limit).trim()`: keep the
  first `limit` characters, then strip whitespace from both ends.
*/
module Fields {

  /** ECMAScript's WhiteSpace and LineTerminator characters, the set `trim` strips. */
  predicate IsWhitespace(c: char) {
    c in {'\t', '\U{B}', '\U{C}', ' ', '\U{A0}', '\U{FEFF}', '\n', '\r', '\U{2028}', '\U{2029}',
          '\U{1680}', '\U{2000}', '\U{2001}', '\U{2002}', '\U{2003}', '\U{2004}', '\U{2005}',
          '\U{2006}', '\U{2007}', '\U{2008}', '\U{2009}', '\U{200A}', '\U{202F}', '\U{205F}',
          '\U{3000}'}
  }

  predicate AllWhitespace(s: string) {
    forall i :: 0 <= i < |s| ==> IsWhitespace(s[i])
  }

  /** Neither end of `s` is whitespace. */
  predicate Trimmed(s: string) {
    s == [] || (!IsWhitespace(s[0]) && !IsWhitespace(s[|s| - 1]))
  }

  /** `r` is `s` with whitespace runs `p` and `q` taken off its two ends. */
  ghost predicate IsTrimOf(s: string, r: string) {
    Trimmed(r) && exists p, q :: s == p + r + q && AllWhitespace(p) && AllWhitespace(q)
  }

  /** The length of the whitespace run at the start of `s`. */
  function LeadingSpace(s: string): (n: nat)
    ensures n <= |s|
    ensures AllWhitespace(s[..n])
    ensures n < |s| ==> !IsWhitespace(s[n])
  {
    if s != [] && IsWhitespace(s[0]) then
      var n := 1 + LeadingSpace(s[1..]);
      assert s[..n] == [s[0]] + s[1..][..n - 1];
      n
    else 0
  }

  /** The length of the whitespace run at the end of `s`. */
  function TrailingSpace(s: string): (n: nat)
    ensures n <= |s|
    ensures AllWhitespace(s[|s| - n..])
    ensures n < |s| ==> !IsWhitespace(s[|s| - n - 1])
  {
    if s != [] && IsWhitespace(s[|s| - 1]) then
      var n := 1 + TrailingSpace(s[..|s| - 1]);
      assert s[|s| - n..] == s[..|s| - 1][|s| - n..] + [s[|s| - 1]];
      n
    else 0
  }

  /** JavaScript's `s.trim()`. */
  function Trim(s: string): (r: string)
    ensures |r| <= |s|
    ensures IsTrimOf(s, r)
  {
    var i := LeadingSpace(s);
    if i == |s| then
      assert s[..i] == s;
      TrimOfParts(s, s, [], []);
      []
    else
      var j := |s| - TrailingSpace(s);
      TrimBounds(s, i, TrailingSpace(s));
      SplitThree(s, i, j);
      TrimOfParts(s, s[..i], s[i..j], s[j..]);
      s[i..j]
  }

  /**
    A trailing whitespace run of length `t` stops before the first character
    `s[i]` that is not whitespace, and what lies between is trimmed.
  */
  lemma TrimBounds(s: string, i: nat, t: nat)
    requires i < |s| && !IsWhitespace(s[i])
    requires t <= |s| && AllWhitespace(s[|s| - t..]) && (t < |s| ==> !IsWhitespace(s[|s| - t - 1]))
    ensures i < |s| - t
    ensures Trimmed(s[i..|s| - t])
  {
    assert s[i..|s| - t][0] == s[i];
    assert s[i..|s| - t][|s| - t - i - 1] == s[|s| - t - 1];
  }

  lemma SplitThree(s: string, i: nat, j: nat)
    requires i <= j <= |s|
    ensures s == s[..i] + s[i..j] + s[j..]
  {
    assert s[..i] + s[i..j] == s[..j];
  }

  lemma TrimOfParts(s: string, p: string, r: string, q: string)
    requires s == p + r + q && AllWhitespace(p) && AllWhitespace(q) && Trimmed(r)
    ensures IsTrimOf(s, r)
  {
  }

  /** JavaScript's `s.slice(0, limit)`. */
  function Slice(s: string, limit: nat): (r: string)
    ensures |r| <= limit && |r| <= |s|
    ensures r <= s
    ensures |s| <= limit ==> r == s
    ensures |s| > limit ==> r == s[..limit]
  {
    if |s| <= limit then s else s[..limit]
  }

  /** `value.slice(0, limit).trim()`: cut first, then trim. */
  function Normalize(s: string, limit: nat): (r: string)
    ensures |r| <= limit
    ensures Trimmed(r)
    ensures IsTrimOf(Slice(s, limit), r)
  {
    Trim(Slice(s, limit))
  }

  // ---------------------------------------------------------------------------
  // Trimming is determined by its contract
  // ---------------------------------------------------------------------------

  lemma {:induction false} WhitespacePrefixLength(s: string, p: string, r: string, q: string)
    requires s == p + r + q && AllWhitespace(p) && r != [] && !IsWhitespace(r[0])
    ensures LeadingSpace(s) == |p|
  {
    assert s[|p|] == r[0];
    assert LeadingSpace(s) <= |p|;
  }

  /** Only one string is the trim of `s`: the one `Trim` returns. */
  lemma {:induction false} TrimUnique(s: string, r: string)
    requires IsTrimOf(s, r)
    ensures Trim(s) == r
  {
    var p, q :| s == p + r + q && AllWhitespace(p) && AllWhitespace(q);
    if r == [] {
      assert s == p + q;
      assert AllWhitespace(s) by {
        forall i | 0 <= i < |s| ensures IsWhitespace(s[i]) {
          if i < |p| { assert s[i] == p[i]; } else { assert s[i] == q[i - |p|]; }
        }
      }
      assert LeadingSpace(s) == |s|;
    } else {
      WhitespacePrefixLength(s, p, r, q);
      assert s[|s| - |q| - 1] == r[|r| - 1];
      assert TrailingSpace(s) <= |q|;
      assert Trim(s) == s[|p|..|s| - |q|];
      assert s[|p|..|s| - |q|] == r;
    }
  }

  /** A trimmed string is its own trim. */
  lemma TrimTrimmed(s: string)
    requires Trimmed(s)
    ensures Trim(s) == s
  {
    TrimOfParts(s, [], s, []);
    TrimUnique(s, s);
  }

  /** Trimming twice changes nothing. */
  lemma TrimIdempotent(s: string)
    ensures Trim(Trim(s)) == Trim(s)
  {
    TrimTrimmed(Trim(s));
  }

  /** The trim is empty exactly when the string is all whitespace. */
  lemma TrimEmpty(s: string)
    ensures Trim(s) == [] <==> AllWhitespace(s)
  {
    if AllWhitespace(s) {
      TrimOfParts(s, [], [], s);
      TrimUnique(s, []);
    }
    if Trim(s) == [] {
      var p, q :| s == p + [] + q && AllWhitespace(p) && AllWhitespace(q);
      forall i | 0 <= i < |s| ensures IsWhitespace(s[i]) {
        if i < |p| { assert s[i] == p[i]; } else { assert s[i] == q[i - |p|]; }
      }
    }
  }

  /** Normalising an already normalised value changes nothing. */
  lemma NormalizeIdempotent(s: string, limit: nat)
    ensures Normalize(Normalize(s, limit), limit) == Normalize(s, limit)
  {
    TrimTrimmed(Normalize(s, limit));
  }

  /**
    Cutting happens before trimming: a value whose first `limit` characters
    are all whitespace normalises to the empty string, however much text
    follows them.
  */
  lemma SliceBeforeTrim(s: string, limit: nat)
    requires limit < |s| && AllWhitespace(s[..limit])
    ensures Normalize(s, limit) == []
  {
    TrimEmpty(s[..limit]);
  }

  /** For example, eighty spaces before a name leave no receiver at all. */
  lemma PaddedNameIsLost(name: string)
    requires name != [] && !IsWhitespace(name[0])
    ensures Normalize(seq(80, i => ' ') + name, 80) == []
    ensures Trim(seq(80, i => ' ') + name) != []
  {
    var s := seq(80, i => ' ') + name;
    assert s[..80] == seq(80, i => ' ');
    SliceBeforeTrim(s, 80);
    TrimEmpty(s);
    assert !IsWhitespace(s[80]);
  }
}
