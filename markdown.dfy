/**
  Telegram MarkdownV2 escaping as `escapeMarkdown` does it: a chain of
  `replaceAll` calls, each prefixing one reserved character with a backslash.
  The chain is modelled as written (a fold of `ReplaceAll` over the order in
  which the calls appear) and proved equal to a per-character map, from which
  the length, round-trip and injectivity properties follow.
*/
module Markdown {

  /** The characters the chain escapes, in the order of its `replaceAll` calls. */
  const EscapeOrder: seq<char> :=
    ['\\', '_', '*', '[', ']', '(', ')', '~', '`', '>', '#', '+', '-', '=', '|', '{', '}', '.', '!']

  /** The reserved set, one comparison per character of `EscapeOrder`. */
  predicate IsReserved(c: char)
    ensures IsReserved(c) <==> c in EscapeOrder
  {
    || c == '\\' || c == '_' || c == '*' || c == '[' || c == ']' || c == '(' || c == ')'
    || c == '~' || c == '`' || c == '>' || c == '#' || c == '+' || c == '-' || c == '='
    || c == '|' || c == '{' || c == '}' || c == '.' || c == '!'
  }

  // ---------------------------------------------------------------------------
  // The chain as written
  // ---------------------------------------------------------------------------

  /** JavaScript's `s.replaceAll(x, rep)` for a one-character pattern `x`. */
  function ReplaceAll(s: string, x: char, rep: string): (r: string)
    ensures x !in s ==> r == s
    ensures x !in rep ==> x !in r
  {
    if s == [] then []
    else (if s[0] == x then rep else [s[0]]) + ReplaceAll(s[1..], x, rep)
  }

  /** One `replaceAll` per character of `order`, applied left to right. */
  function ReplaceChain(s: string, order: seq<char>): string
    decreases |order|
  {
    if order == [] then s
    else ReplaceChain(ReplaceAll(s, order[0], ['\\', order[0]]), order[1..])
  }

  /** `escapeMarkdown(text)` with its nineteen chained `replaceAll` calls. */
  function EscapeMarkdown(text: string): string {
    ReplaceChain(text, EscapeOrder)
  }

  // ---------------------------------------------------------------------------
  // The per-character reading
  // ---------------------------------------------------------------------------

  /** Every character of `s` that occurs in `marked` gets a backslash before it. */
  function EscapeOnly(s: string, marked: seq<char>): (r: string)
    ensures |r| >= |s|
    ensures (forall c :: c in marked ==> c !in s) ==> r == s
  {
    if s == [] then []
    else (if s[0] in marked then ['\\', s[0]] else [s[0]]) + EscapeOnly(s[1..], marked)
  }

  function EscapeChar(c: char): string {
    if IsReserved(c) then ['\\', c] else [c]
  }

  /** The reference definition: each character mapped on its own, results concatenated. */
  function Escape(s: string): string {
    if s == [] then [] else EscapeChar(s[0]) + Escape(s[1..])
  }

  /** The number of reserved characters in `s`. */
  function CountReserved(s: string): nat {
    if s == [] then 0 else (if IsReserved(s[0]) then 1 else 0) + CountReserved(s[1..])
  }

  /** `s` without its reserved characters. */
  function PlainPart(s: string): (r: string)
    ensures |r| <= |s|
    ensures forall c :: c in r ==> c in s && !IsReserved(c)
  {
    if s == [] then [] else (if IsReserved(s[0]) then [] else [s[0]]) + PlainPart(s[1..])
  }

  /** Drops the backslash in front of every reserved character. */
  function Unescape(t: string): string {
    if t == [] then []
    else if |t| >= 2 && t[0] == '\\' && IsReserved(t[1]) then [t[1]] + Unescape(t[2..])
    else [t[0]] + Unescape(t[1..])
  }

  /**
    A string made only of plain characters and of backslash-escaped reserved
    characters: what MarkdownV2 reads as literal text.
  */
  predicate WellEscaped(t: string) {
    if t == [] then true
    else if t[0] == '\\' then |t| >= 2 && IsReserved(t[1]) && WellEscaped(t[2..])
    else !IsReserved(t[0]) && WellEscaped(t[1..])
  }

  // ---------------------------------------------------------------------------
  // The chain is the per-character map
  // ---------------------------------------------------------------------------

  lemma {:induction false} ReplaceAllConcat(a: string, b: string, x: char, rep: string)
    ensures ReplaceAll(a + b, x, rep) == ReplaceAll(a, x, rep) + ReplaceAll(b, x, rep)
  {
    if a != [] {
      assert (a + b)[0] == a[0] && (a + b)[1..] == a[1..] + b;
      ReplaceAllConcat(a[1..], b, x, rep);
    } else {
      assert a + b == b;
    }
  }

  /**
    Replacing `x` in an already partly escaped string escapes `x` as well,
    provided `x` was not escaped yet and, once anything was escaped, is not the
    backslash that escaping inserted.
  */
  lemma {:induction false} ReplaceAllStep(s: string, marked: seq<char>, x: char)
    requires x !in marked
    requires marked != [] ==> x != '\\'
    ensures ReplaceAll(EscapeOnly(s, marked), x, ['\\', x]) == EscapeOnly(s, marked + [x])
  {
    if s != [] {
      var head := if s[0] in marked then ['\\', s[0]] else [s[0]];
      ReplaceAllConcat(head, EscapeOnly(s[1..], marked), x, ['\\', x]);
      ReplaceAllStep(s[1..], marked, x);
      if s[0] in marked {
        assert ReplaceAll(head, x, ['\\', x]) == head by {
          assert head[1..] == [s[0]];
        }
      }
    }
  }

  /** No character repeats in `order`, and a backslash may only come first. */
  predicate SafeOrder(order: seq<char>) {
    && (forall i, j :: 0 <= i < j < |order| ==> order[i] != order[j])
    && (forall i :: 0 < i < |order| ==> order[i] != '\\')
  }

  lemma {:induction false} ReplaceChainIsEscapeOnly(s: string, done: seq<char>, todo: seq<char>)
    requires SafeOrder(done + todo)
    ensures ReplaceChain(EscapeOnly(s, done), todo) == EscapeOnly(s, done + todo)
    decreases |todo|
  {
    if todo != [] {
      var x := todo[0];
      assert x == (done + todo)[|done|];
      assert x !in done by {
        forall i | 0 <= i < |done| ensures done[i] != x {
          assert done[i] == (done + todo)[i];
        }
      }
      ReplaceAllStep(s, done, x);
      assert done + todo == (done + [x]) + todo[1..];
      ReplaceChainIsEscapeOnly(s, done + [x], todo[1..]);
    } else {
      assert done + todo == done;
    }
  }

  lemma {:induction false} EscapeOnlyOrderIsEscape(s: string)
    ensures EscapeOnly(s, EscapeOrder) == Escape(s)
  {
    if s != [] {
      EscapeOnlyOrderIsEscape(s[1..]);
    }
  }

  lemma EscapeOrderIsSafe()
    ensures SafeOrder(EscapeOrder)
  {
  }

  /** The `replaceAll` chain of `escapeMarkdown` is the per-character escape. */
  lemma EscapeMarkdownIsEscape(s: string)
    ensures EscapeMarkdown(s) == Escape(s)
  {
    assert [] + EscapeOrder == EscapeOrder;
    EscapeOrderIsSafe();
    ReplaceChainIsEscapeOnly(s, [], EscapeOrder);
    EscapeOnlyOrderIsEscape(s);
  }

  // ---------------------------------------------------------------------------
  // Properties of the escape
  // ---------------------------------------------------------------------------

  /** Escaping adds exactly one character per reserved character. */
  lemma {:induction false} EscapeLength(s: string)
    ensures |EscapeMarkdown(s)| == |s| + CountReserved(s)
  {
    EscapeMarkdownIsEscape(s);
    EscapeLengthAux(s);
  }

  lemma {:induction false} EscapeLengthAux(s: string)
    ensures |Escape(s)| == |s| + CountReserved(s)
  {
    if s != [] {
      EscapeLengthAux(s[1..]);
    }
  }

  /** A string without reserved characters is left as it is. */
  lemma {:induction false} EscapePlainIsIdentity(s: string)
    requires forall c :: c in s ==> !IsReserved(c)
    ensures EscapeMarkdown(s) == s
  {
    EscapeMarkdownIsEscape(s);
    EscapePlainAux(s);
  }

  lemma {:induction false} EscapePlainAux(s: string)
    requires forall c :: c in s ==> !IsReserved(c)
    ensures Escape(s) == s
  {
    if s != [] {
      assert s[0] in s;
      EscapePlainAux(s[1..]);
    }
  }

  /** The plain characters come out unchanged and in their original order. */
  lemma {:induction false} EscapeKeepsPlainPart(s: string)
    ensures PlainPart(EscapeMarkdown(s)) == PlainPart(s)
  {
    EscapeMarkdownIsEscape(s);
    EscapeKeepsPlainPartAux(s);
  }

  lemma {:induction false} PlainPartConcat(a: string, b: string)
    ensures PlainPart(a + b) == PlainPart(a) + PlainPart(b)
  {
    if a != [] {
      assert (a + b)[0] == a[0] && (a + b)[1..] == a[1..] + b;
      PlainPartConcat(a[1..], b);
    } else {
      assert a + b == b;
    }
  }

  lemma {:induction false} EscapeKeepsPlainPartAux(s: string)
    ensures PlainPart(Escape(s)) == PlainPart(s)
  {
    if s != [] {
      PlainPartConcat(EscapeChar(s[0]), Escape(s[1..]));
      EscapeKeepsPlainPartAux(s[1..]);
      if IsReserved(s[0]) {
        assert PlainPart(['\\', s[0]]) == [] by {
          assert ['\\', s[0]][1..] == [s[0]];
        }
      }
    }
  }

  /** Every escaped string is literal MarkdownV2 text. */
  lemma {:induction false} EscapeIsWellEscaped(s: string)
    ensures WellEscaped(EscapeMarkdown(s))
  {
    EscapeMarkdownIsEscape(s);
    EscapeWellEscapedAux(s);
  }

  lemma {:induction false} EscapeWellEscapedAux(s: string)
    ensures WellEscaped(Escape(s))
  {
    if s != [] {
      EscapeWellEscapedAux(s[1..]);
      var t := Escape(s);
      assert t == EscapeChar(s[0]) + Escape(s[1..]);
      if IsReserved(s[0]) {
        assert t[2..] == Escape(s[1..]);
      } else {
        assert t[1..] == Escape(s[1..]);
      }
    }
  }

  /** Literal text followed by literal text is literal text. */
  lemma {:induction false} WellEscapedConcat(a: string, b: string)
    requires WellEscaped(a) && WellEscaped(b)
    ensures WellEscaped(a + b)
    decreases |a|
  {
    if a == [] {
      assert a + b == b;
    } else if a[0] == '\\' {
      assert (a + b)[0] == a[0] && (a + b)[1] == a[1] && (a + b)[2..] == a[2..] + b;
      WellEscapedConcat(a[2..], b);
    } else {
      assert (a + b)[0] == a[0] && (a + b)[1..] == a[1..] + b;
      WellEscapedConcat(a[1..], b);
    }
  }

  /** Unescaping recovers the original: `Unescape(EscapeMarkdown(s)) == s`. */
  lemma {:induction false} UnescapeEscape(s: string)
    ensures Unescape(EscapeMarkdown(s)) == s
  {
    EscapeMarkdownIsEscape(s);
    UnescapeEscapeAux(s);
  }

  lemma {:induction false} UnescapeEscapeAux(s: string)
    ensures Unescape(Escape(s)) == s
  {
    if s != [] {
      UnescapeEscapeAux(s[1..]);
      var t := Escape(s);
      assert t == EscapeChar(s[0]) + Escape(s[1..]);
      if IsReserved(s[0]) {
        assert t[2..] == Escape(s[1..]);
      } else {
        assert t[1..] == Escape(s[1..]);
        assert s[0] != '\\';
      }
    }
  }

  /** Every well-escaped string is the escape of exactly its unescaping. */
  lemma {:induction false} EscapeUnescape(t: string)
    requires WellEscaped(t)
    ensures EscapeMarkdown(Unescape(t)) == t
  {
    EscapeMarkdownIsEscape(Unescape(t));
    EscapeUnescapeAux(t);
  }

  lemma {:induction false} EscapeUnescapeAux(t: string)
    requires WellEscaped(t)
    ensures Escape(Unescape(t)) == t
    decreases |t|
  {
    if t != [] {
      if t[0] == '\\' {
        EscapeUnescapeAux(t[2..]);
        assert Unescape(t) == [t[1]] + Unescape(t[2..]);
        assert [t[1]][1..] == [];
        assert t == ['\\', t[1]] + t[2..];
      } else {
        EscapeUnescapeAux(t[1..]);
        assert Unescape(t) == [t[0]] + Unescape(t[1..]);
        assert t == [t[0]] + t[1..];
      }
    }
  }

  /** Different inputs never escape to the same text. */
  lemma EscapeInjective(a: string, b: string)
    requires EscapeMarkdown(a) == EscapeMarkdown(b)
    ensures a == b
  {
    UnescapeEscape(a);
    UnescapeEscape(b);
  }

  /** An escaped string never starts with a reserved character other than the escaping backslash. */
  lemma EscapeStartsPlainOrBackslash(s: string)
    requires s != []
    ensures EscapeMarkdown(s) != []
    ensures EscapeMarkdown(s)[0] == '\\' || !IsReserved(EscapeMarkdown(s)[0])
  {
    EscapeMarkdownIsEscape(s);
  }

  /** A backslash is doubled: `a\b` becomes `a\\b`. */
  lemma EscapeBackslashExample(s: string)
    requires s == "a\\b"
    ensures EscapeMarkdown(s) == "a\\\\b"
  {
    assert Escape(s) == "a\\\\b" by {
      assert s[1..][1..] == "b";
      assert Escape(s[1..][1..]) == "b";
      assert Escape(s[1..]) == "\\\\b";
    }
    EscapeMarkdownIsEscape(s);
  }

  /** A reserved character gets one backslash: `a*b` becomes `a\*b`. */
  lemma EscapeStarExample(s: string)
    requires s == "a*b"
    ensures EscapeMarkdown(s) == "a\\*b"
  {
    assert Escape(s) == "a\\*b" by {
      assert s[1..][1..] == "b";
      assert Escape(s[1..][1..]) == "b";
      assert Escape(s[1..]) == "\\*b";
    }
    EscapeMarkdownIsEscape(s);
  }
}
