/**
  The part of Telegram's MarkdownV2 parser that the confession text uses:
  `*` opens and closes bold, `_` opens and closes italic (entities must nest
  properly), a backslash makes the next ASCII character (codes 1 to 126)
  literal, and every other reserved character is refused unless escaped. A
  message is accepted when the scan reaches its end with no entity left open.
  Links, code spans, strikethrough, spoilers, quotes and `__` underline are
  outside this fragment: the texts modelled here contain none of them.
  A backslash not followed by a character with code 1 to 126 is refused
  here, where Telegram reads it literally; the fragment is stricter there,
  which only makes acceptance harder to prove, and the refusals proved about
  the template come from a bare `(`, not from a backslash.
*/
module MarkdownV2 {
  import opened Wrappers
  import Markdown

  datatype Entity = Bold | Italic

  /** Meeting the marker of `e` with `open` entities: close it, open it, or refuse a crossing. */
  function Toggle(open: seq<Entity>, e: Entity): (r: Option<seq<Entity>>)
    ensures e !in open ==> r == Some(open + [e])
    ensures r.Some? && |r.value| < |open| ==> r.value + [e] == open
  {
    if open != [] && open[|open| - 1] == e then Some(open[..|open| - 1])
    else if e in open then None
    else Some(open + [e])
  }

  /** Scans `t` with `open` entities; the entities open at the end, or `None` when refused. */
  function Scan(t: string, open: seq<Entity>): Option<seq<Entity>>
    decreases |t|
  {
    if t == [] then Some(open)
    else if t[0] == '\\' then
      if |t| >= 2 && 1 <= t[1] as int <= 126 then Scan(t[2..], open) else None
    else if t[0] == '*' || t[0] == '_' then
      match Toggle(open, if t[0] == '*' then Bold else Italic)
      case None => None
      case Some(inner) => Scan(t[1..], inner)
    else if Markdown.IsReserved(t[0]) then None
    else Scan(t[1..], open)
  }

  /** What Telegram accepts as a `parse_mode: "MarkdownV2"` message, within this fragment. */
  predicate Accepted(t: string) {
    Scan(t, []) == Some([])
  }

  /** Text with no reserved character at all. */
  predicate Plain(a: string) {
    forall i :: 0 <= i < |a| ==> !Markdown.IsReserved(a[i])
  }

  // ---------------------------------------------------------------------------
  // Scanning pieces of a message
  // ---------------------------------------------------------------------------

  /** A scan can stop after any piece that it got through and go on from there. */
  lemma {:induction false} ScanConcat(a: string, b: string, open: seq<Entity>)
    requires Scan(a, open).Some?
    ensures Scan(a + b, open) == Scan(b, Scan(a, open).value)
    decreases |a|
  {
    if a == [] {
      assert a + b == b;
    } else {
      assert (a + b)[0] == a[0];
      if a[0] == '\\' {
        assert (a + b)[1] == a[1] && (a + b)[2..] == a[2..] + b;
        ScanConcat(a[2..], b, open);
      } else if a[0] == '*' || a[0] == '_' {
        assert (a + b)[1..] == a[1..] + b;
        var inner := Toggle(open, if a[0] == '*' then Bold else Italic).value;
        ScanConcat(a[1..], b, inner);
      } else {
        assert (a + b)[1..] == a[1..] + b;
        ScanConcat(a[1..], b, open);
      }
    }
  }

  lemma ReservedAreAscii(c: char)
    requires Markdown.IsReserved(c)
    ensures 1 <= c as int <= 126
  {
    assert forall i :: 0 <= i < |Markdown.EscapeOrder| ==> 1 <= Markdown.EscapeOrder[i] as int <= 126;
  }

  /** Literal text leaves the open entities as they were. */
  lemma {:induction false} ScanWellEscaped(t: string, open: seq<Entity>)
    requires Markdown.WellEscaped(t)
    ensures Scan(t, open) == Some(open)
    decreases |t|
  {
    if t != [] {
      if t[0] == '\\' {
        ReservedAreAscii(t[1]);
        ScanWellEscaped(t[2..], open);
      } else {
        ScanWellEscaped(t[1..], open);
      }
    }
  }

  /** Whatever a user typed, once escaped it cannot open, close or break an entity. */
  lemma ScanEscaped(s: string, open: seq<Entity>)
    ensures Scan(Markdown.EscapeMarkdown(s), open) == Some(open)
  {
    Markdown.EscapeIsWellEscaped(s);
    ScanWellEscaped(Markdown.EscapeMarkdown(s), open);
  }

  lemma {:induction false} PlainIsWellEscaped(a: string)
    requires Plain(a)
    ensures Markdown.WellEscaped(a)
  {
    if a != [] {
      assert Plain(a[1..]) by {
        forall i | 0 <= i < |a[1..]| ensures !Markdown.IsReserved(a[1..][i]) {
          assert a[1..][i] == a[i + 1];
        }
      }
      PlainIsWellEscaped(a[1..]);
    }
  }

  /** `m inner m` with a bold or italic marker `m` opens and closes one entity. */
  lemma Delimited(m: char, inner: string, open: seq<Entity>)
    requires m == '*' || m == '_'
    requires Markdown.WellEscaped(inner)
    requires (if m == '*' then Bold else Italic) !in open
    ensures Scan([m] + inner + [m], open) == Some(open)
  {
    var e := if m == '*' then Bold else Italic;
    var t := [m] + inner + [m];
    assert t[0] == m && t[1..] == inner + [m];
    ScanWellEscaped(inner, open + [e]);
    ScanConcat(inner, [m], open + [e]);
    assert (open + [e])[..|open|] == open;
  }

  /** A reserved character other than the markers and the backslash, left unescaped, is refused. */
  lemma UnescapedReservedRefused(c: char, rest: string, open: seq<Entity>)
    requires Markdown.IsReserved(c) && c != '\\' && c != '*' && c != '_'
    ensures Scan([c] + rest, open) == None
  {
    assert ([c] + rest)[0] == c;
  }
}
