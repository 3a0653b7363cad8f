/**
  The message text the handler posts to Telegram: six lines joined with
  newlines, every user-supplied value passed through `escapeMarkdown`.
  `TextAsWritten` is the template as the handler has it; `Text` is the same
  template with the metadata line made valid MarkdownV2, which the rest of the
  model uses.
*/
module Message {
  import opened Wrappers
  import Markdown
  import MarkdownV2

  /** The normalised fields of an accepted submission; `sender` is `None` where the handler holds `null`. */
  datatype Submission = Submission(receiver: string, message: string, sender: Option<string>, source: string)

  /** JavaScript's `lines.join(sep)`. */
  function Join(lines: seq<string>, sep: string): string
    decreases |lines|
  {
    if lines == [] then []
    else if |lines| == 1 then lines[0]
    else Join(lines[..|lines| - 1], sep) + sep + lines[|lines| - 1]
  }

  /** The value of the "From" line: the escaped sender, or the italic placeholder when there is none. */
  function FromValue(sender: Option<string>): (r: string)
    ensures r == "_Anonymous_" <==> (sender.None? || sender.value == "")
    ensures sender.Some? && sender.value != "" ==> r == Markdown.EscapeMarkdown(sender.value)
  {
    if sender.Some? && sender.value != "" then
      var r := Markdown.EscapeMarkdown(sender.value);
      Markdown.EscapeStartsPlainOrBackslash(sender.value);
      assert r != "_Anonymous_" by {
        assert Markdown.IsReserved('_');
      }
      r
    else "_Anonymous_"
  }

  /** The six lines of the text; `meta` is the last one. */
  function Lines(sub: Submission, meta: string): (lines: seq<string>)
  {
    [ "\U{1F4E3} *New Confession*",
      "*To:* " + Markdown.EscapeMarkdown(sub.receiver),
      "*From:* " + FromValue(sub.sender),
      "*Message:*",
      Markdown.EscapeMarkdown(sub.message),
      meta ]
  }

  /** The metadata line as the handler writes it: `(` and `)` bare, the italic never closed. */
  function MetaLineAsWritten(source: string, timestamp: string): string {
    "\n_meta: " + Markdown.EscapeMarkdown(source) + " (" + timestamp + ")"
  }

  /** The metadata line with its parentheses and timestamp escaped and its italic closed. */
  function MetaLine(source: string, timestamp: string): string {
    "\n_meta: " + Markdown.EscapeMarkdown(source) + " \\(" + Markdown.EscapeMarkdown(timestamp) + "\\)_"
  }

  function TextAsWritten(sub: Submission, timestamp: string): string {
    Join(Lines(sub, MetaLineAsWritten(sub.source, timestamp)), "\n")
  }

  function Text(sub: Submission, timestamp: string): string {
    Join(Lines(sub, MetaLine(sub.source, timestamp)), "\n")
  }

  // ---------------------------------------------------------------------------
  // The template's own characters
  // ---------------------------------------------------------------------------

  /** The characters of the template's labels: letters, space, colon, newline and the emoji. */
  predicate Words(a: string) {
    forall i :: 0 <= i < |a| ==> ('a' <= a[i] <= 'z' || 'A' <= a[i] <= 'Z' || a[i] in " :\n\U{1F4E3}")
  }

  lemma WordCharIsPlain(c: char)
    requires 'a' <= c <= 'z' || 'A' <= c <= 'Z' || c in " :\n\U{1F4E3}"
    ensures !Markdown.IsReserved(c)
  {
  }

  lemma WordsAreLiteral(a: string)
    requires Words(a)
    ensures Markdown.WellEscaped(a)
  {
    forall i | 0 <= i < |a| ensures !Markdown.IsReserved(a[i]) {
      WordCharIsPlain(a[i]);
    }
    MarkdownV2.PlainIsWellEscaped(a);
  }

  /** Label words followed by literal text are literal text. */
  lemma WordsThen(a: string, b: string)
    requires Words(a) && Markdown.WellEscaped(b)
    ensures Markdown.WellEscaped(a + b)
  {
    WordsAreLiteral(a);
    Markdown.WellEscapedConcat(a, b);
  }

  // ---------------------------------------------------------------------------
  // Which texts Telegram accepts
  // ---------------------------------------------------------------------------

  /** Joining lines that each leave no entity open leaves none open. */
  lemma {:induction false} ScanJoin(lines: seq<string>, sep: string)
    requires forall i :: 0 <= i < |lines| ==> MarkdownV2.Scan(lines[i], []) == Some([])
    requires MarkdownV2.Scan(sep, []) == Some([])
    ensures MarkdownV2.Scan(Join(lines, sep), []) == Some([])
    decreases |lines|
  {
    if |lines| > 1 {
      var init := lines[..|lines| - 1];
      ScanJoin(init, sep);
      MarkdownV2.ScanConcat(Join(init, sep), sep, []);
      MarkdownV2.ScanConcat(Join(init, sep) + sep, lines[|lines| - 1], []);
    }
  }

  /** `*label*` followed by literal text. */
  lemma BoldLabelThen(name: string, rest: string)
    requires Words(name) && Markdown.WellEscaped(rest)
    ensures MarkdownV2.Scan(['*'] + name + ['*'] + rest, []) == Some([])
  {
    WordsAreLiteral(name);
    MarkdownV2.Delimited('*', name, []);
    MarkdownV2.ScanConcat(['*'] + name + ['*'], rest, []);
    MarkdownV2.ScanWellEscaped(rest, []);
  }

  /** Label words, then a bold label. */
  lemma WordsThenBold(line: string, words: string, name: string)
    requires Words(words) && Words(name)
    requires line == words + (['*'] + name + ['*'])
    ensures MarkdownV2.Scan(line, []) == Some([])
  {
    WordsAreLiteral(words);
    MarkdownV2.ScanWellEscaped(words, []);
    MarkdownV2.ScanConcat(words, ['*'] + name + ['*'], []);
    WordsAreLiteral(name);
    MarkdownV2.Delimited('*', name, []);
  }

  /** A bold label, label words, then an italic phrase. */
  lemma BoldThenItalic(line: string, name: string, words: string, phrase: string)
    requires Words(name) && Words(words) && Words(phrase)
    requires line == ['*'] + name + ['*'] + words + (['_'] + phrase + ['_'])
    ensures MarkdownV2.Scan(line, []) == Some([])
  {
    WordsAreLiteral(phrase);
    MarkdownV2.Delimited('_', phrase, []);
    WordsAreLiteral(words);
    BoldLabelThen(name, words);
    MarkdownV2.ScanConcat(['*'] + name + ['*'] + words, ['_'] + phrase + ['_'], []);
  }

  lemma TitleLineAccepted(title: string)
    requires title == "\U{1F4E3} *New Confession*"
    ensures MarkdownV2.Scan(title, []) == Some([])
  {
    assert Words("\U{1F4E3} ") && Words("New Confession");
    assert title == "\U{1F4E3} " + (['*'] + "New Confession" + ['*']);
    WordsThenBold(title, "\U{1F4E3} ", "New Confession");
  }

  /** A bold label, a space, then literal text: the "To" and "From" lines. */
  lemma LabelLineAccepted(line: string, prefix: string, name: string, value: string)
    requires Words(name) && Markdown.WellEscaped(value)
    requires prefix == ['*'] + name + ['*'] + " " && line == prefix + value
    ensures MarkdownV2.Scan(line, []) == Some([])
  {
    assert Words(" ");
    WordsThen(" ", value);
    BoldLabelThen(name, " " + value);
    assert line == ['*'] + name + ['*'] + (" " + value);
  }

  /** The two label prefixes of the template. */
  lemma LabelPrefix(prefix: string, name: string)
    requires (prefix == "*To:* " && name == "To:") || (prefix == "*From:* " && name == "From:")
    ensures prefix == ['*'] + name + ['*'] + " " && Words(name)
  {
  }

  lemma AnonymousLineAccepted(line: string)
    requires line == "*From:* " + "_Anonymous_"
    ensures MarkdownV2.Scan(line, []) == Some([])
  {
    assert Words("From:") && Words(" ") && Words("Anonymous");
    assert line == ['*'] + "From:" + ['*'] + " " + (['_'] + "Anonymous" + ['_']);
    BoldThenItalic(line, "From:", " ", "Anonymous");
  }

  lemma MessageLabelAccepted(line: string)
    requires line == "*Message:*"
    ensures MarkdownV2.Scan(line, []) == Some([])
  {
    assert Words("Message:");
    assert line == ['*'] + "Message:" + ['*'] + [];
    BoldLabelThen("Message:", []);
  }

  lemma TitleOfLinesAccepted(sub: Submission, meta: string)
    ensures MarkdownV2.Scan(Lines(sub, meta)[0], []) == Some([])
  {
    TitleLineAccepted(Lines(sub, meta)[0]);
  }

  lemma FromOfLinesAccepted(sub: Submission, meta: string)
    ensures MarkdownV2.Scan(Lines(sub, meta)[2], []) == Some([])
  {
    if sub.sender.Some? && sub.sender.value != "" {
      var prefix, name, value := "*From:* ", "From:", Markdown.EscapeMarkdown(sub.sender.value);
      Markdown.EscapeIsWellEscaped(sub.sender.value);
      LabelPrefix(prefix, name);
      LabelLineAccepted(Lines(sub, meta)[2], prefix, name, value);
    } else {
      AnonymousLineAccepted(Lines(sub, meta)[2]);
    }
  }

  lemma ToOfLinesAccepted(sub: Submission, meta: string)
    ensures MarkdownV2.Scan(Lines(sub, meta)[1], []) == Some([])
  {
    var prefix, name, value := "*To:* ", "To:", Markdown.EscapeMarkdown(sub.receiver);
    Markdown.EscapeIsWellEscaped(sub.receiver);
    LabelPrefix(prefix, name);
    LabelLineAccepted(Lines(sub, meta)[1], prefix, name, value);
  }

  lemma LabelOfLinesAccepted(sub: Submission, meta: string)
    ensures MarkdownV2.Scan(Lines(sub, meta)[3], []) == Some([])
  {
    MessageLabelAccepted(Lines(sub, meta)[3]);
  }

  /** Each of the first five lines is accepted on its own, whatever the submission. */
  lemma HeadLinesAccepted(sub: Submission, meta: string)
    ensures MarkdownV2.Scan(Lines(sub, meta)[0], []) == Some([])
    ensures MarkdownV2.Scan(Lines(sub, meta)[1], []) == Some([])
    ensures MarkdownV2.Scan(Lines(sub, meta)[2], []) == Some([])
    ensures MarkdownV2.Scan(Lines(sub, meta)[3], []) == Some([])
    ensures MarkdownV2.Scan(Lines(sub, meta)[4], []) == Some([])
  {
    TitleOfLinesAccepted(sub, meta);
    ToOfLinesAccepted(sub, meta);
    FromOfLinesAccepted(sub, meta);
    LabelOfLinesAccepted(sub, meta);
    MarkdownV2.ScanEscaped(sub.message, []);
  }

  /** Label words, then an italic run made of label words and literal text. */
  lemma WordsThenItalic(line: string, words: string, name: string, rest: string)
    requires Words(words) && Words(name) && Markdown.WellEscaped(rest)
    requires line == words + (['_'] + (name + rest) + ['_'])
    ensures MarkdownV2.Scan(line, []) == Some([])
  {
    WordsThen(name, rest);
    MarkdownV2.Delimited('_', name + rest, []);
    WordsAreLiteral(words);
    MarkdownV2.ScanWellEscaped(words, []);
    MarkdownV2.ScanConcat(words, ['_'] + (name + rest) + ['_'], []);
  }

  lemma EscapedParens(open: string, close: string)
    requires open == " \\(" && close == "\\)"
    ensures Markdown.WellEscaped(open) && Markdown.WellEscaped(close)
  {
    assert Markdown.IsReserved('(') && Markdown.IsReserved(')');
    assert open[1..][2..] == [] && close[2..] == [];
  }

  lemma LiteralRun(source: string, open: string, stamp: string, close: string)
    requires Markdown.WellEscaped(source) && Markdown.WellEscaped(open)
    requires Markdown.WellEscaped(stamp) && Markdown.WellEscaped(close)
    ensures Markdown.WellEscaped(source + (open + (stamp + close)))
  {
    Markdown.WellEscapedConcat(stamp, close);
    Markdown.WellEscapedConcat(open, stamp + close);
    Markdown.WellEscapedConcat(source, open + (stamp + close));
  }

  /** The template pieces around the metadata line's values, cut at its italic markers. */
  lemma MetaPieces(head: string, tail: string)
    requires head == "\n_meta: " && tail == "\\)_"
    ensures head == "\n" + ['_'] + "meta: " && tail == "\\)" + ['_']
    ensures Words("\n") && Words("meta: ")
  {
  }

  /** Literal text after a prefix leaves the entities the prefix left open. */
  lemma ThenLiteral(prefix: string, piece: string, open: seq<MarkdownV2.Entity>)
    requires MarkdownV2.Scan(prefix, []) == Some(open) && Markdown.WellEscaped(piece)
    ensures MarkdownV2.Scan(prefix + piece, []) == Some(open)
  {
    MarkdownV2.ScanConcat(prefix, piece, []);
    MarkdownV2.ScanWellEscaped(piece, open);
  }

  /** An italic marker after a prefix toggles italic. */
  lemma ThenItalicMarker(prefix: string, open: seq<MarkdownV2.Entity>, after: seq<MarkdownV2.Entity>)
    requires MarkdownV2.Scan(prefix, []) == Some(open)
    requires (open == [] && after == [MarkdownV2.Italic]) || (open == [MarkdownV2.Italic] && after == [])
    ensures MarkdownV2.Scan(prefix + ['_'], []) == Some(after)
  {
    MarkdownV2.ScanConcat(prefix, ['_'], []);
    var t: string := ['_'];
    assert t[0] == '_' && t[1..] == [];
    if open == [] {
      assert open + [MarkdownV2.Italic] == after;
      assert MarkdownV2.Toggle(open, MarkdownV2.Italic) == Some(after);
    } else {
      assert open[..0] == [];
      assert MarkdownV2.Toggle(open, MarkdownV2.Italic) == Some(after);
    }
    assert MarkdownV2.Scan(t, open) == MarkdownV2.Scan([], after);
  }

  /** Label words, then an italic run of label words and four pieces of literal text. */
  lemma ItalicMetaShape(line: string, nl: string, name: string, source: string, open: string, stamp: string, close: string)
    requires Words(nl) && Words(name)
    requires Markdown.WellEscaped(source) && Markdown.WellEscaped(open)
    requires Markdown.WellEscaped(stamp) && Markdown.WellEscaped(close)
    requires line == nl + ['_'] + name + source + open + stamp + close + ['_']
    ensures MarkdownV2.Scan(line, []) == Some([])
  {
    var italic := [MarkdownV2.Italic];
    WordsAreLiteral(nl);
    MarkdownV2.ScanWellEscaped(nl, []);
    ThenItalicMarker(nl, [], italic);
    WordsAreLiteral(name);
    ThenLiteral(nl + ['_'], name, italic);
    ThenLiteral(nl + ['_'] + name, source, italic);
    ThenLiteral(nl + ['_'] + name + source, open, italic);
    ThenLiteral(nl + ['_'] + name + source + open, stamp, italic);
    ThenLiteral(nl + ['_'] + name + source + open + stamp, close, italic);
    ThenItalicMarker(nl + ['_'] + name + source + open + stamp + close, italic, []);
  }

  /** The corrected metadata line is accepted whatever literal text stands for the source and the time. */
  lemma MetaLineShapeAccepted(line: string, source: string, stamp: string)
    requires Markdown.WellEscaped(source) && Markdown.WellEscaped(stamp)
    requires line == "\n_meta: " + source + " \\(" + stamp + "\\)_"
    ensures MarkdownV2.Scan(line, []) == Some([])
  {
    var head, open, tail := "\n_meta: ", " \\(", "\\)_";
    MetaPieces(head, tail);
    EscapedParens(open, "\\)");
    ItalicMetaShape(line, "\n", "meta: ", source, open, stamp, "\\)");
  }

  /** Six lines that each leave no entity open. */
  lemma SixLinesAccepted(lines: seq<string>)
    requires |lines| == 6
    requires MarkdownV2.Scan(lines[0], []) == Some([]) && MarkdownV2.Scan(lines[1], []) == Some([])
    requires MarkdownV2.Scan(lines[2], []) == Some([]) && MarkdownV2.Scan(lines[3], []) == Some([])
    requires MarkdownV2.Scan(lines[4], []) == Some([]) && MarkdownV2.Scan(lines[5], []) == Some([])
    ensures MarkdownV2.Scan(Join(lines, "\n"), []) == Some([])
  {
    assert Words("\n");
    WordsAreLiteral("\n");
    MarkdownV2.ScanWellEscaped("\n", []);
    ScanJoin(lines, "\n");
  }

  /**
    The corrected text is accepted by Telegram for every submission and every
    timestamp: no user-supplied value can open, close or break an entity.
  */
  lemma TextAccepted(sub: Submission, timestamp: string)
    ensures MarkdownV2.Accepted(Text(sub, timestamp))
  {
    var meta := MetaLine(sub.source, timestamp);
    HeadLinesAccepted(sub, meta);
    Markdown.EscapeIsWellEscaped(sub.source);
    Markdown.EscapeIsWellEscaped(timestamp);
    MetaLineShapeAccepted(meta, Markdown.EscapeMarkdown(sub.source), Markdown.EscapeMarkdown(timestamp));
    SixLinesAccepted(Lines(sub, meta));
  }

  /** Label words, an italic marker, label words, literal text, label words, then a bare `(`. */
  lemma RefusedMetaShape(line: string, nl: string, name: string, source: string, sp: string, stamp: string, close: string)
    requires Words(nl) && Words(name) && Words(sp) && Markdown.WellEscaped(source)
    requires line == nl + ['_'] + name + source + (sp + ['(']) + stamp + close
    ensures MarkdownV2.Scan(line, []) == None
  {
    var italic := [MarkdownV2.Italic];
    WordsAreLiteral(nl);
    MarkdownV2.ScanWellEscaped(nl, []);
    ThenItalicMarker(nl, [], italic);
    WordsAreLiteral(name);
    ThenLiteral(nl + ['_'], name, italic);
    ThenLiteral(nl + ['_'] + name, source, italic);
    WordsAreLiteral(sp);
    var prefix := nl + ['_'] + name + source + sp;
    ThenLiteral(nl + ['_'] + name + source, sp, italic);
    assert line == prefix + (['('] + (stamp + close));
    MarkdownV2.ScanConcat(prefix, ['('] + (stamp + close), []);
    assert Markdown.IsReserved('(');
    MarkdownV2.UnescapedReservedRefused('(', stamp + close, italic);
  }

  /** The metadata line as written is refused: its `(` is a reserved character left bare. */
  lemma MetaAsWrittenRefused(line: string, source: string, stamp: string)
    requires Markdown.WellEscaped(source)
    requires line == "\n_meta: " + source + " (" + stamp + ")"
    ensures MarkdownV2.Scan(line, []) == None
  {
    var head, tail, paren := "\n_meta: ", "\\)_", " (";
    MetaPieces(head, tail);
    assert paren == " " + ['('] && Words(" ");
    RefusedMetaShape(line, "\n", "meta: ", source, " ", stamp, ")");
  }

  /** Six lines joined: the first five joined, a separator, then the last. */
  lemma JoinLast(lines: seq<string>, sep: string)
    requires |lines| == 6
    ensures Join(lines, sep) == Join(lines[..5], sep) + sep + lines[5]
  {
  }

  /** Five lines that each leave no entity open, then a refused line. */
  lemma SixLinesRefused(lines: seq<string>)
    requires |lines| == 6
    requires MarkdownV2.Scan(lines[0], []) == Some([]) && MarkdownV2.Scan(lines[1], []) == Some([])
    requires MarkdownV2.Scan(lines[2], []) == Some([]) && MarkdownV2.Scan(lines[3], []) == Some([])
    requires MarkdownV2.Scan(lines[4], []) == Some([]) && MarkdownV2.Scan(lines[5], []) == None
    ensures MarkdownV2.Scan(Join(lines, "\n"), []) == None
  {
    var init := lines[..5];
    assert forall i :: 0 <= i < |init| ==> init[i] == lines[i];
    assert Words("\n");
    WordsAreLiteral("\n");
    MarkdownV2.ScanWellEscaped("\n", []);
    ScanJoin(init, "\n");
    ThenLiteral(Join(init, "\n"), "\n", []);
    MarkdownV2.ScanConcat(Join(init, "\n") + "\n", lines[5], []);
    JoinLast(lines, "\n");
  }

  /**
    The text as the handler writes it is refused by Telegram for every
    submission and every timestamp: the bare `(` of the metadata line is a
    reserved character.
  */
  lemma TextAsWrittenRefused(sub: Submission, timestamp: string)
    ensures MarkdownV2.Scan(TextAsWritten(sub, timestamp), []) == None
    ensures !MarkdownV2.Accepted(TextAsWritten(sub, timestamp))
  {
    var meta := MetaLineAsWritten(sub.source, timestamp);
    HeadLinesAccepted(sub, meta);
    Markdown.EscapeIsWellEscaped(sub.source);
    MetaAsWrittenRefused(meta, Markdown.EscapeMarkdown(sub.source), timestamp);
    SixLinesRefused(Lines(sub, meta));
  }

  /** Without a sender, the "From" line shows the italic placeholder and never an empty value. */
  lemma AnonymousFromLine(sub: Submission, meta: string)
    requires sub.sender.None? || sub.sender.value == ""
    ensures Lines(sub, meta)[2] == "*From:* _Anonymous_"
  {
    var line, name, anonymous := "*From:* _Anonymous_", "*From:* ", "_Anonymous_";
    AnonymousLiteral(line, name, anonymous);
    FromLineOf(sub, meta);
    assert FromValue(sub.sender) == anonymous;
  }

  lemma FromLineOf(sub: Submission, meta: string)
    ensures Lines(sub, meta)[2] == "*From:* " + FromValue(sub.sender)
  {
  }

  lemma AnonymousLiteral(line: string, name: string, anonymous: string)
    requires line == "*From:* _Anonymous_" && name == "*From:* " && anonymous == "_Anonymous_"
    ensures line == name + anonymous
  {
  }

  lemma PrefixCancel(p: string, v: string, w: string)
    requires p + v == p + w
    ensures v == w
  {
    assert v == (p + v)[|p|..];
  }

  /** No sender can pass for anonymous: a sender literally named `_Anonymous_` is shown escaped. */
  lemma SenderNeverShownAsAnonymous(sub: Submission, meta: string)
    requires sub.sender.Some? && sub.sender.value != ""
    ensures Lines(sub, meta)[2] != "*From:* _Anonymous_"
  {
    var name, anonymous := "*From:* ", "_Anonymous_";
    var shown := FromValue(sub.sender);
    assert shown != anonymous;
    AnonymousFromLine(Submission("", "", None, ""), meta);
    if Lines(sub, meta)[2] == "*From:* _Anonymous_" {
      PrefixCancel(name, shown, anonymous);
    }
  }
}
