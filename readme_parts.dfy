/** `ReadmeParts` of `boardgen/readme/parts.py`: the Markdown builders
    behind a board's README. Every `add_*` appends exactly one element to
    `items`; the table builder pads every column to its widest cell. */
module ReadmeParts {
  import opened Wrappers
  import opened Text

  function Max(a: nat, b: nat): nat {
    if a >= b then a else b
  }

  // ---------------------------------------------------------------------
  // Padding, headings, links and images

  /** `pad(s, i)` is `PadRight(s, i)`: it starts with `s`, fills up with
      spaces, and is `max(len(s), i)` long (a short `i` never cuts). */
  lemma PadFacts(s: string, i: int)
    ensures |PadRight(s, i)| == if i > |s| then i else |s|
    ensures PadRight(s, i)[..|s|] == s
    ensures forall k :: |s| <= k < |PadRight(s, i)| ==> PadRight(s, i)[k] == ' '
  {
  }

  /** `level * "#" + " " + text` */
  function Heading(text: string, level: int): (r: string)
    ensures var n := if level < 0 then 0 else level;
            && |r| == n + 1 + |text|
            && (forall k :: 0 <= k < n ==> r[k] == '#')
            && r[n] == ' ' && r[n + 1..] == text
  {
    Repeat('#', level) + " " + text
  }

  /** The number of `#` a line starts with. */
  function LeadingHashes(s: string): nat
    decreases |s|
  {
    if s != [] && s[0] == '#' then 1 + LeadingHashes(s[1..]) else 0
  }

  /** The heading level reads back from the heading: the run of `#` ends
      at the space, whatever the text holds. */
  lemma HeadingLevel(text: string, level: int)
    ensures LeadingHashes(Heading(text, level)) == if level < 0 then 0 else level
  {
    HashesBefore(Repeat('#', level), " " + text);
    assert Heading(text, level) == Repeat('#', level) + (" " + text);
  }

  lemma {:induction false} HashesBefore(hashes: string, rest: string)
    requires forall k :: 0 <= k < |hashes| ==> hashes[k] == '#'
    ensures LeadingHashes(hashes + rest) == |hashes| + LeadingHashes(rest)
    decreases |hashes|
  {
    if hashes != [] {
      assert (hashes + rest)[0] == hashes[0] == '#';
      assert (hashes + rest)[1..] == hashes[1..] + rest;
      assert LeadingHashes(hashes + rest) == 1 + LeadingHashes(hashes[1..] + rest);
      assert forall k :: 0 <= k < |hashes[1..]| ==> hashes[1..][k] == hashes[k + 1];
      HashesBefore(hashes[1..], rest);
    } else {
      assert hashes + rest == rest;
    }
  }

  /** `f"[{text}]({href})"` */
  function Link(text: string, href: string): string {
    "[" + text + "](" + href + ")"
  }

  /** `f"![{alt}]({src})"` */
  function Img(alt: string, src: string): string {
    "![" + alt + "](" + src + ")"
  }

  /** The text and the target of a Markdown link: the text runs to the
      first `]`, which `(` must follow. */
  function ParseLink(s: string): (r: Option<(string, string)>)
    ensures r.Some? ==> Link(r.value.0, r.value.1) == s && ']' !in r.value.0
  {
    if |s| < 4 || s[0] != '[' || s[|s| - 1] != ')' then None
    else
      var (text, found, rest) := Partition(s[1..|s| - 1], ']');
      if !found || rest == [] || rest[0] != '(' then None
      else
        assert s == [s[0]] + s[1..|s| - 1] + [s[|s| - 1]];
        assert rest == [rest[0]] + rest[1..];
        Some((text, rest[1..]))
  }

  /** A link whose text has no `]` reads back as its text and target. */
  lemma LinkRoundTrip(text: string, href: string)
    requires ']' !in text
    ensures ParseLink(Link(text, href)) == Some((text, href))
  {
    var s := Link(text, href);
    assert s[1..|s| - 1] == text + [']'] + ("(" + href);
    PartitionFirst(text, "(" + href, ']');
    assert ("(" + href)[1..] == href;
  }

  /** An image is a link marked with `!`. */
  lemma ImgIsMarkedLink(alt: string, src: string)
    ensures Img(alt, src) == "!" + Link(alt, src)
    ensures ']' !in alt ==> ParseLink(Img(alt, src)[1..]) == Some((alt, src))
  {
    assert Img(alt, src)[1..] == Link(alt, src);
    if ']' !in alt {
      LinkRoundTrip(alt, src);
    }
  }

  // ---------------------------------------------------------------------
  // Text, lists and code blocks

  /** `" ".join(text)` */
  function Words(texts: seq<string>): string {
    Join(" ", texts)
  }

  /** `style + " ".join(text) + style` */
  function Styled(style: string, texts: seq<string>): (r: string)
    ensures |r| == 2 * |style| + |Words(texts)|
    ensures r[..|style|] == style && r[|r| - |style|..] == style
    ensures r[|style|..|r| - |style|] == Words(texts)
  {
    style + Words(texts) + style
  }

  /** Words without spaces split back out of the joined text. */
  lemma WordsSplit(texts: seq<string>)
    requires texts != []
    requires forall k :: 0 <= k < |texts| ==> ' ' !in texts[k]
    ensures Split(Words(texts), ' ') == texts
  {
    JoinSplit(texts, ' ');
  }

  /** `[" ".join(i) for i in items]` */
  function ItemTexts(items: seq<seq<string>>): (r: seq<string>)
    ensures |r| == |items| && forall k :: 0 <= k < |items| ==> r[k] == Words(items[k])
  {
    seq(|items|, k requires 0 <= k < |items| => Words(items[k]))
  }

  /** `"- " + "\n- ".join(items)` */
  function List(items: seq<seq<string>>): string {
    "- " + Join("\n- ", ItemTexts(items))
  }

  /** Every text with a bullet in front. */
  function Bulleted(texts: seq<string>): (r: seq<string>)
    ensures |r| == |texts| && forall k :: 0 <= k < |texts| ==> r[k] == "- " + texts[k]
  {
    seq(|texts|, k requires 0 <= k < |texts| => "- " + texts[k])
  }

  lemma {:induction false} BulletJoin(texts: seq<string>)
    requires texts != []
    ensures "- " + Join("\n- ", texts) == Join("\n", Bulleted(texts))
    decreases |texts|
  {
    if |texts| > 1 {
      BulletJoin(texts[1..]);
      assert Bulleted(texts)[1..] == Bulleted(texts[1..]);
    }
  }

  /** A list is one bulleted line per item, as long as no item spans
      lines; with no items it is a lone bullet. */
  lemma ListLines(items: seq<seq<string>>)
    requires forall k, j :: 0 <= k < |items| && 0 <= j < |items[k]| ==> '\n' !in items[k][j]
    ensures items == [] ==> List(items) == "- "
    ensures items != [] ==> Split(List(items), '\n') == Bulleted(ItemTexts(items))
  {
    if items != [] {
      var texts := ItemTexts(items);
      BulletJoin(texts);
      forall k | 0 <= k < |texts|
        ensures '\n' !in Bulleted(texts)[k]
      {
        JoinAvoids(" ", items[k], '\n');
      }
      JoinSplit(Bulleted(texts), '\n');
    }
  }

  /** The code argument of `add_code`: a string or a list of lines. */
  datatype Code = CodeText(text: string) | CodeLines(lines: seq<string>)

  /** `"\n".join(code)` for a list, the string itself otherwise. */
  function Body(code: Code): string {
    match code
    case CodeText(text) => text
    case CodeLines(lines) => Join("\n", lines)
  }

  /** A falsy language is written as no language. */
  function LangOf(lang: Option<string>): string {
    if lang.None? then "" else lang.value
  }

  /** ``f"```{lang}\n{code}\n```"`` */
  function CodeBlock(code: Code, lang: Option<string>): string {
    "```" + LangOf(lang) + "\n" + Body(code) + "\n```"
  }

  /** A code block is a fence line with the language, the lines of the
      code, and a closing fence line; a list of lines gives exactly those
      lines. */
  lemma CodeBlockLines(code: Code, lang: Option<string>)
    requires '\n' !in LangOf(lang)
    ensures Split(CodeBlock(code, lang), '\n') == ["```" + LangOf(lang)] + Split(Body(code), '\n') + ["```"]
    ensures code.CodeLines? && code.lines != [] && (forall k :: 0 <= k < |code.lines| ==> '\n' !in code.lines[k]) ==>
              Split(Body(code), '\n') == code.lines
  {
    var fence := "```" + LangOf(lang);
    var body := Body(code);
    assert CodeBlock(code, lang) == fence + ['\n'] + (body + ['\n'] + "```");
    SplitAppend(fence, body + ['\n'] + "```", '\n');
    SplitAppend(body, "```", '\n');
    assert '\n' !in fence;
    SplitFree(fence, '\n');
    SplitFree("```", '\n');
    if code.CodeLines? && code.lines != [] && (forall k :: 0 <= k < |code.lines| ==> '\n' !in code.lines[k]) {
      JoinSplit(code.lines, '\n');
    }
  }

  // ---------------------------------------------------------------------
  // Tables

  /** `[len(h) for h in header]` */
  function Lengths(cells: seq<string>): (w: seq<nat>)
    ensures |w| == |cells| && forall i :: 0 <= i < |cells| ==> w[i] == |cells[i]|
  {
    seq(|cells|, i requires 0 <= i < |cells| => |cells[i]|)
  }

  /** One row of the width loop: `maxlen[i] = max(maxlen[i], len(col))`
      for every column of the row; a row with more columns than the header
      runs off `maxlen`. */
  function Widened(w: seq<nat>, row: seq<string>): (r: Result<seq<nat>>)
    ensures r.Ok? ==> |r.value| == |w|
  {
    if |row| > |w| then Err(IndexError)
    else Ok(seq(|w|, i requires 0 <= i < |w| => if i < |row| then Max(w[i], |row[i]|) else w[i]))
  }

  /** `maxlen` after the rows. */
  function Widths(header: seq<string>, rows: seq<seq<string>>): Result<seq<nat>>
    decreases |rows|
  {
    if rows == [] then Ok(Lengths(header))
    else
      var w :- Widths(header, rows[..|rows| - 1]);
      Widened(w, rows[|rows| - 1])
  }

  /** The widths exist exactly when no row is wider than the header, and
      there is one per header cell. */
  lemma {:induction false} WidthsOk(header: seq<string>, rows: seq<seq<string>>)
    ensures Widths(header, rows).Ok? <==> forall k :: 0 <= k < |rows| ==> |rows[k]| <= |header|
    ensures Widths(header, rows).Err? ==> Widths(header, rows).error == IndexError
    ensures Widths(header, rows).Ok? ==> |Widths(header, rows).value| == |header|
    decreases |rows|
  {
    if rows != [] {
      var init := rows[..|rows| - 1];
      WidthsOk(header, init);
      assert forall k :: 0 <= k < |init| ==> init[k] == rows[k];
    }
  }

  /** Each column is as wide as its widest cell, the header included: no
      cell is wider, and the header cell or some row's cell is exactly
      that wide. */
  lemma {:induction false} WidthsMaxima(header: seq<string>, rows: seq<seq<string>>)
    requires Widths(header, rows).Ok?
    ensures var w := Widths(header, rows).value;
            && |w| == |header|
            && (forall k :: 0 <= k < |rows| ==> |rows[k]| <= |w|)
            && (forall i :: 0 <= i < |w| ==> |header[i]| <= w[i])
            && (forall k, i :: 0 <= k < |rows| && 0 <= i < |rows[k]| ==> |rows[k][i]| <= w[i])
            && (forall i :: 0 <= i < |w| ==>
                  w[i] == |header[i]| || exists k :: 0 <= k < |rows| && i < |rows[k]| && w[i] == |rows[k][i]|)
    decreases |rows|
  {
    WidthsOk(header, rows);
    if rows != [] {
      var n := |rows| - 1;
      var init := rows[..n];
      WidthsMaxima(header, init);
      var w0 := Widths(header, init).value;
      var w := Widths(header, rows).value;
      assert w == Widened(w0, rows[n]).value;
      forall k | 0 <= k < n
        ensures rows[k] == init[k]
      {
      }
      forall i | 0 <= i < |w|
        ensures w[i] == |header[i]| || exists k :: 0 <= k < |rows| && i < |rows[k]| && w[i] == |rows[k][i]|
      {
        if w[i] != w0[i] {
          assert w[i] == |rows[n][i]|;
        } else if w0[i] != |header[i]| {
          var k :| 0 <= k < |init| && i < |init[k]| && w0[i] == |init[k][i]|;
          assert rows[k] == init[k];
        }
      }
    }
  }

  /** `[self.pad(h, maxlen[i]) for i, h in enumerate(cells)]` */
  function Padded(cells: seq<string>, w: seq<nat>): (r: seq<string>)
    requires |cells| <= |w|
    ensures |r| == |cells| && forall i :: 0 <= i < |cells| ==> r[i] == PadRight(cells[i], w[i])
  {
    seq(|cells|, i requires 0 <= i < |cells| => PadRight(cells[i], w[i]))
  }

  /** `" | ".join(padded).rstrip()` */
  function Line(cells: seq<string>, w: seq<nat>): string
    requires |cells| <= |w|
  {
    RStrip(Join(" | ", Padded(cells, w)))
  }

  /** `["-" * i for i in maxlen]` */
  function Dashes(w: seq<nat>): (r: seq<string>)
    ensures |r| == |w| && forall i :: 0 <= i < |w| ==> r[i] == Repeat('-', w[i])
  {
    seq(|w|, i requires 0 <= i < |w| => Repeat('-', w[i]))
  }

  /** `"-|-".join(underline).rstrip()` */
  function Underline(w: seq<nat>): string {
    RStrip(Join("-|-", Dashes(w)))
  }

  /** No line has more cells than there are widths. */
  predicate Fits(header: seq<string>, rows: seq<seq<string>>, w: seq<nat>) {
    |header| <= |w| && forall k :: 0 <= k < |rows| ==> |rows[k]| <= |w|
  }

  /** The header line, the underline, then one line per row. */
  function TableLines(header: seq<string>, rows: seq<seq<string>>, w: seq<nat>): seq<string>
    requires Fits(header, rows, w)
  {
    [Line(header, w), Underline(w)] + seq(|rows|, k requires 0 <= k < |rows| => Line(rows[k], w))
  }

  /** `"\n".join(lines)`, or the `IndexError` of a row wider than the
      header. */
  function Table(header: seq<string>, rows: seq<seq<string>>): Result<string> {
    var w :- Widths(header, rows);
    WidthsOk(header, rows);
    Ok(Join("\n", TableLines(header, rows, w)))
  }

  /** Every padded cell is exactly as wide as its column and starts with
      the cell's text, so the separators line up from line to line. */
  lemma PaddedAligned(header: seq<string>, rows: seq<seq<string>>)
    requires Widths(header, rows).Ok?
    ensures var w := Widths(header, rows).value;
            && Fits(header, rows, w)
            && (forall i :: 0 <= i < |header| ==>
                  |Padded(header, w)[i]| == w[i] && Padded(header, w)[i][..|header[i]|] == header[i])
            && (forall k, i :: 0 <= k < |rows| && 0 <= i < |rows[k]| ==>
                  |Padded(rows[k], w)[i]| == w[i] && Padded(rows[k], w)[i][..|rows[k][i]|] == rows[k][i])
  {
    WidthsMaxima(header, rows);
    WidthsOk(header, rows);
  }

  /** The underline is only dashes and bars, so stripping keeps it whole;
      each of its pieces is as wide as its column. */
  lemma UnderlineWhole(w: seq<nat>)
    ensures Underline(w) == Join("-|-", Dashes(w))
  {
    DashesJoin(Dashes(w));
  }

  lemma {:induction false} DashesJoin(parts: seq<string>)
    requires forall k, j :: 0 <= k < |parts| && 0 <= j < |parts[k]| ==> parts[k][j] == '-'
    ensures var s := Join("-|-", parts); s == [] || s[|s| - 1] == '-'
    ensures RStrip(Join("-|-", parts)) == Join("-|-", parts)
    decreases |parts|
  {
    if |parts| > 1 {
      DashesJoin(parts[1..]);
      var rest := Join("-|-", parts[1..]);
      var s := parts[0] + "-|-" + rest;
      assert s[|s| - 1] == if rest == [] then '-' else rest[|rest| - 1];
    }
  }

  /** No cell spans lines, so a table's text splits at its newlines back
      into exactly `2 + len(rows)` lines: the header, the underline and
      one per row. */
  lemma TableLinesSplit(header: seq<string>, rows: seq<seq<string>>)
    requires Table(header, rows).Ok?
    requires forall i :: 0 <= i < |header| ==> '\n' !in header[i]
    requires forall k, i :: 0 <= k < |rows| && 0 <= i < |rows[k]| ==> '\n' !in rows[k][i]
    ensures var w := Widths(header, rows).value;
            && Fits(header, rows, w)
            && |TableLines(header, rows, w)| == |rows| + 2
            && Split(Table(header, rows).value, '\n') == TableLines(header, rows, w)
  {
    WidthsOk(header, rows);
    var w := Widths(header, rows).value;
    var lines := TableLines(header, rows, w);
    LineFree(header, w);
    UnderlineWhole(w);
    forall i | 0 <= i < |w|
      ensures '\n' !in Dashes(w)[i]
    {
    }
    JoinAvoids("-|-", Dashes(w), '\n');
    forall k | 0 <= k < |lines|
      ensures '\n' !in lines[k]
    {
      if k >= 2 {
        LineFree(rows[k - 2], w);
      }
    }
    JoinSplit(lines, '\n');
  }

  /** A line of cells without newlines has none. */
  lemma LineFree(cells: seq<string>, w: seq<nat>)
    requires |cells| <= |w|
    requires forall i :: 0 <= i < |cells| ==> '\n' !in cells[i]
    ensures '\n' !in Line(cells, w)
  {
    var p := Padded(cells, w);
    forall i | 0 <= i < |p|
      ensures '\n' !in p[i]
    {
      assert '\n' !in Repeat(' ', w[i] - |cells[i]|);
    }
    JoinAvoids(" | ", p, '\n');
    var s := Join(" | ", p);
    RStripFacts(s);
    assert forall c :: c in RStrip(s) ==> c in s;
  }

  /** The width loop of `add_table`. */
  method ColumnWidths(header: seq<string>, rows: seq<seq<string>>) returns (r: Result<seq<nat>>)
    ensures r == Widths(header, rows)
  {
    var maxlen := Lengths(header);
    assert rows[..0] == [];
    for j := 0 to |rows|
      invariant Widths(header, rows[..j]) == Ok(maxlen)
      invariant |maxlen| == |header|
    {
      var row := rows[j];
      var before := maxlen;
      for i := 0 to |row|
        invariant |maxlen| == |before| && i <= |maxlen|
        invariant forall c :: 0 <= c < |maxlen| ==> maxlen[c] == if c < i then Max(before[c], |row[c]|) else before[c]
      {
        if i >= |maxlen| {
          assert rows[..j + 1][..j] == rows[..j];
          WidthsStop(header, rows, j + 1);
          return Err(IndexError);
        }
        maxlen := maxlen[i := Max(maxlen[i], |row[i]|)];
      }
      assert rows[..j + 1][..j] == rows[..j];
      assert |row| <= |before|;
      assert Widened(before, row).value == maxlen;
    }
    assert rows[..|rows|] == rows;
    return Ok(maxlen);
  }

  /** A failing row fails the whole table. */
  lemma {:induction false} WidthsStop(header: seq<string>, rows: seq<seq<string>>, j: nat)
    requires j <= |rows| && Widths(header, rows[..j]).Err?
    ensures Widths(header, rows) == Widths(header, rows[..j])
    decreases |rows| - j
  {
    if j < |rows| {
      assert rows[..j + 1][..j] == rows[..j];
      WidthsStop(header, rows, j + 1);
    } else {
      assert rows[..j] == rows;
    }
  }

  /** The line loop of `add_table`. */
  method FormatLines(header: seq<string>, rows: seq<seq<string>>, w: seq<nat>) returns (lines: seq<string>)
    requires Fits(header, rows, w)
    ensures lines == TableLines(header, rows, w)
  {
    lines := [Line(header, w)];
    lines := lines + [Underline(w)];
    for k := 0 to |rows|
      invariant lines == [Line(header, w), Underline(w)] + seq(k, j requires 0 <= j < k => Line(rows[j], w))
    {
      lines := lines + [Line(rows[k], w)];
    }
  }

  // ---------------------------------------------------------------------
  // The builder

  /** The README being built: its items, joined by blank lines when
      saved. */
  class Readme {
    var items: seq<string>

    constructor()
      ensures items == []
    {
      items := [];
    }

    method AddHeading(text: string, level: int)
      modifies this
      ensures items == old(items) + [Heading(text, level)]
    {
      items := items + [Heading(text, level)];
    }

    method AddLink(text: string, href: string)
      modifies this
      ensures items == old(items) + [Link(text, href)]
    {
      items := items + [Link(text, href)];
    }

    method AddImg(alt: string, src: string)
      modifies this
      ensures items == old(items) + [Img(alt, src)]
    {
      items := items + [Img(alt, src)];
    }

    method AddText(texts: seq<string>)
      modifies this
      ensures items == old(items) + [Words(texts)]
    {
      items := items + [Words(texts)];
    }

    method AddStyled(style: string, texts: seq<string>)
      modifies this
      ensures items == old(items) + [Styled(style, texts)]
    {
      items := items + [Styled(style, texts)];
    }

    method AddList(lists: seq<seq<string>>)
      modifies this
      ensures items == old(items) + [List(lists)]
    {
      items := items + [List(lists)];
    }

    method AddCode(code: Code, lang: Option<string>)
      modifies this
      ensures items == old(items) + [CodeBlock(code, lang)]
    {
      items := items + [CodeBlock(code, lang)];
    }

    /** The widths first: a row wider than the header raises before
        anything is appended. */
    method AddTable(header: seq<string>, rows: seq<seq<string>>) returns (r: Result<()>)
      modifies this
      ensures Table(header, rows).Ok? ==> r == Ok(()) && items == old(items) + [Table(header, rows).value]
      ensures Table(header, rows).Err? ==> r == Err(Table(header, rows).error) && items == old(items)
    {
      var w := ColumnWidths(header, rows);
      if w.Err? {
        return Err(w.error);
      }
      WidthsOk(header, rows);
      var lines := FormatLines(header, rows, w.value);
      items := items + [Join("\n", lines)];
      return Ok(());
    }
  }
}
