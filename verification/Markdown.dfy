/**
 The two markdown translators: WhatsApp to Chatwoot (src/chatwoot/integration.py) and Chatwoot to
 WhatsApp (src/chatwoot/webhook_handler.py), each a chain of regex substitutions with NUL-delimited
 sentinels in the middle. On flat documents they undo each other, except where plain text spells a
 sentinel between two spans; the exception is exact.
 */
module Markdown {
  import opened Wrappers

  // ---- re.sub for the pattern family in use ----

  /**
   `open` copies of `mark`, a run of one or more other characters, `open` copies of `mark`; when
   guarded, not preceded and not followed by another `mark`.
   */
  datatype Pattern = Pattern(mark: char, open: nat, guarded: bool)

  function Copies(c: char, n: nat): (s: string)
    ensures |s| == n && forall i :: 0 <= i < n ==> s[i] == c
  {
    if n == 0 then "" else [c] + Copies(c, n - 1)
  }

  /** The length of the longest prefix without `c`. */
  function Run(s: string, c: char): (n: nat)
    ensures n <= |s| && (forall i :: 0 <= i < n ==> s[i] != c) && (n < |s| ==> s[n] == c)
  {
    if s == "" || s[0] == c then 0 else 1 + Run(s[1..], c)
  }

  predicate Marks(s: string, c: char, n: nat) {
    Copies(c, n) <= s
  }

  /** The length of the body if the pattern matches at the head of `s`, `prev` being the character before. */
  function Body(p: Pattern, prev: Option<char>, s: string): (n: Option<nat>)
    ensures n.Some? ==> n.value >= 1 && 2 * p.open + n.value <= |s|
  {
    if !Marks(s, p.mark, p.open) then None
    else
      var n := Run(s[p.open..], p.mark);
      var rest := s[p.open + n..];
      if n == 0 || !Marks(rest, p.mark, p.open) then None
      else if p.guarded && (prev == Some(p.mark) || (|rest| > p.open && rest[p.open] == p.mark)) then None
      else Some(n)
  }

  /** A match with a body of length `n`, spelled out position by position; no choice of where to backtrack is left. */
  ghost predicate Matches(p: Pattern, prev: Option<char>, s: string, n: nat) {
    && n >= 1 && 2 * p.open + n <= |s|
    && (forall i :: 0 <= i < p.open ==> s[i] == p.mark)
    && (forall i :: p.open <= i < p.open + n ==> s[i] != p.mark)
    && (forall i :: p.open + n <= i < 2 * p.open + n ==> s[i] == p.mark)
    && (p.guarded ==> prev != Some(p.mark) && (2 * p.open + n < |s| ==> s[2 * p.open + n] != p.mark))
  }

  /** Leftmost, non-overlapping substitution, scanning on after each match. */
  function Sub(p: Pattern, lhs: string, rhs: string, prev: Option<char>, s: string): string
    decreases |s|
  {
    if s == "" then ""
    else
      var n := Body(p, prev, s);
      if n.Some? then
        lhs + s[p.open..p.open + n.value] + rhs + Sub(p, lhs, rhs, Some(p.mark), s[2 * p.open + n.value..])
      else [s[0]] + Sub(p, lhs, rhs, Some(s[0]), s[1..])
  }

  /** `str.replace`. */
  function Replace(s: string, token: string, sub: string): string
    decreases |s|
  {
    if s == "" then ""
    else if token != "" && token <= s then sub + Replace(s[|token|..], token, sub)
    else [s[0]] + Replace(s[1..], token, sub)
  }

  // ---- The translators ----

  const NUL: char := '\0'

  function Sentinel(name: string): string {
    [NUL] + name + [NUL]
  }

  /** The two sentinels of a masked span become single asterisks. */
  function Unmask(first: string, last: string, s: string): string {
    Replace(Replace(s, Sentinel(first), "*"), Sentinel(last), "*")
  }

  function ToChatwoot(content: string): string {
    var s1 := Sub(Pattern('`', 3, false), "`", "`", None, content);
    var s2 := Sub(Pattern('~', 1, true), "~~", "~~", None, s1);
    var s3 := Sub(Pattern('_', 1, true), Sentinel("ITALICSTART"), Sentinel("ITALICEND"), None, s2);
    var s4 := Sub(Pattern('*', 1, true), "**", "**", None, s3);
    Unmask("ITALICSTART", "ITALICEND", s4)
  }

  function ToWhatsApp(content: string): string {
    var s1 := Sub(Pattern('*', 2, false), Sentinel("BOLDSTART"), Sentinel("BOLDEND"), None, content);
    var s2 := Sub(Pattern('*', 1, true), "_", "_", None, s1);
    var s3 := Unmask("BOLDSTART", "BOLDEND", s2);
    var s4 := Sub(Pattern('~', 2, false), "~", "~", None, s3);
    Sub(Pattern('`', 1, false), "```", "```", None, s4)
  }

  // ---- Flat documents ----

  datatype Style = Bold | Italic | Strike | Code

  /** Styled spans, each followed by plain text. */
  datatype Spans = End | Span(style: Style, text: string, after: string, rest: Spans)

  datatype Document = Document(lead: string, spans: Spans)

  predicate Clean(s: string) {
    forall i :: 0 <= i < |s| ==> s[i] !in {'*', '_', '~', '`', NUL}
  }

  /** Non-empty spans over marker-free text, separated by plain text. */
  predicate Flat(spans: Spans) {
    match spans
    case End => true
    case Span(_, text, after, rest) =>
      text != "" && Clean(text) && Clean(after) && (rest.Span? ==> after != "") && Flat(rest)
  }

  predicate FlatDocument(doc: Document) {
    Clean(doc.lead) && Flat(doc.spans)
  }

  datatype Delims = Delims(open: string, close: string)

  datatype Skin = Skin(bold: Delims, italic: Delims, strike: Delims, code: Delims) {
    function Of(style: Style): Delims {
      match style
      case Bold => bold
      case Italic => italic
      case Strike => strike
      case Code => code
    }

    function With(style: Style, d: Delims): Skin {
      match style
      case Bold => this.(bold := d)
      case Italic => this.(italic := d)
      case Strike => this.(strike := d)
      case Code => this.(code := d)
    }
  }

  function Both(mark: string): Delims {
    Delims(mark, mark)
  }

  const WHATSAPP := Skin(Both("*"), Both("_"), Both("~"), Both("```"))
  const CHATWOOT := Skin(Both("**"), Both("*"), Both("~~"), Both("`"))

  function Render(skin: Skin, spans: Spans): string {
    match spans
    case End => ""
    case Span(style, text, after, rest) =>
      skin.Of(style).open + (text + (skin.Of(style).close + (after + Render(skin, rest))))
  }

  function RenderDocument(skin: Skin, doc: Document): string {
    doc.lead + Render(skin, doc.spans)
  }

  // ---- How a substitution moves over a string ----

  predicate Lacks(s: string, c: char) {
    forall i :: 0 <= i < |s| ==> s[i] != c
  }

  function LastOr(prev: Option<char>, s: string): Option<char> {
    if s == "" then prev else Some(s[|s| - 1])
  }

  lemma SubPasses(p: Pattern, lhs: string, rhs: string, prev: Option<char>, s: string)
    requires s != "" && Body(p, prev, s) == None
    ensures Sub(p, lhs, rhs, prev, s) == [s[0]] + Sub(p, lhs, rhs, Some(s[0]), s[1..])
  {
    hide Body;
  }

  lemma SubCopies(p: Pattern, lhs: string, rhs: string, prev: Option<char>, s: string)
    requires p.open >= 1 && s != "" && s[0] != p.mark
    ensures Sub(p, lhs, rhs, prev, s) == [s[0]] + Sub(p, lhs, rhs, Some(s[0]), s[1..])
  {
    assert Copies(p.mark, p.open)[0] == p.mark;
  }

  /** Text without the mark is copied. */
  lemma {:induction false} SubSkips(p: Pattern, lhs: string, rhs: string, prev: Option<char>, x: string, y: string)
    requires p.open >= 1 && Lacks(x, p.mark)
    ensures Sub(p, lhs, rhs, prev, x + y) == x + Sub(p, lhs, rhs, LastOr(prev, x), y)
    decreases |x|
  {
    hide Sub;
    if x == "" {
      assert x + y == y;
    } else {
      assert (x + y)[0] == x[0] && (x + y)[1..] == x[1..] + y;
      SubCopies(p, lhs, rhs, prev, x + y);
      SubSkips(p, lhs, rhs, Some(x[0]), x[1..], y);
      assert [x[0]] + x[1..] == x;
    }
  }

  lemma {:induction false} RunExact(x: string, c: char, y: string)
    requires Lacks(x, c) && (y == "" || y[0] == c)
    ensures Run(x + y, c) == |x|
  {
    if x == "" {
      assert x + y == y;
    } else {
      assert (x + y)[1..] == x[1..] + y;
      RunExact(x[1..], c, y);
    }
  }

  /** The pieces of a delimited span followed by `y`. */
  lemma Pieces(m: string, text: string, y: string)
    ensures
      var s := m + (text + (m + y));
      && |s| == 2 * |m| + |text| + |y|
      && s[|m|..] == text + (m + y)
      && s[|m| + |text|..] == m + y
      && s[|m|..|m| + |text|] == text
      && s[2 * |m| + |text|..] == y
  {
    var s := m + (text + (m + y));
    assert s == (m + text) + (m + y);
    assert s == (m + text + m) + y;
  }

  lemma BodyFound(p: Pattern, prev: Option<char>, text: string, y: string)
    requires p.open >= 1 && text != "" && Lacks(text, p.mark)
    requires p.guarded ==> prev != Some(p.mark) && (y == "" || y[0] != p.mark)
    ensures
      var m := Copies(p.mark, p.open);
      Body(p, prev, m + (text + (m + y))) == Some(|text|)
  {
    hide Copies, Run, Lacks;
    var m := Copies(p.mark, p.open);
    Pieces(m, text, y);
    RunExact(text, p.mark, m + y);
    assert |m + y| > p.open ==> (m + y)[p.open] == y[0];
  }

  lemma SubRewrites(p: Pattern, lhs: string, rhs: string, prev: Option<char>, s: string)
    requires s != "" && Body(p, prev, s).Some?
    ensures
      var n := Body(p, prev, s).value;
      Sub(p, lhs, rhs, prev, s)
      == lhs + s[p.open..p.open + n] + rhs + Sub(p, lhs, rhs, Some(p.mark), s[2 * p.open + n..])
  {
    hide Body;
  }

  /** A delimited span is rewritten. */
  lemma SubHits(p: Pattern, lhs: string, rhs: string, prev: Option<char>, text: string, y: string)
    requires p.open >= 1 && text != "" && Lacks(text, p.mark)
    requires p.guarded ==> prev != Some(p.mark) && (y == "" || y[0] != p.mark)
    ensures
      var m := Copies(p.mark, p.open);
      Sub(p, lhs, rhs, prev, m + (text + (m + y))) == lhs + (text + (rhs + Sub(p, lhs, rhs, Some(p.mark), y)))
  {
    hide Copies, Body, Lacks, Sub;
    var m := Copies(p.mark, p.open);
    Pieces(m, text, y);
    BodyFound(p, prev, text, y);
    SubRewrites(p, lhs, rhs, prev, m + (text + (m + y)));
    var tail := Sub(p, lhs, rhs, Some(p.mark), y);
    assert lhs + text + rhs + tail == lhs + (text + (rhs + tail));
  }

  /** A single mark is not a double one. */
  lemma SubMisses(p: Pattern, lhs: string, rhs: string, prev: Option<char>, y: string)
    requires p.open == 2 && (y == "" || y[0] != p.mark)
    ensures Sub(p, lhs, rhs, prev, [p.mark] + y) == [p.mark] + Sub(p, lhs, rhs, Some(p.mark), y)
  {
    var s := [p.mark] + y;
    assert s[1..] == y;
    assert !Marks(s, p.mark, 2) by {
      assert Copies(p.mark, 2)[1] == p.mark;
      assert |s| < 2 || s[1] == y[0];
    }
  }

  // ---- One substitution over a flat document ----

  /** The substitution `p` cannot see these delimiters. */
  predicate Inert(p: Pattern, d: Delims) {
    || (Lacks(d.open, p.mark) && Lacks(d.close, p.mark))
    || (p.open == 2 && !p.guarded && d == Both([p.mark]))
  }

  predicate IsMarker(c: char) {
    c in {'*', '_', '~', '`'}
  }

  lemma Append4(a: string, b: string, c: string, d: string)
    ensures a + (b + (c + d)) == (a + b + c) + d
  {
  }

  lemma {:induction false} PassOver(p: Pattern, lhs: string, rhs: string, style: Style, skin: Skin, spans: Spans,
                                    prev: Option<char>)
    requires p.open >= 1 && IsMarker(p.mark) && Flat(spans)
    requires skin.Of(style) == Both(Copies(p.mark, p.open))
    requires forall other :: other != style ==> Inert(p, skin.Of(other))
    requires p.guarded && spans.Span? ==> prev != Some(p.mark)
    ensures Sub(p, lhs, rhs, prev, Render(skin, spans)) == Render(skin.With(style, Delims(lhs, rhs)), spans)
    decreases spans
  {
    hide Copies, Body;
    if spans.Span? {
      var d, text, after, rest := skin.Of(spans.style), spans.text, spans.after, spans.rest;
      var tail := after + Render(skin, rest);
      assert tail == "" || tail[0] != p.mark by {
        if after == "" {
          assert rest.End? && tail == "";
        } else {
          assert tail[0] == after[0];
        }
      }
      if spans.style == style {
        SubHits(p, lhs, rhs, prev, text, tail);
        Rest(p, lhs, rhs, style, skin, spans, Some(p.mark));
      } else if Lacks(d.open, p.mark) && Lacks(d.close, p.mark) {
        var chunk := d.open + text + d.close;
        Append4(d.open, text, d.close, tail);
        SubSkips(p, lhs, rhs, prev, chunk, tail);
        Rest(p, lhs, rhs, style, skin, spans, LastOr(prev, chunk));
        Append4(d.open, text, d.close, after + Render(skin.With(style, Delims(lhs, rhs)), rest));
      } else {
        var m := [p.mark];
        SubMisses(p, lhs, rhs, prev, text + (m + tail));
        SubSkips(p, lhs, rhs, Some(p.mark), text, m + tail);
        SubMisses(p, lhs, rhs, LastOr(Some(p.mark), text), tail);
        Rest(p, lhs, rhs, style, skin, spans, Some(p.mark));
      }
    }
  }

  /** The plain text after a span, and the remaining spans. */
  lemma {:induction false} Rest(p: Pattern, lhs: string, rhs: string, style: Style, skin: Skin, spans: Spans,
                                prev: Option<char>)
    requires p.open >= 1 && IsMarker(p.mark) && Flat(spans) && spans.Span?
    requires skin.Of(style) == Both(Copies(p.mark, p.open))
    requires forall other :: other != style ==> Inert(p, skin.Of(other))
    ensures Sub(p, lhs, rhs, prev, spans.after + Render(skin, spans.rest))
         == spans.after + Render(skin.With(style, Delims(lhs, rhs)), spans.rest)
    decreases spans, 0
  {
    SubSkips(p, lhs, rhs, prev, spans.after, Render(skin, spans.rest));
    PassOver(p, lhs, rhs, style, skin, spans.rest, LastOr(prev, spans.after));
  }

  lemma PassDocument(p: Pattern, lhs: string, rhs: string, style: Style, skin: Skin, doc: Document)
    requires p.open >= 1 && IsMarker(p.mark) && FlatDocument(doc)
    requires skin.Of(style) == Both(Copies(p.mark, p.open))
    requires forall other :: other != style ==> Inert(p, skin.Of(other))
    ensures Sub(p, lhs, rhs, None, RenderDocument(skin, doc))
         == RenderDocument(skin.With(style, Delims(lhs, rhs)), doc)
  {
    hide Copies, Body, Sub, Render;
    SubSkips(p, lhs, rhs, None, doc.lead, Render(skin, doc.spans));
    PassOver(p, lhs, rhs, style, skin, doc.spans, LastOr(None, doc.lead));
  }

  // ---- The sentinels ----

  /** `str.replace` copies text that cannot start a sentinel. */
  lemma {:induction false} ReplaceSkips(x: string, y: string, name: string, sub: string)
    requires Lacks(x, NUL)
    ensures Replace(x + y, Sentinel(name), sub) == x + Replace(y, Sentinel(name), sub)
  {
    if x == "" {
      assert x + y == y;
    } else {
      assert (x + y)[0] == x[0] && (x + y)[1..] == x[1..] + y;
      ReplaceSkips(x[1..], y, name, sub);
      assert [x[0]] + x[1..] == x;
    }
  }

  lemma ReplaceHits(y: string, name: string, sub: string)
    ensures Replace(Sentinel(name) + y, Sentinel(name), sub) == sub + Replace(y, Sentinel(name), sub)
  {
    var s := Sentinel(name) + y;
    assert s[|Sentinel(name)|..] == y;
  }

  lemma ReplaceMisses(y: string, name: string, sub: string)
    requires !(Sentinel(name) <= [NUL] + y)
    ensures Replace([NUL] + y, Sentinel(name), sub) == [NUL] + Replace(y, Sentinel(name), sub)
  {
    assert ([NUL] + y)[1..] == y;
  }

  predicate Name(s: string) {
    s != "" && Clean(s)
  }

  /** A sentinel starts at a NUL exactly if the name follows, and then another NUL. */
  lemma {:induction false} SentinelAt(name: string, x: string, y: string)
    requires Clean(name) && Lacks(x, NUL)
    ensures y == "" || IsMarker(y[0]) ==> !(Sentinel(name) <= [NUL] + (x + y))
    ensures y != "" && y[0] == NUL ==> (Sentinel(name) <= [NUL] + (x + y) <==> x == name)
  {
    var s, t := [NUL] + (x + y), Sentinel(name);
    assert forall i :: 0 <= i < |x| ==> s[i + 1] == x[i];
    assert y != "" ==> s[|x| + 1] == y[0];
    assert forall i :: 0 <= i < |name| ==> t[i + 1] == name[i];
    assert t[|name| + 1] == NUL;
    assert t <= s ==> s[|name| + 1] == NUL && forall i :: 0 <= i < |name| ==> s[i + 1] == name[i];
    assert t <= s ==> |x| <= |name|;
    assert |x| < |name| ==> !IsMarker(t[|x| + 1]);
    assert t <= s && |x| == |name| ==> x == name;
    assert x == name && y != "" && y[0] == NUL ==> s == t + y[1..];
  }

  /** A masked span, when its closing NUL does not also open a sentinel. */
  lemma UnmaskSpan(first: string, last: string, text: string, y: string)
    requires Name(first) && Name(last) && first != last && Lacks(text, NUL)
    requires !(Sentinel(first) <= [NUL] + y)
    ensures Unmask(first, last, Sentinel(first) + (text + (Sentinel(last) + y)))
         == "*" + (text + ("*" + Unmask(first, last, y)))
  {
    hide Replace;
    var z := Replace(y, Sentinel(first), "*");
    MaskedTail(first, last, text, y);
    ReplaceMisses(y, first, "*");
    assert [NUL] + (last + ([NUL] + z)) == Sentinel(last) + z;
    ReplaceSkips("*" + text, Sentinel(last) + z, last, "*");
    ReplaceHits(z, last, "*");
    assert "*" + (text + (Sentinel(last) + z)) == ("*" + text) + (Sentinel(last) + z);
    assert ("*" + text) + ("*" + Unmask(first, last, y)) == "*" + (text + ("*" + Unmask(first, last, y)));
  }

  /** The first replacement up to the NUL that closes the span. */
  lemma MaskedTail(first: string, last: string, text: string, y: string)
    requires Name(first) && Name(last) && first != last && Lacks(text, NUL)
    ensures Replace(Sentinel(first) + (text + (Sentinel(last) + y)), Sentinel(first), "*")
         == "*" + (text + ([NUL] + (last + Replace([NUL] + y, Sentinel(first), "*"))))
  {
    hide Replace;
    ReplaceHits(text + (Sentinel(last) + y), first, "*");
    ReplaceSkips(text, Sentinel(last) + y, first, "*");
    assert Sentinel(last) + y == [NUL] + (last + ([NUL] + y));
    SentinelAt(first, last, [NUL] + y);
    ReplaceMisses(last + ([NUL] + y), first, "*");
    ReplaceSkips(last, [NUL] + y, first, "*");
  }

  /** When it does, the first replacement eats the shared NUL, and the closing sentinel is left broken. */
  lemma SharedNul(first: string, last: string, text: string, y: string)
    requires Name(first) && Name(last) && first != last && Lacks(text, NUL)
    requires Sentinel(first) <= [NUL] + y
    ensures NUL in Unmask(first, last, Sentinel(first) + (text + (Sentinel(last) + y)))
  {
    hide Replace;
    MaskedTail(first, last, text, y);
    var z := ([NUL] + y)[|Sentinel(first)|..];
    assert [NUL] + y == Sentinel(first) + z;
    ReplaceHits(z, first, "*");
    var w := "*" + Replace(z, Sentinel(first), "*");
    SentinelAt(last, last, w);
    ReplaceMisses(last + w, last, "*");
    assert "*" + (text + ([NUL] + (last + w))) == ("*" + text) + ([NUL] + (last + w));
    ReplaceSkips("*" + text, [NUL] + (last + w), last, "*");
  }

  lemma UnmaskPlain(first: string, last: string, x: string, y: string)
    requires Lacks(x, NUL)
    ensures Unmask(first, last, x + y) == x + Unmask(first, last, y)
  {
    hide Replace;
    ReplaceSkips(x, y, first, "*");
    ReplaceSkips(x, Replace(y, Sentinel(first), "*"), last, "*");
  }

  /** Two neighbouring spans of this style with exactly `name` as the plain text between them. */
  predicate Spells(spans: Spans, style: Style, name: string) {
    match spans
    case End => false
    case Span(s, _, after, rest) =>
      || (s == style && after == name && rest.Span? && rest.style == style)
      || Spells(rest, style, name)
  }

  /** Delimiters that begin with a marker and hold no NUL. */
  predicate Visible(d: Delims) {
    d.open != "" && IsMarker(d.open[0]) && Lacks(d.open, NUL) && Lacks(d.close, NUL)
  }

  predicate Masks(skin: Skin, style: Style, first: string, last: string) {
    && Name(first) && Name(last) && first != last
    && skin.Of(style) == Delims(Sentinel(first), Sentinel(last))
    && forall other :: other != style ==> Visible(skin.Of(other))
  }

  /** After a masked span the closing NUL opens a sentinel exactly where plain text spells it. */
  lemma OpensSentinel(skin: Skin, style: Style, first: string, last: string, after: string, rest: Spans)
    requires Masks(skin, style, first, last) && Clean(after)
    ensures Sentinel(first) <= [NUL] + (after + Render(skin, rest))
       <==> after == first && rest.Span? && rest.style == style
  {
    var y := Render(skin, rest);
    assert rest.Span? ==> y[0] == skin.Of(rest.style).open[0];
    SentinelAt(first, after, y);
  }

  lemma {:induction false} UnmaskSpans(first: string, last: string, style: Style, skin: Skin, spans: Spans)
    requires Masks(skin, style, first, last) && Flat(spans)
    ensures Spells(spans, style, first) ==> NUL in Unmask(first, last, Render(skin, spans))
    ensures !Spells(spans, style, first)
        ==> Unmask(first, last, Render(skin, spans)) == Render(skin.With(style, Both("*")), spans)
  {
    if spans.Span? {
      hide Unmask, Replace;
      var d, text, after, rest := skin.Of(spans.style), spans.text, spans.after, spans.rest;
      var y := after + Render(skin, rest);
      UnmaskSpans(first, last, style, skin, rest);
      UnmaskPlain(first, last, after, Render(skin, rest));
      if spans.style == style {
        OpensSentinel(skin, style, first, last, after, rest);
        if Sentinel(first) <= [NUL] + y {
          SharedNul(first, last, text, y);
        } else {
          UnmaskSpan(first, last, text, y);
        }
      } else {
        var chunk := d.open + text + d.close;
        Append4(d.open, text, d.close, y);
        UnmaskPlain(first, last, chunk, y);
        Append4(d.open, text, d.close, after + Render(skin.With(style, Both("*")), rest));
      }
    }
  }

  lemma UnmaskDocument(first: string, last: string, style: Style, skin: Skin, doc: Document)
    requires Masks(skin, style, first, last) && FlatDocument(doc)
    ensures Spells(doc.spans, style, first) ==> NUL in Unmask(first, last, RenderDocument(skin, doc))
    ensures !Spells(doc.spans, style, first)
        ==> Unmask(first, last, RenderDocument(skin, doc)) == RenderDocument(skin.With(style, Both("*")), doc)
  {
    hide Unmask, Render, Masks, Spells;
    UnmaskPlain(first, last, doc.lead, Render(skin, doc.spans));
    UnmaskSpans(first, last, style, skin, doc.spans);
  }

  /** A visible rendering holds no NUL. */
  lemma {:induction false} RenderLacksNul(skin: Skin, spans: Spans)
    requires Flat(spans) && forall style :: Visible(skin.Of(style))
    ensures Lacks(Render(skin, spans), NUL)
  {
    if spans.Span? {
      RenderLacksNul(skin, spans.rest);
      assert Visible(skin.Of(spans.style));
    }
  }

  lemma BodyMatches(p: Pattern, prev: Option<char>, s: string)
    requires Body(p, prev, s).Some?
    ensures Matches(p, prev, s, Body(p, prev, s).value)
  {
    hide Run;
    var n := Body(p, prev, s).value;
    var rest := s[p.open + n..];
    var marks := Copies(p.mark, p.open);
    assert forall i :: 0 <= i < p.open ==> s[i] == marks[i];
    assert forall i :: 0 <= i < p.open ==> rest[i] == marks[i];
    assert forall i :: p.open + n <= i < 2 * p.open + n ==> s[i] == rest[i - p.open - n];
    assert forall i :: p.open <= i < p.open + n ==> s[i] == s[p.open..][i - p.open];
  }

  lemma MatchIsFound(p: Pattern, prev: Option<char>, s: string, n: nat)
    requires p.open >= 1 && Matches(p, prev, s, n)
    ensures Body(p, prev, s) == Some(n)
  {
    hide Run, Body, Copies;
    var m, text, y := Copies(p.mark, p.open), s[p.open..p.open + n], s[2 * p.open + n..];
    assert s[..p.open] == m;
    assert s[p.open + n..2 * p.open + n] == m;
    assert s == m + (text + (m + y));
    BodyFound(p, prev, text, y);
  }

  /** A text without these characters. */
  function Without(s: string, marks: set<char>): string {
    if s == "" then "" else (if s[0] in marks then "" else [s[0]]) + Without(s[1..], marks)
  }

  lemma {:induction false} WithoutJoins(s: string, more: string, marks: set<char>)
    ensures Without(s + more, marks) == Without(s, marks) + Without(more, marks)
  {
    if s == "" {
      assert s + more == more;
    } else {
      assert (s + more)[1..] == s[1..] + more;
      WithoutJoins(s[1..], more, marks);
    }
  }

  lemma {:induction false} WithoutHolds(s: string, marks: set<char>, c: char)
    requires c !in marks
    ensures c in Without(s, marks) <==> c in s
  {
    if s != "" {
      assert s == [s[0]] + s[1..];
      WithoutHolds(s[1..], marks, c);
    }
  }

  lemma {:induction false} OnlyMarks(s: string, marks: set<char>)
    requires forall c :: c in s ==> c in marks
    ensures Without(s, marks) == ""
  {
    if s != "" {
      OnlyMarks(s[1..], marks);
    }
  }

  lemma WithoutBetween(left: string, body: string, right: string, rest: string, marks: set<char>)
    requires forall c :: c in left || c in right ==> c in marks
    ensures Without(left + body + right + rest, marks) == Without(body, marks) + Without(rest, marks)
  {
    hide Without;
    WithoutJoins(left + body + right, rest, marks);
    WithoutJoins(left + body, right, marks);
    WithoutJoins(left, body, marks);
    OnlyMarks(left, marks);
    OnlyMarks(right, marks);
  }

  lemma CutKeeps(s: string, i: nat, j: nat, k: nat, marks: set<char>)
    requires i <= j <= k <= |s|
    requires forall n :: 0 <= n < i || j <= n < k ==> s[n] in marks
    ensures Without(s, marks) == Without(s[i..j], marks) + Without(s[k..], marks)
  {
    hide Without;
    assert s[..i] + s[i..j] + s[j..k] + s[k..] == s;
    WithoutBetween(s[..i], s[i..j], s[j..k], s[k..], marks);
  }

  lemma MatchKeeps(p: Pattern, prev: Option<char>, s: string, marks: set<char>)
    requires p.mark in marks && Body(p, prev, s).Some?
    ensures
      var n := Body(p, prev, s).value;
      && 2 * p.open + n <= |s|
      && Without(s, marks) == Without(s[p.open..p.open + n], marks) + Without(s[2 * p.open + n..], marks)
  {
    hide Body, Without;
    BodyMatches(p, prev, s);
    var n := Body(p, prev, s).value;
    CutKeeps(s, p.open, p.open + n, 2 * p.open + n, marks);
  }

  /** A substitution keeps all text but the marks on either side, in order. */
  lemma {:induction false} SubKeeps(
      p: Pattern, lhs: string, rhs: string, prev: Option<char>, s: string, marks: set<char>)
    requires p.mark in marks && forall c :: c in lhs || c in rhs ==> c in marks
    ensures Without(Sub(p, lhs, rhs, prev, s), marks) == Without(s, marks)
    decreases |s|
  {
    hide Body, Without, Sub;
    if s == "" {
      SubEnds(p, lhs, rhs, prev);
    } else if Body(p, prev, s).Some? {
      var n := Body(p, prev, s).value;
      MatchKeeps(p, prev, s, marks);
      BodyMatches(p, prev, s);
      SubRewrites(p, lhs, rhs, prev, s);
      var rest := s[2 * p.open + n..];
      WithoutBetween(lhs, s[p.open..p.open + n], rhs, Sub(p, lhs, rhs, Some(p.mark), rest), marks);
      SubKeeps(p, lhs, rhs, Some(p.mark), rest, marks);
    } else {
      SubPasses(p, lhs, rhs, prev, s);
      assert s == [s[0]] + s[1..];
      WithoutJoins([s[0]], s[1..], marks);
      WithoutJoins([s[0]], Sub(p, lhs, rhs, Some(s[0]), s[1..]), marks);
      SubKeeps(p, lhs, rhs, Some(s[0]), s[1..], marks);
    }
  }

  lemma SubEnds(p: Pattern, lhs: string, rhs: string, prev: Option<char>)
    ensures Sub(p, lhs, rhs, prev, "") == ""
  {
  }

  lemma SubHolds(p: Pattern, lhs: string, rhs: string, s: string, c: char)
    requires c != p.mark && c !in lhs && c !in rhs
    ensures c in Sub(p, lhs, rhs, None, s) <==> c in s
  {
    hide Sub, Without;
    var marks := {p.mark} + (set d | d in lhs) + (set d | d in rhs);
    SubKeeps(p, lhs, rhs, None, s, marks);
    WithoutHolds(s, marks, c);
    WithoutHolds(Sub(p, lhs, rhs, None, s), marks, c);
  }

  /** `Body` finds the match if there is one, and there is never more than one. */
  lemma BodyIsTheMatch(p: Pattern, prev: Option<char>, s: string, n: nat)
    requires p.open >= 1
    ensures Body(p, prev, s) == Some(n) <==> Matches(p, prev, s, n)
  {
    if Matches(p, prev, s, n) {
      MatchIsFound(p, prev, s, n);
    } else if Body(p, prev, s) == Some(n) {
      BodyMatches(p, prev, s);
    }
  }

  // ---- The two translators on flat documents ----

  function OnWhatsApp(doc: Document): string {
    RenderDocument(WHATSAPP, doc)
  }

  function OnChatwoot(doc: Document): string {
    RenderDocument(CHATWOOT, doc)
  }

  lemma SentinelLacks(name: string, c: char)
    requires Clean(name) && IsMarker(c)
    ensures Lacks(Sentinel(name), c)
  {
  }

  /** The four substitutions of `ToChatwoot` leave the Chatwoot rendering with italics masked. */
  lemma MaskItalics(doc: Document)
    requires FlatDocument(doc)
    ensures ToChatwoot(OnWhatsApp(doc))
         == Unmask("ITALICSTART", "ITALICEND",
              RenderDocument(CHATWOOT.(italic := Delims(Sentinel("ITALICSTART"), Sentinel("ITALICEND"))), doc))
  {
    hide Sub, RenderDocument, Unmask, FlatDocument, Sentinel;
    var skin1 := WHATSAPP.(code := Both("`"));
    var skin2 := skin1.(strike := Both("~~"));
    var skin3 := skin2.(italic := Delims(Sentinel("ITALICSTART"), Sentinel("ITALICEND")));
    SentinelLacks("ITALICSTART", '*');
    SentinelLacks("ITALICEND", '*');
    PassDocument(Pattern('`', 3, false), "`", "`", Code, WHATSAPP, doc);
    PassDocument(Pattern('~', 1, true), "~~", "~~", Strike, skin1, doc);
    PassDocument(Pattern('_', 1, true), Sentinel("ITALICSTART"), Sentinel("ITALICEND"), Italic, skin2, doc);
    PassDocument(Pattern('*', 1, true), "**", "**", Bold, skin3, doc);
  }

  /**
   WhatsApp to Chatwoot: the rendering of a flat document converts to its Chatwoot rendering exactly
   if no two italics are separated by the plain text that spells the sentinel's name.
   */
  lemma WhatsAppToChatwoot(doc: Document)
    requires FlatDocument(doc)
    ensures ToChatwoot(OnWhatsApp(doc)) == OnChatwoot(doc) <==> !Spells(doc.spans, Italic, "ITALICSTART")
  {
    hide ToChatwoot, Unmask, Spells, OnWhatsApp, Render;
    MaskItalics(doc);
    var masked := CHATWOOT.(italic := Delims(Sentinel("ITALICSTART"), Sentinel("ITALICEND")));
    UnmaskDocument("ITALICSTART", "ITALICEND", Italic, masked, doc);
    RenderLacksNul(CHATWOOT, doc.spans);
  }

  /** The first two substitutions of `ToWhatsApp` leave bold masked and italics converted. */
  lemma MaskBold(doc: Document)
    requires FlatDocument(doc)
    ensures
      var s1 := Sub(Pattern('*', 2, false), Sentinel("BOLDSTART"), Sentinel("BOLDEND"), None, OnChatwoot(doc));
      Sub(Pattern('*', 1, true), "_", "_", None, s1)
      == RenderDocument(CHATWOOT.(bold := Delims(Sentinel("BOLDSTART"), Sentinel("BOLDEND")), italic := Both("_")), doc)
  {
    hide Sub, RenderDocument, FlatDocument, Sentinel;
    var skin1 := CHATWOOT.(bold := Delims(Sentinel("BOLDSTART"), Sentinel("BOLDEND")));
    SentinelLacks("BOLDSTART", '*');
    SentinelLacks("BOLDEND", '*');
    PassDocument(Pattern('*', 2, false), Sentinel("BOLDSTART"), Sentinel("BOLDEND"), Bold, CHATWOOT, doc);
    PassDocument(Pattern('*', 1, true), "_", "_", Italic, skin1, doc);
  }

  /** The last two finish a rendering whose bold and italics are already WhatsApp's. */
  lemma FinishWhatsApp(doc: Document)
    requires FlatDocument(doc)
    ensures
      var s4 := Sub(Pattern('~', 2, false), "~", "~", None,
                    RenderDocument(CHATWOOT.(bold := Both("*"), italic := Both("_")), doc));
      Sub(Pattern('`', 1, false), "```", "```", None, s4) == OnWhatsApp(doc)
  {
    hide Sub, RenderDocument, FlatDocument;
    var skin1 := CHATWOOT.(bold := Both("*"), italic := Both("_"));
    PassDocument(Pattern('~', 2, false), "~", "~", Strike, skin1, doc);
    PassDocument(Pattern('`', 1, false), "```", "```", Code, skin1.(strike := Both("~")), doc);
  }

  /** Chatwoot to WhatsApp, with the same exception for bold. */
  lemma ChatwootToWhatsApp(doc: Document)
    requires FlatDocument(doc)
    ensures ToWhatsApp(OnChatwoot(doc)) == OnWhatsApp(doc) <==> !Spells(doc.spans, Bold, "BOLDSTART")
  {
    hide Sub, Unmask, Spells, OnChatwoot, Render;
    MaskBold(doc);
    var masked := CHATWOOT.(bold := Delims(Sentinel("BOLDSTART"), Sentinel("BOLDEND")), italic := Both("_"));
    UnmaskDocument("BOLDSTART", "BOLDEND", Bold, masked, doc);
    if Spells(doc.spans, Bold, "BOLDSTART") {
      var s3 := Unmask("BOLDSTART", "BOLDEND", RenderDocument(masked, doc));
      SubHolds(Pattern('~', 2, false), "~", "~", s3, NUL);
      SubHolds(Pattern('`', 1, false), "```", "```", Sub(Pattern('~', 2, false), "~", "~", None, s3), NUL);
      RenderLacksNul(WHATSAPP, doc.spans);
    } else {
      FinishWhatsApp(doc);
    }
  }

  /** There and back, from either side, for exactly the documents that spell neither name between such spans. */
  lemma RoundTrip(doc: Document)
    requires FlatDocument(doc)
    ensures ToChatwoot(OnWhatsApp(doc)) == OnChatwoot(doc) && ToWhatsApp(ToChatwoot(OnWhatsApp(doc))) == OnWhatsApp(doc)
       <==> !Spells(doc.spans, Italic, "ITALICSTART") && !Spells(doc.spans, Bold, "BOLDSTART")
    ensures ToWhatsApp(OnChatwoot(doc)) == OnWhatsApp(doc) && ToChatwoot(ToWhatsApp(OnChatwoot(doc))) == OnChatwoot(doc)
       <==> !Spells(doc.spans, Italic, "ITALICSTART") && !Spells(doc.spans, Bold, "BOLDSTART")
  {
    hide ToChatwoot, ToWhatsApp, OnChatwoot, OnWhatsApp, Spells, FlatDocument;
    WhatsAppToChatwoot(doc);
    ChatwootToWhatsApp(doc);
  }

  /** One styled text, written with each side's own marks. */
  lemma EachStyle(x: string)
    requires x != "" && Clean(x)
    ensures ToChatwoot("*" + (x + "*")) == "**" + (x + "**") && ToWhatsApp("**" + (x + "**")) == "*" + (x + "*")
    ensures ToChatwoot("_" + (x + "_")) == "*" + (x + "*") && ToWhatsApp("*" + (x + "*")) == "_" + (x + "_")
    ensures ToChatwoot("~" + (x + "~")) == "~~" + (x + "~~") && ToWhatsApp("~~" + (x + "~~")) == "~" + (x + "~")
    ensures ToChatwoot("```" + (x + "```")) == "`" + (x + "`") && ToWhatsApp("`" + (x + "`")) == "```" + (x + "```")
  {
    hide ToChatwoot, ToWhatsApp, OnChatwoot, OnWhatsApp, Clean;
    forall style: Style ensures OneSpan(style, x) {
      OneSpanConverts(style, x);
    }
    assert OneSpan(Bold, x) && OneSpan(Italic, x) && OneSpan(Strike, x) && OneSpan(Code, x);
  }

  ghost predicate OneSpan(style: Style, x: string) {
    var there, here := WHATSAPP.Of(style), CHATWOOT.Of(style);
    && ToChatwoot(there.open + (x + there.close)) == here.open + (x + here.close)
    && ToWhatsApp(here.open + (x + here.close)) == there.open + (x + there.close)
  }

  lemma OneSpanConverts(style: Style, x: string)
    requires x != "" && Clean(x)
    ensures OneSpan(style, x)
  {
    hide ToChatwoot, ToWhatsApp;
    var doc := Document("", Span(style, x, "", End));
    OneSpanRendered(WHATSAPP, style, x);
    OneSpanRendered(CHATWOOT, style, x);
    assert Flat(End) && Flat(doc.spans);
    WhatsAppToChatwoot(doc);
    ChatwootToWhatsApp(doc);
  }

  lemma OneSpanRendered(skin: Skin, style: Style, x: string)
    ensures RenderDocument(skin, Document("", Span(style, x, "", End)))
         == skin.Of(style).open + (x + skin.Of(style).close)
  {
    var d := skin.Of(style);
    assert Render(skin, End) == "";
    assert d.close + ("" + "") == d.close;
    assert "" + (d.open + (x + d.close)) == d.open + (x + d.close);
  }

  /** Two flat documents on which a translator fails: the sentinel's name as plain text between two such spans. */
  lemma SentinelsCollide()
    ensures var doc := Document("", Span(Bold, "a", "BOLDSTART", Span(Bold, "b", "", End)));
      FlatDocument(doc) && ToWhatsApp(OnChatwoot(doc)) != OnWhatsApp(doc)
    ensures var doc := Document("", Span(Italic, "a", "ITALICSTART", Span(Italic, "b", "", End)));
      FlatDocument(doc) && ToChatwoot(OnWhatsApp(doc)) != OnChatwoot(doc)
  {
    hide ToChatwoot, ToWhatsApp, OnChatwoot, OnWhatsApp;
    ChatwootToWhatsApp(Document("", Span(Bold, "a", "BOLDSTART", Span(Bold, "b", "", End))));
    WhatsAppToChatwoot(Document("", Span(Italic, "a", "ITALICSTART", Span(Italic, "b", "", End))));
  }

  // ---- Nested marks are outside the flat documents for a reason ----

  lemma SubIdle(p: Pattern, lhs: string, rhs: string, prev: Option<char>, s: string)
    requires p.open >= 1 && Lacks(s, p.mark)
    ensures Sub(p, lhs, rhs, prev, s) == s
  {
    hide Body;
    SubSkips(p, lhs, rhs, prev, s, "");
    assert s + "" == s;
  }

  lemma ItalicInBoldToChatwoot(x: string)
    requires x != "" && Clean(x)
    ensures ToChatwoot("*_" + x + "_*") == "***" + x + "***"
  {
    hide Sub, Unmask, Sentinel, Clean, Name;
    var first, last := "ITALICSTART", "ITALICEND";
    assert Name(first) && Name(last) by { NamesAreNames(); }
    CleanLacks(x);
    var s := "*_" + x + "_*";
    SubIdle(Pattern('`', 3, false), "`", "`", None, s);
    SubIdle(Pattern('~', 1, true), "~~", "~~", None, s);
    var italic := Pattern('_', 1, true);
    assert Copies('_', 1) == "_" && Copies('*', 1) == "*";
    assert s == "*" + ("_" + (x + ("_" + "*")));
    SubSkips(italic, Sentinel(first), Sentinel(last), None, "*", "_" + (x + ("_" + "*")));
    SubHits(italic, Sentinel(first), Sentinel(last), Some('*'), x, "*");
    SubIdle(italic, Sentinel(first), Sentinel(last), Some('_'), "*");
    MaskedCore(first, last, x);
    var core := Sentinel(first) + (x + Sentinel(last));
    assert "*" + (Sentinel(first) + (x + (Sentinel(last) + "*"))) == "*" + (core + ("*" + ""));
    SubHits(Pattern('*', 1, true), "**", "**", None, core, "");
    SubIdle(Pattern('*', 1, true), "**", "**", Some('*'), "");
    UnmaskCore(first, last, "**", x, "**");
    assert "**" + (core + ("**" + "")) == "**" + (Sentinel(first) + (x + (Sentinel(last) + "**")));
    assert "**" + ("*" + (x + ("*" + "**"))) == "***" + x + "***";
  }

  lemma NamesAreNames()
    ensures Name("ITALICSTART") && Name("ITALICEND") && Name("BOLDSTART") && Name("BOLDEND")
  {
  }

  lemma CleanLacks(x: string)
    requires Clean(x)
    ensures Lacks(x, '*') && Lacks(x, '_') && Lacks(x, '~') && Lacks(x, '`') && Lacks(x, NUL)
  {
  }

  lemma MaskedCore(first: string, last: string, x: string)
    requires Name(first) && Name(last) && Clean(x)
    ensures Lacks(Sentinel(first) + (x + Sentinel(last)), '*') && Sentinel(first) + (x + Sentinel(last)) != ""
  {
    SentinelLacks(first, '*');
    SentinelLacks(last, '*');
  }

  lemma UnmaskCore(first: string, last: string, left: string, x: string, right: string)
    requires Name(first) && Name(last) && first != last && Lacks(x, NUL) && Lacks(left, NUL) && Lacks(right, NUL)
    requires right != "" && IsMarker(right[0])
    ensures Unmask(first, last, left + (Sentinel(first) + (x + (Sentinel(last) + right))))
         == left + ("*" + (x + ("*" + right)))
  {
    hide Unmask;
    UnmaskPlain(first, last, left, Sentinel(first) + (x + (Sentinel(last) + right)));
    SentinelAt(first, "", right);
    assert "" + right == right;
    UnmaskSpan(first, last, x, right);
    UnmaskPlain(first, last, right, "");
    assert Unmask(first, last, "") == "" by { UnmaskNothing(first, last); }
    assert right + "" == right;
  }

  lemma UnmaskNothing(first: string, last: string)
    ensures Unmask(first, last, "") == ""
  {
  }

  /** A guarded pattern leaves a text between doubled marks alone. */
  lemma GuardedPasses(c: char, lhs: string, rhs: string, x: string)
    requires x != "" && Lacks(x, c)
    ensures Sub(Pattern(c, 1, true), lhs, rhs, None, [c, c] + (x + [c, c])) == [c, c] + (x + [c, c])
  {
    hide Sub;
    var p, s := Pattern(c, 1, true), [c, c] + (x + [c, c]);
    assert Copies(c, 1) == [c];
    assert s[1..] == [c] + (x + [c, c]) && s[1..][1..] == x + [c, c];
    SubPasses(p, lhs, rhs, None, s);
    SubPasses(p, lhs, rhs, Some(c), s[1..]);
    SubSkips(p, lhs, rhs, Some(c), x, [c, c]);
    var end: string := [c, c];
    assert end[1..] == [c] && end[1..][1..] == [];
    SubPasses(p, lhs, rhs, LastOr(Some(c), x), end);
    SubPasses(p, lhs, rhs, Some(c), end[1..]);
    SubEnds(p, lhs, rhs, Some(c));
  }

  /** Chatwoot's bold and strike marks, and doubled underscores, pass to Chatwoot as they are. */
  lemma DoubledMarksPass(x: string)
    requires x != "" && Clean(x)
    ensures ToChatwoot("**" + (x + "**")) == "**" + (x + "**")
    ensures ToChatwoot("~~" + (x + "~~")) == "~~" + (x + "~~")
    ensures ToChatwoot("__" + (x + "__")) == "__" + (x + "__")
  {
    hide Sub, Unmask, Clean, ToChatwoot;
    DoubledMarkPasses('*', x);
    DoubledMarkPasses('~', x);
    DoubledMarkPasses('_', x);
    assert ['*', '*'] == "**" && ['~', '~'] == "~~" && ['_', '_'] == "__";
  }

  lemma DoubledMarkPasses(c: char, x: string)
    requires x != "" && Clean(x) && c in {'*', '~', '_'}
    ensures ToChatwoot([c, c] + (x + [c, c])) == [c, c] + (x + [c, c])
  {
    hide Sub, Unmask, Clean, Sentinel;
    var first, last := "ITALICSTART", "ITALICEND";
    CleanLacks(x);
    var s := [c, c] + (x + [c, c]);
    SubIdle(Pattern('`', 3, false), "`", "`", None, s);
    PassesOnce('~', "~~", "~~", c, x);
    PassesOnce('_', Sentinel(first), Sentinel(last), c, x);
    PassesOnce('*', "**", "**", c, x);
    UnmaskPlain(first, last, s, "");
    UnmaskNothing(first, last);
    assert s + "" == s;
  }

  lemma PassesOnce(mark: char, lhs: string, rhs: string, c: char, x: string)
    requires x != "" && Lacks(x, c) && Lacks(x, mark)
    ensures Sub(Pattern(mark, 1, true), lhs, rhs, None, [c, c] + (x + [c, c])) == [c, c] + (x + [c, c])
  {
    hide Sub;
    if mark == c {
      GuardedPasses(c, lhs, rhs, x);
    } else {
      SubIdle(Pattern(mark, 1, true), lhs, rhs, None, [c, c] + (x + [c, c]));
    }
  }

  /** Two marks before and one after are no italics. */
  lemma LopsidedPasses(x: string)
    requires x != "" && Clean(x)
    ensures ToWhatsApp("**" + (x + "*")) == "**" + (x + "*")
  {
    hide Sub, Unmask, Clean, Sentinel;
    var first, last := "BOLDSTART", "BOLDEND";
    CleanLacks(x);
    var s := "**" + (x + "*");
    LopsidedMisses(x, Pattern('*', 2, false), Sentinel(first), Sentinel(last));
    LopsidedMisses(x, Pattern('*', 1, true), "_", "_");
    UnmaskPlain(first, last, s, "");
    UnmaskNothing(first, last);
    assert s + "" == s;
    SubIdle(Pattern('~', 2, false), "~", "~", None, s);
    SubIdle(Pattern('`', 1, false), "```", "```", None, s);
  }

  lemma LopsidedMisses(x: string, p: Pattern, lhs: string, rhs: string)
    requires x != "" && Lacks(x, '*') && (p == Pattern('*', 2, false) || p == Pattern('*', 1, true))
    ensures Sub(p, lhs, rhs, None, "**" + (x + "*")) == "**" + (x + "*")
  {
    hide Sub, Body;
    var s := "**" + (x + "*");
    assert s[1..] == "*" + (x + "*") && s[1..][1..] == x + "*";
    assert s[1] == '*' && s[1..][1] == x[0];
    forall n: nat ensures !Matches(p, None, s, n) {
      if n < |x| {
        assert s[2 + n] == x[n];
      }
    }
    NoMatch(p, None, s);
    NoMatch(p, Some('*'), s[1..]);
    NoMatch(p, LastOr(Some('*'), x), "*");
    SubPasses(p, lhs, rhs, None, s);
    SubPasses(p, lhs, rhs, Some('*'), s[1..]);
    SubSkips(p, lhs, rhs, Some('*'), x, "*");
    SubPasses(p, lhs, rhs, LastOr(Some('*'), x), "*");
    SubEnds(p, lhs, rhs, Some('*'));
    assert ['*'] + "" == "*" && ['*'] + (['*'] + (x + "*")) == s;
  }

  lemma NoMatch(p: Pattern, prev: Option<char>, s: string)
    requires p.open >= 1 && forall n: nat :: !Matches(p, prev, s, n)
    ensures Body(p, prev, s) == None
  {
    hide Body;
    if Body(p, prev, s).Some? {
      BodyMatches(p, prev, s);
    }
  }

  lemma TripleStars(x: string)
    requires x != "" && Clean(x)
    ensures Sub(Pattern('*', 2, false), Sentinel("BOLDSTART"), Sentinel("BOLDEND"), None, "***" + x + "***")
         == "*" + (Sentinel("BOLDSTART") + (x + (Sentinel("BOLDEND") + "*")))
  {
    hide Sentinel, Clean;
    var first, last := Sentinel("BOLDSTART"), Sentinel("BOLDEND");
    CleanLacks(x);
    var bold := Pattern('*', 2, false);
    assert Copies('*', 2) == "**";
    var s := "***" + x + "***";
    var tail := "**" + (x + ("**" + "*"));
    assert s == "*" + tail && s[1..] == tail;
    assert Body(bold, None, s) == None by {
      assert s[2..][0] == '*';
    }
    SubHits(bold, first, last, Some('*'), x, "*");
    assert Sub(bold, first, last, Some('*'), "*") == "*" by {
      assert Sub(bold, first, last, Some('*'), "") == "";
      SubMisses(bold, first, last, Some('*'), "");
      assert ['*'] + "" == "*";
    }
  }

  lemma ItalicInBoldToWhatsApp(x: string)
    requires x != "" && Clean(x)
    ensures ToWhatsApp("***" + x + "***") == "_*" + x + "*_"
  {
    hide Sub, Unmask, Sentinel, Clean, Name;
    var first, last := "BOLDSTART", "BOLDEND";
    assert Name(first) && Name(last) by { NamesAreNames(); }
    CleanLacks(x);
    TripleStars(x);
    MaskedCore(first, last, x);
    var core := Sentinel(first) + (x + Sentinel(last));
    assert Copies('*', 1) == "*";
    assert "*" + (Sentinel(first) + (x + (Sentinel(last) + "*"))) == "*" + (core + ("*" + ""));
    SubHits(Pattern('*', 1, true), "_", "_", None, core, "");
    SubIdle(Pattern('*', 1, true), "_", "_", Some('*'), "");
    UnmaskCore(first, last, "_", x, "_");
    assert "_" + (core + ("_" + "")) == "_" + (Sentinel(first) + (x + (Sentinel(last) + "_")));
    var s := "_*" + x + "*_";
    assert "_" + ("*" + (x + ("*" + "_"))) == s;
    SubIdle(Pattern('~', 2, false), "~", "~", None, s);
    SubIdle(Pattern('`', 1, false), "```", "```", None, s);
  }

  /** Italic inside bold comes back as bold inside italic. */
  lemma NestingIsTurnedInsideOut(x: string)
    requires x != "" && Clean(x)
    ensures ToWhatsApp(ToChatwoot("*_" + x + "_*")) == "_*" + x + "*_" != "*_" + x + "_*"
  {
    hide ToChatwoot, ToWhatsApp;
    ItalicInBoldToChatwoot(x);
    ItalicInBoldToWhatsApp(x);
    assert ("_*" + x + "*_")[0] != ("*_" + x + "_*")[0];
  }
}
