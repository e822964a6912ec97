/** Text normalisation of acquired merchant knowledge.

    The program runs five passes over the text after Unicode composition (NFC).
    `Reference` below is an independent one-pass account of what they are for: every run of
    white space between two visible code points becomes one space, one line feed or two line
    feeds, and runs at either end disappear.  Composition itself is applied by the caller. */
module TextNormalization {

  const LF: char := '\n'
  const CR: char := '\r'
  const SPACE: char := ' '

  /** The Unicode White_Space property, as ranges of code points. */
  const WHITE_SPACE: seq<(char, char)> := [
    ('\U{9}', '\U{D}'), (' ', ' '), ('\U{85}', '\U{85}'), ('\U{A0}', '\U{A0}'), ('\U{1680}', '\U{1680}'),
    ('\U{2000}', '\U{200A}'), ('\U{2028}', '\U{2029}'), ('\U{202F}', '\U{202F}'), ('\U{205F}', '\U{205F}'),
    ('\U{3000}', '\U{3000}')
  ]

  predicate Blank(c: char) { c == SPACE || c == LF }

  predicate IsWhiteSpace(c: char) {
    Blank(c) || exists range :: range in WHITE_SPACE && range.0 <= c <= range.1
  }

  // ---------------------------------------------------------------- the reference

  /** What has been emitted so far, and the white space waiting to be emitted. */
  datatype Scan = Scan(out: string, gap: bool, feeds: nat)

  /** The separator that stands for a run of white space holding `feeds` line feeds. */
  function Separator(gap: bool, feeds: nat): string {
    if !gap then "" else if feeds == 0 then " " else if feeds == 1 then "\n" else "\n\n"
  }

  function Advance(s: Scan, c: char): Scan {
    if c == LF then Scan(s.out, true, if s.feeds < 2 then s.feeds + 1 else s.feeds)
    else if IsWhiteSpace(c) then s.(gap := true)
    else Scan((if s.out == "" then "" else s.out + Separator(s.gap, s.feeds)) + [c], false, 0)
  }

  function ScanAll(text: string): Scan {
    if text == "" then Scan("", false, 0)
    else Advance(ScanAll(text[..|text| - 1]), text[|text| - 1])
  }

  /** The intended result for a text whose line endings are already line feeds. */
  function Reference(text: string): string {
    ScanAll(text).out
  }

  // ---------------------------------------------------------------- the normal form

  ghost predicate NormalForm(text: string) {
    && (forall i :: 0 <= i < |text| && IsWhiteSpace(text[i]) ==> Blank(text[i]))
    && (forall i :: 0 < i < |text| && text[i] == SPACE ==> !Blank(text[i - 1]))
    && (forall i :: 0 < i < |text| && text[i] == LF ==> text[i - 1] != SPACE)
    && (forall i :: 1 < i < |text| && text[i] == LF ==> text[i - 1] != LF || text[i - 2] != LF)
    && (text != "" ==> !Blank(text[0]) && !Blank(text[|text| - 1]))
  }

  /** The code points that carry content. */
  function Visible(text: string): string {
    if text == "" then ""
    else Visible(text[..|text| - 1]) + (if IsWhiteSpace(text[|text| - 1]) then "" else [text[|text| - 1]])
  }

  // ---------------------------------------------------------------- line endings

  function ReplaceCrLf(text: string): string {
    if text == "" then ""
    else if |text| >= 2 && text[0] == CR && text[1] == LF then [LF] + ReplaceCrLf(text[2..])
    else [text[0]] + ReplaceCrLf(text[1..])
  }

  function ReplaceCr(text: string): string {
    seq(|text|, i requires 0 <= i < |text| => if text[i] == CR then LF else text[i])
  }

  function UnixLines(text: string): string {
    ReplaceCr(ReplaceCrLf(text))
  }

  /** The whole normalisation, with composition left uninterpreted. */
  ghost function Normalized(nfc: string -> string, input: string): string {
    Reference(UnixLines(nfc(input)))
  }

  // ---------------------------------------------------------------- facts about the reference

  lemma ScanSnoc(text: string, c: char)
    ensures ScanAll(text + [c]) == Advance(ScanAll(text), c)
  {
    assert (text + [c])[..|text|] == text;
  }

  lemma ScanEmpty()
    ensures ScanAll("") == Scan("", false, 0)
  {}

  lemma ScanTake(text: string, n: nat)
    requires n < |text|
    ensures ScanAll(text[..n + 1]) == Advance(ScanAll(text[..n]), text[n])
  {
    assert text[..n + 1] == text[..n] + [text[n]];
    ScanSnoc(text[..n], text[n]);
  }

  /** What the pending separator remembers about the end of the text. */
  lemma ScanTail(text: string)
    requires text != ""
    ensures ScanAll(text).gap <==> IsWhiteSpace(text[|text| - 1])
    ensures text[|text| - 1] == LF ==> ScanAll(text).feeds >= 1
    ensures |text| >= 2 && text[|text| - 1] == LF && text[|text| - 2] == LF ==> ScanAll(text).feeds == 2
    ensures ScanAll(text).feeds <= 2
  {
    var n := |text| - 1;
    if n > 0 { ScanTail(text[..n]); }
  }

  /** Leading white space leaves no trace in the result. */
  lemma {:induction false} LeadingBlanksVanish(blanks: string, text: string)
    requires forall i :: 0 <= i < |blanks| ==> IsWhiteSpace(blanks[i])
    ensures Reference(blanks + text) == Reference(text)
    ensures Reference(text) != "" ==> ScanAll(blanks + text) == ScanAll(text)
  {
    var whole := blanks + text;
    if text != "" {
      var n := |text| - 1;
      LeadingBlanksVanish(blanks, text[..n]);
      assert whole[..|whole| - 1] == blanks + text[..n];
    } else if blanks != "" {
      var n := |blanks| - 1;
      LeadingBlanksVanish(blanks[..n], "");
      assert whole == blanks && blanks[..n] + "" == blanks[..n];
    }
  }

  /** Trailing white space leaves no trace in the result. */
  lemma {:induction false} TrailingBlanksVanish(text: string, blanks: string)
    requires forall i :: 0 <= i < |blanks| ==> IsWhiteSpace(blanks[i])
    ensures Reference(text + blanks) == Reference(text)
  {
    if blanks == "" {
      assert text + blanks == text;
    } else {
      var n := |blanks| - 1;
      TrailingBlanksVanish(text, blanks[..n]);
      assert (text + blanks)[..|text| + n] == text + blanks[..n];
    }
  }

  lemma CrIsSpace()
    ensures IsWhiteSpace(CR) && IsWhiteSpace(LF) && IsWhiteSpace(SPACE)
  {
    assert WHITE_SPACE[0] in WHITE_SPACE;
  }

  lemma NormalExtend(out: string, gap: bool, feeds: nat, c: char)
    requires NormalForm(out) && out != "" && !IsWhiteSpace(c)
    ensures NormalForm(out + Separator(gap, feeds) + [c])
  {
    hide IsWhiteSpace;
    CrIsSpace();
    var sep := Separator(gap, feeds);
    var t := out + sep + [c];
    forall i | 0 <= i < |t|
      ensures t[i] == if i < |out| then out[i] else if i < |out| + |sep| then sep[i - |out|] else c
    {}
    assert sep == "" || sep == " " || sep == "\n" || sep == "\n\n";
  }

  /** Every result is in normal form. */
  lemma {:induction false} ReferenceIsNormal(text: string)
    ensures NormalForm(Reference(text))
  {
    if text != "" {
      var n := |text| - 1;
      ReferenceIsNormal(text[..n]);
      var s, c := ScanAll(text[..n]), text[n];
      if !IsWhiteSpace(c) && s.out != "" {
        NormalExtend(s.out, s.gap, s.feeds, c);
      }
    }
  }

  /** Scanning a prefix of a text in normal form loses nothing but the pending separator. */
  lemma {:induction false} NormalPrefix(text: string, n: nat)
    requires NormalForm(text) && 0 < n <= |text|
    ensures var s := ScanAll(text[..n]);
            && s.out + Separator(s.gap, s.feeds) == text[..n]
            && s.out != ""
            && (s.gap <==> Blank(text[n - 1]))
            && s.feeds == if text[n - 1] != LF then 0 else if n >= 2 && text[n - 2] == LF then 2 else 1
  {
    hide ScanAll;
    var c := text[n - 1];
    ScanTake(text, n - 1);
    if n == 1 {
      assert text[..0] == "" && text[..1] == [c];
      ScanEmpty();
    } else {
      NormalPrefix(text, n - 1);
      assert text[..n] == text[..n - 1] + [c];
      assert IsWhiteSpace(c) ==> Blank(c);
    }
  }

  /** A text is a fixed point of the normalisation exactly when it is in normal form. */
  lemma {:induction false} FixedPoints(text: string)
    ensures Reference(text) == text <==> NormalForm(text)
  {
    ReferenceIsNormal(text);
    if NormalForm(text) && text != "" {
      NormalPrefix(text, |text|);
      ScanTail(text);
      assert text[..|text|] == text;
    }
  }

  lemma {:induction false} VisibleConcat(a: string, b: string)
    ensures Visible(a + b) == Visible(a) + Visible(b)
  {
    hide IsWhiteSpace;
    if b == "" {
      assert a + b == a;
    } else {
      var n := |b| - 1;
      VisibleConcat(a, b[..n]);
      assert (a + b)[..|a| + n] == a + b[..n];
    }
  }

  lemma VisibleSnoc(text: string, c: char)
    ensures Visible(text + [c]) == Visible(text) + (if IsWhiteSpace(c) then "" else [c])
    ensures Visible([c]) == if IsWhiteSpace(c) then "" else [c]
  {
    assert (text + [c])[..|text|] == text;
  }

  lemma VisibleSeparator(gap: bool, feeds: nat)
    ensures Visible(Separator(gap, feeds)) == ""
  {
    assert Visible("\n\n"[..1]) == "";
  }

  lemma AdvanceKeepsVisible(s: Scan, c: char)
    ensures Visible(Advance(s, c).out) == Visible(s.out) + (if IsWhiteSpace(c) then "" else [c])
  {
    hide Visible, Separator;
    CrIsSpace();
    NothingIsVisible();
    if !IsWhiteSpace(c) {
      VisibleSnoc(if s.out == "" then "" else s.out + Separator(s.gap, s.feeds), c);
      VisibleConcat(s.out, Separator(s.gap, s.feeds));
      VisibleSeparator(s.gap, s.feeds);
      assert Visible(s.out) + "" == Visible(s.out);
    }
  }

  /** No visible code point is lost, added or moved. */
  lemma {:induction false} ReferenceKeepsVisible(text: string)
    ensures Visible(Reference(text)) == Visible(text)
  {
    hide Visible, Advance, IsWhiteSpace;
    NothingIsVisible();
    if text != "" {
      var n := |text| - 1;
      ReferenceKeepsVisible(text[..n]);
      AdvanceKeepsVisible(ScanAll(text[..n]), text[n]);
      VisibleSnoc(text[..n], text[n]);
      assert text == text[..n] + [text[n]];
    }
  }

  lemma NothingIsVisible()
    ensures Visible("") == ""
  {}

  lemma {:induction false} ReplaceCrKeepsVisible(text: string)
    ensures Visible(ReplaceCr(text)) == Visible(text)
  {
    if text != "" {
      var n := |text| - 1;
      ReplaceCrKeepsVisible(text[..n]);
      assert ReplaceCr(text)[..n] == ReplaceCr(text[..n]);
    }
  }

  lemma VisibleLineEndings()
    ensures Visible([CR, LF]) == "" && Visible([LF]) == ""
  {
    assert [CR, LF][..1] == [CR] && WHITE_SPACE[0].0 <= CR <= WHITE_SPACE[0].1;
    VisibleSnoc("", CR);
    VisibleSnoc("", LF);
  }

  lemma {:induction false} ReplaceCrLfKeepsVisible(text: string)
    ensures Visible(ReplaceCrLf(text)) == Visible(text)
    ensures CR !in text ==> ReplaceCrLf(text) == text
  {
    if text != "" {
      hide Visible;
      var pair := |text| >= 2 && text[0] == CR && text[1] == LF;
      var w := if pair then 2 else 1;
      var head := if pair then [LF] else [text[0]];
      assert text[..w] == if pair then [CR, LF] else head;
      assert text == text[..w] + text[w..];
      VisibleLineEndings();
      ReplaceCrLfKeepsVisible(text[w..]);
      VisibleConcat(head, ReplaceCrLf(text[w..]));
      VisibleConcat(text[..w], text[w..]);
    }
  }

  /** Line-ending conversion removes every carriage return and touches nothing visible. */
  lemma UnixLinesKeepVisible(text: string)
    ensures Visible(UnixLines(text)) == Visible(text)
    ensures CR !in UnixLines(text)
    ensures CR !in text ==> UnixLines(text) == text
  {
    ReplaceCrLfKeepsVisible(text);
    ReplaceCrKeepsVisible(ReplaceCrLf(text));
  }

  /** The laws of the whole normalisation: the result is in normal form, carries exactly the
      visible code points of the composed input in order, and normalising it again changes
      nothing unless composition itself would. */
  lemma {:induction false} NormalizationLaws(nfc: string -> string, input: string)
    ensures var r := Normalized(nfc, input);
            && NormalForm(r)
            && Visible(r) == Visible(nfc(input))
            && (nfc(r) == r ==> Normalized(nfc, r) == r)
  {
    var lines := UnixLines(nfc(input));
    var r := Reference(lines);
    ReferenceIsNormal(lines);
    ReferenceKeepsVisible(lines);
    UnixLinesKeepVisible(nfc(input));
    UnixLinesKeepVisible(r);
    assert CR !in r;
    FixedPoints(r);
  }

  // ---------------------------------------------------------------- composition

  /** The two facts about Unicode composition that idempotence needs: it never combines across a white
      space code point, and space and line feed are composed. */
  ghost predicate RespectsSpaces(nfc: string -> string) {
    && (forall text :: nfc(nfc(text)) == nfc(text))
    && (forall a, c, b :: IsWhiteSpace(c) ==>
          (Composed(nfc, a + [c] + b) <==> Composed(nfc, a) && Composed(nfc, [c]) && Composed(nfc, b)))
    && Composed(nfc, "") && Composed(nfc, [SPACE]) && Composed(nfc, [LF])
  }

  ghost predicate Composed(nfc: string -> string, text: string) { nfc(text) == text }

  lemma Around(nfc: string -> string, a: string, c: char, b: string)
    requires RespectsSpaces(nfc) && IsWhiteSpace(c)
    ensures Composed(nfc, a + [c] + b) <==> Composed(nfc, a) && Composed(nfc, [c]) && Composed(nfc, b)
  {}

  /** The first white space of a text, or its end. */
  function FirstSpace(text: string): (n: nat)
    ensures n <= |text| && forall i :: 0 <= i < n ==> !IsWhiteSpace(text[i])
    ensures n < |text| ==> IsWhiteSpace(text[n])
  {
    if text == "" || IsWhiteSpace(text[0]) then 0 else 1 + FirstSpace(text[1..])
  }

  lemma {:induction false} CrLfAfterWord(word: string, rest: string)
    requires forall i :: 0 <= i < |word| ==> !IsWhiteSpace(word[i])
    ensures ReplaceCrLf(word + rest) == word + ReplaceCrLf(rest)
  {
    hide IsWhiteSpace;
    if word == "" {
      assert word + rest == rest;
    } else {
      assert (word + rest)[1..] == word[1..] + rest;
      CrLfAfterWord(word[1..], rest);
      CrIsSpace();
      assert word[0] != CR;
    }
  }

  lemma CrLfUnfolds(text: string)
    requires text != ""
    ensures ReplaceCrLf(text) == if |text| >= 2 && text[0] == CR && text[1] == LF then [LF] + ReplaceCrLf(text[2..])
                                 else [text[0]] + ReplaceCrLf(text[1..])
  {}

  lemma CrLfAtSpace(text: string, n: nat)
    requires n < |text| && forall i :: 0 <= i < n ==> !IsWhiteSpace(text[i])
    ensures ReplaceCrLf(text)
            == if n + 1 < |text| && text[n] == CR && text[n + 1] == LF
               then text[..n] + [LF] + ReplaceCrLf(text[n + 2..])
               else text[..n] + [text[n]] + ReplaceCrLf(text[n + 1..])
  {
    hide IsWhiteSpace, ReplaceCrLf;
    var rest := text[n..];
    assert text == text[..n] + rest;
    CrLfAfterWord(text[..n], rest);
    CrLfUnfolds(rest);
    if n + 1 < |text| && text[n] == CR && text[n + 1] == LF {
      assert rest[2..] == text[n + 2..];
      Associates(text[..n], LF, ReplaceCrLf(text[n + 2..]));
    } else {
      assert rest[1..] == text[n + 1..];
      Associates(text[..n], text[n], ReplaceCrLf(text[n + 1..]));
    }
  }

  lemma Associates(a: string, c: char, b: string)
    ensures a + ([c] + b) == a + [c] + b
  {}

  lemma {:induction false} CrLfKeepsComposed(nfc: string -> string, text: string)
    requires RespectsSpaces(nfc) && Composed(nfc, text)
    ensures Composed(nfc, ReplaceCrLf(text))
    decreases |text|
  {
    hide IsWhiteSpace, RespectsSpaces, Composed, ReplaceCrLf;
    CrIsSpace();
    BlanksAreComposed(nfc);
    var n := FirstSpace(text);
    if n == |text| {
      CrLfOfWord(text);
    } else {
      assert text == text[..n] + [text[n]] + text[n + 1..];
      Around(nfc, text[..n], text[n], text[n + 1..]);
      CrLfAtSpace(text, n);
      if n + 1 < |text| && text[n] == CR && text[n + 1] == LF {
        assert text[n + 1..] == "" + [LF] + text[n + 2..];
        Around(nfc, "", LF, text[n + 2..]);
        CrLfKeepsComposed(nfc, text[n + 2..]);
        Around(nfc, text[..n], LF, ReplaceCrLf(text[n + 2..]));
      } else {
        CrLfKeepsComposed(nfc, text[n + 1..]);
        Around(nfc, text[..n], text[n], ReplaceCrLf(text[n + 1..]));
      }
    }
  }

  lemma CrLfOfWord(word: string)
    requires forall i :: 0 <= i < |word| ==> !IsWhiteSpace(word[i])
    ensures ReplaceCrLf(word) == word
  {
    CrLfAfterWord(word, "");
    assert word + "" == word;
  }

  lemma BlanksAreComposed(nfc: string -> string)
    requires RespectsSpaces(nfc)
    ensures Composed(nfc, "") && Composed(nfc, [SPACE]) && Composed(nfc, [LF])
  {}

  lemma {:induction false} CrKeepsComposed(nfc: string -> string, text: string)
    requires RespectsSpaces(nfc) && Composed(nfc, text)
    ensures Composed(nfc, ReplaceCr(text))
    decreases |text|
  {
    hide IsWhiteSpace, RespectsSpaces, Composed;
    CrIsSpace();
    BlanksAreComposed(nfc);
    var n := FirstSpace(text);
    if n == |text| {
      assert ReplaceCr(text) == text;
    } else {
      var word, c, rest := text[..n], text[n], text[n + 1..];
      assert text == word + [c] + rest;
      Around(nfc, word, c, rest);
      CrKeepsComposed(nfc, rest);
      var d := if c == CR then LF else c;
      assert ReplaceCr(text) == word + [d] + ReplaceCr(rest);
      Around(nfc, word, d, ReplaceCr(rest));
    }
  }

  /** Nothing, or a composed text and a blank. */
  ghost predicate EndsBlank(nfc: string -> string, head: string) {
    head == "" || (Blank(head[|head| - 1]) && Composed(nfc, head[..|head| - 1]))
  }

  lemma WordIsComposed(nfc: string -> string, text: string, i: nat, j: nat)
    requires RespectsSpaces(nfc) && Composed(nfc, text) && i <= j <= |text|
    requires (i == 0 || IsWhiteSpace(text[i - 1])) && (j == |text| || IsWhiteSpace(text[j]))
    ensures Composed(nfc, text[i..j])
  {
    hide IsWhiteSpace, RespectsSpaces, Composed;
    var front := text[..j];
    if j < |text| {
      assert text == front + [text[j]] + text[j + 1..];
      Around(nfc, front, text[j], text[j + 1..]);
    } else {
      assert front == text;
    }
    if i > 0 {
      assert front == text[..i - 1] + [text[i - 1]] + text[i..j];
      Around(nfc, text[..i - 1], text[i - 1], text[i..j]);
    } else {
      assert front == text[i..j];
    }
  }

  lemma WordAfterBlank(nfc: string -> string, head: string, word: string)
    requires RespectsSpaces(nfc) && EndsBlank(nfc, head) && Composed(nfc, word)
    ensures Composed(nfc, head + word)
  {
    hide RespectsSpaces, Composed;
    BlanksAreComposed(nfc);
    if head == "" {
      assert head + word == word;
    } else {
      var n := |head| - 1;
      assert head + word == head[..n] + [head[n]] + word;
      Around(nfc, head[..n], head[n], word);
    }
  }

  lemma SeparatorEndsBlank(nfc: string -> string, out: string, feeds: nat)
    requires RespectsSpaces(nfc) && Composed(nfc, out)
    ensures EndsBlank(nfc, out + Separator(true, feeds))
  {
    hide RespectsSpaces, Composed;
    BlanksAreComposed(nfc);
    var head := out + Separator(true, feeds);
    if feeds >= 2 {
      assert head[..|head| - 1] == out + [LF] + "";
      Around(nfc, out, LF, "");
    } else {
      assert head[..|head| - 1] == out;
    }
  }

  /** The scan up to `n`, whose last word starts at `i`: what was emitted before that word ends in a
      blank, and is composed up to there. */
  ghost predicate WordOpen(nfc: string -> string, text: string, n: nat, i: nat, head: string)
    requires i <= n <= |text|
  {
    && ScanAll(text[..n]).out == head + text[i..n] && EndsBlank(nfc, head)
    && (i == 0 || IsWhiteSpace(text[i - 1])) && !ScanAll(text[..n]).gap && i < n
    && forall k :: i <= k < n ==> !IsWhiteSpace(text[k])
  }

  /** The emitted text is composed between words; inside a word, up to its start. */
  lemma {:induction false} ScanIsComposed(nfc: string -> string, text: string, n: nat) returns (i: nat, head: string)
    requires RespectsSpaces(nfc) && Composed(nfc, text) && n <= |text|
    ensures i <= n
    ensures WordOpen(nfc, text, n, i, head)
            || (i == n && Composed(nfc, ScanAll(text[..n]).out) && (n == 0 || IsWhiteSpace(text[n - 1])))
  {
    hide RespectsSpaces, Composed, IsWhiteSpace, EndsBlank, Separator, ScanAll;
    if n == 0 {
      BlanksAreComposed(nfc);
      ScanEmpty();
      i, head := 0, "";
    } else {
      var j, before := ScanIsComposed(nfc, text, n - 1);
      ScanTake(text, n - 1);
      var c := text[n - 1];
      var scan := ScanAll(text[..n - 1]);
      CrIsSpace();
      if IsWhiteSpace(c) {
        i, head := n, "";
        if WordOpen(nfc, text, n - 1, j, before) {
          WordIsComposed(nfc, text, j, n - 1);
          WordAfterBlank(nfc, before, text[j..n - 1]);
        }
      } else if WordOpen(nfc, text, n - 1, j, before) {
        i, head := j, before;
        assert text[j..n] == text[j..n - 1] + [c];
        NoGapNoSeparator(scan, c);
      } else {
        i := n - 1;
        head := if scan.out == "" then "" else scan.out + Separator(scan.gap, scan.feeds);
        assert text[n - 1..n] == [c];
        GapAfterSpace(text, n - 1);
        if scan.out != "" { SeparatorEndsBlank(nfc, scan.out, scan.feeds); } else { NothingEndsBlank(nfc); }
        WordFollows(scan, c);
      }
    }
  }

  lemma NothingEndsBlank(nfc: string -> string)
    ensures EndsBlank(nfc, "")
  {}

  lemma NoGapNoSeparator(s: Scan, c: char)
    requires !s.gap && !IsWhiteSpace(c) && s.out != ""
    ensures Advance(s, c) == Scan(s.out + [c], false, 0)
  {
    CrIsSpace();
    assert s.out + "" == s.out;
  }

  lemma WordFollows(s: Scan, c: char)
    requires !IsWhiteSpace(c)
    ensures Advance(s, c) == Scan((if s.out == "" then "" else s.out + Separator(s.gap, s.feeds)) + [c], false, 0)
  {
    CrIsSpace();
  }

  lemma GapAfterSpace(text: string, n: nat)
    requires n <= |text| && (n == 0 || IsWhiteSpace(text[n - 1]))
    ensures ScanAll(text[..n]).gap || ScanAll(text[..n]).out == ""
  {
    if n > 0 { ScanTail(text[..n]); }
  }

  /** Normalising twice is normalising once, whatever the text, as long as composition never combines
      across white space. */
  lemma NormalizationIsIdempotent(nfc: string -> string, input: string)
    requires RespectsSpaces(nfc)
    ensures Normalized(nfc, Normalized(nfc, input)) == Normalized(nfc, input)
  {
    var composed := nfc(input);
    var r := Normalized(nfc, input);
    assert Composed(nfc, composed);
    CrLfKeepsComposed(nfc, composed);
    CrKeepsComposed(nfc, ReplaceCrLf(composed));
    var text := UnixLines(composed);
    var i, head := ScanIsComposed(nfc, text, |text|);
    assert text[..|text|] == text;
    if WordOpen(nfc, text, |text|, i, head) {
      WordIsComposed(nfc, text, i, |text|);
      WordAfterBlank(nfc, head, text[i..|text|]);
    }
    NormalizationLaws(nfc, input);
  }

  // ---------------------------------------------------------------- the five passes

  /** Pass 1: every white space code point except the line feed becomes a space. */
  method ConvertSpaces(text: string) returns (converted: string)
    ensures ScanAll(converted) == ScanAll(text)
    ensures forall i :: 0 <= i < |converted| && IsWhiteSpace(converted[i]) ==> Blank(converted[i])
  {
    hide ScanAll;
    converted := "";
    for i := 0 to |text|
      invariant ScanAll(converted) == ScanAll(text[..i])
      invariant forall k :: 0 <= k < |converted| && IsWhiteSpace(converted[k]) ==> Blank(converted[k])
    {
      ScanTake(text, i);
      var c := if text[i] != LF && IsWhiteSpace(text[i]) then SPACE else text[i];
      ScanSnoc(converted, c);
      converted := converted + [c];
    }
    assert text[..|text|] == text;
  }

  ghost predicate OnlyBlanks(text: string) {
    forall i :: 0 <= i < |text| && IsWhiteSpace(text[i]) ==> Blank(text[i])
  }

  /** Pass 2: no two spaces in a row. */
  method CollapseSpaces(converted: string) returns (collapsed: string)
    requires OnlyBlanks(converted)
    ensures ScanAll(collapsed) == ScanAll(converted) && OnlyBlanks(collapsed)
    ensures forall i :: 0 < i < |collapsed| && collapsed[i] == SPACE ==> collapsed[i - 1] != SPACE
  {
    hide ScanAll;
    collapsed := "";
    for i := 0 to |converted|
      invariant ScanAll(collapsed) == ScanAll(converted[..i]) && OnlyBlanks(collapsed)
      invariant forall k :: 0 < k < |collapsed| && collapsed[k] == SPACE ==> collapsed[k - 1] != SPACE
    {
      ScanTake(converted, i);
      if converted[i] == SPACE && collapsed != "" && collapsed[|collapsed| - 1] == SPACE {
        ScanTail(collapsed);
        continue;
      }
      ScanSnoc(collapsed, converted[i]);
      collapsed := collapsed + [converted[i]];
    }
    assert converted[..|converted|] == converted;
  }

  /** No space touches another space or a line feed. */
  ghost predicate LinesClean(text: string) {
    && OnlyBlanks(text)
    && (forall i :: 0 < i < |text| && text[i] == SPACE ==> !Blank(text[i - 1]))
    && (forall i :: 0 < i < |text| && text[i] == LF ==> text[i - 1] != SPACE)
  }

  lemma LinesCleanSnoc(text: string, c: char)
    requires LinesClean(text) && (IsWhiteSpace(c) ==> Blank(c))
    requires text != "" && c == SPACE ==> !Blank(text[|text| - 1])
    requires text != "" && c == LF ==> text[|text| - 1] != SPACE
    ensures LinesClean(text + [c])
  {
    var t := text + [c];
    assert forall i :: 0 <= i < |text| ==> t[i] == text[i];
  }

  /** The popping half of pass 3: the line feed to come makes the spaces irrelevant. */
  method PopSpaces(text: string) returns (r: string)
    requires LinesClean(text)
    ensures LinesClean(r) && (r != "" ==> r[|r| - 1] != SPACE)
    ensures Advance(ScanAll(r), LF) == Advance(ScanAll(text), LF)
  {
    r := text;
    while r != "" && r[|r| - 1] == SPACE
      invariant LinesClean(r) && Advance(ScanAll(r), LF) == Advance(ScanAll(text), LF)
      decreases |r|
    {
      r := r[..|r| - 1];
    }
  }

  /** The skipping half of pass 3: spaces after a line feed add nothing to the gap it opened. */
  method SkipSpaces(text: string, from: nat) returns (index: nat)
    requires from < |text| && ScanAll(text[..from + 1]).gap
    ensures from <= index < |text| && (index + 1 < |text| ==> text[index + 1] != SPACE)
    ensures ScanAll(text[..index + 1]) == ScanAll(text[..from + 1])
  {
    hide ScanAll;
    index := from;
    while index + 1 < |text| && text[index + 1] == SPACE
      invariant from <= index < |text|
      invariant ScanAll(text[..index + 1]) == ScanAll(text[..from + 1])
    {
      ScanTake(text, index + 1);
      index := index + 1;
    }
  }

  /** Pass 3: spaces beside a line feed go, before it by popping and after it by skipping. */
  method CleanLines(collapsed: string) returns (cleaned: string)
    requires OnlyBlanks(collapsed)
    requires forall i :: 0 < i < |collapsed| && collapsed[i] == SPACE ==> collapsed[i - 1] != SPACE
    ensures ScanAll(cleaned) == ScanAll(collapsed) && LinesClean(cleaned)
  {
    hide ScanAll;
    cleaned := "";
    var index := 0;
    while index < |collapsed|
      invariant 0 <= index <= |collapsed|
      invariant ScanAll(cleaned) == ScanAll(collapsed[..index]) && LinesClean(cleaned)
      invariant cleaned != "" && Blank(cleaned[|cleaned| - 1]) && index < |collapsed| ==> collapsed[index] != SPACE
    {
      var codePoint := collapsed[index];
      ScanTake(collapsed, index);
      if codePoint == LF {
        cleaned := PopSpaces(cleaned);
        index := SkipSpaces(collapsed, index);
      }
      ScanSnoc(cleaned, codePoint);
      LinesCleanSnoc(cleaned, codePoint);
      cleaned := cleaned + [codePoint];
      index := index + 1;
    }
    assert collapsed[..|collapsed|] == collapsed;
  }

  /** At most two line feeds in a row. */
  ghost predicate FeedsClean(text: string) {
    && LinesClean(text)
    && (forall i :: 1 < i < |text| && text[i] == LF ==> text[i - 1] != LF || text[i - 2] != LF)
  }

  /** Pass 4: a third consecutive line feed is dropped. */
  method CollapseBlankLines(cleaned: string) returns (text: string)
    requires LinesClean(cleaned)
    ensures ScanAll(text) == ScanAll(cleaned) && FeedsClean(text)
  {
    hide ScanAll;
    text := "";
    var consecutive := 0;
    for i := 0 to |cleaned|
      invariant ScanAll(text) == ScanAll(cleaned[..i]) && FeedsClean(text)
      invariant if i == 0 then text == "" else text != "" && text[|text| - 1] == cleaned[i - 1]
      invariant 0 <= consecutive
      invariant consecutive > 0 <==> text != "" && text[|text| - 1] == LF
      invariant consecutive > 1 <==> |text| > 1 && text[|text| - 1] == LF && text[|text| - 2] == LF
    {
      ScanTake(cleaned, i);
      if cleaned[i] == LF {
        consecutive := consecutive + 1;
        if consecutive > 2 {
          ScanTail(text);
          continue;
        }
      } else {
        consecutive := 0;
      }
      ScanSnoc(text, cleaned[i]);
      text := text + [cleaned[i]];
    }
    assert cleaned[..|cleaned|] == cleaned;
  }

  lemma SliceIsNormal(text: string, start: nat, end: nat)
    requires FeedsClean(text) && start <= end <= |text|
    requires start < end ==> !Blank(text[start]) && !Blank(text[end - 1])
    ensures NormalForm(text[start..end])
  {
    var t := text[start..end];
    assert forall i :: 0 <= i < |t| ==> t[i] == text[start + i];
  }

  lemma EndsVanish(text: string, start: nat, end: nat)
    requires start <= end <= |text|
    requires forall k :: 0 <= k < start ==> Blank(text[k])
    requires forall k :: end <= k < |text| ==> Blank(text[k])
    ensures Reference(text[start..end]) == Reference(text)
  {
    hide ScanAll;
    var middle := text[start..end];
    TrailingBlanksVanish(middle, text[end..]);
    LeadingBlanksVanish(text[..start], middle + text[end..]);
    assert text == text[..start] + (middle + text[end..]);
  }

  /** Pass 5: the ends are trimmed. */
  method Trim(text: string) returns (r: string)
    requires FeedsClean(text)
    ensures Reference(r) == Reference(text) && NormalForm(r)
  {
    hide ScanAll, IsWhiteSpace, NormalForm, FeedsClean;
    var start, end := 0, |text|;
    while start < end && (text[start] == SPACE || text[start] == LF)
      invariant 0 <= start <= end
      invariant forall k :: 0 <= k < start ==> Blank(text[k])
    {
      start := start + 1;
    }
    while end > start && (text[end - 1] == SPACE || text[end - 1] == LF)
      invariant start <= end <= |text|
      invariant forall k :: end <= k < |text| ==> Blank(text[k])
    {
      end := end - 1;
    }
    r := text[start..end];
    SliceIsNormal(text, start, end);
    EndsVanish(text, start, end);
  }

  /** The five passes compute the reference. */
  method Normalize(composed: string) returns (r: string)
    ensures r == Reference(UnixLines(composed))
  {
    var converted := ConvertSpaces(UnixLines(composed));
    var collapsed := CollapseSpaces(converted);
    var cleaned := CleanLines(collapsed);
    var text := CollapseBlankLines(cleaned);
    r := Trim(text);
    FixedPoints(r);
  }
}
