/** Display formatting: the branch `formatNumber` takes, and the `#tag` / `@mention`
    highlighting done by a global regular-expression replace of `/#(\w+)/g`. */
module Formatters {

  /** Which branch `formatNumber` takes. The digits of the scaled branches come from
      floating-point `toFixed(1)` and are not modelled. */
  datatype NumberFormat = Plain(text: string) | Thousands | Millions

  function DigitChar(d: int): char
    requires 0 <= d < 10
  {
    ('0' as int + d) as char
  }

  predicate IsDigit(c: char)
  {
    '0' <= c <= '9'
  }

  /** The decimal digits of `n`, most significant first, with no leading zero. */
  function NatToString(n: nat): (s: string)
    ensures s != [] && forall i :: 0 <= i < |s| ==> IsDigit(s[i])
    ensures |s| > 1 ==> s[0] != '0'
    decreases n
  {
    if n < 10 then [DigitChar(n)] else NatToString(n / 10) + [DigitChar(n % 10)]
  }

  /** `Number.prototype.toString` on an integer. */
  function IntToString(n: int): (s: string)
    ensures s != []
    ensures n < 0 <==> s[0] == '-'
    ensures IsNumeral(s)
  {
    if n < 0 then "-" + NatToString(-n) else NatToString(n)
  }

  /** The value of a string of decimal digits: the reference reading of `IntToString`. */
  function DigitValue(c: char): nat
    requires IsDigit(c)
  {
    c as int - '0' as int
  }

  function ParseNat(s: string): nat
    requires forall i :: 0 <= i < |s| ==> IsDigit(s[i])
  {
    if s == [] then 0 else ParseNat(s[..|s| - 1]) * 10 + DigitValue(s[|s| - 1])
  }

  /** Digits, optionally after a minus sign. */
  predicate IsNumeral(s: string)
  {
    if s != [] && s[0] == '-' then forall i :: 1 <= i < |s| ==> IsDigit(s[i])
    else forall i :: 0 <= i < |s| ==> IsDigit(s[i])
  }

  function ParseInt(s: string): int
    requires IsNumeral(s)
  {
    if s != [] && s[0] == '-' then 0 - ParseNat(s[1..]) as int else ParseNat(s)
  }

  lemma {:induction false} ParseNatToString(n: nat)
    ensures ParseNat(NatToString(n)) == n
    decreases n
  {
    var s := NatToString(n);
    if n >= 10 {
      ParseNatToString(n / 10);
      assert s[..|s| - 1] == NatToString(n / 10);
    }
  }

  /** Reading back the printed integer gives the integer. */
  lemma IntToStringRoundTrip(n: int)
    ensures IsNumeral(IntToString(n)) && ParseInt(IntToString(n)) == n
  {
    var s := IntToString(n);
    if n < 0 {
      var d := NatToString(-n);
      assert s == "-" + d && s[1..] == d;
      ParseNatToString(-n);
    } else {
      assert s == NatToString(n) && s[0] != '-';
      ParseNatToString(n);
    }
  }

  /** `formatNumber`: millions from 1000000 up, thousands from 1000 up, else the
      plain decimal text. */
  function FormatNumber(num: int): (f: NumberFormat)
    ensures f == Millions <==> num >= 1000000
    ensures f == Thousands <==> 1000 <= num < 1000000
    ensures f.Plain? <==> num < 1000
    ensures f.Plain? ==> IsNumeral(f.text) && ParseInt(f.text) == num
  {
    if num >= 1000000 then Millions
    else if num >= 1000 then Thousands
    else
      IntToStringRoundTrip(num);
      Plain(IntToString(num))
  }

  /** `\w` without the `u` flag. */
  predicate IsWordChar(c: char)
  {
    ('A' <= c <= 'Z') || ('a' <= c <= 'z') || ('0' <= c <= '9') || c == '_'
  }

  /** The length of the longest prefix of `s` made of word characters (`\w+` is greedy). */
  function WordRun(s: string): (n: nat)
    ensures n <= |s|
    ensures forall i :: 0 <= i < n ==> IsWordChar(s[i])
    ensures n < |s| ==> !IsWordChar(s[n])
  {
    if s != [] && IsWordChar(s[0]) then 1 + WordRun(s[1..]) else 0
  }

  /** A piece of the text as the replace sees it: a character copied as it is, or a
      matched tag (its word, without the sigil). */
  datatype Piece = Literal(c: char) | Tag(word: string)

  predicate IsWord(w: string)
  {
    w != [] && forall i :: 0 <= i < |w| ==> IsWordChar(w[i])
  }

  predicate StartsWithWordChar(ps: seq<Piece>)
  {
    ps != [] && ps[0].Literal? && IsWordChar(ps[0].c)
  }

  /** What a left-to-right, non-overlapping, greedy match of `sigil(\w+)` yields: tags
      are non-empty words, no tag could have been extended, and no literal sigil was
      followed by a word character. */
  predicate WellFormed(ps: seq<Piece>, sigil: char)
  {
    ps == [] ||
    ((ps[0].Tag? ==> IsWord(ps[0].word) && !StartsWithWordChar(ps[1..])) &&
     (ps[0] == Literal(sigil) ==> !StartsWithWordChar(ps[1..])) &&
     WellFormed(ps[1..], sigil))
  }

  /** The text a piece stands for: a tag reads as the sigil and its word. */
  function PieceSource(p: Piece, sigil: char): string
  {
    match p
    case Literal(c) => [c]
    case Tag(w) => [sigil] + w
  }

  /** What the replace writes for a piece: a tag becomes
      `<span class="text-primary font-medium">` + sigil + word + `</span>`. */
  function PieceMarkup(p: Piece, sigil: char): string
  {
    match p
    case Literal(c) => [c]
    case Tag(w) => "<span class=\"text-primary font-medium\">" + [sigil] + w + "</span>"
  }

  /** The text with the markup taken off again. */
  function Source(ps: seq<Piece>, sigil: char): string
  {
    if ps == [] then [] else PieceSource(ps[0], sigil) + Source(ps[1..], sigil)
  }

  /** The replacement text. */
  function Markup(ps: seq<Piece>, sigil: char): string
  {
    if ps == [] then [] else PieceMarkup(ps[0], sigil) + Markup(ps[1..], sigil)
  }

  lemma SourceCons(p: Piece, rest: seq<Piece>, sigil: char)
    ensures Source([p] + rest, sigil) == PieceSource(p, sigil) + Source(rest, sigil)
  {
    assert ([p] + rest)[1..] == rest;
  }

  lemma MarkupCons(p: Piece, rest: seq<Piece>, sigil: char)
    ensures Markup([p] + rest, sigil) == PieceMarkup(p, sigil) + Markup(rest, sigil)
  {
    assert ([p] + rest)[1..] == rest;
  }

  /** Split `text` the way the global replace of `/sigil(\w+)/g` does: scanning left to
      right, a sigil followed by a word character starts a tag that takes the whole
      word run; every other character is copied. */
  function Scan(text: string, sigil: char): seq<Piece>
    decreases |text|
  {
    if text == [] then []
    else if text[0] == sigil && WordRun(text[1..]) > 0 then
      var n := WordRun(text[1..]);
      [Tag(text[1..1 + n])] + Scan(text[1 + n..], sigil)
    else
      [Literal(text[0])] + Scan(text[1..], sigil)
  }

  /** The split is well formed, and it starts with a literal word character exactly
      when the text starts with a word character. */
  lemma {:induction false} ScanWellFormed(text: string, sigil: char)
    requires !IsWordChar(sigil)
    ensures WellFormed(Scan(text, sigil), sigil)
    ensures text != [] ==> Scan(text, sigil) != [] && (StartsWithWordChar(Scan(text, sigil)) <==> IsWordChar(text[0]))
    decreases |text|
  {
    if text != [] {
      var ps := Scan(text, sigil);
      if text[0] == sigil && WordRun(text[1..]) > 0 {
        var n := WordRun(text[1..]);
        var tail := text[1 + n..];
        var rest := Scan(tail, sigil);
        assert ps == [Tag(text[1..1 + n])] + rest && ps[1..] == rest;
        ScanWellFormed(tail, sigil);
        assert tail != [] ==> tail[0] == text[1..][n];
      } else {
        var rest := Scan(text[1..], sigil);
        assert ps == [Literal(text[0])] + rest && ps[1..] == rest;
        ScanWellFormed(text[1..], sigil);
        assert text[1..] != [] ==> text[1..][0] == text[1];
      }
    }
  }

  /** Removing the inserted markup gives back the original text. */
  lemma {:induction false} ScanRoundTrip(text: string, sigil: char)
    requires !IsWordChar(sigil)
    ensures Source(Scan(text, sigil), sigil) == text
    decreases |text|
  {
    if text != [] {
      if text[0] == sigil && WordRun(text[1..]) > 0 {
        var n := WordRun(text[1..]);
        ScanRoundTrip(text[1 + n..], sigil);
        TagRoundTrip(text, sigil, n);
      } else {
        ScanRoundTrip(text[1..], sigil);
        LiteralRoundTrip(text, sigil);
      }
    }
  }

  lemma TagRoundTrip(text: string, sigil: char, n: nat)
    requires text != [] && text[0] == sigil && n == WordRun(text[1..]) && n > 0
    requires Source(Scan(text[1 + n..], sigil), sigil) == text[1 + n..]
    ensures Source(Scan(text, sigil), sigil) == text
  {
    var w := text[1..1 + n];
    var rest := Scan(text[1 + n..], sigil);
    assert Scan(text, sigil) == [Tag(w)] + rest;
    SourceCons(Tag(w), rest, sigil);
    assert text == [sigil] + w + text[1 + n..];
  }

  lemma LiteralRoundTrip(text: string, sigil: char)
    requires text != [] && !(text[0] == sigil && WordRun(text[1..]) > 0)
    requires Source(Scan(text[1..], sigil), sigil) == text[1..]
    ensures Source(Scan(text, sigil), sigil) == text
  {
    var rest := Scan(text[1..], sigil);
    assert Scan(text, sigil) == [Literal(text[0])] + rest;
    SourceCons(Literal(text[0]), rest, sigil);
    assert text == [text[0]] + text[1..];
  }

  /** Text without the sigil comes out as it went in. */
  lemma {:induction false} NoSigilUnchanged(text: string, sigil: char)
    requires !IsWordChar(sigil)
    ensures sigil !in text ==> Markup(Scan(text, sigil), sigil) == text
    decreases |text|
  {
    if text != [] && sigil !in text {
      var tail := text[1..];
      assert text == [text[0]] + tail;
      assert sigil !in tail;
      var rest := Scan(tail, sigil);
      assert Scan(text, sigil) == [Literal(text[0])] + rest;
      NoSigilUnchanged(tail, sigil);
      MarkupCons(Literal(text[0]), rest, sigil);
    }
  }

  /** The split is the only well-formed one: any pieces that are well formed and read
      back as `text` are the ones `Scan` produces. */
  lemma {:induction false} ScanUnique(text: string, sigil: char, ps: seq<Piece>)
    requires !IsWordChar(sigil)
    requires WellFormed(ps, sigil) && Source(ps, sigil) == text
    ensures ps == Scan(text, sigil)
    decreases |text|
  {
    if ps != [] {
      var rest := ps[1..];
      assert ps == [ps[0]] + rest;
      SourceCons(ps[0], rest, sigil);
      var tail := Source(rest, sigil);
      if ps[0].Literal? {
        assert text == [ps[0].c] + tail;
        assert text[1..] == tail;
        ScanUnique(tail, sigil, rest);
        ScanLiteralStep(text, sigil, ps[0].c, rest);
      } else {
        var w := ps[0].word;
        assert text == [sigil] + w + tail;
        assert text[1 + |w|..] == tail;
        ScanUnique(tail, sigil, rest);
        ScanTagStep(text, sigil, w, rest);
      }
    }
  }

  /** A literal followed by the scan of the rest is the scan of the whole text, when
      the literal is not a sigil that the rest could have extended into a tag. */
  lemma ScanLiteralStep(text: string, sigil: char, c: char, rest: seq<Piece>)
    requires !IsWordChar(sigil)
    requires WellFormed(rest, sigil) && (c == sigil ==> !StartsWithWordChar(rest))
    requires text == [c] + Source(rest, sigil)
    requires rest == Scan(text[1..], sigil)
    ensures [Literal(c)] + rest == Scan(text, sigil)
  {
    assert text[0] == c && text[1..] == Source(rest, sigil);
    if c == sigil && WordRun(text[1..]) > 0 {
      // the next piece starts with a word character, which a literal sigil forbids
      SourceStartsWithWordChar(rest, sigil);
      assert false;
    }
  }

  /** A tag followed by the scan of the rest is the scan of the whole text, when the
      rest does not start with a word character. */
  lemma ScanTagStep(text: string, sigil: char, w: string, rest: seq<Piece>)
    requires !IsWordChar(sigil) && IsWord(w)
    requires WellFormed(rest, sigil) && !StartsWithWordChar(rest)
    requires text == [sigil] + w + Source(rest, sigil)
    requires rest == Scan(text[1 + |w|..], sigil)
    ensures [Tag(w)] + rest == Scan(text, sigil)
  {
    var tail := Source(rest, sigil);
    assert text[0] == sigil && text[1..] == w + tail;
    WordRunOfTag(w, tail, rest, sigil);
    assert text[1..1 + |w|] == w;
  }

  /** A well-formed piece list whose text starts with a word character starts with a
      literal word character. */
  lemma SourceStartsWithWordChar(ps: seq<Piece>, sigil: char)
    requires !IsWordChar(sigil) && WellFormed(ps, sigil)
    requires Source(ps, sigil) != [] && IsWordChar(Source(ps, sigil)[0])
    ensures StartsWithWordChar(ps)
  {
    assert ps == [ps[0]] + ps[1..];
    SourceCons(ps[0], ps[1..], sigil);
    assert Source(ps, sigil)[0] == PieceSource(ps[0], sigil)[0];
  }

  /** After a well-formed tag `w`, the greedy word run is exactly `w`. */
  lemma WordRunOfTag(w: string, tail: string, rest: seq<Piece>, sigil: char)
    requires !IsWordChar(sigil) && IsWord(w)
    requires WellFormed(rest, sigil) && tail == Source(rest, sigil) && !StartsWithWordChar(rest)
    ensures WordRun(w + tail) == |w|
  {
    if tail != [] && IsWordChar(tail[0]) {
      SourceStartsWithWordChar(rest, sigil);
    }
    WordRunAppend(w, tail);
  }

  lemma {:induction false} WordRunAppend(w: string, tail: string)
    requires forall i :: 0 <= i < |w| ==> IsWordChar(w[i])
    requires tail == [] || !IsWordChar(tail[0])
    ensures WordRun(w + tail) == |w|
  {
    if w != [] {
      assert (w + tail)[1..] == w[1..] + tail;
      WordRunAppend(w[1..], tail);
    } else {
      assert w + tail == tail;
    }
  }

  function Highlight(text: string, sigil: char): (r: string)
    requires !IsWordChar(sigil)
  {
    Markup(Scan(text, sigil), sigil)
  }

  /** `formatHashtags`. */
  function FormatHashtags(text: string): (r: string)
    ensures '#' !in text ==> r == text
  {
    NoSigilUnchanged(text, '#');
    Highlight(text, '#')
  }

  /** `formatMentions`: the same rule with `@`. */
  function FormatMentions(text: string): (r: string)
    ensures '@' !in text ==> r == text
  {
    NoSigilUnchanged(text, '@');
    Highlight(text, '@')
  }
}
