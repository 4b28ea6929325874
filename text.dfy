/** The few pieces of Python string behaviour that the request module relies
    on: `str.split()` with no separator, the formatting of `int` and `bool`
    values inside f-strings, and the two HTML helpers it calls. */
module Text {

  /** Python's `str.isspace` for a single character. */
  predicate IsSpace(c: char)
  {
    || ('\U{0009}' <= c <= '\U{000D}')
    || ('\U{001C}' <= c <= '\U{0020}')
    || c == '\U{0085}' || c == '\U{00A0}' || c == '\U{1680}'
    || ('\U{2000}' <= c <= '\U{200A}')
    || c == '\U{2028}' || c == '\U{2029}' || c == '\U{202F}'
    || c == '\U{205F}' || c == '\U{3000}'
  }

  /** Length of the run of non-whitespace characters that starts `s`. */
  function WordLength(s: string): (n: nat)
    ensures n <= |s|
    ensures forall i | 0 <= i < n :: !IsSpace(s[i])
    ensures n < |s| ==> IsSpace(s[n])
  {
    if s == [] || IsSpace(s[0]) then 0 else 1 + WordLength(s[1..])
  }

  /** `s.split()`: the maximal runs of non-whitespace characters, in order. */
  function Split(s: string): (words: seq<string>)
    ensures forall w | w in words :: w != [] && forall i | 0 <= i < |w| :: !IsSpace(w[i])
    decreases |s|
  {
    if s == [] then []
    else if IsSpace(s[0]) then Split(s[1..])
    else
      var n := WordLength(s);
      [s[..n]] + Split(s[n..])
  }

  ghost predicate AllSpace(s: string)
  {
    forall j | 0 <= j < |s| :: IsSpace(s[j])
  }

  /** A non-space character at `i`, a space at `k` and a non-space at `j`, in that order. */
  ghost predicate WordGapWord(s: string, i: int, k: int, j: int)
  {
    0 <= i < k < j < |s| && !IsSpace(s[i]) && IsSpace(s[k]) && !IsSpace(s[j])
  }

  /** `s` holds a word, then a gap, then a second word. */
  ghost predicate TwoWords(s: string)
  {
    exists i, k, j :: WordGapWord(s, i, k, j)
  }

  /** `s.split()` is empty exactly when `s` is whitespace only. */
  lemma {:induction false} SplitEmpty(s: string)
    ensures Split(s) == [] <==> AllSpace(s)
    decreases |s|
  {
    if s != [] && IsSpace(s[0]) {
      var t := s[1..];
      SplitEmpty(t);
      if AllSpace(t) {
        forall j | 0 <= j < |s| ensures IsSpace(s[j]) {
          if j > 0 { assert s[j] == t[j - 1]; }
        }
      } else {
        var j :| 0 <= j < |t| && !IsSpace(t[j]);
        assert !IsSpace(s[j + 1]);
      }
    }
  }

  /** `len(s.split()) > 1` holds exactly when a word, a gap and a second word
      occur in `s` in that order. */
  lemma {:induction false} SplitMoreThanOne(s: string)
    ensures |Split(s)| > 1 <==> TwoWords(s)
    decreases |s|
  {
    if s == [] {
    } else if IsSpace(s[0]) {
      SplitMoreThanOne(s[1..]);
      TwoWordsSkipSpace(s);
    } else {
      SplitMoreThanOneAfterWord(s);
    }
  }

  /** A leading space changes neither side of `SplitMoreThanOne`. */
  lemma TwoWordsSkipSpace(s: string)
    requires s != [] && IsSpace(s[0])
    ensures TwoWords(s) <==> TwoWords(s[1..])
  {
    var t := s[1..];
    if TwoWords(t) {
      var i, k, j :| WordGapWord(t, i, k, j);
      assert WordGapWord(s, i + 1, k + 1, j + 1);
    }
    if TwoWords(s) {
      var i, k, j :| WordGapWord(s, i, k, j);
      assert WordGapWord(t, i - 1, k - 1, j - 1);
    }
  }

  lemma SplitMoreThanOneAfterWord(s: string)
    requires s != [] && !IsSpace(s[0])
    ensures |Split(s)| > 1 <==> TwoWords(s)
  {
    var n := WordLength(s);
    var rest := s[n..];
    assert Split(s) == [s[..n]] + Split(rest);
    SplitEmpty(rest);
    if |Split(s)| > 1 {
      var j :| 0 <= j < |rest| && !IsSpace(rest[j]);
      assert IsSpace(s[n]);
      assert WordGapWord(s, 0, n, n + j);
    }
    if TwoWords(s) {
      var i, k, j :| WordGapWord(s, i, k, j);
      assert k >= n;
      assert !IsSpace(rest[j - n]);
    }
  }

  predicate IsDigit(c: char)
  {
    '0' <= c <= '9'
  }

  function DigitChar(d: nat): (c: char)
    requires d < 10
  {
    ('0' as int + d) as char
  }

  /** Decimal digits of `n`, most significant first, no leading zero. */
  function NatToString(n: nat): (s: string)
    ensures |s| >= 1
    ensures forall i | 0 <= i < |s| :: IsDigit(s[i])
  {
    if n < 10 then [DigitChar(n)] else NatToString(n / 10) + [DigitChar(n % 10)]
  }

  /** Python's `str(n)` for an `int`, as an f-string renders it. */
  function IntToString(n: int): (s: string)
  {
    if n < 0 then "-" + NatToString(-n) else NatToString(n)
  }

  function ParseNat(s: string): int
    requires forall i | 0 <= i < |s| :: IsDigit(s[i])
  {
    if s == [] then 0 else ParseNat(s[..|s| - 1]) * 10 + (s[|s| - 1] as int - '0' as int)
  }

  /** Reads back what `IntToString` writes. */
  function ParseInt(s: string): int
    requires s != [] && forall i | 0 < i < |s| :: IsDigit(s[i])
    requires s[0] == '-' || IsDigit(s[0])
  {
    if s[0] == '-' then -ParseNat(s[1..]) else ParseNat(s)
  }

  lemma {:induction false} ParseNatToString(n: nat)
    ensures ParseNat(NatToString(n)) == n
  {
    if n >= 10 {
      var s := NatToString(n);
      ParseNatToString(n / 10);
      assert s[..|s| - 1] == NatToString(n / 10);
    }
  }

  /** `str` on integers loses nothing: the digits read back as the number. */
  lemma IntToStringRoundTrip(n: int)
    ensures var s := IntToString(n);
      s != [] && (s[0] == '-' || IsDigit(s[0])) && (forall i | 0 < i < |s| :: IsDigit(s[i]))
      && ParseInt(s) == n
  {
    var s := IntToString(n);
    if n < 0 {
      ParseNatToString(-n);
      assert s[1..] == NatToString(-n);
    } else {
      ParseNatToString(n);
    }
  }

  lemma IntToStringInjective(m: int, n: int)
    requires IntToString(m) == IntToString(n)
    ensures m == n
  {
    IntToStringRoundTrip(m);
    IntToStringRoundTrip(n);
  }

  /** Python's `str` of a `bool`, as `format` and f-strings render it. */
  function BoolText(b: bool): string
  {
    if b then "True" else "False"
  }

  /** `html.escape(s)` with its default `quote=True`. */
  function HtmlEscape(s: string): string
  {
    if s == [] then []
    else
      var head :=
        match s[0]
        case '&' => "&amp;"
        case '<' => "&lt;"
        case '>' => "&gt;"
        case '"' => "&quot;"
        case '\'' => "&#x27;"
        case _ => [s[0]];
      head + HtmlEscape(s[1..])
  }

  /** `mention_html(user_id, name)` of the bot library: an HTML link to the user. */
  function MentionHtml(userId: int, name: string): string
  {
    "<a href=\"tg://user?id=" + IntToString(userId) + "\">" + HtmlEscape(name) + "</a>"
  }
}
