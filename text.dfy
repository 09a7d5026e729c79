/**
 * The two pure string helpers of the browser client: `formatTime`, which
 * prints a playback position as minutes and zero-padded seconds, and
 * `escapeHtml`, which replaces both quote characters of a title by
 * character references before the title is written into the
 * double-quoted `onclick` attribute of a rendered row. That keeps a `"`
 * of the title from closing the attribute; it does not keep a `'` from
 * closing the JavaScript string literal inside the handler, because the
 * HTML parser turns `&apos;` back into `'` before the handler is
 * compiled.
 */
module Text {
  import opened Wrappers

  /** A digit character for 0 to 9. */
  function DigitChar(d: nat): (c: char)
    requires d < 10
    ensures '0' <= c <= '9'
  {
    "0123456789"[d]
  }

  predicate IsDigit(c: char) {
    '0' <= c <= '9'
  }

  predicate AllDigits(s: string) {
    forall k :: 0 <= k < |s| ==> IsDigit(s[k])
  }

  /** The decimal numeral of a natural number, as JavaScript prints an integral number. */
  function Decimal(n: nat): (s: string)
    ensures |s| >= 1 && AllDigits(s)
    ensures n < 10 ==> |s| == 1
    ensures 10 <= n < 100 ==> |s| == 2
  {
    if n < 10 then [DigitChar(n)] else Decimal(n / 10) + [DigitChar(n % 10)]
  }

  /** The value of a string of digits, read most significant digit first. */
  function DecimalValue(s: string): nat
    requires AllDigits(s)
  {
    if s == [] then 0 else DecimalValue(s[..|s| - 1]) * 10 + (s[|s| - 1] as int - '0' as int)
  }

  /** Printing a number and reading it back gives the number. */
  lemma {:induction false} DecimalRoundTrip(n: nat)
    ensures DecimalValue(Decimal(n)) == n
  {
    var s := Decimal(n);
    if n < 10 {
      assert s[..|s| - 1] == [];
    } else {
      assert s[..|s| - 1] == Decimal(n / 10);
      DecimalRoundTrip(n / 10);
    }
  }

  /** A playback position handed to `formatTime`: an audio time in whole seconds, or NaN before metadata loads. */
  datatype Seconds = NaN | Whole(s: nat)

  /**
   * `formatTime`: "m:ss". The minutes are floor(s / 60), unbounded; the
   * seconds part s % 60 gets a leading '0' when below 10, so it always
   * has two characters. NaN prints as "0:00".
   */
  function FormatTime(t: Seconds): (r: string)
    ensures |r| >= 4 && r[|r| - 3] == ':'
    ensures AllDigits(r[..|r| - 3]) && AllDigits(r[|r| - 2..])
    ensures t.NaN? ==> r == "0:00"
  {
    match t
    case NaN => "0:00"
    case Whole(s) =>
      var min, sec := s / 60, s % 60;
      Decimal(min) + ":" + (if sec < 10 then "0" else "") + Decimal(sec)
  }

  /** Reads "m:ss" back into seconds; None when the text has another shape. */
  function ParseTime(r: string): Option<nat>
  {
    if |r| >= 4 && r[|r| - 3] == ':' && AllDigits(r[..|r| - 3]) && AllDigits(r[|r| - 2..])
    then Some(DecimalValue(r[..|r| - 3]) * 60 + DecimalValue(r[|r| - 2..]))
    else None
  }

  /**
   * The printed position determines the position: the digits before the
   * colon are floor(s / 60), the two after it are s % 60, and so the
   * text reads back exactly.
   */
  lemma FormatTimeRoundTrip(s: nat)
    ensures var r := FormatTime(Whole(s));
            DecimalValue(r[..|r| - 3]) == s / 60 && DecimalValue(r[|r| - 2..]) == s % 60
    ensures ParseTime(FormatTime(Whole(s))) == Some(s)
  {
    var r := FormatTime(Whole(s));
    var min, sec := s / 60, s % 60;
    var secText := (if sec < 10 then "0" else "") + Decimal(sec);
    assert r == Decimal(min) + ":" + secText;
    assert r[..|r| - 3] == Decimal(min);
    assert r[|r| - 2..] == secText;
    DecimalRoundTrip(min);
    DecimalRoundTrip(sec);
    if sec < 10 {
      assert secText[..1] == "0";
      assert DecimalValue(secText) == DecimalValue(secText[..1]) * 10 + sec by {
        assert secText[..|secText| - 1] == "0";
        assert Decimal(sec) == [DigitChar(sec)];
      }
      assert DecimalValue("0") == DecimalValue([]) * 10 + 0;
    }
  }

  /** Replaces every occurrence of `c` in `s` by `rep`, as `s.replace(/c/g, rep)`. */
  function ReplaceAll(s: string, c: char, rep: string): (r: string)
  {
    if s == [] then [] else (if s[0] == c then rep else [s[0]]) + ReplaceAll(s[1..], c, rep)
  }

  /** What `escapeHtml` makes of one character. */
  function EscapeChar(c: char): string
  {
    if c == '\'' then "&apos;" else if c == '"' then "&quot;" else [c]
  }

  /** The character-wise reference: each character replaced by its escape, in order. */
  function Escaped(s: string): string
  {
    if s == [] then [] else EscapeChar(s[0]) + Escaped(s[1..])
  }

  /**
   * `escapeHtml`: "" for a missing or empty text; otherwise every `'`
   * replaced by `&apos;` and then every `"` by `&quot;`.
   */
  function EscapeHtml(text: Option<string>): string
  {
    match text
    case None => ""
    case Some(s) => if s == "" then "" else ReplaceAll(ReplaceAll(s, '\'', "&apos;"), '"', "&quot;")
  }

  predicate HasNoQuotes(s: string) {
    forall k :: 0 <= k < |s| ==> s[k] != '\'' && s[k] != '"'
  }

  lemma {:induction false} ReplaceAllAppend(a: string, b: string, c: char, rep: string)
    ensures ReplaceAll(a + b, c, rep) == ReplaceAll(a, c, rep) + ReplaceAll(b, c, rep)
  {
    if a != [] {
      assert (a + b)[0] == a[0];
      assert (a + b)[1..] == a[1..] + b;
      ReplaceAllAppend(a[1..], b, c, rep);
    } else {
      assert a + b == b;
    }
  }

  lemma {:induction false} ReplaceAllAbsent(s: string, c: char, rep: string)
    requires forall k :: 0 <= k < |s| ==> s[k] != c
    ensures ReplaceAll(s, c, rep) == s
  {
    if s != [] {
      ReplaceAllAbsent(s[1..], c, rep);
    }
  }

  /** The two global replacements performed one after the other equal the character-wise escape. */
  lemma {:induction false} TwoPassesAreCharwise(s: string)
    ensures ReplaceAll(ReplaceAll(s, '\'', "&apos;"), '"', "&quot;") == Escaped(s)
  {
    if s != [] {
      var head := if s[0] == '\'' then "&apos;" else [s[0]];
      ReplaceAllAppend(head, ReplaceAll(s[1..], '\'', "&apos;"), '"', "&quot;");
      ReplaceAllAbsent("&apos;", '"', "&quot;");
      TwoPassesAreCharwise(s[1..]);
      if s[0] != '\'' {
        assert ReplaceAll([s[0]], '"', "&quot;") == EscapeChar(s[0]) by {
          assert [s[0]][1..] == [];
        }
      }
    }
  }

  lemma {:induction false} EscapedHasNoQuotes(s: string)
    ensures HasNoQuotes(Escaped(s))
  {
    if s != [] {
      EscapedHasNoQuotes(s[1..]);
      var e := EscapeChar(s[0]);
      assert HasNoQuotes(e);
      assert Escaped(s) == e + Escaped(s[1..]);
    }
  }

  lemma {:induction false} EscapedIdentityIff(s: string)
    ensures Escaped(s) == s <==> HasNoQuotes(s)
  {
    if s != [] {
      EscapedIdentityIff(s[1..]);
      EscapedLength(s[1..]);
      var e := EscapeChar(s[0]);
      if s[0] == '\'' || s[0] == '"' {
        // the escape is longer than the character it replaces
        assert |Escaped(s)| > |s|;
      } else {
        assert Escaped(s) == [s[0]] + Escaped(s[1..]);
        assert s == [s[0]] + s[1..];
        if HasNoQuotes(s) {
          assert HasNoQuotes(s[1..]);
        }
        if Escaped(s) == s {
          assert Escaped(s)[1..] == Escaped(s[1..]);
        }
      }
    }
  }

  lemma {:induction false} EscapedLength(s: string)
    ensures |Escaped(s)| >= |s|
  {
    if s != [] {
      EscapedLength(s[1..]);
    }
  }

  /**
   * What `escapeHtml` does: its result holds no quote character of either
   * kind, a missing text gives "", a present text gives its character-wise
   * escape, and a text without quotes comes back as it is.
   */
  lemma EscapeHtmlMeaning(text: Option<string>)
    ensures HasNoQuotes(EscapeHtml(text))
    ensures text.None? ==> EscapeHtml(text) == ""
    ensures text.Some? ==> EscapeHtml(text) == Escaped(text.value)
    ensures text.Some? ==> (EscapeHtml(text) == text.value <==> HasNoQuotes(text.value))
  {
    if text.Some? {
      TwoPassesAreCharwise(text.value);
      EscapedHasNoQuotes(text.value);
      EscapedIdentityIff(text.value);
    }
  }
}
