/**
 * Quoting of one shell argument, as `escape_bash_arg` does it, and the part
 * of the POSIX Shell Command Language (IEEE Std 1003.1-2017, section 2.2)
 * needed to read such an argument back: section 2.2.1 (Escape Character)
 * and section 2.2.2 (Single-Quotes).
 */
module ShellQuote {
  import opened Wrappers

  const Quote: char := '\''
  const Backslash: char := '\\'

  /** What each single quote of the argument becomes: close, escaped quote, reopen. */
  const QuoteEscape: string := "'\\''"

  /** Python's `s.replace(c, rep)` for a one-character pattern. */
  function ReplaceChar(s: string, c: char, rep: string): string
  {
    if s == [] then []
    else (if s[0] == c then rep else [s[0]]) + ReplaceChar(s[1..], c, rep)
  }

  /** Number of occurrences of `c` in `s` (Python's `s.count(c)`). */
  function Count(s: string, c: char): nat
  {
    if s == [] then 0 else (if s[0] == c then 1 else 0) + Count(s[1..], c)
  }

  /** `escape_bash_arg`: wrap in single quotes, each `'` rewritten as `'\''`. */
  function EscapeBashArg(s: string): (r: string)
    ensures |r| >= 2 && r[0] == Quote && r[|r| - 1] == Quote
  {
    [Quote] + ReplaceChar(s, Quote, QuoteEscape) + [Quote]
  }

  /**
   * The characters that section 2.2 says must be quoted to represent
   * themselves, followed by those that may need quoting in some contexts.
   */
  predicate NeedsQuoting(c: char)
  {
    c in "|&;<>()$`\\\"' \t\n" || c in "*?[#~=%"
  }

  function Cons(c: char, r: Option<string>): Option<string>
  {
    if r.None? then None else Some([c] + r.value)
  }

  /**
   * Quote removal for one shell word built from literal characters,
   * backslash escapes and single-quoted runs. `quoted` says whether the
   * scan is inside single quotes. None when the text is not one such word:
   * an unterminated single quote, a backslash with nothing after it, or an
   * unquoted character that section 2.2 wants quoted (a blank, an operator,
   * an expansion or a pattern character).
   */
  function UnquoteFrom(w: string, quoted: bool): Option<string>
    decreases |w|
  {
    if w == [] then
      if quoted then None else Some([])
    else if quoted then
      // 2.2.2: every character up to the next single quote is literal
      if w[0] == Quote then UnquoteFrom(w[1..], false)
      else Cons(w[0], UnquoteFrom(w[1..], true))
    else if w[0] == Quote then
      UnquoteFrom(w[1..], true)
    else if w[0] == Backslash then
      // 2.2.1: the next character is literal; backslash-newline is a line continuation
      if |w| == 1 then None
      else if w[1] == '\n' then UnquoteFrom(w[2..], false)
      else Cons(w[1], UnquoteFrom(w[2..], false))
    else if NeedsQuoting(w[0]) then
      None
    else
      Cons(w[0], UnquoteFrom(w[1..], false))
  }

  /** The literal value a shell gives the word `w`, if `w` is a single literal word. */
  function ShellUnquote(w: string): Option<string>
  {
    UnquoteFrom(w, false)
  }

  lemma {:induction false} EscapedBodyLength(s: string)
    ensures |ReplaceChar(s, Quote, QuoteEscape)| == |s| + 3 * Count(s, Quote)
  {
    if s != [] {
      EscapedBodyLength(s[1..]);
    }
  }

  /** The escaped form is two quotes longer, plus three characters per single quote. */
  lemma EscapeLength(s: string)
    ensures |EscapeBashArg(s)| == |s| + 2 + 3 * Count(s, Quote)
  {
    EscapedBodyLength(s);
  }

  lemma {:induction false} ReplaceAbsent(s: string, c: char, rep: string)
    requires c !in s
    ensures ReplaceChar(s, c, rep) == s
  {
    if s != [] {
      assert s == [s[0]] + s[1..];
      ReplaceAbsent(s[1..], c, rep);
    }
  }

  /** Without a single quote in it, the argument is only wrapped in quotes. */
  lemma EscapeWithoutQuote(s: string)
    requires Quote !in s
    ensures EscapeBashArg(s) == [Quote] + s + [Quote]
  {
    ReplaceAbsent(s, Quote, QuoteEscape);
  }

  /** Reading the escaped body from inside the opening quote gives the argument back. */
  lemma {:induction false} UnquoteEscapedBody(s: string)
    ensures UnquoteFrom(ReplaceChar(s, Quote, QuoteEscape) + [Quote], true) == Some(s)
  {
    var tail := ReplaceChar(s, Quote, QuoteEscape) + [Quote];
    if s == [] {
      assert tail == [Quote];
      assert tail[1..] == [];
    } else {
      var rest := ReplaceChar(s[1..], Quote, QuoteEscape) + [Quote];
      UnquoteEscapedBody(s[1..]);
      if s[0] == Quote {
        assert tail == QuoteEscape + rest;
        assert tail[1..][0] == Backslash && tail[1..][1] == Quote;
        assert tail[1..][2..] == tail[3..];
        assert tail[3..][0] == Quote && tail[3..][1..] == rest;
        assert UnquoteFrom(tail[3..], false) == Some(s[1..]);
        assert [Quote] + s[1..] == s;
      } else {
        assert tail == [s[0]] + rest;
        assert tail[1..] == rest;
        assert [s[0]] + s[1..] == s;
      }
    }
  }

  /** Round trip: the shell reads `escape_bash_arg(s)` as exactly `s`, whatever `s` holds. */
  lemma EscapeRoundTrip(s: string)
    ensures ShellUnquote(EscapeBashArg(s)) == Some(s)
  {
    var e := EscapeBashArg(s);
    assert e[1..] == ReplaceChar(s, Quote, QuoteEscape) + [Quote];
    UnquoteEscapedBody(s);
  }

  /** A word with no character that needs quoting is read as itself. */
  lemma {:induction false} PlainWordUnquotes(w: string)
    requires forall i :: 0 <= i < |w| ==> !NeedsQuoting(w[i])
    ensures ShellUnquote(w) == Some(w)
  {
    if w != [] {
      assert !NeedsQuoting(w[0]);
      PlainWordUnquotes(w[1..]);
      assert [w[0]] + w[1..] == w;
    }
  }

  /**
   * Quote removal never lengthens a word; inside single quotes the closing
   * quote is still to come, and a word holding a single quote loses it.
   */
  lemma {:induction false} UnquoteShortens(w: string, quoted: bool)
    ensures UnquoteFrom(w, quoted).Some? ==>
      |UnquoteFrom(w, quoted).value| + (if quoted then 1 else 0) <= |w|
    ensures UnquoteFrom(w, quoted).Some? && Quote in w ==> |UnquoteFrom(w, quoted).value| < |w|
    decreases |w|
  {
    if w != [] {
      if quoted || w[0] == Quote || w[0] != Backslash {
        UnquoteShortens(w[1..], quoted != (w[0] == Quote));
        if w[0] != Quote {
          assert Quote in w ==> Quote in w[1..];
        }
      } else if |w| > 1 {
        UnquoteShortens(w[2..], false);
      }
    }
  }

  /** An unescaped argument holding a single quote is not read as itself. */
  lemma RawQuoteBreaksWord(w: string)
    requires Quote in w
    ensures ShellUnquote(w) != Some(w)
  {
    UnquoteShortens(w, false);
  }
}
