/** The escaping the popup and phantom visualisations apply to every error
    text (plugin/error_vis/popup_error_vis.py and phantom_error_vis.py):
    `cgi.escape`, which replaces '&', then '<', then '>' by their entities
    and leaves quotes alone, followed by every space becoming "&nbsp;". */
module HtmlEscape {
  import opened Strings

  /** `cgi.escape(error).replace(' ', '&nbsp;')` */
  function EscapeEntry(error: string): string {
    Replace(Replace(Replace(Replace(error, "&", "&amp;"), "<", "&lt;"), ">", "&gt;"), " ", "&nbsp;")
  }

  /** The escaped form of one character. */
  function EscapeChar(c: char): string {
    if c == '&' then "&amp;"
    else if c == '<' then "&lt;"
    else if c == '>' then "&gt;"
    else if c == ' ' then "&nbsp;"
    else [c]
  }

  /** The text escaped character by character. */
  function EscapeChars(s: string): string {
    if s == [] then [] else EscapeChar(s[0]) + EscapeChars(s[1..])
  }

  /** Replacing one character, character by character. */
  function ReplaceChar(s: string, c: char, n: string): string {
    if s == [] then [] else (if s[0] == c then n else [s[0]]) + ReplaceChar(s[1..], c, n)
  }

  /** `replace` with a one-character pattern works character by character. */
  lemma {:induction false} ReplaceOneChar(s: string, c: char, n: string)
    ensures Replace(s, [c], n) == ReplaceChar(s, c, n)
  {
    if s != [] {
      ReplaceOneChar(s[1..], c, n);
      assert s[..1] == [s[0]];
    }
  }

  lemma {:induction false} ReplaceCharAppend(a: string, b: string, c: char, n: string)
    ensures ReplaceChar(a + b, c, n) == ReplaceChar(a, c, n) + ReplaceChar(b, c, n)
  {
    if a != [] {
      ReplaceCharAppend(a[1..], b, c, n);
      assert (a + b)[1..] == a[1..] + b;
    } else {
      assert a + b == b;
    }
  }

  /** The four replacements, each applied to the whole text. */
  function Layered(s: string): string {
    ReplaceChar(ReplaceChar(ReplaceChar(ReplaceChar(s, '&', "&amp;"), '<', "&lt;"), '>', "&gt;"), ' ', "&nbsp;")
  }

  lemma LayeredAppend(a: string, b: string)
    ensures Layered(a + b) == Layered(a) + Layered(b)
  {
    var a1, b1 := ReplaceChar(a, '&', "&amp;"), ReplaceChar(b, '&', "&amp;");
    var a2, b2 := ReplaceChar(a1, '<', "&lt;"), ReplaceChar(b1, '<', "&lt;");
    var a3, b3 := ReplaceChar(a2, '>', "&gt;"), ReplaceChar(b2, '>', "&gt;");
    ReplaceCharAppend(a, b, '&', "&amp;");
    ReplaceCharAppend(a1, b1, '<', "&lt;");
    ReplaceCharAppend(a2, b2, '>', "&gt;");
    ReplaceCharAppend(a3, b3, ' ', "&nbsp;");
  }

  lemma ReplaceCharSingle(x: char, c: char, n: string)
    ensures ReplaceChar([x], c, n) == if x == c then n else [x]
  {
    assert [x][1..] == [];
  }

  /** No entity holds a character a later replacement looks for. */
  lemma EntitiesPlain()
    ensures '<' !in "&amp;" && '>' !in "&amp;" && ' ' !in "&amp;"
    ensures '>' !in "&lt;" && ' ' !in "&lt;" && ' ' !in "&gt;"
  {
  }

  /** None of the later replacements touches an entity an earlier one wrote. */
  lemma LayeredChar(x: char)
    ensures Layered([x]) == EscapeChar(x)
  {
    EntitiesPlain();
    ReplaceCharSingle(x, '&', "&amp;");
    if x == '&' {
      ReplaceCharAbsent("&amp;", '<', "&lt;");
      ReplaceCharAbsent("&amp;", '>', "&gt;");
      ReplaceCharAbsent("&amp;", ' ', "&nbsp;");
    } else {
      ReplaceCharSingle(x, '<', "&lt;");
      if x == '<' {
        ReplaceCharAbsent("&lt;", '>', "&gt;");
        ReplaceCharAbsent("&lt;", ' ', "&nbsp;");
      } else {
        ReplaceCharSingle(x, '>', "&gt;");
        if x == '>' {
          ReplaceCharAbsent("&gt;", ' ', "&nbsp;");
        } else {
          ReplaceCharSingle(x, ' ', "&nbsp;");
        }
      }
    }
  }

  lemma {:induction false} ReplaceCharAbsent(s: string, c: char, n: string)
    requires c !in s
    ensures ReplaceChar(s, c, n) == s
  {
    if s != [] {
      ReplaceCharAbsent(s[1..], c, n);
      assert s == [s[0]] + s[1..];
    }
  }

  lemma {:induction false} LayeredChars(s: string)
    ensures Layered(s) == EscapeChars(s)
  {
    if s != [] {
      LayeredChars(s[1..]);
      LayeredChar(s[0]);
      LayeredAppend([s[0]], s[1..]);
      assert s == [s[0]] + s[1..];
    }
  }

  /** The successive `replace` calls escape the text character by character. */
  lemma EscapeEntryChars(error: string)
    ensures EscapeEntry(error) == EscapeChars(error)
  {
    var s1 := Replace(error, "&", "&amp;");
    var s2 := Replace(s1, "<", "&lt;");
    var s3 := Replace(s2, ">", "&gt;");
    ReplaceOneChar(error, '&', "&amp;");
    ReplaceOneChar(s1, '<', "&lt;");
    ReplaceOneChar(s2, '>', "&gt;");
    ReplaceOneChar(s3, ' ', "&nbsp;");
    LayeredChars(error);
  }

  /** The reading a browser gives the escaped text: each of the four entities
      stands for its character, and every other character for itself. */
  function Unescape(s: string): string
    decreases |s|
  {
    if s == [] then []
    else if s[0] != '&' then [s[0]] + Unescape(s[1..])
    else if |s| >= 5 && s[..5] == "&amp;" then "&" + Unescape(s[5..])
    else if |s| >= 4 && s[..4] == "&lt;" then "<" + Unescape(s[4..])
    else if |s| >= 4 && s[..4] == "&gt;" then ">" + Unescape(s[4..])
    else if |s| >= 6 && s[..6] == "&nbsp;" then " " + Unescape(s[6..])
    else [s[0]] + Unescape(s[1..])
  }

  lemma UnescapeChar(x: char, t: string)
    ensures Unescape(EscapeChar(x) + t) == [x] + Unescape(t)
  {
    var s := EscapeChar(x) + t;
    if x == '&' {
      assert s[..5] == "&amp;" && s[5..] == t;
    } else if x == '<' {
      assert s[..4] == "&lt;" && s[4..] == t;
    } else if x == '>' {
      assert s[..4] == "&gt;" && s[4..] == t;
    } else if x == ' ' {
      assert s[..6] == "&nbsp;" && s[6..] == t;
    } else {
      assert s[0] == x && s[1..] == t;
    }
  }

  /** Reading the escaped text back gives the error text. */
  lemma {:induction false} UnescapeEscapeChars(s: string)
    ensures Unescape(EscapeChars(s)) == s
  {
    if s != [] {
      UnescapeEscapeChars(s[1..]);
      UnescapeChar(s[0], EscapeChars(s[1..]));
    }
  }

  /** The escaped entry reads back as the error, and holds no '<', no '>'
      and no space, so no markup the entries are wrapped in can be confused
      with it. */
  lemma {:induction false} EscapeEntryRoundTrip(error: string)
    ensures Unescape(EscapeEntry(error)) == error
    ensures '<' !in EscapeEntry(error) && '>' !in EscapeEntry(error) && ' ' !in EscapeEntry(error)
  {
    EscapeEntryChars(error);
    UnescapeEscapeChars(error);
    EscapeCharsPlain(error);
  }

  lemma {:induction false} EscapeCharsPlain(s: string)
    ensures '<' !in EscapeChars(s) && '>' !in EscapeChars(s) && ' ' !in EscapeChars(s)
  {
    if s != [] {
      EscapeCharsPlain(s[1..]);
      assert '<' !in EscapeChar(s[0]) && '>' !in EscapeChar(s[0]) && ' ' !in EscapeChar(s[0]);
    }
  }
}
