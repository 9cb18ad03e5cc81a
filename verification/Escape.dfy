/** The HTML escaper of the browser client: four global replacements, one after the other
    (ui/js/utils.js).  The order of the passes matters: the ampersand goes first. */
module Escape {

  /** JavaScript's `s.replace(/c/g, rep)` for a one-character pattern. */
  function ReplaceAll(s: string, c: char, rep: string): string {
    if s == [] then [] else (if s[0] == c then rep else [s[0]]) + ReplaceAll(s[1..], c, rep)
  }

  function EscapeHtml(s: string): string {
    ReplaceAll(ReplaceAll(ReplaceAll(ReplaceAll(s, '&', "&amp;"), '<', "&lt;"), '>', "&gt;"), '\"', "&quot;")
  }

  // ---- Reference definitions

  function Entity(c: char): string {
    match c
    case '&' => "&amp;"
    case '<' => "&lt;"
    case '>' => "&gt;"
    case '\"' => "&quot;"
    case _ => [c]
  }

  function EscapeOnePass(s: string): string {
    if s == [] then [] else Entity(s[0]) + EscapeOnePass(s[1..])
  }

  /** The character and the number of characters at the head of an escaped text. */
  function Head(t: string): (r: (char, nat))
    requires t != []
    ensures 1 <= r.1 <= |t|
  {
    if "&amp;" <= t then ('&', 5)
    else if "&lt;" <= t then ('<', 4)
    else if "&gt;" <= t then ('>', 4)
    else if "&quot;" <= t then ('\"', 6)
    else (t[0], 1)
  }

  /** The reader's side: a left-to-right entity decoder. */
  function Unescape(t: string): string
    decreases |t|
  {
    if t == [] then [] else [Head(t).0] + Unescape(t[Head(t).1..])
  }

  /** Texts with no markup character and no ampersand outside one of the four entities. */
  predicate WellEscaped(t: string)
    decreases |t|
  {
    t == [] || (Entity(Head(t).0) <= t && WellEscaped(t[Head(t).1..]))
  }

  // ---- Proofs

  lemma Associates(x: string, y: string, z: string)
    ensures x + (y + z) == (x + y) + z
  {
  }

  lemma {:induction false} ReplaceAllConcat(a: string, b: string, c: char, rep: string)
    ensures ReplaceAll(a + b, c, rep) == ReplaceAll(a, c, rep) + ReplaceAll(b, c, rep)
  {
    if a == [] {
      assert a + b == b;
    } else {
      ReplaceAllConcat(a[1..], b, c, rep);
      assert (a + b)[1..] == a[1..] + b;
      Associates(if a[0] == c then rep else [a[0]], ReplaceAll(a[1..], c, rep), ReplaceAll(b, c, rep));
    }
  }

  lemma {:induction false} ReplaceAllAbsent(s: string, c: char, rep: string)
    requires c !in s
    ensures ReplaceAll(s, c, rep) == s
  {
    if s == [] {
    } else {
      ReplaceAllAbsent(s[1..], c, rep);
    }
  }

  lemma EscapeConcat(a: string, b: string)
    ensures EscapeHtml(a + b) == EscapeHtml(a) + EscapeHtml(b)
  {
    ReplaceAllConcat(a, b, '&', "&amp;");
    var a1, b1 := ReplaceAll(a, '&', "&amp;"), ReplaceAll(b, '&', "&amp;");
    ReplaceAllConcat(a1, b1, '<', "&lt;");
    var a2, b2 := ReplaceAll(a1, '<', "&lt;"), ReplaceAll(b1, '<', "&lt;");
    ReplaceAllConcat(a2, b2, '>', "&gt;");
    ReplaceAllConcat(ReplaceAll(a2, '>', "&gt;"), ReplaceAll(b2, '>', "&gt;"), '\"', "&quot;");
  }

  lemma ReplaceOne(d: char, c: char, rep: string)
    ensures ReplaceAll([d], c, rep) == if d == c then rep else [d]
  {
    assert ReplaceAll([d][1..], c, rep) == [];
  }

  lemma LastPass(c: char)
    requires c !in "&<>"
    ensures ReplaceAll([c], '\"', "&quot;") == Entity(c)
  {
    ReplaceOne(c, '\"', "&quot;");
  }

  lemma LastTwoPasses(c: char)
    requires c !in "&<"
    ensures ReplaceAll(ReplaceAll([c], '>', "&gt;"), '\"', "&quot;") == Entity(c)
  {
    ReplaceOne(c, '>', "&gt;");
    if c == '>' { ReplaceAllAbsent("&gt;", '\"', "&quot;"); } else { LastPass(c); }
  }

  lemma LastThreePasses(c: char)
    requires c != '&'
    ensures ReplaceAll(ReplaceAll(ReplaceAll([c], '<', "&lt;"), '>', "&gt;"), '\"', "&quot;") == Entity(c)
  {
    ReplaceOne(c, '<', "&lt;");
    if c == '<' {
      ReplaceAllAbsent("&lt;", '>', "&gt;");
      ReplaceAllAbsent("&lt;", '\"', "&quot;");
    } else {
      LastTwoPasses(c);
    }
  }

  /** The ampersand of an entity is not escaped again: its pass came first. */
  lemma LaterPassesKeepAmp(e: string)
    requires '<' !in e && '>' !in e && '\"' !in e
    ensures ReplaceAll(ReplaceAll(ReplaceAll(e, '<', "&lt;"), '>', "&gt;"), '\"', "&quot;") == e
  {
    ReplaceAllAbsent(e, '<', "&lt;");
    ReplaceAllAbsent(e, '>', "&gt;");
    ReplaceAllAbsent(e, '\"', "&quot;");
  }

  lemma EscapeOneChar(c: char)
    ensures EscapeHtml([c]) == Entity(c)
  {
    ReplaceOne(c, '&', "&amp;");
    if c == '&' { LaterPassesKeepAmp("&amp;"); } else { LastThreePasses(c); }
  }

  /** The four passes are the per-character translation, for every string. */
  lemma {:induction false} FourPassesAreOne(s: string)
    ensures EscapeHtml(s) == EscapeOnePass(s)
  {
    if s == [] {
    } else {
      assert s == [s[0]] + s[1..];
      EscapeConcat([s[0]], s[1..]);
      EscapeOneChar(s[0]);
      FourPassesAreOne(s[1..]);
    }
  }

  lemma HeadOfEntity(c: char, t: string)
    ensures Head(Entity(c) + t) == (c, |Entity(c)|)
  {
    var u := Entity(c) + t;
    assert u[..|Entity(c)|] == Entity(c);
    if c !in "&<>\"" {
      assert u[0] == c && Entity(c) == [c];
    } else {
      assert u[1] == Entity(c)[1];
    }
  }

  /** Decoding recovers the text, and what is decoded is well escaped. */
  lemma {:induction false} UnescapeEscape(s: string)
    ensures Unescape(EscapeHtml(s)) == s
    ensures WellEscaped(EscapeHtml(s))
  {
    FourPassesAreOne(s);
    if s == [] {
    } else {
      var rest := EscapeOnePass(s[1..]);
      HeadOfEntity(s[0], rest);
      FourPassesAreOne(s[1..]);
      UnescapeEscape(s[1..]);
      assert (Entity(s[0]) + rest)[|Entity(s[0])|..] == rest;
    }
  }

  lemma WellEscapedSplit(t: string)
    requires t != [] && WellEscaped(t)
    ensures var (c, n) := Head(t);
      t == Entity(c) + t[n..] && WellEscaped(t[n..]) && Unescape(t) == [c] + Unescape(t[n..])
  {
    var (c, n) := Head(t);
    HeadLength(t);
    assert t == t[..n] + t[n..] && Entity(c) == t[..n];
  }

  lemma HeadLength(t: string)
    requires t != [] && Entity(Head(t).0) <= t
    ensures Head(t).1 == |Entity(Head(t).0)|
  {
    if t[0] != '&' {
      assert Head(t) == (t[0], 1);
    }
  }

  lemma OnePassCons(c: char, s: string)
    ensures EscapeOnePass([c] + s) == Entity(c) + EscapeOnePass(s)
  {
    assert ([c] + s)[1..] == s;
  }

  /** The other direction: every well-escaped text is the escape of what it decodes to, so
      escaping is a bijection between all strings and the well-escaped ones. */
  lemma {:induction false} EscapeUnescape(t: string)
    requires WellEscaped(t)
    ensures EscapeHtml(Unescape(t)) == t
    decreases |t|
  {
    FourPassesAreOne(Unescape(t));
    if t == [] {
    } else {
      var (c, n) := Head(t);
      WellEscapedSplit(t);
      EscapeUnescape(t[n..]);
      FourPassesAreOne(Unescape(t[n..]));
      OnePassCons(c, Unescape(t[n..]));
    }
  }

  lemma EscapeInjective(a: string, b: string)
    ensures EscapeHtml(a) == EscapeHtml(b) <==> a == b
  {
    UnescapeEscape(a);
    UnescapeEscape(b);
  }

  lemma EntityHasNoMarkup(c: char, t: string)
    requires t != [] && c == Head(t).0 && Entity(c) <= t
    ensures '<' !in Entity(c) && '>' !in Entity(c) && '\"' !in Entity(c)
  {
  }

  lemma {:induction false} WellEscapedHasNoMarkup(t: string)
    requires WellEscaped(t)
    ensures '<' !in t && '>' !in t && '\"' !in t
    decreases |t|
  {
    if t == [] {
    } else {
      var (c, n) := Head(t);
      WellEscapedSplit(t);
      WellEscapedHasNoMarkup(t[n..]);
      EntityHasNoMarkup(c, t);
    }
  }

  /** No markup character survives. */
  lemma EscapedHasNoMarkup(s: string)
    ensures '<' !in EscapeHtml(s) && '>' !in EscapeHtml(s) && '\"' !in EscapeHtml(s)
  {
    UnescapeEscape(s);
    WellEscapedHasNoMarkup(EscapeHtml(s));
  }

  /** Escaping is not idempotent: a second escape changes exactly the texts that still hold an
      ampersand, that is, those whose source held one of the four characters. */
  lemma EscapeTwice(s: string)
    ensures EscapeHtml(EscapeHtml(s)) == EscapeHtml(s) <==> forall c :: c in s ==> c !in "&<>\""
  {
    EscapeInjective(EscapeHtml(s), s);
    FixedPoint(s);
  }

  lemma {:induction false} FixedPoint(s: string)
    ensures |EscapeHtml(s)| >= |s|
    ensures EscapeHtml(s) == s <==> forall c :: c in s ==> c !in "&<>\""
  {
    FourPassesAreOne(s);
    if s == [] {
    } else {
      FixedPoint(s[1..]);
      FourPassesAreOne(s[1..]);
      assert s == [s[0]] + s[1..];
      if s[0] in "&<>\"" {
        assert |Entity(s[0])| > 1;
      } else {
        assert Entity(s[0]) == [s[0]];
        assert EscapeHtml(s)[1..] == EscapeHtml(s[1..]);
      }
    }
  }
}
