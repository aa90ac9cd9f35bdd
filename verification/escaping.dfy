// The HTML escaping of test-id fragments: five global string replacements
// applied one after the other, and the reasons their order is right.
module Escaping {

  // ---------- string replacement ----------

  /** Replaces every occurrence of the character `c` by `entity`. */
  function ReplaceChar(s: string, c: char, entity: string): string {
    if s == [] then [] else (if s[0] == c then entity else [s[0]]) + ReplaceChar(s[1..], c, entity)
  }

  /** Replaces, left to right, every occurrence of the nonempty `pattern` by the character `c`. */
  function ReplaceWord(s: string, pattern: string, c: char): string
    requires pattern != []
    decreases |s|
  {
    if s == [] then []
    else if pattern <= s then [c] + ReplaceWord(s[|pattern|..], pattern, c)
    else [s[0]] + ReplaceWord(s[1..], pattern, c)
  }

  // ---------- the five passes ----------

  /** The characters the five passes rewrite, in the order of the passes. */
  const SPECIALS: seq<char> := ['&', '<', '>', '\"', ' ']

  /** What each of them is rewritten to. */
  const ENTITIES: seq<string> := ["&amp;", "&lt;", "&gt;", "&quot;", "&nbsp;"]

  /** The string after the first `k` passes. */
  function Passes(s: string, k: nat): string
    requires k <= 5
  {
    if k == 0 then s else ReplaceChar(Passes(s, k - 1), SPECIALS[k - 1], ENTITIES[k - 1])
  }

  function AsEncodedHTML(str: string): string {
    var amp := ReplaceChar(str, '&', "&amp;");
    var lt := ReplaceChar(amp, '<', "&lt;");
    var gt := ReplaceChar(lt, '>', "&gt;");
    var quot := ReplaceChar(gt, '\"', "&quot;");
    ReplaceChar(quot, ' ', "&nbsp;")
  }

  /** Undoes the passes `k - 1`, ..., 0, latest first. */
  function Undo(s: string, k: nat): string
    requires k <= 5
    decreases k
  {
    if k == 0 then s else Undo(ReplaceWord(s, ENTITIES[k - 1], SPECIALS[k - 1]), k - 1)
  }

  /** The escape of one character when only the first `k` specials are escaped. */
  function Token(c: char, k: nat): string
    requires k <= 5
  {
    if k > 0 && c == '&' then "&amp;"
    else if k > 1 && c == '<' then "&lt;"
    else if k > 2 && c == '>' then "&gt;"
    else if k > 3 && c == '\"' then "&quot;"
    else if k > 4 && c == ' ' then "&nbsp;"
    else [c]
  }

  /** The reference: one pass over the string, one character at a time. */
  function OnePass(s: string, k: nat): string
    requires k <= 5
  {
    if s == [] then [] else Token(s[0], k) + OnePass(s[1..], k)
  }

  // ---------- five passes are one ----------

  lemma {:induction false} ReplaceCharAppend(a: string, b: string, c: char, entity: string)
    ensures ReplaceChar(a + b, c, entity) == ReplaceChar(a, c, entity) + ReplaceChar(b, c, entity)
  {
    if a == [] {
      assert a + b == b;
    } else {
      ReplaceCharAppend(a[1..], b, c, entity);
      assert (a + b)[1..] == a[1..] + b;
    }
  }

  lemma {:induction false} ReplaceCharAbsent(s: string, c: char, entity: string)
    requires c !in s
    ensures ReplaceChar(s, c, entity) == s
  {
    if s != [] {
      ReplaceCharAbsent(s[1..], c, entity);
    }
  }

  /** A later pass finds its character only where the input had it. */
  lemma PassOnToken(c: char, k: nat)
    requires 0 < k <= 5
    ensures ReplaceChar(Token(c, k - 1), SPECIALS[k - 1], ENTITIES[k - 1]) == Token(c, k)
  {
    if c == SPECIALS[k - 1] {
      assert Token(c, k - 1) == [c];
      assert ReplaceChar([c], c, ENTITIES[k - 1]) == ENTITIES[k - 1] + [];
    } else {
      assert Token(c, k - 1) == Token(c, k);
      ReplaceCharAbsent(Token(c, k - 1), SPECIALS[k - 1], ENTITIES[k - 1]);
    }
  }

  lemma {:induction false} PassOnOnePass(s: string, k: nat)
    requires 0 < k <= 5
    ensures ReplaceChar(OnePass(s, k - 1), SPECIALS[k - 1], ENTITIES[k - 1]) == OnePass(s, k)
  {
    if s != [] {
      PassOnToken(s[0], k);
      PassOnOnePass(s[1..], k);
      ReplaceCharAppend(Token(s[0], k - 1), OnePass(s[1..], k - 1), SPECIALS[k - 1], ENTITIES[k - 1]);
    }
  }

  lemma {:induction false} NoPassIsIdentity(s: string)
    ensures OnePass(s, 0) == s
  {
    if s != [] {
      NoPassIsIdentity(s[1..]);
    }
  }

  lemma {:induction false} PassesAreOnePass(s: string, k: nat)
    requires k <= 5
    ensures Passes(s, k) == OnePass(s, k)
  {
    if k == 0 {
      NoPassIsIdentity(s);
    } else {
      PassesAreOnePass(s, k - 1);
      PassOnOnePass(s, k);
    }
  }

  /** The five sequential replacements never rewrite each other's output. */
  lemma EncodingIsOnePass(s: string)
    ensures AsEncodedHTML(s) == OnePass(s, 5)
  {
    PassesAreOnePass(s, 5);
    assert Passes(s, 5) == ReplaceChar(Passes(s, 4), ' ', "&nbsp;");
    assert Passes(s, 4) == ReplaceChar(Passes(s, 3), '\"', "&quot;");
    assert Passes(s, 3) == ReplaceChar(Passes(s, 2), '>', "&gt;");
    assert Passes(s, 2) == ReplaceChar(Passes(s, 1), '<', "&lt;");
    assert Passes(s, 1) == ReplaceChar(Passes(s, 0), '&', "&amp;");
  }

  // ---------- the output is clean ----------

  lemma {:induction false} OnePassIsClean(s: string, c: char)
    requires c != '&' && c in SPECIALS
    ensures c !in OnePass(s, 5)
  {
    if s != [] {
      assert c !in Token(s[0], 5);
      OnePassIsClean(s[1..], c);
    }
  }

  /** No markup character and no space is left. */
  lemma EncodedIsClean(s: string)
    ensures '<' !in AsEncodedHTML(s) && '>' !in AsEncodedHTML(s)
    ensures '\"' !in AsEncodedHTML(s) && ' ' !in AsEncodedHTML(s)
  {
    EncodingIsOnePass(s);
    assert SPECIALS[1] == '<' && SPECIALS[2] == '>' && SPECIALS[3] == '\"' && SPECIALS[4] == ' ';
    OnePassIsClean(s, '<');
    OnePassIsClean(s, '>');
    OnePassIsClean(s, '\"');
    OnePassIsClean(s, ' ');
  }

  // ---------- undoing ----------

  /** A pattern that starts with '&' and matches nowhere inside `w` can be searched for behind `w`. */
  lemma {:induction false} SkipPlain(w: string, rest: string, pattern: string, c: char)
    requires pattern != [] && pattern[0] == '&' && '&' !in w
    ensures ReplaceWord(w + rest, pattern, c) == w + ReplaceWord(rest, pattern, c)
  {
    if w == [] {
      assert w + rest == rest;
    } else {
      assert (w + rest)[0] == w[0] != pattern[0];
      assert (w + rest)[1..] == w[1..] + rest;
      SkipPlain(w[1..], rest, pattern, c);
    }
  }

  /** Two different entities differ in their second or third character. */
  lemma TokenIsNotEntity(c: char, k: nat)
    requires 0 < k <= 5 && c != SPECIALS[k - 1] && c in SPECIALS[..k]
    ensures var token, entity := Token(c, k), ENTITIES[k - 1];
      && |token| > 3 && |entity| > 3 && token[0] == '&' && '&' !in token[1..]
      && (token[1] != entity[1] || token[2] != entity[2])
      && token == Token(c, k - 1)
  {
  }

  lemma PlainToken(c: char, k: nat)
    requires 0 < k <= 5 && c !in SPECIALS[..k]
    ensures Token(c, k) == [c] == Token(c, k - 1) && c != '&'
  {
    var done := SPECIALS[..k];
    assert done[0] == '&';
    assert k > 1 ==> done[1] == '<';
    assert k > 2 ==> done[2] == '>';
    assert k > 3 ==> done[3] == '\"';
    assert k > 4 ==> done[4] == ' ';
  }

  lemma EntityStartsWithAmp(k: nat)
    requires 0 < k <= 5
    ensures |ENTITIES[k - 1]| > 3 && ENTITIES[k - 1][0] == '&'
    ensures Token(SPECIALS[k - 1], k) == ENTITIES[k - 1] && Token(SPECIALS[k - 1], k - 1) == [SPECIALS[k - 1]]
  {
  }

  /** A word with one leading '&' that differs from the pattern right after it is passed over. */
  lemma SkipEntity(token: string, rest: string, pattern: string, c: char)
    requires |token| > 3 && |pattern| > 3 && pattern[0] == '&' && '&' !in token[1..]
    requires token[1] != pattern[1] || token[2] != pattern[2]
    ensures ReplaceWord(token + rest, pattern, c) == token + ReplaceWord(rest, pattern, c)
  {
    var s := token + rest;
    assert s[1] == token[1] && s[2] == token[2];
    assert !(pattern <= s);
    assert s[1..] == token[1..] + rest;
    SkipPlain(token[1..], rest, pattern, c);
    assert token == [token[0]] + token[1..];
  }

  /** The token of `c` after pass `k` turns back into its token before pass `k`. */
  lemma UndoToken(c: char, rest: string, k: nat)
    requires 0 < k <= 5
    ensures ReplaceWord(Token(c, k) + rest, ENTITIES[k - 1], SPECIALS[k - 1])
         == Token(c, k - 1) + ReplaceWord(rest, ENTITIES[k - 1], SPECIALS[k - 1])
  {
    var entity, special := ENTITIES[k - 1], SPECIALS[k - 1];
    EntityStartsWithAmp(k);
    if c == special {
      assert entity <= entity + rest && (entity + rest)[|entity|..] == rest;
    } else if c in SPECIALS[..k] {
      TokenIsNotEntity(c, k);
      SkipEntity(Token(c, k), rest, entity, special);
    } else {
      PlainToken(c, k);
      SkipPlain([c], rest, entity, special);
    }
  }

  lemma {:induction false} UndoPass(s: string, k: nat)
    requires 0 < k <= 5
    ensures ReplaceWord(OnePass(s, k), ENTITIES[k - 1], SPECIALS[k - 1]) == OnePass(s, k - 1)
  {
    if s != [] {
      UndoToken(s[0], OnePass(s[1..], k), k);
      UndoPass(s[1..], k);
    }
  }

  lemma {:induction false} UndoPasses(s: string, k: nat)
    requires k <= 5
    ensures Undo(OnePass(s, k), k) == s
  {
    if k == 0 {
      NoPassIsIdentity(s);
    } else {
      UndoPass(s, k);
      UndoPasses(s, k - 1);
    }
  }

  /** Decoding, latest pass first, recovers every input. */
  lemma RoundTrip(s: string)
    ensures Undo(AsEncodedHTML(s), 5) == s
  {
    EncodingIsOnePass(s);
    UndoPasses(s, 5);
  }

  /** Two texts with the same encoding are the same text. */
  lemma EncodingIsInjective(s: string, t: string)
    requires AsEncodedHTML(s) == AsEncodedHTML(t)
    ensures s == t
  {
    RoundTrip(s);
    RoundTrip(t);
  }

  /** The ampersand has to go first: escaping '<' before it does not give the one-pass map. */
  lemma OrderMatters()
    ensures ReplaceChar(ReplaceChar("<", '<', "&lt;"), '&', "&amp;") != OnePass("<", 2)
  {
    assert ReplaceChar("<", '<', "&lt;") == "&lt;" + ReplaceChar("", '<', "&lt;") == "&lt;";
    assert ReplaceChar("&lt;", '&', "&amp;")[1] == 'a';
    assert OnePass("<", 2) == "&lt;" + OnePass("", 2) == "&lt;";
  }

  /** The encoding of a text is that of its parts, one after the other. */
  lemma {:induction false} EncodingIsPiecewise(s: string, t: string)
    ensures AsEncodedHTML(s + t) == AsEncodedHTML(s) + AsEncodedHTML(t)
  {
    EncodingIsOnePass(s + t);
    EncodingIsOnePass(s);
    EncodingIsOnePass(t);
    OnePassAppend(s, t);
  }

  lemma {:induction false} OnePassAppend(s: string, t: string)
    ensures OnePass(s + t, 5) == OnePass(s, 5) + OnePass(t, 5)
  {
    if s == [] {
      assert s + t == t;
    } else {
      assert (s + t)[0] == s[0] && (s + t)[1..] == s[1..] + t;
      OnePassAppend(s[1..], t);
    }
  }

  /** Five characters have their entities of HTML, and every other stands for itself. */
  lemma CharactersEncoded(c: char)
    ensures AsEncodedHTML([c])
      == match c
         case '&' => "&amp;"
         case '<' => "&lt;"
         case '>' => "&gt;"
         case '\"' => "&quot;"
         case ' ' => "&nbsp;"
         case _ => [c]
  {
    EncodingIsOnePass([c]);
    assert OnePass([c], 5) == Token(c, 5) + OnePass([c][1..], 5);
  }
}
