/**
 * The tag-stripping sanitiser of the submission pipeline (`sanitizeInput`).
 *
 * The source applies two global regular-expression replacements:
 *  1. `/<[^>]*>/g` replaced by the empty string: scanning left to right, a `<`
 *     that has some `>` after it starts a match that ends at the FIRST such `>`
 *     (the class `[^>]` cannot cross a `>`), and the whole match is removed;
 *  2. `/[^\w\s@.,?!-]/gi` replaced through a callback that returns the matched
 *     character itself, which therefore changes nothing.
 */
module Sanitize {

  /** The index of the first occurrence of `c` in `s`. */
  function IndexOf(s: string, c: char): (i: nat)
    requires c in s
    ensures i < |s| && s[i] == c
    ensures forall k :: 0 <= k < i ==> s[k] != c
  {
    if s[0] == c then 0 else 1 + IndexOf(s[1..], c)
  }

  /** The first replacement: every `<...>` run, ending at the first `>`, is removed. */
  function StripTags(s: string): (r: string)
    ensures |r| <= |s|
    decreases |s|
  {
    if s == [] then []
    else if s[0] == '<' && '>' in s[1..] then
      StripTags(s[1..][IndexOf(s[1..], '>') + 1..])
    else
      [s[0]] + StripTags(s[1..])
  }

  /** `\s` of JavaScript regular expressions. */
  predicate IsSpace(c: char) {
    c in {' ', '\t', '\n', '\r', '\U{B}', '\U{C}', '\U{A0}', '\U{1680}', '\U{2028}',
          '\U{2029}', '\U{202F}', '\U{205F}', '\U{3000}', '\U{FEFF}'}
    || ('\U{2000}' <= c <= '\U{200A}')
  }

  /** `\w` of JavaScript regular expressions (case folding adds nothing to it). */
  predicate IsWord(c: char) {
    ('a' <= c <= 'z') || ('A' <= c <= 'Z') || ('0' <= c <= '9') || c == '_'
  }

  /** The class `[\w\s@.,?!-]`: characters the second replacement leaves alone. */
  predicate IsPlain(c: char) {
    IsWord(c) || IsSpace(c) || c in {'@', '.', ',', '?', '!', '-'}
  }

  /** The callback of the second replacement: it gives back the matched character. */
  function Echo(c: char): string {
    [c]
  }

  /** The second replacement: every character outside the plain class is
      replaced by what `callback` returns for it. */
  function ReplaceUnusual(s: string, callback: char -> string): string {
    if s == [] then []
    else (if IsPlain(s[0]) then [s[0]] else callback(s[0])) + ReplaceUnusual(s[1..], callback)
  }

  /** `sanitizeInput`: both replacements, one after the other. */
  function SanitizeInput(s: string): (r: string)
    ensures r == StripTags(s)
  {
    EchoChangesNothing(StripTags(s));
    ReplaceUnusual(StripTags(s), Echo)
  }

  /** `a` can be obtained from `b` by deleting characters. */
  predicate IsSubsequence(a: string, b: string)
    decreases |b|
  {
    if a == [] then true
    else if b == [] then false
    else (a[0] == b[0] && IsSubsequence(a[1..], b[1..])) || IsSubsequence(a, b[1..])
  }

  /** No `<` is followed, anywhere later, by a `>`: nothing tag-shaped is left. */
  predicate NoTag(s: string) {
    forall i, j :: 0 <= i < j < |s| && s[i] == '<' ==> s[j] != '>'
  }

  /** The second replacement, with the source's callback, is the identity. */
  lemma {:induction false} EchoChangesNothing(s: string)
    ensures ReplaceUnusual(s, Echo) == s
  {
    if s != [] {
      EchoChangesNothing(s[1..]);
      assert s == [s[0]] + s[1..];
    }
  }

  lemma {:induction false} SubsequenceOfSuffix(a: string, b: string, k: nat)
    requires k <= |b|
    requires IsSubsequence(a, b[k..])
    ensures IsSubsequence(a, b)
    decreases k
  {
    if k > 0 {
      assert b[k..] == b[1..][k - 1..];
      SubsequenceOfSuffix(a, b[1..], k - 1);
    }
  }

  lemma {:induction false} SubsequenceKeepsOut(a: string, b: string, c: char)
    requires IsSubsequence(a, b) && c !in b
    ensures c !in a
    decreases |b|
  {
    if a != [] {
      if a[0] == b[0] && IsSubsequence(a[1..], b[1..]) {
        SubsequenceKeepsOut(a[1..], b[1..], c);
      } else {
        SubsequenceKeepsOut(a, b[1..], c);
      }
      assert a == [a[0]] + a[1..];
    }
  }

  /** The sanitised text only deletes characters of the input, in order. */
  lemma {:induction false} StripTagsIsSubsequence(s: string)
    ensures IsSubsequence(StripTags(s), s)
    decreases |s|
  {
    if s == [] {
    } else if s[0] == '<' && '>' in s[1..] {
      var k := IndexOf(s[1..], '>') + 2;
      assert s[1..][k - 1..] == s[k..];
      StripTagsIsSubsequence(s[k..]);
      SubsequenceOfSuffix(StripTags(s), s, k);
    } else {
      StripTagsIsSubsequence(s[1..]);
      var r := StripTags(s);
      assert r[0] == s[0] && r[1..] == StripTags(s[1..]);
    }
  }

  /** What the sanitiser keeps contains no `<` with a `>` after it. */
  lemma {:induction false} StripTagsNoTag(s: string)
    ensures NoTag(StripTags(s))
    decreases |s|
  {
    if s == [] {
    } else if s[0] == '<' && '>' in s[1..] {
      StripTagsNoTag(s[1..][IndexOf(s[1..], '>') + 1..]);
    } else {
      var t := StripTags(s[1..]);
      StripTagsNoTag(s[1..]);
      if s[0] == '<' {
        StripTagsIsSubsequence(s[1..]);
        SubsequenceKeepsOut(t, s[1..], '>');
      }
      var r := [s[0]] + t;
      forall i, j | 0 <= i < j < |r| && r[i] == '<'
        ensures r[j] != '>'
      {
        if i > 0 {
          assert t[i - 1] == '<' && r[j] == t[j - 1];
        } else {
          assert r[j] == t[j - 1] && t[j - 1] in t;
        }
      }
    }
  }

  /** A text with nothing tag-shaped in it passes through unchanged. */
  lemma {:induction false} StripTagsKeepsPlainText(s: string)
    requires NoTag(s)
    ensures StripTags(s) == s
    decreases |s|
  {
    if s != [] {
      if s[0] == '<' {
        forall j | 0 <= j < |s[1..]|
          ensures s[1..][j] != '>'
        {
          assert s[j + 1] != '>';
        }
      }
      assert NoTag(s[1..]) by {
        forall i, j | 0 <= i < j < |s[1..]| && s[1..][i] == '<'
          ensures s[1..][j] != '>'
        {
          assert s[i + 1] == '<';
        }
      }
      StripTagsKeepsPlainText(s[1..]);
    }
  }

  /** The sanitiser deletes only: its output is a subsequence of its input. */
  lemma SanitizeIsSubsequence(s: string)
    ensures IsSubsequence(SanitizeInput(s), s)
  {
    StripTagsIsSubsequence(s);
  }

  /** The sanitiser's output holds no `<` followed later by a `>`. */
  lemma SanitizeLeavesNoTag(s: string)
    ensures NoTag(SanitizeInput(s))
  {
    StripTagsNoTag(s);
  }

  /** Text with nothing tag-shaped in it is left exactly as it was. */
  lemma SanitizeKeepsPlainText(s: string)
    requires NoTag(s)
    ensures SanitizeInput(s) == s
  {
    StripTagsKeepsPlainText(s);
  }

  /** Sanitising twice is the same as sanitising once. */
  lemma SanitizeIdempotent(s: string)
    ensures SanitizeInput(SanitizeInput(s)) == SanitizeInput(s)
  {
    StripTagsNoTag(s);
    StripTagsKeepsPlainText(StripTags(s));
  }

  /** Text without any `<` passes through the first replacement untouched,
      whatever follows it. */
  lemma {:induction false} StripTagsPlainPrefix(p: string, t: string)
    requires '<' !in p
    ensures StripTags(p + t) == p + StripTags(t)
  {
    if p == [] {
      assert p + t == t;
    } else {
      var s := p + t;
      assert s[0] == p[0] && s[0] != '<';
      assert s[1..] == p[1..] + t;
      calc {
        StripTags(s);
        [s[0]] + StripTags(s[1..]);
        { StripTagsPlainPrefix(p[1..], t); }
        [p[0]] + (p[1..] + StripTags(t));
        { assert p == [p[0]] + p[1..]; }
        p + StripTags(t);
      }
    }
  }

  /** A whole tag at the front is removed. */
  lemma StripTagsLeadingTag(body: string, rest: string)
    requires '>' !in body
    ensures StripTags("<" + body + ">" + rest) == StripTags(rest)
  {
    var s := "<" + body + ">" + rest;
    assert s[1..] == body + ">" + rest;
    assert s[1..][|body|] == '>';
    assert IndexOf(s[1..], '>') == |body|;
    assert s[1..][|body| + 1..] == rest;
  }

  /** An element whose content holds no `<`, such as `<script>alert(1)</script>`,
      is replaced by its bare content; the text after it is sanitised as usual. */
  lemma SanitizeElement(name: string, content: string, rest: string)
    requires '>' !in name && '<' !in content
    ensures SanitizeInput("<" + name + ">" + content + "</" + name + ">" + rest)
         == content + SanitizeInput(rest)
  {
    var input := "<" + name + ">" + content + "</" + name + ">" + rest;
    var closing := "<" + ("/" + name) + ">" + rest;
    assert '>' !in "/" + name;
    assert input == "<" + name + ">" + (content + closing) by {
      assert "</" + name == "<" + ("/" + name);
    }
    calc {
      SanitizeInput(input);
      StripTags(input);
      { StripTagsLeadingTag(name, content + closing); }
      StripTags(content + closing);
      { StripTagsPlainPrefix(content, closing); }
      content + StripTags(closing);
      { StripTagsLeadingTag("/" + name, rest); }
      content + SanitizeInput(rest);
    }
  }
}
