/** SQL LIKE without an escape character: `%` is any text, `_` is any one character. */
module SqlLike {

  predicate Like(pattern: string, text: string)
    decreases |pattern| + |text|
  {
    if pattern == "" then text == ""
    else if pattern[0] == '%' then Like(pattern[1..], text) || (text != "" && Like(pattern, text[1..]))
    else text != "" && (pattern[0] == '_' || pattern[0] == text[0]) && Like(pattern[1..], text[1..])
  }

  predicate OccursAt(word: string, text: string, i: int) {
    0 <= i && i + |word| <= |text| && text[i..i + |word|] == word
  }

  /** `word` stands somewhere inside `text` with at least one character on each side. */
  ghost predicate StrictlyInside(word: string, text: string) {
    exists i :: OccursAt(word, text, i) && 1 <= i && i + |word| < |text|
  }

  lemma {:induction false} PercentMatchesAll(text: string)
    ensures Like("%", text)
    decreases |text|
  {
    if text == "" {
      assert "%"[1..] == "";
    } else {
      PercentMatchesAll(text[1..]);
    }
  }

  predicate Literal(word: string) {
    forall c :: c in word ==> c != '%' && c != '_'
  }

  /** A literal prefix of a pattern matches itself and nothing else. */
  lemma {:induction false} LiteralPrefix(word: string, rest: string, text: string)
    requires Literal(word)
    ensures Like(word + rest, text) <==> OccursAt(word, text, 0) && Like(rest, text[|word|..])
    decreases |word|
  {
    if word == "" {
      assert word + rest == rest && text[|word|..] == text;
    } else {
      assert (word + rest)[1..] == word[1..] + rest;
      assert word[0] in word && forall c :: c in word[1..] ==> c in word;
      if text != "" {
        LiteralPrefix(word[1..], rest, text[1..]);
        if |word| <= |text| {
          assert text[1..][|word[1..]|..] == text[|word|..];
          assert text[..|word|] == [text[0]] + text[1..][..|word| - 1];
          assert word == [word[0]] + word[1..];
        }
      }
    }
  }

  /** A leading `%` matches any suffix. */
  lemma {:induction false} LeadingPercent(rest: string, text: string)
    ensures Like("%" + rest, text) <==> exists k :: 0 <= k <= |text| && Like(rest, text[k..])
    decreases |text|
  {
    assert ("%" + rest)[1..] == rest;
    assert text[0..] == text;
    if text != "" {
      LeadingPercent(rest, text[1..]);
      if k :| 0 <= k <= |text[1..]| && Like(rest, text[1..][k..]) {
        assert text[1..][k..] == text[k + 1..];
      }
      if k :| 1 <= k <= |text| && Like(rest, text[k..]) {
        assert text[1..][k - 1..] == text[k..];
      }
    }
  }

  lemma LeadingUnderscore(rest: string, text: string)
    ensures Like("_" + rest, text) <==> text != "" && Like(rest, text[1..])
  {
    assert ("_" + rest)[1..] == rest;
  }

  lemma WordBetweenCharacters(word: string, text: string, k: nat)
    requires Literal(word) && k <= |text|
    ensures Like("_" + (word + "_%"), text[k..]) <==> OccursAt(word, text, k + 1) && k + 1 + |word| < |text|
  {
    hide Like;
    LeadingUnderscore(word + "_%", text[k..]);
    if k < |text| {
      var after := text[k + 1..];
      assert text[k..][1..] == after;
      LiteralPrefix(word, "_%", after);
      if |word| <= |after| {
        assert after[..|word|] == text[k + 1..k + 1 + |word|];
        assert "_%" == "_" + "%";
        LeadingUnderscore("%", after[|word|..]);
        if |word| < |after| {
          PercentMatchesAll(after[|word|..][1..]);
        }
      }
    }
  }

  /** The pattern `%_word_%` asks for the word strictly inside: its underscores are wildcards. */
  lemma UnderscoresAreWildcards(word: string, text: string)
    requires Literal(word)
    ensures Like("%" + ("_" + (word + "_%")), text) <==> StrictlyInside(word, text)
  {
    hide Like;
    var inner := "_" + (word + "_%");
    LeadingPercent(inner, text);
    forall k | 0 <= k <= |text|
      ensures Like(inner, text[k..]) <==> OccursAt(word, text, k + 1) && k + 1 + |word| < |text|
    {
      WordBetweenCharacters(word, text, k);
    }
    if StrictlyInside(word, text) {
      var i :| OccursAt(word, text, i) && 1 <= i && i + |word| < |text|;
      assert Like(inner, text[i - 1..]);
    }
  }
}
