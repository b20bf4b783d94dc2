/**
 * The text test for fetch errors: none of the backend's fixed messages passes
 * it, and a message with an embedded text passes it exactly if that text does.
 */
module FetchTexts {
  import opened Text
  import opened Apt

  // ------------------------------------------------------ fetch-error phrases

  /** Every fetch-error phrase has a '4', or an "fo" or "fe" after a blank. */
  predicate Marked(s: string, k: nat)
    requires k < |s|
  {
    s[k] == '4' || (k + 2 < |s| && s[k] == ' ' && s[k + 1] == 'f' && (s[k + 2] == 'o' || s[k + 2] == 'e'))
  }

  predicate Unmarked(s: string) {
    forall k :: 0 <= k < |s| ==> !Marked(s, k)
  }

  lemma PhraseIsMarked(s: string, part: string, i: nat, mark: nat)
    requires OccursAt(s, part, i) && mark < |part| && Marked(part, mark)
    ensures i + mark < |s| && Marked(s, i + mark)
  {
    var u := s[i..i + |part|];
    assert forall k :: 0 <= k < |u| ==> u[k] == s[i + k];
  }

  lemma ContainedPhraseIsMarked(s: string, part: string, mark: nat)
    requires Contains(s, part) && mark < |part| && Marked(part, mark)
    ensures !Unmarked(s)
  {
    var i :| 0 <= i <= |s| && OccursAt(s, part, i);
    PhraseIsMarked(s, part, i, mark);
  }

  lemma FetchTextIsMarked(text: string)
    requires IsFetchText(text)
    ensures !Unmarked(Lower(text))
  {
    if Contains(Lower(text), "404") {
      ContainedPhraseIsMarked(Lower(text), "404", 0);
    } else if Contains(Lower(text), "not found") {
      ContainedPhraseIsMarked(Lower(text), "not found", 3);
    } else if Contains(Lower(text), "failed to fetch") {
      ContainedPhraseIsMarked(Lower(text), "failed to fetch", 9);
    } else {
      ContainedPhraseIsMarked(Lower(text), "unable to fetch", 9);
    }
  }

  /** A word that cannot take part in a mark: no '4', no blank, and no "fo" or "fe" in front. */
  predicate IsHarmless(word: string) {
    && (forall k :: 0 <= k < |word| ==> word[k] != '4' && word[k] != ' ')
    && (word != "" && LowerChar(word[0]) == 'f' ==>
          |word| >= 2 && LowerChar(word[1]) != 'o' && LowerChar(word[1]) != 'e')
  }

  predicate AllHarmless(words: seq<string>) {
    forall i :: 0 <= i < |words| ==> IsHarmless(words[i])
  }

  /** Behind a blank such a word adds no mark. */
  lemma HarmlessWordAdds(a: string, word: string)
    requires Unmarked(Lower(a)) && IsHarmless(word)
    ensures Unmarked(Lower(a + " " + word))
  {
    var s, u := Lower(a + " " + word), Lower(a);
    assert forall k :: 0 <= k < |a| ==> s[k] == u[k];
    assert s[|a|] == ' ';
    forall k | 0 <= k < |s|
      ensures !Marked(s, k)
    {
      if k < |a| {
        assert !Marked(u, k);
      }
    }
  }

  lemma {:induction false} HarmlessSentence(words: seq<string>)
    requires forall i :: 0 <= i < |words| ==> IsHarmless(words[i])
    ensures Unmarked(Lower(Sentence(words)))
    decreases |words|
  {
    if |words| > 1 {
      HarmlessSentence(words[..|words| - 1]);
      HarmlessWordAdds(Sentence(words[..|words| - 1]), words[|words| - 1]);
    }
  }

  lemma HarmlessMessage(words: seq<string>)
    requires AllHarmless(words)
    ensures !IsFetchText(Sentence(words))
  {
    HarmlessSentence(words);
    if IsFetchText(Sentence(words)) {
      FetchTextIsMarked(Sentence(words));
    }
  }

  lemma HarmlessConcat(a: seq<string>, b: seq<string>)
    requires AllHarmless(a) && AllHarmless(b)
    ensures AllHarmless(a + b)
  {
  }

  lemma ConfigureWords()
    ensures AllHarmless(CONFIGURE_FAILED_WORDS)
  {
    assert IsHarmless("dpkg") && IsHarmless("--configure") && IsHarmless("-a") && IsHarmless("failed:") &&
      IsHarmless("package") && IsHarmless("manager") && IsHarmless("is") && IsHarmless("in") &&
      IsHarmless("a") && IsHarmless("broken") && IsHarmless("state") && IsHarmless("that") &&
      IsHarmless("requires") && IsHarmless("manual") && IsHarmless("intervention");
    hide IsHarmless;
  }

  lemma DirtyWords()
    ensures AllHarmless(STILL_DIRTY_WORDS)
  {
    assert IsHarmless("dpkg") && IsHarmless("--audit") && IsHarmless("shows") && IsHarmless("half-configured") &&
      IsHarmless("packages") && IsHarmless("after") && IsHarmless("operation") && IsHarmless("and") &&
      IsHarmless("cleanup");
    hide IsHarmless;
  }

  lemma AptWords()
    ensures AllHarmless(APT_FAILED_WORDS) && AllHarmless(HELD_BLOCK_WORDS)
  {
    assert IsHarmless("Failed") && IsHarmless("to") && IsHarmless("execute") && IsHarmless("apt") &&
      IsHarmless("command") && IsHarmless("dist-upgrade") && IsHarmless("blocked") && IsHarmless("by") &&
      IsHarmless("held") && IsHarmless("packages");
    hide IsHarmless;
  }

  lemma FixWords()
    ensures AllHarmless(FIX_FAILED_WORDS)
  {
    assert IsHarmless("Pre-upgrade") && IsHarmless("fix-broken") && IsHarmless("failed") && IsHarmless("—") &&
      IsHarmless("resolve") && IsHarmless("dependency") && IsHarmless("issues") && IsHarmless("before") &&
      IsHarmless("retrying");
    hide IsHarmless;
  }

  lemma RefixWords()
    ensures AllHarmless(REFIX_FAILED_WORDS)
  {
    assert IsHarmless("fix-broken") && IsHarmless("failed") && IsHarmless("on") && IsHarmless("retry") &&
      IsHarmless("—") && IsHarmless("dependency") && IsHarmless("issues") && IsHarmless("remain") &&
      IsHarmless("unresolved");
    hide IsHarmless;
  }

  lemma FallbackWords()
    ensures AllHarmless(FALLBACK_HEAD) && AllHarmless(FALLBACK_TAIL)
  {
    assert IsHarmless("held-package") && IsHarmless("fallback") && IsHarmless("(apt-get") && IsHarmless("upgrade)") &&
      IsHarmless("failed") && IsHarmless("blocked") && IsHarmless("by") && IsHarmless("held") &&
      IsHarmless("packages") && IsHarmless("and") && IsHarmless("the") && IsHarmless("upgrade") && IsHarmless("also");
    hide IsHarmless;
  }

  lemma FallbackFailedWords()
    ensures AllHarmless(FALLBACK_FAILED_WORDS) && AllHarmless(RETRY_FALLBACK_FAILED_WORDS)
  {
    FallbackWords();
    var first, retry := ["—", "dist-upgrade", "was"], ["on", "dist-upgrade", "retry", "—"];
    assert AllHarmless(first) && AllHarmless(retry);
    hide AllHarmless;
    HarmlessConcat(FALLBACK_HEAD, first);
    HarmlessConcat(FALLBACK_HEAD + first, FALLBACK_TAIL);
    HarmlessConcat(FALLBACK_HEAD, retry);
    HarmlessConcat(FALLBACK_HEAD + retry, FALLBACK_TAIL);
  }

  lemma RemainWords()
    ensures AllHarmless(HELD_REMAIN_WORDS)
  {
    assert IsHarmless(";") && IsHarmless("the") && IsHarmless("safe") && IsHarmless("subset") &&
      IsHarmless("was") && IsHarmless("upgraded") && IsHarmless("but") && IsHarmless("held") &&
      IsHarmless("packages") && IsHarmless("and") && IsHarmless("their") && IsHarmless("entangled") &&
      IsHarmless("dependencies") && IsHarmless("remain") && IsHarmless("unpatched");
    hide IsHarmless;
  }

  lemma ReviewWords()
    ensures AllHarmless(HELD_REVIEW_WORDS)
  {
    assert IsHarmless("—") && IsHarmless("manual") && IsHarmless("review") && IsHarmless("required") &&
      IsHarmless("(the") && IsHarmless("post-apply") && IsHarmless("patch") && IsHarmless("scan") &&
      IsHarmless("lists") && IsHarmless("what") && IsHarmless("stayed") && IsHarmless("unpatched)");
    hide IsHarmless;
  }

  /** None of the fixed messages is a fetch error. */
  lemma FixedMessagesAreHarmless()
    ensures !IsFetchText(CONFIGURE_FAILED) && !IsFetchText(APT_FAILED)
    ensures !IsFetchText(FIX_FAILED) && !IsFetchText(REFIX_FAILED)
    ensures !IsFetchText(FALLBACK_FAILED) && !IsFetchText(RETRY_FALLBACK_FAILED)
    ensures !IsFetchText(STILL_DIRTY) && !IsFetchText(HELD_BLOCK) && !IsFetchText(HELD_ADVICE)
  {
    hide IsFetchText, IsHarmless, Sentence;
    ConfigureWords();
    DirtyWords();
    AptWords();
    FixWords();
    RefixWords();
    FallbackFailedWords();
    RemainWords();
    ReviewWords();
    HarmlessConcat(HELD_REMAIN_WORDS, HELD_REVIEW_WORDS);
    HarmlessMessage(CONFIGURE_FAILED_WORDS);
    HarmlessMessage(APT_FAILED_WORDS);
    HarmlessMessage(FIX_FAILED_WORDS);
    HarmlessMessage(REFIX_FAILED_WORDS);
    HarmlessMessage(FALLBACK_FAILED_WORDS);
    HarmlessMessage(RETRY_FALLBACK_FAILED_WORDS);
    HarmlessMessage(STILL_DIRTY_WORDS);
    HarmlessMessage(HELD_BLOCK_WORDS);
    HarmlessMessage(HELD_REMAIN_WORDS + HELD_REVIEW_WORDS);
  }

  // --------------------------------------------------------- embedded texts

  /** The separators of composed messages are in no phrase. */
  lemma FetchTextSplit(a: string, c: char, b: string)
    requires c == '[' || c == ']' || c == ':'
    ensures IsFetchText(a + [c] + b) <==> IsFetchText(a) || IsFetchText(b)
  {
    LowerConcat(a + [c], b);
    LowerConcat(a, [c]);
    assert Lower([c]) == [c];
    ContainsSplit(Lower(a), c, Lower(b), "404");
    ContainsSplit(Lower(a), c, Lower(b), "not found");
    ContainsSplit(Lower(a), c, Lower(b), "failed to fetch");
    ContainsSplit(Lower(a), c, Lower(b), "unable to fetch");
  }

  lemma FetchTextBehindBlank(text: string)
    ensures IsFetchText(" " + text) <==> IsFetchText(text)
  {
    LowerConcat(" ", text);
    assert Lower(" ") == [' '];
    ContainsBehind(' ', Lower(text), "404");
    ContainsBehind(' ', Lower(text), "not found");
    ContainsBehind(' ', Lower(text), "failed to fetch");
    ContainsBehind(' ', Lower(text), "unable to fetch");
  }

  /** A blank at the end adds no phrase either. */
  lemma HarmlessBeforeBlank(words: seq<string>)
    requires AllHarmless(words)
    ensures !IsFetchText(Sentence(words) + " ")
  {
    HarmlessSentence(words);
    assert IsHarmless("");
    HarmlessWordAdds(Sentence(words), "");
    assert Sentence(words) + " " + "" == Sentence(words) + " ";
    if IsFetchText(Sentence(words) + " ") {
      FetchTextIsMarked(Sentence(words) + " ");
    }
  }

  /** The failure for a dirty database is a fetch error exactly if the audit's listing reads like one. */
  lemma DirtyMessage(listing: string)
    ensures IsFetchText(STILL_DIRTY + ": " + listing) <==> IsFetchText(listing)
  {
    FixedMessagesAreHarmless();
    hide IsFetchText;
    assert STILL_DIRTY + ": " + listing == STILL_DIRTY + [':'] + (" " + listing);
    FetchTextSplit(STILL_DIRTY, ':', " " + listing);
    FetchTextBehindBlank(listing);
  }

  /** The failure for held packages is a fetch error exactly if their list reads like one. */
  lemma HeldMessage(held: string)
    ensures IsFetchError(HeldFailure(held)) <==> IsFetchText(held)
  {
    FixedMessagesAreHarmless();
    AptWords();
    HarmlessBeforeBlank(HELD_BLOCK_WORDS);
    hide IsFetchText, Sentence;
    var rest := held + [']'] + HELD_ADVICE;
    assert HeldFailure(held).message == (HELD_BLOCK + " ") + ['['] + rest;
    FetchTextSplit(HELD_BLOCK + " ", '[', rest);
    FetchTextSplit(held, ']', HELD_ADVICE);
  }
}
