/** The word counter of the note editor (`String.countWords`). */
module WordCount {

  /** Only a space and a line feed end a word; tabs and carriage returns do not. */
  predicate IsSeparator(c: char)
  {
    c == ' ' || c == '\n'
  }

  /** Position `i` of `s` begins a maximal run of non-separator characters. */
  predicate StartsWord(s: string, i: int)
    requires 0 <= i < |s|
  {
    !IsSeparator(s[i]) && (i == 0 || IsSeparator(s[i - 1]))
  }

  /** The number of maximal runs of non-separator characters in `s`. */
  function Words(s: string): nat
  {
    if s == [] then 0
    else Words(s[..|s| - 1]) + (if StartsWord(s, |s| - 1) then 1 else 0)
  }

  /** The counting loop: one word for each character that ends a separator run. */
  method CountWords(s: string) returns (count: nat)
    ensures count == Words(s)
  {
    count := 0;
    var inWord := false;
    var i := 0;
    while i < |s|
      invariant 0 <= i <= |s|
      invariant count == Words(s[..i])
      invariant inWord <==> i > 0 && !IsSeparator(s[i - 1])
    {
      var c := s[i];
      assert s[..i + 1][..i] == s[..i];
      if c == ' ' || c == '\n' {
        inWord := false;
      } else if !inWord {
        count := count + 1;
        inWord := true;
      }
      i := i + 1;
    }
    assert s[..i] == s;
  }

  /** A string of separators only, the empty string included, has no words. */
  lemma {:induction false} NoWordsInSeparators(s: string)
    requires forall i :: 0 <= i < |s| ==> IsSeparator(s[i])
    ensures Words(s) == 0
  {
    if s != [] { NoWordsInSeparators(s[..|s| - 1]); }
  }

  /** A non-empty string without separators is one word. */
  lemma {:induction false} OneWordWithoutSeparators(s: string)
    requires s != []
    requires forall i :: 0 <= i < |s| ==> !IsSeparator(s[i])
    ensures Words(s) == 1
  {
    if |s| > 1 { OneWordWithoutSeparators(s[..|s| - 1]); }
  }

  /** A word needs a character, and two words need a separator between them. */
  lemma {:induction false} WordsBound(s: string)
    ensures Words(s) <= |s|
    ensures 2 * Words(s) <= |s| + 1
    ensures |s| > 0 && IsSeparator(s[|s| - 1]) ==> 2 * Words(s) <= |s|
  {
    if s != [] {
      var p := s[..|s| - 1];
      WordsBound(p);
      if |s| > 1 { assert p[|p| - 1] == s[|s| - 2]; }
    }
  }

  /** Joining two texts with a separator adds up their words. */
  lemma {:induction false} WordsJoin(a: string, sep: char, b: string)
    requires IsSeparator(sep)
    ensures Words(a + [sep] + b) == Words(a) + Words(b)
  {
    var s := a + [sep] + b;
    if b == [] {
      assert s[..|s| - 1] == a;
    } else {
      var b' := b[..|b| - 1];
      assert s[..|s| - 1] == a + [sep] + b';
      WordsJoin(a, sep, b');
      assert StartsWord(s, |s| - 1) == StartsWord(b, |b| - 1) by {
        if |b| > 1 { assert s[|s| - 2] == b[|b| - 2]; } else { assert s[|s| - 2] == sep; }
      }
    }
  }

  /** The count depends only on where the separators are. */
  lemma {:induction false} WordsFollowSeparators(s: string, t: string)
    requires |s| == |t|
    requires forall i :: 0 <= i < |s| ==> (IsSeparator(s[i]) <==> IsSeparator(t[i]))
    ensures Words(s) == Words(t)
  {
    if s != [] {
      WordsFollowSeparators(s[..|s| - 1], t[..|t| - 1]);
    }
  }

  /**
   * Tabs and carriage returns are part of words, not separators: putting
   * one in place of a word's character leaves the count unchanged.
   */
  lemma TabsAndReturnsAreWordCharacters(s: string, i: int, c: char)
    requires 0 <= i < |s| && !IsSeparator(s[i])
    requires c == '\t' || c == '\r'
    ensures Words(s[i := c]) == Words(s)
  {
    WordsFollowSeparators(s, s[i := c]);
  }
}
