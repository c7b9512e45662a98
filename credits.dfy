/** The credit line shown under an Astronomy Picture of the Day: the rule that
    LoadImageResponseIntoForm applies to the response's copyright text before
    it puts it in the credits label. The string operations it relies on
    (String.Replace, String.ToLower, String.Contains) are defined here on
    `seq<char>`; lower-casing covers ASCII letters only. */
module Credits {

  /** The phrase whose presence means the copyright already reads as a credit. */
  const Phrase: string := "image credit"

  /** Put in front of a copyright that does not already read as a credit. */
  const Prefix: string := "Image credit: "

  /** `s` with every `from` replaced by `to` (String.Replace on one-character strings). */
  function Replace(s: string, from: char, to: char): (r: string)
  {
    seq(|s|, i requires 0 <= i < |s| => if s[i] == from then to else s[i])
  }

  /** Replacing removes every `from`, and a text without one is left as it is. */
  lemma ReplaceRemoves(s: string, from: char, to: char)
    ensures from != to ==> from !in Replace(s, from, to)
    ensures from !in s ==> Replace(s, from, to) == s
  {
  }

  /** ASCII lower-casing of one character; every other character is kept. */
  function LowerChar(c: char): (l: char)
    ensures !('A' <= l <= 'Z')
    ensures 'A' <= c <= 'Z' ==> 'a' <= l <= 'z' && l as int - 'a' as int == c as int - 'A' as int
    ensures !('A' <= c <= 'Z') ==> l == c
  {
    if 'A' <= c <= 'Z' then (c as int - 'A' as int + 'a' as int) as char else c
  }

  /** String.ToLower, restricted to ASCII letters. */
  function Lower(s: string): (r: string)
  {
    seq(|s|, i requires 0 <= i < |s| => LowerChar(s[i]))
  }

  /** `sub` occurs in `s` starting at index `i`. */
  predicate OccursAt(s: string, sub: string, i: int)
  {
    0 <= i && i + |sub| <= |s| && s[i..i + |sub|] == sub
  }

  /** String.Contains: an ordinal search for `sub` in `s`, from the left. */
  predicate Contains(s: string, sub: string)
    decreases |s|
  {
    (|sub| <= |s| && s[..|sub|] == sub) || (|s| > 0 && Contains(s[1..], sub))
  }

  /** The search finds `sub` exactly when it occurs somewhere in `s`. */
  lemma {:induction false} ContainsIff(s: string, sub: string)
    ensures Contains(s, sub) <==> exists i :: OccursAt(s, sub, i)
    decreases |s|
  {
    if |s| > 0 {
      ContainsIff(s[1..], sub);
      if |sub| <= |s| && s[..|sub|] == sub {
        assert OccursAt(s, sub, 0);
      }
      if Contains(s[1..], sub) {
        var i :| OccursAt(s[1..], sub, i);
        assert s[1..][i..i + |sub|] == s[i + 1..i + 1 + |sub|];
        assert OccursAt(s, sub, i + 1);
      }
      if exists i :: OccursAt(s, sub, i) {
        var i :| OccursAt(s, sub, i);
        if i > 0 {
          assert s[1..][i - 1..i - 1 + |sub|] == s[i..i + |sub|];
          assert OccursAt(s[1..], sub, i - 1);
        } else {
          assert s[..|sub|] == sub;
        }
      }
    } else if exists i :: OccursAt(s, sub, i) {
      var i :| OccursAt(s, sub, i);
      assert s[..|sub|] == sub;
    } else if Contains(s, sub) {
      assert OccursAt(s, sub, 0);
    }
  }

  /** A text shorter than `sub` does not contain it. */
  lemma {:induction false} ShorterNotContained(s: string, sub: string)
    requires |s| < |sub|
    ensures !Contains(s, sub)
    decreases |s|
  {
    if |s| > 0 {
      ShorterNotContained(s[1..], sub);
    }
  }

  /** The test the form applies to the copyright: with newlines turned into
      spaces and lower-cased, the text contains "image credit". */
  predicate MentionsCredit(copyright: string)
  {
    Contains(Lower(Replace(copyright, '\n', ' ')), Phrase)
  }

  /** The text the credits label receives for a given copyright. */
  function CreditLine(copyright: string): (line: string)
    ensures '\n' in line ==> line == copyright
    ensures |copyright| <= |line|
  {
    ReplaceRemoves(copyright, '\n', ' ');
    var imageCredits := Replace(copyright, '\n', ' ');
    var lowercaseImageCredits := Lower(imageCredits);
    if Contains(lowercaseImageCredits, Phrase) then copyright else Prefix + imageCredits
  }

  /** What each branch of the rule shows: the copyright itself, newlines and
      all, exactly when it passes the test; otherwise the prefix followed by
      the newline-free copyright. */
  lemma CreditLineBranches(copyright: string)
    ensures CreditLine(copyright) == copyright <==> MentionsCredit(copyright)
    ensures !MentionsCredit(copyright) ==>
      var line := CreditLine(copyright);
      |Prefix| <= |line| && line[..|Prefix|] == Prefix &&
      line[|Prefix|..] == Replace(copyright, '\n', ' ') &&
      '\n' !in line
  {
    ReplaceRemoves(copyright, '\n', ' ');
  }

  /** Whatever the copyright, the label text itself passes the form's test. */
  lemma CreditLineMentionsCredit(copyright: string)
    ensures MentionsCredit(CreditLine(copyright))
  {
    var line := CreditLine(copyright);
    if !MentionsCredit(copyright) {
      var credits := Replace(copyright, '\n', ' ');
      assert line == Prefix + credits;
      ReplaceRemoves(copyright, '\n', ' ');
      assert '\n' !in line;
      ReplaceRemoves(line, '\n', ' ');
      var lower := Lower(line);
      assert lower[..|Phrase|] == Phrase by {
        forall i | 0 <= i < |Phrase| ensures lower[i] == Phrase[i] {
          assert line[i] == Prefix[i];
        }
      }
    }
  }

  /** Running the rule on its own output changes nothing: a credit line
      already formatted is shown as it is. */
  lemma CreditLineIdempotent(copyright: string)
    ensures CreditLine(CreditLine(copyright)) == CreditLine(copyright)
  {
    CreditLineMentionsCredit(copyright);
  }

  /** The phrase is already in lower case. */
  lemma PhraseIsLowerCase()
    ensures Lower(Phrase) == Phrase
  {
  }

  /** Folding the line break of "image\ncredit" gives the phrase. */
  lemma SplitPhraseFolds()
    ensures Replace("image\ncredit", '\n', ' ') == Phrase
  {
  }

  /** The text with the line break does not itself contain the phrase. */
  lemma SplitPhraseLacksPhrase()
    ensures !Contains("image\ncredit", Phrase)
  {
    var c := "image\ncredit";
    ShorterNotContained(c[1..], Phrase);
    assert c[..|Phrase|] != Phrase by {
      assert c[..|Phrase|][5] != Phrase[5];
    }
  }

  /** The test folds newlines but the verbatim branch shows the original: a
      copyright that spells the phrase across a line break passes the test,
      yet the label it produces does not contain "image credit". */
  lemma SplitPhraseShownVerbatim()
    ensures MentionsCredit("image\ncredit")
    ensures CreditLine("image\ncredit") == "image\ncredit"
    ensures !Contains(CreditLine("image\ncredit"), Phrase)
  {
    SplitPhraseFolds();
    PhraseIsLowerCase();
    SplitPhraseLacksPhrase();
  }

  /** A plain name does not pass the test. */
  lemma PlainNameFailsTest()
    ensures !MentionsCredit("Jane Doe")
  {
    assert Lower(Replace("Jane Doe", '\n', ' ')) == "jane doe";
    ShorterNotContained("jane doe", Phrase);
  }

  /** The phrase in mixed case passes the test. */
  lemma MixedCasePassesTest()
    ensures MentionsCredit("Image Credit")
  {
    var s := "Image Credit";
    assert Lower(s) == Phrase;
    ReplaceRemoves(s, '\n', ' ');
  }

  /** Two concrete cases: a plain name gets the prefix; a copyright that
      already says "Image Credit", in any case, is kept as it is. */
  lemma CreditLineExamples()
    ensures CreditLine("Jane Doe") == "Image credit: Jane Doe"
    ensures CreditLine("Image Credit") == "Image Credit"
  {
    PlainNameFailsTest();
    MixedCasePassesTest();
  }
}
