/** What the text rules behind the deduplication keys mean: words, normalization, case and trimming. */
module TextRules {
  import opened Prelude
  import opened Proposals

  /** A word has characters and no whitespace. */
  predicate IsWord(w: string) {
    w != "" && forall i :: 0 <= i < |w| ==> !IsSpace(w[i])
  }

  predicate AllWords(ws: seq<string>) {
    forall i :: 0 <= i < |ws| ==> IsWord(ws[i])
  }

  predicate Spaceless(s: string) {
    forall i :: 0 <= i < |s| ==> !IsSpace(s[i])
  }

  lemma {:induction false} WordsAreWords(s: string, pending: string)
    requires Spaceless(pending)
    ensures AllWords(Words(s, pending))
    decreases |s|
  {
    if s != "" {
      if IsSpace(s[0]) { WordsAreWords(s[1..], ""); } else { WordsAreWords(s[1..], pending + [s[0]]); }
    }
  }

  /** A text without whitespace is one word. */
  lemma {:induction false} WordsOfWord(s: string, pending: string)
    requires Spaceless(s)
    ensures Words(s, pending) == if pending + s == "" then [] else [pending + s]
    decreases |s|
  {
    if s == "" {
      assert pending + s == pending;
    } else {
      assert pending + [s[0]] + s[1..] == pending + s;
      WordsOfWord(s[1..], pending + [s[0]]);
    }
  }

  /** Whitespace separates words, and nothing else does. */
  lemma {:induction false} WordsAtSpace(a: string, c: char, b: string, pending: string)
    requires IsSpace(c)
    ensures Words(a + [c] + b, pending) == Words(a, pending) + Words(b, "")
    decreases |a|
  {
    var s := a + [c] + b;
    if a == "" {
      assert s[0] == c && s[1..] == b;
    } else {
      assert s[0] == a[0] && s[1..] == a[1..] + [c] + b;
      WordsAtSpace(a[1..], c, b, if IsSpace(a[0]) then "" else pending + [a[0]]);
    }
  }

  /** Joining words with single spaces and splitting again gives the words back. */
  lemma {:induction false} WordsOfJoined(ws: seq<string>)
    requires AllWords(ws)
    ensures Words(JoinWords(ws), "") == ws
  {
    if |ws| == 1 {
      WordsOfWord(ws[0], "");
      assert "" + ws[0] == ws[0];
    } else if |ws| > 1 {
      var rest := ws[1..];
      assert ws[0] + " " + JoinWords(rest) == ws[0] + [' '] + JoinWords(rest);
      WordsAtSpace(ws[0], ' ', JoinWords(rest), "");
      WordsOfWord(ws[0], "");
      assert "" + ws[0] == ws[0];
      WordsOfJoined(rest);
    }
  }

  /** Two texts normalize to the same exactly when they have the same words, whatever whitespace is between them. */
  lemma SameNormalizedIff(a: string, b: string)
    ensures NormalizeText(a) == NormalizeText(b) <==> Words(a, "") == Words(b, "")
  {
    WordsAreWords(a, "");
    WordsAreWords(b, "");
    WordsOfJoined(Words(a, ""));
    WordsOfJoined(Words(b, ""));
  }

  lemma NormalizeIsIdempotent(s: string)
    ensures NormalizeText(NormalizeText(s)) == NormalizeText(s)
  {
    WordsAreWords(s, "");
    WordsOfJoined(Words(s, ""));
  }

  /** Lower-casing sends each capital to its small letter and keeps every other character. */
  lemma LowerFolds(k: int)
    requires 0 <= k < 26
    ensures LowerChar('A' + k as char) == 'a' + k as char && LowerChar('a' + k as char) == 'a' + k as char
  {
  }

  lemma LowerKeeps(c: char)
    ensures LowerChar(c) != c <==> 'A' <= c <= 'Z'
    ensures IsSpace(LowerChar(c)) <==> IsSpace(c)
    ensures LowerChar(LowerChar(c)) == LowerChar(c)
  {
  }

  function LowerWords(ws: seq<string>): seq<string> {
    Map((w: string) => Lower(w), ws)
  }

  lemma {:induction false} LowerJoined(ws: seq<string>)
    ensures Lower(JoinWords(ws)) == JoinWords(LowerWords(ws))
  {
    if |ws| > 1 {
      LowerJoined(ws[1..]);
      assert LowerWords(ws)[1..] == LowerWords(ws[1..]);
      assert Lower(ws[0] + " " + JoinWords(ws[1..])) == Lower(ws[0]) + Lower(" ") + Lower(JoinWords(ws[1..]));
      assert Lower(" ") == " ";
    }
  }

  lemma LowerWordsAreWords(ws: seq<string>)
    requires AllWords(ws)
    ensures AllWords(LowerWords(ws))
  {
    forall i, j | 0 <= i < |ws| && 0 <= j < |ws[i]| ensures !IsSpace(LowerWords(ws)[i][j]) {
      LowerKeeps(ws[i][j]);
    }
  }

  /** The text part of a claim's key, and its scope part, is the same for two texts exactly when they have the same words up to
      letter case. */
  lemma SameKeyIff(a: string, b: string)
    ensures Lower(NormalizeText(a)) == Lower(NormalizeText(b)) <==> LowerWords(Words(a, "")) == LowerWords(Words(b, ""))
  {
    WordsAreWords(a, "");
    WordsAreWords(b, "");
    LowerJoined(Words(a, ""));
    LowerJoined(Words(b, ""));
    LowerWordsAreWords(Words(a, ""));
    LowerWordsAreWords(Words(b, ""));
    WordsOfJoined(LowerWords(Words(a, "")));
    WordsOfJoined(LowerWords(Words(b, "")));
  }

  // ----- trimming, which the evidence key uses

  /** t is s without the whitespace at its ends. */
  predicate Trims(s: string, t: string) {
    && (exists i, j :: 0 <= i <= j <= |s| && t == s[i..j] && Blank(s[..i]) && Blank(s[j..]))
    && (t != "" ==> !IsSpace(t[0]) && !IsSpace(t[|t| - 1]))
  }

  predicate Blank(s: string) {
    forall i :: 0 <= i < |s| ==> IsSpace(s[i])
  }

  lemma {:induction false} TrimLeftIs(s: string) returns (i: nat)
    ensures i <= |s| && TrimLeft(s) == s[i..] && Blank(s[..i]) && (i < |s| ==> !IsSpace(s[i]))
  {
    if s != "" && IsSpace(s[0]) {
      i := TrimLeftIs(s[1..]);
      assert s[1..][i..] == s[i + 1..] && s[..i + 1] == [s[0]] + s[1..][..i];
      i := i + 1;
    } else {
      i := 0;
    }
  }

  lemma {:induction false} TrimRightIs(s: string) returns (j: nat)
    ensures j <= |s| && TrimRight(s) == s[..j] && Blank(s[j..]) && (j > 0 ==> !IsSpace(s[j - 1]))
  {
    if s != "" && IsSpace(s[|s| - 1]) {
      j := TrimRightIs(s[..|s| - 1]);
      assert s[..|s| - 1][..j] == s[..j] && s[j..] == s[..|s| - 1][j..] + [s[|s| - 1]];
    } else {
      j := |s|;
    }
  }

  lemma StripTrims(s: string)
    ensures Trims(s, Strip(s))
  {
    var i := TrimLeftIs(s);
    var rest := s[i..];
    var j := TrimRightIs(rest);
    assert Strip(s) == rest[..j] == s[i..i + j] && s[i + j..] == rest[j..];
    if j > 0 { assert rest[..j][0] == rest[0] == s[i] && rest[..j][j - 1] == rest[j - 1]; }
  }
}
