/** Qt's notion of white space and QString::simplified(), which the group
    loader applies to titles and widget names. */
module Whitespace {

  /** QChar::isSpace: the ASCII controls 9..13, the space, U+0085, U+00A0 and
      the Unicode separator characters (categories Zs, Zl and Zp). */
  predicate IsSpace(c: char) {
    || c == ' ' || ('\t' <= c <= '\r')
    || c == '\U{0085}' || c == '\U{00A0}' || c == '\U{1680}'
    || ('\U{2000}' <= c <= '\U{200A}')
    || c == '\U{2028}' || c == '\U{2029}' || c == '\U{202F}' || c == '\U{205F}'
    || c == '\U{3000}'
  }

  /** A word: a non-empty run of characters none of which is white space. */
  predicate IsWord(w: string) {
    |w| > 0 && forall k :: 0 <= k < |w| ==> !IsSpace(w[k])
  }

  /** The length of the run of non-space characters that starts the string. */
  function LeadingRun(s: string): (n: nat)
    ensures n <= |s|
    ensures forall k :: 0 <= k < n ==> !IsSpace(s[k])
    ensures n < |s| ==> IsSpace(s[n])
  {
    if s == [] || IsSpace(s[0]) then 0 else 1 + LeadingRun(s[1..])
  }

  /** The words of a string, in order: the maximal runs of non-space characters. */
  function Words(s: string): (ws: seq<string>)
    ensures forall k :: 0 <= k < |ws| ==> IsWord(ws[k])
    decreases |s|
  {
    if s == [] then []
    else if IsSpace(s[0]) then Words(s[1..])
    else
      var n := LeadingRun(s);
      [s[..n]] + Words(s[n..])
  }

  /** The words joined by single spaces. */
  function Join(ws: seq<string>): string {
    if |ws| == 0 then ""
    else if |ws| == 1 then ws[0]
    else ws[0] + " " + Join(ws[1..])
  }

  /** QString::simplified(): white space removed from both ends and every
      inner run of white space replaced by one space. */
  function Simplified(s: string): string {
    Join(Words(s))
  }

  /** The shape of a simplified string: the only white space is a single ' '
      strictly inside the string, followed by a character that is not white space. */
  predicate IsSimplified(t: string) {
    forall k :: 0 <= k < |t| && IsSpace(t[k]) ==>
      t[k] == ' ' && 0 < k < |t| - 1 && !IsSpace(t[k + 1])
  }

  lemma {:induction false} LeadingRunOfWord(w: string, t: string)
    requires IsWord(w)
    requires t == [] || IsSpace(t[0])
    ensures LeadingRun(w + t) == |w|
  {
    if |w| > 1 {
      assert (w + t)[1..] == w[1..] + t;
      LeadingRunOfWord(w[1..], t);
    } else {
      assert (w + t)[1..] == t;
    }
  }

  /** Splitting words that were joined gives the words back. */
  lemma {:induction false} WordsOfJoin(ws: seq<string>)
    requires forall k :: 0 <= k < |ws| ==> IsWord(ws[k])
    ensures Words(Join(ws)) == ws
  {
    if |ws| == 1 {
      var w := ws[0];
      LeadingRunOfWord(w, []);
      assert w + [] == w;
      assert w[..|w|] == w && w[|w|..] == [];
    } else if |ws| > 1 {
      var w, rest := ws[0], Join(ws[1..]);
      var s := w + " " + rest;
      assert s == w + (" " + rest);
      LeadingRunOfWord(w, " " + rest);
      assert s[..|w|] == w;
      assert s[|w|..] == " " + rest;
      assert (" " + rest)[1..] == rest;
      WordsOfJoin(ws[1..]);
    }
  }

  lemma {:induction false} JoinEmpty(ws: seq<string>)
    requires forall k :: 0 <= k < |ws| ==> IsWord(ws[k])
    ensures Join(ws) == [] <==> ws == []
  {
    if |ws| > 1 {
      assert |Join(ws)| >= |ws[0]|;
    }
  }

  lemma {:induction false} JoinShape(ws: seq<string>)
    requires forall k :: 0 <= k < |ws| ==> IsWord(ws[k])
    ensures IsSimplified(Join(ws))
  {
    if |ws| > 1 {
      var w, rest := ws[0], Join(ws[1..]);
      JoinShape(ws[1..]);
      JoinEmpty(ws[1..]);
      var t := w + " " + rest;
      assert |rest| > 0 && !IsSpace(rest[0]) by {
        assert IsSimplified(rest);
      }
      forall k | 0 <= k < |t| && IsSpace(t[k])
        ensures t[k] == ' ' && 0 < k < |t| - 1 && !IsSpace(t[k + 1])
      {
        if k == |w| {
          assert t[k + 1] == rest[0];
        } else if k > |w| {
          assert t[k] == rest[k - |w| - 1];
          assert k + 1 < |t| ==> t[k + 1] == rest[k - |w|];
        }
      }
    }
  }

  /** A string has no words exactly when it is all white space. */
  lemma {:induction false} WordsEmpty(s: string)
    ensures Words(s) == [] <==> forall k :: 0 <= k < |s| ==> IsSpace(s[k])
  {
    if s != [] && IsSpace(s[0]) {
      WordsEmpty(s[1..]);
      assert forall k :: 1 <= k < |s| ==> s[k] == s[1..][k - 1];
    }
  }

  /** What simplified() promises: the result has the simplified shape and
      the same words as the input, in the same order. */
  lemma SimplifiedMeaning(s: string)
    ensures IsSimplified(Simplified(s))
    ensures Words(Simplified(s)) == Words(s)
  {
    JoinShape(Words(s));
    WordsOfJoin(Words(s));
  }

  /** Simplifying twice is simplifying once. */
  lemma SimplifiedIdempotent(s: string)
    ensures Simplified(Simplified(s)) == Simplified(s)
  {
    WordsOfJoin(Words(s));
  }

  /** The simplified string is empty exactly when the input is all white space. */
  lemma SimplifiedEmpty(s: string)
    ensures Simplified(s) == "" <==> forall k :: 0 <= k < |s| ==> IsSpace(s[k])
  {
    JoinEmpty(Words(s));
    WordsEmpty(s);
  }
}
