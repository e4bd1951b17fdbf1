/**
 * Text and answer helpers (utils.py): whitespace normalisation of scraped
 * text, and the y/n answer reader used by the interactive prompts.
 */
module TextUtils {
  import opened Wrappers

  /**
   * The characters Python's str.split() with no argument treats as
   * whitespace (those for which str.isspace() holds).
   */
  predicate IsSpace(c: char) {
    || c == ' '
    || '\t' <= c <= '\r'
    || '\U{1c}' <= c <= '\U{1f}'
    || c == '\U{85}' || c == '\U{a0}' || c == '\U{1680}'
    || '\U{2000}' <= c <= '\U{200a}'
    || c == '\U{2028}' || c == '\U{2029}' || c == '\U{202f}' || c == '\U{205f}'
    || c == '\U{3000}'
  }

  /** A token of str.split(): non-empty and free of whitespace. */
  predicate IsWord(w: string) {
    w != [] && forall i :: 0 <= i < |w| ==> !IsSpace(w[i])
  }

  predicate AllWords(ws: seq<string>) {
    forall k :: 0 <= k < |ws| ==> IsWord(ws[k])
  }

  predicate AllSpace(s: string) {
    forall i :: 0 <= i < |s| ==> IsSpace(s[i])
  }

  /** s with its leading whitespace removed. */
  function TrimStart(s: string): (r: string)
    ensures |r| <= |s|
    ensures r == [] || !IsSpace(r[0])
  {
    if s != [] && IsSpace(s[0]) then TrimStart(s[1..]) else s
  }

  /** Length of the run of non-whitespace characters that starts s. */
  function WordLength(s: string): (n: nat)
    ensures n <= |s|
    ensures forall i :: 0 <= i < n ==> !IsSpace(s[i])
    ensures n == |s| || IsSpace(s[n])
  {
    if s != [] && !IsSpace(s[0]) then 1 + WordLength(s[1..]) else 0
  }

  /** Python's s.split(): the maximal runs of non-whitespace characters, in order. */
  function Split(s: string): (ws: seq<string>)
    ensures AllWords(ws)
    decreases |s|
  {
    var t := TrimStart(s);
    if t == [] then []
    else
      var n := WordLength(t);
      [t[..n]] + Split(t[n..])
  }

  /** Python's " ".join(ws). */
  function JoinWords(ws: seq<string>): string {
    if ws == [] then ""
    else if |ws| == 1 then ws[0]
    else ws[0] + " " + JoinWords(ws[1..])
  }

  /** normalize_text: " ".join(text.split()). */
  function NormalizeText(text: string): string {
    JoinWords(Split(text))
  }

  /**
   * What normalize_text promises of its output: the only whitespace is the
   * plain space, never at either end and never two in a row.
   */
  predicate IsNormalized(t: string) {
    && (forall i :: 0 <= i < |t| && IsSpace(t[i]) ==> t[i] == ' ')
    && (t != [] ==> !IsSpace(t[0]) && !IsSpace(t[|t| - 1]))
    && (forall i :: 0 <= i < |t| - 1 ==> !(IsSpace(t[i]) && IsSpace(t[i + 1])))
  }

  lemma {:induction false} WordLengthOfWord(w: string, rest: string)
    requires IsWord(w)
    requires rest == [] || IsSpace(rest[0])
    ensures WordLength(w + rest) == |w|
    decreases |w|
  {
    if |w| > 1 {
      assert (w + rest)[1..] == w[1..] + rest;
      WordLengthOfWord(w[1..], rest);
    } else {
      assert (w + rest)[1..] == rest;
    }
  }

  /** A word followed by whitespace or the end is split off as one token. */
  lemma SplitWordThen(w: string, rest: string)
    requires IsWord(w)
    requires rest == [] || IsSpace(rest[0])
    ensures Split(w + rest) == [w] + Split(rest)
  {
    var s := w + rest;
    assert TrimStart(s) == s;
    WordLengthOfWord(w, rest);
    assert s[..|w|] == w;
    assert s[|w|..] == rest;
  }

  /** The first character of a join is that of its first word, the last that of its last word. */
  lemma {:induction false} JoinWordsEnds(ws: seq<string>)
    requires AllWords(ws) && ws != []
    ensures var t := JoinWords(ws); |t| >= 1 && t[0] == ws[0][0] && t[|t| - 1] == ws[|ws| - 1][|ws[|ws| - 1]| - 1]
  {
    assert IsWord(ws[0]);
    if |ws| > 1 {
      var tail := ws[1..];
      assert AllWords(tail) by {
        forall k | 0 <= k < |tail| ensures IsWord(tail[k]) {
          assert tail[k] == ws[k + 1];
        }
      }
      JoinWordsEnds(tail);
      var rest := JoinWords(tail);
      var t := ws[0] + " " + rest;
      assert JoinWords(ws) == t;
      assert t[0] == ws[0][0];
      assert t[|t| - 1] == rest[|rest| - 1];
      assert tail[|tail| - 1] == ws[|ws| - 1];
    }
  }

  lemma SplitWord(w: string)
    requires IsWord(w)
    ensures Split(w) == [w]
  {
    SplitWordThen(w, []);
    assert w + [] == w;
  }

  /** Leading whitespace does not change the words. */
  lemma SplitAfterSpace(c: char, s: string)
    requires IsSpace(c)
    ensures Split([c] + s) == Split(s)
  {
    assert ([c] + s)[1..] == s;
    assert TrimStart([c] + s) == TrimStart(s);
  }

  /** Splitting a join of words gives the words back. */
  lemma {:induction false} SplitJoinWords(ws: seq<string>)
    requires AllWords(ws)
    ensures Split(JoinWords(ws)) == ws
  {
    if ws == [] {
    } else if |ws| == 1 {
      SplitWord(ws[0]);
      assert JoinWords(ws) == ws[0];
      assert ws == [ws[0]];
    } else {
      var w, tail := ws[0], JoinWords(ws[1..]);
      assert IsWord(w);
      assert AllWords(ws[1..]);
      var rest := [' '] + tail;
      calc {
        Split(JoinWords(ws));
        { assert JoinWords(ws) == w + rest; }
        Split(w + rest);
        { SplitWordThen(w, rest); }
        [w] + Split(rest);
        { SplitAfterSpace(' ', tail); }
        [w] + Split(tail);
        { SplitJoinWords(ws[1..]); }
        [w] + ws[1..];
      }
    }
  }

  /** A join of words is normalized. */
  lemma {:induction false} JoinWordsNormalized(ws: seq<string>)
    requires AllWords(ws)
    ensures IsNormalized(JoinWords(ws))
  {
    if |ws| > 1 {
      JoinWordsNormalized(ws[1..]);
      JoinWordsEnds(ws[1..]);
      var w, tail := ws[0], JoinWords(ws[1..]);
      var t := JoinWords(ws);
      assert t == w + [' '] + tail;
      forall i | 0 <= i < |t| && IsSpace(t[i])
        ensures t[i] == ' '
      {
        if i > |w| { assert t[i] == tail[i - |w| - 1]; }
      }
      forall i | 0 <= i < |t| - 1
        ensures !(IsSpace(t[i]) && IsSpace(t[i + 1]))
      {
        if i > |w| { assert t[i] == tail[i - |w| - 1] && t[i + 1] == tail[i - |w|]; }
      }
    }
  }

  lemma {:induction false} TrimStartEmpty(s: string)
    ensures TrimStart(s) == [] <==> AllSpace(s)
  {
    if s != [] {
      TrimStartEmpty(s[1..]);
      if IsSpace(s[0]) && AllSpace(s[1..]) {
        forall i | 0 <= i < |s| ensures IsSpace(s[i]) {
          if i > 0 { assert s[i] == s[1..][i - 1]; }
        }
      }
    }
  }

  /** The words of an all-whitespace string: none, and conversely. */
  lemma SplitEmptyIffAllSpace(s: string)
    ensures Split(s) == [] <==> AllSpace(s)
  {
    TrimStartEmpty(s);
  }

  lemma JoinWordsEmpty(ws: seq<string>)
    requires AllWords(ws)
    ensures JoinWords(ws) == [] <==> ws == []
  {
    if ws != [] { JoinWordsEnds(ws); }
  }

  // ---- the characters split keeps -------------------------------------------

  /** The words of a list run together. */
  function Concat(ws: seq<string>): string {
    if ws == [] then [] else ws[0] + Concat(ws[1..])
  }

  /** s with every whitespace character removed. */
  function DropSpaces(s: string): string {
    if s == [] then [] else (if IsSpace(s[0]) then [] else [s[0]]) + DropSpaces(s[1..])
  }

  lemma {:induction false} DropSpacesAppend(a: string, b: string)
    ensures DropSpaces(a + b) == DropSpaces(a) + DropSpaces(b)
    decreases |a|
  {
    if a == [] {
      assert a + b == b;
    } else {
      assert (a + b)[0] == a[0] && (a + b)[1..] == a[1..] + b;
      DropSpacesAppend(a[1..], b);
    }
  }

  lemma {:induction false} DropSpacesOfWord(w: string)
    requires forall i :: 0 <= i < |w| ==> !IsSpace(w[i])
    ensures DropSpaces(w) == w
    decreases |w|
  {
    if w != [] {
      DropSpacesOfWord(w[1..]);
      assert w == [w[0]] + w[1..];
    }
  }

  lemma {:induction false} DropSpacesTrim(s: string)
    ensures DropSpaces(TrimStart(s)) == DropSpaces(s)
    decreases |s|
  {
    if s != [] && IsSpace(s[0]) {
      DropSpacesTrim(s[1..]);
    }
  }

  /** str.split() loses only whitespace: its words run together are s with its whitespace removed. */
  lemma {:induction false} SplitKeepsText(s: string)
    ensures Concat(Split(s)) == DropSpaces(s)
    decreases |s|
  {
    var t := TrimStart(s);
    DropSpacesTrim(s);
    if t != [] {
      var n := WordLength(t);
      var w := t[..n];
      assert t == w + t[n..];
      DropSpacesAppend(w, t[n..]);
      DropSpacesOfWord(w);
      SplitKeepsText(t[n..]);
      var ws := Split(s);
      assert ws[0] == w && ws[1..] == Split(t[n..]);
    }
  }

  /** A single-space join of words, with its spaces removed, is the words run together. */
  lemma {:induction false} JoinWordsKeepsText(ws: seq<string>)
    requires AllWords(ws)
    ensures DropSpaces(JoinWords(ws)) == Concat(ws)
    decreases |ws|
  {
    if ws != [] {
      var w := ws[0];
      var tail := ws[1..];
      assert IsWord(w);
      DropSpacesOfWord(w);
      assert Concat(ws) == w + Concat(tail);
      if tail == [] {
        assert w + [] == w;
      } else {
        assert AllWords(tail) by {
          forall k | 0 <= k < |tail| ensures IsWord(tail[k]) {
            assert tail[k] == ws[k + 1];
          }
        }
        JoinWordsKeepsText(tail);
        var rest := JoinWords(tail);
        assert JoinWords(ws) == (w + " ") + rest;
        DropSpacesAppend(w + " ", rest);
        DropSpacesSpace();
        DropSpacesAppend(w, " ");
        assert DropSpaces(w + " ") == w;
      }
    }
  }

  lemma DropSpacesSpace()
    ensures DropSpaces(" ") == []
  {
    assert " "[1..] == [];
  }

  // ---- normalize_text -------------------------------------------------------

  /** normalize_text changes only whitespace: every other character is kept, in order. */
  lemma NormalizeTextKeepsText(text: string)
    ensures DropSpaces(NormalizeText(text)) == DropSpaces(text)
  {
    SplitKeepsText(text);
    JoinWordsKeepsText(Split(text));
  }

  /** The output carries no whitespace but single inner spaces. */
  lemma NormalizeTextIsNormalized(text: string)
    ensures IsNormalized(NormalizeText(text))
  {
    JoinWordsNormalized(Split(text));
  }

  /** Normalizing keeps the sequence of words. */
  lemma NormalizeTextKeepsWords(text: string)
    ensures Split(NormalizeText(text)) == Split(text)
  {
    SplitJoinWords(Split(text));
  }

  /** Normalizing twice is normalizing once. */
  lemma NormalizeTextIdempotent(text: string)
    ensures NormalizeText(NormalizeText(text)) == NormalizeText(text)
  {
    NormalizeTextKeepsWords(text);
  }

  /** Exactly the empty and the all-whitespace texts normalize to "". */
  lemma NormalizeTextEmpty(text: string)
    ensures NormalizeText(text) == "" <==> AllSpace(text)
  {
    JoinWordsEmpty(Split(text));
    SplitEmptyIffAllSpace(text);
  }

  // ---- get_bool_from_str_input ----------------------------------------------

  datatype AnswerError = InvalidBooleanInput

  const Affirmative: seq<string> := ["YES", "Yes", "Y", "y"]
  const Negative: seq<string> := ["NO", "No", "N", "n"]

  /** The y/n reader: four spellings mean yes, four mean no, the rest raise ValueError. */
  function GetBoolFromStrInput(input: string): (r: Result<bool, AnswerError>)
    ensures r == Success(true) <==> input in {"YES", "Yes", "Y", "y"}
    ensures r == Success(false) <==> input in {"NO", "No", "N", "n"}
    ensures r.Failure? <==> input !in Affirmative + Negative
  {
    if input in Affirmative then Success(true)
    else if input in Negative then Success(false)
    else Failure(InvalidBooleanInput)
  }

  /**
   * Every accepted answer is decided by its first letter, yet the reader is
   * neither a prefix nor a case-insensitive match: "yes", "" and "N " fail.
   */
  lemma AcceptedAnswerFollowsInitial(input: string)
    requires GetBoolFromStrInput(input).Success?
    ensures 1 <= |input| <= 3
    ensures GetBoolFromStrInput(input).value <==> input[0] in "Yy"
    ensures !GetBoolFromStrInput(input).value <==> input[0] in "Nn"
  {
  }

  lemma RejectedAnswers()
    ensures GetBoolFromStrInput("yes").Failure?
    ensures GetBoolFromStrInput("").Failure?
    ensures GetBoolFromStrInput("N ").Failure?
    ensures GetBoolFromStrInput("no").Failure?
  {
  }
}
