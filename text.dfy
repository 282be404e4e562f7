/**
 * The handful of Python string operations the handlers rely on: str.isspace on one
 * character, str.strip(), str.split(sep), str.split() and sep.join(parts).
 * Strings are sequences of Unicode code points, as Python's str is.
 */
module Text {

  /** Python's str.isspace for a single code point (the characters str.strip() and str.split() treat as whitespace). */
  predicate IsSpace(c: char)
  {
    || '\t' <= c <= '\r'
    || '\U{1C}' <= c <= '\U{1F}'
    || c == ' '
    || c == '\U{85}'
    || c == '\U{A0}'
    || c == '\U{1680}'
    || '\U{2000}' <= c <= '\U{200A}'
    || c == '\U{2028}'
    || c == '\U{2029}'
    || c == '\U{202F}'
    || c == '\U{205F}'
    || c == '\U{3000}'
  }

  /** Neither end of s is whitespace: what str.strip() leaves behind. */
  predicate IsStripped(s: string)
  {
    s == [] || (!IsSpace(s[0]) && !IsSpace(s[|s| - 1]))
  }

  /** Every character of s in positions [lo, hi) is whitespace. */
  predicate AllSpaceIn(s: string, lo: int, hi: int)
  {
    forall k :: lo <= k < hi && 0 <= k < |s| ==> IsSpace(s[k])
  }

  predicate NoSpace(s: string)
  {
    forall k :: 0 <= k < |s| ==> !IsSpace(s[k])
  }

  /** The first position at or after i that does not hold whitespace, or |s|. */
  function SkipSpace(s: string, i: nat): (j: nat)
    requires i <= |s|
    ensures i <= j <= |s|
    decreases |s| - i
  {
    if i == |s| || !IsSpace(s[i]) then i else SkipSpace(s, i + 1)
  }

  /** SkipSpace passes over whitespace only and stops at the first other character. */
  lemma {:induction false} SkipSpaceStops(s: string, i: nat)
    requires i <= |s|
    ensures AllSpaceIn(s, i, SkipSpace(s, i))
    ensures SkipSpace(s, i) < |s| ==> !IsSpace(s[SkipSpace(s, i)])
    decreases |s| - i
  {
    if i < |s| && IsSpace(s[i]) {
      SkipSpaceStops(s, i + 1);
    }
  }

  /** The end of s once trailing whitespace after position lo is dropped. */
  function TrimEnd(s: string, lo: nat, j: nat): (e: nat)
    requires lo <= j <= |s|
    ensures lo <= e <= j
    ensures AllSpaceIn(s, e, j)
    ensures e > lo ==> !IsSpace(s[e - 1])
  {
    if j == lo || !IsSpace(s[j - 1]) then j else TrimEnd(s, lo, j - 1)
  }

  /**
   * str.strip(): the infix of s left after removing leading and trailing whitespace.
   * Everything between the first and the last non-whitespace character is kept,
   * inner spaces included.
   */
  function Strip(s: string): (r: string)
    ensures IsStripped(r)
    ensures var i := SkipSpace(s, 0);
      && i + |r| <= |s|
      && r == s[i..i + |r|]
      && AllSpaceIn(s, 0, i)
      && AllSpaceIn(s, i + |r|, |s|)
    ensures r == [] <==> AllSpaceIn(s, 0, |s|)
  {
    var i := SkipSpace(s, 0);
    SkipSpaceStops(s, 0);
    var e := TrimEnd(s, i, |s|);
    assert e > i ==> !IsSpace(s[i]);
    s[i..e]
  }

  /** Python's sep.join(parts) for a one-character separator. */
  function Join(parts: seq<string>, sep: char): (r: string)
    ensures |parts| == 1 ==> r == parts[0]
  {
    if |parts| == 0 then ""
    else if |parts| == 1 then parts[0]
    else parts[0] + [sep] + Join(parts[1..], sep)
  }

  /**
   * Python's s.split(sep) for a one-character separator: the pieces between
   * separators, empty pieces included, so there is always at least one piece
   * and joining the pieces back gives s.
   */
  function SplitOn(s: string, sep: char): (r: seq<string>)
    ensures |r| >= 1
    ensures forall i :: 0 <= i < |r| ==> sep !in r[i]
    ensures Join(r, sep) == s
  {
    if s == [] then [""]
    else
      var rest := SplitOn(s[1..], sep);
      if s[0] == sep then [""] + rest
      else [[s[0]] + rest[0]] + rest[1..]
  }

  /** Splitting a piece that holds no separator gives just that piece. */
  lemma {:induction false} SplitOnWord(w: string, sep: char)
    requires sep !in w
    ensures SplitOn(w, sep) == [w]
    decreases |w|
  {
    if w != [] {
      SplitOnWord(w[1..], sep);
      assert [w[0]] + w[1..] == w;
    }
  }

  /** Splitting a piece that holds no separator, followed by a separator and more text. */
  lemma {:induction false} SplitOnPiece(w: string, rest: string, sep: char)
    requires sep !in w
    ensures SplitOn(w + [sep] + rest, sep) == [w] + SplitOn(rest, sep)
    decreases |w|
  {
    var s := w + [sep] + rest;
    if w == [] {
      assert s == [sep] + rest && s[1..] == rest;
    } else {
      assert s[1..] == w[1..] + [sep] + rest;
      SplitOnPiece(w[1..], rest, sep);
      assert [w[0]] + w[1..] == w;
    }
  }

  /** s.split(sep) undoes sep.join(parts) when no part holds the separator. */
  lemma {:induction false} SplitOnJoin(parts: seq<string>, sep: char)
    requires |parts| >= 1
    requires forall i :: 0 <= i < |parts| ==> sep !in parts[i]
    ensures SplitOn(Join(parts, sep), sep) == parts
    decreases |parts|
  {
    if |parts| == 1 {
      SplitOnWord(parts[0], sep);
    } else {
      SplitOnJoin(parts[1..], sep);
      SplitOnPiece(parts[0], Join(parts[1..], sep), sep);
      assert [parts[0]] + parts[1..] == parts;
    }
  }

  /** The end of the run of non-whitespace characters that starts at i. */
  function WordEnd(s: string, i: nat): (j: nat)
    requires i <= |s|
    ensures i <= j <= |s|
    decreases |s| - i
  {
    if i == |s| || IsSpace(s[i]) then i else WordEnd(s, i + 1)
  }

  /** WordEnd passes over non-whitespace only and stops at whitespace or the end. */
  lemma {:induction false} WordEndStops(s: string, i: nat)
    requires i <= |s|
    ensures forall k :: i <= k < WordEnd(s, i) ==> !IsSpace(s[k])
    ensures WordEnd(s, i) < |s| ==> IsSpace(s[WordEnd(s, i)])
    decreases |s| - i
  {
    if i < |s| && !IsSpace(s[i]) {
      WordEndStops(s, i + 1);
    }
  }

  /** The words of s from position i on, as Python's s[i:].split() gives them. */
  function WordsFrom(s: string, i: nat): seq<string>
    requires i <= |s|
    decreases |s| - i
  {
    var j := SkipSpace(s, i);
    if j == |s| then []
    else
      var e := WordEnd(s, j);
      [s[j..e]] + WordsFrom(s, e)
  }

  /** Every word found from position i on is non-empty and holds no whitespace. */
  lemma {:induction false} WordsFromShape(s: string, i: nat)
    requires i <= |s|
    ensures forall k :: 0 <= k < |WordsFrom(s, i)| ==> WordsFrom(s, i)[k] != [] && NoSpace(WordsFrom(s, i)[k])
    decreases |s| - i
  {
    var j := SkipSpace(s, i);
    SkipSpaceStops(s, i);
    if j < |s| {
      var e := WordEnd(s, j);
      WordEndStops(s, j);
      WordsFromShape(s, e);
      assert NoSpace(s[j..e]) by {
        forall k | 0 <= k < e - j ensures !IsSpace(s[j..e][k]) {
          assert s[j..e][k] == s[j + k];
        }
      }
    }
  }

  /**
   * Python's s.split() with no argument: the maximal runs of non-whitespace
   * characters, in order; leading, trailing and repeated whitespace yield no word.
   */
  function Words(s: string): (r: seq<string>)
    ensures forall k :: 0 <= k < |r| ==> r[k] != [] && NoSpace(r[k])
  {
    WordsFromShape(s, 0);
    WordsFrom(s, 0)
  }

  lemma {:induction false} SkipSpaceShift(a: string, b: string, i: nat)
    requires i <= |b|
    ensures SkipSpace(a + b, |a| + i) == |a| + SkipSpace(b, i)
    decreases |b| - i
  {
    if i < |b| {
      assert (a + b)[|a| + i] == b[i];
      if IsSpace(b[i]) { SkipSpaceShift(a, b, i + 1); }
    }
  }

  lemma {:induction false} WordEndShift(a: string, b: string, i: nat)
    requires i <= |b|
    ensures WordEnd(a + b, |a| + i) == |a| + WordEnd(b, i)
    decreases |b| - i
  {
    if i < |b| {
      assert (a + b)[|a| + i] == b[i];
      if !IsSpace(b[i]) { WordEndShift(a, b, i + 1); }
    }
  }

  lemma SliceOfAppend(a: string, b: string, j: nat, e: nat)
    requires j <= e <= |b|
    ensures (a + b)[|a| + j..|a| + e] == b[j..e]
  {
  }

  /** The words after a prefix a are the words of what follows it. */
  lemma {:induction false} WordsFromShift(a: string, b: string, i: nat)
    requires i <= |b|
    ensures WordsFrom(a + b, |a| + i) == WordsFrom(b, i)
    decreases |b| - i
  {
    SkipSpaceShift(a, b, i);
    var j := SkipSpace(b, i);
    if j < |b| {
      WordEndShift(a, b, j);
      var e := WordEnd(b, j);
      SliceOfAppend(a, b, j, e);
      WordsFromShift(a, b, e);
    }
  }

  /** s.split() undoes " ".join(words) when every word is non-empty and holds no whitespace. */
  lemma {:induction false} WordsOfJoin(words: seq<string>)
    requires forall k :: 0 <= k < |words| ==> words[k] != [] && NoSpace(words[k])
    ensures Words(Join(words, ' ')) == words
    decreases |words|
  {
    if |words| == 1 {
      FirstWord(words[0], "");
      assert words[0] + "" == Join(words, ' ');
      assert WordsFrom(words[0], |words[0]|) == [];
    } else if |words| > 1 {
      var w := words[0];
      var j := Join(words[1..], ' ');
      var s := Join(words, ' ');
      assert s == w + ([' '] + j);
      FirstWord(w, [' '] + j);
      SpaceThenWords(w, j);
      WordsOfJoin(words[1..]);
      assert [w] + words[1..] == words;
    }
  }

  /** The first word of a word followed by whitespace (or nothing) is that word. */
  lemma FirstWord(w: string, tail: string)
    requires w != [] && NoSpace(w)
    requires tail == [] || IsSpace(tail[0])
    ensures Words(w + tail) == [w] + WordsFrom(w + tail, |w|)
  {
    WordEndOfWord(w, tail);
  }

  /** After a word, a single space and then the text j, the remaining words are those of j. */
  lemma SpaceThenWords(w: string, j: string)
    ensures WordsFrom(w + ([' '] + j), |w|) == WordsFrom(j, 0)
  {
    var s := w + ([' '] + j);
    assert s[|w|] == ' ';
    assert SkipSpace(s, |w|) == SkipSpace(s, |w| + 1);
    assert s == (w + [' ']) + j;
    WordsFromShift(w + [' '], j, 0);
  }

  /** A word followed by whitespace (or nothing) ends where the word ends. */
  lemma {:induction false} WordEndOfWord(w: string, tail: string)
    requires NoSpace(w)
    requires tail == [] || IsSpace(tail[0])
    ensures WordEnd(w + tail, 0) == |w|
    decreases |w|
  {
    if w != [] {
      WordEndOfWord(w[1..], tail);
      WordEndShift([w[0]], w[1..] + tail, 0);
      assert [w[0]] + (w[1..] + tail) == w + tail;
      assert (w + tail)[0] == w[0];
    } else {
      assert w + tail == tail;
    }
  }

  /** A word starts at k: s[k] is not whitespace and nothing but whitespace (or the start of s) precedes it. */
  predicate WordStart(s: string, k: nat)
    requires k < |s|
  {
    !IsSpace(s[k]) && (k == 0 || IsSpace(s[k - 1]))
  }

  /** How many words start at a position in [i, |s|). */
  function CountStarts(s: string, i: nat): nat
    requires i <= |s|
    decreases |s| - i
  {
    if i == |s| then 0 else (if WordStart(s, i) then 1 else 0) + CountStarts(s, i + 1)
  }

  /** The characters of s from position i on that are not whitespace, in order. */
  function NonSpaceFrom(s: string, i: nat): string
    requires i <= |s|
    decreases |s| - i
  {
    if i == |s| then [] else (if IsSpace(s[i]) then [] else [s[i]]) + NonSpaceFrom(s, i + 1)
  }

  /** The words laid end to end. */
  function Concat(words: seq<string>): string
  {
    if words == [] then [] else words[0] + Concat(words[1..])
  }

  /** No word starts in the whitespace SkipSpace passes over, and none of it is kept. */
  lemma {:induction false} SkipSpaceDrops(s: string, i: nat)
    requires i <= |s|
    ensures CountStarts(s, i) == CountStarts(s, SkipSpace(s, i))
    ensures NonSpaceFrom(s, i) == NonSpaceFrom(s, SkipSpace(s, i))
    decreases |s| - i
  {
    if i < |s| && IsSpace(s[i]) {
      SkipSpaceDrops(s, i + 1);
    }
  }

  /** From a position that is not inside a word, SkipSpace stops at a word start (or the end). */
  lemma {:induction false} SkipSpaceFindsStart(s: string, i: nat)
    requires i <= |s| && SkipSpace(s, i) < |s|
    requires i == 0 || IsSpace(s[i - 1]) || IsSpace(s[i])
    ensures WordStart(s, SkipSpace(s, i))
    decreases |s| - i
  {
    if IsSpace(s[i]) {
      SkipSpaceFindsStart(s, i + 1);
    }
  }

  /** Inside the word that starts at j no further word starts. */
  lemma {:induction false} WordRunCount(s: string, j: nat)
    requires j < |s| && !IsSpace(s[j])
    ensures CountStarts(s, j + 1) == CountStarts(s, WordEnd(s, j))
    decreases |s| - j
  {
    if j + 1 < |s| && !IsSpace(s[j + 1]) {
      assert !WordStart(s, j + 1);
      WordRunCount(s, j + 1);
    }
  }

  lemma SliceCons(s: string, j: nat, e: nat)
    requires j < e <= |s|
    ensures s[j..e] == [s[j]] + s[j + 1..e]
  {
  }

  /** Every character of the word found at j is kept. */
  lemma {:induction false} WordRunChars(s: string, j: nat)
    requires j <= |s|
    ensures NonSpaceFrom(s, j) == s[j..WordEnd(s, j)] + NonSpaceFrom(s, WordEnd(s, j))
    decreases |s| - j
  {
    if j < |s| && !IsSpace(s[j]) {
      var e := WordEnd(s, j);
      WordRunChars(s, j + 1);
      SliceCons(s, j, e);
      calc {
        NonSpaceFrom(s, j);
        [s[j]] + NonSpaceFrom(s, j + 1);
        [s[j]] + (s[j + 1..e] + NonSpaceFrom(s, e));
        s[j..e] + NonSpaceFrom(s, e);
      }
    }
  }

  /** From a position that is not inside a word, the next word start is counted once and no other before that word ends. */
  lemma CountThroughWord(s: string, i: nat)
    requires i <= |s| && SkipSpace(s, i) < |s|
    requires i == 0 || IsSpace(s[i - 1]) || IsSpace(s[i])
    ensures CountStarts(s, i) == 1 + CountStarts(s, WordEnd(s, SkipSpace(s, i)))
  {
    var j := SkipSpace(s, i);
    SkipSpaceDrops(s, i);
    SkipSpaceFindsStart(s, i);
    assert CountStarts(s, j) == 1 + CountStarts(s, j + 1);
    WordRunCount(s, j);
  }

  /**
   * From a position that is not inside a word, s.split() yields one word per
   * word start: the number of words is the number of word starts.
   */
  lemma {:induction false} WordsFromCount(s: string, i: nat)
    requires i <= |s|
    requires i == 0 || i == |s| || IsSpace(s[i - 1]) || IsSpace(s[i])
    ensures |WordsFrom(s, i)| == CountStarts(s, i)
    decreases |s| - i
  {
    var j := SkipSpace(s, i);
    if j < |s| {
      var e := WordEnd(s, j);
      CountThroughWord(s, i);
      WordEndStops(s, j);
      WordsFromCount(s, e);
      assert WordsFrom(s, i) == [s[j..e]] + WordsFrom(s, e);
    } else {
      SkipSpaceDrops(s, i);
    }
  }

  /** Laid end to end, the words from position i are the non-whitespace characters from there on. */
  lemma {:induction false} WordsFromConcat(s: string, i: nat)
    requires i <= |s|
    ensures Concat(WordsFrom(s, i)) == NonSpaceFrom(s, i)
    decreases |s| - i
  {
    var j := SkipSpace(s, i);
    SkipSpaceDrops(s, i);
    if j < |s| {
      var e := WordEnd(s, j);
      WordRunChars(s, j);
      WordsFromConcat(s, e);
      var ws := WordsFrom(s, i);
      assert ws[0] == s[j..e] && ws[1..] == WordsFrom(s, e);
    }
  }

  /**
   * What s.split() gives for any s: one word per maximal run of non-whitespace
   * characters (as many words as word starts), and together the words hold
   * exactly the non-whitespace characters of s, in order.
   */
  lemma WordsMeaning(s: string)
    ensures |Words(s)| == CountStarts(s, 0)
    ensures Concat(Words(s)) == NonSpaceFrom(s, 0)
  {
    WordsFromCount(s, 0);
    WordsFromConcat(s, 0);
  }
}
