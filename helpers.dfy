/** backend/app/utils/helpers.py: `preprocess_text`, the text normalisation. */
module Helpers {
  import opened Strings

  /** `preprocess_text`: strip, then `' '.join(text.split())`. */
  function PreprocessText(text: string): string {
    var t := Strip(text);
    Join(" ", Words(t))
  }

  /**
   * A normalised text: no whitespace at either end, no whitespace other than
   * `' '`, and never two whitespace characters next to each other.
   */
  predicate Normalized(r: string) {
    && IsStripped(r)
    && (forall i :: 0 <= i < |r| && IsSpace(r[i]) ==> r[i] == ' ')
    && (forall i, j :: 0 <= i < |r| && j == i + 1 && j < |r| ==> !(IsSpace(r[i]) && IsSpace(r[j])))
  }

  /** Words joined by single spaces form a normalised text. */
  lemma {:induction false} JoinWordsNormalized(ws: seq<string>)
    requires forall i :: 0 <= i < |ws| ==> IsWord(ws[i])
    ensures Normalized(Join(" ", ws))
    ensures Join(" ", ws) == [] <==> ws == []
  {
    if |ws| == 1 {
      assert ws[0] != [];
    } else if |ws| > 1 {
      var w, t := ws[0], Join(" ", ws[1..]);
      JoinWordsNormalized(ws[1..]);
      var r := w + " " + t;
      assert t != [] && !IsSpace(t[0]);
      forall i | 0 <= i < |r|
        ensures r[i] == if i < |w| then w[i] else if i == |w| then ' ' else t[i - |w| - 1]
      {
      }
      forall i | 0 <= i < |r| && IsSpace(r[i]) ensures r[i] == ' ' {
        if i > |w| {
          assert r[i] == t[i - |w| - 1];
        }
      }
      forall i, j | 0 <= i < j < |r| && j == i + 1 ensures !(IsSpace(r[i]) && IsSpace(r[j])) {
        if i > |w| {
          assert r[i] == t[i - |w| - 1] && r[j] == t[j - |w| - 1];
        }
      }
    }
  }

  /** The result of `preprocess_text` is normalised. */
  lemma PreprocessNormalized(text: string)
    ensures Normalized(PreprocessText(text))
  {
    JoinWordsNormalized(Words(Strip(text)));
  }

  /** The strip at helpers.py:33 is redundant: `preprocess_text(s) == ' '.join(s.split())`. */
  lemma StripRedundant(text: string)
    ensures PreprocessText(text) == Join(" ", Words(text))
  {
    WordsStrip(text);
  }

  /** A whitespace-only or empty input, and only such an input, maps to `""`. */
  lemma PreprocessEmptyIff(text: string)
    ensures PreprocessText(text) == [] <==> AllSpace(text)
  {
    StripRedundant(text);
    JoinWordsNormalized(Words(text));
    WordsEmptyIff(text);
  }

  /** Non-whitespace characters are kept, in order, and no others are added. */
  lemma PreprocessKeepsNonSpace(text: string)
    ensures NonSpace(PreprocessText(text)) == NonSpace(text)
  {
    StripRedundant(text);
    NonSpaceOfJoin(Words(text));
    NonSpaceWords(text);
  }

  /** A suffix of a normalised text that starts at a non-whitespace character is normalised. */
  lemma NormalizedSuffix(t: string, k: nat)
    requires Normalized(t) && k < |t| && !IsSpace(t[k])
    ensures Normalized(t[k..])
  {
    var rest := t[k..];
    forall i, j | 0 <= i < j < |rest| && j == i + 1 ensures !(IsSpace(rest[i]) && IsSpace(rest[j])) {
      assert rest[i] == t[k + i] && rest[j] == t[k + j];
    }
  }

  /** Splitting a text whose first word is followed by one whitespace character. */
  lemma WordsAfterFirst(t: string)
    requires t != [] && !IsSpace(t[0]) && WordLen(t) < |t|
    ensures Words(t) == [t[..WordLen(t)]] + Words(t[WordLen(t) + 1..])
  {
    var n := WordLen(t);
    assert t[n..][1..] == t[n + 1..];
  }

  /** In a normalised text the first word is the whole text or is followed by exactly one `' '`. */
  lemma FirstWordOfNormalized(t: string)
    requires Normalized(t) && t != []
    ensures WordLen(t) == |t| ==> Words(t) == [t]
    ensures WordLen(t) < |t| ==>
      t[WordLen(t)] == ' ' && WordLen(t) + 1 < |t| && !IsSpace(t[WordLen(t) + 1])
  {
    var n := WordLen(t);
    if n == |t| {
      assert t[..n] == t;
    } else {
      assert t[n] == ' ' && n + 1 < |t|;
      assert !IsSpace(t[n + 1]);
    }
  }

  lemma Reassemble(t: string, n: nat)
    requires n < |t| && t[n] == ' '
    ensures t == t[..n] + " " + t[n + 1..]
  {
  }

  /** A normalised text is the single-space join of its own words. */
  lemma {:induction false} NormalizedIsJoinOfWords(t: string)
    requires Normalized(t)
    ensures Join(" ", Words(t)) == t
    decreases |t|
  {
    if t != [] {
      FirstWordOfNormalized(t);
      var n := WordLen(t);
      if n < |t| {
        var rest := t[n + 1..];
        NormalizedSuffix(t, n + 1);
        NormalizedIsJoinOfWords(rest);
        WordsEmptyIff(rest);
        WordsAfterFirst(t);
        JoinCons(t[..n], Words(rest));
        Reassemble(t, n);
      }
    }
  }

  lemma JoinCons(w: string, ws: seq<string>)
    requires ws != []
    ensures Join(" ", [w] + ws) == w + " " + Join(" ", ws)
  {
    assert ([w] + ws)[1..] == ws;
  }

  /** `preprocess_text` leaves a normalised text as it is. */
  lemma NormalizedFixpoint(t: string)
    requires Normalized(t)
    ensures PreprocessText(t) == t
  {
    StripOfStripped(t);
    NormalizedIsJoinOfWords(t);
  }

  /** `preprocess_text(preprocess_text(s)) == preprocess_text(s)` */
  lemma PreprocessIdempotent(text: string)
    ensures PreprocessText(PreprocessText(text)) == PreprocessText(text)
  {
    PreprocessNormalized(text);
    NormalizedFixpoint(PreprocessText(text));
  }

  /** The words of the input are exactly the words of the output. */
  lemma PreprocessKeepsWords(text: string)
    ensures Words(PreprocessText(text)) == Words(text)
  {
    WordsStrip(text);
    WordsOfJoin(Words(Strip(text)));
  }
}
