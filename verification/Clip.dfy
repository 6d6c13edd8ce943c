/** Compact summaries: whitespace is normalised, then the text is cut to a limit with an ellipsis. */
module Clip {
  import opened Common

  const ELLIPSIS: char := '\U{2026}'

  function SkipSpaces(s: string): (r: string)
    ensures |r| <= |s| && (r != "" ==> !IsSpace(r[0]))
  {
    if s != "" && IsSpace(s[0]) then SkipSpaces(s[1..]) else s
  }

  /** Length of the word that `s` starts with. */
  function WordLength(s: string): (n: nat)
    ensures n <= |s| && (forall i | 0 <= i < n :: !IsSpace(s[i])) && (n < |s| ==> IsSpace(s[n]))
  {
    if s == "" || IsSpace(s[0]) then 0 else 1 + WordLength(s[1..])
  }

  /** `text.split()` */
  function Split(s: string): (words: seq<string>)
    ensures forall w | w in words :: IsWord(w)
    decreases |s|
  {
    var t := SkipSpaces(s);
    if t == "" then [] else
      var n := WordLength(t);
      [t[..n]] + Split(t[n..])
  }

  /** `" ".join(words)` */
  function Join(words: seq<string>): string {
    if words == [] then ""
    else if |words| == 1 then words[0]
    else words[0] + " " + Join(words[1..])
  }

  function ClipTo(text: string, limit: nat): string
    requires limit >= 1
  {
    var t := Join(Split(text));
    if |t| <= limit then t else t[..limit - 1] + [ELLIPSIS]
  }

  // ---- Normal form -------------------------------------------------------------------------------

  predicate IsWord(w: string) {
    w != "" && forall i | 0 <= i < |w| :: !IsSpace(w[i])
  }

  /** Single blanks between words, none at either end. */
  predicate Normal(t: string) {
    && (t != "" ==> !IsSpace(t[0]) && !IsSpace(t[|t| - 1]))
    && forall i | 0 <= i < |t| && IsSpace(t[i]) :: t[i] == ' ' && (i + 1 < |t| ==> !IsSpace(t[i + 1]))
  }

  lemma {:induction false} JoinIsNormal(words: seq<string>)
    requires forall w | w in words :: IsWord(w)
    ensures Normal(Join(words)) && (words != [] ==> Join(words) != "")
  {
    if |words| >= 1 {
      assert words[0] in words && IsWord(words[0]);
    }
    if |words| >= 2 {
      assert forall w | w in words[1..] :: w in words;
      JoinIsNormal(words[1..]);
      var a, b := words[0], Join(words[1..]);
      var t := a + " " + b;
      assert t[|t| - 1] == b[|b| - 1];
      assert forall i | 0 <= i < |t| :: t[i] == if i < |a| then a[i] else if i == |a| then ' ' else b[i - |a| - 1];
    }
  }

  lemma {:induction false} WordLengthOf(w: string, rest: string)
    requires forall i | 0 <= i < |w| :: !IsSpace(w[i])
    requires rest != "" ==> IsSpace(rest[0])
    ensures WordLength(w + rest) == |w|
  {
    if w == "" {
      assert w + rest == rest;
    } else {
      WordLengthOf(w[1..], rest);
      assert (w + rest)[1..] == w[1..] + rest && (w + rest)[0] == w[0];
    }
  }

  /** A text that starts with a word splits into that word and the rest. */
  lemma SplitWord(w: string, rest: string)
    requires IsWord(w) && (rest != "" ==> IsSpace(rest[0]))
    ensures Split(w + rest) == [w] + Split(rest)
  {
    var t := w + rest;
    assert t[0] == w[0] && SkipSpaces(t) == t;
    WordLengthOf(w, rest);
    assert t[..|w|] == w && t[|w|..] == rest;
  }

  lemma SplitBlank(w: string, s: string)
    requires IsWord(w)
    ensures Split(w + " " + s) == [w] + Split(s)
  {
    var rest := " " + s;
    BlankFirst(s);
    SplitWord(w, rest);
    assert w + " " + s == w + rest;
  }

  lemma BlankFirst(s: string)
    ensures Split(" " + s) == Split(s)
  {
    var t := " " + s;
    assert t[0] == ' ' && t[1..] == s;
    assert SkipSpaces(t) == SkipSpaces(s);
  }

  /** Any run of whitespace separates: splitting around it is splitting both sides. */
  lemma {:induction false} SplitAtSpaces(a: string, gap: string, b: string, whole: string)
    requires gap != "" && Blank(gap) && whole == a + gap + b
    ensures Split(whole) == Split(a) + Split(b)
    decreases |a|
  {
    if a == "" {
      GapFirst(gap, b, whole);
      assert Split(a) == [];
    } else if IsSpace(a[0]) {
      SplitAtSpaces(a[1..], gap, b, whole[1..]);
      SpaceAtSpaces(a, whole[1..], whole);
    } else {
      var w, rest := FirstWord(a);
      var n := |w|;
      SplitAtSpaces(rest, gap, b, whole[n..]);
      BlankFirstChar(gap);
      TailAtSpaces(w, rest, gap, b, whole, whole[n..]);
      WordAtSpaces(w, rest, whole[n..], a, whole, Split(b));
    }
  }

  lemma FirstWord(a: string) returns (w: string, rest: string)
    requires a != "" && !IsSpace(a[0])
    ensures a == w + rest && IsWord(w) && (rest != "" ==> IsSpace(rest[0]))
  {
    var n := WordLength(a);
    w, rest := a[..n], a[n..];
    assert a[0] == w[0];
  }

  lemma TailAtSpaces(w: string, rest: string, gap: string, b: string, whole: string, tail: string)
    requires gap != "" && IsSpace(gap[0]) && (rest != "" ==> IsSpace(rest[0]))
    requires whole == w + rest + gap + b && tail == whole[|w|..]
    ensures whole == w + tail && tail == rest + gap + b && IsSpace(tail[0])
  {
    assert (rest + gap + b)[0] == if rest == "" then gap[0] else rest[0];
  }

  /** One space in front of a text, and of a longer one. */
  lemma SpaceAtSpaces(a: string, tail: string, whole: string)
    requires a != "" && IsSpace(a[0]) && whole == [a[0]] + tail
    ensures Split(a) == Split(a[1..]) && Split(whole) == Split(tail)
  {
    SpaceFirst(a);
    assert whole[1..] == tail;
    SpaceFirst(whole);
  }

  /** One word in front of `rest`, and of a longer text `tail` that splits into `more` words than it. */
  lemma WordAtSpaces(w: string, rest: string, tail: string, a: string, whole: string, more: seq<string>)
    requires IsWord(w) && (rest != "" ==> IsSpace(rest[0])) && tail != "" && IsSpace(tail[0])
    requires a == w + rest && whole == w + tail && Split(tail) == Split(rest) + more
    ensures Split(whole) == Split(a) + more
  {
    SplitWord(w, rest);
    SplitWord(w, tail);
    WordsRegroup(w, Split(rest), more, Split(tail), Split(whole), Split(a));
  }

  lemma WordsRegroup(
    w: string, words: seq<string>, more: seq<string>, all: seq<string>, longer: seq<string>, shorter: seq<string>)
    requires all == words + more && longer == [w] + all && shorter == [w] + words
    ensures longer == shorter + more
  {
  }

  lemma BlankFirstChar(gap: string)
    requires gap != "" && Blank(gap)
    ensures IsSpace(gap[0]) && Blank(gap[1..])
  {
  }

  lemma SpaceFirst(s: string)
    requires s != "" && IsSpace(s[0])
    ensures Split(s) == Split(s[1..])
  {
    assert SkipSpaces(s) == SkipSpaces(s[1..]);
  }

  lemma {:induction false} GapFirst(gap: string, b: string, whole: string)
    requires Blank(gap) && whole == gap + b
    ensures Split(whole) == Split(b)
  {
    if gap == "" {
      assert whole == b;
    } else {
      GapFirst(gap[1..], b, whole[1..]);
      SpaceFirst(whole);
    }
  }

  /** A single word is its own only word. */
  lemma SplitOfSingle(w: string)
    requires IsWord(w)
    ensures Split(w) == [w]
  {
    SplitWord(w, "");
    assert w + "" == w;
  }

  /** Splitting undoes joining: normalising keeps the words. */
  lemma {:induction false} SplitOfJoin(words: seq<string>)
    requires forall w | w in words :: IsWord(w)
    ensures Split(Join(words)) == words
  {
    if words != [] {
      assert words[0] in words && forall w | w in words[1..] :: w in words;
      assert words == [words[0]] + words[1..];
      if |words| == 1 {
        SplitWord(words[0], "");
        assert words[0] + "" == words[0];
      } else {
        SplitOfJoin(words[1..]);
        SplitBlank(words[0], Join(words[1..]));
      }
    }
  }

  /** Joining undoes splitting on normal text. */
  lemma {:induction false} JoinOfSplit(t: string)
    requires Normal(t)
    ensures Join(Split(t)) == t
    decreases |t|
  {
    if t != "" {
      var n := WordLength(t);
      if n < |t| {
        RestIsNormal(t, n);
        JoinOfSplit(t[n + 1..]);
        JoinStep(t[..n], t[n + 1..]);
        CutAtBlank(t, n);
      } else {
        JoinOfWord(t);
      }
    }
  }

  lemma JoinOfWord(w: string)
    requires IsWord(w)
    ensures Join(Split(w)) == w
  {
  }

  lemma CutAtBlank(t: string, n: nat)
    requires n < |t| && t[n] == ' '
    ensures t == t[..n] + " " + t[n + 1..]
  {
  }

  lemma JoinStep(w: string, rest: string)
    requires IsWord(w) && Split(rest) != [] && Join(Split(rest)) == rest
    ensures Join(Split(w + " " + rest)) == w + " " + rest
  {
    SplitBlank(w, rest);
    JoinFirst(w, Split(rest));
  }

  lemma JoinFirst(w: string, words: seq<string>)
    requires words != []
    ensures Join([w] + words) == w + " " + Join(words)
  {
  }

  /** After the first word of a normal text comes one blank and then a normal text. */
  lemma RestIsNormal(t: string, n: nat)
    requires Normal(t) && n == WordLength(t) < |t|
    ensures n > 0 && t[n] == ' ' && t[n + 1..] != "" && Normal(t[n + 1..]) && Split(t[n + 1..]) != []
  {
    assert !IsSpace(t[0]) && n > 0;
    assert IsSpace(t[n]);
    assert n + 1 < |t| && !IsSpace(t[n + 1]);
    SuffixIsNormal(t, n + 1);
    SplitOfWord(t[n + 1..]);
  }

  lemma SuffixIsNormal(t: string, k: nat)
    requires Normal(t) && k < |t| && !IsSpace(t[k])
    ensures Normal(t[k..])
  {
    var rest := t[k..];
    assert rest[0] == t[k] && rest[|rest| - 1] == t[|t| - 1];
    forall i | 0 <= i < |rest| && IsSpace(rest[i])
      ensures rest[i] == ' ' && (i + 1 < |rest| ==> !IsSpace(rest[i + 1]))
    {
      assert rest[i] == t[k + i];
      assert i + 1 < |rest| ==> rest[i + 1] == t[k + i + 1];
    }
  }

  lemma SplitOfWord(t: string)
    requires t != "" && !IsSpace(t[0])
    ensures Split(t) != []
  {
    assert SkipSpaces(t) == t;
  }

  /** Cutting a normal text anywhere and adding an ellipsis leaves it normal. */
  lemma CutIsNormal(t: string, n: nat)
    requires Normal(t) && n < |t|
    ensures Normal(t[..n] + [ELLIPSIS])
  {
  }

  /**
    * For every text and every limit: at most `limit` characters, in normal form, equal to the normalised text
    * up to the cut, with a fixpoint after one application even when the cut falls right after a blank.
    */
  lemma ClipNormalForm(text: string, limit: nat)
    requires limit >= 1
    ensures var clipped, full := ClipTo(text, limit), Join(Split(text));
      && |clipped| <= limit
      && Normal(clipped)
      && (if |full| <= limit then clipped == full
          else |clipped| == limit && clipped[..limit - 1] == full[..limit - 1] && clipped[limit - 1] == ELLIPSIS)
      && Split(full) == Split(text)
      && ClipTo(clipped, limit) == clipped
  {
    var words := Split(text);
    var full := Join(words);
    JoinIsNormal(words);
    SplitOfJoin(words);
    if |full| > limit {
      CutIsNormal(full, limit - 1);
    }
    JoinOfSplit(ClipTo(text, limit));
  }

  lemma {:induction false} BlankHasNoWords(s: string)
    ensures Blank(s) <==> Split(s) == []
  {
    SkipsIffBlank(s);
  }

  lemma {:induction false} SkipsIffBlank(s: string)
    ensures SkipSpaces(s) == "" <==> Blank(s)
  {
    if s != "" && IsSpace(s[0]) {
      SkipsIffBlank(s[1..]);
    }
  }

  /** Only a blank text clips to a blank one. */
  lemma ClipKeepsBlankness(text: string, limit: nat)
    requires limit >= 1
    ensures Blank(ClipTo(text, limit)) <==> Blank(text)
  {
    BlankHasNoWords(text);
    ClipNormalForm(text, limit);
    JoinIsNormal(Split(text));
  }
}
