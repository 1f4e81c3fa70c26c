/**
  The word list: masking, or reporting, every listed term a message contains.
  Terms are looked for in a folded copy, which may differ in length, and masked in
  the original. What folds to what, what is a space and what belongs to a word
  are parameters.
 */
module WordScreen {
  import Collections

  /** One glyph per masked character. */
  const CENSOR_MARK: char := '\U{2588}'

  datatype Tables = Tables(fold: char -> string, isSpace: char -> bool, isWord: char -> bool)

  // --- the folded copy ------------------------------------------------------

  function Folded(tb: Tables, s: string): string {
    if s == [] then [] else Folded(tb, s[..|s| - 1]) + tb.fold(s[|s| - 1])
  }

  /** Where rune `i` of the original starts in the folded copy. */
  function Offset(tb: Tables, s: string, i: nat): nat
    requires i <= |s|
  {
    |Folded(tb, s[..i])|
  }

  /** Where rune `i` of the original ends in the folded copy. */
  function EndOf(tb: Tables, s: string, i: nat): nat
    requires i < |s|
  {
    Offset(tb, s, i + 1)
  }

  function TrimLeft(tb: Tables, s: string): string {
    if s != [] && tb.isSpace(s[0]) then TrimLeft(tb, s[1..]) else s
  }

  function TrimRight(tb: Tables, s: string): string {
    if s != [] && tb.isSpace(s[|s| - 1]) then TrimRight(tb, s[..|s| - 1]) else s
  }

  /** What a listed word is looked for as. */
  function Needle(tb: Tables, word: string): string {
    Folded(tb, TrimRight(tb, TrimLeft(tb, word)))
  }

  predicate OccursAt(hay: string, needle: string, at: nat) {
    needle != [] && at + |needle| <= |hay| && hay[at..at + |needle|] == needle
  }

  /** The match stands on its own rather than inside a longer word. */
  predicate OnBoundary(tb: Tables, hay: string, start: nat, end: nat)
    requires start <= end <= |hay|
  {
    && !tb.isWord(if start > 0 then hay[start - 1] else ' ')
    && !tb.isWord(if end < |hay| then hay[end] else ' ')
  }

  // --- what a screening means -----------------------------------------------

  /** A message, a word list and whether only whole words count. */
  datatype Case = Case(tb: Tables, content: string, words: seq<string>, wholeWord: bool)

  /** The listed word `w` is found at `at` of the folded copy. */
  ghost predicate Match(c: Case, w: nat, at: nat) {
    var hay := Folded(c.tb, c.content);
    && w < |c.words| && OccursAt(hay, Needle(c.tb, c.words[w]), at)
    && (c.wholeWord ==> OnBoundary(c.tb, hay, at, at + |Needle(c.tb, c.words[w])|))
  }

  /** Rune `i` ends inside that match. */
  ghost predicate EndsWithin(c: Case, w: nat, at: nat, i: nat)
    requires i < |c.content| && w < |c.words|
  {
    at < EndOf(c.tb, c.content, i) <= at + |Needle(c.tb, c.words[w])|
  }

  ghost predicate Hit(c: Case, w: nat, at: nat, i: nat)
    requires i < |c.content|
  {
    Match(c, w, at) && EndsWithin(c, w, at, i)
  }

  /** Some listed word matches somewhere. */
  ghost predicate Found(c: Case) {
    exists w: nat, at: nat :: Match(c, w, at)
  }

  /** The rune a censored message shows at `i`. */
  ghost predicate Masked(c: Case, i: nat)
    requires i < |c.content|
  {
    !c.tb.isSpace(c.content[i]) && exists w: nat, at: nat :: Hit(c, w, at, i)
  }

  /** The censored message: exactly the masked runes replaced, each by one mark. */
  ghost function Censored(c: Case): (out: string)
    ensures |out| == |c.content|
    ensures forall i :: 0 <= i < |out| ==> out[i] == if Masked(c, i) then CENSOR_MARK else c.content[i]
  {
    seq(|c.content|, i requires 0 <= i < |c.content| => if Masked(c, i) then CENSOR_MARK else c.content[i])
  }

  // --- offsets --------------------------------------------------------------

  lemma FoldedStep(tb: Tables, s: string, i: nat)
    requires i < |s|
    ensures Folded(tb, s[..i + 1]) == Folded(tb, s[..i]) + tb.fold(s[i])
    ensures Offset(tb, s, i + 1) == Offset(tb, s, i) + |tb.fold(s[i])|
  {
    assert s[..i + 1][..i] == s[..i];
  }

  lemma FoldedOne(tb: Tables, x: char)
    ensures Folded(tb, [x]) == tb.fold(x)
  {
    assert [x][..0] == "" && [x][..1] == [x];
    FoldedStep(tb, [x], 0);
    assert "" + tb.fold(x) == tb.fold(x);
  }

  lemma {:induction false} FoldedSplits(tb: Tables, s: string, t: string)
    ensures Folded(tb, s + t) == Folded(tb, s) + Folded(tb, t)
  {
    if t == [] {
      assert s + t == s;
    } else {
      assert (s + t)[..|s + t| - 1] == s + t[..|t| - 1];
      FoldedSplits(tb, s, t[..|t| - 1]);
    }
  }

  lemma {:induction false} OffsetsAscend(tb: Tables, s: string, i: nat, j: nat)
    requires i <= j <= |s|
    ensures Offset(tb, s, i) <= Offset(tb, s, j)
    decreases j
  {
    if i < j {
      FoldedStep(tb, s, j - 1);
      OffsetsAscend(tb, s, i, j - 1);
    }
  }

  /** `o` is the rune the folded position `b` came from: the first to end after it. */
  ghost predicate OriginOf(tb: Tables, s: string, b: nat, o: nat) {
    o <= |s| && forall i :: 0 <= i < |s| ==> (o <= i <==> b < EndOf(tb, s, i))
  }

  lemma OriginIsOrigin(tb: Tables, s: string, b: nat, o: nat)
    requires o < |s| && Offset(tb, s, o) <= b < Offset(tb, s, o + 1)
    ensures OriginOf(tb, s, b, o)
  {
    forall i | 0 <= i < |s| ensures o <= i <==> b < EndOf(tb, s, i) {
      if o <= i { OffsetsAscend(tb, s, o + 1, i + 1); } else { OffsetsAscend(tb, s, i + 1, o); }
    }
  }

  // --- the search -----------------------------------------------------------

  /** The first place at or after `from` where the needle occurs, or -1. */
  method IndexFrom(hay: string, from: nat, needle: string) returns (at: int)
    requires from <= |hay| && needle != []
    ensures at < 0 ==> forall s: nat :: from <= s ==> !OccursAt(hay, needle, s)
    ensures at >= 0 ==> from <= at && OccursAt(hay, needle, at)
    ensures at >= 0 ==> forall s: nat :: from <= s < at ==> !OccursAt(hay, needle, s)
  {
    at := from;
    while at + |needle| <= |hay|
      invariant from <= at
      invariant forall s: nat :: from <= s < at ==> !OccursAt(hay, needle, s)
    {
      if hay[at..at + |needle|] == needle {
        return;
      }
      at := at + 1;
    }
    at := -1;
  }

  /** The matches a search has been past: all of the words before `k`, and word `k` before `from`. */
  ghost predicate Past(w: nat, at: nat, k: nat, from: nat) {
    w < k || (w == k && at < from)
  }

  ghost predicate HitSoFar(c: Case, i: nat, k: nat, from: nat)
    requires i < |c.content|
  {
    exists w: nat, at: nat :: Hit(c, w, at, i) && Past(w, at, k, from)
  }

  ghost predicate FoundSoFar(c: Case, k: nat, from: nat) {
    exists w: nat, at: nat :: Match(c, w, at) && Past(w, at, k, from)
  }

  ghost predicate MaskedSoFar(c: Case, masked: seq<char>, k: nat, from: nat) {
    && |masked| == |c.content|
    && forall i :: 0 <= i < |masked| ==>
         masked[i] == if !c.tb.isSpace(c.content[i]) && HitSoFar(c, i, k, from) then CENSOR_MARK else c.content[i]
  }

  /** Moving past a stretch with no match of word `k` in it changes nothing. */
  lemma NothingBetween(c: Case, masked: seq<char>, k: nat, from: nat, k': nat, from': nat)
    requires forall w: nat, at: nat :: Match(c, w, at) ==> (Past(w, at, k, from) <==> Past(w, at, k', from'))
    ensures FoundSoFar(c, k, from) <==> FoundSoFar(c, k', from')
    ensures MaskedSoFar(c, masked, k, from) ==> MaskedSoFar(c, masked, k', from')
  {
    forall i | 0 <= i < |c.content| ensures HitSoFar(c, i, k, from) <==> HitSoFar(c, i, k', from') {
      if HitSoFar(c, i, k, from) {
        var w: nat, at: nat :| Hit(c, w, at, i) && Past(w, at, k, from);
        assert Hit(c, w, at, i) && Past(w, at, k', from');
      }
      if HitSoFar(c, i, k', from') {
        var w: nat, at: nat :| Hit(c, w, at, i) && Past(w, at, k', from');
        assert Hit(c, w, at, i) && Past(w, at, k, from);
      }
    }
  }

  /** Past where the needle of word `k` next occurs, or past the word if it never does. */
  lemma SkipTo(c: Case, masked: seq<char>, k: nat, from: nat, at: int)
    requires k < |c.words|
    requires forall s: nat :: from <= s && (at < 0 || s < at) ==>
      !OccursAt(Folded(c.tb, c.content), Needle(c.tb, c.words[k]), s)
    requires at >= 0 ==> from <= at
    ensures at >= 0 ==> (FoundSoFar(c, k, from) <==> FoundSoFar(c, k, at))
    ensures at >= 0 && MaskedSoFar(c, masked, k, from) ==> MaskedSoFar(c, masked, k, at)
    ensures at < 0 ==> (FoundSoFar(c, k, from) <==> FoundSoFar(c, k + 1, 0))
    ensures at < 0 && MaskedSoFar(c, masked, k, from) ==> MaskedSoFar(c, masked, k + 1, 0)
  {
    hide MaskedSoFar, FoundSoFar, Folded, Needle, OccursAt;
    if at < 0 {
      NothingBetween(c, masked, k, from, k + 1, 0);
    } else {
      NothingBetween(c, masked, k, from, k, at);
    }
  }

  lemma NothingYet(c: Case)
    ensures !FoundSoFar(c, 0, 0) && MaskedSoFar(c, c.content, 0, 0)
  {}

  lemma EverythingSeen(c: Case, masked: seq<char>)
    ensures FoundSoFar(c, |c.words|, 0) <==> Found(c)
    ensures MaskedSoFar(c, masked, |c.words|, 0) ==> masked == Censored(c)
    ensures !Found(c) ==> Censored(c) == c.content
  {
    if Found(c) {
      var w: nat, at: nat :| Match(c, w, at);
      assert Match(c, w, at) && Past(w, at, |c.words|, 0);
    }
    forall i | 0 <= i < |c.content|
      ensures HitSoFar(c, i, |c.words|, 0) <==> exists w: nat, at: nat :: Hit(c, w, at, i)
    {
      if w: nat, at: nat :| Hit(c, w, at, i) {
        assert Hit(c, w, at, i) && Past(w, at, |c.words|, 0);
      }
    }
  }

  /** Moving past one match masks exactly the runes that end inside it. */
  lemma OneMatch(c: Case, i: nat, k: nat, from: nat)
    requires i < |c.content| && Match(c, k, from)
    ensures HitSoFar(c, i, k, from + 1) <==> HitSoFar(c, i, k, from) || EndsWithin(c, k, from, i)
  {
    if EndsWithin(c, k, from, i) {
      assert Hit(c, k, from, i) && Past(k, from, k, from + 1);
    }
    if HitSoFar(c, i, k, from) {
      var w: nat, at: nat :| Hit(c, w, at, i) && Past(w, at, k, from);
      assert Hit(c, w, at, i) && Past(w, at, k, from + 1);
    }
  }

  lemma FoundHere(c: Case, k: nat, at: nat)
    requires Match(c, k, at)
    ensures Found(c) && FoundSoFar(c, k, at + 1)
  {
    assert Match(c, k, at) && Past(k, at, k, at + 1);
  }

  /** The origins of a match's two ends enclose exactly the runes that end inside it. */
  lemma CoveredRange(c: Case, k: nat, at: nat, first: int, last: int)
    requires Match(c, k, at) && first >= 0 && last >= 0
    requires OriginOf(c.tb, c.content, at, first)
    requires OriginOf(c.tb, c.content, at + |Needle(c.tb, c.words[k])|, last)
    ensures forall i :: 0 <= i < |c.content| ==> (first <= i < last <==> EndsWithin(c, k, at, i))
  {}

  lemma EmptyFindsNothing(c: Case)
    requires c.words == [] || c.content == ""
    ensures !Found(c) && Censored(c) == c.content
  {}

  // --- the screening --------------------------------------------------------

  /** The folded copy, and where in it each rune's folding begins. */
  method FoldWithOffsets(tb: Tables, content: string) returns (hay: string, foldedAt: array<int>)
    ensures hay == Folded(tb, content)
    ensures fresh(foldedAt) && foldedAt.Length == |content| + 1
    ensures forall j :: 0 <= j <= |content| ==> foldedAt[j] == Offset(tb, content, j)
  {
    var n := |content|;
    foldedAt := new int[n + 1];
    hay := [];
    for i := 0 to n
      invariant hay == Folded(tb, content[..i])
      invariant forall j :: 0 <= j < i ==> foldedAt[j] == Offset(tb, content, j)
    {
      FoldedStep(tb, content, i);
      foldedAt[i] := |hay|;
      hay := hay + tb.fold(content[i]);
    }
    assert content[..n] == content;
    foldedAt[n] := |hay|;
  }

  /** The folded copy, and the rune every position of it came from. */
  method FoldWithOrigins(tb: Tables, content: string) returns (hay: string, origin: array<int>)
    ensures hay == Folded(tb, content)
    ensures fresh(origin) && origin.Length == |hay| + 1
    ensures forall b :: 0 <= b <= |hay| ==> origin[b] >= 0 && OriginOf(tb, content, b, origin[b])
  {
    var n := |content|;
    var foldedAt;
    hay, foldedAt := FoldWithOffsets(tb, content);
    assert content[..n] == content;

    origin := new int[|hay| + 1];
    for i := 0 to n
      invariant Offset(tb, content, i) <= |hay|
      invariant forall j :: 0 <= j <= n ==> foldedAt[j] == Offset(tb, content, j)
      invariant forall b :: 0 <= b < Offset(tb, content, i) ==> origin[b] >= 0 && OriginOf(tb, content, b, origin[b])
    {
      OffsetsAscend(tb, content, i, i + 1);
      OffsetsAscend(tb, content, i + 1, n);
      for b := foldedAt[i] to foldedAt[i + 1]
        invariant forall j :: 0 <= j <= n ==> foldedAt[j] == Offset(tb, content, j)
        invariant forall p :: 0 <= p < b ==> origin[p] >= 0 && OriginOf(tb, content, p, origin[p])
      {
        OriginIsOrigin(tb, content, b, i);
        origin[b] := i;
      }
    }
    origin[|hay|] := n;
    forall i | 0 <= i < n ensures EndOf(tb, content, i) <= |hay| {
      OffsetsAscend(tb, content, i + 1, n);
    }
  }

  /** Masks the runes from `first` up to `last` that are not spaces. */
  method MaskRange(c: Case, masked: array<char>, first: int, last: int, ghost k: nat, ghost from: nat)
    requires 0 <= first && MaskedSoFar(c, masked[..], k, from) && Match(c, k, from)
    requires forall i :: 0 <= i < |c.content| ==> (first <= i < last <==> EndsWithin(c, k, from, i))
    modifies masked
    ensures MaskedSoFar(c, masked[..], k, from + 1)
  {
    ghost var before := masked[..];
    var i := first;
    while i < last && i < masked.Length
      invariant first <= i && (i == first || i <= last)
      invariant forall j :: 0 <= j < masked.Length && (j < first || j >= i) ==> masked[j] == before[j]
      invariant forall j :: first <= j < i && j < masked.Length ==>
        masked[j] == if c.tb.isSpace(before[j]) then before[j] else CENSOR_MARK
    {
      if !c.tb.isSpace(masked[i]) {
        masked[i] := CENSOR_MARK;
      }
      i := i + 1;
    }
    forall j | 0 <= j < |c.content|
      ensures masked[j] == if !c.tb.isSpace(c.content[j]) && HitSoFar(c, j, k, from + 1)
                           then CENSOR_MARK else c.content[j]
    {
      OneMatch(c, j, k, from);
      assert before[j] == if !c.tb.isSpace(c.content[j]) && HitSoFar(c, j, k, from) then CENSOR_MARK else c.content[j];
      assert first <= j ==> (j < i <==> j < last);
    }
  }

  /**
    Screens a message against the word list. Whether anything is found does not
    depend on the action; a message about to be refused is returned as it was,
    and a censored one has exactly the runes the matches cover replaced.
   */
  method ScreenWords(tb: Tables, content: string, words: seq<string>, wholeWord: bool, censor: bool)
      returns (out: string, found: bool)
    ensures var c := Case(tb, content, words, wholeWord);
      && (found <==> Found(c))
      && out == if censor then Censored(c) else content
  {
    var c := Case(tb, content, words, wholeWord);
    hide FoundSoFar, MaskedSoFar, Censored, Found, Folded, Needle, EndsWithin;
    NothingYet(c);
    if |words| == 0 || content == "" {
      EmptyFindsNothing(c);
      return content, false;
    }
    var hay, origin := FoldWithOrigins(tb, content);
    ghost var where := origin[..];
    var masked := new char[|content|](i requires 0 <= i < |content| => content[i]);
    assert masked[..] == content;
    found := false;
    for k := 0 to |words|
      invariant found <==> FoundSoFar(c, k, 0)
      invariant MaskedSoFar(c, masked[..], k, 0)
      invariant !censor ==> !found
      invariant origin[..] == where
    {
      var needle := Needle(tb, words[k]);
      if needle == "" {
        SkipTo(c, masked[..], k, 0, -1);
        continue;
      }
      var from := 0;
      while true
        invariant from <= |hay|
        invariant found <==> FoundSoFar(c, k, from)
        invariant MaskedSoFar(c, masked[..], k, from)
        invariant !censor ==> !found
        invariant origin[..] == where
        decreases |hay| - from
      {
        var at := IndexFrom(hay, from, needle);
        SkipTo(c, masked[..], k, from, at);
        if at < 0 {
          break;
        }
        from := at + 1;
        if wholeWord && !OnBoundary(tb, hay, at, at + |needle|) {
          NothingBetween(c, masked[..], k, at, k, at + 1);
          continue;
        }
        found := true;
        FoundHere(c, k, at);
        if !censor {
          return content, true;
        }
        assert origin[at] == where[at] && origin[at + |needle|] == where[at + |needle|];
        CoveredRange(c, k, at, origin[at], origin[at + |needle|]);
        MaskRange(c, masked, origin[at], origin[at + |needle|], k, at);
      }
    }
    EverythingSeen(c, masked[..]);
    if !found {
      return content, false;
    }
    return masked[..], true;
  }

  // --- screening the result again -------------------------------------------

  /** The same word list over what was just censored. */
  ghost function Again(c: Case): Case {
    c.(content := Censored(c))
  }

  /** The mark folds to something, and to nothing any listed word contains. */
  ghost predicate MarkIsForeign(c: Case) {
    var mark := c.tb.fold(CENSOR_MARK);
    && mark != []
    && forall w, u :: 0 <= w < |c.words| && 0 <= u < |mark| ==> mark[u] !in Needle(c.tb, c.words[w])
  }

  /** Rune `i` contributes to, or stands inside, the stretch of the folded copy. */
  ghost predicate Overlaps(tb: Tables, s: string, i: nat, at: nat, len: nat)
    requires i < |s|
  {
    Offset(tb, s, i) < at + len && at < EndOf(tb, s, i)
  }

  /** A match no rune of which is masked: one inside an expansion, or of spaces alone. */
  ghost predicate Escapes(c: Case, w: nat, at: nat) {
    && Match(c, w, at)
    && forall i :: 0 <= i < |c.content| && Overlaps(c.tb, c.content, i, at, |Needle(c.tb, c.words[w])|) ==>
         !Masked(c, i)
  }

  /** The rune a position of the folded copy came from. */
  lemma {:induction false} RuneAt(tb: Tables, s: string, b: nat) returns (i: nat)
    requires b < |Folded(tb, s)|
    ensures i < |s| && Offset(tb, s, i) <= b < EndOf(tb, s, i)
  {
    var init := s[..|s| - 1];
    assert s[..|s|] == s;
    FoldedStep(tb, s, |s| - 1);
    if b < |Folded(tb, init)| {
      i := RuneAt(tb, init, b);
      assert s[..i] == init[..i] && s[..i + 1] == init[..i + 1];
    } else {
      i := |s| - 1;
    }
  }

  lemma FoldedBetween(tb: Tables, s: string, lo: nat, hi: nat)
    requires lo <= hi <= |s|
    ensures Offset(tb, s, lo) + |Folded(tb, s[lo..hi])| == Offset(tb, s, hi) <= |Folded(tb, s)|
    ensures Folded(tb, s)[Offset(tb, s, lo)..Offset(tb, s, hi)] == Folded(tb, s[lo..hi])
  {
    assert s[..hi] == s[..lo] + s[lo..hi] && s == s[..hi] + s[hi..];
    FoldedSplits(tb, s[..lo], s[lo..hi]);
    FoldedSplits(tb, s[..hi], s[hi..]);
  }

  /** A rune's stretch of the folded copy is what the rune folds to. */
  lemma FoldOfRune(tb: Tables, s: string, i: nat)
    requires i < |s|
    ensures EndOf(tb, s, i) == Offset(tb, s, i) + |tb.fold(s[i])| <= |Folded(tb, s)|
    ensures Folded(tb, s)[Offset(tb, s, i)..EndOf(tb, s, i)] == tb.fold(s[i])
  {
    FoldedStep(tb, s, i);
    FoldedBetween(tb, s, i, i + 1);
    FoldedStep(tb, s[i..i + 1], 0);
    assert s[i..i + 1][..1] == s[i..i + 1];
  }

  /** An occurrence inside runes two texts share is an occurrence in both. */
  lemma Transfer(tb: Tables, s: string, t: string, lo: nat, hi: nat, needle: string, at: nat) returns (there: nat)
    requires lo <= hi <= |s| == |t| && s[lo..hi] == t[lo..hi]
    requires OccursAt(Folded(tb, s), needle, at)
    requires Offset(tb, s, lo) <= at && at + |needle| <= Offset(tb, s, hi)
    ensures there == Offset(tb, t, lo) + at - Offset(tb, s, lo)
    ensures OccursAt(Folded(tb, t), needle, there) && there + |needle| <= Offset(tb, t, hi)
  {
    FoldedBetween(tb, s, lo, hi);
    FoldedBetween(tb, t, lo, hi);
    there := Offset(tb, t, lo) + at - Offset(tb, s, lo);
    var piece, skip := Folded(tb, s[lo..hi]), at - Offset(tb, s, lo);
    hide Folded;
    Collections.SliceOfSlice(Folded(tb, s), Offset(tb, s, lo), Offset(tb, s, hi), skip, skip + |needle|);
    Collections.SliceOfSlice(Folded(tb, t), Offset(tb, t, lo), Offset(tb, t, hi), skip, skip + |needle|);
  }

  /** The runes a match runs over: from the one it starts in to the one it ends in. */
  lemma Span(tb: Tables, s: string, at: nat, len: nat) returns (lo: nat, hi: nat)
    requires len > 0 && at + len <= |Folded(tb, s)|
    ensures lo < hi <= |s| && Offset(tb, s, lo) <= at < EndOf(tb, s, lo) && at + len <= Offset(tb, s, hi)
    ensures forall i :: 0 <= i < |s| ==> (lo <= i < hi <==> Overlaps(tb, s, i, at, len))
  {
    lo := RuneAt(tb, s, at);
    var last := RuneAt(tb, s, at + len - 1);
    hi := last + 1;
    if last < lo { OffsetsAscend(tb, s, last + 1, lo); }
    forall i | 0 <= i < |s| ensures lo <= i < hi <==> Overlaps(tb, s, i, at, len) {
      if i < lo { OffsetsAscend(tb, s, i + 1, lo); } else { OffsetsAscend(tb, s, lo + 1, i + 1); }
      if i <= last { OffsetsAscend(tb, s, i, last); } else { OffsetsAscend(tb, s, last + 1, i); }
    }
  }

  lemma OverlapsWithin(tb: Tables, s: string, i: nat, lo: nat, hi: nat, at: nat, len: nat)
    requires i < |s| && lo <= hi <= |s| && Overlaps(tb, s, i, at, len)
    requires Offset(tb, s, lo) <= at && at + len <= Offset(tb, s, hi)
    ensures lo <= i < hi
  {
    if i < lo { OffsetsAscend(tb, s, i + 1, lo); }
    if hi <= i { OffsetsAscend(tb, s, hi, i); }
  }

  /** Two stretches of one text that overlap have a character in common. */
  lemma SharedUnit(hay: string, a: nat, s: string, b: nat, t: string)
    requires a + |s| <= |hay| && hay[a..a + |s|] == s
    requires b + |t| <= |hay| && hay[b..b + |t|] == t
    requires a < b + |t| && b < a + |s| && s != [] && t != []
    ensures exists u :: 0 <= u < |s| && s[u] in t
  {
    var p := if a < b then b else a;
    assert s[p - a] == hay[a..a + |s|][p - a];
    assert t[p - b] == hay[b..b + |t|][p - b];
  }

  /** No match of the censored text overlaps a mark that masking put there. */
  lemma MatchAvoidsMarks(c: Case, w: nat, at: nat, i: nat)
    requires MarkIsForeign(c) && Match(Again(c), w, at) && i < |c.content|
    requires Overlaps(c.tb, Censored(c), i, at, |Needle(c.tb, c.words[w])|)
    ensures !Masked(c, i)
  {
    if Masked(c, i) {
      FoldOfRune(c.tb, Censored(c), i);
      SharedUnit(Folded(c.tb, Censored(c)), Offset(c.tb, Censored(c), i), c.tb.fold(CENSOR_MARK),
                 at, Needle(c.tb, c.words[w]));
      assert false;
    }
  }

  /** A match of the censored text was there before, and escaped. */
  lemma FoundAgainEscaped(c: Case, w: nat, at: nat) returns (there: nat)
    requires !c.wholeWord && MarkIsForeign(c) && Match(Again(c), w, at)
    ensures Escapes(c, w, there)
  {
    var text, needle := Censored(c), Needle(c.tb, c.words[w]);
    var lo, hi := Span(c.tb, text, at, |needle|);
    forall i | lo <= i < hi ensures !Masked(c, i) && text[i] == c.content[i] {
      MatchAvoidsMarks(c, w, at, i);
    }
    hide Masked, MarkIsForeign, Folded, Needle, EndOf;
    there := Transfer(c.tb, text, c.content, lo, hi, needle, at);
    forall i | 0 <= i < |c.content| && Overlaps(c.tb, c.content, i, there, |needle|) ensures !Masked(c, i) {
      OverlapsWithin(c.tb, c.content, i, lo, hi, there, |needle|);
    }
  }

  /** A match that escaped is still there in the censored text. */
  lemma EscapedFoundAgain(c: Case, w: nat, at: nat)
    requires !c.wholeWord && Escapes(c, w, at)
    ensures Found(Again(c))
  {
    var text, needle := Censored(c), Needle(c.tb, c.words[w]);
    var lo, hi := Span(c.tb, c.content, at, |needle|);
    assert forall i :: lo <= i < hi ==> text[i] == c.content[i];
    hide Masked, Folded, Needle, EndOf;
    var there := Transfer(c.tb, c.content, text, lo, hi, needle, at);
    assert Match(Again(c), w, there);
  }

  /** A match begins in the folding of rune `lo` and ends in that of the rune before `hi`. */
  ghost predicate RunsOver(c: Case, w: nat, at: nat, lo: nat, hi: nat) {
    && Match(c, w, at) && lo < hi <= |c.content|
    && var end := at + |Needle(c.tb, c.words[w])|;
    && Offset(c.tb, c.content, lo) <= at < EndOf(c.tb, c.content, lo)
    && Offset(c.tb, c.content, hi - 1) < end <= EndOf(c.tb, c.content, hi - 1)
  }

  /** No match of the message starts before the end of what a rune folds to and runs to that end. */
  ghost predicate NoneRunsToItsEnd(c: Case, i: nat)
    requires i < |c.content|
  {
    forall w: nat, at: nat :: Match(c, w, at) ==> !EndsWithin(c, w, at, i)
  }

  /**
    A match every rune of which but the last is a space, and whose last rune is
    one too or folds to more than any match takes in.
   */
  ghost predicate SlipsThrough(c: Case, w: nat, at: nat, lo: nat, hi: nat) {
    && RunsOver(c, w, at, lo, hi)
    && (forall i :: lo <= i < hi - 1 ==> c.tb.isSpace(c.content[i]))
    && (c.tb.isSpace(c.content[hi - 1]) || NoneRunsToItsEnd(c, hi - 1))
  }

  lemma EscapedSlips(c: Case, w: nat, at: nat) returns (lo: nat, hi: nat)
    requires Escapes(c, w, at)
    ensures SlipsThrough(c, w, at, lo, hi)
  {
    var len := |Needle(c.tb, c.words[w])|;
    lo, hi := Span(c.tb, c.content, at, len);
    assert Overlaps(c.tb, c.content, lo, at, len) && Overlaps(c.tb, c.content, hi - 1, at, len);
    assert !Masked(c, hi - 1);
    hide Folded, Needle;
    forall i | lo <= i < hi - 1
      ensures c.tb.isSpace(c.content[i])
    {
      OffsetsAscend(c.tb, c.content, i + 1, hi - 1);
      assert Overlaps(c.tb, c.content, i, at, len);
      assert Hit(c, w, at, i) && !Masked(c, i);
    }
    if !c.tb.isSpace(c.content[hi - 1]) {
      forall w': nat, at': nat | Match(c, w', at')
        ensures !EndsWithin(c, w', at', hi - 1)
      {
        assert !Hit(c, w', at', hi - 1);
      }
    }
  }

  lemma SlippedEscapes(c: Case, w: nat, at: nat, lo: nat, hi: nat)
    requires SlipsThrough(c, w, at, lo, hi)
    ensures Escapes(c, w, at)
  {
    var len := |Needle(c.tb, c.words[w])|;
    hide Folded, Needle;
    forall i | 0 <= i < |c.content| && Overlaps(c.tb, c.content, i, at, len)
      ensures !Masked(c, i)
    {
      OverlapsWithin(c.tb, c.content, i, lo, hi, at, len);
    }
  }

  /**
    Screening a censored message again finds something exactly when some match
    of the original slipped through: it covers spaces only, or spaces and then
    part of what one more rune folds to, which no match covers to its end.
   */
  lemma FoundAgainIffEscaped(c: Case)
    requires !c.wholeWord && MarkIsForeign(c)
    ensures Found(Again(c)) <==> exists w: nat, at: nat, lo: nat, hi: nat :: SlipsThrough(c, w, at, lo, hi)
  {
    hide Match, Escapes, Again, MarkIsForeign, SlipsThrough;
    if w: nat, at: nat :| Match(Again(c), w, at) {
      var there := FoundAgainEscaped(c, w, at);
      var lo, hi := EscapedSlips(c, w, there);
    }
    if w: nat, at: nat, lo: nat, hi: nat :| SlipsThrough(c, w, at, lo, hi) {
      SlippedEscapes(c, w, at, lo, hi);
      EscapedFoundAgain(c, w, at);
    }
  }

  /** Every character folds to one, and a space never to what something else folds to. */
  ghost predicate FoldsOneToOne(c: Case) {
    && (forall x :: Written(c, x) ==> |c.tb.fold(x)| == 1)
    && (forall x, y :: Written(c, x) && Written(c, y) && c.tb.fold(x) == c.tb.fold(y) ==>
          c.tb.isSpace(x) == c.tb.isSpace(y))
  }

  ghost predicate Written(c: Case, x: char) {
    x in c.content || exists w :: 0 <= w < |c.words| && x in c.words[w]
  }

  lemma {:induction false} TrimLeftOf(tb: Tables, s: string)
    ensures forall x :: x in TrimLeft(tb, s) ==> x in s
    ensures TrimLeft(tb, s) != [] ==> !tb.isSpace(TrimLeft(tb, s)[0])
  {
    if s != [] && tb.isSpace(s[0]) { TrimLeftOf(tb, s[1..]); }
  }

  lemma {:induction false} TrimRightOf(tb: Tables, s: string)
    ensures TrimRight(tb, s) <= s
  {
    if s != [] && tb.isSpace(s[|s| - 1]) { TrimRightOf(tb, s[..|s| - 1]); }
  }

  /** What is looked for begins with the fold of a character that is no space. */
  lemma NeedleStart(c: Case, w: nat) returns (x: char)
    requires w < |c.words| && FoldsOneToOne(c) && Needle(c.tb, c.words[w]) != []
    ensures Written(c, x) && !c.tb.isSpace(x) && c.tb.fold(x) == [Needle(c.tb, c.words[w])[0]]
  {
    var left := TrimLeft(c.tb, c.words[w]);
    var word := TrimRight(c.tb, left);
    TrimLeftOf(c.tb, c.words[w]);
    TrimRightOf(c.tb, left);
    x := word[0];
    assert x == left[0] && x in c.words[w];
    FoldedStep(c.tb, word, 0);
    FoldedBetween(c.tb, word, 0, 1);
  }

  /** The rune a match starts in is no space and ends inside the match. */
  lemma FirstRuneIsMasked(c: Case, w: nat, at: nat)
    requires FoldsOneToOne(c) && Match(c, w, at)
    ensures !Escapes(c, w, at)
  {
    var hay, needle := Folded(c.tb, c.content), Needle(c.tb, c.words[w]);
    var x := NeedleStart(c, w);
    var i := RuneAt(c.tb, c.content, at);
    var rune := c.content[i];
    assert Written(c, rune);
    FoldOfRune(c.tb, c.content, i);
    hide Folded, Needle, Written;
    assert c.tb.fold(rune) == hay[at..at + 1] == [needle[0]] by {
      assert hay[at..at + |needle|][0] == needle[0];
    }
    assert Hit(c, w, at, i);
    assert Overlaps(c.tb, c.content, i, at, |needle|);
  }

  /** With one-to-one folding and whole words off, screening the result again finds nothing. */
  lemma NothingFoundAgain(c: Case)
    requires !c.wholeWord && MarkIsForeign(c) && FoldsOneToOne(c)
    ensures !Found(Again(c))
  {
    if w: nat, at: nat :| Match(Again(c), w, at) {
      var there := FoundAgainEscaped(c, w, at);
      FirstRuneIsMasked(c, w, there);
      assert false;
    }
  }

  lemma LigatureFolded(tb: Tables)
    requires tb.fold('\U{E6}') == "ae" && tb.fold('a') == "a" && !tb.isSpace('a')
    ensures Folded(tb, ['\U{E6}']) == "ae" && Needle(tb, "a") == "a" && EndOf(tb, ['\U{E6}'], 0) == 2
  {
    assert Needle(tb, "a") == "a" by { FoldedOne(tb, 'a'); }
    FoldedOne(tb, '\U{E6}');
    assert ['\U{E6}'][..1] == ['\U{E6}'];
  }

  lemma LigatureNotHit(tb: Tables, c: Case, w: nat, at: nat)
    requires c.tb == tb && c.content == ['\U{E6}'] && c.words == ["a"]
    requires Folded(tb, c.content) == "ae" && Needle(tb, "a") == "a" && EndOf(tb, c.content, 0) == 2
    ensures !Hit(c, w, at, 0) && (!c.wholeWord ==> Match(c, 0, 0))
  {
    hide Folded, Needle, EndOf, OnBoundary;
    assert "ae"[0..1] == "a";
    if at == 1 {
      assert "ae"[1..2][0] != "a"[0];
    }
  }

  /**
    A match that ends inside one character's expansion masks nothing: with the
    ligature ae folding to two letters, looking for the first of them is
    reported found, and the message goes through as it was written.
   */
  lemma InsideAnExpansionNothingIsMasked(tb: Tables)
    requires tb.fold('\U{E6}') == "ae" && tb.fold('a') == "a" && !tb.isSpace('a')
    ensures var c := Case(tb, ['\U{E6}'], ["a"], false);
      Found(c) && Censored(c) == c.content && Escapes(c, 0, 0)
  {
    var c := Case(tb, ['\U{E6}'], ["a"], false);
    LigatureFolded(tb);
    LigatureNotHit(tb, c, 0, 0);
    hide Match, Hit, Folded, Needle, EndOf;
    forall w: nat, at: nat ensures !Hit(c, w, at, 0) {
      LigatureNotHit(tb, c, w, at);
    }
    assert !Masked(c, 0);
    hide Masked, Overlaps;
    Collections.SameSeq(Censored(c), c.content);
  }

  // --- plainly, where nothing folds -----------------------------------------

  predicate Plain(tb: Tables) {
    !tb.isWord(' ') && forall x :: tb.fold(x) == [x]
  }

  lemma {:induction false} PlainFolded(tb: Tables, s: string)
    requires forall x :: tb.fold(x) == [x]
    ensures Folded(tb, s) == s
  {
    if s != [] {
      PlainFolded(tb, s[..|s| - 1]);
      assert s == s[..|s| - 1] + [s[|s| - 1]];
    }
  }

  ghost predicate AllSpace(tb: Tables, s: string) {
    forall i :: 0 <= i < |s| ==> tb.isSpace(s[i])
  }

  lemma {:induction false} TrimLeftMeans(tb: Tables, s: string) returns (before: string)
    ensures s == before + TrimLeft(tb, s) && AllSpace(tb, before)
    ensures TrimLeft(tb, s) != [] ==> !tb.isSpace(TrimLeft(tb, s)[0])
  {
    if s != [] && tb.isSpace(s[0]) {
      var rest := TrimLeftMeans(tb, s[1..]);
      before := [s[0]] + rest;
    } else {
      before := [];
    }
  }

  lemma {:induction false} TrimRightMeans(tb: Tables, s: string) returns (after: string)
    ensures s == TrimRight(tb, s) + after && AllSpace(tb, after)
    ensures TrimRight(tb, s) != [] ==>
      !tb.isSpace(TrimRight(tb, s)[|TrimRight(tb, s)| - 1]) && TrimRight(tb, s)[0] == s[0]
  {
    if s != [] && tb.isSpace(s[|s| - 1]) {
      var rest := TrimRightMeans(tb, s[..|s| - 1]);
      after := rest + [s[|s| - 1]];
    } else {
      after := [];
    }
  }

  /** A text without the space around it. */
  ghost predicate IsTrimmed(tb: Tables, word: string, core: string) {
    && (exists before, after :: word == before + core + after && AllSpace(tb, before) && AllSpace(tb, after))
    && (core != [] ==> !tb.isSpace(core[0]) && !tb.isSpace(core[|core| - 1]))
  }

  /** A listed word is looked for without the space around it. */
  lemma TrimMeans(tb: Tables, word: string)
    ensures IsTrimmed(tb, word, TrimRight(tb, TrimLeft(tb, word)))
  {
    var before := TrimLeftMeans(tb, word);
    var after := TrimRightMeans(tb, TrimLeft(tb, word));
    var core := TrimRight(tb, TrimLeft(tb, word));
    assert word == before + core + after;
  }

  /** The characters on both sides of a stretch of text belong to no word, or there are none. */
  predicate StandsAlone(tb: Tables, text: string, at: nat, n: nat)
    requires at + n <= |text|
  {
    (at > 0 ==> !tb.isWord(text[at - 1])) && (at + n < |text| ==> !tb.isWord(text[at + n]))
  }

  /** A listed word, trimmed, written out in the text itself. */
  ghost predicate WrittenAt(c: Case, w: nat, at: nat, core: string) {
    && w < |c.words| && IsTrimmed(c.tb, c.words[w], core) && core != []
    && at + |core| <= |c.content| && c.content[at..at + |core|] == core
    && (c.wholeWord ==> StandsAlone(c.tb, c.content, at, |core|))
  }

  /** Where in a word its trimmed text is: everything around is space. */
  ghost predicate CoreAt(tb: Tables, word: string, core: string, at: nat) {
    && at + |core| <= |word| && core == word[at..at + |core|]
    && (forall i :: 0 <= i < |word| && (i < at || at + |core| <= i) ==> tb.isSpace(word[i]))
    && (core != [] ==> !tb.isSpace(word[at]) && !tb.isSpace(word[at + |core| - 1]))
  }

  lemma CoreIsSomewhere(tb: Tables, word: string, core: string) returns (at: nat)
    requires IsTrimmed(tb, word, core)
    ensures CoreAt(tb, word, core, at)
  {
    var before, after :| word == before + core + after && AllSpace(tb, before) && AllSpace(tb, after);
    at := |before|;
    forall i | 0 <= i < |word| && (i < at || at + |core| <= i)
      ensures tb.isSpace(word[i])
    {
      assert word[i] == if i < at then before[i] else after[i - at - |core|];
    }
  }

  /** Trimming leaves one text. */
  lemma TrimmedOnce(tb: Tables, word: string, core: string, other: string)
    requires IsTrimmed(tb, word, core) && IsTrimmed(tb, word, other) && core != []
    ensures core == other
  {
    var a := CoreIsSomewhere(tb, word, core);
    var b := CoreIsSomewhere(tb, word, other);
    hide IsTrimmed;
    assert a == b && |core| == |other|;
  }

  lemma PlainMatch(c: Case, w: nat, at: nat)
    requires Plain(c.tb)
    ensures Match(c, w, at) <==> w < |c.words| && WrittenAt(c, w, at, TrimRight(c.tb, TrimLeft(c.tb, c.words[w])))
    ensures w < |c.words| ==> Needle(c.tb, c.words[w]) == TrimRight(c.tb, TrimLeft(c.tb, c.words[w]))
  {
    PlainFolded(c.tb, c.content);
    if w < |c.words| {
      PlainFolded(c.tb, TrimRight(c.tb, TrimLeft(c.tb, c.words[w])));
      TrimMeans(c.tb, c.words[w]);
    }
    hide Folded, IsTrimmed, TrimLeft, TrimRight;
  }

  lemma PlainEnd(tb: Tables, s: string, i: nat)
    requires Plain(tb) && i < |s|
    ensures EndOf(tb, s, i) == i + 1
  {
    PlainFolded(tb, s[..i + 1]);
  }

  /**
    Where no character folds, a rune is masked exactly when it is no space and
    lies in a listed word, trimmed, as it stands in the message; with whole words
    on, one with no letter or digit right before it or right behind it.
   */
  lemma PlainlyMasked(c: Case, i: nat)
    requires Plain(c.tb) && i < |c.content|
    ensures Masked(c, i) <==>
      !c.tb.isSpace(c.content[i]) &&
      exists w: nat, at: nat, core :: WrittenAt(c, w, at, core) && at <= i < at + |core|
  {
    PlainEnd(c.tb, c.content, i);
    hide EndOf, Folded, Plain;
    if w: nat, at: nat :| Hit(c, w, at, i) {
      PlainMatch(c, w, at);
      hide Match, WrittenAt, TrimLeft, TrimRight;
      assert WrittenAt(c, w, at, TrimRight(c.tb, TrimLeft(c.tb, c.words[w]))) && at <= i;
    }
    if w: nat, at: nat, core :| WrittenAt(c, w, at, core) && at <= i < at + |core| {
      TrimMeans(c.tb, c.words[w]);
      TrimmedOnce(c.tb, c.words[w], core, TrimRight(c.tb, TrimLeft(c.tb, c.words[w])));
      PlainMatch(c, w, at);
      hide Match, IsTrimmed, TrimLeft, TrimRight;
      assert Hit(c, w, at, i);
    }
  }

  /** Folding or not, with whole words on nothing is found that does not stand alone in the folded copy. */
  lemma FoundStandsAlone(c: Case, w: nat, at: nat)
    requires Match(c, w, at) && c.wholeWord
    ensures StandsAlone(c.tb, Folded(c.tb, c.content), at, |Needle(c.tb, c.words[w])|)
  {}
}
