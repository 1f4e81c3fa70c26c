/**
  Text on its way to Discord: EscapeOutbound breaks everything Discord would
  read as a mention, RewriteMentions then writes the mentions that names really
  resolve to, and TruncateRunes cuts the result to size.

  A string is a sequence of runes. Which runes are letters or digits, and whom a
  name resolves to, are parameters.
 */
module OutboundText {
  import opened Wrappers
  import Collections

  /** U+200B, the zero-width space that breaks a token. */
  const ZWSP: char := '\U{200B}'
  const ELLIPSIS: char := '\U{2026}'
  const MAX_NAME := 64
  const MAX_MESSAGE_RUNES := 2000

  predicate StartsWith(text: string, p: string) {
    |p| <= |text| && text[..|p|] == p
  }

  predicate Contains(text: string, p: string) {
    StartsWith(text, p) || (text != "" && Contains(text[1..], p))
  }

  // --- escaping -------------------------------------------------------------

  /** How much of the text's front is one of the four tokens; none is another's beginning. */
  function Token(text: string): (n: nat)
    ensures n <= |text|
  {
    if StartsWith(text, "@everyone") then 9
    else if StartsWith(text, "@here") then 5
    else if StartsWith(text, "<@") || StartsWith(text, "<#") then 2
    else 0
  }

  function EscapeOutbound(text: string): string {
    if text == "" then ""
    else
      var n := Token(text);
      if n > 0 then [text[0], ZWSP] + text[1..n] + EscapeOutbound(text[n..])
      else [text[0]] + EscapeOutbound(text[1..])
  }

  /** Nothing Discord would resolve: no "<@" and no "<#". */
  ghost predicate NoMarkup(s: string) {
    forall k :: 0 < k < |s| && (s[k] == '@' || s[k] == '#') ==> s[k - 1] != '<'
  }

  lemma EscapedHead(text: string)
    ensures text == "" ==> EscapeOutbound(text) == ""
    ensures text != "" ==> EscapeOutbound(text) != "" && EscapeOutbound(text)[0] == text[0]
  {}

  lemma NoMarkupJoins(s: string, t: string)
    requires NoMarkup(s) && NoMarkup(t)
    requires s != "" && t != "" && s[|s| - 1] == '<' ==> t[0] != '@' && t[0] != '#'
    ensures NoMarkup(s + t)
  {}

  lemma TokenText(text: string)
    requires text != ""
    ensures Token(text) == 9 ==> text[0] == '@' && text[1..9] == "everyone"
    ensures Token(text) == 5 ==> text[0] == '@' && text[1..5] == "here"
    ensures Token(text) == 2 ==> text[0] == '<' && (text[1..2] == "@" || text[1..2] == "#")
    ensures Token(text) == 0 && text[0] == '<' && |text| > 1 ==> text[1] != '@' && text[1] != '#'
  {
    var t1, t2 := text[..|text|], text;
    Collections.SameSeq(t1, t2);
    if Token(text) == 0 && text[0] == '<' && |text| > 1 {
      Collections.SameSeq(text[..2], [text[0], text[1]]);
    }
  }

  /** Whatever was typed, nothing that leaves here reads as markup. */
  lemma {:induction false} EscapedHasNoMarkup(text: string)
    ensures NoMarkup(EscapeOutbound(text))
  {
    if text != "" {
      var n := Token(text);
      TokenText(text);
      if n > 0 {
        EscapedHasNoMarkup(text[n..]);
        NoMarkupJoins([text[0], ZWSP] + text[1..n], EscapeOutbound(text[n..]));
      } else {
        EscapedHasNoMarkup(text[1..]);
        EscapedHead(text[1..]);
        NoMarkupJoins([text[0]], EscapeOutbound(text[1..]));
      }
    }
  }

  function Stripped(s: string, c: char): string {
    if s == "" then "" else (if s[0] == c then "" else [s[0]]) + Stripped(s[1..], c)
  }

  lemma {:induction false} StrippedSplits(s: string, t: string, c: char)
    ensures Stripped(s + t, c) == Stripped(s, c) + Stripped(t, c)
  {
    if s == "" {
      Collections.SameSeq(s + t, t);
    } else {
      Collections.SameSeq((s + t)[1..], s[1..] + t);
      StrippedSplits(s[1..], t, c);
    }
  }

  lemma SpacesDrop(head: string, rest: string)
    ensures Stripped(head + [ZWSP] + rest, ZWSP) == Stripped(head + rest, ZWSP)
  {
    assert Stripped([ZWSP], ZWSP) == "";
    hide Stripped;
    StrippedSplits(head + [ZWSP], rest, ZWSP);
    StrippedSplits(head, [ZWSP], ZWSP);
    StrippedSplits(head, rest, ZWSP);
    Collections.SameSeq(Stripped(head, ZWSP) + "", Stripped(head, ZWSP));
  }

  /** Nothing is deleted: take the zero-width spaces away and every rune typed is still there, in order. */
  lemma {:induction false} EscapingOnlyInsertsSpaces(text: string)
    ensures Stripped(EscapeOutbound(text), ZWSP) == Stripped(text, ZWSP)
  {
    if text != "" {
      var n := Token(text);
      var m := if n > 0 then n else 1;
      var head, word, tail := [text[0]], text[1..m], text[m..];
      var rest := EscapeOutbound(tail);
      EscapingOnlyInsertsSpaces(tail);
      assert EscapeOutbound(text) == if n > 0 then [text[0], ZWSP] + word + rest else head + rest;
      hide Token, EscapeOutbound, Stripped;
      if n > 0 {
        Collections.SameSeq([text[0], ZWSP] + word + rest, head + [ZWSP] + (word + rest));
        SpacesDrop(head, word + rest);
      }
      Collections.SameSeq(head + (word + rest), text[..m] + rest);
      if n == 0 { Collections.SameSeq(head + rest, text[..m] + rest); }
      StrippedSplits(text[..m], rest, ZWSP);
      StrippedSplits(text[..m], tail, ZWSP);
      Collections.SameSeq(text, text[..m] + tail);
    }
  }

  // --- what escaping leaves of @everyone and @here --------------------------

  /** A word escaping never breaks in two. */
  ghost predicate Unbroken(w: string) {
    forall i :: 0 <= i < |w| ==> w[i] != '@' && w[i] != '<' && w[i] != ZWSP
  }

  lemma {:induction false} EscapingKeepsWords(text: string, w: string)
    requires Unbroken(w)
    ensures StartsWith(EscapeOutbound(text), w) <==> StartsWith(text, w)
  {
    if w != "" && text != "" && text[0] == w[0] {
      TokenText(text);
      EscapingKeepsWords(text[1..], w[1..]);
      var out, rest := EscapeOutbound(text), EscapeOutbound(text[1..]);
      assert out == [text[0]] + rest;
      StartsOneOn(text, w);
      StartsOneOn(out, w);
      Collections.SameSeq(out[1..], rest);
    } else if w != "" {
      EscapedHead(text);
      if StartsWith(text, w) { StartsAlike(text, w); }
      if StartsWith(EscapeOutbound(text), w) { StartsAlike(EscapeOutbound(text), w); }
    }
  }

  lemma StartsAlike(text: string, p: string)
    requires StartsWith(text, p) && p != ""
    ensures text != "" && text[0] == p[0]
  {
    assert text[..|p|][0] == p[0];
  }

  lemma StartsOneOn(text: string, p: string)
    requires text != "" && p != "" && text[0] == p[0]
    ensures StartsWith(text, p) <==> StartsWith(text[1..], p[1..])
  {
    if |p| <= |text| {
      assert text[..|p|] == [text[0]] + text[1..][..|p| - 1];
      assert p == [p[0]] + p[1..];
    }
  }

  lemma {:induction false} SkipTo(s: string, t: string, p: string)
    requires p != "" && p[0] !in s
    ensures Contains(s + t, p) <==> Contains(t, p)
  {
    if s == "" {
      Collections.SameSeq(s + t, t);
    } else {
      if StartsWith(s + t, p) { StartsAlike(s + t, p); }
      Collections.SameSeq((s + t)[1..], s[1..] + t);
      SkipTo(s[1..], t, p);
    }
  }

  /** Just before the rest, at the front: the sigil and the word, or later on. */
  lemma ContainsFrom(x: char, rest: string, w: string)
    ensures Contains([x] + rest, ['@'] + w) <==> (x == '@' && StartsWith(rest, w)) || Contains(rest, ['@'] + w)
  {
    var p, t := ['@'] + w, [x] + rest;
    Collections.SameSeq(t[1..], rest);
    Collections.SameSeq(p[1..], w);
    if x == '@' {
      StartsOneOn(t, p);
    } else if StartsWith(t, p) {
      StartsAlike(t, p);
    }
  }

  lemma ContainsTagged(text: string, w: string)
    requires text != ""
    ensures Contains(text, "<@" + w)
       <==> (text[0] == '<' && StartsWith(text[1..], ['@'] + w)) || Contains(text[1..], "<@" + w)
  {
    var p := "<@" + w;
    Collections.SameSeq(p[1..], ['@'] + w);
    if text[0] == '<' {
      StartsOneOn(text, p);
    } else if StartsWith(text, p) {
      StartsAlike(text, p);
    }
  }

  /**
    "@everyone" and "@here" are broken exactly when they do not follow a "<":
    there the replacer has already taken the "@" for the token "<@".
   */
  lemma {:induction false} EveryoneSurvivesBehindAngle(text: string, w: string)
    requires w == "everyone" || w == "here"
    ensures Contains(EscapeOutbound(text), ['@'] + w) <==> Contains(text, "<@" + w)
  {
    if text != "" {
      TokenText(text);
      var n := Token(text);
      hide Contains, StartsWith, EscapeOutbound, Token;
      if n == 0 {
        EveryoneSurvivesBehindAngle(text[1..], w);
        EscapingKeepsWords(text[1..], w);
        EscapeUnbroken(text, w);
      } else if text[0] == '@' {
        EveryoneSurvivesBehindAngle(text[n..], w);
        EscapeBrokenWord(text, w);
      } else {
        EveryoneSurvivesBehindAngle(text[2..], w);
        EscapingKeepsWords(text[2..], w);
        EscapeAngle(text, w);
      }
    }
  }

  lemma NoTokenThere(text: string, w: string)
    requires text != "" && Token(text) == 0 && (w == "everyone" || w == "here")
    ensures !(text[0] == '@' && StartsWith(text[1..], w))
    ensures !(text[0] == '<' && StartsWith(text[1..], ['@'] + w))
  {
    assert ['@'] + "everyone" == "@everyone" && ['@'] + "here" == "@here";
    TokenText(text);
    WordBehind(text, w);
    TagBehind(text, w);
  }

  lemma WordBehind(text: string, w: string)
    requires text != "" && w != ""
    ensures text[0] == '@' && StartsWith(text[1..], w) ==> StartsWith(text, ['@'] + w)
  {
    if |w| < |text| {
      Collections.SameSeq(text[..|w| + 1], [text[0]] + text[1..][..|w|]);
    }
  }

  lemma TagBehind(text: string, w: string)
    requires text != ""
    ensures StartsWith(text[1..], ['@'] + w) ==> |text| > 1 && text[1] == '@'
  {
    if StartsWith(text[1..], ['@'] + w) { StartsAlike(text[1..], ['@'] + w); }
  }

  lemma EscapeUnbroken(text: string, w: string)
    requires text != "" && Token(text) == 0 && (w == "everyone" || w == "here")
    requires StartsWith(EscapeOutbound(text[1..]), w) <==> StartsWith(text[1..], w)
    ensures Contains(EscapeOutbound(text), ['@'] + w) <==> Contains(EscapeOutbound(text[1..]), ['@'] + w)
    ensures Contains(text, "<@" + w) <==> Contains(text[1..], "<@" + w)
  {
    NoTokenThere(text, w);
    ContainsFrom(text[0], EscapeOutbound(text[1..]), w);
    ContainsTagged(text, w);
    hide StartsWith, Contains, Token;
  }

  lemma EscapeBrokenWord(text: string, w: string)
    requires text != "" && Token(text) > 0 && text[0] == '@' && (w == "everyone" || w == "here")
    ensures var n := Token(text);
      && (Contains(EscapeOutbound(text), ['@'] + w) <==> Contains(EscapeOutbound(text[n..]), ['@'] + w))
      && (Contains(text, "<@" + w) <==> Contains(text[n..], "<@" + w))
  {
    TokenText(text);
    var n := Token(text);
    var rest, word := EscapeOutbound(text[n..]), text[1..n];
    assert '@' !in word && '<' !in word;
    assert EscapeOutbound(text) == [text[0], ZWSP] + word + rest;
    hide Token, EscapeOutbound, Contains;
    Collections.SameSeq([text[0], ZWSP] + word + rest, ['@'] + ([ZWSP] + word + rest));
    ContainsFrom('@', [ZWSP] + word + rest, w);
    if StartsWith([ZWSP] + word + rest, w) { StartsAlike([ZWSP] + word + rest, w); }
    hide StartsWith;
    SkipTo([ZWSP] + word, rest, ['@'] + w);
    Collections.SameSeq(text, (['@'] + word) + text[n..]);
    SkipTo(['@'] + word, text[n..], "<@" + w);
  }

  lemma EscapeAngle(text: string, w: string)
    requires text != "" && Token(text) == 2 && text[0] == '<' && (w == "everyone" || w == "here")
    requires Contains(EscapeOutbound(text[2..]), ['@'] + w) <==> Contains(text[2..], "<@" + w)
    requires StartsWith(EscapeOutbound(text[2..]), w) <==> StartsWith(text[2..], w)
    ensures Contains(EscapeOutbound(text), ['@'] + w) <==> Contains(text, "<@" + w)
  {
    TokenText(text);
    var rest, x := EscapeOutbound(text[2..]), text[1];
    assert text[1..2] == [x] && EscapeOutbound(text) == [text[0], ZWSP] + text[1..2] + rest;
    hide Contains, StartsWith, EscapeOutbound, Token;
    Collections.SameSeq([text[0], ZWSP] + text[1..2] + rest, ['<', ZWSP] + ([x] + rest));
    SkipTo(['<', ZWSP], [x] + rest, ['@'] + w);
    ContainsFrom(x, rest, w);
    ContainsTagged(text, w);
    Collections.SameSeq(text[1..], [x] + text[2..]);
    SkipTo([x], text[2..], "<@" + w);
    StartsSplit(x, text[2..], w);
  }

  lemma StartsSplit(x: char, t: string, w: string)
    ensures StartsWith([x] + t, ['@'] + w) <==> x == '@' && StartsWith(t, w)
  {
    Collections.SameSeq((['@'] + w)[1..], w);
    Collections.SameSeq(([x] + t)[1..], t);
    if x == '@' {
      StartsOneOn([x] + t, ['@'] + w);
    } else if StartsWith([x] + t, ['@'] + w) {
      StartsAlike([x] + t, ['@'] + w);
    }
  }

  lemma {:induction false} EscapeOnlyAdds(text: string)
    ensures |EscapeOutbound(text)| >= |text|
    ensures Token(text) > 0 ==> |EscapeOutbound(text)| > |text|
  {
    if text != "" {
      var n := Token(text);
      EscapeOnlyAdds(text[if n > 0 then n else 1..]);
      TokenText(text);
    }
  }

  /** One of the four openings somewhere in a text. */
  predicate HoldsOpening(text: string) {
    Contains(text, "<@") || Contains(text, "<#") || Contains(text, "@everyone") || Contains(text, "@here")
  }

  /** A text is changed exactly when it holds one of the four openings. */
  lemma {:induction false} UntouchedExactly(text: string)
    ensures EscapeOutbound(text) == text <==> !HoldsOpening(text)
  {
    EscapeOnlyAdds(text);
    if text != "" && Token(text) == 0 {
      UntouchedExactly(text[1..]);
      assert text == [text[0]] + text[1..];
      assert EscapeOutbound(text)[1..] == EscapeOutbound(text[1..]);
      hide StartsWith;
    }
  }

  // --- names become mentions ------------------------------------------------

  /** Which runes are letters or numbers, and the Discord id a name resolves to. */
  datatype Directory = Directory(isLetter: char -> bool, resolve: string -> Option<string>)

  ghost predicate ValidDirectory(dir: Directory) {
    && !dir.isLetter('@') && !dir.isLetter('<') && !dir.isLetter('#')
    && (forall name :: dir.resolve(name).Some? ==> IsId(dir.resolve(name).value))
  }

  /** Discord ids are numbers. */
  predicate IsId(id: string) {
    forall i :: 0 <= i < |id| ==> '0' <= id[i] <= '9'
  }

  predicate IsNameRune(dir: Directory, c: char) {
    dir.isLetter(c) || c == '_' || c == '.' || c == '-'
  }

  /** How many runes of a name the text starts with, up to a limit. */
  function NameRun(dir: Directory, text: string, limit: nat): (n: nat)
    ensures n <= |text| && n <= limit
    ensures forall i :: 0 <= i < n ==> IsNameRune(dir, text[i])
    ensures n < limit && n < |text| ==> !IsNameRune(dir, text[n])
  {
    if text == "" || limit == 0 || !IsNameRune(dir, text[0]) then 0
    else 1 + NameRun(dir, text[1..], limit - 1)
  }

  /** The output in the order it is written: text as it was, and mentions put in. */
  datatype Piece = Plain(text: string) | Mention(name: string, id: string)
  {
    function Written(): string {
      if Plain? then text else "<@" + id + ">"
    }

    /** What the piece replaced. */
    function Spoken(): string {
      if Plain? then text else "@" + name
    }
  }

  function Cut(dir: Directory, text: string): (first: (Piece, nat))
    requires text != ""
    ensures 0 < first.1 <= |text| && first.0.Spoken() == text[..first.1]
  {
    var n := if text[0] == '@' then NameRun(dir, text[1..], MAX_NAME) else 0;
    if n == 0 then (Plain(text[..1]), 1)
    else
      var name := text[1..n + 1];
      match dir.resolve(name)
      case None => (Plain(text[..n + 1]), n + 1)
      case Some(id) => (Mention(name, id), n + 1)
  }

  function Pieces(dir: Directory, text: string): seq<Piece> {
    if text == "" then [] else [Cut(dir, text).0] + Pieces(dir, text[Cut(dir, text).1..])
  }

  function Joined(pieces: seq<Piece>): string {
    if pieces == [] then "" else pieces[0].Written() + Joined(pieces[1..])
  }

  function RewriteMentions(dir: Directory, text: string): string {
    Joined(Pieces(dir, text))
  }

  function Unwritten(pieces: seq<Piece>): string {
    if pieces == [] then "" else pieces[0].Spoken() + Unwritten(pieces[1..])
  }

  /** Put each mention's name back and the text is the one that came in: nothing else was touched. */
  lemma {:induction false} RewritingOnlyTouchesMentions(dir: Directory, text: string)
    ensures Unwritten(Pieces(dir, text)) == text
  {
    if text != "" {
      var first := Cut(dir, text);
      RewritingOnlyTouchesMentions(dir, text[first.1..]);
      assert Pieces(dir, text)[1..] == Pieces(dir, text[first.1..]);
      Collections.SameSeq(text[..first.1] + text[first.1..], text);
    }
  }

  /** A name is left as it was written exactly when nobody answers to it. */
  lemma {:induction false} MentionsResolve(dir: Directory, text: string, i: nat)
    requires i < |Pieces(dir, text)|
    ensures var p := Pieces(dir, text)[i];
      && (p.Mention? ==> dir.resolve(p.name) == Some(p.id))
      && (p.Plain? && |p.text| > 1 ==> p.text[0] == '@' && dir.resolve(p.text[1..]).None?)
  {
    var first := Cut(dir, text);
    if i > 0 {
      MentionsResolve(dir, text[first.1..], i - 1);
    } else {
      var n := if text[0] == '@' then NameRun(dir, text[1..], MAX_NAME) else 0;
      if n > 0 { Collections.SameSeq(text[..n + 1][1..], text[1..n + 1]); }
    }
  }

  predicate OfAName(dir: Directory, c: char) {
    dir.isLetter(c) || c in ['_', '.', '-']
  }

  /** An "@" and as much of a name behind it as is there, up to 64 runes. */
  predicate Candidate(dir: Directory, text: string, k: nat, n: nat) {
    && k + 1 + n <= |text| && text[k] == '@' && 1 <= n <= 64
    && (forall j :: k < j <= k + n ==> OfAName(dir, text[j]))
    && (n == 64 || k + 1 + n == |text| || !OfAName(dir, text[k + 1 + n]))
  }

  /** Where a piece begins in the text that came in. */
  ghost function Begins(pieces: seq<Piece>, i: nat): nat
    requires i <= |pieces|
  {
    if i == 0 then 0 else |pieces[0].Spoken()| + Begins(pieces[1..], i - 1)
  }

  /** What is written for an "@" with a name: a mention if the name resolves, itself if not. */
  function LookedUp(dir: Directory, spoken: string): Piece
    requires spoken != ""
  {
    match dir.resolve(spoken[1..])
    case None => Plain(spoken)
    case Some(id) => Mention(spoken[1..], id)
  }

  lemma CutCandidate(dir: Directory, text: string, n: nat)
    requires Candidate(dir, text, 0, n)
    ensures Cut(dir, text) == (LookedUp(dir, text[0..1 + n]), n + 1)
  {
    assert text[0..1 + n][1..] == text[1..1 + n];
    assert forall j :: 0 <= j < n ==> IsNameRune(dir, text[1..][j]) by {
      assert forall j :: 0 <= j < n ==> text[1..][j] == text[j + 1];
    }
    assert n < 64 && n < |text[1..]| ==> !IsNameRune(dir, text[1..][n]);
    assert NameRun(dir, text[1..], MAX_NAME) == n;
  }

  /** Nothing before an "@" swallows it. */
  lemma CutStops(dir: Directory, text: string, k: nat)
    requires !dir.isLetter('@') && 0 < k < |text| && text[k] == '@'
    ensures Cut(dir, text).1 <= k
  {
    var n := NameRun(dir, text[1..], MAX_NAME);
    assert k <= n ==> IsNameRune(dir, text[1..][k - 1]);
  }

  lemma CandidateLater(dir: Directory, text: string, m: nat, k: nat, n: nat)
    requires m <= k && k + 1 + n <= |text|
    ensures Candidate(dir, text, k, n) <==> Candidate(dir, text[m..], k - m, n)
    ensures text[m..][k - m..k - m + 1 + n] == text[k..k + 1 + n]
  {
    var rest := text[m..];
    assert forall j :: k <= j < |text| ==> rest[j - m] == text[j];
    assert forall j :: k - m <= j < |rest| ==> rest[j] == text[j + m];
  }

  lemma PiecesLater(dir: Directory, text: string, i: nat)
    requires text != "" && i < |Pieces(dir, text[Cut(dir, text).1..])|
    ensures var m := Cut(dir, text).1;
      && i + 1 < |Pieces(dir, text)| && Pieces(dir, text)[i + 1] == Pieces(dir, text[m..])[i]
      && Begins(Pieces(dir, text), i + 1) == m + Begins(Pieces(dir, text[m..]), i)
  {
    var m := Cut(dir, text).1;
    assert Pieces(dir, text)[1..] == Pieces(dir, text[m..]);
    hide Cut;
  }

  /**
    Every "@" with a name behind it, wherever it stands, is taken for that whole
    name: a mention of whom it resolves to, or left as it was if of nobody.
   */
  lemma {:induction false} EveryNameIsLookedUp(dir: Directory, text: string, k: nat, n: nat) returns (i: nat)
    requires !dir.isLetter('@') && k + 1 + n <= |text| && Candidate(dir, text, k, n)
    ensures i < |Pieces(dir, text)| && Begins(Pieces(dir, text), i) == k
    ensures Pieces(dir, text)[i] == LookedUp(dir, text[k..k + 1 + n])
    decreases |text|
  {
    hide Candidate, Pieces, Begins, LookedUp, Cut;
    if k == 0 {
      NameAtStart(dir, text, n);
      i := 0;
    } else {
      var m := PassedOver(dir, text, k, n);
      var at := EveryNameIsLookedUp(dir, text[m..], k - m, n);
      FoundLater(dir, text, m, k, n, at);
      i := at + 1;
    }
  }

  /** How much goes before the name is looked at again. */
  lemma PassedOver(dir: Directory, text: string, k: nat, n: nat) returns (m: nat)
    requires !dir.isLetter('@') && Candidate(dir, text, k, n) && k > 0
    ensures text != "" && m == Cut(dir, text).1 && 0 < m <= k && m <= |text|
    ensures Candidate(dir, text[m..], k - m, n)
  {
    CandidateWithin(dir, text, k, n);
    CutStops(dir, text, k);
    m := Cut(dir, text).1;
    CandidateLater(dir, text, m, k, n);
  }

  lemma FoundLater(dir: Directory, text: string, m: nat, k: nat, n: nat, at: nat)
    requires text != "" && m == Cut(dir, text).1 && m <= k && k + 1 + n <= |text|
    requires at < |Pieces(dir, text[m..])| && Begins(Pieces(dir, text[m..]), at) == k - m
    requires Pieces(dir, text[m..])[at] == LookedUp(dir, text[m..][k - m..k - m + 1 + n])
    ensures at + 1 < |Pieces(dir, text)| && Begins(Pieces(dir, text), at + 1) == k
    ensures Pieces(dir, text)[at + 1] == LookedUp(dir, text[k..k + 1 + n])
  {
    CandidateLater(dir, text, m, k, n);
    PiecesLater(dir, text, at);
    hide Candidate, Pieces, Begins, LookedUp, Cut;
  }

  /** A mention stands where such a name stood. */
  ghost predicate StoodThere(dir: Directory, text: string, i: nat) {
    i < |Pieces(dir, text)| && Pieces(dir, text)[i].Mention? ==>
      Candidate(dir, text, Begins(Pieces(dir, text), i), |Pieces(dir, text)[i].name|)
  }

  lemma FirstStoodThere(dir: Directory, text: string)
    ensures StoodThere(dir, text, 0)
  {
    if text != "" && Cut(dir, text).0.Mention? { CutIsCandidate(dir, text); }
    hide Candidate, Cut;
  }

  lemma LaterStoodThere(dir: Directory, text: string, i: nat)
    requires text != "" && StoodThere(dir, text[Cut(dir, text).1..], i)
    ensures StoodThere(dir, text, i + 1)
  {
    PiecesStep(dir, text);
    var m := Cut(dir, text).1;
    hide Cut, Candidate, Pieces, Begins;
    if i < |Pieces(dir, text[m..])| {
      PiecesLater(dir, text, i);
      var p := Pieces(dir, text[m..])[i];
      if p.Mention? { MovedOn(dir, text, m, Begins(Pieces(dir, text), i + 1), |p.name|); }
    }
  }

  lemma NoneStoodThere(dir: Directory, i: nat)
    ensures StoodThere(dir, "", i)
  {}

  /** And nothing else is taken for one. */
  lemma {:induction false} MentionsAreNames(dir: Directory, text: string, i: nat)
    ensures StoodThere(dir, text, i)
    decreases |text|
  {
    hide StoodThere, Cut;
    if i == 0 {
      FirstStoodThere(dir, text);
    } else if text == "" {
      NoneStoodThere(dir, i);
    } else {
      MentionsAreNames(dir, text[Cut(dir, text).1..], i - 1);
      LaterStoodThere(dir, text, i - 1);
    }
  }

  lemma MovedOn(dir: Directory, text: string, m: nat, k: nat, n: nat)
    requires m <= |text| && m <= k && Candidate(dir, text[m..], k - m, n)
    ensures Candidate(dir, text, k, n)
  {
    CandidateWithin(dir, text[m..], k - m, n);
    CandidateLater(dir, text, m, k, n);
    hide Candidate;
  }

  lemma PiecesStep(dir: Directory, text: string)
    requires text != ""
    ensures |Pieces(dir, text)| == 1 + |Pieces(dir, text[Cut(dir, text).1..])|
    ensures Pieces(dir, text)[0] == Cut(dir, text).0
  {
    hide Cut;
  }

  lemma CandidateWithin(dir: Directory, text: string, k: nat, n: nat)
    requires Candidate(dir, text, k, n)
    ensures k + 1 + n <= |text| && text[k] == '@'
  {}

  lemma NameAtStart(dir: Directory, text: string, n: nat)
    requires Candidate(dir, text, 0, n)
    ensures 0 < |Pieces(dir, text)| && Begins(Pieces(dir, text), 0) == 0
    ensures Pieces(dir, text)[0] == LookedUp(dir, text[0..1 + n])
  {
    CutCandidate(dir, text, n);
    hide Cut, Candidate, LookedUp;
  }

  lemma CutIsCandidate(dir: Directory, text: string)
    requires text != "" && Cut(dir, text).0.Mention?
    ensures Candidate(dir, text, 0, |Cut(dir, text).0.name|)
  {
    var n := NameRun(dir, text[1..], MAX_NAME);
    assert forall j :: 0 < j <= n ==> text[j] == text[1..][j - 1] && IsNameRune(dir, text[1..][j - 1]);
    assert n + 1 < |text| ==> text[n + 1] == text[1..][n];
  }

  /** Where a piece begins in the output. */
  ghost function Start(pieces: seq<Piece>, i: nat): nat
    requires i <= |pieces|
  {
    if i == 0 then 0 else |pieces[0].Written()| + Start(pieces[1..], i - 1)
  }

  ghost predicate TagAt(s: string, k: nat) {
    k + 1 < |s| && s[k] == '<' && s[k + 1] == '@'
  }

  ghost predicate MentionStarts(pieces: seq<Piece>, i: nat, k: nat) {
    i < |pieces| && pieces[i].Mention? && Start(pieces, i) == k
  }

  /** Inside one piece a tag can only be the mention's own. */
  lemma TagWithinPiece(dir: Directory, text: string, k: nat)
    requires ValidDirectory(dir) && text != "" && TagAt(Cut(dir, text).0.Written(), k)
    ensures k == 0 && Cut(dir, text).0.Mention?
  {
    var p, n := Cut(dir, text).0, Cut(dir, text).1;
    assert forall j :: 1 <= j < n ==> IsNameRune(dir, text[j]);
    if p.Mention? {
      assert dir.resolve(p.name) == Some(p.id);
      assert p.Written()[|p.id| + 2] == '>';
      assert forall j :: 2 <= j < |p.id| + 2 ==> p.Written()[j] == p.id[j - 2];
    }
  }

  lemma PieceEnds(dir: Directory, text: string)
    requires ValidDirectory(dir) && text != "" && NoMarkup(text)
    ensures var first := Cut(dir, text);
      var w := first.0.Written();
      && w != "" && (w[0] == '<' || w[0] == text[0])
      && (w[|w| - 1] == '<' && first.1 < |text| ==> text[first.1] != '@')
  {
    var p, n := Cut(dir, text).0, Cut(dir, text).1;
    if p.Mention? {
      assert p.Written()[|p.id| + 2] == '>';
    } else {
      assert p.text == text[..n];
    }
  }

  lemma RewrittenHead(dir: Directory, text: string)
    requires ValidDirectory(dir) && NoMarkup(text)
    ensures var out := RewriteMentions(dir, text);
      if text == "" then out == "" else out != "" && (out[0] == '<' || out[0] == text[0])
  {
    if text != "" {
      PieceEnds(dir, text);
      hide Cut;
      var p := Cut(dir, text).0;
      assert Pieces(dir, text)[0] == p;
    }
  }

  /** Text with no markup in it, once rewritten, has a "<@" only where a mention was put in. */
  lemma {:induction false} OnlyInsertedMentions(dir: Directory, text: string, k: nat) returns (i: nat)
    requires ValidDirectory(dir) && NoMarkup(text) && TagAt(RewriteMentions(dir, text), k)
    ensures MentionStarts(Pieces(dir, text), i, k)
  {
    var pieces, out := Pieces(dir, text), RewriteMentions(dir, text);
    var p, n := Cut(dir, text).0, Cut(dir, text).1;
    var w, rest := p.Written(), RewriteMentions(dir, text[n..]);
    PieceEnds(dir, text);
    RewrittenHead(dir, text[n..]);
    assert NoMarkup(text[n..]);
    assert pieces[0] == p && pieces[1..] == Pieces(dir, text[n..]);
    assert out == w + rest;
    hide NoMarkup, Cut, Pieces, Joined;
    if k + 1 < |w| {
      assert TagAt(w, k);
      TagWithinPiece(dir, text, k);
      i := 0;
    } else {
      assert k != |w| - 1 ==> k >= |w|;
      assert TagAt(rest, k - |w|);
      var j := OnlyInsertedMentions(dir, text[n..], k - |w|);
      i := j + 1;
    }
  }

  // --- who may be pinged ----------------------------------------------------

  /** The ids that may be pinged, with one more if the piece mentions a new one. */
  function Noted(known: seq<string>, p: Piece): seq<string> {
    if p.Mention? && p.id !in known then known + [p.id] else known
  }

  /** The ids mentioned, each once, in the order of their first mention. */
  function Allowed(known: seq<string>, pieces: seq<Piece>): seq<string>
    decreases |pieces|
  {
    if pieces == [] then known else Allowed(Noted(known, pieces[0]), pieces[1..])
  }

  ghost predicate Mentioned(pieces: seq<Piece>, id: string) {
    exists i :: 0 <= i < |pieces| && pieces[i].Mention? && pieces[i].id == id
  }

  lemma MentionedStep(pieces: seq<Piece>, id: string)
    requires pieces != []
    ensures Mentioned(pieces, id) <==> (pieces[0].Mention? && pieces[0].id == id) || Mentioned(pieces[1..], id)
  {
    if Mentioned(pieces[1..], id) {
      var i :| 0 <= i < |pieces[1..]| && pieces[1..][i].Mention? && pieces[1..][i].id == id;
      assert pieces[i + 1].Mention?;
    }
    if Mentioned(pieces, id) {
      var i :| 0 <= i < |pieces| && pieces[i].Mention? && pieces[i].id == id;
      assert i > 0 ==> pieces[1..][i - 1] == pieces[i];
    }
  }

  /** The list holds the ids of the mentions put in, all of them, each once, and no other. */
  lemma {:induction false} AllowedAreTheMentioned(known: seq<string>, pieces: seq<Piece>, id: string)
    requires Collections.Distinct(known)
    ensures Collections.Distinct(Allowed(known, pieces))
    ensures id in Allowed(known, pieces) <==> id in known || Mentioned(pieces, id)
    decreases |pieces|
  {
    if pieces != [] {
      AllowedAreTheMentioned(Noted(known, pieces[0]), pieces[1..], id);
      MentionedStep(pieces, id);
    }
  }

  lemma NextPiece(dir: Directory, text: string, done: string, known: seq<string>)
    requires text != ""
    ensures var first := Cut(dir, text);
      && done + RewriteMentions(dir, text)
         == (done + first.0.Written()) + RewriteMentions(dir, text[first.1..])
      && Allowed(known, Pieces(dir, text)) == Allowed(Noted(known, first.0), Pieces(dir, text[first.1..]))
  {
    var first := Cut(dir, text);
    assert Pieces(dir, text)[1..] == Pieces(dir, text[first.1..]);
    var rest := RewriteMentions(dir, text[first.1..]);
    Collections.SameSeq(done + (first.0.Written() + rest), (done + first.0.Written()) + rest);
  }

  lemma NoMorePieces(dir: Directory, done: string, known: seq<string>)
    ensures done + RewriteMentions(dir, "") == done
    ensures Allowed(known, Pieces(dir, "")) == known
  {
    Collections.SameSeq(done + "", done);
  }

  /** resolveOutboundMentions; without a guild or a client the text goes out as it is and nobody is pinged. */
  method ResolveOutboundMentions(dir: Option<Directory>, text: string)
    returns (rewritten: string, allowed: seq<string>)
    ensures dir.None? ==> rewritten == text && allowed == []
    ensures dir.Some? ==> rewritten == RewriteMentions(dir.value, text)
    ensures dir.Some? ==> allowed == Allowed([], Pieces(dir.value, text))
  {
    if dir.None? {
      return text, [];
    }
    hide *;
    var rest := text;
    rewritten, allowed := "", [];
    Collections.SameSeq("" + RewriteMentions(dir.value, text), RewriteMentions(dir.value, text));
    while rest != ""
      invariant rewritten + RewriteMentions(dir.value, rest) == RewriteMentions(dir.value, text)
      invariant Allowed(allowed, Pieces(dir.value, rest)) == Allowed([], Pieces(dir.value, text))
      decreases |rest|
    {
      var first := Cut(dir.value, rest);
      NextPiece(dir.value, rest, rewritten, allowed);
      rewritten, allowed := rewritten + first.0.Written(), Noted(allowed, first.0);
      rest := rest[first.1..];
    }
    NoMorePieces(dir.value, rewritten, allowed);
  }

  // --- cutting to size ------------------------------------------------------

  function Truncated(s: string, n: int): (r: string)
    ensures n >= 0 ==> |r| <= n
    ensures n > 0 && |s| <= n ==> r == s
    ensures n > 0 && |s| > n ==> |r| == n && r[..n - 1] == s[..n - 1] && r[n - 1] == ELLIPSIS
  {
    if n <= 0 then "" else if |s| <= n then s else s[..n - 1] + [ELLIPSIS]
  }

  method TruncateRunes(s: string, n: int) returns (r: string)
    ensures r == Truncated(s, n)
  {
    if n <= 0 {
      return "";
    }
    if |s| <= n {
      return s;
    }
    var count := 0;
    for i := 0 to |s|
      invariant count == i <= n - 1
    {
      if count == n - 1 {
        return s[..i] + [ELLIPSIS];
      }
      count := count + 1;
    }
    return s;
  }

  /** What a message's text becomes on Discord. */
  function Rendered(dir: Directory, text: string): string {
    Truncated(RewriteMentions(dir, EscapeOutbound(text)), MAX_MESSAGE_RUNES)
  }

  /**
    Whatever was typed: the text sent fits the limit, and every "<@" in it is the
    beginning of a mention put in for a name that resolves to an allowed id.
   */
  lemma EveryTagIsAllowed(dir: Directory, text: string, k: nat) returns (i: nat)
    requires ValidDirectory(dir) && TagAt(Rendered(dir, text), k)
    ensures |Rendered(dir, text)| <= MAX_MESSAGE_RUNES
    ensures var pieces := Pieces(dir, EscapeOutbound(text));
      && MentionStarts(pieces, i, k)
      && dir.resolve(pieces[i].name) == Some(pieces[i].id)
      && pieces[i].id in Allowed([], pieces)
  {
    var escaped := EscapeOutbound(text);
    var pieces, out := Pieces(dir, escaped), RewriteMentions(dir, escaped);
    EscapedHasNoMarkup(text);
    hide EscapeOutbound, NoMarkup, Pieces, Joined, ValidDirectory;
    assert TagAt(out, k) by {
      var r := Rendered(dir, text);
      assert |out| > MAX_MESSAGE_RUNES ==> r[..|r| - 1][k] == out[..|r| - 1][k];
      assert |out| > MAX_MESSAGE_RUNES && k + 1 < |r| - 1 ==> r[..|r| - 1][k + 1] == out[..|r| - 1][k + 1];
    }
    i := OnlyInsertedMentions(dir, escaped, k);
    MentionsResolve(dir, escaped, i);
    AllowedAreTheMentioned([], pieces, pieces[i].id);
  }
}
