/**
  What one connection has said recently, and the two rules about pace that read
  it: flooding and repetition.

  Instants are whole nanoseconds off a monotonic clock. A connection's messages
  are screened one after another on its read loop, so instants never go back.
 */
module PaceHistory {
  import Collections

  const SECOND: int := 1_000_000_000
  /** How far back the rules about pace ever look. */
  const RECENT_WINDOW: int := 60 * SECOND
  /** How many messages are remembered whatever the configured window is. */
  const MAX_RECENT: nat := 32

  datatype RecentMessage = RecentMessage(at: int, folded: string)

  ghost predicate Sorted(s: seq<RecentMessage>) {
    forall i, j :: 0 <= i < j < |s| ==> s[i].at <= s[j].at
  }

  lemma InOrderAt(s: seq<RecentMessage>, i: nat, j: nat)
    requires Sorted(s) && i <= j < |s|
    ensures s[i].at <= s[j].at
  {}

  lemma SuffixSorted(s: seq<RecentMessage>, k: nat)
    requires Sorted(s) && k <= |s|
    ensures Sorted(s[k..])
  {}

  lemma AppendSorted(s: seq<RecentMessage>, m: RecentMessage)
    requires Sorted(s) && (s != [] ==> s[|s| - 1].at <= m.at)
    ensures Sorted(s + [m])
  {}

  /** How many messages were written strictly after an instant. */
  ghost function CountAfter(s: seq<RecentMessage>, cutoff: int): nat {
    if s == [] then 0
    else CountAfter(s[..|s| - 1], cutoff) + if s[|s| - 1].at > cutoff then 1 else 0
  }

  /** The messages not yet aged out at an instant, in order. */
  ghost function Unaged(s: seq<RecentMessage>, now: int): seq<RecentMessage> {
    if s == [] then []
    else Unaged(s[..|s| - 1], now) + if now - s[|s| - 1].at <= RECENT_WINDOW then [s[|s| - 1]] else []
  }

  /** The short history after one more message. */
  ghost function Remembered(recent: seq<RecentMessage>, now: int, folded: string): seq<RecentMessage> {
    var all := Unaged(recent, now) + [RecentMessage(now, folded)];
    if |all| > MAX_RECENT then all[|all| - MAX_RECENT..] else all
  }

  /** Whether the last `times` messages all fold to the same text. */
  ghost predicate EndsInRun(s: seq<RecentMessage>, times: nat, folded: string) {
    times <= |s| && forall i :: |s| - times <= i < |s| ==> s[i].folded == folded
  }

  /** And the first of them was written within a window of the last. */
  ghost predicate EndsInRecentRun(s: seq<RecentMessage>, times: nat, folded: string)
    requires times > 0
  {
    EndsInRun(s, times, folded) && s[|s| - 1].at - s[|s| - times].at <= RECENT_WINDOW
  }

  // --- the short history against the whole transcript -----------------------

  /**
    A short history stands for a transcript when it is the end of it, reaches
    back no further than the window, and stops short of the whole only because
    the window or the bound cut it there.
   */
  ghost predicate StandsFor(recent: seq<RecentMessage>, transcript: seq<RecentMessage>) {
    var n, k := |transcript|, |transcript| - |recent|;
    && Sorted(transcript)
    && |recent| <= MAX_RECENT
    && k >= 0 && recent == transcript[k..]
    && (n > 0 ==> |recent| > 0 && transcript[n - 1].at - transcript[k].at <= RECENT_WINDOW)
    && (k > 0 ==> |recent| == MAX_RECENT || transcript[n - 1].at - transcript[k - 1].at > RECENT_WINDOW)
  }

  lemma {:induction false} CountAfterSplits(s: seq<RecentMessage>, t: seq<RecentMessage>, cutoff: int)
    ensures CountAfter(s + t, cutoff) == CountAfter(s, cutoff) + CountAfter(t, cutoff)
  {
    if t == [] {
      assert s + t == s;
    } else {
      assert (s + t)[..|s + t| - 1] == s + t[..|t| - 1];
      CountAfterSplits(s, t[..|t| - 1], cutoff);
    }
  }

  lemma {:induction false} CountNone(s: seq<RecentMessage>, cutoff: int)
    requires forall i :: 0 <= i < |s| ==> s[i].at <= cutoff
    ensures CountAfter(s, cutoff) == 0
  {
    if s != [] { CountNone(s[..|s| - 1], cutoff); }
  }

  lemma {:induction false} CountAll(s: seq<RecentMessage>, cutoff: int)
    requires forall i :: 0 <= i < |s| ==> s[i].at > cutoff
    ensures CountAfter(s, cutoff) == |s|
  {
    if s != [] { CountAll(s[..|s| - 1], cutoff); }
  }

  lemma {:induction false} UnagedNone(s: seq<RecentMessage>, now: int)
    requires forall i :: 0 <= i < |s| ==> now - s[i].at > RECENT_WINDOW
    ensures Unaged(s, now) == []
  {
    if s != [] { UnagedNone(s[..|s| - 1], now); }
  }

  /** In order, every message from a counted one on is counted too. */
  lemma CountAtLeast(s: seq<RecentMessage>, i: nat, cutoff: int)
    requires Sorted(s) && i <= |s| && (i < |s| ==> s[i].at > cutoff)
    ensures CountAfter(s, cutoff) >= |s| - i
  {
    assert s == s[..i] + s[i..];
    CountAfterSplits(s[..i], s[i..], cutoff);
    CountAll(s[i..], cutoff);
  }

  /** Of messages in order, the ones not aged out are the last so many. */
  lemma {:induction false} UnagedIsSuffix(s: seq<RecentMessage>, now: int) returns (j: nat)
    requires Sorted(s)
    ensures j <= |s| && Unaged(s, now) == s[j..]
    ensures j > 0 ==> now - s[j - 1].at > RECENT_WINDOW
    ensures j < |s| ==> now - s[j].at <= RECENT_WINDOW
  {
    if s == [] {
      j := 0;
    } else if now - s[|s| - 1].at > RECENT_WINDOW {
      UnagedNone(s, now);
      j := |s|;
    } else {
      var init, last := s[..|s| - 1], s[|s| - 1];
      assert Sorted(init) && Unaged(s, now) == Unaged(init, now) + [last];
      hide Sorted, Unaged;
      j := UnagedIsSuffix(init, now);
      Collections.SameSeq(s[j..], init[j..] + [last]);
      assert j > 0 ==> init[j - 1] == s[j - 1];
      assert j < |init| ==> init[j] == s[j];
    }
  }

  /** Remembering one more message leaves some end of the transcript so far. */
  lemma RememberedIsSuffix(
      recent: seq<RecentMessage>, transcript: seq<RecentMessage>, now: int, folded: string)
      returns (start: nat)
    requires |recent| <= |transcript| && recent == transcript[|transcript| - |recent|..] && Sorted(recent)
    ensures var whole := transcript + [RecentMessage(now, folded)];
      && |transcript| - |recent| <= start < |whole|
      && Remembered(recent, now, folded) == whole[start..]
      && |whole| - start <= MAX_RECENT
      && (start > |transcript| - |recent| ==>
            |whole| - start == MAX_RECENT || now - whole[start - 1].at > RECENT_WINDOW)
      && (start < |transcript| ==> now - whole[start].at <= RECENT_WINDOW)
  {
    var last := RecentMessage(now, folded);
    var whole, k := transcript + [last], |transcript| - |recent|;
    var j := UnagedIsSuffix(recent, now);
    hide Unaged;
    start := if |whole| - (k + j) > MAX_RECENT then |whole| - MAX_RECENT else k + j;
    if start < |transcript| {
      InOrderAt(recent, j, start - k);
      assert whole[start] == recent[start - k];
    }
    hide Sorted;
    RememberedSlice(recent, transcript, now, folded, j);
    assert j > 0 ==> whole[k + j - 1] == recent[j - 1];
  }

  lemma RememberedSlice(
      recent: seq<RecentMessage>, transcript: seq<RecentMessage>, now: int, folded: string, j: nat)
    requires |recent| <= |transcript| && recent == transcript[|transcript| - |recent|..]
    requires j <= |recent| && Unaged(recent, now) == recent[j..]
    ensures var whole, k := transcript + [RecentMessage(now, folded)], |transcript| - |recent|;
      Remembered(recent, now, folded)
      == whole[if |whole| - (k + j) > MAX_RECENT then |whole| - MAX_RECENT else k + j..]
  {
    var whole, k := transcript + [RecentMessage(now, folded)], |transcript| - |recent|;
    var all := recent[j..] + [RecentMessage(now, folded)];
    hide Unaged;
    WholeEnd(transcript, k, j, RecentMessage(now, folded));
    assert all == whole[k + j..];
    if |all| > MAX_RECENT {
      Collections.SliceOfSlice(whole, k + j, |whole|, |all| - MAX_RECENT, |all|);
    }
  }

  lemma WholeEnd<T>(s: seq<T>, k: nat, j: nat, x: T)
    requires k + j <= |s|
    ensures s[k..][j..] + [x] == (s + [x])[k + j..]
  {
    Collections.SameSeq(s[k..][j..] + [x], (s + [x])[k + j..]);
  }

  /** Remembering one more message keeps the short history standing for the whole. */
  lemma RememberedStandsFor(
      recent: seq<RecentMessage>, transcript: seq<RecentMessage>, now: int, folded: string)
    requires StandsFor(recent, transcript)
    requires transcript != [] ==> transcript[|transcript| - 1].at <= now
    ensures StandsFor(Remembered(recent, now, folded), transcript + [RecentMessage(now, folded)])
  {
    var k, last := |transcript| - |recent|, RecentMessage(now, folded);
    var whole := transcript + [last];
    SuffixSorted(transcript, k);
    AppendSorted(transcript, last);
    hide Sorted, Remembered;
    var start := RememberedIsSuffix(recent, transcript, now, folded);
    assert start > 0 ==> |whole| - start == MAX_RECENT || now - whole[start - 1].at > RECENT_WINDOW;
    SuffixStandsFor(whole, start);
  }

  lemma SuffixStandsFor(whole: seq<RecentMessage>, start: nat)
    requires Sorted(whole) && start < |whole| && |whole| - start <= MAX_RECENT
    requires whole[|whole| - 1].at - whole[start].at <= RECENT_WINDOW
    requires start > 0 ==>
      |whole| - start == MAX_RECENT || whole[|whole| - 1].at - whole[start - 1].at > RECENT_WINDOW
    ensures StandsFor(whole[start..], whole)
  {
    hide Sorted;
  }

  /** The flood decision needs no more than the short history. */
  lemma FloodDecisionRefines(
      recent: seq<RecentMessage>, transcript: seq<RecentMessage>, messages: int, seconds: int, now: int)
    requires StandsFor(recent, transcript)
    requires transcript != [] ==> transcript[|transcript| - 1].at <= now
    requires messages <= MAX_RECENT && seconds * SECOND <= RECENT_WINDOW
    ensures CountAfter(recent, now - seconds * SECOND) >= messages
       <==> CountAfter(transcript, now - seconds * SECOND) >= messages
  {
    var cutoff, k := now - seconds * SECOND, |transcript| - |recent|;
    assert transcript == transcript[..k] + recent;
    CountAfterSplits(transcript[..k], recent, cutoff);
    if k > 0 {
      if transcript[k - 1].at <= cutoff {
        CountNone(transcript[..k], cutoff);
      } else {
        CountAll(recent, cutoff);
      }
    }
  }

  /**
    The repetition decision, read off the whole transcript: the last `times`
    messages say the same thing and were written within the window.
   */
  lemma RepeatDecisionRefines(
      recent: seq<RecentMessage>, transcript: seq<RecentMessage>, times: nat, folded: string)
    requires StandsFor(recent, transcript) && 0 < times <= MAX_RECENT
    ensures EndsInRun(recent, times, folded) <==> EndsInRecentRun(transcript, times, folded)
  {
    var n, k := |transcript|, |transcript| - |recent|;
    assert forall i :: 0 <= i < |recent| ==> recent[i] == transcript[k + i];
    if times <= |recent| {
      assert forall i :: n - times <= i < n ==> transcript[i] == recent[i - k];
    }
  }

  // --- one connection's history ---------------------------------------------

  class History {
    var recent: seq<RecentMessage>
    /** Everything that ever passed screening on this connection. */
    ghost var transcript: seq<RecentMessage>

    ghost predicate Valid()
      reads this
    {
      StandsFor(recent, transcript)
    }

    ghost predicate NotBefore(now: int)
      reads this
    {
      transcript != [] ==> transcript[|transcript| - 1].at <= now
    }

    constructor ()
      ensures Valid() && transcript == []
    {
      recent, transcript := [], [];
    }

    method RememberMessage(now: int, folded: string)
      requires Valid() && NotBefore(now)
      modifies this
      ensures Valid() && transcript == old(transcript) + [RecentMessage(now, folded)]
      ensures recent == Remembered(old(recent), now, folded) && |recent| <= MAX_RECENT
    {
      hide StandsFor;
      var kept := [];
      for i := 0 to |recent|
        invariant kept == Unaged(recent[..i], now)
      {
        assert recent[..i + 1][..i] == recent[..i];
        if now - recent[i].at <= RECENT_WINDOW {
          kept := kept + [recent[i]];
        }
      }
      assert recent[..|recent|] == recent;
      RememberedStandsFor(recent, transcript, now, folded);
      recent := kept + [RecentMessage(now, folded)];
      if |recent| > MAX_RECENT {
        recent := recent[|recent| - MAX_RECENT..];
      }
      transcript := transcript + [RecentMessage(now, folded)];
    }

    /** Whether this message would be one too many, counted over everything ever accepted. */
    method Flooding(messages: int, seconds: int, now: int) returns (fires: bool)
      requires Valid() && NotBefore(now)
      ensures fires ==> messages > 0 && seconds > 0
      ensures messages >= 0 && seconds >= 0 ==> (fires <==> Floods(recent, Rules(messages, seconds, 0), now))
      ensures messages > 0 && seconds > 0 ==> (fires <==> CountAfter(recent, now - seconds * SECOND) >= messages)
      ensures 0 < messages <= MAX_RECENT && 0 < seconds * SECOND <= RECENT_WINDOW ==>
        (fires <==> CountAfter(transcript, now - seconds * SECOND) >= messages)
    {
      if messages <= 0 || seconds <= 0 {
        return false;
      }
      var cutoff := now - seconds * SECOND;
      hide CountAfter;
      assert Floods(recent, Rules(messages, seconds, 0), now) <==> CountAfter(recent, cutoff) >= messages;
      hide StandsFor, Floods;
      if messages <= MAX_RECENT && seconds * SECOND <= RECENT_WINDOW {
        FloodDecisionRefines(recent, transcript, messages, seconds, now);
      }
      var seen := SeenAfter(cutoff);
      return seen >= messages;
    }

    /** How many remembered messages were written after an instant. */
    method SeenAfter(cutoff: int) returns (seen: nat)
      ensures seen == CountAfter(recent, cutoff)
    {
      seen := 0;
      for i := 0 to |recent|
        invariant seen == CountAfter(recent[..i], cutoff)
      {
        assert recent[..i + 1][..i] == recent[..i];
        if recent[i].at > cutoff {
          seen := seen + 1;
        }
      }
      assert recent[..|recent|] == recent;
    }

    /** Whether this message is the same as the last few, read over everything ever accepted. */
    method Repeating(times: int, folded: string) returns (fires: bool)
      requires Valid()
      ensures fires <==> times > 0 && folded != "" && EndsInRun(recent, times, folded)
      ensures times >= 0 ==> (fires <==> Repeats(recent, Rules(0, 0, times), folded))
      ensures 0 < times <= MAX_RECENT ==> (fires <==> folded != "" && EndsInRecentRun(transcript, times, folded))
    {
      if times <= 0 || folded == "" {
        return false;
      }
      if times <= MAX_RECENT {
        RepeatDecisionRefines(recent, transcript, times, folded);
      }
      hide StandsFor, EndsInRun, EndsInRecentRun;
      fires := EndsAlike(times, folded);
    }

    /** Whether the last so many remembered messages say one thing. */
    method EndsAlike(times: nat, folded: string) returns (alike: bool)
      requires times > 0
      ensures alike <==> EndsInRun(recent, times, folded)
    {
      var run, i := 0, |recent|;
      while i > 0
        invariant 0 <= i <= |recent| && run == |recent| - i < times
        invariant forall j :: i <= j < |recent| ==> recent[j].folded == folded
      {
        i := i - 1;
        if recent[i].folded != folded {
          return false;
        }
        run := run + 1;
        if run >= times {
          return true;
        }
      }
      return false;
    }
  }

  // --- whole runs under a fixed rule set ------------------------------------

  /** The pace rules in force; a limit of zero switches its rule off. */
  datatype Rules = Rules(messages: nat, seconds: nat, times: nat)

  /** Within what the short history can decide. */
  ghost predicate Normalised(rules: Rules) {
    rules.messages <= 30 && rules.seconds <= 60 && rules.times <= 20
  }

  function Distance(a: int, b: int): nat {
    if a < b then b - a else a - b
  }

  /** A setting brought to the nearest value within its bounds; one left out takes the fallback. */
  function Clamp(value: int, low: nat, high: nat, fallback: nat): (r: nat)
    requires low <= fallback <= high
    ensures low <= r <= high && (value == 0 ==> r == fallback)
    ensures value != 0 ==> forall x :: low <= x <= high ==> Distance(r, value) <= Distance(x, value)
  {
    if value == 0 then fallback
    else if value < low then low
    else if value > high then high
    else value
  }

  /** A setting within its bounds as given, one left out the fallback, and any other the bound it passes. */
  function Kept(value: int, low: int, high: int, fallback: int): int {
    if value != 0 && low <= value <= high then value
    else if value == 0 then fallback
    else if value > high then high
    else low
  }

  /** What normaliseAutoMod makes of the pace settings, whatever arrives or is read back. */
  function NormalisedRules(messages: int, seconds: int, times: int): (rules: Rules)
    ensures Normalised(rules) && rules.messages > 0 && rules.seconds > 0 && rules.times > 0
    ensures rules.messages == Kept(messages, 2, 30, 5) && rules.seconds == Kept(seconds, 1, 60, 5)
    ensures rules.times == Kept(times, 2, 20, 3)
  {
    Rules(Clamp(messages, 2, 30, 5), Clamp(seconds, 1, 60, 5), Clamp(times, 2, 20, 3))
  }

  /** Settings already stored read back the same. */
  lemma NormalisingTwiceChangesNothing(messages: int, seconds: int, times: int)
    ensures var r := NormalisedRules(messages, seconds, times);
      NormalisedRules(r.messages, r.seconds, r.times) == r
  {}

  /**
    One message somebody tries to send: when the pace rules look at it, when it
    would be remembered, and whether a rule about its content refuses it.
   */
  datatype Attempt = Attempt(checkedAt: int, rememberedAt: int, folded: string, refused: bool)

  ghost predicate InOrder(attempts: seq<Attempt>) {
    && (forall i :: 0 <= i < |attempts| ==> attempts[i].checkedAt <= attempts[i].rememberedAt)
    && (forall i, j :: 0 <= i < j < |attempts| ==> attempts[i].rememberedAt <= attempts[j].checkedAt)
  }

  ghost predicate Floods(recent: seq<RecentMessage>, rules: Rules, now: int) {
    rules.messages > 0 && rules.seconds > 0 && CountAfter(recent, now - rules.seconds * SECOND) >= rules.messages
  }

  ghost predicate Repeats(recent: seq<RecentMessage>, rules: Rules, folded: string) {
    rules.times > 0 && folded != "" && EndsInRun(recent, rules.times, folded)
  }

  ghost predicate Passes(recent: seq<RecentMessage>, rules: Rules, a: Attempt) {
    !Floods(recent, rules, a.checkedAt) && !Repeats(recent, rules, a.folded) && !a.refused
  }

  /** The short history a run of attempts leaves. */
  ghost function RecentAfter(rules: Rules, attempts: seq<Attempt>): seq<RecentMessage> {
    if attempts == [] then []
    else
      var recent, a := RecentAfter(rules, attempts[..|attempts| - 1]), attempts[|attempts| - 1];
      if Passes(recent, rules, a) then Remembered(recent, a.rememberedAt, a.folded) else recent
  }

  /** Every message of the run that was let through. */
  ghost function TranscriptAfter(rules: Rules, attempts: seq<Attempt>): seq<RecentMessage> {
    if attempts == [] then []
    else
      var init, a := attempts[..|attempts| - 1], attempts[|attempts| - 1];
      TranscriptAfter(rules, init)
      + if Passes(RecentAfter(rules, init), rules, a) then [RecentMessage(a.rememberedAt, a.folded)] else []
  }

  lemma LastAttempt(rules: Rules, attempts: seq<Attempt>)
    requires attempts != []
    ensures var init, a := attempts[..|attempts| - 1], attempts[|attempts| - 1];
      var recent, before := RecentAfter(rules, init), TranscriptAfter(rules, init);
      && (Passes(recent, rules, a) ==>
            && RecentAfter(rules, attempts) == Remembered(recent, a.rememberedAt, a.folded)
            && TranscriptAfter(rules, attempts) == before + [RecentMessage(a.rememberedAt, a.folded)])
      && (!Passes(recent, rules, a) ==>
            RecentAfter(rules, attempts) == recent && TranscriptAfter(rules, attempts) == before)
  {
    Collections.SameSeq(TranscriptAfter(rules, attempts[..|attempts| - 1]) + [],
                        TranscriptAfter(rules, attempts[..|attempts| - 1]));
  }

  lemma InOrderInit(attempts: seq<Attempt>)
    requires InOrder(attempts) && attempts != []
    ensures InOrder(attempts[..|attempts| - 1])
    ensures attempts[|attempts| - 1].checkedAt <= attempts[|attempts| - 1].rememberedAt
    ensures |attempts| > 1 ==> attempts[|attempts| - 2].rememberedAt <= attempts[|attempts| - 1].checkedAt
  {}

  /** Everything let through was written by an instant. */
  ghost predicate WrittenBy(t: seq<RecentMessage>, now: int) {
    t != [] ==> t[|t| - 1].at <= now
  }

  lemma {:induction false} TranscriptWrittenBy(rules: Rules, attempts: seq<Attempt>, now: int)
    requires InOrder(attempts)
    requires attempts != [] ==> attempts[|attempts| - 1].rememberedAt <= now
    ensures WrittenBy(TranscriptAfter(rules, attempts), now)
  {
    if attempts != [] {
      LastAttempt(rules, attempts);
      InOrderInit(attempts);
      hide Passes, RecentAfter, TranscriptAfter, InOrder;
      TranscriptWrittenBy(rules, attempts[..|attempts| - 1], now);
    }
  }

  /** Over a whole run the short history goes on standing for everything let through. */
  lemma {:induction false} RunStandsFor(rules: Rules, attempts: seq<Attempt>)
    requires InOrder(attempts)
    ensures StandsFor(RecentAfter(rules, attempts), TranscriptAfter(rules, attempts))
  {
    if attempts != [] {
      var init, a := attempts[..|attempts| - 1], attempts[|attempts| - 1];
      LastAttempt(rules, attempts);
      InOrderInit(attempts);
      TranscriptWrittenBy(rules, init, a.rememberedAt);
      hide StandsFor, Remembered, Passes, RecentAfter, TranscriptAfter, InOrder;
      RunStandsFor(rules, init);
      if Passes(RecentAfter(rules, init), rules, a) {
        RememberedStandsFor(RecentAfter(rules, init), TranscriptAfter(rules, init), a.rememberedAt, a.folded);
      }
    }
  }

  /** A message let through passes both rules read against the whole transcript. */
  lemma PassesRefines(recent: seq<RecentMessage>, transcript: seq<RecentMessage>, rules: Rules, a: Attempt)
    requires StandsFor(recent, transcript) && Normalised(rules) && Passes(recent, rules, a)
    requires transcript != [] ==> transcript[|transcript| - 1].at <= a.checkedAt
    ensures ClearOf(transcript, rules, a.checkedAt, a.folded)
  {
    FloodDecisionRefines(recent, transcript, rules.messages, rules.seconds, a.checkedAt);
    if rules.times > 0 {
      RepeatDecisionRefines(recent, transcript, rules.times, a.folded);
    }
  }

  /** Against everything accepted before, neither pace rule fires. */
  ghost predicate ClearOf(before: seq<RecentMessage>, rules: Rules, checkedAt: int, folded: string) {
    && !Floods(before, rules, checkedAt)
    && !(Repeats(before, rules, folded)
         && before[|before| - 1].at - before[|before| - rules.times].at <= RECENT_WINDOW)
  }

  /** Whatever was let through had passed both rules against everything before it. */
  lemma {:induction false} LetThroughPassed(rules: Rules, attempts: seq<Attempt>, j: nat) returns (checkedAt: int)
    requires InOrder(attempts) && Normalised(rules)
    requires j < |TranscriptAfter(rules, attempts)|
    ensures checkedAt <= TranscriptAfter(rules, attempts)[j].at
    ensures ClearOf(TranscriptAfter(rules, attempts)[..j], rules, checkedAt, TranscriptAfter(rules, attempts)[j].folded)
  {
    var init, a := attempts[..|attempts| - 1], attempts[|attempts| - 1];
    LastAttempt(rules, attempts);
    InOrderInit(attempts);
    hide StandsFor, ClearOf, Remembered, Passes, InOrder, RecentAfter, TranscriptAfter;
    var recent, before := RecentAfter(rules, init), TranscriptAfter(rules, init);
    if j < |before| {
      checkedAt := LetThroughPassed(rules, init, j);
      Collections.SameSeq(TranscriptAfter(rules, attempts)[..j], before[..j]);
    } else {
      checkedAt := a.checkedAt;
      RunStandsFor(rules, init);
      TranscriptWrittenBy(rules, init, a.checkedAt);
      PassesRefines(recent, before, rules, a);
      Collections.SameSeq(TranscriptAfter(rules, attempts)[..j], before);
    }
  }

  /** In order, so many messages are after an instant when the one so far from the end is. */
  lemma CountAtLeastExactly(s: seq<RecentMessage>, m: nat, cutoff: int)
    requires Sorted(s) && m > 0
    ensures CountAfter(s, cutoff) >= m <==> |s| >= m && s[|s| - m].at > cutoff
  {
    if |s| >= m {
      var i := |s| - m;
      if s[i].at > cutoff {
        CountAtLeast(s, i, cutoff);
      } else {
        assert s == s[..i + 1] + s[i + 1..];
        CountAfterSplits(s[..i + 1], s[i + 1..], cutoff);
        CountNone(s[..i + 1], cutoff);
        CountAtMost(s[i + 1..], cutoff);
      }
    } else {
      CountAtMost(s, cutoff);
    }
  }

  lemma {:induction false} CountAtMost(s: seq<RecentMessage>, cutoff: int)
    ensures CountAfter(s, cutoff) <= |s|
  {
    if s != [] { CountAtMost(s[..|s| - 1], cutoff); }
  }

  /** So many messages let through within so many seconds of now already. */
  predicate TooMany(t: seq<RecentMessage>, rules: Rules, now: int) {
    rules.messages > 0 && rules.seconds > 0 && |t| >= rules.messages
    && now - t[|t| - rules.messages].at < rules.seconds * 1_000_000_000
  }

  /** So many messages in a row said just this, within a minute. */
  predicate TooOften(t: seq<RecentMessage>, rules: Rules, folded: string) {
    rules.times > 0 && folded != "" && |t| >= rules.times
    && (forall i :: |t| - rules.times <= i < |t| ==> t[i].folded == folded)
    && t[|t| - 1].at - t[|t| - rules.times].at <= 60_000_000_000
  }

  lemma FloodsExactly(recent: seq<RecentMessage>, t: seq<RecentMessage>, rules: Rules, now: int)
    requires StandsFor(recent, t) && Normalised(rules) && WrittenBy(t, now)
    ensures Floods(recent, rules, now) <==> TooMany(t, rules, now)
  {
    assert Sorted(t);
    if rules.messages > 0 && rules.seconds > 0 {
      FloodDecisionRefines(recent, t, rules.messages, rules.seconds, now);
      CountAtLeastExactly(t, rules.messages, now - rules.seconds * SECOND);
    }
    hide Sorted, StandsFor, CountAfter;
  }

  lemma RepeatsExactly(recent: seq<RecentMessage>, t: seq<RecentMessage>, rules: Rules, folded: string)
    requires StandsFor(recent, t) && Normalised(rules)
    ensures Repeats(recent, rules, folded) <==> TooOften(t, rules, folded)
  {
    if rules.times > 0 { RepeatDecisionRefines(recent, t, rules.times, folded); }
    hide StandsFor;
  }

  /** What the rules decide from the short history, told from everything let through. */
  lemma DecidedExactly(recent: seq<RecentMessage>, t: seq<RecentMessage>, rules: Rules, a: Attempt)
    requires StandsFor(recent, t) && Normalised(rules) && WrittenBy(t, a.checkedAt)
    ensures Passes(recent, rules, a) <==>
      !a.refused && !TooMany(t, rules, a.checkedAt) && !TooOften(t, rules, a.folded)
  {
    FloodsExactly(recent, t, rules, a.checkedAt);
    RepeatsExactly(recent, t, rules, a.folded);
    hide StandsFor, Normalised, Floods, Repeats, TooMany, TooOften;
  }

  /**
    An attempt is let through exactly when no rule about its content refuses it,
    and of all that was let through before not too many were within the rule's
    seconds, nor the last so many all the same within a minute.
   */
  lemma {:induction false} LetThroughExactly(rules: Rules, attempts: seq<Attempt>)
    requires InOrder(attempts) && Normalised(rules) && attempts != []
    ensures var a, t := attempts[|attempts| - 1], TranscriptAfter(rules, attempts[..|attempts| - 1]);
      TranscriptAfter(rules, attempts) ==
      t + if !a.refused && !TooMany(t, rules, a.checkedAt) && !TooOften(t, rules, a.folded)
          then [RecentMessage(a.rememberedAt, a.folded)] else []
  {
    var init, a := attempts[..|attempts| - 1], attempts[|attempts| - 1];
    LastAttempt(rules, attempts);
    InOrderInit(attempts);
    hide StandsFor, RecentAfter, TranscriptAfter, InOrder, Passes, TooMany, TooOften, WrittenBy, Normalised;
    TranscriptWrittenBy(rules, init, a.checkedAt);
    RunStandsFor(rules, init);
    DecidedExactly(RecentAfter(rules, init), TranscriptAfter(rules, init), rules, a);
  }

  lemma ClearMeansFew(t: seq<RecentMessage>, rules: Rules, checkedAt: int, i: nat, j: nat)
    requires Sorted(t) && i <= j < |t| && checkedAt <= t[j].at
    requires rules.messages > 0 && rules.seconds > 0 && !Floods(t[..j], rules, checkedAt)
    requires t[j].at - t[i].at < rules.seconds * SECOND
    ensures j - i + 1 <= rules.messages
  {
    assert Sorted(t[..j]);
    hide Sorted;
    CountAtLeast(t[..j], i, checkedAt - rules.seconds * SECOND);
  }

  /**
    Under a fixed flood rule, messages let through within less than `seconds` of
    one another number at most `messages`.
   */
  lemma FloodBound(rules: Rules, attempts: seq<Attempt>, i: nat, j: nat)
    requires InOrder(attempts) && Normalised(rules) && rules.messages > 0 && rules.seconds > 0
    requires i <= j < |TranscriptAfter(rules, attempts)|
    requires var t := TranscriptAfter(rules, attempts); t[j].at - t[i].at < rules.seconds * SECOND
    ensures j - i + 1 <= rules.messages
  {
    RunStandsFor(rules, attempts);
    var checkedAt := LetThroughPassed(rules, attempts, j);
    hide Sorted, Floods, Repeats, InOrder, TranscriptAfter;
    ClearMeansFew(TranscriptAfter(rules, attempts), rules, checkedAt, i, j);
  }

  /**
    Under a fixed repetition rule, when `times` + 1 messages in a row say the
    same thing, the first and the last but one are more than a window apart.
   */
  lemma RepetitionBound(rules: Rules, attempts: seq<Attempt>, i: nat, folded: string)
    requires InOrder(attempts) && Normalised(rules) && rules.times > 0 && folded != ""
    requires i + rules.times < |TranscriptAfter(rules, attempts)|
    requires var t := TranscriptAfter(rules, attempts);
      forall k :: i <= k <= i + rules.times ==> t[k].folded == folded
    ensures var t := TranscriptAfter(rules, attempts);
      t[i + rules.times - 1].at - t[i].at > RECENT_WINDOW
  {
    var checkedAt := LetThroughPassed(rules, attempts, i + rules.times);
    hide InOrder, TranscriptAfter, Floods;
  }
}
