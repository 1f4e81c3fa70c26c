/** What a copy here says of a message on Discord, by the jobs that have been run about it. */
module BridgeInbound {
  import opened Wrappers
  import opened Bridge
  import BridgeGuards
  import BridgeConvergence
  import Collections
  import OutboundText

  /** A copy here of a message on Discord, paired with it on a link and not deleted. */
  predicate Here(db: Db, l: int, d: nat, a: nat) {
    a in db.pairs && db.pairs[a] == Pair(l, d, FromDiscord) && a < |db.aural| && db.aural[a].alive
  }

  /** Exactly one such copy, saying the text, or none if there is no text. */
  ghost predicate Says(db: Db, l: int, d: nat, text: Option<string>) {
    && (forall a: nat :: Here(db, l, d, a) ==> text == Some(db.aural[a].content))
    && (forall a: nat, b: nat :: Here(db, l, d, a) && Here(db, l, d, b) ==> a == b)
    && (text.Some? ==> exists a: nat :: Here(db, l, d, a))
  }

  /** Whether there is a row to write under, or one comes to be. */
  predicate MayWrite(db: Db, link: Link, o: Outcome) {
    (link.source.Some? && link.source.value < |db.rows| && link.source.value !in db.gone) || o.provisioned == Done
  }

  /** A text cut to what a message here may hold. */
  ghost predicate IsCut(text: string, cut: string) {
    cut <= text && |cut| == if |text| <= 2000 then |text| else 2000
  }

  predicate Deletes(ids: seq<nat>, deletions: seq<Deletion>, d: nat) {
    exists i :: 0 <= i < |ids| && i < |deletions| && ids[i] == d && deletions[i].deleted
  }

  /** What running a job makes of what the copy says. */
  ghost predicate RanTo(db: Db, job: Job, o: Outcome, l: int, d: nat, text: Option<string>, now: Option<string>) {
    match job
    case ToAural(link, n, _) =>
      if n == d && link.id == l && MayWrite(db, link, o) && o.verdict.Some? && o.verdict.value != ""
         && o.reached && o.recorded
      then now.Some? && IsCut(o.verdict.value, now.value) else now == text
    case EditOnAural(link, n, _) =>
      if n == d && link.id == l && text.Some? && o.verdict.Some? && o.recorded
      then now.Some? && IsCut(o.verdict.value, now.value) else now == text
    case DeleteOnAural(link, ids) =>
      now == if link.id == l && Deletes(ids, o.deletions, d) then None else text
    case _ => now == text
  }

  /** What any step does: people here may delete a copy, and otherwise only jobs change it. */
  ghost predicate StepsTo(s: State, act: Action, l: int, d: nat, text: Option<string>, now: Option<string>)
    requires Enabled(s, act)
  {
    match act
    case Work(m, o) => RanTo(s.db, s.relay.queues[m][0], o, l, d, text, now)
    case DeleteHere(id) => now == if Here(s.db, l, d, id) then None else text
    case _ => now == text
  }

  // --- one job --------------------------------------------------------------

  lemma OneHere(s: State, l: int, d: nat, a: nat, b: nat)
    requires Inv(s) && Here(s.db, l, d, a) && Here(s.db, l, d, b)
    ensures a == b
  {
    InvPairs(s);
    assert PairFits(a, s.db.pairs[a], s.db.aural, s.remote.discord);
    assert PairFits(b, s.db.pairs[b], s.db.aural, s.remote.discord);
    assert CopiedOnce(s.db.aural);
    hide Inv, PairsFit;
  }

  /** Nothing about a message has changed that anybody here could see of its copy. */
  ghost predicate SameHere(db: Db, db': Db, l: int, d: nat) {
    forall a: nat :: (Here(db', l, d, a) <==> Here(db, l, d, a)) &&
      (Here(db, l, d, a) ==> db'.aural[a].content == db.aural[a].content)
  }

  lemma SameSays(db: Db, db': Db, l: int, d: nat, text: Option<string>)
    requires Says(db, l, d, text) && SameHere(db, db', l, d)
    ensures Says(db', l, d, text)
  {
    hide Here;
  }

  lemma OutboundSame(s: State, dir: OutboundText.Directory, job: Job, o: Outcome, l: int, d: nat)
    requires PairsFit(s.db, s.remote.discord) && JobFits(job, s.db.aural, s.remote.discord)
    requires job.ToDiscord? || job.EditOnDiscord? || job.DeleteOnDiscord?
    ensures SameHere(s.db, RunJob(s, dir, job, o).db, l, d)
  {
    hide Blank, OutboundText.Rendered, Copied;
  }

  /** Whether a delivery writes. */
  predicate Writes(db: Db, link: Link, o: Outcome) {
    MayWrite(db, link, o) && o.verdict.Some? && o.verdict.value != "" && o.reached
  }

  /** A message not yet copied is paired with nothing here. */
  lemma NotYetHere(db: Db, discord: seq<Message<int>>, n: nat)
    requires PairsFit(db, discord) && !Copied(db.aural, n)
    ensures forall a: nat :: a in db.pairs && db.pairs[a].origin.FromDiscord? ==> db.pairs[a].discordId != n
  {
    forall a: nat | a in db.pairs && db.pairs[a].origin.FromDiscord?
      ensures db.pairs[a].discordId != n
    {
      assert PairFits(a, db.pairs[a], db.aural, discord);
    }
  }

  lemma FreshPair(s: State)
    requires Inv(s)
    ensures |s.db.aural| !in s.db.pairs
  {
    InvPairs(s);
    assert CopiesOriginals(s.remote.discord, s.db.aural);
    hide CarriersFit;
  }

  /** What one delivery makes of the store, as far as its copy goes. */
  ghost predicate Wrote(db: Db, db': Db, link: Link, n: nat, o: Outcome) {
    if Writes(db, link, o) then
      && |db'.aural| == |db.aural| + 1 && db'.aural[..|db.aural|] == db.aural
      && db'.aural[|db.aural|].alive && IsCut(o.verdict.value, db'.aural[|db.aural|].content)
      && db'.pairs == if o.recorded then db.pairs[|db.aural| := Pair(link.id, n, FromDiscord)] else db.pairs
    else db'.aural == db.aural && db'.pairs == db.pairs
  }

  lemma WriteWrites(s: State, link: Link, n: nat, o: Outcome)
    ensures Wrote(s.db, WriteCopy(s, link, n, o).db, link, n, o)
  {}

  lemma WroteElsewhere(db: Db, db': Db, link: Link, n: nat, o: Outcome, l: int, d: nat)
    requires Wrote(db, db', link, n, o) && |db.aural| !in db.pairs
    requires !(n == d && link.id == l && Writes(db, link, o) && o.recorded)
    ensures SameHere(db, db', l, d)
  {
    hide Writes, IsCut;
    assert forall a: nat :: a < |db.aural| ==> db'.aural[a] == db'.aural[..|db.aural|][a];
  }

  lemma WroteHere(db: Db, db': Db, link: Link, n: nat, o: Outcome)
    requires Wrote(db, db', link, n, o) && |db.aural| !in db.pairs && Writes(db, link, o) && o.recorded
    requires forall a: nat :: a in db.pairs && db.pairs[a].origin.FromDiscord? ==> db.pairs[a].discordId != n
    ensures Says(db', link.id, n, Some(db'.aural[|db.aural|].content))
  {
    hide Writes, IsCut;
    assert forall a: nat :: Here(db', link.id, n, a) ==> a == |db.aural|;
    assert Here(db', link.id, n, |db.aural|);
  }

  lemma WrittenSays(
      s: State, dir: OutboundText.Directory, link: Link, n: nat, content: string, o: Outcome, l: int, d: nat,
      text: Option<string>)
    returns (now: Option<string>)
    requires Inv(s) && JobFits(ToAural(link, n, content), s.db.aural, s.remote.discord) && Says(s.db, l, d, text)
    ensures var job := ToAural(link, n, content);
      RanTo(s.db, job, o, l, d, text, now) && Says(RunJob(s, dir, job, o).db, l, d, now)
  {
    InvPairs(s);
    var db, db' := s.db, WriteCopy(s, link, n, o).db;
    NotYetHere(db, s.remote.discord, n);
    FreshPair(s);
    WriteWrites(s, link, n, o);
    assert RunJob(s, dir, ToAural(link, n, content), o).db == db';
    hide Inv, PairsFit, JobFits, WriteCopy, RunJob, MayWrite, IsCut, Says;
    if n == d && link.id == l && Writes(db, link, o) && o.recorded {
      WroteHere(db, db', link, n, o);
      now := Some(db'.aural[|db.aural|].content);
    } else {
      hide Wrote, SameHere;
      WroteElsewhere(db, db', link, n, o, l, d);
      SameSays(db, db', l, d, text);
      now := text;
    }
  }

  /** On one link a message on Discord is paired with one message here. */
  ghost predicate PairedOnce(pairs: map<nat, Pair>) {
    forall a: nat, b: nat | a in pairs && b in pairs ::
      pairs[a].link == pairs[b].link && pairs[a].discordId == pairs[b].discordId ==> a == b
  }

  lemma PairsOnce(s: State)
    requires Inv(s)
    ensures PairedOnce(s.db.pairs)
  {
    InvPairs(s);
    var pairs, aural, discord := s.db.pairs, s.db.aural, s.remote.discord;
    assert CopiedOnce(aural) && CopiesOriginals(aural, discord);
    hide Inv, PairsFit;
    forall a: nat, b: nat | a in pairs && b in pairs && pairs[a].link == pairs[b].link
      && pairs[a].discordId == pairs[b].discordId
      ensures a == b
    {
      assert PairsFit(s.db, discord);
      PairFitsMeans(s.db, discord, a);
      PairFitsMeans(s.db, discord, b);
    }
  }

  lemma PairFitsMeans(db: Db, discord: seq<Message<int>>, a: nat)
    requires PairsFit(db, discord) && a in db.pairs
    ensures PairFits(a, db.pairs[a], db.aural, discord)
  {}

  /** The copy a change is for is the one that is here. */
  lemma ChangesTheOneHere(db: Db, link: Link, n: nat)
    requires PairedOnce(db.pairs)
    ensures CopyToChange(db, link, n).Some? ==> Here(db, link.id, n, CopyToChange(db, link, n).value)
    ensures forall a: nat :: Here(db, link.id, n, a) ==> CopyToChange(db, link, n) == Some(a)
  {}

  lemma EditedSays(db: Db, link: Link, n: nat, content: string, o: Outcome, l: int, d: nat, text: Option<string>)
    returns (now: Option<string>)
    requires PairedOnce(db.pairs) && Says(db, l, d, text)
    ensures RanTo(db, EditOnAural(link, n, content), o, l, d, text, now) && Says(ApplyEdit(db, link, n, o), l, d, now)
  {
    ChangesTheOneHere(db, link, n);
    var db' := ApplyEdit(db, link, n, o);
    hide CopyToChange, PairedOnce;
    if n == d && link.id == l && text.Some? && o.verdict.Some? && o.recorded {
      var a: nat :| Here(db, l, d, a);
      now := Some(db'.aural[a].content);
      assert forall b: nat :: Here(db', l, d, b) <==> Here(db, l, d, b);
    } else {
      now := text;
      assert SameHere(db, db', l, d);
      hide ApplyEdit;
      SameSays(db, db', l, d, text);
    }
  }

  lemma DeleteOneSays(db: Db, link: Link, n: nat, o: Deletion, l: int, d: nat, text: Option<string>)
    requires PairedOnce(db.pairs) && Says(db, l, d, text)
    ensures PairedOnce(DeleteOne(db, link, n, o).pairs)
    ensures Says(DeleteOne(db, link, n, o), l, d, if link.id == l && n == d && o.deleted then None else text)
  {
    ChangesTheOneHere(db, link, n);
    var db' := DeleteOne(db, link, n, o);
    if link.id == l && n == d && o.deleted {
      assert forall b: nat :: !Here(db', l, d, b);
    } else {
      assert SameHere(db, db', l, d);
      SameSays(db, db', l, d, text);
    }
  }

  lemma {:induction false} DeletedSays(
      db: Db, link: Link, ids: seq<nat>, deletions: seq<Deletion>, l: int, d: nat, text: Option<string>)
    requires PairedOnce(db.pairs) && Says(db, l, d, text)
    ensures Says(ApplyDelete(db, link, ids, deletions), l, d,
                 if link.id == l && Deletes(ids, deletions, d) then None else text)
    decreases |ids|
  {
    if ids != [] && deletions != [] {
      var now := if link.id == l && ids[0] == d && deletions[0].deleted then None else text;
      DeleteOneSays(db, link, ids[0], deletions[0], l, d, text);
      DeletedSays(DeleteOne(db, link, ids[0], deletions[0]), link, ids[1..], deletions[1..], l, d, now);
      DeletesSplit(ids, deletions, d);
    }
  }

  lemma DeletesSplit(ids: seq<nat>, deletions: seq<Deletion>, d: nat)
    requires ids != [] && deletions != []
    ensures Deletes(ids, deletions, d) <==>
      (ids[0] == d && deletions[0].deleted) || Deletes(ids[1..], deletions[1..], d)
  {
    if Deletes(ids, deletions, d) {
      var i :| 0 <= i < |ids| && i < |deletions| && ids[i] == d && deletions[i].deleted;
      assert i > 0 ==> ids[1..][i - 1] == d && deletions[1..][i - 1].deleted;
    }
    if Deletes(ids[1..], deletions[1..], d) {
      var i :| 0 <= i < |ids[1..]| && i < |deletions[1..]| && ids[1..][i] == d && deletions[1..][i].deleted;
      assert ids[i + 1] == d && deletions[i + 1].deleted;
    }
  }

  // --- every step -----------------------------------------------------------

  lemma JobSays(
      s: State, dir: OutboundText.Directory, job: Job, o: Outcome, l: int, d: nat, text: Option<string>)
    returns (now: Option<string>)
    requires Inv(s) && JobFits(job, s.db.aural, s.remote.discord) && Says(s.db, l, d, text)
    ensures RanTo(s.db, job, o, l, d, text, now) && Says(RunJob(s, dir, job, o).db, l, d, now)
  {
    hide Inv, Says, PairedOnce, IsCut, MayWrite;
    match job
    case ToAural(link, n, content) =>
      now := WrittenSays(s, dir, link, n, content, o, l, d, text);
    case EditOnAural(link, n, content) =>
      PairsOnce(s);
      now := EditedSays(s.db, link, n, content, o, l, d, text);
    case DeleteOnAural(link, ids) =>
      PairsOnce(s);
      DeletedSays(s.db, link, ids, o.deletions, l, d, text);
      now := if link.id == l && Deletes(ids, o.deletions, d) then None else text;
    case _ =>
      InvPairs(s);
      OutboundSame(s, dir, job, o, l, d);
      SameSays(s.db, RunJob(s, dir, job, o).db, l, d, text);
      now := text;
  }

  /** Nobody's own line is a copy, so people here edit none. */
  lemma CopiesHaveRows(s: State, l: int, d: nat, a: nat)
    requires Inv(s) && BridgeGuards.RowsFit(s) && Here(s.db, l, d, a)
    ensures s.db.aural[a].webhook.Some?
  {
    InvPairs(s);
    assert PairFits(a, s.db.pairs[a], s.db.aural, s.remote.discord);
    assert BridgeGuards.CopyRowFits(s.db.rows, s.db.aural[a]);
  }

  lemma PeopleSay(s: State, dir: OutboundText.Directory, act: Action, l: int, d: nat, text: Option<string>)
    returns (now: Option<string>)
    requires Inv(s) && BridgeGuards.RowsFit(s) && Enabled(s, act) && Says(s.db, l, d, text)
    requires act.Post? || act.EditHere? || act.DeleteHere?
    ensures StepsTo(s, act, l, d, text, now) && Says(Next(s, dir, act).db, l, d, now)
  {
    FreshPair(s);
    var db, db' := s.db, Next(s, dir, act).db;
    if act.EditHere? && Here(db, l, d, act.id) { CopiesHaveRows(s, l, d, act.id); }
    hide Inv, BridgeGuards.RowsFit, Blank;
    if act.DeleteHere? && Here(db, l, d, act.id) {
      now := None;
      assert forall a: nat :: !Here(db', l, d, a);
    } else {
      now := text;
      assert SameHere(db, db', l, d);
      SameSays(db, db', l, d, text);
    }
  }

  /** A sweep drops pairings of messages deleted here, of which there is no copy to speak of. */
  lemma OthersSay(s: State, dir: OutboundText.Directory, act: Action, l: int, d: nat, text: Option<string>)
    requires Enabled(s, act) && Says(s.db, l, d, text)
    requires !(act.Post? || act.EditHere? || act.DeleteHere? || act.Work?)
    ensures Says(Next(s, dir, act).db, l, d, text)
  {
    assert SameHere(s.db, Next(s, dir, act).db, l, d) by { hide OnEvent, HandedOver, Collections.Without; }
    hide Next, SameHere, Says;
    SameSays(s.db, Next(s, dir, act).db, l, d, text);
  }

  /** Whatever happens, the copy here says afterwards what the step makes of what it said. */
  lemma StepSays(s: State, dir: OutboundText.Directory, act: Action, l: int, d: nat, text: Option<string>)
    returns (now: Option<string>)
    requires Inv(s) && BridgeGuards.RowsFit(s) && Enabled(s, act) && Says(s.db, l, d, text)
    ensures StepsTo(s, act, l, d, text, now) && Says(Next(s, dir, act).db, l, d, now)
  {
    match act
    case Work(m, o) =>
      var p := s.(relay := Popped(s.relay, m));
      PopInv(s, m);
      hide Inv, RunJob, Says, RanTo, BridgeGuards.RowsFit, Clear, Untold, Unhanded;
      now := JobSays(p, dir, s.relay.queues[m][0], o, l, d, text);
    case Post(_, _, _, _) => hide Inv, Says, Next, BridgeGuards.RowsFit; now := PeopleSay(s, dir, act, l, d, text);
    case EditHere(_, _) => hide Inv, Says, Next, BridgeGuards.RowsFit; now := PeopleSay(s, dir, act, l, d, text);
    case DeleteHere(_) => hide Inv, Says, Next, BridgeGuards.RowsFit; now := PeopleSay(s, dir, act, l, d, text);
    case _ =>
      now := text;
      hide Inv, Says, Next, BridgeGuards.RowsFit;
      OthersSay(s, dir, act, l, d, text);
  }

  /** What the copy says from step to step, nothing to begin with. */
  ghost predicate Account(
      states: seq<State>, actions: seq<Action>, l: int, d: nat, said: seq<Option<string>>)
    requires |states| > |actions|
  {
    && |said| == |actions| + 1 && said[0] == None
    && forall k :: 0 <= k < |actions| ==>
      Enabled(states[k], actions[k]) && StepsTo(states[k], actions[k], l, d, said[k], said[k + 1])
  }

  /**
    Over every run, at every moment, a message on Discord has here on a link
    exactly one live copy, saying what the last job run about it made of it, or
    none: what was delivered, then each edit carried out, until a deletion.
   */
  lemma {:induction false} CopySaysWhatWasRun(
      states: seq<State>, dir: OutboundText.Directory, actions: seq<Action>, l: int, d: nat)
    returns (said: seq<Option<string>>)
    requires IsRun(states, dir, actions) && Initial(states[0])
    ensures Account(states, actions, l, d, said)
    ensures forall k :: 0 <= k < |states| ==> Says(states[k].db, l, d, said[k])
    decreases |actions|
  {
    if actions == [] {
      said := [None];
    } else {
      var n := |actions| - 1;
      var before, acts := states[..n + 1], actions[..n];
      assert IsRun(before, dir, acts) by {
        forall k: nat | k < n
          ensures StepAt(before, dir, acts, k)
        {
          assert StepAt(states, dir, actions, k);
        }
      }
      var init := CopySaysWhatWasRun(before, dir, acts, l, d);
      BridgeGuards.RunRows(states, dir, actions, n);
      assert StepAt(states, dir, actions, n);
      hide Inv, BridgeGuards.RowsFit, Says, StepsTo, Next, Enabled, Initial;
      assert Says(before[n].db, l, d, init[n]);
      var now := StepSays(states[n], dir, actions[n], l, d, init[n]);
      said := init + [now];
      forall k | 0 <= k < |actions|
        ensures Enabled(states[k], actions[k]) && StepsTo(states[k], actions[k], l, d, said[k], said[k + 1])
      {
        if k < n { assert before[k] == states[k] && acts[k] == actions[k]; }
      }
      forall k | 0 <= k < |states|
        ensures Says(states[k].db, l, d, said[k])
      {
        if k <= n { assert before[k] == states[k]; }
      }
    }
  }
}
