/** Runs from the start in which a guard of the bridge lets through what it is there to stop. */
module BridgeRuns {
  import opened Wrappers
  import opened Bridge
  import opened BridgeGuards
  import BridgeConvergence
  import OutboundText

  ghost predicate Reached(dir: OutboundText.Directory, first: State, s: State) {
    exists states, actions :: IsRun(states, dir, actions) && states[0] == first && states[|actions|] == s
  }

  lemma ReachedStart(s: State, dir: OutboundText.Directory)
    ensures Reached(dir, s, s)
  {
    var states: seq<State>, actions: seq<Action> := [s], [];
    assert IsRun(states, dir, actions) && states[|actions|] == s;
  }

  lemma ReachedNext(dir: OutboundText.Directory, first: State, s: State, a: Action)
    requires Reached(dir, first, s) && Enabled(s, a)
    ensures Reached(dir, first, Next(s, dir, a))
  {
    var states, actions :| IsRun(states, dir, actions) && states[0] == first && states[|actions|] == s;
    hide Enabled, Next;
    var states', actions' := states + [Next(s, dir, a)], actions + [a];
    forall k: nat | k < |actions'|
      ensures StepAt(states', dir, actions', k)
    {
      if k < |actions| { assert StepAt(states, dir, actions, k); }
    }
    assert IsRun(states', dir, actions') && states'[0] == first && states'[|actions'|] == Next(s, dir, a);
  }

  lemma ReachedInv(dir: OutboundText.Directory, first: State, s: State)
    requires Reached(dir, first, s) && Initial(first)
    ensures Inv(s)
  {
    var states, actions :| IsRun(states, dir, actions) && states[0] == first && states[|actions|] == s;
    hide Inv, Initial;
    RunInv(states, dir, actions, |actions|);
  }

  // --- two copies of one message --------------------------------------------

  /** A message posted here and handed over waits at the head of its link's queue. */
  lemma PostedAndQueued(s: State, dir: OutboundText.Directory, l: int, text: string) returns (s': State)
    requires Initial(s) && s.relay.up && l in s.relay.links && s.relay.links[l].ToDiscord() && !Blank(text)
    ensures Reached(dir, s, s') && s'.remote == s.remote
    ensures l in s'.relay.queues && s'.relay.queues[l] == [ToDiscord(s.relay.links[l], 0, text)]
  {
    var channel := s.relay.links[l].channel;
    var post := Post(channel, None, text, true);
    ReachedStart(s, dir);
    hide Reached;
    var s1 := Next(s, dir, post);
    assert Enabled(s, post) by { hide Blank; }
    ReachedNext(dir, s, s, post);
    hide Blank;
    HandedOverMeans(s1.relay, s1.handing[0]);
    BridgeConvergence.TheLink(s.relay.links, l, channel);
    hide HandedOver;
    s' := Next(s1, dir, HandOver(0));
    ReachedNext(dir, s, s1, HandOver(0));
  }

  /** From the start: one message is posted, its delivery is repeated, and two copies of it stand on Discord. */
  lemma RepeatedPostFromTheStart(
      s: State, dir: OutboundText.Directory, l: int, text: string, o: Outcome, content: string, o': Outcome)
    returns (last: State)
    requires Initial(s) && s.relay.up && l in s.relay.links && s.relay.links[l].ToDiscord() && !Blank(text)
    requires o.reached && o.repeats == 1 && o.answered && o.recorded
    ensures Reached(dir, s, last) && |last.remote.discord| == 2
    ensures last.remote.discord[0].alive && last.remote.discord[0].copyOf == Some(0)
    ensures last.remote.discord[1] == last.remote.discord[0]
    ensures 0 in last.db.pairs && last.db.pairs[0].discordId == 1
    ensures PushEdit(last, dir, 0, content, o').remote.discord[0] == last.remote.discord[0]
    ensures PushDelete(last, 0, o').remote.discord[0] == last.remote.discord[0]
  {
    var s1 := PostedAndQueued(s, dir, l, text);
    ReachedInv(dir, s, s1);
    BridgeConvergence.EscapedNotBlank(text);
    hide Reached, Inv, Blank, OutboundText.EscapeOutbound;
    RepeatedPost(s1, dir, l, o, content, o');
    last := Next(s1, dir, Work(l, o));
    ReachedNext(dir, s, s1, Work(l, o));
    hide Next;
  }

  // --- two rows for one link ------------------------------------------------

  lemma TheLink(links: map<int, Link>, l: int)
    requires LinksFit(links) && l in links
    ensures LinkForDiscord(links, links[l].discordChannel) == Some(links[l])
  {}

  /** Somebody posts on Discord in a link's channel. */
  lemma PostedThere(s: State, dir: OutboundText.Directory, first: State, l: int, text: string) returns (s': State)
    requires Reached(dir, first, s) && l in s.relay.links && s.remote.events == []
    ensures Reached(dir, first, s')
    ensures s' == s.(remote := Remote(
      s.remote.discord + [Message(s.relay.links[l].discordChannel, None, None, text, true, true)],
      [Created(|s.remote.discord|, text, false)]))
  {
    var post := PostThere(s.relay.links[l].discordChannel, None, text, true, false);
    hide Reached;
    s' := Next(s, dir, post);
    ReachedNext(dir, first, s, post);
  }

  /** And the bridge hears of it. */
  lemma HeardOf(s: State, dir: OutboundText.Directory, first: State, l: int, text: string) returns (s': State)
    requires Reached(dir, first, s) && l in s.relay.links && LinksFit(s.relay.links) && s.remote.events == []
    requires s.relay.links[l].ToAural() && |Queue(s.relay.queues, l)| < QUEUE_DEPTH
    ensures Reached(dir, first, s') && s'.remote.events == [] && s'.db == s.db && s'.handing == s.handing
    ensures |s'.remote.discord| == |s.remote.discord| + 1 && s'.relay.links == s.relay.links
    ensures l in s'.relay.queues && s'.relay.queues[l] ==
      Queue(s.relay.queues, l) + [ToAural(s.relay.links[l], |s.remote.discord|, text)]
  {
    var s1 := PostedThere(s, dir, first, l, text);
    TheLink(s.relay.links, l);
    hide Reached;
    s' := Next(s1, dir, Deliver(0));
    ReachedNext(dir, first, s1, Deliver(0));
  }

  /**
    From the start: two messages are posted on Discord before their link has a
    row, each delivery makes one, and the earlier copy is no longer recognised.
   */
  lemma TwoRowsFromTheStart(
      s: State, dir: OutboundText.Directory, l: int, text1: string, text2: string, o1: Outcome, o2: Outcome)
    returns (last: State)
    requires Initial(s) && l in s.relay.links && s.relay.links[l].ToAural() && s.relay.links[l].source.None?
    requires o1.provisioned.Done? && o1.reached && o1.verdict.Some? && o1.verdict.value != ""
    requires o2.provisioned.Done? && o2.reached && o2.verdict.Some? && o2.verdict.value != ""
    requires o1.repeats <= MAX_RETRIES && o2.repeats <= MAX_RETRIES
    ensures Reached(dir, s, last) && |last.db.aural| == 2 && last.db.aural[0].copyOf == Some(0)
    ensures !IsInbound(last.relay.links, last.db.aural[0].webhook)
    ensures IsInbound(last.relay.links, last.db.aural[1].webhook)
  {
    ReachedStart(s, dir);
    hide Reached;
    var s1 := HeardOf(s, dir, s, l, text1);
    var s2 := HeardOf(s1, dir, s, l, text2);
    ReachedInv(dir, s, s2);
    ReachedRows(dir, s, s2);
    hide Inv, RowsFit, Initial;
    TwoRowsForOneLink(s2, dir, l, o1, o2);
    var s3 := Next(s2, dir, Work(l, o1));
    ReachedNext(dir, s, s2, Work(l, o1));
    last := Next(s3, dir, Work(l, o2));
    ReachedNext(dir, s, s3, Work(l, o2));
    hide Next;
  }

  lemma ReachedRows(dir: OutboundText.Directory, first: State, s: State)
    requires Reached(dir, first, s) && Initial(first)
    ensures RowsFit(s)
  {
    var states, actions :| IsRun(states, dir, actions) && states[0] == first && states[|actions|] == s;
    hide Inv, Initial, RowsFit;
    RunRows(states, dir, actions, |actions|);
  }
}
