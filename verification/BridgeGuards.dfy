/**
  How far the guards of the bridge reach: when a message is copied to Discord
  more than once, when a copy here is recognised as the relay's own writing, and
  what stops a copy that is not.
 */
module BridgeGuards {
  import opened Wrappers
  import opened Bridge
  import opened Collections
  import OutboundText

  // --- second copies on Discord ---------------------------------------------

  /** A step in which the client repeats a post that had taken effect already. */
  predicate Doubles(s: State, a: Action) {
    && a.Work? && a.link in s.relay.queues && s.relay.queues[a.link] != []
    && var job := s.relay.queues[a.link][0];
    && job.ToDiscord? && !Blank(OutboundText.EscapeOutbound(job.content))
    && a.outcome.reached && a.outcome.repeats > 0
  }

  lemma GrownKeepsSecondCopies(side: seq<Message<int>>, side': seq<Message<int>>)
    requires Grown(side, side') && !CopiedOnce(side)
    ensures !CopiedOnce(side')
  {
    var i, j :| 0 <= i < j < |side| && side[i].copyOf.Some? && side[i].copyOf == side[j].copyOf;
    assert side'[i].copyOf == side'[j].copyOf;
  }

  lemma WorkCopies(s: State, dir: OutboundText.Directory, a: Action)
    requires Inv(s) && Enabled(s, a) && a.Work?
    ensures CopiedOnce(Next(s, dir, a).remote.discord) <==> CopiedOnce(s.remote.discord) && !Doubles(s, a)
  {
    var p, job := s.(relay := Popped(s.relay, a.link)), s.relay.queues[a.link][0];
    var discord, discord' := s.remote.discord, Next(s, dir, a).remote.discord;
    WorkInv(s, dir, a.link, a.outcome);
    PopInv(s, a.link);
    WorkGrows(p, dir, job, a.outcome);
    hide Inv, Blank, Copied, RunJob, OutboundText.Rendered, CopyWasDue, OriginalsKept, PairsFit, NewsOf, SameRoutes;
    if !CopiedOnce(discord) {
      GrownKeepsSecondCopies(discord, discord');
    } else if Doubles(s, a) {
      assert discord'[|discord|].copyOf == discord'[|discord| + 1].copyOf;
    } else {
      CopiedOnceGrown(discord, discord');
    }
  }

  /** Only a delivery adds to Discord's store: one copy, and one more each time it is repeated. */
  lemma WorkGrows(s: State, dir: OutboundText.Directory, job: Job, o: Outcome)
    ensures var n, s' := |s.remote.discord|, RunJob(s, dir, job, o);
      if job.ToDiscord? && !Blank(OutboundText.EscapeOutbound(job.content)) && o.reached then
        && |s'.remote.discord| == n + 1 + o.repeats
        && forall i :: n <= i <= n + o.repeats ==> s'.remote.discord[i].copyOf == Some(job.id)
      else |s'.remote.discord| == n
  {
    hide Blank, ApplyEdit, ApplyDelete, OutboundText.Rendered;
  }

  lemma StepCopies(s: State, dir: OutboundText.Directory, a: Action)
    requires Inv(s) && Enabled(s, a)
    ensures CopiedOnce(Next(s, dir, a).remote.discord) <==> CopiedOnce(s.remote.discord) && !Doubles(s, a)
  {
    if a.Work? {
      WorkCopies(s, dir, a);
    } else {
      var discord, discord' := s.remote.discord, Next(s, dir, a).remote.discord;
      hide Inv, Copied, Blank, HandedOver, OnEvent, Without;
      assert Grown(discord, discord') && NewCopy(discord, discord').None? && |discord'| <= |discord| + 1;
      if !CopiedOnce(discord) {
        GrownKeepsSecondCopies(discord, discord');
      } else {
        CopiedOnceGrown(discord, discord');
      }
    }
  }

  /** A message comes to have two copies on Discord if and only if the client repeated a post that had arrived. */
  lemma {:induction false} CopiedOnceUnlessRepeated(
      states: seq<State>, dir: OutboundText.Directory, actions: seq<Action>, k: nat)
    requires IsRun(states, dir, actions) && Initial(states[0]) && k < |states|
    ensures CopiedOnce(states[k].remote.discord) <==> forall j :: 0 <= j < k ==> !Doubles(states[j], actions[j])
  {
    if k == 0 {
      assert states[0].remote.discord == [];
    } else {
      hide Inv, Next, CopiedOnce, Doubles, Initial, Enabled;
      CopiedOnceUnlessRepeated(states, dir, actions, k - 1);
      RunInv(states, dir, actions, k - 1);
      assert StepAt(states, dir, actions, k - 1);
      StepCopies(states[k - 1], dir, actions[k - 1]);
    }
  }

  /** An edit or a deletion here reaches the copy its message is paired with, and no other. */
  lemma OnlyThePairedCopyFollows(
      s: State, dir: OutboundText.Directory, id: nat, content: string, o: Outcome, d: nat)
    requires d < |s.remote.discord| && (id in s.db.pairs ==> s.db.pairs[id].discordId != d)
    ensures PushEdit(s, dir, id, content, o).remote.discord[d] == s.remote.discord[d]
    ensures PushDelete(s, id, o).remote.discord[d] == s.remote.discord[d]
  {
    hide Blank, OutboundText.Rendered;
  }

  /**
    A post that arrives, is answered with a failure and is posted again: two
    copies stand on Discord, and whatever becomes of the message here, the first
    stays as it is.
   */
  lemma RepeatedPost(
      s: State, dir: OutboundText.Directory, l: int, o: Outcome, content: string, o': Outcome)
    requires Inv(s) && Enabled(s, Work(l, o)) && s.relay.queues[l][0].ToDiscord?
    requires !Blank(OutboundText.EscapeOutbound(s.relay.queues[l][0].content))
    requires o.reached && o.repeats == 1 && o.answered && o.recorded
    ensures var n, id, s' := |s.remote.discord|, s.relay.queues[l][0].id, Next(s, dir, Work(l, o));
      && |s'.remote.discord| == n + 2
      && s'.remote.discord[n].alive && s'.remote.discord[n].copyOf == Some(id)
      && s'.remote.discord[n + 1] == s'.remote.discord[n]
      && id in s'.db.pairs && s'.db.pairs[id].discordId == n + 1
      && PushEdit(s', dir, id, content, o').remote.discord[n] == s'.remote.discord[n]
      && PushDelete(s', id, o').remote.discord[n] == s'.remote.discord[n]
  {
    hide Blank, Inv, OutboundText.Rendered;
    var n, id, s' := |s.remote.discord|, s.relay.queues[l][0].id, Next(s, dir, Work(l, o));
    assert s'.db.pairs[id].discordId == n + 1;
    OnlyThePairedCopyFollows(s', dir, id, content, o', n);
  }

  // --- which copies here are recognised -------------------------------------

  predicate SourceFits(rows: seq<int>, link: Link) {
    link.source.Some? ==> RowOf(rows, link.source.value, link.channel)
  }

  /** A copy here was written under a row the relay made for its channel. */
  predicate CopyRowFits(rows: seq<int>, m: Message<Row>) {
    m.copyOf.Some? ==> m.webhook.Some? && m.webhook.value.Relays? && RowOf(rows, m.webhook.value.n, m.channel)
  }

  ghost predicate LinkRowsFit(rows: seq<int>, links: map<int, Link>) {
    forall l :: l in links ==> SourceFits(rows, links[l])
  }

  ghost predicate JobRowsFit(rows: seq<int>, queues: map<int, seq<Job>>) {
    forall l, i :: l in queues && 0 <= i < |queues[l]| ==> SourceFits(rows, queues[l][i].link)
  }

  ghost predicate CopyRowsFit(rows: seq<int>, aural: seq<Message<Row>>) {
    forall a :: 0 <= a < |aural| ==> CopyRowFits(rows, aural[a])
  }

  /** Every row a link, a queued job or a copy names was made for its own channel. */
  ghost predicate RowsFit(s: State) {
    LinkRowsFit(s.db.rows, s.relay.links) && JobRowsFit(s.db.rows, s.relay.queues) && CopyRowsFit(s.db.rows, s.db.aural)
  }

  lemma EnqueueRows(s: State, l: int, job: Job)
    requires RowsFit(s) && SourceFits(s.db.rows, job.link)
    ensures RowsFit(s.(relay := Enqueue(s.relay, l, job)))
  {
    hide SourceFits;
  }

  lemma PoppedRows(s: State, l: int)
    requires RowsFit(s) && l in s.relay.queues && s.relay.queues[l] != []
    ensures RowsFit(s.(relay := Popped(s.relay, l))) && SourceFits(s.db.rows, s.relay.queues[l][0].link)
  {
    hide SourceFits, CopyRowFits;
    var queues' := Popped(s.relay, l).queues;
    assert forall i :: 0 <= i < |queues'[l]| ==> queues'[l][i] == s.relay.queues[l][i + 1];
  }

  lemma ProvisionedRows(s: State, link: Link, how: Provisioning)
    requires RowsFit(s) && SourceFits(s.db.rows, link)
    requires link.id in s.relay.links && SameRoute(link, s.relay.links[link.id])
    ensures RowsFit(Provisioned(s, link, how))
    ensures HasRow(s.db, link) || how.Done? ==>
      RowOf(Provisioned(s, link, how).db.rows, RowFor(s.db, link), link.channel)
  {}

  /** A copy written and a row made keep every row its channel's. */
  lemma WriteRows(s: State, link: Link, d: nat, o: Outcome)
    requires RowsFit(s) && SourceFits(s.db.rows, link)
    requires link.id in s.relay.links && SameRoute(link, s.relay.links[link.id])
    ensures RowsFit(WriteCopy(s, link, d, o))
  {
    ProvisionedRows(s, link, o.provisioned);
    ProvisionedLeaves(s, link, o.provisioned);
    hide Provisioned, RowFor, HasRow, Clipped, SourceFits;
  }

  lemma ProvisionedLeaves(s: State, link: Link, how: Provisioning)
    ensures var s' := Provisioned(s, link, how);
      s'.db.aural == s.db.aural && s'.db.pairs == s.db.pairs && s'.relay.queues == s.relay.queues
  {}

  lemma SameRows(s: State, db': Db, remote': Remote)
    requires RowsFit(s) && db'.rows == s.db.rows && Grown(s.db.aural, db'.aural)
    requires forall a :: |s.db.aural| <= a < |db'.aural| ==> db'.aural[a].copyOf.None?
    ensures RowsFit(s.(db := db', remote := remote'))
  {}

  /** What every job but a delivery to this side leaves as it was. */
  lemma RunLeavesRows(s: State, dir: OutboundText.Directory, job: Job, o: Outcome)
    requires PairsFit(s.db, s.remote.discord) && !job.ToAural?
    ensures var s' := RunJob(s, dir, job, o);
      && s' == s.(db := s'.db, remote := s'.remote) && s'.db.rows == s.db.rows
      && Grown(s.db.aural, s'.db.aural) && |s'.db.aural| == |s.db.aural|
  {
    hide PairsFit, Blank, OutboundText.Rendered, CopyToChange;
    match job
    case EditOnAural(link, d, _) => ApplyEditStep(s.db, s.remote.discord, link, d, o);
    case DeleteOnAural(link, ids) =>
      ApplyDeleteStep(s.db, s.remote.discord, link, ids, o.deletions);
      DeletesLeaveRows(s.db, link, ids, o.deletions);
    case _ =>
  }

  lemma {:induction false} DeletesLeaveRows(db: Db, link: Link, ids: seq<nat>, deletions: seq<Deletion>)
    ensures ApplyDelete(db, link, ids, deletions).rows == db.rows
    decreases |ids|
  {
    if ids != [] && deletions != [] {
      DeletesLeaveRows(DeleteOne(db, link, ids[0], deletions[0]), link, ids[1..], deletions[1..]);
    }
  }

  lemma WorkRows(s: State, dir: OutboundText.Directory, l: int, o: Outcome)
    requires Inv(s) && RowsFit(s) && Enabled(s, Work(l, o))
    ensures RowsFit(Next(s, dir, Work(l, o)))
  {
    var p, job := s.(relay := Popped(s.relay, l)), s.relay.queues[l][0];
    PopInv(s, l);
    PoppedRows(s, l);
    InvPairs(s);
    InvLinks(s);
    hide Inv, RowsFit, PairsFit, LinksFit, JobFits, Clear, Untold, Unhanded, SourceFits;
    if job.ToAural? {
      WriteRows(p, job.link, job.discordId, o);
    } else {
      var s' := RunJob(p, dir, job, o);
      RunLeavesRows(p, dir, job, o);
      hide RunJob, Grown;
      SameRows(p, s'.db, s'.remote);
    }
  }

  lemma LinkSourceFits(rows: seq<int>, links: map<int, Link>, link: Link)
    requires LinkRowsFit(rows, links) && exists l :: l in links && links[l] == link
    ensures SourceFits(rows, link)
  {}

  lemma HandOverRows(s: State, dir: OutboundText.Directory, i: nat)
    requires RowsFit(s) && Enabled(s, HandOver(i))
    ensures RowsFit(Next(s, dir, HandOver(i)))
  {
    var h := s.handing[i];
    HandedOverMeans(s.relay, h);
    if OutboundLink(s.relay, h.m).Some? {
      var link := OutboundLink(s.relay, h.m).value;
      LinkSourceFits(s.db.rows, s.relay.links, link);
      hide SourceFits, HandedOver, OutboundLink, Without;
      EnqueueRows(s, link.id, JobFor(link, h));
    }
  }

  lemma DeliverRows(s: State, dir: OutboundText.Directory, i: nat)
    requires RowsFit(s) && Enabled(s, Deliver(i))
    ensures RowsFit(Next(s, dir, Deliver(i)))
  {
    var e := s.remote.events[i];
    var channel := match e
      case Created(d, _, _) => if d < |s.remote.discord| then s.remote.discord[d].channel else 0
      case Edited(d, _, _, _) => if d < |s.remote.discord| then s.remote.discord[d].channel else 0
      case Deleted(c, _) => c;
    if LinkForDiscord(s.relay.links, channel).Some? {
      var link := LinkForDiscord(s.relay.links, channel).value;
      LinkSourceFits(s.db.rows, s.relay.links, link);
      hide SourceFits, IsOwn, Without, RowsFit;
      match e
      case Created(d, content, _) => EnqueueRows(s, link.id, ToAural(link, d, content));
      case Edited(d, _, content, _) => EnqueueRows(s, link.id, EditOnAural(link, d, content));
      case Deleted(_, ids) => EnqueueRows(s, link.id, DeleteOnAural(link, ids));
    }
    assert RowsFit(s.(relay := OnEvent(s.relay, s.remote.discord, e))) by { hide SourceFits; }
    hide OnEvent, SourceFits;
  }

  lemma StepRows(s: State, dir: OutboundText.Directory, a: Action)
    requires Inv(s) && RowsFit(s) && Enabled(s, a)
    ensures RowsFit(Next(s, dir, a))
  {
    match a
    case Work(l, o) => WorkRows(s, dir, l, o);
    case HandOver(i) => HandOverRows(s, dir, i);
    case Deliver(i) => DeliverRows(s, dir, i);
    case _ =>
      hide Inv, Blank, Without;
  }

  lemma {:induction false} RunRows(states: seq<State>, dir: OutboundText.Directory, actions: seq<Action>, k: nat)
    requires IsRun(states, dir, actions) && Initial(states[0]) && k < |states|
    ensures Inv(states[k]) && RowsFit(states[k])
  {
    RunInv(states, dir, actions, k);
    if k > 0 {
      RunRows(states, dir, actions, k - 1);
      assert StepAt(states, dir, actions, k - 1);
      hide Inv, RowsFit, Next, Initial;
      StepRows(states[k - 1], dir, actions[k - 1]);
    }
  }

  /**
    At every moment of every run a copy here is recognised as the relay's own
    writing if and only if the link of its channel writes under the copy's row
    now: not if the row was dropped and replaced since, nor if another delivery
    made a row of its own after it.
   */
  lemma RecognisedExactly(
      states: seq<State>, dir: OutboundText.Directory, actions: seq<Action>, k: nat, a: nat)
    requires IsRun(states, dir, actions) && Initial(states[0]) && k < |states|
    requires a < |states[k].db.aural| && states[k].db.aural[a].copyOf.Some?
    ensures var links, m := states[k].relay.links, states[k].db.aural[a];
      && m.webhook.Some? && m.webhook.value.Relays?
      && var link := LinkForChannel(links, m.channel);
      && (IsInbound(links, m.webhook) <==> link.Some? && link.value.source == Some(m.webhook.value.n))
  {
    RunRows(states, dir, actions, k);
    var rows, links, m := states[k].db.rows, states[k].relay.links, states[k].db.aural[a];
    InvLinks(states[k]);
    assert CopyRowFits(rows, m);
    assert LinkRowsFit(rows, links);
    hide Inv, RowsFit, IsRun, Initial;
    if IsInbound(links, m.webhook) {
      var l :| l in links && links[l].source == Some(m.webhook.value.n);
      assert SourceFits(rows, links[l]);
      assert links[l].channel == m.channel;
    }
  }

  /**
    Two messages queued before their link had its first row: each delivery makes
    one, and the earlier copy is then no longer recognised.
   */
  lemma TwoRowsForOneLink(s: State, dir: OutboundText.Directory, l: int, o1: Outcome, o2: Outcome)
    requires Inv(s) && RowsFit(s) && Enabled(s, Work(l, o1)) && |s.relay.queues[l]| >= 2
    requires var q := s.relay.queues[l];
      q[0].ToAural? && q[1].ToAural? && q[0].link.source.None? && q[1].link.source.None?
    requires o1.provisioned.Done? && o1.reached && o1.verdict.Some? && o1.verdict.value != ""
    requires o2.provisioned.Done? && o2.reached && o2.verdict.Some? && o2.verdict.value != ""
    requires o2.repeats <= MAX_RETRIES
    ensures var n, s1 := |s.db.aural|, Next(s, dir, Work(l, o1));
      && Enabled(s1, Work(l, o2))
      && var s2 := Next(s1, dir, Work(l, o2));
      && |s2.db.aural| == n + 2
      && s1.db.aural[n].copyOf == Some(s.relay.queues[l][0].discordId)
      && IsInbound(s1.relay.links, s1.db.aural[n].webhook)
      && s2.db.aural[n] == s1.db.aural[n] && !IsInbound(s2.relay.links, s2.db.aural[n].webhook)
      && IsInbound(s2.relay.links, s2.db.aural[n + 1].webhook)
  {
    var q, n, rows := s.relay.queues[l], |s.db.aural|, s.db.rows;
    PopInv(s, l);
    InvLinks(s);
    assert AtHome(q[1], l, s.relay.links);
    hide Inv, RowsFit, JobFits, Clear, Untold, Unhanded;
    var s1 := Next(s, dir, Work(l, o1));
    FirstRow(s, dir, l, o1);
    assert s1.relay.queues[l][0] == q[1];
    FirstRow(s1, dir, l, o2);
    var s2 := Next(s1, dir, Work(l, o2));
    assert s1.relay.links[l].source == Some(s1.db.aural[n].webhook.value.n);
    assert s2.relay.links[l].source == Some(s2.db.aural[n + 1].webhook.value.n);
    assert LinkRowsFit(rows, s.relay.links) by { RowsFitMeans(s); }
    hide Next;
    forall m | m in s2.relay.links
      ensures s2.relay.links[m].source != Some(|rows|)
    {
      if m != l { assert SourceFits(rows, s.relay.links[m]); }
    }
  }

  lemma RowsFitMeans(s: State)
    requires RowsFit(s)
    ensures LinkRowsFit(s.db.rows, s.relay.links)
  {}

  /** A delivery for a link that knew of no row makes one, and writes under it. */
  lemma FirstRow(s: State, dir: OutboundText.Directory, l: int, o: Outcome)
    requires Enabled(s, Work(l, o)) && l in s.relay.links
    requires var job := s.relay.queues[l][0]; job.ToAural? && job.link.source.None? && job.link.id == l
    requires o.provisioned.Done? && o.reached && o.verdict.Some? && o.verdict.value != ""
    ensures var n, job, s' := |s.db.aural|, s.relay.queues[l][0], Next(s, dir, Work(l, o));
      && |s'.db.aural| == n + 1 && s'.db.aural[..n] == s.db.aural
      && s'.db.aural[n].copyOf == Some(job.discordId)
      && s'.db.aural[n].webhook == Some(Relays(|s.db.rows|)) && |s'.db.rows| == |s.db.rows| + 1
      && s'.relay.queues == s.relay.queues[l := s.relay.queues[l][1..]]
      && s'.relay.links == s.relay.links[l := s.relay.links[l].(source := Some(|s.db.rows|))]
  {}

  /**
    What stops a copy that is not recognised: whatever is queued for it, no call
    is made, because the pairing says the message was written on Discord.
   */
  lemma CopiesNeverCrossBack(s: State, dir: OutboundText.Directory, a: nat, content: string, o: Outcome)
    requires Inv(s) && a < |s.db.aural| && s.db.aural[a].copyOf.Some?
    ensures PushEdit(s, dir, a, content, o) == s && PushDelete(s, a, o) == s
    ensures forall l, i :: l in s.relay.queues && 0 <= i < |s.relay.queues[l]| && s.relay.queues[l][i].ToDiscord? ==>
      s.relay.queues[l][i].id != a
  {
    assert forall l, i :: l in s.relay.queues && 0 <= i < |s.relay.queues[l]| ==>
      JobFits(s.relay.queues[l][i], s.db.aural, s.remote.discord);
    InvPairs(s);
    assert CopiesOriginals(s.remote.discord, s.db.aural);
    if a in s.db.pairs { assert PairFits(a, s.db.pairs[a], s.db.aural, s.remote.discord); }
    hide Inv, PairsFit, CopiesOriginals, Blank, Copied;
  }
}
