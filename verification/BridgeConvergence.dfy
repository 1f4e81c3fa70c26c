/**
  What the bridge is for: on a link for which everything goes well, running the
  jobs still queued would at every moment make the copies on Discord say what
  the channel says here, as far as its handlers have told the bridge and in the
  order in which they told it.

  The argument follows one message at a time. Each queued job has an effect on
  the copy of the message it is about, and what all of them together will make
  of the copy is what the handoffs so far tell of the message. When that is what
  the message says is a matter of their order alone.
 */
module BridgeConvergence {
  import opened Wrappers
  import opened Bridge
  import opened Collections
  import OutboundText

  // --- what is promised -----------------------------------------------------

  /** What the copy of a message says on Discord, as far as the pairing knows. */
  ghost function CopyText(pairs: map<nat, Pair>, discord: seq<Message<int>>, a: nat): Option<string> {
    if a in pairs && pairs[a].origin.FromAural? && pairs[a].discordId < |discord|
       && discord[pairs[a].discordId].alive
    then Some(discord[pairs[a].discordId].content)
    else None
  }

  /** What there should be on Discord of a message here: the text people see, if somebody wrote it in the channel. */
  ghost function Wanted(dir: OutboundText.Directory, m: Message<Row>): Option<string> {
    if m.copyOf.None? && m.ordinary && m.alive then Some(OutboundText.Rendered(dir, m.content)) else None
  }

  /** What one handoff makes of what the bridge has been told of one message. */
  ghost function Carry(dir: OutboundText.Directory, text: Option<string>, h: Handoff, a: nat): Option<string> {
    if h.id != a || !h.m.ordinary then text
    else
      match h
      case HandPost(_, m) => Some(OutboundText.Rendered(dir, m.content))
      case HandEdit(_, m) => if text.Some? then Some(OutboundText.Rendered(dir, m.content)) else None
      case HandDelete(_, _) => None
  }

  /** What the handoffs so far tell of one message. */
  ghost function Told(dir: OutboundText.Directory, said: seq<Handoff>, a: nat): Option<string>
    decreases |said|
  {
    if said == [] then None else Carry(dir, Told(dir, said[..|said| - 1], a), said[|said| - 1], a)
  }

  /** What a waiting job will do to the copy of one message. */
  ghost function Effect(dir: OutboundText.Directory, text: Option<string>, job: Job, a: nat): Option<string> {
    match job
    case ToDiscord(_, id, content) => if id == a then Some(OutboundText.Rendered(dir, content)) else text
    case EditOnDiscord(_, id, content) =>
      if id == a && text.Some? then Some(OutboundText.Rendered(dir, content)) else text
    case DeleteOnDiscord(_, id) => if id == a then None else text
    case _ => text
  }

  ghost function After(dir: OutboundText.Directory, text: Option<string>, q: seq<Job>, a: nat): Option<string>
    decreases |q|
  {
    if q == [] then text else After(dir, Effect(dir, text, q[0], a), q[1..], a)
  }

  predicate Outbound(job: Job) {
    job.ToDiscord? || job.EditOnDiscord? || job.DeleteOnDiscord?
  }

  /** The messages followed: a channel's, but for those whose copies are given up. */
  datatype Scope = Scope(channel: int, lost: set<nat>) {
    ghost predicate Has(aural: seq<Message<Row>>, a: nat) {
      a < |aural| && aural[a].channel == channel && a !in lost
    }
  }

  /** Running what is still queued would leave each followed message's copy saying what the bridge was told of it. */
  ghost predicate Promised(
      dir: OutboundText.Directory, db: Db, discord: seq<Message<int>>, q: seq<Job>, said: seq<Handoff>, scope: Scope)
  {
    forall a :: 0 <= a < |db.aural| && scope.Has(db.aural, a) ==>
      After(dir, CopyText(db.pairs, discord, a), q, a) == Told(dir, said, a)
  }

  ghost predicate CopyOfChannel(db: Db, m: Message<int>, channel: int) {
    m.copyOf.Some? && m.copyOf.value < |db.aural| && db.aural[m.copyOf.value].channel == channel
  }

  ghost predicate FollowedCopy(db: Db, m: Message<int>, scope: Scope) {
    m.copyOf.Some? && scope.Has(db.aural, m.copyOf.value)
  }

  /** Every copy of a followed message still there is the one its message is paired with. */
  ghost predicate PairedExactly(db: Db, discord: seq<Message<int>>, l: int, scope: Scope) {
    forall d :: 0 <= d < |discord| && discord[d].alive && FollowedCopy(db, discord[d], scope) ==>
      var a := discord[d].copyOf.value;
      a in db.pairs && db.pairs[a] == Pair(l, d, FromAural)
  }

  /** A job for Discord is about a message of its own link's channel, and has something to say. */
  ghost predicate JobKnown(job: Job, l: int, aural: seq<Message<Row>>, links: map<int, Link>) {
    Outbound(job) ==>
      && job.id < |aural| && l in links && aural[job.id].channel == links[l].channel
      && (job.DeleteOnDiscord? || !Blank(OutboundText.EscapeOutbound(job.content)))
  }

  ghost predicate JobsKnown(queues: map<int, seq<Job>>, aural: seq<Message<Row>>, links: map<int, Link>) {
    forall l, i :: l in queues && 0 <= i < |queues[l]| ==> JobKnown(queues[l][i], l, aural, links)
  }

  /** Nobody but the relay writes in the channel under the relay's own rows. */
  ghost predicate RowsAreOurs(aural: seq<Message<Row>>, channel: int) {
    forall a :: 0 <= a < |aural| && aural[a].channel == channel && aural[a].copyOf.None? ==>
      !(aural[a].webhook.Some? && aural[a].webhook.value.Relays?)
  }

  /** What was handed over was of messages here as they are marked, posts only of originals. */
  ghost predicate SaidFits(said: seq<Handoff>, aural: seq<Message<Row>>) {
    forall i :: 0 <= i < |said| ==>
      said[i].id < |aural| && SameMarks(aural[said[i].id], said[i].m)
      && (said[i].HandPost? ==> said[i].m.copyOf.None?)
  }

  ghost predicate HandingSays(handing: seq<Handoff>) {
    forall i :: 0 <= i < |handing| && !handing[i].HandDelete? ==> !Blank(handing[i].m.content)
  }

  ghost predicate Up(relay: Relay, l: int) {
    relay.up && l in relay.links && relay.links[l].ToDiscord() && relay.links[l].relayEdits
  }

  ghost predicate Converging(
      s: State, dir: OutboundText.Directory, l: int, said: seq<Handoff>, lost: set<nat>)
  {
    && Up(s.relay, l)
    && var scope := Scope(s.relay.links[l].channel, lost);
    && Promised(dir, s.db, s.remote.discord, Queue(s.relay.queues, l), said, scope)
    && PairedExactly(s.db, s.remote.discord, l, scope)
    && JobsKnown(s.relay.queues, s.db.aural, s.relay.links)
    && RowsAreOurs(s.db.aural, scope.channel)
    && SaidFits(said, s.db.aural) && HandingSays(s.handing)
  }

  /** What has been handed over after a step. */
  function SaidAfter(s: State, a: Action, said: seq<Handoff>): seq<Handoff> {
    if a.HandOver? && a.at < |s.handing| then said + [s.handing[a.at]] else said
  }

  predicate HasRoom(relay: Relay, l: int) {
    |Queue(relay.queues, l)| < QUEUE_DEPTH
  }

  /**
    A step that goes well for a link: it stays up with edits on, its calls
    succeed at once, its queue has room, and nobody touches its copies on Discord.
   */
  ghost predicate GoesWell(s: State, l: int, a: Action)
    requires Up(s.relay, l) && Enabled(s, a)
  {
    var channel := s.relay.links[l].channel;
    match a
    case Post(c, webhook, _, _) => c == channel ==> !(webhook.Some? && webhook.value.Relays?)
    case HandOver(i) => s.handing[i].m.channel == channel ==> HasRoom(s.relay, l)
    case EditThere(id, _, _, _) => !CopyOfChannel(s.db, s.remote.discord[id], channel)
    case DeleteThere(_, ids) =>
      forall i :: 0 <= i < |ids| ==> !CopyOfChannel(s.db, s.remote.discord[ids[i]], channel)
    case Work(m, o) => m == l ==> Good(o)
    case SetLink(m, direction, enabled, relayEdits) => m == l ==> enabled && !direction.OnlyToAural? && relayEdits
    case Connect(up) => up
    case _ => true
  }

  /** Every call was answered the first time, and the pairing recorded. */
  predicate Good(o: Outcome) {
    o.reached && o.repeats == 0 && o.answered && o.recorded
  }

  // --- what the queue will do -----------------------------------------------

  lemma {:induction false} AfterPush(
      dir: OutboundText.Directory, text: Option<string>, q: seq<Job>, job: Job, a: nat)
    ensures After(dir, text, q + [job], a) == Effect(dir, After(dir, text, q, a), job, a)
    decreases |q|
  {
    if q == [] {
      assert q + [job] == [job];
      assert [job][1..] == [];
    } else {
      assert (q + [job])[1..] == q[1..] + [job];
      AfterPush(dir, Effect(dir, text, q[0], a), q[1..], job, a);
    }
  }

  lemma {:induction false} AfterUntouched(dir: OutboundText.Directory, text: Option<string>, q: seq<Job>, a: nat)
    requires forall i :: 0 <= i < |q| && Outbound(q[i]) ==> q[i].id != a
    ensures After(dir, text, q, a) == text
    decreases |q|
  {
    if q != [] {
      AfterUntouched(dir, text, q[1..], a);
    }
  }

  /** A handoff more, and the job it turns into, if it is for this queue. */
  lemma PromisedPush(
      dir: OutboundText.Directory, db: Db, discord: seq<Message<int>>, q: seq<Job>, jobs: seq<Job>,
      said: seq<Handoff>, h: Handoff, scope: Scope)
    requires Promised(dir, db, discord, q, said, scope) && h.id < |db.aural|
    requires jobs == [] || (exists link :: jobs == [JobFor(link, h)])
    requires jobs != [] ==> h.m.ordinary
    requires jobs == [] && scope.Has(db.aural, h.id) ==>
      Carry(dir, Told(dir, said, h.id), h, h.id) == Told(dir, said, h.id)
    ensures Promised(dir, db, discord, q + jobs, said + [h], scope)
  {
    hide CopyText, OutboundText.Rendered;
    forall a | 0 <= a < |db.aural| && scope.Has(db.aural, a)
      ensures After(dir, CopyText(db.pairs, discord, a), q + jobs, a) == Told(dir, said + [h], a)
    {
      assert (said + [h])[..|said|] == said;
      if jobs == [] {
        assert q + jobs == q;
      } else {
        AfterPush(dir, CopyText(db.pairs, discord, a), q, jobs[0], a);
      }
    }
  }

  /** A job for this side promises nothing. */
  lemma PromisedInbound(
      dir: OutboundText.Directory, db: Db, discord: seq<Message<int>>, q: seq<Job>, job: Job,
      said: seq<Handoff>, scope: Scope)
    requires Promised(dir, db, discord, q, said, scope) && !Outbound(job)
    ensures Promised(dir, db, discord, q + [job], said, scope)
  {
    hide CopyText;
    forall a | 0 <= a < |db.aural| && scope.Has(db.aural, a)
      ensures After(dir, CopyText(db.pairs, discord, a), q + [job], a) == Told(dir, said, a)
    {
      AfterPush(dir, CopyText(db.pairs, discord, a), q, job, a);
    }
  }

  lemma {:induction false} UntoldOf(dir: OutboundText.Directory, said: seq<Handoff>, a: nat)
    requires forall i :: 0 <= i < |said| && said[i].HandPost? ==> said[i].id != a
    ensures Told(dir, said, a).None?
    decreases |said|
  {
    if said != [] {
      UntoldOf(dir, said[..|said| - 1], a);
    }
  }

  /** Messages as they were told of, and perhaps more, with nothing queued about them and nothing made of them. */
  lemma PromisedGrown(
      dir: OutboundText.Directory, db: Db, db': Db, discord: seq<Message<int>>, discord': seq<Message<int>>,
      q: seq<Job>, said: seq<Handoff>, scope: Scope)
    requires Promised(dir, db, discord, q, said, scope) && Grown(db.aural, db'.aural) && SaidFits(said, db.aural)
    requires forall a :: 0 <= a < |db.aural| && scope.Has(db.aural, a) ==>
      CopyText(db'.pairs, discord', a) == CopyText(db.pairs, discord, a)
    requires forall a :: |db.aural| <= a < |db'.aural| && scope.Has(db'.aural, a) ==>
      CopyText(db'.pairs, discord', a).None?
    requires forall i :: 0 <= i < |q| && Outbound(q[i]) ==> q[i].id < |db.aural|
    ensures Promised(dir, db', discord', q, said, scope)
  {
    hide CopyText;
    forall a | 0 <= a < |db'.aural| && scope.Has(db'.aural, a)
      ensures After(dir, CopyText(db'.pairs, discord', a), q, a) == Told(dir, said, a)
    {
      if a >= |db.aural| {
        AfterUntouched(dir, None, q, a);
        UntoldOf(dir, said, a);
      }
    }
  }

  lemma SaidGrown(said: seq<Handoff>, aural: seq<Message<Row>>, aural': seq<Message<Row>>)
    requires SaidFits(said, aural) && Grown(aural, aural')
    ensures SaidFits(said, aural')
  {}

  lemma TheLink(links: map<int, Link>, l: int, channel: int)
    requires LinksFit(links) && l in links
    ensures channel == links[l].channel ==> LinkForChannel(links, channel) == Some(links[l])
    ensures channel != links[l].channel && LinkForChannel(links, channel).Some? ==>
      LinkForChannel(links, channel).value.id != l
    ensures LinkForChannel(links, channel).Some? ==>
      var m := LinkForChannel(links, channel).value; m.id in links && links[m.id] == m
  {}

  lemma KnownGrown(
      queues: map<int, seq<Job>>, aural: seq<Message<Row>>, aural': seq<Message<Row>>,
      links: map<int, Link>, links': map<int, Link>)
    requires JobsKnown(queues, aural, links) && Grown(aural, aural') && SameRoutes(links, links')
    ensures JobsKnown(queues, aural', links')
  {
    forall l: int, i: nat | l in queues && i < |queues[l]|
      ensures JobKnown(queues[l][i], l, aural', links')
    {
      assert JobKnown(queues[l][i], l, aural, links);
    }
  }

  lemma KnownPush(queues: map<int, seq<Job>>, l: int, job: Job, aural: seq<Message<Row>>, links: map<int, Link>)
    requires JobsKnown(queues, aural, links) && JobKnown(job, l, aural, links)
    ensures JobsKnown(queues[l := Queue(queues, l) + [job]], aural, links)
  {
    hide JobKnown;
  }

  lemma KnownIds(s: State, l: int)
    requires JobsKnown(s.relay.queues, s.db.aural, s.relay.links)
    ensures var q := Queue(s.relay.queues, l);
      forall i :: 0 <= i < |q| && Outbound(q[i]) ==>
        q[i].id < |s.db.aural| && l in s.relay.links && s.db.aural[q[i].id].channel == s.relay.links[l].channel
  {
    var q := Queue(s.relay.queues, l);
    forall i | 0 <= i < |q| && Outbound(q[i])
      ensures q[i].id < |s.db.aural| && l in s.relay.links
           && s.db.aural[q[i].id].channel == s.relay.links[l].channel
    {
      assert JobKnown(s.relay.queues[l][i], l, s.db.aural, s.relay.links);
    }
  }

  lemma {:induction false} EscapeKeepsRunes(text: string, i: nat)
    requires i < |text|
    ensures text[i] in OutboundText.EscapeOutbound(text)
  {
    var n := OutboundText.Token(text);
    var m := if n > 0 then n else 1;
    var rest := OutboundText.EscapeOutbound(text[m..]);
    if i >= m {
      EscapeKeepsRunes(text[m..], i - m);
      assert text[i] in rest;
    } else if i > 0 {
      assert text[i] == text[1..n][i - 1];
      assert text[i] in text[1..n];
    }
  }

  lemma EscapedNotBlank(text: string)
    requires !Blank(text)
    ensures !Blank(OutboundText.EscapeOutbound(text))
  {
    var i: nat :| i < |text| && !IsSpace(text[i]);
    EscapeKeepsRunes(text, i);
  }

  lemma PostConverges(s: State, dir: OutboundText.Directory, l: int, said: seq<Handoff>, lost: set<nat>, a: Action)
    requires Inv(s) && Converging(s, dir, l, said, lost) && Enabled(s, a) && GoesWell(s, l, a) && a.Post?
    ensures Converging(Next(s, dir, a), dir, l, said, lost)
  {
    var n, s' := |s.db.aural|, Next(s, dir, a);
    var home := Scope(s.relay.links[l].channel, lost);
    assert n !in s.db.pairs && PairedExactly(s'.db, s'.remote.discord, l, home) by {
      InvPairs(s);
      assert CopiesOriginals(s.remote.discord, s.db.aural);
      hide CarriersFit, Promised, LinksFit, Blank;
    }
    KnownIds(s, l);
    KnownGrown(s.relay.queues, s.db.aural, s'.db.aural, s.relay.links, s.relay.links);
    SaidGrown(said, s.db.aural, s'.db.aural);
    assert HandingSays(s'.handing) && RowsAreOurs(s'.db.aural, home.channel) by { hide Blank; }
    hide Inv, Blank, PairedExactly, JobsKnown, RowsAreOurs, HandingSays;
    PromisedGrown(dir, s.db, s'.db, s.remote.discord, s.remote.discord, Queue(s.relay.queues, l), said, home);
  }

  /** Somebody here edits or deletes: nothing crosses until it is handed over. */
  lemma ChangeHereConverges(
      s: State, dir: OutboundText.Directory, l: int, said: seq<Handoff>, lost: set<nat>, a: Action)
    requires Converging(s, dir, l, said, lost) && Enabled(s, a) && (a.EditHere? || a.DeleteHere?)
    ensures Converging(Next(s, dir, a), dir, l, said, lost)
  {
    var s' := Next(s, dir, a);
    var home := Scope(s.relay.links[l].channel, lost);
    KnownIds(s, l);
    KnownGrown(s.relay.queues, s.db.aural, s'.db.aural, s.relay.links, s.relay.links);
    SaidGrown(said, s.db.aural, s'.db.aural);
    assert HandingSays(s'.handing) by { hide Blank; }
    assert PairedExactly(s'.db, s'.remote.discord, l, home) && RowsAreOurs(s'.db.aural, home.channel);
    hide Blank, PairedExactly, JobsKnown, RowsAreOurs, HandingSays, CopyText;
    PromisedGrown(dir, s.db, s'.db, s.remote.discord, s.remote.discord, Queue(s.relay.queues, l), said, home);
  }

  lemma EffectIsCarry(dir: OutboundText.Directory, text: Option<string>, link: Link, h: Handoff, a: nat)
    requires h.m.ordinary
    ensures Effect(dir, text, JobFor(link, h), a) == Carry(dir, text, h, a)
  {}

  lemma TakenSays(handing: seq<Handoff>, i: nat)
    requires HandingSays(handing) && i < |handing|
    ensures HandingSays(Without(handing, i))
    ensures !handing[i].HandDelete? ==> !Blank(handing[i].m.content)
  {
    hide Blank;
    var handing' := Without(handing, i);
    assert forall j :: 0 <= j < |handing'| ==> handing'[j] == if j < i then handing[j] else handing[j + 1];
  }

  /** Whatever handoff is taken next, the bridge is told of it, and its link's queue with it. */
  lemma HandOverConverges(s: State, dir: OutboundText.Directory, l: int, said: seq<Handoff>, lost: set<nat>, i: nat)
    requires Inv(s) && Converging(s, dir, l, said, lost) && Enabled(s, HandOver(i)) && GoesWell(s, l, HandOver(i))
    ensures Converging(Next(s, dir, HandOver(i)), dir, l, said + [s.handing[i]], lost)
  {
    var h, links, queues, home := s.handing[i], s.relay.links, s.relay.queues, Scope(s.relay.links[l].channel, lost);
    TakeHandoffInv(s, i);
    TakenSays(s.handing, i);
    HandedOverMeans(s.relay, h);
    InvLinks(s);
    TheLink(links, l, h.m.channel);
    if !h.HandDelete? { EscapedNotBlank(h.m.content); }
    assert SaidFits(said + [h], s.db.aural);
    var link := OutboundLink(s.relay, h.m);
    var crosses := link.Some? && (h.HandPost? || link.value.relayEdits);
    if h.m.channel == home.channel && !crosses {
      QuietHandoff(s, dir, l, said, lost, h);
    }
    hide Inv, Blank, HandedOver, IsInbound, PairedExactly, RowsAreOurs, HandingSays, SaidFits, CopyText, Without;
    hide LinksFit, OutboundText.Rendered, HandoffFits;
    if crosses {
      var job := JobFor(link.value, h);
      assert JobKnown(job, link.value.id, s.db.aural, links);
      KnownPush(queues, link.value.id, job, s.db.aural, links);
      hide JobsKnown, JobKnown;
      var jobs := if link.value.id == l then [job] else [];
      PromisedPush(dir, s.db, s.remote.discord, Queue(queues, l), jobs, said, h, home);
    } else {
      PromisedPush(dir, s.db, s.remote.discord, Queue(queues, l), [], said, h, home);
      assert Queue(queues, l) + [] == Queue(queues, l);
    }
  }

  /** What does not cross has nothing to tell: a comment, or a copy's deletion. */
  lemma QuietHandoff(s: State, dir: OutboundText.Directory, l: int, said: seq<Handoff>, lost: set<nat>, h: Handoff)
    requires Inv(s) && Converging(s, dir, l, said, lost) && HandoffFits(h, s.db.aural, s.remote.discord)
    requires h.m.channel == s.relay.links[l].channel
    requires var link := OutboundLink(s.relay, h.m); !(link.Some? && (h.HandPost? || link.value.relayEdits))
    ensures Carry(dir, Told(dir, said, h.id), h, h.id) == Told(dir, said, h.id)
  {
    InvLinks(s);
    TheLink(s.relay.links, l, h.m.channel);
    hide Inv, Promised, PairedExactly, JobsKnown, Copied, OutboundText.Rendered;
    if h.m.ordinary {
      assert IsInbound(s.relay.links, h.m.webhook);
      assert s.db.aural[h.id].copyOf.Some?;
      UntoldOf(dir, said, h.id);
    }
  }

  /** What people do on Discord to anything but the link's copies leaves its promise alone. */
  lemma ThereConverges(s: State, dir: OutboundText.Directory, l: int, said: seq<Handoff>, lost: set<nat>, a: Action)
    requires Inv(s) && Converging(s, dir, l, said, lost) && Enabled(s, a) && GoesWell(s, l, a)
    requires a.PostThere? || a.EditThere? || a.DeleteThere?
    ensures Converging(Next(s, dir, a), dir, l, said, lost)
  {
    var s' := Next(s, dir, a);
    var home := Scope(s.relay.links[l].channel, lost);
    KnownIds(s, l);
    assert PairsFit(s.db, s.remote.discord);
    assert CopiesOriginals(s.remote.discord, s.db.aural);
    hide LinksFit, StoresFit, CarriersFit, JobsKnown, RowsAreOurs, SaidFits, HandingSays, Promised, Inv;
    assert forall d :: 0 <= d < |s.remote.discord| && CopyOfChannel(s.db, s.remote.discord[d], home.channel) ==>
      s'.remote.discord[d] == s.remote.discord[d];
    assert PairedExactly(s'.db, s'.remote.discord, l, home);
    forall x | 0 <= x < |s.db.aural| && home.Has(s.db.aural, x)
      ensures CopyText(s'.db.pairs, s'.remote.discord, x) == CopyText(s.db.pairs, s.remote.discord, x)
    {
      if x in s.db.pairs { assert PairFits(x, s.db.pairs[x], s.db.aural, s.remote.discord); }
    }
    hide PairsFit, PairedExactly, CopyText, CopiesOriginals;
    PromisedGrown(dir, s.db, s'.db, s.remote.discord, s'.remote.discord, Queue(s.relay.queues, l), said, home);
  }

  /** Jobs for this side, wherever they are put, change no promise. */
  lemma InboundPush(s: State, dir: OutboundText.Directory, l: int, said: seq<Handoff>, lost: set<nat>, m: int, job: Job)
    requires Converging(s, dir, l, said, lost) && !Outbound(job)
    ensures Converging(s.(relay := Enqueue(s.relay, m, job)), dir, l, said, lost)
  {
    KnownPush(s.relay.queues, m, job, s.db.aural, s.relay.links);
    PromisedInbound(dir, s.db, s.remote.discord, Queue(s.relay.queues, l), job, said,
      Scope(s.relay.links[l].channel, lost));
    hide JobsKnown, Promised, PairedExactly, RowsAreOurs, SaidFits, HandingSays;
  }

  lemma DeliverConverges(s: State, dir: OutboundText.Directory, l: int, said: seq<Handoff>, lost: set<nat>, i: nat)
    requires Converging(s, dir, l, said, lost) && Enabled(s, Deliver(i))
    ensures Converging(Next(s, dir, Deliver(i)), dir, l, said, lost)
  {
    var e := s.remote.events[i];
    var s1 := s.(remote := s.remote.(events := Without(s.remote.events, i)));
    var links, discord := s.relay.links, s.remote.discord;
    assert Converging(s1, dir, l, said, lost) by {
      hide Promised, PairedExactly, JobsKnown, RowsAreOurs, SaidFits, HandingSays, Up, Without;
    }
    hide Converging, Without, IsOwn;
    match e
    case Created(d, content, _) =>
      if d < |discord| && LinkForDiscord(links, discord[d].channel).Some? {
        var link := LinkForDiscord(links, discord[d].channel).value;
        InboundPush(s1, dir, l, said, lost, link.id, ToAural(link, d, content));
      }
    case Edited(d, _, content, _) =>
      if d < |discord| && LinkForDiscord(links, discord[d].channel).Some? {
        var link := LinkForDiscord(links, discord[d].channel).value;
        InboundPush(s1, dir, l, said, lost, link.id, EditOnAural(link, d, content));
      }
    case Deleted(channel, ids) =>
      if LinkForDiscord(links, channel).Some? {
        var link := LinkForDiscord(links, channel).value;
        InboundPush(s1, dir, l, said, lost, link.id, DeleteOnAural(link, ids));
      }
  }

  lemma AdminConverges(s: State, dir: OutboundText.Directory, l: int, said: seq<Handoff>, lost: set<nat>, a: Action)
    requires Inv(s) && Converging(s, dir, l, said, lost) && Enabled(s, a) && GoesWell(s, l, a)
    requires a.SetLink? || a.DropRow? || a.Connect?
    ensures Converging(Next(s, dir, a), dir, l, said, lost)
  {
    var s' := Next(s, dir, a);
    var home := Scope(s.relay.links[l].channel, lost);
    KnownIds(s, l);
    KnownGrown(s.relay.queues, s.db.aural, s.db.aural, s.relay.links, s'.relay.links);
    assert PairedExactly(s'.db, s'.remote.discord, l, home);
    hide Inv, PairedExactly, JobsKnown, RowsAreOurs, SaidFits, HandingSays;
    PromisedGrown(dir, s.db, s'.db, s.remote.discord, s'.remote.discord, Queue(s.relay.queues, l), said, home);
  }

  /** Fewer messages followed, and of those the pairings that matter still there. */
  lemma PromisedFewer(
      dir: OutboundText.Directory, db: Db, db': Db, discord: seq<Message<int>>, q: seq<Job>, said: seq<Handoff>,
      scope: Scope, scope': Scope)
    requires Promised(dir, db, discord, q, said, scope) && db'.aural == db.aural
    requires scope'.channel == scope.channel && scope.lost <= scope'.lost
    requires forall a :: 0 <= a < |db.aural| && scope'.Has(db.aural, a) ==>
      CopyText(db'.pairs, discord, a) == CopyText(db.pairs, discord, a)
    ensures Promised(dir, db', discord, q, said, scope')
  {
    hide CopyText;
  }

  /** The messages of the channel whose pairing a step drops with the copy still there. */
  ghost function LostBy(s: State, l: int, a: Action): set<nat> {
    if a.Sweep? && l in s.relay.links then
      set id | id in a.pairs && id in s.db.pairs && CopyText(s.db.pairs, s.remote.discord, id).Some?
        && id < |s.db.aural| && s.db.aural[id].channel == s.relay.links[l].channel
    else {}
  }

  /** A sweep gives up what it loses, and leaves the rest as promised. */
  lemma SweepConverges(s: State, dir: OutboundText.Directory, l: int, said: seq<Handoff>, lost: set<nat>, a: Action)
    requires Inv(s) && Converging(s, dir, l, said, lost) && Enabled(s, a) && a.Sweep?
    ensures Converging(Next(s, dir, a), dir, l, said, lost + LostBy(s, l, a))
  {
    var s', lost' := Next(s, dir, a), lost + LostBy(s, l, a);
    var home, home' := Scope(s.relay.links[l].channel, lost), Scope(s.relay.links[l].channel, lost');
    assert PairedExactly(s'.db, s'.remote.discord, l, home');
    hide Inv, PairedExactly, JobsKnown, RowsAreOurs, SaidFits, HandingSays;
    PromisedFewer(dir, s.db, s'.db, s.remote.discord, Queue(s.relay.queues, l), said, home, home');
  }

  /** The messages here keep their marks, and a new one is a copy. */
  ghost predicate MarksKept(aural: seq<Message<Row>>, aural': seq<Message<Row>>) {
    Grown(aural, aural') && forall a :: |aural| <= a < |aural'| ==> aural'[a].copyOf.Some?
  }

  /** A job's run does to the channel's copies what its effect says, or nothing if it is another link's. */
  ghost predicate CarriedOut(
      s: State, s': State, dir: OutboundText.Directory, job: Job, ours: bool, l: int, scope: Scope)
  {
    && MarksKept(s.db.aural, s'.db.aural)
    && (forall a :: 0 <= a < |s.db.aural| && scope.Has(s.db.aural, a) ==>
          var text := CopyText(s.db.pairs, s.remote.discord, a);
          CopyText(s'.db.pairs, s'.remote.discord, a) == if ours then Effect(dir, text, job, a) else text)
    && (forall a :: |s.db.aural| <= a < |s'.db.aural| ==> CopyText(s'.db.pairs, s'.remote.discord, a).None?)
    && PairedExactly(s'.db, s'.remote.discord, l, scope)
  }

  lemma PostText(s: State, dir: OutboundText.Directory, link: Link, id: nat, content: string, o: Outcome, a: nat)
    requires PairsFit(s.db, s.remote.discord)
    ensures var s' := PostCopy(s, dir, link, id, content, o);
      var text := CopyText(s.db.pairs, s.remote.discord, a);
      && s'.db.aural == s.db.aural
      && (a != id ==> CopyText(s'.db.pairs, s'.remote.discord, a) == text)
      && (Good(o) && !Blank(OutboundText.EscapeOutbound(content)) ==>
            CopyText(s'.db.pairs, s'.remote.discord, a) == Effect(dir, text, ToDiscord(link, id, content), a))
  {
    if a in s.db.pairs { assert PairFits(a, s.db.pairs[a], s.db.aural, s.remote.discord); }
    hide Blank, PairsFit, OutboundText.Rendered;
  }

  lemma PostCarries(
      s: State, dir: OutboundText.Directory, link: Link, id: nat, content: string, o: Outcome,
      ours: bool, l: int, scope: Scope)
    requires Inv(s) && PairedExactly(s.db, s.remote.discord, l, scope)
    requires JobFits(ToDiscord(link, id, content), s.db.aural, s.remote.discord)
    requires ours <==> s.db.aural[id].channel == scope.channel
    requires ours ==> Good(o) && link.id == l
    requires ours ==> !Blank(OutboundText.EscapeOutbound(content))
    ensures CarriedOut(s, PostCopy(s, dir, link, id, content, o), dir, ToDiscord(link, id, content), ours, l, scope)
  {
    assert PairsFit(s.db, s.remote.discord) && CopiesOriginals(s.remote.discord, s.db.aural);
    hide Inv, Blank, PairedExactly, Wanted;
    PostPairs(s, dir, link, id, content, o, ours, l, scope);
    PostText(s, dir, link, id, content, o, id);
    hide CopiesOriginals, PairsFit, PostCopy, CopyText, Effect;
    forall a | 0 <= a < |s.db.aural| && scope.Has(s.db.aural, a)
      ensures var s', text := PostCopy(s, dir, link, id, content, o), CopyText(s.db.pairs, s.remote.discord, a);
        CopyText(s'.db.pairs, s'.remote.discord, a)
        == if ours then Effect(dir, text, ToDiscord(link, id, content), a) else text
    {
      PostText(s, dir, link, id, content, o, a);
    }
  }

  lemma PostPairs(
      s: State, dir: OutboundText.Directory, link: Link, id: nat, content: string, o: Outcome,
      ours: bool, l: int, scope: Scope)
    requires PairedExactly(s.db, s.remote.discord, l, scope) && id < |s.db.aural|
    requires !Copied(s.remote.discord, id) && CopiesOriginals(s.remote.discord, s.db.aural)
    requires ours <==> s.db.aural[id].channel == scope.channel
    requires ours ==> Good(o) && link.id == l
    requires ours ==> !Blank(OutboundText.EscapeOutbound(content))
    ensures var s' := PostCopy(s, dir, link, id, content, o);
      PairedExactly(s'.db, s'.remote.discord, l, scope)
  {
    hide Blank;
    var s' := PostCopy(s, dir, link, id, content, o);
    forall d | 0 <= d < |s'.remote.discord| && s'.remote.discord[d].alive
               && FollowedCopy(s'.db, s'.remote.discord[d], scope)
      ensures var a := s'.remote.discord[d].copyOf.value;
        a in s'.db.pairs && s'.db.pairs[a] == Pair(l, d, FromAural)
    {
      if d < |s.remote.discord| {
        assert FollowedCopy(s.db, s.remote.discord[d], scope);
        assert s.remote.discord[d].copyOf != Some(id);
      }
    }
  }

  lemma EditPairs(s: State, dir: OutboundText.Directory, id: nat, content: string, o: Outcome, l: int, scope: Scope)
    requires PairsFit(s.db, s.remote.discord) && PairedExactly(s.db, s.remote.discord, l, scope)
    ensures var s' := PushEdit(s, dir, id, content, o);
      s'.db.aural == s.db.aural && PairedExactly(s'.db, s'.remote.discord, l, scope)
  {
    hide Blank, OutboundText.Rendered;
  }

  lemma EditText(s: State, dir: OutboundText.Directory, link: Link, id: nat, content: string, o: Outcome, a: nat)
    requires PairsFit(s.db, s.remote.discord)
    ensures var s' := PushEdit(s, dir, id, content, o);
      var text := CopyText(s.db.pairs, s.remote.discord, a);
      && (a != id ==> CopyText(s'.db.pairs, s'.remote.discord, a) == text)
      && (Good(o) && !Blank(OutboundText.EscapeOutbound(content)) ==>
            CopyText(s'.db.pairs, s'.remote.discord, a) == Effect(dir, text, EditOnDiscord(link, id, content), a))
  {
    if a in s.db.pairs { assert PairFits(a, s.db.pairs[a], s.db.aural, s.remote.discord); }
    if id in s.db.pairs { assert PairFits(id, s.db.pairs[id], s.db.aural, s.remote.discord); }
    hide Blank, PairsFit, OutboundText.Rendered;
  }

  lemma EditCarries(
      s: State, dir: OutboundText.Directory, link: Link, id: nat, content: string, o: Outcome,
      ours: bool, l: int, scope: Scope)
    requires Inv(s) && PairedExactly(s.db, s.remote.discord, l, scope) && id < |s.db.aural|
    requires ours <==> s.db.aural[id].channel == scope.channel
    requires ours ==> Good(o) && !Blank(OutboundText.EscapeOutbound(content))
    ensures CarriedOut(s, PushEdit(s, dir, id, content, o), dir, EditOnDiscord(link, id, content), ours, l, scope)
  {
    InvPairs(s);
    EditPairs(s, dir, id, content, o, l, scope);
    hide Inv, Blank, PairsFit, PairedExactly, Wanted, CopyText, Effect, PushEdit;
    forall a | 0 <= a < |s.db.aural| && scope.Has(s.db.aural, a)
      ensures var s', text := PushEdit(s, dir, id, content, o), CopyText(s.db.pairs, s.remote.discord, a);
        CopyText(s'.db.pairs, s'.remote.discord, a)
        == if ours then Effect(dir, text, EditOnDiscord(link, id, content), a) else text
    {
      EditText(s, dir, link, id, content, o, a);
    }
  }

  lemma DeletePairs(s: State, id: nat, o: Outcome, l: int, scope: Scope)
    requires PairsFit(s.db, s.remote.discord) && PairedExactly(s.db, s.remote.discord, l, scope)
    ensures var s' := PushDelete(s, id, o);
      s'.db.aural == s.db.aural
      && (id < |s.db.aural| && (s.db.aural[id].channel == scope.channel ==> o.reached) ==>
            PairedExactly(s'.db, s'.remote.discord, l, scope))
  {}

  lemma DeleteText(s: State, dir: OutboundText.Directory, link: Link, id: nat, o: Outcome, a: nat)
    requires PairsFit(s.db, s.remote.discord)
    ensures var s' := PushDelete(s, id, o);
      var text := CopyText(s.db.pairs, s.remote.discord, a);
      && (a != id ==> CopyText(s'.db.pairs, s'.remote.discord, a) == text)
      && (Good(o) ==>
            CopyText(s'.db.pairs, s'.remote.discord, a) == Effect(dir, text, DeleteOnDiscord(link, id), a))
  {
    if a in s.db.pairs { assert PairFits(a, s.db.pairs[a], s.db.aural, s.remote.discord); }
    if id in s.db.pairs { assert PairFits(id, s.db.pairs[id], s.db.aural, s.remote.discord); }
    hide PairsFit;
  }

  lemma DeleteCarries(
      s: State, dir: OutboundText.Directory, link: Link, id: nat, o: Outcome, ours: bool, l: int, scope: Scope)
    requires Inv(s) && PairedExactly(s.db, s.remote.discord, l, scope) && id < |s.db.aural|
    requires ours <==> s.db.aural[id].channel == scope.channel
    requires ours ==> Good(o)
    ensures CarriedOut(s, PushDelete(s, id, o), dir, DeleteOnDiscord(link, id), ours, l, scope)
  {
    InvPairs(s);
    DeletePairs(s, id, o, l, scope);
    hide Inv, PairsFit, PairedExactly, Wanted, CopyText, Effect, PushDelete;
    forall a | 0 <= a < |s.db.aural| && scope.Has(s.db.aural, a)
      ensures var s', text := PushDelete(s, id, o), CopyText(s.db.pairs, s.remote.discord, a);
        CopyText(s'.db.pairs, s'.remote.discord, a)
        == if ours then Effect(dir, text, DeleteOnDiscord(link, id), a) else text
    {
      DeleteText(s, dir, link, id, o, a);
    }
  }

  /** What writing a copy here leaves alone: everything but one new message and its pairing. */
  lemma WriteAdds(s: State, link: Link, d: nat, o: Outcome)
    ensures var s' := WriteCopy(s, link, d, o);
      && s'.remote == s.remote && |s.db.aural| <= |s'.db.aural| <= |s.db.aural| + 1
      && (forall a :: 0 <= a < |s.db.aural| ==> s'.db.aural[a] == s.db.aural[a])
      && (|s'.db.aural| > |s.db.aural| ==> s'.db.aural[|s.db.aural|].copyOf == Some(d))
      && (forall a :: a != |s.db.aural| ==> (a in s'.db.pairs <==> a in s.db.pairs))
      && (forall a :: a in s.db.pairs && a != |s.db.aural| ==> s'.db.pairs[a] == s.db.pairs[a])
      && (|s.db.aural| !in s.db.pairs && |s.db.aural| in s'.db.pairs ==>
            s'.db.pairs[|s.db.aural|].origin.FromDiscord?)
  {}

  lemma WriteCarries(
      s: State, dir: OutboundText.Directory, link: Link, d: nat, content: string, o: Outcome,
      ours: bool, l: int, scope: Scope)
    requires Inv(s) && PairedExactly(s.db, s.remote.discord, l, scope)
    ensures CarriedOut(s, WriteCopy(s, link, d, o), dir, ToAural(link, d, content), ours, l, scope)
  {
    var s' := WriteCopy(s, link, d, o);
    assert |s.db.aural| !in s.db.pairs && CopiesOriginals(s.remote.discord, s.db.aural) by {
      InvPairs(s);
      hide CarriersFit;
    }
    WriteAdds(s, link, d, o);
    hide Inv, Wanted, WriteCopy;
    assert PairedExactly(s'.db, s'.remote.discord, l, scope);
    hide PairedExactly, CopiesOriginals;
  }

  lemma ChangeCarries(s: State, db': Db, dir: OutboundText.Directory, job: Job, ours: bool, l: int, scope: Scope)
    requires PairedExactly(s.db, s.remote.discord, l, scope) && !Outbound(job)
    requires PairsFit(s.db, s.remote.discord) && CopiesChange(s.db, db')
    ensures CarriedOut(s, s.(db := db'), dir, job, ours, l, scope)
  {
    hide PairsFit;
    assert PairedExactly(db', s.remote.discord, l, scope);
    hide PairedExactly;
  }

  /** Whatever job runs, its own link's copies change as its effect says and every other link's not at all. */
  lemma JobCarriesOut(
      s: State, dir: OutboundText.Directory, m: int, job: Job, o: Outcome, l: int, home: Scope)
    requires Inv(s) && Up(s.relay, l) && PairedExactly(s.db, s.remote.discord, l, home)
    requires home.channel == s.relay.links[l].channel
    requires JobFits(job, s.db.aural, s.remote.discord) && AtHome(job, m, s.relay.links)
    requires JobKnown(job, m, s.db.aural, s.relay.links)
    requires m == l ==> Good(o)
    ensures CarriedOut(s, RunJob(s, dir, job, o), dir, job, m == l, l, home)
  {
    assert Outbound(job) ==> (m == l <==> s.db.aural[job.id].channel == home.channel) by { InvLinks(s); }
    assert m == l ==> job.link.id == l by { InvLinks(s); }
    InvPairs(s);
    hide Inv, PairedExactly, PairsFit, Blank, JobFits, CarriedOut, CopiesChange;
    hide PostCopy, PushEdit, PushDelete, WriteCopy, ApplyEdit, ApplyDelete;
    match job
    case ToDiscord(link, id, content) => PostCarries(s, dir, link, id, content, o, m == l, l, home);
    case EditOnDiscord(link, id, content) => EditCarries(s, dir, link, id, content, o, m == l, l, home);
    case DeleteOnDiscord(link, id) => DeleteCarries(s, dir, link, id, o, m == l, l, home);
    case ToAural(link, d, content) => WriteCarries(s, dir, link, d, content, o, m == l, l, home);
    case EditOnAural(link, d, _) =>
      ApplyEditStep(s.db, s.remote.discord, link, d, o);
      ChangeCarries(s, ApplyEdit(s.db, link, d, o), dir, job, m == l, l, home);
    case DeleteOnAural(link, ids) =>
      ApplyDeleteStep(s.db, s.remote.discord, link, ids, o.deletions);
      ChangeCarries(s, ApplyDelete(s.db, link, ids, o.deletions), dir, job, m == l, l, home);
  }

  lemma CarriedPromise(
      s: State, s': State, dir: OutboundText.Directory, job: Job, ours: bool, l: int, scope: Scope, q: seq<Job>,
      said: seq<Handoff>)
    requires CarriedOut(s, s', dir, job, ours, l, scope) && SaidFits(said, s.db.aural)
    requires Promised(dir, s.db, s.remote.discord, if ours then [job] + q else q, said, scope)
    requires forall i :: 0 <= i < |q| && Outbound(q[i]) ==> q[i].id < |s.db.aural|
    ensures Promised(dir, s'.db, s'.remote.discord, q, said, scope)
  {
    hide PairedExactly, CopyText, Effect;
    forall a | 0 <= a < |s'.db.aural| && scope.Has(s'.db.aural, a)
      ensures After(dir, CopyText(s'.db.pairs, s'.remote.discord, a), q, a) == Told(dir, said, a)
    {
      if a >= |s.db.aural| {
        AfterUntouched(dir, None, q, a);
        UntoldOf(dir, said, a);
      } else {
        assert ([job] + q)[1..] == q;
      }
    }
  }

  lemma CopiesAreNobodys(aural: seq<Message<Row>>, aural': seq<Message<Row>>, channel: int)
    requires RowsAreOurs(aural, channel) && MarksKept(aural, aural')
    ensures RowsAreOurs(aural', channel)
  {}

  lemma PoppedKnown(s: State, m: int)
    requires JobsKnown(s.relay.queues, s.db.aural, s.relay.links) && m in s.relay.queues && s.relay.queues[m] != []
    ensures JobKnown(s.relay.queues[m][0], m, s.db.aural, s.relay.links)
    ensures JobsKnown(Popped(s.relay, m).queues, s.db.aural, s.relay.links)
  {
    hide JobKnown;
    var queues' := Popped(s.relay, m).queues;
    assert forall i :: 0 <= i < |queues'[m]| ==> queues'[m][i] == s.relay.queues[m][i + 1];
  }

  lemma RunRoutes(s: State, dir: OutboundText.Directory, job: Job, o: Outcome)
    ensures var s' := RunJob(s, dir, job, o);
      && SameRoutes(s.relay.links, s'.relay.links) && s'.relay.queues == s.relay.queues
      && s'.handing == s.handing
      && (forall l :: Up(s.relay, l) ==> Up(s'.relay, l))
  {
    hide PushEdit, PushDelete, ApplyEdit, ApplyDelete;
    match job
    case EditOnDiscord(_, id, content) => EditLeavesRelay(s, dir, id, content, o);
    case DeleteOnDiscord(_, id) => DeleteLeavesRelay(s, id, o);
    case _ =>
  }

  lemma EditLeavesRelay(s: State, dir: OutboundText.Directory, id: nat, content: string, o: Outcome)
    ensures var s' := PushEdit(s, dir, id, content, o); s'.relay == s.relay && s'.handing == s.handing
  {}

  lemma DeleteLeavesRelay(s: State, id: nat, o: Outcome)
    ensures var s' := PushDelete(s, id, o); s'.relay == s.relay && s'.handing == s.handing
  {}

  lemma WorkConverges(
      s: State, dir: OutboundText.Directory, l: int, said: seq<Handoff>, lost: set<nat>, m: int, o: Outcome)
    requires Inv(s) && Converging(s, dir, l, said, lost) && Enabled(s, Work(m, o)) && GoesWell(s, l, Work(m, o))
    ensures Converging(Next(s, dir, Work(m, o)), dir, l, said, lost)
  {
    var p, job, home := s.(relay := Popped(s.relay, m)), s.relay.queues[m][0], Scope(s.relay.links[l].channel, lost);
    var s', q := Next(s, dir, Work(m, o)), Queue(Popped(s.relay, m).queues, l);
    PopInv(s, m);
    PoppedKnown(s, m);
    KnownIds(p, l);
    RunRoutes(p, dir, job, o);
    hide Inv, RunJob, JobFits, AtHome, JobKnown, Clear, CarriedOut, Promised, PairedExactly, JobsKnown, RowsAreOurs;
    hide SaidFits, HandingSays;
    JobCarriesOut(p, dir, m, job, o, l, home);
    if m == l {
      assert Queue(s.relay.queues, l) == [job] + q;
    }
    CarriedPromise(p, s', dir, job, m == l, l, home, q, said);
    assert MarksKept(s.db.aural, s'.db.aural) && PairedExactly(s'.db, s'.remote.discord, l, home) by {
      CarriedMeans(p, s', dir, job, m == l, l, home);
    }
    KnownGrown(p.relay.queues, s.db.aural, s'.db.aural, s.relay.links, s'.relay.links);
    CopiesAreNobodys(s.db.aural, s'.db.aural, home.channel);
    SaidGrown(said, s.db.aural, s'.db.aural);
    assert s'.relay.links[l].channel == home.channel;
  }

  lemma CarriedMeans(
      s: State, s': State, dir: OutboundText.Directory, job: Job, ours: bool, l: int, scope: Scope)
    requires CarriedOut(s, s', dir, job, ours, l, scope)
    ensures MarksKept(s.db.aural, s'.db.aural) && PairedExactly(s'.db, s'.remote.discord, l, scope)
  {}

  lemma StepConverges(s: State, dir: OutboundText.Directory, l: int, said: seq<Handoff>, lost: set<nat>, a: Action)
    requires Inv(s) && Converging(s, dir, l, said, lost) && Enabled(s, a) && GoesWell(s, l, a)
    ensures Converging(Next(s, dir, a), dir, l, SaidAfter(s, a, said), lost + LostBy(s, l, a))
  {
    if a.Sweep? {
      SweepConverges(s, dir, l, said, lost, a);
    } else {
      assert lost + LostBy(s, l, a) == lost;
      StepKeepsPromise(s, dir, l, said, lost, a);
    }
  }

  lemma StepKeepsPromise(s: State, dir: OutboundText.Directory, l: int, said: seq<Handoff>, lost: set<nat>, a: Action)
    requires Inv(s) && Converging(s, dir, l, said, lost) && Enabled(s, a) && GoesWell(s, l, a) && !a.Sweep?
    ensures Converging(Next(s, dir, a), dir, l, SaidAfter(s, a, said), lost)
  {
    if a.Lose? {
      hide Inv, Promised, PairedExactly, JobsKnown, RowsAreOurs, SaidFits, HandingSays, Without;
    } else {
      hide Inv, Converging, GoesWell;
      match a
      case Post(_, _, _, _) => PostConverges(s, dir, l, said, lost, a);
      case EditHere(_, _) => ChangeHereConverges(s, dir, l, said, lost, a);
      case DeleteHere(_) => ChangeHereConverges(s, dir, l, said, lost, a);
      case HandOver(i) => HandOverConverges(s, dir, l, said, lost, i);
      case PostThere(_, _, _, _, _) => ThereConverges(s, dir, l, said, lost, a);
      case EditThere(_, _, _, _) => ThereConverges(s, dir, l, said, lost, a);
      case DeleteThere(_, _) => ThereConverges(s, dir, l, said, lost, a);
      case Deliver(i) => DeliverConverges(s, dir, l, said, lost, i);
      case Work(m, o) => WorkConverges(s, dir, l, said, lost, m, o);
      case SetLink(_, _, _, _) => AdminConverges(s, dir, l, said, lost, a);
      case DropRow(_) => AdminConverges(s, dir, l, said, lost, a);
      case Connect(_) => AdminConverges(s, dir, l, said, lost, a);
    }
  }

  // --- what a sweep gives up ------------------------------------------------

  ghost predicate IsCopy(discord: seq<Message<int>>, d: int, a: nat) {
    0 <= d < |discord| && discord[d].alive && discord[d].copyOf == Some(a)
  }

  /** A copy of a message deleted here that its pairing does not name. */
  ghost predicate Stray(s: State, l: int, d: int, a: nat) {
    && IsCopy(s.remote.discord, d, a) && a < |s.db.aural| && !s.db.aural[a].alive
    && l in s.relay.links && s.db.aural[a].channel == s.relay.links[l].channel
    && (a in s.db.pairs && s.db.pairs[a].origin.FromAural? ==> s.db.pairs[a].discordId != d)
  }

  ghost predicate AllStray(s: State, l: int, lost: set<nat>) {
    forall a :: a in lost ==> exists d :: Stray(s, l, d, a)
  }

  /** No job touches a stray copy. */
  lemma JobLeavesStray(s: State, dir: OutboundText.Directory, job: Job, o: Outcome, l: int, d: int, a: nat)
    requires Inv(s) && Stray(s, l, d, a)
    ensures Stray(RunJob(s, dir, job, o), l, d, a)
  {
    InvPairs(s);
    assert CopiesOriginals(s.remote.discord, s.db.aural) && s.db.aural[a].copyOf.None?;
    RunRoutes(s, dir, job, o);
    if job.EditOnDiscord? || job.DeleteOnDiscord? {
      assert job.id in s.db.pairs ==> PairFits(job.id, s.db.pairs[job.id], s.db.aural, s.remote.discord);
    }
    hide Inv, Blank, OutboundText.Rendered, ApplyEdit, ApplyDelete, WriteCopy, CopiesOriginals;
    match job
    case ToAural(link, n, _) =>
      WriteAdds(s, link, n, o);
    case EditOnAural(link, n, _) => ApplyEditStep(s.db, s.remote.discord, link, n, o);
    case DeleteOnAural(link, ids) => ApplyDeleteStep(s.db, s.remote.discord, link, ids, o.deletions);
    case _ =>
      hide PairsFit;
  }

  lemma StepLeavesStray(s: State, dir: OutboundText.Directory, l: int, act: Action, d: int, a: nat)
    requires Inv(s) && Enabled(s, act) && Up(s.relay, l) && GoesWell(s, l, act) && Stray(s, l, d, a)
    ensures Stray(Next(s, dir, act), l, d, a)
  {
    match act
    case Work(m, o) =>
      var p := s.(relay := Popped(s.relay, m));
      PopInv(s, m);
      hide Inv, RunJob, GoesWell;
      assert Stray(p, l, d, a);
      JobLeavesStray(p, dir, s.relay.queues[m][0], o, l, d, a);
    case HandOver(i) =>
      HandedOverMeans(s.relay, s.handing[i]);
      hide Inv, HandedOver, Without;
    case Deliver(i) => hide Inv, OnEvent, Without; OnEventRoutes(s.relay, s.remote.discord, s.remote.events[i]);
    case _ => hide Inv, Blank, Without;
  }

  lemma OnEventRoutes(relay: Relay, discord: seq<Message<int>>, e: Event)
    ensures OnEvent(relay, discord, e).links == relay.links
  {
    hide IsOwn;
  }

  lemma SweepStrays(s: State, dir: OutboundText.Directory, l: int, act: Action, a: nat)
    requires Inv(s) && Enabled(s, act) && Up(s.relay, l) && act.Sweep? && a in LostBy(s, l, act)
    ensures Stray(Next(s, dir, act), l, s.db.pairs[a].discordId, a)
  {
    InvPairs(s);
    assert PairFits(a, s.db.pairs[a], s.db.aural, s.remote.discord);
    hide Inv, PairsFit;
  }

  lemma StepStrays(s: State, dir: OutboundText.Directory, l: int, lost: set<nat>, act: Action)
    requires Inv(s) && Enabled(s, act) && Up(s.relay, l) && GoesWell(s, l, act) && AllStray(s, l, lost)
    ensures AllStray(Next(s, dir, act), l, lost + LostBy(s, l, act))
  {
    var s' := Next(s, dir, act);
    hide Inv, Next, GoesWell, Stray;
    forall a | a in lost + LostBy(s, l, act)
      ensures exists d :: Stray(s', l, d, a)
    {
      if a in lost {
        var d :| Stray(s, l, d, a);
        StepLeavesStray(s, dir, l, act, d, a);
      } else {
        SweepStrays(s, dir, l, act, a);
      }
    }
  }

  /** The run starts with the link up, and every step of it goes well for the link. */
  ghost predicate WentWell(states: seq<State>, actions: seq<Action>, l: int) {
    && |states| > |actions| && Up(states[0].relay, l)
    && forall k :: 0 <= k < |actions| ==>
      Up(states[k].relay, l) && Enabled(states[k], actions[k]) && GoesWell(states[k], l, actions[k])
  }

  /** What the first k steps of a run handed over, in that order. */
  ghost function Said(states: seq<State>, actions: seq<Action>, k: nat): seq<Handoff>
    requires k < |states| && k <= |actions|
  {
    if k == 0 then [] else SaidAfter(states[k - 1], actions[k - 1], Said(states, actions, k - 1))
  }

  /** The channel's messages that sweeps among the first k steps gave up. */
  ghost function Lost(states: seq<State>, actions: seq<Action>, l: int, k: nat): set<nat>
    requires k < |states| && k <= |actions|
  {
    if k == 0 then {} else Lost(states, actions, l, k - 1) + LostBy(states[k - 1], l, actions[k - 1])
  }

  lemma InitialConverges(s: State, dir: OutboundText.Directory, l: int)
    requires Initial(s) && Up(s.relay, l)
    ensures Converging(s, dir, l, [], {})
  {}

  lemma {:induction false} RunConverges(
      states: seq<State>, dir: OutboundText.Directory, actions: seq<Action>, l: int, k: nat)
    requires IsRun(states, dir, actions) && Initial(states[0]) && WentWell(states, actions, l) && k < |states|
    ensures var lost := Lost(states, actions, l, k);
      Inv(states[k]) && Converging(states[k], dir, l, Said(states, actions, k), lost) && AllStray(states[k], l, lost)
  {
    hide Converging, Inv, GoesWell, Up, Next, Enabled, Initial, SaidAfter, LostBy, Stray;
    RunInv(states, dir, actions, k);
    if k == 0 {
      InitialConverges(states[0], dir, l);
    } else {
      RunConverges(states, dir, actions, l, k - 1);
      assert StepAt(states, dir, actions, k - 1);
      var lost := Lost(states, actions, l, k - 1);
      StepConverges(states[k - 1], dir, l, Said(states, actions, k - 1), lost, actions[k - 1]);
      StepStrays(states[k - 1], dir, l, lost, actions[k - 1]);
    }
  }

  // --- running what is queued -----------------------------------------------

  ghost predicate AllGood(outcomes: seq<Outcome>) {
    forall i :: 0 <= i < |outcomes| ==> Good(outcomes[i])
  }

  /** The link's worker runs jobs, one for each outcome, until none is queued. */
  ghost function Drained(s: State, dir: OutboundText.Directory, l: int, outcomes: seq<Outcome>): State
    requires AllGood(outcomes)
    decreases |outcomes|
  {
    if outcomes == [] || Queue(s.relay.queues, l) == [] then s
    else
      assert Good(outcomes[0]);
      Drained(Next(s, dir, Work(l, outcomes[0])), dir, l, outcomes[1..])
  }

  /** On Discord, of one message: exactly one copy, saying the text, or none if there is no text. */
  ghost predicate Shows(discord: seq<Message<int>>, a: nat, text: Option<string>) {
    && (forall d :: IsCopy(discord, d, a) ==> text == Some(discord[d].content))
    && (forall d, e :: IsCopy(discord, d, a) && IsCopy(discord, e, a) ==> d == e)
    && (text.Some? ==> exists d :: IsCopy(discord, d, a))
  }

  lemma EmptyQueueShows(s: State, dir: OutboundText.Directory, l: int, said: seq<Handoff>, lost: set<nat>, a: nat)
    requires Inv(s) && Converging(s, dir, l, said, lost) && Queue(s.relay.queues, l) == []
    requires a < |s.db.aural| && s.db.aural[a].channel == s.relay.links[l].channel && a !in lost
    ensures Shows(s.remote.discord, a, Told(dir, said, a))
  {
    var discord, scope, told := s.remote.discord, Scope(s.relay.links[l].channel, lost), Told(dir, said, a);
    InvPairs(s);
    assert scope.Has(s.db.aural, a);
    assert After(dir, CopyText(s.db.pairs, discord, a), [], a) == told;
    hide Inv, JobsKnown, RowsAreOurs, SaidFits, HandingSays, Told, Promised;
    forall d | IsCopy(discord, d, a)
      ensures a in s.db.pairs && s.db.pairs[a] == Pair(l, d, FromAural)
      ensures told == Some(discord[d].content)
    {
      assert FollowedCopy(s.db, discord[d], scope);
    }
    if told.Some? {
      assert PairFits(a, s.db.pairs[a], s.db.aural, discord);
      assert IsCopy(discord, s.db.pairs[a].discordId, a);
    }
  }

  lemma WorkKeepsChannels(s: State, dir: OutboundText.Directory, l: int, o: Outcome)
    requires Inv(s) && l in s.relay.links && Enabled(s, Work(l, o))
    ensures var s' := Next(s, dir, Work(l, o));
      && Grown(s.db.aural, s'.db.aural)
      && |Queue(s'.relay.queues, l)| == |Queue(s.relay.queues, l)| - 1
      && l in s'.relay.links && s'.relay.links[l].channel == s.relay.links[l].channel
  {
    WorkInv(s, dir, l, o);
    hide Inv, RunJob, CopyWasDue, PairsFit, NewsOf, Copied;
  }

  /**
    Running the jobs still queued leaves of each message of the channel what the
    handoffs told of it, unless a sweep has given its copy up.
   */
  lemma {:induction false} DrainingShows(
      s: State, dir: OutboundText.Directory, l: int, said: seq<Handoff>, lost: set<nat>, outcomes: seq<Outcome>,
      a: nat)
    requires Inv(s) && Converging(s, dir, l, said, lost)
    requires a < |s.db.aural| && s.db.aural[a].channel == s.relay.links[l].channel && a !in lost
    requires AllGood(outcomes) && |outcomes| == |Queue(s.relay.queues, l)|
    ensures var s' := Drained(s, dir, l, outcomes);
      Queue(s'.relay.queues, l) == [] && Shows(s'.remote.discord, a, Told(dir, said, a))
    decreases |outcomes|
  {
    if outcomes == [] {
      EmptyQueueShows(s, dir, l, said, lost, a);
    } else {
      var work := Work(l, outcomes[0]);
      var s1 := Next(s, dir, work);
      StepConverges(s, dir, l, said, lost, work);
      assert lost + LostBy(s, l, work) == lost;
      StepInv(s, dir, work);
      WorkKeepsChannels(s, dir, l, outcomes[0]);
      hide Inv, Converging, Shows, Next, Told;
      DrainingShows(s1, dir, l, said, lost, outcomes[1..], a);
    }
  }

  /** A copy given up is still there when everything has been run. */
  lemma {:induction false} DrainingLeavesStray(
      s: State, dir: OutboundText.Directory, l: int, outcomes: seq<Outcome>, d: int, a: nat)
    requires Inv(s) && Up(s.relay, l) && Stray(s, l, d, a)
    requires AllGood(outcomes) && |outcomes| == |Queue(s.relay.queues, l)|
    ensures var s' := Drained(s, dir, l, outcomes);
      Queue(s'.relay.queues, l) == [] && IsCopy(s'.remote.discord, d, a)
    decreases |outcomes|
  {
    if outcomes != [] {
      var work := Work(l, outcomes[0]);
      var s1 := Next(s, dir, work);
      StepLeavesStray(s, dir, l, work, d, a);
      StepInv(s, dir, work);
      WorkKeepsChannels(s, dir, l, outcomes[0]);
      RunRoutes(s.(relay := Popped(s.relay, l)), dir, s.relay.queues[l][0], outcomes[0]);
      assert Up(s1.relay, l) by { hide RunJob, Inv; }
      hide Inv, Stray, Next, RunJob, Up;
      DrainingLeavesStray(s1, dir, l, outcomes[1..], d, a);
    }
  }

  // --- when the order of the handoffs is right ------------------------------

  predicate About(h: Handoff, a: nat) {
    h.id == a && h.m.ordinary
  }

  /** The last of the handoffs about a message. */
  ghost predicate LastAbout(said: seq<Handoff>, j: int, a: nat) {
    0 <= j < |said| && About(said[j], a) && forall k :: j < k < |said| ==> !About(said[k], a)
  }

  ghost predicate PostAt(said: seq<Handoff>, i: int, a: nat) {
    0 <= i < |said| && About(said[i], a) && said[i].HandPost?
  }

  ghost predicate DeletedAfter(said: seq<Handoff>, i: int, a: nat) {
    exists j :: 0 <= i < j < |said| && About(said[j], a) && said[j].HandDelete?
  }

  /**
    In what order a message's handoffs have to be made for its copy to come out
    as wanted: if it is to have none, every post of it before its deletion; if
    it is to have one, its post after no deletion, and of post and edits one
    that says what is wanted last.
   */
  ghost predicate RightOrder(dir: OutboundText.Directory, said: seq<Handoff>, a: nat, wanted: Option<string>) {
    if wanted.None? then forall i :: PostAt(said, i, a) ==> DeletedAfter(said, i, a)
    else
      exists i, j :: PostAt(said, i, a) && !DeletedAfter(said, i, a) && LastAbout(said, j, a)
        && OutboundText.Rendered(dir, said[j].m.content) == wanted.value
  }

  lemma {:induction false} ToldNothing(dir: OutboundText.Directory, said: seq<Handoff>, a: nat)
    ensures Told(dir, said, a).None? <==> forall i :: PostAt(said, i, a) ==> DeletedAfter(said, i, a)
    decreases |said|
  {
    if said != [] {
      var init, h := said[..|said| - 1], said[|said| - 1];
      ToldNothing(dir, init, a);
      hide Told, OutboundText.Rendered;
      assert said == init + [h];
      forall i: int
        ensures PostAt(said, i, a) <==> PostAt(init, i, a) || (i == |init| && About(h, a) && h.HandPost?)
        ensures PostAt(init, i, a) ==>
          (DeletedAfter(said, i, a) <==> DeletedAfter(init, i, a) || (About(h, a) && h.HandDelete?))
      {
        if PostAt(init, i, a) && About(h, a) && h.HandDelete? { assert said[|init|] == h; }
        if DeletedAfter(init, i, a) {
          var j :| i < j < |init| && About(init[j], a) && init[j].HandDelete?;
          assert said[j] == init[j];
        }
      }
      assert Told(dir, said, a) == Carry(dir, Told(dir, init, a), h, a) by { ToldLast(dir, said, a); }
      if About(h, a) && h.HandPost? {
        assert PostAt(said, |init|, a) && !DeletedAfter(said, |init|, a);
      }
    }
  }

  lemma ToldLast(dir: OutboundText.Directory, said: seq<Handoff>, a: nat)
    requires said != []
    ensures Told(dir, said, a) == Carry(dir, Told(dir, said[..|said| - 1], a), said[|said| - 1], a)
  {}

  /** What is told, if anything, is what the last handoff about the message says. */
  lemma {:induction false} ToldLastWord(dir: OutboundText.Directory, said: seq<Handoff>, a: nat, j: int)
    requires Told(dir, said, a).Some? && LastAbout(said, j, a)
    ensures Told(dir, said, a) == Some(OutboundText.Rendered(dir, said[j].m.content))
    decreases |said|
  {
    if j < |said| - 1 {
      ToldLastWord(dir, said[..|said| - 1], a, j);
    }
  }

  lemma {:induction false} SomeLastAbout(said: seq<Handoff>, a: nat, i: int) returns (j: int)
    requires 0 <= i < |said| && About(said[i], a)
    ensures LastAbout(said, j, a)
    decreases |said| - i
  {
    if k :| i < k < |said| && About(said[k], a) {
      j := SomeLastAbout(said, a, k);
    } else {
      j := i;
    }
  }

  lemma OnlyOneLast(said: seq<Handoff>, a: nat, i: int, j: int)
    requires LastAbout(said, i, a) && LastAbout(said, j, a)
    ensures i == j
  {}

  /** The bridge has been told what is wanted if and only if it was told in the right order. */
  lemma ToldInOrder(dir: OutboundText.Directory, said: seq<Handoff>, a: nat, wanted: Option<string>)
    ensures Told(dir, said, a) == wanted <==> RightOrder(dir, said, a, wanted)
  {
    ToldNothing(dir, said, a);
    hide Told, DeletedAfter, OutboundText.Rendered;
    if Told(dir, said, a).Some? {
      var i :| PostAt(said, i, a) && !DeletedAfter(said, i, a);
      var j := SomeLastAbout(said, a, i);
      ToldLastWord(dir, said, a, j);
      if wanted.Some? && RightOrder(dir, said, a, wanted) {
        var i', j' :| PostAt(said, i', a) && !DeletedAfter(said, i', a) && LastAbout(said, j', a)
          && OutboundText.Rendered(dir, said[j'].m.content) == wanted.value;
        OnlyOneLast(said, a, j, j');
      }
    }
  }

  lemma ShowsOneText(discord: seq<Message<int>>, a: nat, text: Option<string>, text': Option<string>)
    requires Shows(discord, a, text)
    ensures Shows(discord, a, text') <==> text' == text
  {}

  /**
    On a link for which everything goes well, at every moment: running the jobs
    still queued leaves on Discord of a message of the channel exactly what is
    wanted of it, one copy with its present text or none, if and only if what
    was handed over about it was handed over in the right order and no sweep
    dropped its pairing while the copy was still there.
   */
  lemma {:induction false} Convergence(
      states: seq<State>, dir: OutboundText.Directory, actions: seq<Action>, l: int, k: nat,
      outcomes: seq<Outcome>, a: nat)
    requires IsRun(states, dir, actions) && Initial(states[0]) && WentWell(states, actions, l) && k < |states|
    requires AllGood(outcomes) && |outcomes| == |Queue(states[k].relay.queues, l)|
    requires l in states[k].relay.links
    requires a < |states[k].db.aural| && states[k].db.aural[a].channel == states[k].relay.links[l].channel
    ensures var s', wanted := Drained(states[k], dir, l, outcomes), Wanted(dir, states[k].db.aural[a]);
      && Queue(s'.relay.queues, l) == []
      && (Shows(s'.remote.discord, a, wanted) <==>
            RightOrder(dir, Said(states, actions, k), a, wanted) && a !in Lost(states, actions, l, k))
  {
    var s, said, wanted := states[k], Said(states, actions, k), Wanted(dir, states[k].db.aural[a]);
    var lost := Lost(states, actions, l, k);
    RunConverges(states, dir, actions, l, k);
    if a in lost {
      var d :| Stray(s, l, d, a);
      DrainingLeavesStray(s, dir, l, outcomes, d, a);
      hide Inv, Converging, Drained, IsRun, WentWell, Told, RightOrder;
    } else {
      DrainingShows(s, dir, l, said, lost, outcomes, a);
      ToldInOrder(dir, said, a, wanted);
      hide Inv, Converging, Shows, Drained, IsRun, WentWell, Told, RightOrder, Wanted;
      ShowsOneText(Drained(s, dir, l, outcomes).remote.discord, a, Told(dir, said, a), wanted);
    }
  }

  /** On Discord is of each message of the channel what is wanted of it. */
  ghost predicate Mirrors(
      discord: seq<Message<int>>, dir: OutboundText.Directory, aural: seq<Message<Row>>, channel: int)
  {
    forall a: nat :: a < |aural| && aural[a].channel == channel ==> Shows(discord, a, Wanted(dir, aural[a]))
  }

  /** Every message of the channel was handed over in the right order. */
  ghost predicate AllInOrder(
      dir: OutboundText.Directory, said: seq<Handoff>, aural: seq<Message<Row>>, channel: int)
  {
    forall a: nat :: a < |aural| && aural[a].channel == channel ==> RightOrder(dir, said, a, Wanted(dir, aural[a]))
  }

  /** So the whole channel is mirrored if and only if the order is right for each of its messages and none is lost. */
  lemma {:induction false} ChannelConvergence(
      states: seq<State>, dir: OutboundText.Directory, actions: seq<Action>, l: int, k: nat, outcomes: seq<Outcome>)
    requires IsRun(states, dir, actions) && Initial(states[0]) && WentWell(states, actions, l) && k < |states|
    requires AllGood(outcomes) && |outcomes| == |Queue(states[k].relay.queues, l)|
    requires l in states[k].relay.links
    ensures var aural, channel := states[k].db.aural, states[k].relay.links[l].channel;
      Mirrors(Drained(states[k], dir, l, outcomes).remote.discord, dir, aural, channel)
      <==> AllInOrder(dir, Said(states, actions, k), aural, channel) && Lost(states, actions, l, k) == {}
  {
    assert k <= |actions|;
    var lost := Lost(states, actions, l, k);
    RunConverges(states, dir, actions, l, k);
    assert forall a: nat :: a in lost ==>
      a < |states[k].db.aural| && states[k].db.aural[a].channel == states[k].relay.links[l].channel;
    hide Lost, AllStray, Converging, Inv;
    hide Shows, Drained, IsRun, WentWell, Initial, RightOrder, Wanted, Said, AllGood;
    var aural, channel := states[k].db.aural, states[k].relay.links[l].channel;
    var discord, said := Drained(states[k], dir, l, outcomes).remote.discord, Said(states, actions, k);
    forall a: nat | a < |aural| && aural[a].channel == channel
      ensures Shows(discord, a, Wanted(dir, aural[a])) <==>
        RightOrder(dir, said, a, Wanted(dir, aural[a])) && a !in lost
    {
      Convergence(states, dir, actions, l, k, outcomes, a);
    }
  }

  // --- handing over in turn -------------------------------------------------

  /** Nothing stored earlier about the same message is passed over. */
  ghost predicate TakesTurn(s: State, act: Action, a: nat) {
    act.HandOver? && act.at < |s.handing| && About(s.handing[act.at], a) ==>
      forall j :: 0 <= j < act.at ==> !About(s.handing[j], a)
  }

  ghost predicate NothingAbout(handing: seq<Handoff>, a: nat) {
    forall j :: 0 <= j < |handing| ==> !About(handing[j], a)
  }

  lemma {:induction false} ToldSkips(
      dir: OutboundText.Directory, x: seq<Handoff>, y: seq<Handoff>, z: seq<Handoff>, a: nat)
    requires NothingAbout(y, a)
    ensures Told(dir, x + y + z, a) == Told(dir, x + z, a)
    decreases |y|, |z|
  {
    hide OutboundText.Rendered;
    if z != [] {
      ToldSkips(dir, x, y, z[..|z| - 1], a);
      assert (x + y + z)[..|x + y + z| - 1] == x + y + z[..|z| - 1];
      assert (x + z)[..|x + z| - 1] == x + z[..|z| - 1];
    } else if y != [] {
      ToldSkips(dir, x, y[..|y| - 1], [], a);
      assert x + y + [] == x + y && x + [] == x;
      assert (x + y)[..|x + y| - 1] == x + y[..|y| - 1];
      assert x + y[..|y| - 1] + [] == x + y[..|y| - 1];
    } else {
      assert x + y + z == x + z;
    }
  }

  /** Taking a handoff in its turn changes nothing in what all of them together tell. */
  lemma TakenInTurn(dir: OutboundText.Directory, said: seq<Handoff>, handing: seq<Handoff>, i: nat, a: nat)
    requires i < |handing|
    requires About(handing[i], a) ==> forall j :: 0 <= j < i ==> !About(handing[j], a)
    ensures Told(dir, said + [handing[i]] + Without(handing, i), a) == Told(dir, said + handing, a)
  {
    var h, before, after := [handing[i]], handing[..i], handing[i + 1..];
    assert said + handing == said + before + (h + after);
    assert said + handing == (said + before) + h + after;
    assert said + h + Without(handing, i) == said + h + (before + after);
    assert said + h + Without(handing, i) == (said + h) + before + after;
    if About(handing[i], a) {
      ToldSkips(dir, said, before, h + after, a);
      ToldSkips(dir, said + h, before, after, a);
      assert said + (h + after) == said + h + after;
    } else {
      ToldSkips(dir, said + before, h, after, a);
      ToldSkips(dir, said, h, before + after, a);
      assert said + (before + after) == said + before + after;
    }
  }

  ghost function WantedOf(dir: OutboundText.Directory, aural: seq<Message<Row>>, a: nat): Option<string> {
    if a < |aural| then Wanted(dir, aural[a]) else None
  }

  lemma ToldMore(dir: OutboundText.Directory, said: seq<Handoff>, handing: seq<Handoff>, h: Handoff, a: nat)
    ensures Told(dir, said + (handing + [h]), a) == Carry(dir, Told(dir, said + handing, a), h, a)
  {
    assert (said + (handing + [h]))[..|said| + |handing|] == said + handing;
  }

  /** What the bridge has been told of a message and is still to be told is together what is wanted of it. */
  ghost predicate Tells(s: State, dir: OutboundText.Directory, said: seq<Handoff>, a: nat) {
    Told(dir, said + s.handing, a) == WantedOf(dir, s.db.aural, a)
  }

  lemma WorkKeepsWanted(s: State, dir: OutboundText.Directory, l: int, o: Outcome, a: nat)
    requires Inv(s) && Enabled(s, Work(l, o))
    ensures var s' := Next(s, dir, Work(l, o));
      WantedOf(dir, s'.db.aural, a) == WantedOf(dir, s.db.aural, a) && s'.handing == s.handing
  {
    var p, job := s.(relay := Popped(s.relay, l)), s.relay.queues[l][0];
    var s' := Next(s, dir, Work(l, o));
    WorkInv(s, dir, l, o);
    assert forall i :: |s.db.aural| <= i < |s'.db.aural| ==> s'.db.aural[i].copyOf.Some? by {
      InvPairs(s);
      NewHereAreCopies(p, dir, job, o);
    }
    hide Inv, RunJob, CopyWasDue, PairsFit, NewsOf, Copied, OutboundText.Rendered;
  }

  lemma NewHereAreCopies(s: State, dir: OutboundText.Directory, job: Job, o: Outcome)
    requires PairsFit(s.db, s.remote.discord)
    ensures var s' := RunJob(s, dir, job, o);
      forall i :: |s.db.aural| <= i < |s'.db.aural| ==> s'.db.aural[i].copyOf.Some?
  {
    hide PairsFit, Blank, OutboundText.Rendered, CopyToChange, ApplyEdit, ApplyDelete;
    match job
    case EditOnAural(link, d, _) => ApplyEditStep(s.db, s.remote.discord, link, d, o);
    case DeleteOnAural(link, ids) => ApplyDeleteStep(s.db, s.remote.discord, link, ids, o.deletions);
    case _ =>
  }

  /** Something done here is stored, and told of in the handoff it leaves. */
  lemma HereTells(s: State, dir: OutboundText.Directory, act: Action, said: seq<Handoff>, a: nat)
    requires Enabled(s, act) && Tells(s, dir, said, a) && (act.Post? || act.EditHere? || act.DeleteHere?)
    ensures Tells(Next(s, dir, act), dir, said, a)
  {
    var s' := Next(s, dir, act);
    ToldMore(dir, said, s.handing, s'.handing[|s.handing|], a);
    hide Told, Blank, OutboundText.Rendered;
    assert s'.handing == s.handing + [s'.handing[|s.handing|]];
  }

  /** Whatever else happens stores nothing and hands nothing over. */
  lemma ElsewhereTells(s: State, dir: OutboundText.Directory, act: Action, said: seq<Handoff>, a: nat)
    requires Enabled(s, act) && Tells(s, dir, said, a)
    requires !(act.Post? || act.EditHere? || act.DeleteHere? || act.Work? || act.HandOver?)
    ensures Tells(Next(s, dir, act), dir, said, a)
  {
    hide Told, Wanted, OnEvent, Without, Blank;
  }

  lemma StepTells(s: State, dir: OutboundText.Directory, act: Action, said: seq<Handoff>, a: nat)
    requires Inv(s) && Enabled(s, act) && Tells(s, dir, said, a) && TakesTurn(s, act, a)
    ensures Tells(Next(s, dir, act), dir, SaidAfter(s, act, said), a)
  {
    hide Inv, Told, Wanted;
    match act
    case Work(l, o) =>
      WorkKeepsWanted(s, dir, l, o, a);
      hide WantedOf, RunJob;
    case HandOver(i) =>
      TakenInTurn(dir, said, s.handing, i, a);
      hide HandedOver;
    case Post(_, _, _, _) => HereTells(s, dir, act, said, a);
    case EditHere(_, _) => HereTells(s, dir, act, said, a);
    case DeleteHere(_) => HereTells(s, dir, act, said, a);
    case _ => ElsewhereTells(s, dir, act, said, a);
  }

  lemma {:induction false} RunTells(
      states: seq<State>, dir: OutboundText.Directory, actions: seq<Action>, k: nat, a: nat)
    requires IsRun(states, dir, actions) && Initial(states[0]) && k < |states|
    requires forall j :: 0 <= j < k ==> TakesTurn(states[j], actions[j], a)
    ensures Tells(states[k], dir, Said(states, actions, k), a)
  {
    if k > 0 {
      RunTells(states, dir, actions, k - 1, a);
      RunInv(states, dir, actions, k - 1);
      assert StepAt(states, dir, actions, k - 1);
      hide Inv, Tells, TakesTurn, Next, SaidAfter, Initial;
      StepTells(states[k - 1], dir, actions[k - 1], Said(states, actions, k - 1), a);
    }
  }

  /**
    If whatever was done to a message was handed over in the order in which it
    was stored, and all of it has been, and no sweep gave its copy up, then the
    order is right: running the queued jobs leaves exactly one copy with its
    present text, or none.
   */
  lemma {:induction false} InTurnConverges(
      states: seq<State>, dir: OutboundText.Directory, actions: seq<Action>, l: int, k: nat,
      outcomes: seq<Outcome>, a: nat)
    requires IsRun(states, dir, actions) && Initial(states[0]) && WentWell(states, actions, l) && k < |states|
    requires forall j :: 0 <= j < k ==> TakesTurn(states[j], actions[j], a)
    requires NothingAbout(states[k].handing, a) && a !in Lost(states, actions, l, k)
    requires AllGood(outcomes) && |outcomes| == |Queue(states[k].relay.queues, l)|
    requires l in states[k].relay.links
    requires a < |states[k].db.aural| && states[k].db.aural[a].channel == states[k].relay.links[l].channel
    ensures Shows(Drained(states[k], dir, l, outcomes).remote.discord, a, Wanted(dir, states[k].db.aural[a]))
  {
    var s, said, wanted := states[k], Said(states, actions, k), Wanted(dir, states[k].db.aural[a]);
    RunTells(states, dir, actions, k, a);
    ToldSkips(dir, said, s.handing, [], a);
    assert said + s.handing + [] == said + s.handing && said + [] == said;
    ToldInOrder(dir, said, a, wanted);
    hide Shows, Drained, IsRun, WentWell, Told, RightOrder, Wanted, NothingAbout, TakesTurn, Initial, Lost;
    Convergence(states, dir, actions, l, k, outcomes, a);
  }

  // --- the orders that go wrong ---------------------------------------------

  lemma Extended(states: seq<State>, dir: OutboundText.Directory, actions: seq<Action>, l: int, a: Action)
    returns (states': seq<State>, actions': seq<Action>)
    requires IsRun(states, dir, actions) && WentWell(states, actions, l)
    requires var s := states[|states| - 1]; Up(s.relay, l) && Enabled(s, a) && GoesWell(s, l, a)
    ensures IsRun(states', dir, actions') && WentWell(states', actions', l)
    ensures states' == states + [Next(states[|states| - 1], dir, a)] && actions' == actions + [a]
    ensures Said(states', actions', |actions'|)
         == SaidAfter(states[|states| - 1], a, Said(states, actions, |actions|))
    ensures Lost(states', actions', l, |actions'|)
         == Lost(states, actions, l, |actions|) + LostBy(states[|states| - 1], l, a)
  {
    states', actions' := states + [Next(states[|states| - 1], dir, a)], actions + [a];
    hide Enabled, GoesWell, Next, Up, SaidAfter, LostBy;
    forall k: nat | k < |actions'|
      ensures StepAt(states', dir, actions', k)
    {
      if k < |actions| { assert StepAt(states, dir, actions, k); }
    }
    SaidPrefix(states, actions, states', actions', |actions|);
    LostPrefix(states, actions, states', actions', l, |actions|);
  }

  lemma {:induction false} LostPrefix(
      states: seq<State>, actions: seq<Action>, states': seq<State>, actions': seq<Action>, l: int, k: nat)
    requires k < |states| && k <= |actions| && states <= states' && actions <= actions'
    ensures Lost(states', actions', l, k) == Lost(states, actions, l, k)
  {
    if k > 0 {
      hide LostBy;
      LostPrefix(states, actions, states', actions', l, k - 1);
    }
  }

  lemma {:induction false} SaidPrefix(
      states: seq<State>, actions: seq<Action>, states': seq<State>, actions': seq<Action>, k: nat)
    requires k < |states| && k <= |actions| && states <= states' && actions <= actions'
    ensures Said(states', actions', k) == Said(states, actions, k)
  {
    if k > 0 {
      SaidPrefix(states, actions, states', actions', k - 1);
    }
  }

  /** Handing over one thing queues at most one job, and leaves the links as they were. */
  lemma HandOverAdds(s: State, dir: OutboundText.Directory, l: int, i: nat)
    requires Enabled(s, HandOver(i)) && Up(s.relay, l)
    ensures var s' := Next(s, dir, HandOver(i));
      && Up(s'.relay, l) && s'.relay.links == s.relay.links
      && s'.db == s.db && s'.handing == Without(s.handing, i)
      && |Queue(s'.relay.queues, l)| <= |Queue(s.relay.queues, l)| + 1
  {
    HandedOverMeans(s.relay, s.handing[i]);
    hide HandedOver, OutboundLink;
  }

  ghost predicate RunOf(
      states: seq<State>, dir: OutboundText.Directory, actions: seq<Action>, l: int, said: seq<Handoff>)
  {
    && |states| == |actions| + 1 && IsRun(states, dir, actions)
    && Initial(states[0]) && WentWell(states, actions, l)
    && Up(states[|actions|].relay, l) && Said(states, actions, |actions|) == said
    && Lost(states, actions, l, |actions|) == {}
  }

  /** Some run from the beginning that went well for the link ends here, having handed over just this. */
  ghost predicate Reached(dir: OutboundText.Directory, l: int, said: seq<Handoff>, s: State) {
    exists states, actions :: RunOf(states, dir, actions, l, said) && states[|actions|] == s
  }

  lemma ReachedStart(s: State, dir: OutboundText.Directory, l: int)
    requires Initial(s) && Up(s.relay, l)
    ensures Reached(dir, l, [], s) && s.db.aural == [] && s.handing == [] && Queue(s.relay.queues, l) == []
  {
    var states: seq<State>, actions: seq<Action> := [s], [];
    assert RunOf(states, dir, actions, l, []) && states[|actions|] == s;
  }

  lemma ReachedUp(dir: OutboundText.Directory, l: int, said: seq<Handoff>, s: State)
    requires Reached(dir, l, said, s)
    ensures Up(s.relay, l)
  {}

  lemma ReachedNext(dir: OutboundText.Directory, l: int, said: seq<Handoff>, s: State, a: Action)
    requires Reached(dir, l, said, s) && Up(s.relay, l) && Enabled(s, a) && GoesWell(s, l, a) && !a.Sweep?
    requires Up(Next(s, dir, a).relay, l)
    ensures Reached(dir, l, SaidAfter(s, a, said), Next(s, dir, a))
  {
    var states, actions :| RunOf(states, dir, actions, l, said) && states[|actions|] == s;
    assert {} + LostBy(s, l, a) == {};
    hide GoesWell, Initial, IsRun, WentWell, Blank, Next, Enabled, Up, SaidAfter, Said, Lost, LostBy;
    var states', actions' := Extended(states, dir, actions, l, a);
    assert RunOf(states', dir, actions', l, SaidAfter(s, a, said));
  }

  /** Somebody does something here, and nothing is handed over yet. */
  lemma DoneHere(
      dir: OutboundText.Directory, l: int, said: seq<Handoff>, s: State, a: Action, m: Message<Row>, h: Handoff)
    returns (s': State)
    requires Reached(dir, l, said, s) && Enabled(s, a) && h.m.webhook.None?
    requires match a
      case Post(channel, webhook, content, ordinary) =>
        m == Message(channel, webhook, None, content, ordinary, true) && h == HandPost(|s.db.aural|, m)
      case EditHere(id, content) => m == s.db.aural[id].(content := content) && h == HandEdit(id, m)
      case DeleteHere(id) => m == s.db.aural[id].(alive := false) && h == HandDelete(id, s.db.aural[id])
      case _ => false
    ensures Reached(dir, l, said, s') && s'.relay == s.relay && s'.handing == s.handing + [h]
    ensures s'.db.aural == if a.Post? then s.db.aural + [m] else s.db.aural[h.id := m]
  {
    ReachedUp(dir, l, said, s);
    hide Blank, Reached;
    s' := Next(s, dir, a);
    ReachedNext(dir, l, said, s, a);
  }

  /** A handoff is taken, whichever it is; the link's queue has room for it. */
  lemma HandedOne(dir: OutboundText.Directory, l: int, said: seq<Handoff>, s: State, i: nat) returns (s': State)
    requires Reached(dir, l, said, s) && i < |s.handing| && HasRoom(s.relay, l)
    ensures Reached(dir, l, said + [s.handing[i]], s')
    ensures s'.db == s.db && s'.handing == Without(s.handing, i) && s'.relay.links == s.relay.links
    ensures |Queue(s'.relay.queues, l)| <= |Queue(s.relay.queues, l)| + 1
  {
    ReachedUp(dir, l, said, s);
    HandOverAdds(s, dir, l, i);
    hide HandedOver, Without, Up, Reached;
    s' := Next(s, dir, HandOver(i));
    ReachedNext(dir, l, said, s, HandOver(i));
  }

  /** Of two handoffs the later is taken first. */
  lemma HandedBackwards(dir: OutboundText.Directory, l: int, said: seq<Handoff>, s: State, x: Handoff, y: Handoff)
    returns (s': State)
    requires Reached(dir, l, said, s) && s.handing == [x, y] && |Queue(s.relay.queues, l)| <= 1
    ensures Reached(dir, l, said + [y] + [x], s') && s'.handing == []
    ensures s'.db == s.db && s'.relay.links == s.relay.links
  {
    hide Reached;
    var s1 := HandedOne(dir, l, said, s, 1);
    assert s1.handing == [x];
    s' := HandedOne(dir, l, said + [y], s1, 0);
  }

  /** If the jobs still queued are run, then there is this text on Discord of a message, or none. */
  ghost predicate WillShow(s: State, dir: OutboundText.Directory, l: int, a: nat, text: Option<string>) {
    forall outcomes :: AllGood(outcomes) && |outcomes| == |Queue(s.relay.queues, l)| ==>
      Shows(Drained(s, dir, l, outcomes).remote.discord, a, text)
  }

  /** What was handed over tells what will be there. */
  lemma ReachedShows(dir: OutboundText.Directory, l: int, said: seq<Handoff>, s: State, a: nat)
    requires Reached(dir, l, said, s) && l in s.relay.links
    requires a < |s.db.aural| && s.db.aural[a].channel == s.relay.links[l].channel
    ensures WillShow(s, dir, l, a, Told(dir, said, a))
  {
    var states, actions :| RunOf(states, dir, actions, l, said) && states[|actions|] == s;
    RunConverges(states, dir, actions, l, |actions|);
    hide Converging, Inv, WentWell, IsRun, Initial, Shows, Drained, Told;
    forall outcomes | AllGood(outcomes) && |outcomes| == |Queue(s.relay.queues, l)|
      ensures Shows(Drained(s, dir, l, outcomes).remote.discord, a, Told(dir, said, a))
    {
      DrainingShows(s, dir, l, said, {}, outcomes, a);
    }
  }

  lemma {:induction false} ToldOfTwo(dir: OutboundText.Directory, x: Handoff, y: Handoff, a: nat)
    ensures Told(dir, [x] + [y], a) == Carry(dir, Carry(dir, None, x, a), y, a)
  {
    ToldMore(dir, [], [x], y, a);
    ToldMore(dir, [], [], x, a);
    assert [] + ([x] + [y]) == [x] + [y] && [] + ([] + [x]) == [] + [x];
  }

  lemma {:induction false} ToldOfThree(dir: OutboundText.Directory, x: Handoff, y: Handoff, z: Handoff, a: nat)
    ensures Told(dir, [x] + [y] + [z], a) == Carry(dir, Carry(dir, Carry(dir, None, x, a), y, a), z, a)
  {
    ToldOfTwo(dir, x, y, a);
    ToldMore(dir, [], [x] + [y], z, a);
    assert [] + ([x] + [y] + [z]) == [x] + [y] + [z] && [] + ([x] + [y]) == [x] + [y];
  }

  /** A message as it is stored, and as it is after the change. */
  function First(channel: int, text: string): Message<Row> {
    Message(channel, None, None, text, true, true)
  }

  function Changed(m: Message<Row>, change: Action): Message<Row>
    requires change.EditHere? || change.DeleteHere?
  {
    if change.DeleteHere? then m.(alive := false) else m.(content := change.content)
  }

  lemma Stored(s: State, dir: OutboundText.Directory, l: int, text: string) returns (s': State)
    requires Initial(s) && Up(s.relay, l) && !Blank(text)
    ensures var m := First(s.relay.links[l].channel, text);
      Reached(dir, l, [], s') && s'.db.aural == [m] && s'.handing == [HandPost(0, m)]
    ensures s'.relay.links == s.relay.links && Queue(s'.relay.queues, l) == []
  {
    var m := First(s.relay.links[l].channel, text);
    ReachedStart(s, dir, l);
    hide Blank, Initial, Reached, Up, GoesWell, Next;
    s' := DoneHere(dir, l, [], s, Post(m.channel, None, text, true), m, HandPost(0, m));
  }

  lemma StoredThenChanged(s: State, dir: OutboundText.Directory, l: int, text: string, change: Action)
    returns (s': State, h: Handoff)
    requires Initial(s) && Up(s.relay, l) && !Blank(text)
    requires change == DeleteHere(0) || (change.EditHere? && change.id == 0 && !Blank(change.content))
    ensures var m := First(s.relay.links[l].channel, text);
      Reached(dir, l, [], s') && s'.db.aural == [Changed(m, change)] && s'.handing == [HandPost(0, m), h]
    ensures s'.relay.links == s.relay.links && Queue(s'.relay.queues, l) == []
    ensures !h.HandPost? && h.id == 0
  {
    var m := First(s.relay.links[l].channel, text);
    var s1 := Stored(s, dir, l, text);
    hide Blank, Initial, Reached, Up, GoesWell, Next;
    h := if change.DeleteHere? then HandDelete(0, m) else HandEdit(0, Changed(m, change));
    s' := DoneHere(dir, l, [], s1, change, Changed(m, change), h);
  }

  /**
    A message is stored, then edited or deleted, and handed over after its
    change. Every call goes well, nothing is left to hand over, and the copy on
    Discord will still say what was posted.
   */
  lemma ChangeOvertakesItsPost(s: State, dir: OutboundText.Directory, l: int, text: string, change: Action)
    returns (said: seq<Handoff>, last: State)
    requires Initial(s) && Up(s.relay, l) && !Blank(text)
    requires change == DeleteHere(0) || (change.EditHere? && change.id == 0 && !Blank(change.content))
    ensures Reached(dir, l, said, last) && last.handing == []
    ensures last.db.aural == [Changed(First(s.relay.links[l].channel, text), change)]
    ensures WillShow(last, dir, l, 0, Some(OutboundText.Rendered(dir, text)))
  {
    var p := HandPost(0, First(s.relay.links[l].channel, text));
    var s2, h := StoredThenChanged(s, dir, l, text, change);
    hide Blank, WillShow, OutboundText.Rendered, Initial, Reached, Told;
    last := HandedBackwards(dir, l, [], s2, p, h);
    said := [h] + [p];
    assert [] + [h] + [p] == said;
    ReachedShows(dir, l, said, last, 0);
    ToldOfTwo(dir, h, p, 0);
  }

  /** A message stored and handed over. */
  lemma Posted(s: State, dir: OutboundText.Directory, l: int, text: string) returns (s': State)
    requires Initial(s) && Up(s.relay, l) && !Blank(text)
    ensures var m := First(s.relay.links[l].channel, text);
      Reached(dir, l, [HandPost(0, m)], s') && s'.db.aural == [m] && s'.handing == []
    ensures s'.relay.links == s.relay.links && |Queue(s'.relay.queues, l)| <= 1
  {
    var m := First(s.relay.links[l].channel, text);
    var s1 := Stored(s, dir, l, text);
    hide Blank, Initial, Reached;
    s' := HandedOne(dir, l, [], s1, 0);
    assert [] + [HandPost(0, m)] == [HandPost(0, m)];
  }

  /** Two edits of one message handed over the other way round: the earlier one is what will stay on Discord. */
  lemma EditsOvertakeEachOther(
      s: State, dir: OutboundText.Directory, l: int, text: string, first: string, second: string)
    returns (said: seq<Handoff>, last: State)
    requires Initial(s) && Up(s.relay, l) && !Blank(text) && !Blank(first) && !Blank(second)
    ensures Reached(dir, l, said, last) && last.handing == []
    ensures last.db.aural == [First(s.relay.links[l].channel, second)]
    ensures WillShow(last, dir, l, 0, Some(OutboundText.Rendered(dir, first)))
  {
    var m := First(s.relay.links[l].channel, text);
    var m1, m2 := m.(content := first), m.(content := second);
    var p, h1, h2 := HandPost(0, m), HandEdit(0, m1), HandEdit(0, m2);
    var s2 := Posted(s, dir, l, text);
    hide Blank, WillShow, OutboundText.Rendered, Initial, Reached, Told, Up;
    var s3 := DoneHere(dir, l, [p], s2, EditHere(0, first), m1, h1);
    var s4 := DoneHere(dir, l, [p], s3, EditHere(0, second), m2, h2);
    assert s4.handing == [h1, h2];
    last := HandedBackwards(dir, l, [p], s4, h1, h2);
    said := [p] + [h2] + [h1];
    hide Enabled;
    ReachedShows(dir, l, said, last, 0);
    ToldOfThree(dir, p, h2, h1, 0);
  }

  // --- housekeeping ---------------------------------------------------------

  lemma ReachedText(dir: OutboundText.Directory, l: int, said: seq<Handoff>, s: State, a: nat)
    requires Reached(dir, l, said, s) && Queue(s.relay.queues, l) == []
    requires a < |s.db.aural| && s.db.aural[a].channel == s.relay.links[l].channel
    ensures CopyText(s.db.pairs, s.remote.discord, a) == Told(dir, said, a)
  {
    var states, actions :| RunOf(states, dir, actions, l, said) && states[|actions|] == s;
    RunConverges(states, dir, actions, l, |actions|);
    hide Inv, WentWell, IsRun, Initial, Told, CopyText, JobsKnown, PairedExactly, SaidFits, RowsAreOurs, HandingSays;
    assert Scope(s.relay.links[l].channel, {}).Has(s.db.aural, a);
    assert After(dir, CopyText(s.db.pairs, s.remote.discord, a), [], a) == Told(dir, said, a);
  }

  lemma ReachedInv(dir: OutboundText.Directory, l: int, said: seq<Handoff>, s: State)
    requires Reached(dir, l, said, s)
    ensures Inv(s) && Up(s.relay, l)
  {
    var states, actions :| RunOf(states, dir, actions, l, said) && states[|actions|] == s;
    hide Inv, WentWell, Initial, Lost, Up;
    RunInv(states, dir, actions, |actions|);
  }

  /** What is queued, one job at most, is run. */
  lemma RunDry(dir: OutboundText.Directory, l: int, said: seq<Handoff>, s: State, o: Outcome, a: nat)
    returns (s': State)
    requires Reached(dir, l, said, s) && |Queue(s.relay.queues, l)| <= 1 && Good(o) && a < |s.db.aural|
    ensures Reached(dir, l, said, s') && Queue(s'.relay.queues, l) == [] && Up(s'.relay, l) && a < |s'.db.aural|
    ensures s'.db.aural[a].channel == s.db.aural[a].channel && Wanted(dir, s'.db.aural[a]) == Wanted(dir, s.db.aural[a])
    ensures s'.relay.links[l].channel == s.relay.links[l].channel
  {
    ReachedInv(dir, l, said, s);
    if Queue(s.relay.queues, l) == [] {
      s' := s;
    } else {
      var work := Work(l, o);
      s' := Next(s, dir, work);
      WorkKeepsChannels(s, dir, l, o);
      WorkKeepsWanted(s, dir, l, o, a);
      RunRoutes(s.(relay := Popped(s.relay, l)), dir, s.relay.queues[l][0], o);
      assert Up(s'.relay, l) by { hide RunJob, Inv, Reached; }
      hide Inv, RunJob, Reached, Wanted;
      ReachedNext(dir, l, said, s, work);
    }
  }

  lemma OneLost(s: State, l: int)
    requires Up(s.relay, l) && 0 < |s.db.aural| && s.db.aural[0].channel == s.relay.links[l].channel
    requires CopyText(s.db.pairs, s.remote.discord, 0).Some?
    ensures LostBy(s, l, Sweep({0})) == {0}
  {}

  lemma SweptAfter(dir: OutboundText.Directory, l: int, said: seq<Handoff>, s: State)
    returns (states: seq<State>, actions: seq<Action>)
    requires Reached(dir, l, said, s) && Up(s.relay, l) && 0 < |s.db.aural| && !s.db.aural[0].alive
    requires s.db.aural[0].channel == s.relay.links[l].channel
    requires CopyText(s.db.pairs, s.remote.discord, 0).Some?
    ensures IsRun(states, dir, actions) && Initial(states[0]) && WentWell(states, actions, l)
    ensures Lost(states, actions, l, |actions|) == {0}
  {
    states, actions :| RunOf(states, dir, actions, l, said) && states[|actions|] == s;
    hide Initial, IsRun, WentWell, Lost, LostBy, CopyText;
    OneLost(s, l);
    hide Up, Said;
    states, actions := Extended(states, dir, actions, l, Sweep({0}));
    assert {} + {0} == {0};
  }

  /**
    Somebody deletes a message that has crossed, and before the deletion is
    handed over housekeeping drops the pairing: the copy is given up.
   */
  lemma SweepOvertakesDeletion(s: State, dir: OutboundText.Directory, l: int, text: string, o: Outcome)
    returns (states: seq<State>, actions: seq<Action>)
    requires Initial(s) && Up(s.relay, l) && !Blank(text) && Good(o)
    ensures IsRun(states, dir, actions) && Initial(states[0]) && WentWell(states, actions, l)
    ensures Lost(states, actions, l, |actions|) == {0}
  {
    var s1 := Posted(s, dir, l, text);
    var said := [HandPost(0, First(s.relay.links[l].channel, text))];
    assert Wanted(dir, s1.db.aural[0]).Some?;
    hide Blank, Reached, Initial, WentWell, Lost, Up;
    var s2 := RunDry(dir, l, said, s1, o, 0);
    ReachedText(dir, l, said, s2, 0);
    assert Told(dir, said, 0).Some?;
    var s3 := Next(s2, dir, DeleteHere(0));
    ReachedNext(dir, l, said, s2, DeleteHere(0));
    states, actions := SweptAfter(dir, l, said, s3);
  }

  /**
    A queued deletion removes a copy exactly when the pairing names that copy,
    so a pairing swept in between leaves the copy on Discord for good.
   */
  lemma DeletionNeedsItsPairing(s: State, id: nat, d: nat, o: Outcome)
    requires Inv(s) && o.reached && d < |s.remote.discord|
    requires s.remote.discord[d].alive && s.remote.discord[d].copyOf == Some(id)
    ensures PushDelete(s, id, o).remote.discord[d].alive <==>
      !(id in s.db.pairs && s.db.pairs[id].discordId == d)
  {
    InvPairs(s);
    assert CopiesOriginals(s.remote.discord, s.db.aural);
    if id in s.db.pairs { assert PairFits(id, s.db.pairs[id], s.db.aural, s.remote.discord); }
    hide Inv;
  }
}
