/** What each outcome of a job's calls leaves on Discord, in the pairings, and of rows. */
module BridgeOutcomes {
  import opened Wrappers
  import opened Bridge
  import OutboundText

  /** Unicode's spaces, one by one. */
  const SPACES := [
    '\U{9}', '\U{A}', '\U{B}', '\U{C}', '\U{D}', '\U{20}', '\U{85}', '\U{A0}', '\U{1680}', '\U{2000}', '\U{2001}',
    '\U{2002}', '\U{2003}', '\U{2004}', '\U{2005}', '\U{2006}', '\U{2007}', '\U{2008}', '\U{2009}', '\U{200A}',
    '\U{2028}', '\U{2029}', '\U{202F}', '\U{205F}', '\U{3000}']

  /** A text is blank, and so not sent, exactly when it is made of those alone. */
  lemma BlankMeans(text: string)
    ensures Blank(text) <==> forall i :: 0 <= i < |text| ==> text[i] in SPACES
  {
    forall c: char
      ensures IsSpace(c) <==> c in SPACES
    {}
  }

  predicate Sendable(content: string) {
    !Blank(OutboundText.EscapeOutbound(content))
  }

  /**
    A delivery that took effect leaves a copy for each time it did, as the
    message reads now, in the link's channel under its webhook; it is paired with
    the last of them if that was answered and recorded, and otherwise left alone.
   */
  lemma PostLeaves(s: State, dir: OutboundText.Directory, link: Link, id: nat, content: string, o: Outcome)
    ensures var s', n := RunJob(s, dir, ToDiscord(link, id, content), o), |s.remote.discord|;
      var effect := Sendable(content) && o.reached;
      && s'.remote.discord[..if effect then n else |s'.remote.discord|] == s.remote.discord
      && |s'.remote.discord| == (if effect then n + 1 + o.repeats else n)
      && (forall d :: n <= d < |s'.remote.discord| ==>
            s'.remote.discord[d] == Message(
              link.discordChannel, Some(link.webhook), Some(id), OutboundText.Rendered(dir, content), true, true))
      && s'.db.pairs ==
        (if effect && o.answered && o.recorded then s.db.pairs[id := Pair(link.id, n + o.repeats, FromAural)]
         else s.db.pairs)
      && s'.db.aural == s.db.aural && s'.db.rows == s.db.rows
  {
    hide Blank, OutboundText.Rendered, OutboundText.EscapeOutbound;
  }

  /** A message from here that is paired with one on Discord. */
  predicate Mirrored(s: State, id: nat) {
    id in s.db.pairs && s.db.pairs[id].origin.FromAural?
  }

  predicate There(s: State, id: nat) {
    && Mirrored(s, id) && s.db.pairs[id].discordId < |s.remote.discord|
    && s.remote.discord[s.db.pairs[id].discordId].alive
  }

  predicate EditForgets(s: State, id: nat, content: string, o: Outcome) {
    Mirrored(s, id) && Sendable(content) && !There(s, id) && o.answered && o.recorded
  }

  predicate DeleteForgets(s: State, id: nat, o: Outcome) {
    Mirrored(s, id) && o.answered && o.recorded && (There(s, id) ==> o.reached)
  }

  /** An edit that took effect rewrites the copy; finding none, it drops the pairing if answered and recorded. */
  lemma EditLeaves(s: State, dir: OutboundText.Directory, link: Link, id: nat, content: string, o: Outcome)
    ensures var s' := RunJob(s, dir, EditOnDiscord(link, id, content), o);
      && s'.db.aural == s.db.aural && s'.db.rows == s.db.rows && |s'.remote.discord| == |s.remote.discord|
      && (forall d :: 0 <= d < |s.remote.discord| ==>
            s'.remote.discord[d] ==
              if There(s, id) && d == s.db.pairs[id].discordId && Sendable(content) && o.reached
              then s.remote.discord[d].(content := OutboundText.Rendered(dir, content)) else s.remote.discord[d])
      && (forall a :: a in s'.db.pairs <==> a in s.db.pairs && !(a == id && EditForgets(s, id, content, o)))
      && (forall a :: a in s'.db.pairs ==> s'.db.pairs[a] == s.db.pairs[a])
  {
    hide Blank, OutboundText.Rendered, OutboundText.EscapeOutbound;
  }

  /** A deletion that took effect removes the copy, and drops the pairing if it is answered and recorded. */
  lemma DeleteLeaves(s: State, dir: OutboundText.Directory, link: Link, id: nat, o: Outcome)
    ensures var s' := RunJob(s, dir, DeleteOnDiscord(link, id), o);
      && s'.db.aural == s.db.aural && s'.db.rows == s.db.rows && |s'.remote.discord| == |s.remote.discord|
      && (forall d :: 0 <= d < |s.remote.discord| ==>
            s'.remote.discord[d] ==
              if There(s, id) && d == s.db.pairs[id].discordId && o.reached
              then s.remote.discord[d].(alive := false) else s.remote.discord[d])
      && (forall a :: a in s'.db.pairs <==> a in s.db.pairs && !(a == id && DeleteForgets(s, id, o)))
      && (forall a :: a in s'.db.pairs ==> s'.db.pairs[a] == s.db.pairs[a])
  {}

  /** Whether the row a link knew of is still there. */
  predicate RowIsThere(db: Db, link: Link) {
    link.source.Some? && link.source.value < |db.rows| && link.source.value !in db.gone
  }

  /**
    A delivery to this side makes a row for its channel when the one its link knew
    of is gone and one can be made, and the link writes under it from then on if
    that could be recorded.
   */
  lemma ProvisionLeaves(s: State, dir: OutboundText.Directory, link: Link, d: nat, content: string, o: Outcome)
    ensures var s' := RunJob(s, dir, ToAural(link, d, content), o);
      var makes := !RowIsThere(s.db, link) && !o.provisioned.NotCreated? && link.id in s.relay.links;
      && s'.db.rows == (if makes then s.db.rows + [link.channel] else s.db.rows)
      && s'.relay.queues == s.relay.queues && s'.relay.up == s.relay.up
      && s'.relay.links ==
        (if makes && o.provisioned.Done?
         then s.relay.links[link.id := s.relay.links[link.id].(source := Some(|s.db.rows|))] else s.relay.links)
  {}

  /** A deletion from Discord drops the pairing of what it deleted here just when that could be recorded. */
  lemma ForgetsWhenRecorded(db: Db, link: Link, d: nat, o: Deletion, a: nat)
    requires CopyToChange(db, link, d) == Some(a)
    ensures var db' := ApplyDelete(db, link, [d], [o]);
      && (a in db'.pairs <==> !(o.deleted && o.forgotten))
      && (forall b :: b != a ==> (b in db'.pairs <==> b in db.pairs) && (b in db.pairs ==> db'.pairs[b] == db.pairs[b]))
  {
    assert [d][1..] == [] && [o][1..] == [];
    hide CopyToChange;
  }

  /** What people on Discord, administrators and housekeeping do, and what comes of it to be heard. */
  lemma OthersLeave(s: State, dir: OutboundText.Directory, a: Action)
    requires Enabled(s, a)
    ensures var s' := Next(s, dir, a);
      match a
      case PostThere(channel, webhook, content, ordinary, byBot) =>
        && s'.remote.discord == s.remote.discord + [Message(channel, webhook, None, content, ordinary, true)]
        && s'.remote.events == s.remote.events + [Created(|s.remote.discord|, content, byBot)]
      case EditThere(id, content, cards, naming) =>
        && s'.remote.discord == s.remote.discord[id := s.remote.discord[id].(content := content)]
        && s'.remote.events == s.remote.events +
          [Edited(id, if naming then s.remote.discord[id].webhook else None, content, cards)]
      case DeleteThere(channel, ids) =>
        && |s'.remote.discord| == |s.remote.discord|
        && (forall d :: 0 <= d < |s.remote.discord| ==>
              s'.remote.discord[d] == s.remote.discord[d].(alive := s.remote.discord[d].alive && d !in ids))
        && s'.remote.events == s.remote.events + [Deleted(channel, ids)]
      case Deliver(i) => s'.remote.events == s.remote.events[..i] + s.remote.events[i + 1..]
      case Lose(i) => s' == s.(remote := Remote(s.remote.discord, s.remote.events[..i] + s.remote.events[i + 1..]))
      case SetLink(l, direction, enabled, relayEdits) =>
        && (forall m :: m in s'.relay.links <==> m in s.relay.links)
        && (forall m :: m in s.relay.links && m != l ==> s'.relay.links[m] == s.relay.links[m])
        && s'.relay.links[l].direction == direction && s'.relay.links[l].enabled == enabled
        && s'.relay.links[l].relayEdits == relayEdits && s'.relay.links[l].source == s.relay.links[l].source
        && SameRoute(s.relay.links[l], s'.relay.links[l])
      case DropRow(row) => s' == s.(db := s.db.(gone := s.db.gone + {row}))
      case Connect(up) => s' == s.(relay := s.relay.(up := up))
      case Sweep(ids) => s' == s.(db := s.db.(pairs := s.db.pairs - ids))
      case _ => true
  {
    hide OnEvent, RunJob, HandedOver, Blank;
  }
}
