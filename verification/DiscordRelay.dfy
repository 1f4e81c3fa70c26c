/**
  The relay's own code over its fields: the indexes rebuilt by setLinks, the
  queues, and the methods on either side, each proved to do what the step of the
  Bridge module says.
 */
module DiscordRelay {
  import opened Wrappers
  import opened Bridge
  import Collections
  import OutboundText

  ghost predicate HasId(rows: seq<Link>, l: int) {
    exists i :: 0 <= i < |rows| && rows[i].id == l
  }

  ghost predicate HasWebhook(rows: seq<Link>, w: int) {
    exists i :: 0 <= i < |rows| && rows[i].webhook == w
  }

  ghost predicate HasSource(rows: seq<Link>, n: nat) {
    exists i :: 0 <= i < |rows| && rows[i].source == Some(n)
  }

  /** The store's rows and the links by number are the same. */
  ghost predicate Listed(links: map<int, Link>, rows: seq<Link>) {
    && (forall i :: 0 <= i < |rows| ==> rows[i].id in links && links[rows[i].id] == rows[i])
    && (forall l :: l in links ==> HasId(rows, l))
  }

  ghost predicate ByChannel(index: map<int, Link>, rows: seq<Link>) {
    && (forall c :: c in index ==> index[c].channel == c && index[c] in rows)
    && (forall i :: 0 <= i < |rows| ==> rows[i].channel in index)
  }

  ghost predicate ByDiscord(index: map<int, Link>, rows: seq<Link>) {
    && (forall c :: c in index ==> index[c].discordChannel == c && index[c] in rows)
    && (forall i :: 0 <= i < |rows| ==> rows[i].discordChannel in index)
  }

  ghost predicate Guards(own: set<int>, inbound: set<nat>, live: set<int>, rows: seq<Link>) {
    && (forall w :: w in own <==> HasWebhook(rows, w))
    && (forall n :: n in inbound <==> HasSource(rows, n))
    && (forall l :: l in live <==> HasId(rows, l))
  }

  lemma NothingListed()
    ensures ByChannel(map[], []) && ByDiscord(map[], []) && Guards({}, {}, {}, [])
  {}

  lemma IndexMore(channels: map<int, Link>, discords: map<int, Link>, rows: seq<Link>, l: Link)
    requires ByChannel(channels, rows) && ByDiscord(discords, rows)
    ensures ByChannel(channels[l.channel := l], rows + [l]) && ByDiscord(discords[l.discordChannel := l], rows + [l])
  {}

  lemma OneMoreRow(rows: seq<Link>, l: Link, k: int, n: nat)
    ensures HasId(rows + [l], k) <==> HasId(rows, k) || l.id == k
    ensures HasWebhook(rows + [l], k) <==> HasWebhook(rows, k) || l.webhook == k
    ensures HasSource(rows + [l], n) <==> HasSource(rows, n) || l.source == Some(n)
  {
    var more := rows + [l];
    assert more[|rows|] == l;
    assert forall i :: 0 <= i < |rows| ==> more[i] == rows[i];
  }

  lemma GuardsMore(own: set<int>, inbound: set<nat>, live: set<int>, rows: seq<Link>, l: Link)
    requires Guards(own, inbound, live, rows)
    ensures Guards(own + {l.webhook}, if l.source.Some? then inbound + {l.source.value} else inbound,
                   live + {l.id}, rows + [l])
  {
    hide HasId, HasWebhook, HasSource;
    forall k: int
      ensures HasId(rows + [l], k) <==> HasId(rows, k) || l.id == k
      ensures HasWebhook(rows + [l], k) <==> HasWebhook(rows, k) || l.webhook == k
    {
      OneMoreRow(rows, l, k, 0);
    }
    forall n: nat
      ensures HasSource(rows + [l], n) <==> HasSource(rows, n) || l.source == Some(n)
    {
      OneMoreRow(rows, l, 0, n);
    }
  }

  lemma LiveMeans(own: set<int>, inbound: set<nat>, live: set<int>, rows: seq<Link>, l: int)
    requires Guards(own, inbound, live, rows)
    ensures l in live <==> HasId(rows, l)
  {}

  lemma RowsAreLinks(links: map<int, Link>, rows: seq<Link>, k: int, n: nat)
    requires Listed(links, rows)
    ensures HasWebhook(rows, k) <==> IsOwn(links, Some(k))
    ensures HasSource(rows, n) <==> IsInbound(links, Some(Relays(n)))
    ensures HasId(rows, k) <==> k in links
  {
    if IsOwn(links, Some(k)) {
      var l :| l in links && links[l].webhook == k;
      var i :| 0 <= i < |rows| && rows[i].id == l;
      assert rows[i].webhook == k;
    }
    if IsInbound(links, Some(Relays(n))) {
      var l :| l in links && links[l].source == Some(n);
      var i :| 0 <= i < |rows| && rows[i].id == l;
      assert rows[i].source == Some(n);
    }
  }

  /** Between two messages there is at most one pairing on a link. */
  ghost predicate PairedOnce(pairs: map<nat, Pair>) {
    forall a, b :: a in pairs && b in pairs ==>
      pairs[a].link == pairs[b].link && pairs[a].discordId == pairs[b].discordId ==> a == b
  }

  lemma PairingIsUnique(s: State)
    requires Inv(s)
    ensures PairedOnce(s.db.pairs)
  {
    var aural, discord := s.db.aural, s.remote.discord;
    assert CopiedOnce(aural) && CopiesOriginals(aural, discord);
    InvPairs(s);
    assert forall a :: a in s.db.pairs ==> PairFits(a, s.db.pairs[a], aural, discord);
    hide Inv, PairsFit;
  }

  /** The store's rows after setting one link's source webhook. */
  function WithSource(list: seq<Link>, id: int, row: nat): seq<Link> {
    seq(|list|, i requires 0 <= i < |list| => if list[i].id == id then list[i].(source := Some(row)) else list[i])
  }

  lemma SourceSet(links: map<int, Link>, list: seq<Link>, id: int, row: nat)
    requires LinksFit(links) && Listed(links, list) && id in links
    ensures LinksFit(links[id := links[id].(source := Some(row))])
    ensures Listed(links[id := links[id].(source := Some(row))], WithSource(list, id, row))
  {
    var links', list' := links[id := links[id].(source := Some(row))], WithSource(list, id, row);
    forall l | l in links'
      ensures HasId(list', l)
    {
      assert HasId(list, l);
      var i :| 0 <= i < |list| && list[i].id == l;
      assert list'[i].id == l;
    }
  }

  class DiscordRelay {
    var byChannel: map<int, Link>
    var byDiscord: map<int, Link>
    var ownWebhooks: set<int>
    var inboundWebhooks: set<nat>
    var queues: map<int, seq<Job>>
    var connected: bool

    // The store.
    var linkRows: seq<Link>
    var aural: seq<Message<Row>>
    var pairs: map<nat, Pair>
    var rows: seq<int>
    var gone: set<nat>

    // What handlers have stored and not yet handed to the relay.
    var handing: seq<Handoff>

    // Discord.
    var discord: seq<Message<int>>
    var events: seq<Event>

    ghost var links: map<int, Link>
    const dir: OutboundText.Directory

    ghost function View(): State
      reads this
    {
      State(Db(aural, pairs, rows, gone), Remote(discord, events), Relay(links, queues, connected), handing)
    }

    /** The indexes and the guard sets are those of the rows in the store. */
    ghost predicate Indexed()
      reads this
    {
      && LinksFit(links) && Listed(links, linkRows)
      && ByChannel(byChannel, linkRows) && ByDiscord(byDiscord, linkRows)
      && Guards(ownWebhooks, inboundWebhooks, links.Keys, linkRows)
      && (forall l :: l in queues ==> l in links)
    }

    /** What every step finds and leaves. */
    ghost predicate Valid()
      reads this
    {
      Indexed() && Inv(View())
    }

    // --- links --------------------------------------------------------------

    /** Rebuilds the indexes and guard sets; the queues of links that are gone are handed back to be flushed. */
    method SetLinks(list: seq<Link>, ghost now: map<int, Link>) returns (retired: map<int, seq<Job>>)
      requires LinksFit(now) && Listed(now, list)
      modifies this`byChannel, this`byDiscord, this`ownWebhooks, this`inboundWebhooks, this`queues,
               this`linkRows, this`links
      ensures Indexed() && linkRows == list && links == now
      ensures forall l :: l in queues <==> l in old(queues) && l in now
      ensures forall l :: l in retired <==> l in old(queues) && l !in now
      ensures forall l :: l in old(queues) ==> old(queues)[l] == if l in now then queues[l] else retired[l]
      ensures (forall l :: l in old(queues) ==> l in now) ==> queues == old(queues)
    {
      var channels, discords, own, inbound, live := map[], map[], {}, {}, {};
      hide LinksFit, ByChannel, ByDiscord, Guards;
      NothingListed();
      for i := 0 to |list|
        invariant ByChannel(channels, list[..i]) && ByDiscord(discords, list[..i])
        invariant Guards(own, inbound, live, list[..i])
        invariant queues == old(queues)
      {
        assert list[..i + 1] == list[..i] + [list[i]];
        IndexMore(channels, discords, list[..i], list[i]);
        GuardsMore(own, inbound, live, list[..i], list[i]);
        channels := channels[list[i].channel := list[i]];
        discords := discords[list[i].discordChannel := list[i]];
        live := live + {list[i].id};
        own := own + {list[i].webhook};
        if list[i].source.Some? {
          inbound := inbound + {list[i].source.value};
        }
      }
      assert list[..|list|] == list;
      forall l: int
        ensures l in live <==> l in now
      {
        RowsAreLinks(now, list, l, 0);
        LiveMeans(own, inbound, live, list, l);
      }
      Collections.SameSet(live, now.Keys);
      byChannel, byDiscord, ownWebhooks, inboundWebhooks := channels, discords, own, inbound;
      linkRows, links := list, now;
      retired := map l | l in queues && l !in live :: queues[l];
      queues := map l | l in queues && l in live :: queues[l];
      if forall l :: l in old(queues) ==> l in now {
        Collections.SameMap(queues, old(queues));
      }
    }

    method LinkForChannel(channel: int) returns (link: Option<Link>)
      requires Indexed()
      ensures link == Bridge.LinkForChannel(links, channel)
    {
      return if channel in byChannel then Some(byChannel[channel]) else None;
    }

    method LinkForDiscord(channel: int) returns (link: Option<Link>)
      requires Indexed()
      ensures link == Bridge.LinkForDiscord(links, channel)
    {
      return if channel in byDiscord then Some(byDiscord[channel]) else None;
    }

    method IsOwnEcho(webhook: Option<int>) returns (ours: bool)
      requires Indexed()
      ensures ours == IsOwn(links, webhook)
    {
      if webhook.None? {
        return false;
      }
      RowsAreLinks(links, linkRows, webhook.value, 0);
      assert webhook == Some(webhook.value);
      return webhook.value in ownWebhooks;
    }

    method IsInboundMessage(webhook: Option<Row>) returns (ours: bool)
      requires Indexed()
      ensures ours == IsInbound(links, webhook)
    {
      if webhook.None? || webhook.value.Others? {
        return false;
      }
      RowsAreLinks(links, linkRows, 0, webhook.value.n);
      assert webhook == Some(Relays(webhook.value.n));
      return webhook.value.n in inboundWebhooks;
    }

    // --- queues -------------------------------------------------------------

    /** Never waits: a full queue drops the job. */
    method Enqueue(linkId: int, job: Job)
      requires Indexed() && linkId in links
      modifies this`queues
      ensures Indexed()
      ensures View().relay == Bridge.Enqueue(old(View().relay), linkId, job)
    {
      if linkId !in queues {
        queues := queues[linkId := []];
      }
      if |queues[linkId]| < QUEUE_DEPTH {
        queues := queues[linkId := queues[linkId] + [job]];
      }
    }

    // --- from here to Discord -----------------------------------------------

    method OutboundLink(m: Message<Row>) returns (link: Option<Link>)
      requires Indexed()
      ensures link == Bridge.OutboundLink(View().relay, m)
    {
      if !m.ordinary {
        return None;
      }
      var inbound := IsInboundMessage(m.webhook);
      if inbound {
        return None;
      }
      link := LinkForChannel(m.channel);
      if link.None? || !link.value.ToDiscord() {
        return None;
      }
      if !connected {
        return None;
      }
    }

    method OutboundMessage(id: nat, m: Message<Row>)
      requires Indexed()
      modifies this`queues
      ensures Indexed() && View().relay == Bridge.OutboundMessage(old(View().relay), id, m)
    {
      var link := OutboundLink(m);
      if link.None? {
        return;
      }
      Enqueue(link.value.id, ToDiscord(link.value, id, m.content));
    }

    method OutboundEdit(id: nat, m: Message<Row>)
      requires Indexed()
      modifies this`queues
      ensures Indexed() && View().relay == Bridge.OutboundEdit(old(View().relay), id, m)
    {
      var link := OutboundLink(m);
      if link.None? || !link.value.relayEdits {
        return;
      }
      Enqueue(link.value.id, EditOnDiscord(link.value, id, m.content));
    }

    method OutboundDelete(id: nat, m: Message<Row>)
      requires Indexed()
      modifies this`queues
      ensures Indexed() && View().relay == Bridge.OutboundDelete(old(View().relay), id, m)
    {
      var link := OutboundLink(m);
      if link.None? || !link.value.relayEdits {
        return;
      }
      Enqueue(link.value.id, DeleteOnDiscord(link.value, id));
    }

    // --- the handlers: what somebody did is stored, and later handed over -----

    method StoreMessage(channel: int, webhook: Option<Row>, content: string, ordinary: bool)
      requires Valid() && !Blank(content)
      modifies this`aural, this`handing
      ensures Valid() && View() == Next(old(View()), dir, Post(channel, webhook, content, ordinary))
    {
      StepInv(View(), dir, Post(channel, webhook, content, ordinary));
      hide Inv, Blank, LinksFit, Listed, ByChannel, ByDiscord, Guards;
      var created := Message(channel, webhook, None, content, ordinary, true);
      handing := handing + [HandPost(|aural|, created)];
      aural := aural + [created];
    }

    method StoreEdit(id: nat, content: string)
      requires Valid() && Enabled(View(), EditHere(id, content))
      modifies this`aural, this`handing
      ensures Valid() && View() == Next(old(View()), dir, EditHere(id, content))
    {
      StepInv(View(), dir, EditHere(id, content));
      hide Inv, Blank, LinksFit, Listed, ByChannel, ByDiscord, Guards;
      var updated := aural[id].(content := content);
      aural := aural[id := updated];
      handing := handing + [HandEdit(id, updated)];
    }

    /** A deletion is handed over with the message as it was. */
    method StoreDeletion(id: nat)
      requires Valid() && Enabled(View(), DeleteHere(id))
      modifies this`aural, this`handing
      ensures Valid() && View() == Next(old(View()), dir, DeleteHere(id))
    {
      StepInv(View(), dir, DeleteHere(id));
      hide Inv, LinksFit, Listed, ByChannel, ByDiscord, Guards;
      var existing := aural[id];
      aural := aural[id := existing.(alive := false)];
      handing := handing + [HandDelete(id, existing)];
    }

    /** Some handler that has stored and broadcast turns to the relay. */
    method HandOver(i: nat)
      requires Valid() && i < |handing|
      modifies this`handing, this`queues
      ensures Valid() && View() == Next(old(View()), dir, Action.HandOver(i))
    {
      StepInv(View(), dir, Action.HandOver(i));
      hide Inv, LinksFit, Listed, ByChannel, ByDiscord, Guards;
      var h := handing[i];
      handing := handing[..i] + handing[i + 1..];
      match h
      case HandPost(id, m) => OutboundMessage(id, m);
      case HandEdit(id, m) => OutboundEdit(id, m);
      case HandDelete(id, m) => OutboundDelete(id, m);
    }

    // --- from Discord to here -----------------------------------------------

    method OnDiscordMessage(id: nat, m: Message<int>, content: string, byBot: bool)
      requires Indexed()
      modifies this`queues
      ensures Indexed() && View().relay == Bridge.OnDiscordMessage(old(View().relay), id, m, content, byBot)
    {
      if !m.ordinary {
        return;
      }
      var ours := IsOwnEcho(m.webhook);
      if ours {
        return;
      }
      var link := LinkForDiscord(m.channel);
      if link.None? || !link.value.ToAural() {
        return;
      }
      if connected && byBot {
        return;
      }
      Enqueue(link.value.id, ToAural(link.value, id, content));
    }

    method OnDiscordEdit(id: nat, channel: int, webhook: Option<int>, content: string, cards: bool)
      requires Indexed()
      modifies this`queues
      ensures Indexed()
      ensures View().relay == Bridge.OnDiscordEdit(old(View().relay), id, channel, webhook, content, cards)
    {
      var ours := IsOwnEcho(webhook);
      if ours {
        return;
      }
      var link := LinkForDiscord(channel);
      if link.None? || !link.value.ToAural() || !link.value.relayEdits {
        return;
      }
      if content == "" && !cards {
        return;
      }
      Enqueue(link.value.id, EditOnAural(link.value, id, content));
    }

    method OnDiscordDelete(channel: int, ids: seq<nat>)
      requires Indexed()
      modifies this`queues
      ensures Indexed() && View().relay == Bridge.OnDiscordDelete(old(View().relay), channel, ids)
    {
      var link := LinkForDiscord(channel);
      if link.None? || !link.value.ToAural() || !link.value.relayEdits {
        return;
      }
      Enqueue(link.value.id, DeleteOnAural(link.value, ids));
    }

    /** The gateway delivers one of its events. */
    method OnGatewayEvent(i: nat)
      requires Valid() && i < |events|
      modifies this`events, this`queues
      ensures Valid() && View() == Next(old(View()), dir, Deliver(i))
    {
      StepInv(View(), dir, Deliver(i));
      hide Inv, LinksFit, Listed, ByChannel, ByDiscord, Guards;
      var e := events[i];
      events := events[..i] + events[i + 1..];
      match e
      case Created(id, content, byBot) =>
        if id < |discord| {
          OnDiscordMessage(id, discord[id], content, byBot);
        }
      case Edited(id, webhook, content, cards) =>
        if id < |discord| {
          OnDiscordEdit(id, discord[id].channel, webhook, content, cards);
        }
      case Deleted(channel, ids) =>
        OnDiscordDelete(channel, ids);
    }

    // --- the deliveries -----------------------------------------------------

    /** One post and its repetitions, each of which arrives; the last is the one answered. */
    method Execute(copy: Message<int>, repeats: nat) returns (posted: nat)
      modifies this`discord, this`events
      ensures posted == |old(discord)| + repeats
      ensures discord == old(discord) + seq(1 + repeats, _ => copy)
      ensures events
           == old(events) + seq(1 + repeats, i requires 0 <= i => Created(|old(discord)| + i, copy.content, false))
    {
      ghost var n := |discord|;
      posted := |discord|;
      for attempt := 0 to 1 + repeats
        invariant discord == old(discord) + seq(attempt, _ => copy)
        invariant events == old(events) + seq(attempt, i requires 0 <= i => Created(n + i, copy.content, false))
        invariant attempt > 0 ==> posted == n + attempt - 1
      {
        posted := |discord|;
        discord := discord + [copy];
        events := events + [Created(posted, copy.content, false)];
      }
    }

    method DeliverToDiscord(link: Link, id: nat, content: string, o: Outcome)
      modifies this`discord, this`events, this`pairs
      ensures View() == PostCopy(old(View()), dir, link, id, content, o)
    {
      hide Blank;
      var escaped := OutboundText.EscapeOutbound(content);
      if Blank(escaped) {
        return;
      }
      var rewritten := OutboundText.RewriteMentions(dir, escaped);
      var text := OutboundText.TruncateRunes(rewritten, MAX_MESSAGE_RUNES);
      if !o.reached {
        return;
      }
      var copy := Message(link.discordChannel, Some(link.webhook), Some(id), text, true, true);
      var posted := Execute(copy, o.repeats);
      if o.answered && o.recorded {
        pairs := pairs[id := Pair(link.id, posted, FromAural)];
      }
    }

    method PushEdit(id: nat, content: string, o: Outcome)
      modifies this`discord, this`events, this`pairs
      ensures View() == Bridge.PushEdit(old(View()), dir, id, content, o)
    {
      hide Blank;
      if id !in pairs || pairs[id].origin != FromAural {
        return;
      }
      var escaped := OutboundText.EscapeOutbound(content);
      if Blank(escaped) {
        return;
      }
      var rewritten := OutboundText.RewriteMentions(dir, escaped);
      var text := OutboundText.TruncateRunes(rewritten, MAX_MESSAGE_RUNES);
      var d := pairs[id].discordId;
      if d < |discord| && discord[d].alive {
        if o.reached {
          ghost var news := Edited(d, discord[d].webhook, text, false);
          for attempt := 0 to 1 + o.repeats
            invariant discord == if attempt == 0 then old(discord) else Rewritten(old(discord), d, text)
            invariant events == old(events) + seq(attempt, _ => news)
            invariant pairs == old(pairs)
          {
            events := events + [Edited(d, discord[d].webhook, text, false)];
            discord := discord[d := discord[d].(content := text)];
          }
        }
      } else if o.answered && o.recorded {
        // Discord has no such message: the pairing is stale.
        pairs := pairs - {id};
      }
    }

    method PushDelete(id: nat, o: Outcome)
      modifies this`discord, this`events, this`pairs
      ensures View() == Bridge.PushDelete(old(View()), id, o)
    {
      if id !in pairs || pairs[id].origin != FromAural {
        return;
      }
      var d := pairs[id].discordId;
      var refused := !o.answered;
      if d < |discord| && discord[d].alive {
        if o.reached {
          events := events + [Deleted(discord[d].channel, [d])];
          discord := discord[d := discord[d].(alive := false)];
        } else {
          refused := true;
        }
      }
      if refused {
        return;
      }
      if o.recorded {
        pairs := pairs - {id};
      }
    }

    /** Records a link's source webhook and reloads the links. */
    method SetSource(id: int, row: nat)
      requires Indexed() && id in links
      modifies this`links, this`linkRows, this`byChannel, this`byDiscord,
               this`ownWebhooks, this`inboundWebhooks, this`queues
      ensures Indexed() && queues == old(queues) && links == old(links)[id := old(links)[id].(source := Some(row))]
    {
      SourceSet(links, linkRows, id, row);
      ghost var now := links[id := links[id].(source := Some(row))];
      assert forall l :: l in queues ==> l in now;
      hide LinksFit, Listed, ByChannel, ByDiscord, Guards;
      var retired := SetLinks(WithSource(linkRows, id, row), now);
    }

    /**
      The row inbound messages are written under, made anew if the one known is
      gone. A row made and not recorded on the link stays in the store, unused.
     */
    method InboundWebhook(link: Link, o: Outcome) returns (row: Option<nat>)
      requires Indexed() && link.id in links
      modifies this`rows, this`links, this`linkRows, this`byChannel, this`byDiscord,
               this`ownWebhooks, this`inboundWebhooks, this`queues
      ensures Indexed() && View() == Provisioned(old(View()), link, o.provisioned)
      ensures row.Some? <==> HasRow(old(View().db), link) || o.provisioned.Done?
      ensures row.Some? ==> row.value == RowFor(old(View().db), link)
    {
      if link.source.Some? && link.source.value < |rows| && link.source.value !in gone {
        return Some(link.source.value);
      }
      if o.provisioned.NotCreated? {
        return None;
      }
      hide LinksFit, Listed, ByChannel, ByDiscord, Guards;
      var created := |rows|;
      rows := rows + [link.channel];
      if o.provisioned.NotRecorded? {
        return None;
      }
      SetSource(link.id, created);
      return Some(created);
    }

    method DeliverToAural(link: Link, d: nat, o: Outcome)
      requires Indexed() && link.id in links
      modifies this`aural, this`pairs, this`rows, this`links, this`linkRows, this`byChannel, this`byDiscord,
               this`ownWebhooks, this`inboundWebhooks, this`queues
      ensures Indexed() && View() == WriteCopy(old(View()), link, d, o)
    {
      var row := InboundWebhook(link, o);
      if row.None? {
        return;
      }
      if o.verdict.None? {
        return;
      }
      var content := o.verdict.value;
      if content == "" {
        return;
      }
      if |content| > MAX_MESSAGE_RUNES {
        content := content[..MAX_MESSAGE_RUNES];
      }
      if !o.reached {
        return;
      }
      var created := |aural|;
      aural := aural + [Message(link.channel, Some(Relays(row.value)), Some(d), content, true, true)];
      if o.recorded {
        pairs := pairs[created := Pair(link.id, d, FromDiscord)];
      }
    }

    method RelayMessageByDiscord(link: int, d: nat) returns (a: Option<nat>)
      requires PairedOnce(pairs)
      ensures a == Paired(pairs, link, d)
    {
      var left := pairs.Keys;
      while left != {}
        invariant left <= pairs.Keys
        invariant forall x :: x in pairs && x !in left ==> pairs[x].link != link || pairs[x].discordId != d
        decreases |left|
      {
        var x := Collections.Pick(left);
        if pairs[x].link == link && pairs[x].discordId == d {
          return Some(x);
        }
        left := left - {x};
      }
      return None;
    }

    method ApplyDiscordEdit(link: Link, d: nat, o: Outcome)
      requires PairedOnce(pairs)
      modifies this`aural
      ensures View() == old(View()).(db := ApplyEdit(old(View().db), link, d, o))
    {
      var a := RelayMessageByDiscord(link.id, d);
      if a.None? || pairs[a.value].origin != FromDiscord {
        return;
      }
      if o.verdict.None? {
        return;
      }
      var content := o.verdict.value;
      if |content| > MAX_MESSAGE_RUNES {
        content := content[..MAX_MESSAGE_RUNES];
      }
      if a.value < |aural| && aural[a.value].alive && o.recorded {
        aural := aural[a.value := aural[a.value].(content := content)];
      }
    }

    method ApplyDiscordDelete(link: Link, d: nat, o: Deletion)
      requires PairedOnce(pairs)
      modifies this`aural, this`pairs
      ensures PairedOnce(pairs)
      ensures View() == old(View()).(db := DeleteOne(old(View().db), link, d, o))
    {
      var a := RelayMessageByDiscord(link.id, d);
      if a.None? || pairs[a.value].origin != FromDiscord {
        return;
      }
      if a.value >= |aural| || !aural[a.value].alive {
        return;
      }
      if !o.deleted {
        return;
      }
      aural := aural[a.value := aural[a.value].(alive := false)];
      if o.forgotten {
        pairs := pairs - {a.value};
      }
    }

    /** Every message of a bulk deletion in turn, whether or not those before it could be deleted. */
    method ApplyDiscordDeletes(link: Link, ids: seq<nat>, o: Outcome)
      requires PairedOnce(pairs)
      modifies this`aural, this`pairs
      ensures View() == old(View()).(db := ApplyDelete(old(View().db), link, ids, o.deletions))
    {
      var n := if |ids| < |o.deletions| then |ids| else |o.deletions|;
      for i := 0 to n
        invariant PairedOnce(pairs)
        invariant View() == old(View()).(db := View().db)
        invariant ApplyDelete(View().db, link, ids[i..], o.deletions[i..])
               == ApplyDelete(old(View().db), link, ids, o.deletions)
      {
        assert ids[i..][0] == ids[i] && ids[i..][1..] == ids[i + 1..];
        assert o.deletions[i..][0] == o.deletions[i] && o.deletions[i..][1..] == o.deletions[i + 1..];
        ApplyDiscordDelete(link, ids[i], o.deletions[i]);
      }
    }

    method RunJob(job: Job, o: Outcome)
      requires Indexed() && PairedOnce(pairs) && job.link.id in links
      modifies this
      ensures Indexed() && View() == Bridge.RunJob(old(View()), dir, job, o)
    {
      hide PairedOnce, LinksFit, Listed, ByChannel, ByDiscord, Guards, Blank;
      hide PostCopy, Bridge.PushEdit, Bridge.PushDelete, WriteCopy, ApplyEdit, ApplyDelete;
      match job
      case ToDiscord(link, id, content) => DeliverToDiscord(link, id, content, o);
      case EditOnDiscord(_, id, content) => PushEdit(id, content, o);
      case DeleteOnDiscord(_, id) => PushDelete(id, o);
      case ToAural(link, d, _) => DeliverToAural(link, d, o);
      case EditOnAural(link, d, _) => ApplyDiscordEdit(link, d, o);
      case DeleteOnAural(link, ids) => ApplyDiscordDeletes(link, ids, o);
    }

    /** A link's worker takes the job at the head of its queue and runs it. */
    method RunNext(linkId: int, o: Outcome)
      requires Valid() && linkId in queues && queues[linkId] != [] && o.repeats <= MAX_RETRIES
      modifies this
      ensures Valid() && View() == Next(old(View()), dir, Work(linkId, o))
    {
      StepInv(View(), dir, Work(linkId, o));
      PairingIsUnique(View());
      PopInv(View(), linkId);
      hide Inv, PairedOnce, LinksFit, Listed, ByChannel, ByDiscord, Guards, JobFits, Clear, Untold, Bridge.RunJob;
      var job := queues[linkId][0];
      queues := queues[linkId := queues[linkId][1..]];
      RunJob(job, o);
    }
  }
}
