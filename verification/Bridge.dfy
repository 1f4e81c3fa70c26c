/**
  The Discord bridge: two message stores, the pairing table between them, one
  bounded queue a link with a worker draining it in order, and the guards that
  keep a message from crossing back.

  A message's number is its place in its store and is never used again. Which
  message a copy was made of is written down beside it for the statements below;
  no guard looks at it. A handler here stores what somebody did and hands it to
  the bridge later, and other handlers come in between. The gateway may deliver
  its events in any order and lose any of them, but delivers none twice. Every
  call to Discord and every write of the pairing may fail, a call also after it
  took effect, and the client then makes it again.
 */
module Bridge {
  import opened Wrappers
  import opened Collections
  import OutboundText

  const QUEUE_DEPTH := 256
  const MAX_MESSAGE_RUNES := OutboundText.MAX_MESSAGE_RUNES
  const MAX_RETRIES := 3

  datatype Direction = Both | OnlyToAural | OnlyToDiscord

  datatype Link = Link(
    id: int, channel: int, discordChannel: int, webhook: int,
    direction: Direction, enabled: bool, relayEdits: bool, source: Option<nat>)
  {
    predicate ToDiscord() {
      enabled && !direction.OnlyToAural?
    }

    predicate ToAural() {
      enabled && !direction.OnlyToDiscord?
    }
  }

  /** The webhooks row a message here was written under: one the relay made, or any other. */
  datatype Row = Relays(n: nat) | Others(id: int)

  /**
    A message on either side; `W` is what that side calls a webhook. An ordinary
    one is here a line of its channel, not a comment on a post, and on Discord
    something a person typed, not one of Discord's own notices.
   */
  datatype Message<W> = Message(
    channel: int, webhook: Option<W>, copyOf: Option<nat>, content: string, ordinary: bool, alive: bool)

  datatype Origin = FromAural | FromDiscord

  datatype Pair = Pair(link: int, discordId: nat, origin: Origin)

  /** A queued delivery; it holds the link as it was when the job was queued. */
  datatype Job =
    | ToDiscord(link: Link, id: nat, content: string)
    | EditOnDiscord(link: Link, id: nat, content: string)
    | DeleteOnDiscord(link: Link, id: nat)
    | ToAural(link: Link, discordId: nat, content: string)
    | EditOnAural(link: Link, discordId: nat, content: string)
    | DeleteOnAural(link: Link, discordIds: seq<nat>)

  /** What somebody did here, stored and not yet handed to the bridge, with the message as its handler holds it. */
  datatype Handoff =
    | HandPost(id: nat, m: Message<Row>)
    | HandEdit(id: nat, m: Message<Row>)
    | HandDelete(id: nat, m: Message<Row>)

  /** What the Discord gateway has still to deliver. */
  datatype Event =
    | Created(id: nat, content: string, byBot: bool)
    | Edited(id: nat, webhook: Option<int>, content: string, cards: bool)
    | Deleted(channel: int, ids: seq<nat>)

  /** This server's own store: messages, pairings, and the channel of each webhooks row the relay made. */
  datatype Db = Db(aural: seq<Message<Row>>, pairs: map<nat, Pair>, rows: seq<int>, gone: set<nat>)

  datatype Remote = Remote(discord: seq<Message<int>>, events: seq<Event>)

  datatype Relay = Relay(links: map<int, Link>, queues: map<int, seq<Job>>, up: bool)

  /** Handoffs stand in the order in which they were stored. */
  datatype State = State(db: Db, remote: Remote, relay: Relay, handing: seq<Handoff>)

  /** How far making a webhooks row got. */
  datatype Provisioning = NotCreated | NotRecorded | Done

  /** One message of a bulk deletion: whether its copy was deleted, and its pairing forgotten. */
  datatype Deletion = Deletion(deleted: bool, forgotten: bool)

  /**
    How one job's calls went, and what automatic moderation made of the text. A
    call reached Discord if it took effect there; `repeats` is how many times it
    did so again, made anew by the client after an answer of 500 or above.
   */
  datatype Outcome = Outcome(
    provisioned: Provisioning, reached: bool, repeats: nat, answered: bool, recorded: bool,
    verdict: Option<string>, deletions: seq<Deletion>)

  // --- the guards -----------------------------------------------------------

  ghost function LinkForChannel(links: map<int, Link>, channel: int): (r: Option<Link>)
    ensures r.Some? ==> (exists l :: l in links && links[l] == r.value) && r.value.channel == channel
    ensures r.None? ==> forall l :: l in links ==> links[l].channel != channel
  {
    if l :| l in links && links[l].channel == channel then Some(links[l]) else None
  }

  ghost function LinkForDiscord(links: map<int, Link>, channel: int): (r: Option<Link>)
    ensures r.Some? ==> (exists l :: l in links && links[l] == r.value) && r.value.discordChannel == channel
    ensures r.None? ==> forall l :: l in links ==> links[l].discordChannel != channel
  {
    if l :| l in links && links[l].discordChannel == channel then Some(links[l]) else None
  }

  ghost predicate IsOwn(links: map<int, Link>, webhook: Option<int>) {
    webhook.Some? && exists l :: l in links && links[l].webhook == webhook.value
  }

  ghost predicate IsInbound(links: map<int, Link>, webhook: Option<Row>) {
    webhook.Some? && webhook.value.Relays? && exists l :: l in links && links[l].source == Some(webhook.value.n)
  }

  // --- queues ---------------------------------------------------------------

  function Queue(queues: map<int, seq<Job>>, l: int): seq<Job> {
    if l in queues then queues[l] else []
  }

  /** A full queue drops the job. */
  function Enqueue(relay: Relay, l: int, job: Job): Relay {
    var q := Queue(relay.queues, l);
    if |q| < QUEUE_DEPTH then relay.(queues := relay.queues[l := q + [job]]) else relay
  }

  // --- from here to Discord -------------------------------------------------

  ghost function OutboundLink(relay: Relay, m: Message<Row>): Option<Link> {
    if !m.ordinary || IsInbound(relay.links, m.webhook) then None
    else
      match LinkForChannel(relay.links, m.channel)
      case None => None
      case Some(link) => if link.ToDiscord() && relay.up then Some(link) else None
  }

  ghost function OutboundMessage(relay: Relay, id: nat, m: Message<Row>): Relay {
    match OutboundLink(relay, m)
    case None => relay
    case Some(link) => Enqueue(relay, link.id, ToDiscord(link, id, m.content))
  }

  ghost function OutboundEdit(relay: Relay, id: nat, m: Message<Row>): Relay {
    match OutboundLink(relay, m)
    case None => relay
    case Some(link) => if link.relayEdits then Enqueue(relay, link.id, EditOnDiscord(link, id, m.content)) else relay
  }

  ghost function OutboundDelete(relay: Relay, id: nat, m: Message<Row>): Relay {
    match OutboundLink(relay, m)
    case None => relay
    case Some(link) => if link.relayEdits then Enqueue(relay, link.id, DeleteOnDiscord(link, id)) else relay
  }

  ghost function HandedOver(relay: Relay, h: Handoff): Relay {
    match h
    case HandPost(id, m) => OutboundMessage(relay, id, m)
    case HandEdit(id, m) => OutboundEdit(relay, id, m)
    case HandDelete(id, m) => OutboundDelete(relay, id, m)
  }

  // --- from Discord to here -------------------------------------------------

  ghost function OnDiscordMessage(
      relay: Relay, id: nat, m: Message<int>, content: string, byBot: bool): Relay
  {
    if !m.ordinary || IsOwn(relay.links, m.webhook) then relay
    else
      match LinkForDiscord(relay.links, m.channel)
      case None => relay
      case Some(link) =>
        if link.ToAural() && !(relay.up && byBot) then Enqueue(relay, link.id, ToAural(link, id, content)) else relay
  }

  ghost function OnDiscordEdit(
      relay: Relay, id: nat, channel: int, webhook: Option<int>, content: string, cards: bool): Relay
  {
    if IsOwn(relay.links, webhook) then relay
    else
      match LinkForDiscord(relay.links, channel)
      case None => relay
      case Some(link) =>
        if link.ToAural() && link.relayEdits && (content != "" || cards) then
          Enqueue(relay, link.id, EditOnAural(link, id, content))
        else relay
  }

  ghost function OnDiscordDelete(relay: Relay, channel: int, ids: seq<nat>): Relay {
    match LinkForDiscord(relay.links, channel)
    case None => relay
    case Some(link) =>
      if link.ToAural() && link.relayEdits then Enqueue(relay, link.id, DeleteOnAural(link, ids)) else relay
  }

  ghost function OnEvent(relay: Relay, discord: seq<Message<int>>, e: Event): Relay {
    match e
    case Created(id, content, byBot) =>
      if id < |discord| then OnDiscordMessage(relay, id, discord[id], content, byBot) else relay
    case Edited(id, webhook, content, cards) =>
      if id < |discord| then OnDiscordEdit(relay, id, discord[id].channel, webhook, content, cards) else relay
    case Deleted(channel, ids) => OnDiscordDelete(relay, channel, ids)
  }

  // --- running a job --------------------------------------------------------

  predicate IsSpace(c: char) {
    c == ' ' || '\t' <= c <= '\r' || c == '\U{85}' || c == '\U{A0}' || c == '\U{1680}'
    || '\U{2000}' <= c <= '\U{200A}' || c == '\U{2028}' || c == '\U{2029}' || c == '\U{202F}'
    || c == '\U{205F}' || c == '\U{3000}'
  }

  predicate Blank(text: string) {
    forall i :: 0 <= i < |text| ==> IsSpace(text[i])
  }

  function Rewritten<W>(side: seq<Message<W>>, id: nat, content: string): seq<Message<W>>
    requires id < |side|
  {
    side[id := side[id].(content := content)]
  }

  function Removed<W>(side: seq<Message<W>>, id: nat): seq<Message<W>>
    requires id < |side|
  {
    side[id := side[id].(alive := false)]
  }

  function Forget(db: Db, id: nat): Db {
    db.(pairs := db.pairs - {id})
  }

  /** Posted once, and once more each time the client repeats the call; the last answer is the one paired. */
  function PostCopy(s: State, dir: OutboundText.Directory, link: Link, id: nat, content: string, o: Outcome): State {
    if Blank(OutboundText.EscapeOutbound(content)) || !o.reached then s
    else
      var d, text := |s.remote.discord|, OutboundText.Rendered(dir, content);
      var copy := Message(link.discordChannel, Some(link.webhook), Some(id), text, true, true);
      s.(remote := Remote(s.remote.discord + seq(1 + o.repeats, _ => copy),
                          s.remote.events + seq(1 + o.repeats, i requires 0 <= i => Created(d + i, text, false))),
         db := if o.answered && o.recorded then
           s.db.(pairs := s.db.pairs[id := Pair(link.id, d + o.repeats, FromAural)])
         else s.db)
  }

  function PushEdit(s: State, dir: OutboundText.Directory, id: nat, content: string, o: Outcome): State {
    if id !in s.db.pairs || s.db.pairs[id].origin.FromDiscord? || Blank(OutboundText.EscapeOutbound(content)) then s
    else
      var d, text := s.db.pairs[id].discordId, OutboundText.Rendered(dir, content);
      if d < |s.remote.discord| && s.remote.discord[d].alive then
        if o.reached then
          var news := Edited(d, s.remote.discord[d].webhook, text, false);
          s.(remote := Remote(Rewritten(s.remote.discord, d, text),
                              s.remote.events + seq(1 + o.repeats, _ => news)))
        else s
      else if o.answered && o.recorded then s.(db := Forget(s.db, id))
      else s
  }

  /** A repeated deletion finds nothing more to delete, and is answered as well as the first. */
  function PushDelete(s: State, id: nat, o: Outcome): State {
    if id !in s.db.pairs || s.db.pairs[id].origin.FromDiscord? then s
    else
      var d := s.db.pairs[id].discordId;
      var there := d < |s.remote.discord| && s.remote.discord[d].alive;
      s.(remote :=
           if there && o.reached then
             Remote(Removed(s.remote.discord, d), s.remote.events + [Deleted(s.remote.discord[d].channel, [d])])
           else s.remote,
         db := if o.answered && o.recorded && (there ==> o.reached) then Forget(s.db, id) else s.db)
  }

  predicate HasRow(db: Db, link: Link) {
    link.source.Some? && link.source.value < |db.rows| && link.source.value !in db.gone
  }

  /** inboundWebhook: the row the link writes under, a new one if the one it knew of is gone. */
  function Provisioned(s: State, link: Link, how: Provisioning): State {
    if HasRow(s.db, link) || how.NotCreated? || link.id !in s.relay.links then s
    else
      var made := s.(db := s.db.(rows := s.db.rows + [link.channel]));
      if how.NotRecorded? then made
      else
        var now := s.relay.links[link.id].(source := Some(|s.db.rows|));
        made.(relay := s.relay.(links := s.relay.links[link.id := now]))
  }

  function RowFor(db: Db, link: Link): nat {
    if HasRow(db, link) then link.source.value else |db.rows|
  }

  function Clipped(text: string): string {
    if |text| > MAX_MESSAGE_RUNES then text[..MAX_MESSAGE_RUNES] else text
  }

  function WriteCopy(s: State, link: Link, d: nat, o: Outcome): State {
    var s1 := Provisioned(s, link, o.provisioned);
    if (!HasRow(s.db, link) && !o.provisioned.Done?) || o.verdict.None? || o.verdict.value == "" || !o.reached then s1
    else
      var a := |s.db.aural|;
      var copy := Message(
        link.channel, Some(Relays(RowFor(s.db, link))), Some(d), Clipped(o.verdict.value), true, true);
      s1.(db := s1.db.(
            aural := s.db.aural + [copy],
            pairs := if o.recorded then s.db.pairs[a := Pair(link.id, d, FromDiscord)] else s.db.pairs))
  }

  /** The message here a Discord message is paired with on one link. */
  ghost function Paired(pairs: map<nat, Pair>, link: int, d: nat): (r: Option<nat>)
    ensures r.Some? ==> r.value in pairs && pairs[r.value].link == link && pairs[r.value].discordId == d
    ensures r.None? ==> forall a :: a in pairs ==> pairs[a].link != link || pairs[a].discordId != d
  {
    if a :| a in pairs && pairs[a].link == link && pairs[a].discordId == d then Some(a) else None
  }

  /** The copy here that a change made on Discord is for; none if the message was written here. */
  ghost function CopyToChange(db: Db, link: Link, d: nat): (r: Option<nat>)
    ensures r.Some? ==> r.value in db.pairs && db.pairs[r.value] == Pair(link.id, d, FromDiscord)
    ensures r.Some? ==> r.value < |db.aural| && db.aural[r.value].alive
  {
    match Paired(db.pairs, link.id, d)
    case None => None
    case Some(a) =>
      if db.pairs[a].origin.FromDiscord? && a < |db.aural| && db.aural[a].alive then Some(a) else None
  }

  ghost function ApplyEdit(db: Db, link: Link, d: nat, o: Outcome): Db {
    match CopyToChange(db, link, d)
    case None => db
    case Some(a) =>
      if o.verdict.Some? && o.recorded then db.(aural := Rewritten(db.aural, a, Clipped(o.verdict.value))) else db
  }

  ghost function DeleteOne(db: Db, link: Link, d: nat, o: Deletion): Db {
    match CopyToChange(db, link, d)
    case None => db
    case Some(a) =>
      if !o.deleted then db
      else
        var removed := db.(aural := Removed(db.aural, a));
        if o.forgotten then Forget(removed, a) else removed
  }

  /** A deletion that fails does not stop those after it; with no outcome left they all fail. */
  ghost function ApplyDelete(db: Db, link: Link, ids: seq<nat>, deletions: seq<Deletion>): Db
    decreases |ids|
  {
    if ids == [] || deletions == [] then db
    else ApplyDelete(DeleteOne(db, link, ids[0], deletions[0]), link, ids[1..], deletions[1..])
  }

  ghost function RunJob(s: State, dir: OutboundText.Directory, job: Job, o: Outcome): State {
    match job
    case ToDiscord(link, id, content) => PostCopy(s, dir, link, id, content, o)
    case EditOnDiscord(_, id, content) => PushEdit(s, dir, id, content, o)
    case DeleteOnDiscord(_, id) => PushDelete(s, id, o)
    case ToAural(link, d, _) => WriteCopy(s, link, d, o)
    case EditOnAural(link, d, _) => s.(db := ApplyEdit(s.db, link, d, o))
    case DeleteOnAural(link, ids) => s.(db := ApplyDelete(s.db, link, ids, o.deletions))
  }

  // --- every step -----------------------------------------------------------

  datatype Action =
    // what people do here, and their handlers' turning to the bridge
    | Post(channel: int, webhook: Option<Row>, content: string, ordinary: bool)
    | EditHere(id: nat, content: string)
    | DeleteHere(id: nat)
    | HandOver(at: nat)
    // what people do on Discord
    | PostThere(discordChannel: int, discordWebhook: Option<int>, content: string, ordinary: bool, byBot: bool)
    | EditThere(id: nat, content: string, cards: bool, naming: bool)
    | DeleteThere(discordChannel: int, ids: seq<nat>)
    // what the bridge does
    | Deliver(at: nat)
    | Lose(at: nat)
    | Work(link: int, outcome: Outcome)
    // what administrators and housekeeping do
    | SetLink(link: int, direction: Direction, enabled: bool, relayEdits: bool)
    | DropRow(row: nat)
    | Connect(up: bool)
    | Sweep(pairs: set<nat>)

  ghost predicate Enabled(s: State, a: Action) {
    match a
    case Post(_, _, content, _) => !Blank(content)
    case EditHere(id, content) =>
      id < |s.db.aural| && s.db.aural[id].alive && s.db.aural[id].webhook.None? && !Blank(content)
    case DeleteHere(id) => id < |s.db.aural| && s.db.aural[id].alive
    case HandOver(i) => i < |s.handing|
    case PostThere(_, _, _, _, _) => true
    case EditThere(id, _, _, _) => id < |s.remote.discord| && s.remote.discord[id].alive
    case DeleteThere(channel, ids) =>
      forall i :: 0 <= i < |ids| ==> ids[i] < |s.remote.discord| && s.remote.discord[ids[i]].channel == channel
    case Deliver(i) => i < |s.remote.events|
    case Lose(i) => i < |s.remote.events|
    case Work(l, o) => l in s.relay.queues && s.relay.queues[l] != [] && o.repeats <= MAX_RETRIES
    case SetLink(l, _, _, _) => l in s.relay.links
    case DropRow(_) => true
    case Connect(_) => true
    case Sweep(ids) => forall id :: id in ids ==> id < |s.db.aural| && !s.db.aural[id].alive
  }

  function RemovedAll(discord: seq<Message<int>>, ids: seq<nat>): (r: seq<Message<int>>)
    requires forall i :: 0 <= i < |ids| ==> ids[i] < |discord|
    ensures |r| == |discord|
    ensures forall d :: 0 <= d < |discord| ==>
      r[d] == if d in ids then discord[d].(alive := false) else discord[d]
  {
    if ids == [] then discord else Removed(RemovedAll(discord, ids[1..]), ids[0])
  }

  function Popped(relay: Relay, l: int): Relay
    requires l in relay.queues && relay.queues[l] != []
  {
    relay.(queues := relay.queues[l := relay.queues[l][1..]])
  }

  ghost function Next(s: State, dir: OutboundText.Directory, a: Action): State
    requires Enabled(s, a)
  {
    match a
    case Post(channel, webhook, content, ordinary) =>
      var m := Message(channel, webhook, None, content, ordinary, true);
      s.(db := s.db.(aural := s.db.aural + [m]), handing := s.handing + [HandPost(|s.db.aural|, m)])
    case EditHere(id, content) =>
      var aural := Rewritten(s.db.aural, id, content);
      s.(db := s.db.(aural := aural), handing := s.handing + [HandEdit(id, aural[id])])
    case DeleteHere(id) =>
      s.(db := s.db.(aural := Removed(s.db.aural, id)), handing := s.handing + [HandDelete(id, s.db.aural[id])])
    case HandOver(i) => s.(handing := Without(s.handing, i), relay := HandedOver(s.relay, s.handing[i]))
    case PostThere(channel, webhook, content, ordinary, byBot) =>
      var m := Message(channel, webhook, None, content, ordinary, true);
      s.(remote := Remote(s.remote.discord + [m], s.remote.events + [Created(|s.remote.discord|, content, byBot)]))
    case EditThere(id, content, cards, naming) =>
      var webhook := if naming then s.remote.discord[id].webhook else None;
      s.(remote := Remote(Rewritten(s.remote.discord, id, content),
                          s.remote.events + [Edited(id, webhook, content, cards)]))
    case DeleteThere(channel, ids) =>
      s.(remote := Remote(RemovedAll(s.remote.discord, ids), s.remote.events + [Deleted(channel, ids)]))
    case Deliver(i) =>
      s.(remote := s.remote.(events := Without(s.remote.events, i)),
         relay := OnEvent(s.relay, s.remote.discord, s.remote.events[i]))
    case Lose(i) => s.(remote := s.remote.(events := Without(s.remote.events, i)))
    case Work(l, o) => RunJob(s.(relay := Popped(s.relay, l)), dir, s.relay.queues[l][0], o)
    case SetLink(l, direction, enabled, relayEdits) =>
      var link := s.relay.links[l].(direction := direction, enabled := enabled, relayEdits := relayEdits);
      s.(relay := s.relay.(links := s.relay.links[l := link]))
    case DropRow(row) => s.(db := s.db.(gone := s.db.gone + {row}))
    case Connect(up) => s.(relay := s.relay.(up := up))
    case Sweep(ids) => s.(db := s.db.(pairs := s.db.pairs - ids))
  }

  // --- what every reachable state keeps -------------------------------------

  ghost predicate Copied<W>(side: seq<Message<W>>, x: nat) {
    exists i :: 0 <= i < |side| && side[i].copyOf == Some(x)
  }

  ghost predicate CopiedOnce<W>(side: seq<Message<W>>) {
    forall i, j :: 0 <= i < j < |side| && side[i].copyOf.Some? ==> side[i].copyOf != side[j].copyOf
  }

  ghost predicate CopiesOriginals<W, V>(side: seq<Message<W>>, other: seq<Message<V>>) {
    forall i :: 0 <= i < |side| && side[i].copyOf.Some? ==>
      side[i].copyOf.value < |other| && other[side[i].copyOf.value].copyOf.None?
  }

  ghost predicate TaggedAsOurs(discord: seq<Message<int>>, links: map<int, Link>) {
    forall d :: 0 <= d < |discord| && discord[d].copyOf.Some? ==> IsOwn(links, discord[d].webhook)
  }

  /** Copies are of originals, here at most one of each, and those on Discord bear our webhooks. */
  ghost predicate StoresFit(aural: seq<Message<Row>>, discord: seq<Message<int>>, links: map<int, Link>) {
    && CopiedOnce(aural)
    && CopiesOriginals(aural, discord) && CopiesOriginals(discord, aural)
    && TaggedAsOurs(discord, links)
  }

  /** A pairing names a copy and the message it was made of. */
  ghost predicate PairFits(a: nat, p: Pair, aural: seq<Message<Row>>, discord: seq<Message<int>>) {
    match p.origin
    case FromAural => p.discordId < |discord| && discord[p.discordId].copyOf == Some(a)
    case FromDiscord => a < |aural| && aural[a].copyOf == Some(p.discordId)
  }

  ghost predicate PairsFit(db: Db, discord: seq<Message<int>>) {
    forall a :: a in db.pairs ==> PairFits(a, db.pairs[a], db.aural, discord)
  }

  /** A delivery waiting to cross is of an original that has not crossed. */
  ghost predicate JobFits(job: Job, aural: seq<Message<Row>>, discord: seq<Message<int>>) {
    match job
    case ToDiscord(_, a, _) => a < |aural| && aural[a].copyOf.None? && !Copied(discord, a)
    case ToAural(_, d, _) => d < |discord| && discord[d].copyOf.None? && !Copied(aural, d)
    case _ => true
  }

  predicate SameDelivery(j: Job, k: Job) {
    || (j.ToDiscord? && k.ToDiscord? && j.id == k.id)
    || (j.ToAural? && k.ToAural? && j.discordId == k.discordId)
  }

  ghost predicate QueuesFit(queues: map<int, seq<Job>>, aural: seq<Message<Row>>, discord: seq<Message<int>>) {
    forall l, i :: l in queues && 0 <= i < |queues[l]| ==> JobFits(queues[l][i], aural, discord)
  }

  /** No message is queued twice. */
  ghost predicate QueuedOnce(queues: map<int, seq<Job>>) {
    forall l, i, m, j :: l in queues && 0 <= i < |queues[l]| && m in queues && 0 <= j < |queues[m]| ==>
      SameDelivery(queues[l][i], queues[m][j]) ==> l == m && i == j
  }

  /** A link keeps its number, its two channels and its Discord webhook. */
  predicate SameRoute(link: Link, now: Link) {
    link.id == now.id && link.channel == now.channel
    && link.discordChannel == now.discordChannel && link.webhook == now.webhook
  }

  predicate AtHome(job: Job, l: int, links: map<int, Link>) {
    l in links && SameRoute(job.link, links[l])
  }

  ghost predicate JobsAtHome(queues: map<int, seq<Job>>, links: map<int, Link>) {
    forall l, i :: l in queues && 0 <= i < |queues[l]| ==> AtHome(queues[l][i], l, links)
  }

  /** Nobody's news is told twice: not by two events, nor by an event and a job or a copy. */
  ghost predicate EventsFit(events: seq<Event>, aural: seq<Message<Row>>, discord: seq<Message<int>>) {
    && (forall i :: 0 <= i < |events| && events[i].Created? ==>
          events[i].id < |discord| && !Copied(aural, events[i].id))
    && (forall i, j :: 0 <= i < j < |events| && events[i].Created? && events[j].Created? ==>
          events[i].id != events[j].id)
  }

  ghost predicate EventsApart(events: seq<Event>, queues: map<int, seq<Job>>) {
    forall l, i, k :: l in queues && 0 <= i < |queues[l]| && 0 <= k < |events| ==>
      queues[l][i].ToAural? && events[k].Created? ==> queues[l][i].discordId != events[k].id
  }

  /** A message here as a handler holds it: an edit or a deletion leaves its marks. */
  predicate SameMarks(m: Message<Row>, m': Message<Row>) {
    m'.copyOf == m.copyOf && m'.channel == m.channel && m'.webhook == m.webhook && m'.ordinary == m.ordinary
  }

  /** A message still to be handed over is an original that has not crossed. */
  ghost predicate HandoffFits(h: Handoff, aural: seq<Message<Row>>, discord: seq<Message<int>>) {
    && h.id < |aural| && SameMarks(aural[h.id], h.m)
    && (h.HandPost? ==> h.m.copyOf.None? && !Copied(discord, h.id))
  }

  /** No message is handed over twice, and none that is queued. */
  ghost predicate HandingFit(handing: seq<Handoff>, aural: seq<Message<Row>>, discord: seq<Message<int>>) {
    && (forall i :: 0 <= i < |handing| ==> HandoffFits(handing[i], aural, discord))
    && (forall i, j :: 0 <= i < j < |handing| && handing[i].HandPost? && handing[j].HandPost? ==>
          handing[i].id != handing[j].id)
  }

  ghost predicate HandingApart(handing: seq<Handoff>, queues: map<int, seq<Job>>) {
    forall l, i, k :: l in queues && 0 <= i < |queues[l]| && 0 <= k < |handing| ==>
      queues[l][i].ToDiscord? && handing[k].HandPost? ==> queues[l][i].id != handing[k].id
  }

  /** No two links share a channel on either side. */
  ghost predicate LinksFit(links: map<int, Link>) {
    && (forall l :: l in links ==> links[l].id == l)
    && (forall l, m :: l in links && m in links && l != m ==>
          links[l].channel != links[m].channel && links[l].discordChannel != links[m].discordChannel)
  }

  ghost predicate CarriersFit(s: State) {
    && QueuesFit(s.relay.queues, s.db.aural, s.remote.discord)
    && QueuedOnce(s.relay.queues) && JobsAtHome(s.relay.queues, s.relay.links)
    && EventsFit(s.remote.events, s.db.aural, s.remote.discord)
    && EventsApart(s.remote.events, s.relay.queues)
    && HandingFit(s.handing, s.db.aural, s.remote.discord)
    && HandingApart(s.handing, s.relay.queues)
  }

  ghost predicate Inv(s: State) {
    && LinksFit(s.relay.links)
    && StoresFit(s.db.aural, s.remote.discord, s.relay.links)
    && PairsFit(s.db, s.remote.discord)
    && CarriersFit(s)
  }

  /** A row the relay made for a channel. */
  predicate RowOf(rows: seq<int>, n: nat, channel: int) {
    n < |rows| && rows[n] == channel
  }

  /** Links with their webhooks on either side, and nothing said yet. */
  ghost predicate Initial(s: State) {
    && LinksFit(s.relay.links)
    && (forall l :: l in s.relay.links && s.relay.links[l].source.Some? ==>
          RowOf(s.db.rows, s.relay.links[l].source.value, s.relay.links[l].channel))
    && s.db.aural == [] && s.db.pairs == map[] && s.remote == Remote([], [])
    && s.relay.queues == map[] && s.handing == []
  }

  // --- the stores grow, and nobody's marks change ---------------------------

  /** The same messages with the same marks, and perhaps more of one kind. */
  ghost predicate Grown<W>(side: seq<Message<W>>, side': seq<Message<W>>) {
    && |side| <= |side'|
    && (forall i :: 0 <= i < |side| ==>
          side'[i].copyOf == side[i].copyOf && side'[i].webhook == side[i].webhook
          && side'[i].channel == side[i].channel && side'[i].ordinary == side[i].ordinary)
    && (forall i :: |side| <= i < |side'| ==> side'[i].copyOf == side'[|side|].copyOf)
  }

  ghost function NewCopy<W>(side: seq<Message<W>>, side': seq<Message<W>>): Option<nat>
    requires Grown(side, side')
  {
    if |side'| > |side| then side'[|side|].copyOf else None
  }

  lemma CopiedGrown<W>(side: seq<Message<W>>, side': seq<Message<W>>, x: nat)
    requires Grown(side, side')
    ensures Copied(side', x) <==> Copied(side, x) || NewCopy(side, side') == Some(x)
  {
    if Copied(side, x) {
      var i :| 0 <= i < |side| && side[i].copyOf == Some(x);
      assert side'[i].copyOf == Some(x);
    }
    if NewCopy(side, side') == Some(x) {
      assert side'[|side|].copyOf == Some(x);
    }
  }

  lemma CopiedOnceGrown<W>(side: seq<Message<W>>, side': seq<Message<W>>)
    requires Grown(side, side') && CopiedOnce(side) && |side'| <= |side| + 1
    requires NewCopy(side, side').Some? ==> !Copied(side, NewCopy(side, side').value)
    ensures CopiedOnce(side')
  {}

  lemma CopiesOriginalsGrown<W, V>(
      side: seq<Message<W>>, side': seq<Message<W>>, other: seq<Message<V>>, other': seq<Message<V>>)
    requires Grown(side, side') && Grown(other, other') && CopiesOriginals(side, other)
    requires var c := NewCopy(side, side'); c.Some? ==> c.value < |other| && other[c.value].copyOf.None?
    ensures CopiesOriginals(side', other')
  {}

  /** New copies may be made of an original that has none. */
  ghost predicate MayCopy<W, V>(c: Option<nat>, side: seq<Message<W>>, other: seq<Message<V>>) {
    c.Some? ==> c.value < |other| && other[c.value].copyOf.None? && !Copied(side, c.value)
  }

  ghost predicate NewAreOwn(discord: seq<Message<int>>, discord': seq<Message<int>>, links: map<int, Link>) {
    forall i :: |discord| <= i < |discord'| ==> IsOwn(links, discord'[i].webhook)
  }

  lemma StoresGrown(
      aural: seq<Message<Row>>, aural': seq<Message<Row>>,
      discord: seq<Message<int>>, discord': seq<Message<int>>, links: map<int, Link>)
    requires StoresFit(aural, discord, links) && Grown(aural, aural') && Grown(discord, discord')
    requires |aural'| <= |aural| + 1
    requires MayCopy(NewCopy(aural, aural'), aural, discord)
    requires MayCopy(NewCopy(discord, discord'), discord, aural)
    requires NewCopy(discord, discord').Some? ==> NewAreOwn(discord, discord', links)
    ensures StoresFit(aural', discord', links)
  {
    CopiedOnceGrown(aural, aural');
    CopiesOriginalsGrown(aural, aural', discord, discord');
    CopiesOriginalsGrown(discord, discord', aural, aural');
    hide CopiedOnce, CopiesOriginals, Copied;
    forall d | 0 <= d < |discord'| && discord'[d].copyOf.Some?
      ensures IsOwn(links, discord'[d].webhook)
    {
      if d < |discord| { assert discord'[d].webhook == discord[d].webhook; }
    }
  }

  /** A waiting delivery still fits unless its own message was just copied. */
  lemma JobStillFits(
      job: Job, aural: seq<Message<Row>>, aural': seq<Message<Row>>,
      discord: seq<Message<int>>, discord': seq<Message<int>>)
    requires JobFits(job, aural, discord) && Grown(aural, aural') && Grown(discord, discord')
    requires job.ToDiscord? ==> NewCopy(discord, discord') != Some(job.id)
    requires job.ToAural? ==> NewCopy(aural, aural') != Some(job.discordId)
    ensures JobFits(job, aural', discord')
  {
    hide Copied;
    match job
    case ToDiscord(_, a, _) => CopiedGrown(discord, discord', a);
    case ToAural(_, d, _) => CopiedGrown(aural, aural', d);
    case _ =>
  }

  // --- queues and events come and go ----------------------------------------

  /** No waiting delivery is of the same message as the job. */
  ghost predicate Clear(queues: map<int, seq<Job>>, job: Job) {
    forall l, i :: l in queues && 0 <= i < |queues[l]| ==> !SameDelivery(queues[l][i], job)
  }

  ghost predicate Untold(events: seq<Event>, d: nat) {
    forall k :: 0 <= k < |events| && events[k].Created? ==> events[k].id != d
  }

  ghost predicate NobodyBrings(queues: map<int, seq<Job>>, d: nat) {
    forall l, i :: l in queues && 0 <= i < |queues[l]| && queues[l][i].ToAural? ==> queues[l][i].discordId != d
  }

  ghost predicate NobodySends(queues: map<int, seq<Job>>, a: nat) {
    forall l, i :: l in queues && 0 <= i < |queues[l]| && queues[l][i].ToDiscord? ==> queues[l][i].id != a
  }

  ghost predicate Unhanded(handing: seq<Handoff>, a: nat) {
    forall k :: 0 <= k < |handing| && handing[k].HandPost? ==> handing[k].id != a
  }

  lemma PushedQueues(
      queues: map<int, seq<Job>>, l: int, job: Job, aural: seq<Message<Row>>, discord: seq<Message<int>>)
    requires QueuesFit(queues, aural, discord) && QueuedOnce(queues) && Clear(queues, job)
    requires JobFits(job, aural, discord)
    ensures QueuesFit(queues[l := Queue(queues, l) + [job]], aural, discord)
    ensures QueuedOnce(queues[l := Queue(queues, l) + [job]])
  {
    hide JobFits;
  }

  lemma PoppedQueues(
      queues: map<int, seq<Job>>, l: int, aural: seq<Message<Row>>, discord: seq<Message<int>>)
    requires QueuesFit(queues, aural, discord) && QueuedOnce(queues) && l in queues && queues[l] != []
    ensures QueuesFit(queues[l := queues[l][1..]], aural, discord)
    ensures QueuedOnce(queues[l := queues[l][1..]])
    ensures Clear(queues[l := queues[l][1..]], queues[l][0])
  {
    hide JobFits, SameDelivery;
    var queues' := queues[l := queues[l][1..]];
    assert forall i :: 0 <= i < |queues'[l]| ==> queues'[l][i] == queues[l][i + 1];
  }

  /** A job goes on the queue of a link it is for, and nobody else has it. */
  lemma EnqueueInv(s: State, l: int, job: Job)
    requires Inv(s) && AtHome(job, l, s.relay.links)
    requires JobFits(job, s.db.aural, s.remote.discord) && Clear(s.relay.queues, job)
    requires job.ToAural? ==> Untold(s.remote.events, job.discordId)
    requires job.ToDiscord? ==> Unhanded(s.handing, job.id)
    ensures Inv(s.(relay := Enqueue(s.relay, l, job)))
  {
    hide LinksFit, StoresFit, PairsFit, EventsFit, HandingFit, AtHome;
    var queues := s.relay.queues;
    var queues' := queues[l := Queue(queues, l) + [job]];
    PushedQueues(queues, l, job, s.db.aural, s.remote.discord);
    hide QueuesFit, QueuedOnce, JobFits, Clear;
    assert JobsAtHome(queues', s.relay.links);
    assert EventsApart(s.remote.events, queues');
    assert HandingApart(s.handing, queues');
  }

  lemma PopInv(s: State, l: int)
    requires Inv(s) && l in s.relay.queues && s.relay.queues[l] != []
    ensures Inv(s.(relay := Popped(s.relay, l)))
    ensures var job := s.relay.queues[l][0];
      && JobFits(job, s.db.aural, s.remote.discord) && Clear(Popped(s.relay, l).queues, job)
      && (job.ToAural? ==> Untold(s.remote.events, job.discordId))
      && (job.ToDiscord? ==> Unhanded(s.handing, job.id))
      && AtHome(job, l, s.relay.links)
  {
    hide LinksFit, StoresFit, PairsFit, EventsFit, HandingFit, AtHome;
    var queues := s.relay.queues;
    var queues', job := queues[l := queues[l][1..]], queues[l][0];
    assert JobFits(job, s.db.aural, s.remote.discord);
    PoppedQueues(queues, l, s.db.aural, s.remote.discord);
    hide QueuesFit, QueuedOnce, JobFits, Clear;
    assert forall i :: 0 <= i < |queues'[l]| ==> queues'[l][i] == queues[l][i + 1];
    assert JobsAtHome(queues', s.relay.links);
    assert EventsApart(s.remote.events, queues');
    assert HandingApart(s.handing, queues');
  }

  lemma LoseEventInv(s: State, k: nat)
    requires Inv(s) && k < |s.remote.events|
    ensures Inv(s.(remote := s.remote.(events := Without(s.remote.events, k))))
    ensures s.remote.events[k].Created? ==> Untold(Without(s.remote.events, k), s.remote.events[k].id)
  {
    var events := s.remote.events;
    var events' := Without(events, k);
    assert forall i :: 0 <= i < |events'| ==> events'[i] == if i < k then events[i] else events[i + 1];
    hide LinksFit, StoresFit, PairsFit, QueuesFit, QueuedOnce, JobsAtHome, HandingFit, HandingApart, Without, Copied;
    assert EventsFit(events', s.db.aural, s.remote.discord);
    assert EventsApart(events', s.relay.queues);
  }

  lemma HandInv(s: State, h: Handoff)
    requires Inv(s) && HandoffFits(h, s.db.aural, s.remote.discord)
    requires h.HandPost? ==> Unhanded(s.handing, h.id) && NobodySends(s.relay.queues, h.id)
    ensures Inv(s.(handing := s.handing + [h]))
  {
    hide LinksFit, StoresFit, PairsFit, QueuesFit, QueuedOnce, JobsAtHome, EventsFit, EventsApart, HandoffFits;
    assert HandingFit(s.handing + [h], s.db.aural, s.remote.discord);
    assert HandingApart(s.handing + [h], s.relay.queues);
  }

  lemma TakeHandoffInv(s: State, k: nat)
    requires Inv(s) && k < |s.handing|
    ensures Inv(s.(handing := Without(s.handing, k)))
    ensures HandoffFits(s.handing[k], s.db.aural, s.remote.discord)
    ensures s.handing[k].HandPost? ==>
      Unhanded(Without(s.handing, k), s.handing[k].id) && NobodySends(s.relay.queues, s.handing[k].id)
  {
    var handing := s.handing;
    var handing' := Without(handing, k);
    assert forall i :: 0 <= i < |handing'| ==> handing'[i] == if i < k then handing[i] else handing[i + 1];
    hide LinksFit, StoresFit, PairsFit, QueuesFit, QueuedOnce, JobsAtHome, EventsFit, EventsApart, Without, HandoffFits;
    assert HandingFit(handing', s.db.aural, s.remote.discord);
    assert HandingApart(handing', s.relay.queues);
  }

  // --- one step of the stores -----------------------------------------------

  ghost predicate SameRoutes(links: map<int, Link>, links': map<int, Link>) {
    && (forall l :: l in links <==> l in links')
    && (forall l :: l in links ==> SameRoute(links[l], links'[l]))
  }

  /** The events after a step: those before it, and the news of what it did. */
  ghost predicate NewsOf(events: seq<Event>, events': seq<Event>, was: nat, now: nat) {
    && |events| <= |events'|
    && (forall i :: 0 <= i < |events| ==> events'[i] == events[i])
    && (forall i :: |events| <= i < |events'| && events'[i].Created? ==> was <= events'[i].id < now)
    && (forall i, j :: |events| <= i < j < |events'| && events'[i].Created? && events'[j].Created? ==>
          events'[i].id != events'[j].id)
  }

  /** The stores change, and perhaps grow by copies nobody was waiting to make. */
  ghost predicate StoreStep(s: State, s': State) {
    && Grown(s.db.aural, s'.db.aural) && |s'.db.aural| <= |s.db.aural| + 1
    && Grown(s.remote.discord, s'.remote.discord)
    && s'.relay.queues == s.relay.queues && SameRoutes(s.relay.links, s'.relay.links)
    && s'.handing == s.handing
    && MayCopy(NewCopy(s.db.aural, s'.db.aural), s.db.aural, s.remote.discord)
    && MayCopy(NewCopy(s.remote.discord, s'.remote.discord), s.remote.discord, s.db.aural)
    && NewsOf(s.remote.events, s'.remote.events, |s.remote.discord|, |s'.remote.discord|)
  }

  /** Nobody was waiting to make the copies just made, and those made on Discord bear our webhook. */
  ghost predicate CopyWasDue(s: State, s': State)
    requires StoreStep(s, s')
  {
    var here, there := NewCopy(s.db.aural, s'.db.aural), NewCopy(s.remote.discord, s'.remote.discord);
    && (here.Some? ==> Untold(s.remote.events, here.value) && NobodyBrings(s.relay.queues, here.value))
    && (there.Some? ==> Unhanded(s.handing, there.value) && NobodySends(s.relay.queues, there.value))
    && (there.Some? ==> NewAreOwn(s.remote.discord, s'.remote.discord, s.relay.links))
  }

  lemma SameOwn(links: map<int, Link>, links': map<int, Link>, webhook: Option<int>)
    requires SameRoutes(links, links') && IsOwn(links, webhook)
    ensures IsOwn(links', webhook)
  {
    var l :| l in links && links[l].webhook == webhook.value;
    assert l in links' && SameRoute(links[l], links'[l]);
  }

  lemma LinksStep(s: State, s': State)
    requires Inv(s) && SameRoutes(s.relay.links, s'.relay.links) && s'.relay.queues == s.relay.queues
    ensures LinksFit(s'.relay.links) && JobsAtHome(s'.relay.queues, s'.relay.links)
  {
    hide StoresFit, PairsFit, QueuesFit, QueuedOnce, EventsFit, EventsApart, HandingFit, HandingApart;
    var queues: map<int, seq<Job>> := s.relay.queues;
    var links, links' := s.relay.links, s'.relay.links;
    forall l: int, i: nat | l in queues && i < |queues[l]|
      ensures AtHome(queues[l][i], l, links')
    {
      assert AtHome(queues[l][i], l, links) && SameRoute(links[l], links'[l]);
    }
  }

  lemma TagsStep(discord: seq<Message<int>>, links: map<int, Link>, links': map<int, Link>)
    requires TaggedAsOurs(discord, links) && SameRoutes(links, links')
    ensures TaggedAsOurs(discord, links')
  {
    hide IsOwn, SameRoutes;
    forall d | 0 <= d < |discord| && discord[d].copyOf.Some?
      ensures IsOwn(links', discord[d].webhook)
    {
      SameOwn(links, links', discord[d].webhook);
    }
  }

  lemma EventsStep(s: State, s': State)
    requires Inv(s) && StoreStep(s, s') && CopyWasDue(s, s')
    ensures EventsFit(s'.remote.events, s'.db.aural, s'.remote.discord)
    ensures EventsApart(s'.remote.events, s'.relay.queues)
  {
    var n, events, events' := |s.remote.discord|, s.remote.events, s'.remote.events;
    forall d: nat | d < n
      ensures Copied(s'.db.aural, d) <==> Copied(s.db.aural, d) || NewCopy(s.db.aural, s'.db.aural) == Some(d)
    {
      CopiedGrown(s.db.aural, s'.db.aural, d);
    }
    assert !Copied(s.db.aural, n) && !Copied(s'.db.aural, n) by {
      CopiedGrown(s.db.aural, s'.db.aural, n);
      assert CopiesOriginals(s.db.aural, s.remote.discord);
    }
    assert forall l, i :: l in s.relay.queues && 0 <= i < |s.relay.queues[l]| ==>
      JobFits(s.relay.queues[l][i], s.db.aural, s.remote.discord);
    hide LinksFit, StoresFit, PairsFit, QueuesFit, QueuedOnce, JobsAtHome, HandingFit, HandingApart;
    hide Copied, MayCopy, SameRoutes, IsOwn;
    assert EventsFit(events', s'.db.aural, s'.remote.discord);
    assert EventsApart(events', s'.relay.queues);
  }

  lemma JobsStep(s: State, s': State)
    requires Inv(s) && StoreStep(s, s') && CopyWasDue(s, s')
    ensures QueuesFit(s'.relay.queues, s'.db.aural, s'.remote.discord)
  {
    hide LinksFit, StoresFit, PairsFit, QueuedOnce, JobsAtHome, EventsFit, EventsApart, JobFits, MayCopy, Untold;
    hide HandingFit, HandingApart, Unhanded;
    var queues := s.relay.queues;
    forall l: int, i: nat | l in queues && i < |queues[l]|
      ensures JobFits(queues[l][i], s'.db.aural, s'.remote.discord)
    {
      JobStillFits(queues[l][i], s.db.aural, s'.db.aural, s.remote.discord, s'.remote.discord);
    }
  }

  lemma HandingStep(s: State, s': State)
    requires Inv(s) && StoreStep(s, s') && CopyWasDue(s, s')
    ensures HandingFit(s'.handing, s'.db.aural, s'.remote.discord)
  {
    hide LinksFit, StoresFit, PairsFit, QueuesFit, QueuedOnce, JobsAtHome, EventsFit, EventsApart, HandingApart;
    hide Copied, MayCopy, NewsOf, SameRoutes, Untold;
    forall i | 0 <= i < |s.handing|
      ensures HandoffFits(s.handing[i], s'.db.aural, s'.remote.discord)
    {
      assert HandoffFits(s.handing[i], s.db.aural, s.remote.discord);
      CopiedGrown(s.remote.discord, s'.remote.discord, s.handing[i].id);
    }
  }

  lemma StoreStepInv(s: State, s': State)
    requires Inv(s) && StoreStep(s, s') && CopyWasDue(s, s') && PairsFit(s'.db, s'.remote.discord)
    ensures Inv(s')
  {
    LinksStep(s, s');
    EventsStep(s, s');
    JobsStep(s, s');
    HandingStep(s, s');
    StoresGrown(s.db.aural, s'.db.aural, s.remote.discord, s'.remote.discord, s.relay.links);
    TagsStep(s'.remote.discord, s.relay.links, s'.relay.links);
    hide LinksFit, PairsFit, QueuesFit, QueuedOnce, JobsAtHome, EventsFit, EventsApart, HandingFit, HandingApart;
    hide CopiedOnce, CopiesOriginals, TaggedAsOurs;
  }

  /** Pairings that were right stay right while messages keep their marks. */
  lemma PairsStillFit(db: Db, db': Db, discord: seq<Message<int>>, discord': seq<Message<int>>)
    requires PairsFit(db, discord) && Grown(db.aural, db'.aural) && Grown(discord, discord')
    requires forall a :: a in db'.pairs ==> a in db.pairs && db'.pairs[a] == db.pairs[a]
    ensures PairsFit(db', discord')
  {}

  // --- running a job --------------------------------------------------------

  /** Whatever was written on this side by somebody is untouched. */
  ghost predicate OriginalsKept<W>(side: seq<Message<W>>, side': seq<Message<W>>) {
    && |side| <= |side'|
    && forall i :: 0 <= i < |side| && side[i].copyOf.None? ==> side'[i] == side[i]
  }

  /** What running a job may do. */
  ghost predicate JobStep(s: State, s': State) {
    && StoreStep(s, s') && CopyWasDue(s, s') && PairsFit(s'.db, s'.remote.discord)
    && OriginalsKept(s.db.aural, s'.db.aural) && OriginalsKept(s.remote.discord, s'.remote.discord)
  }

  lemma PostCopyStep(s: State, dir: OutboundText.Directory, link: Link, id: nat, content: string, o: Outcome)
    requires Inv(s) && JobFits(ToDiscord(link, id, content), s.db.aural, s.remote.discord)
    requires Unhanded(s.handing, id) && NobodySends(s.relay.queues, id)
    requires IsOwn(s.relay.links, Some(link.webhook))
    ensures JobStep(s, PostCopy(s, dir, link, id, content, o))
  {
    var s' := PostCopy(s, dir, link, id, content, o);
    hide Blank, LinksFit, StoresFit, CarriersFit, Copied, IsOwn, NobodySends, Unhanded, OutboundText.Rendered;
  }

  lemma PushEditStep(s: State, dir: OutboundText.Directory, id: nat, content: string, o: Outcome)
    requires Inv(s)
    ensures JobStep(s, PushEdit(s, dir, id, content, o))
  {
    var s' := PushEdit(s, dir, id, content, o);
    hide Blank, LinksFit, StoresFit, CarriersFit, Copied, IsOwn;
    PairsStillFit(s.db, s'.db, s.remote.discord, s'.remote.discord);
  }

  lemma PushDeleteStep(s: State, id: nat, o: Outcome)
    requires Inv(s)
    ensures JobStep(s, PushDelete(s, id, o))
  {
    var s' := PushDelete(s, id, o);
    hide LinksFit, StoresFit, CarriersFit, Copied, IsOwn;
    PairsStillFit(s.db, s'.db, s.remote.discord, s'.remote.discord);
  }

  lemma WriteCopyStep(s: State, link: Link, d: nat, content: string, o: Outcome)
    requires Inv(s) && JobFits(ToAural(link, d, content), s.db.aural, s.remote.discord)
    requires NobodyBrings(s.relay.queues, d) && Untold(s.remote.events, d)
    ensures JobStep(s, WriteCopy(s, link, d, o))
  {
    hide LinksFit, StoresFit, CarriersFit, Copied, IsOwn, NobodyBrings, Untold, Clipped, RowFor, HasRow;
  }

  /** The copies here change, and pairings go. */
  ghost predicate CopiesChange(db: Db, db': Db) {
    && |db'.aural| == |db.aural| && Grown(db.aural, db'.aural) && OriginalsKept(db.aural, db'.aural)
    && (forall a :: a in db'.pairs ==> a in db.pairs && db'.pairs[a] == db.pairs[a])
    && (forall a :: a in db.pairs && db.pairs[a].origin.FromAural? ==> a in db'.pairs)
  }

  lemma ApplyEditStep(db: Db, discord: seq<Message<int>>, link: Link, d: nat, o: Outcome)
    requires PairsFit(db, discord)
    ensures CopiesChange(db, ApplyEdit(db, link, d, o))
  {
    hide CopyToChange;
    if CopyToChange(db, link, d).Some? {
      var a := CopyToChange(db, link, d).value;
      assert PairFits(a, db.pairs[a], db.aural, discord);
    }
  }

  lemma DeleteOneStep(db: Db, discord: seq<Message<int>>, link: Link, d: nat, o: Deletion)
    requires PairsFit(db, discord)
    ensures CopiesChange(db, DeleteOne(db, link, d, o))
  {
    hide CopyToChange;
    if CopyToChange(db, link, d).Some? {
      var a := CopyToChange(db, link, d).value;
      assert PairFits(a, db.pairs[a], db.aural, discord);
    }
  }

  lemma CopiesChangeAgain(db: Db, db1: Db, db2: Db)
    requires CopiesChange(db, db1) && CopiesChange(db1, db2)
    ensures CopiesChange(db, db2)
  {}

  lemma {:induction false} ApplyDeleteStep(
      db: Db, discord: seq<Message<int>>, link: Link, ids: seq<nat>, deletions: seq<Deletion>)
    requires PairsFit(db, discord)
    ensures CopiesChange(db, ApplyDelete(db, link, ids, deletions))
    decreases |ids|
  {
    if ids != [] && deletions != [] {
      hide DeleteOne, PairFits;
      var db1 := DeleteOne(db, link, ids[0], deletions[0]);
      DeleteOneStep(db, discord, link, ids[0], deletions[0]);
      PairsStillFit(db, db1, discord, discord);
      ApplyDeleteStep(db1, discord, link, ids[1..], deletions[1..]);
      hide CopiesChange;
      CopiesChangeAgain(db, db1, ApplyDelete(db1, link, ids[1..], deletions[1..]));
    }
  }

  lemma CopiesChangeStep(s: State, db': Db)
    requires Inv(s) && CopiesChange(s.db, db')
    ensures JobStep(s, s.(db := db'))
  {
    hide LinksFit, StoresFit, CarriersFit, Copied, IsOwn, PairFits;
    assert PairsFit(db', s.remote.discord) by {
      PairsStillFit(s.db, db', s.remote.discord, s.remote.discord);
    }
  }

  lemma ClearMeans(queues: map<int, seq<Job>>, job: Job)
    requires Clear(queues, job)
    ensures job.ToDiscord? ==> NobodySends(queues, job.id)
    ensures job.ToAural? ==> NobodyBrings(queues, job.discordId)
  {}

  lemma HomeIsOwn(job: Job, l: int, links: map<int, Link>)
    requires AtHome(job, l, links)
    ensures IsOwn(links, Some(job.link.webhook))
  {
    assert links[l].webhook == job.link.webhook;
  }

  lemma RunJobStep(s: State, dir: OutboundText.Directory, l: int, job: Job, o: Outcome)
    requires Inv(s) && JobFits(job, s.db.aural, s.remote.discord) && Clear(s.relay.queues, job)
    requires job.ToAural? ==> Untold(s.remote.events, job.discordId)
    requires job.ToDiscord? ==> Unhanded(s.handing, job.id)
    requires AtHome(job, l, s.relay.links)
    ensures JobStep(s, RunJob(s, dir, job, o))
  {
    ClearMeans(s.relay.queues, job);
    HomeIsOwn(job, l, s.relay.links);
    hide Inv, JobStep, JobFits, Clear, IsOwn, Untold, Unhanded, NobodySends, NobodyBrings, AtHome, CopiesChange;
    hide PostCopy, PushEdit, PushDelete, WriteCopy, ApplyEdit, ApplyDelete;
    match job
    case ToDiscord(link, id, content) => PostCopyStep(s, dir, link, id, content, o);
    case EditOnDiscord(_, id, content) => PushEditStep(s, dir, id, content, o);
    case DeleteOnDiscord(_, id) => PushDeleteStep(s, id, o);
    case ToAural(link, d, content) => WriteCopyStep(s, link, d, content, o);
    case EditOnAural(link, d, _) =>
      assert PairsFit(s.db, s.remote.discord) by { InvPairs(s); }
      ApplyEditStep(s.db, s.remote.discord, link, d, o);
      CopiesChangeStep(s, ApplyEdit(s.db, link, d, o));
    case DeleteOnAural(link, ids) =>
      assert PairsFit(s.db, s.remote.discord) by { InvPairs(s); }
      ApplyDeleteStep(s.db, s.remote.discord, link, ids, o.deletions);
      CopiesChangeStep(s, ApplyDelete(s.db, link, ids, o.deletions));
  }

  lemma InvPairs(s: State)
    requires Inv(s)
    ensures PairsFit(s.db, s.remote.discord)
  {}

  // --- every step keeps the invariant ---------------------------------------

  /** A step that makes no copy. */
  lemma PlainStepInv(s: State, s': State)
    requires Inv(s) && StoreStep(s, s') && PairsFit(s'.db, s'.remote.discord)
    requires NewCopy(s.db.aural, s'.db.aural).None? && NewCopy(s.remote.discord, s'.remote.discord).None?
    ensures Inv(s')
  {
    hide Inv, StoreStep, PairsFit;
    StoreStepInv(s, s');
  }

  lemma LinkAtHome(links: map<int, Link>, link: Link, job: Job)
    requires LinksFit(links) && job.link == link && exists l :: l in links && links[l] == link
    ensures AtHome(job, link.id, links)
  {}

  lemma OutboundHome(relay: Relay, m: Message<Row>, job: Job)
    requires LinksFit(relay.links) && OutboundLink(relay, m) == Some(job.link)
    ensures AtHome(job, job.link.id, relay.links)
  {
    LinkAtHome(relay.links, job.link, job);
  }

  lemma PostInv(s: State, dir: OutboundText.Directory, a: Action)
    requires Inv(s) && Enabled(s, a) && a.Post?
    ensures Inv(Next(s, dir, a))
  {
    var m, n := Message(a.channel, a.webhook, None, a.content, a.ordinary, true), |s.db.aural|;
    var s1 := s.(db := s.db.(aural := s.db.aural + [m]));
    assert !Copied(s.remote.discord, n) && NobodySends(s.relay.queues, n) && Unhanded(s.handing, n) by {
      hide EventsFit, EventsApart, LinksFit, PairsFit, JobsAtHome, HandingApart;
    }
    PairsStillFit(s.db, s1.db, s.remote.discord, s.remote.discord);
    assert StoreStep(s, s1) by {
      hide Inv;
    }
    hide StoresFit, PairsFit, CarriersFit;
    PlainStepInv(s, s1);
    hide Inv;
    HandInv(s1, HandPost(n, m));
  }

  lemma EditHereInv(s: State, dir: OutboundText.Directory, id: nat, content: string)
    requires Inv(s) && Enabled(s, EditHere(id, content))
    ensures Inv(Next(s, dir, EditHere(id, content)))
  {
    var aural := Rewritten(s.db.aural, id, content);
    var s1 := s.(db := s.db.(aural := aural));
    PairsStillFit(s.db, s1.db, s.remote.discord, s.remote.discord);
    hide StoresFit, PairsFit, CarriersFit, Blank;
    PlainStepInv(s, s1);
    hide Inv;
    HandInv(s1, HandEdit(id, aural[id]));
  }

  lemma DeleteHereInv(s: State, dir: OutboundText.Directory, id: nat)
    requires Inv(s) && Enabled(s, DeleteHere(id))
    ensures Inv(Next(s, dir, DeleteHere(id)))
  {
    var s1 := s.(db := s.db.(aural := Removed(s.db.aural, id)));
    PairsStillFit(s.db, s1.db, s.remote.discord, s.remote.discord);
    hide StoresFit, PairsFit, CarriersFit;
    PlainStepInv(s, s1);
    hide Inv;
    HandInv(s1, HandDelete(id, s.db.aural[id]));
  }

  /** The job a handoff turns into on the link it crosses by. */
  function JobFor(link: Link, h: Handoff): Job {
    match h
    case HandPost(id, m) => ToDiscord(link, id, m.content)
    case HandEdit(id, m) => EditOnDiscord(link, id, m.content)
    case HandDelete(id, _) => DeleteOnDiscord(link, id)
  }

  lemma HandedOverMeans(relay: Relay, h: Handoff)
    ensures var link := OutboundLink(relay, h.m);
      HandedOver(relay, h)
      == if link.Some? && (h.HandPost? || link.value.relayEdits)
         then Enqueue(relay, link.value.id, JobFor(link.value, h)) else relay
  {}

  lemma NobodySendsMeans(s: State, link: Link, h: Handoff)
    requires HandoffFits(h, s.db.aural, s.remote.discord)
    requires h.HandPost? ==> NobodySends(s.relay.queues, h.id)
    ensures JobFits(JobFor(link, h), s.db.aural, s.remote.discord) && Clear(s.relay.queues, JobFor(link, h))
  {}

  lemma HandOverInv(s: State, dir: OutboundText.Directory, i: nat)
    requires Inv(s) && Enabled(s, HandOver(i))
    ensures Inv(Next(s, dir, HandOver(i)))
  {
    var h := s.handing[i];
    var s1 := s.(handing := Without(s.handing, i));
    TakeHandoffInv(s, i);
    HandedOverMeans(s.relay, h);
    var link := OutboundLink(s.relay, h.m);
    if link.Some? {
      NobodySendsMeans(s, link.value, h);
      InvLinks(s);
      OutboundHome(s.relay, h.m, JobFor(link.value, h));
      hide Inv, Without, OutboundLink, HandedOver, JobFits, Clear, AtHome, HandoffFits, Unhanded, NobodySends;
      EnqueueInv(s1, link.value.id, JobFor(link.value, h));
    }
  }

  /** People write, edit and delete on Discord, copies included. */
  lemma ThereInv(s: State, dir: OutboundText.Directory, a: Action)
    requires Inv(s) && Enabled(s, a) && (a.PostThere? || a.EditThere? || a.DeleteThere?)
    ensures Inv(Next(s, dir, a))
  {
    var s' := Next(s, dir, a);
    hide StoresFit, PairsFit, CarriersFit, LinksFit, Blank;
    PairsStillFit(s.db, s'.db, s.remote.discord, s'.remote.discord);
    PlainStepInv(s, s');
  }

  lemma DeliverInv(s: State, dir: OutboundText.Directory, i: nat)
    requires Inv(s) && Enabled(s, Deliver(i))
    ensures Inv(Next(s, dir, Deliver(i)))
  {
    var e, links := s.remote.events[i], s.relay.links;
    var s1 := s.(remote := s.remote.(events := Without(s.remote.events, i)));
    LoseEventInv(s, i);
    match e
    case Created(d, content, byBot) =>
      CreatedFits(s, i);
      hide Inv, Without, Untold, JobFits, Clear, IsOwn;
      var m := s.remote.discord[d];
      if !IsOwn(links, m.webhook) && LinkForDiscord(links, m.channel).Some? {
        var link := LinkForDiscord(links, m.channel).value;
        var job := ToAural(link, d, content);
        assert AtHome(job, link.id, links) by { InvLinks(s); LinkAtHome(links, link, job); }
        EnqueueInv(s1, link.id, job);
      }
    case Edited(d, webhook, content, cards) =>
      hide Inv, Without, IsOwn;
      if d < |s.remote.discord| && LinkForDiscord(links, s.remote.discord[d].channel).Some? {
        var link := LinkForDiscord(links, s.remote.discord[d].channel).value;
        var job := EditOnAural(link, d, content);
        assert AtHome(job, link.id, links) by { InvLinks(s); LinkAtHome(links, link, job); }
        EnqueueInv(s1, link.id, job);
      }
    case Deleted(channel, ids) =>
      hide Inv, Without, IsOwn;
      if LinkForDiscord(links, channel).Some? {
        var link := LinkForDiscord(links, channel).value;
        var job := DeleteOnAural(link, ids);
        assert AtHome(job, link.id, links) by { InvLinks(s); LinkAtHome(links, link, job); }
        EnqueueInv(s1, link.id, job);
      }
  }

  lemma InvLinks(s: State)
    requires Inv(s)
    ensures LinksFit(s.relay.links)
  {}

  /** The news of a message nobody of ours wrote is the news of an original that has not crossed. */
  lemma CreatedFits(s: State, i: nat)
    requires Inv(s) && i < |s.remote.events| && s.remote.events[i].Created?
    ensures var e := s.remote.events[i];
      && e.id < |s.remote.discord|
      && (!IsOwn(s.relay.links, s.remote.discord[e.id].webhook) ==>
            forall link, content :: JobFits(ToAural(link, e.id, content), s.db.aural, s.remote.discord)
              && Clear(s.relay.queues, ToAural(link, e.id, content)))
  {
    var e := s.remote.events[i];
    assert e.id < |s.remote.discord| && !Copied(s.db.aural, e.id);
    assert TaggedAsOurs(s.remote.discord, s.relay.links);
    assert EventsApart(s.remote.events, s.relay.queues);
    hide IsOwn, Copied, LinksFit, StoresFit, PairsFit, QueuesFit, QueuedOnce, JobsAtHome, EventsFit;
    hide HandingFit, HandingApart;
  }

  lemma WorkInv(s: State, dir: OutboundText.Directory, l: int, o: Outcome)
    requires Inv(s) && Enabled(s, Work(l, o))
    ensures Inv(Next(s, dir, Work(l, o)))
    ensures JobStep(s.(relay := Popped(s.relay, l)), Next(s, dir, Work(l, o)))
  {
    hide Inv, RunJob, JobFits, Clear, Untold, Unhanded, AtHome;
    var p, job := s.(relay := Popped(s.relay, l)), s.relay.queues[l][0];
    PopInv(s, l);
    RunJobStep(p, dir, l, job, o);
    hide StoreStep, CopyWasDue, PairsFit, OriginalsKept;
    StoreStepInv(p, Next(s, dir, Work(l, o)));
  }

  /** Administrators and housekeeping change no message. */
  lemma AdminInv(s: State, dir: OutboundText.Directory, a: Action)
    requires Inv(s) && Enabled(s, a) && (a.SetLink? || a.DropRow? || a.Connect? || a.Sweep?)
    ensures Inv(Next(s, dir, a))
  {
    var s' := Next(s, dir, a);
    PairsStillFit(s.db, s'.db, s.remote.discord, s'.remote.discord);
    hide StoresFit, PairsFit, CarriersFit, LinksFit;
    PlainStepInv(s, s');
  }

  lemma StepInv(s: State, dir: OutboundText.Directory, a: Action)
    requires Inv(s) && Enabled(s, a)
    ensures Inv(Next(s, dir, a))
  {
    hide Inv;
    match a
    case Post(_, _, _, _) => PostInv(s, dir, a);
    case EditHere(id, content) => EditHereInv(s, dir, id, content);
    case DeleteHere(id) => DeleteHereInv(s, dir, id);
    case HandOver(i) => HandOverInv(s, dir, i);
    case PostThere(_, _, _, _, _) => ThereInv(s, dir, a);
    case EditThere(_, _, _, _) => ThereInv(s, dir, a);
    case DeleteThere(_, _) => ThereInv(s, dir, a);
    case Deliver(i) => DeliverInv(s, dir, i);
    case Lose(i) => LoseEventInv(s, i);
    case Work(l, o) => WorkInv(s, dir, l, o);
    case SetLink(_, _, _, _) => AdminInv(s, dir, a);
    case DropRow(_) => AdminInv(s, dir, a);
    case Connect(_) => AdminInv(s, dir, a);
    case Sweep(_) => AdminInv(s, dir, a);
  }

  lemma InitialInv(s: State)
    requires Initial(s)
    ensures Inv(s)
  {}

  // --- no loop --------------------------------------------------------------

  ghost predicate StepAt(states: seq<State>, dir: OutboundText.Directory, actions: seq<Action>, k: nat)
    requires k < |actions| == |states| - 1
  {
    Enabled(states[k], actions[k]) && states[k + 1] == Next(states[k], dir, actions[k])
  }

  ghost predicate IsRun(states: seq<State>, dir: OutboundText.Directory, actions: seq<Action>) {
    |states| == |actions| + 1 && forall k: nat :: k < |actions| ==> StepAt(states, dir, actions, k)
  }

  lemma {:induction false} RunInv(states: seq<State>, dir: OutboundText.Directory, actions: seq<Action>, k: nat)
    requires IsRun(states, dir, actions) && Initial(states[0]) && k < |states|
    ensures Inv(states[k])
  {
    if k == 0 {
      InitialInv(states[0]);
    } else {
      RunInv(states, dir, actions, k - 1);
      assert StepAt(states, dir, actions, k - 1);
      StepInv(states[k - 1], dir, actions[k - 1]);
    }
  }

  /**
    However links are switched and turned, calls fail or are repeated, handlers
    interleave and events come late: no copy is copied, nothing written on
    Discord is copied here twice, every copy on Discord bears a webhook of ours,
    and nothing still waiting to cross is a copy or has crossed.
   */
  lemma NoLoop(states: seq<State>, dir: OutboundText.Directory, actions: seq<Action>, k: nat)
    requires IsRun(states, dir, actions) && Initial(states[0]) && k < |states|
    ensures var aural, discord := states[k].db.aural, states[k].remote.discord;
      && CopiedOnce(aural)
      && CopiesOriginals(aural, discord) && CopiesOriginals(discord, aural)
      && TaggedAsOurs(discord, states[k].relay.links)
      && QueuesFit(states[k].relay.queues, aural, discord)
      && HandingFit(states[k].handing, aural, discord)
  {
    RunInv(states, dir, actions, k);
    hide CopiedOnce, CopiesOriginals, TaggedAsOurs, QueuesFit, HandingFit;
  }

  /** The message this step is somebody's own doing to. */
  predicate ByHandHere(a: Action, id: nat) {
    (a.EditHere? && a.id == id) || (a.DeleteHere? && a.id == id)
  }

  predicate ByHandThere(a: Action, id: nat) {
    (a.EditThere? && a.id == id) || (a.DeleteThere? && id in a.ids)
  }

  /**
    No edit and no deletion of a copy reaches its original: what somebody wrote
    changes only by their own side's hand.
   */
  lemma OriginalsChangeOnlyByHand(s: State, dir: OutboundText.Directory, a: Action, id: nat)
    requires Inv(s) && Enabled(s, a)
    ensures var s' := Next(s, dir, a);
      && (id < |s.db.aural| && s.db.aural[id].copyOf.None? && !ByHandHere(a, id) ==>
            id < |s'.db.aural| && s'.db.aural[id] == s.db.aural[id])
      && (id < |s.remote.discord| && s.remote.discord[id].copyOf.None? && !ByHandThere(a, id) ==>
            id < |s'.remote.discord| && s'.remote.discord[id] == s.remote.discord[id])
  {
    if a.Work? {
      WorkInv(s, dir, a.link, a.outcome);
      hide Inv, RunJob, StoreStep, CopyWasDue, PairsFit;
    } else {
      hide Inv, RunJob, IsOwn, Without, OnEvent, HandedOver, Blank;
    }
  }
}
