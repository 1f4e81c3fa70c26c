# Aural server: a model of its concurrent core, and proofs about it

Aural is a chat server. This project models the parts of it in which several
things happen at once and something has to hold throughout: the bridge to
Discord, the voice plane, the role hierarchy, throttling and screening, the
asynchronous log file, the registry of connections, and the presence feed. `dafny
verify dfyconfig.toml` checks all of it.

A module of functions on values says what one step does to the whole state, and
lemmas prove what every run of such steps keeps. Where the original is an object
whose methods change its fields, a class beside it has those fields, branches and
loops, and each of its methods is proved to do the step the functions name. The
bridge's relay, the sessions and rooms of the voice plane, the role store with
its handlers and the guards and writes they consist of, the token buckets and
their table, the pace history, the registry with its authentications and
closings, and the presence broadcasts with their handlers have such a class; the
screening of words and the resolving of mentions are methods with the original's
loops. The rest is stated as functions and steps only, and statements about it
are about the steps as modelled: the log file's threads; escaping and cutting of
text; in the voice plane signing in, the end of a displaced connection, the
deletion of channels and the relay's giving up; in the presence feed moves, and
its handlers taken apart.

| files | the part of the server |
|---|---|
| `OutboundText`, `Bridge`, `BridgeGuards`, `BridgeConvergence`, `BridgeGates`, `BridgeOutcomes`, `BridgeInbound`, `BridgeRuns`, `BridgeRedelivery`, `DiscordRelay` | the Discord bridge |
| `VoiceRooms`, `VoicePlane`, `VoiceEffects`, `VoiceRaces`, `VoiceHub` | the voice plane |
| `Roles`, `RoleRights`, `RoleRaces`, `RoleHandlers` | the role hierarchy |
| `TokenBucket`, `PaceHistory`, `WordScreen` | throttling and screening |
| `LogWriter` | the asynchronous log file |
| `Registry`, `Presence`, `PresenceFields`, `PresenceRaces`, `PresenceTurns`, `PresenceHub` | connections and who sees whom |
| `Collections`, `Wrappers` | helpers |

## What the parts say

**The bridge.** Both message stores, the pairing table, one bounded queue a link
with its worker, the gateway's undelivered events, and what handlers here have
stored and not yet handed to the bridge. People write, edit and delete on both
sides, and their handlers turn to the bridge in any order; links are switched and
turned; calls fail, also after taking effect, and the client then makes them
again; events come late, out of order or not at all. None comes twice here; with
events delivered again, the copies made of a message here number at most the
deliveries of its news (`CopiesAtMostDeliveries`).

*No loop*: no copy is copied, nothing written on Discord is copied here twice,
every copy on Discord bears a webhook of ours, nothing still waiting is a copy or
has crossed, and no edit or deletion of a copy reaches its original. A message
from here has two copies on Discord if and only if the client repeated a post
that had taken effect (`CopiedOnceUnlessRepeated`); edits and deletions then
follow the last one only (`RepeatedPost`).

*What crosses*: a queue gets a job exactly when an ordinary line, not written
under the row of any link, is handed over while the relay is up and its channel's
link carries it that way, or somebody's own writing is heard of from Discord on a
link that carries it this way; edits and deletions only where edits cross
(`QueuesExactly`). A link that never carried toward Discord leaves nothing there
(`ClosedLinkStaysSilent`). And a message on Discord has here, at every moment,
one copy saying what the last job run about it made of it, or none
(`CopySaysWhatWasRun`).

*Convergence*: on a link that stays up with edits on, whose calls succeed at once
and whose queue has room, running the jobs still queued would at any moment leave
on Discord of each message of the channel exactly one copy with its present text,
or none if it was deleted, if and only if what was done to it was handed over in
the right order and no sweep dropped its pairing while the copy was still there
(`Convergence`). The right order is a matter of the handoffs alone: a post before
its deletion, and of post and edits one with the present text last. Handing over
in stored order is enough for it (`InTurnConverges`). The text a copy says is
what `EscapeOutbound`, `RewriteMentions` and `TruncateRunes` make of it, and
those are modelled rune by rune.

Six things the code and its comments do not quite agree on came out of this.
Escaping does not break every `@everyone`: one directly behind a `<` survives,
and `EveryoneSurvivesBehindAngle` says that this is exactly when. A post repeated
after a failed answer leaves a copy nothing follows. A message deleted, or
edited, by another handler between being stored and being queued crosses as it
was first and stays so (`ChangeOvertakesItsPost`), and two edits may arrive the
wrong way round (`EditsOvertakeEachOther`). Housekeeping drops pairings of
deleted messages, and if it does so between a deletion and its queued job the
copy stays on Discord (`DeletionNeedsItsPairing`, `SweepOvertakesDeletion`). The
guard on this side is not exact: a copy here is recognised if and only if its
channel's link writes under its row now (`RecognisedExactly`), so of two messages
queued before a link has its first row only the later is (`TwoRowsForOneLink`).
Nothing loops all the same, because an edit or deletion also asks where the
message was written (`CopiesNeverCrossBack`). Each of these runs is shown from
the beginning.

**The voice plane.** For the epochs each section under `voiceMu` is a step, so
every interleaving of handlers is covered; for agreement between sessions and
rooms each handler is a step. Then media open in a channel always means being in
its room and sitting in it. With other handlers between the check that somebody
sits in a channel and the opening of their session there, it does if and only if
every opening finds its user still sitting there (`AgreementExactly`), which it
does unless they were reseated in between (`AgreementUnlessReseated`);
`MoveOvertakesConnect` is a moderator's move that comes in between. The converse,
and that nobody watches a screen that is not shared in their own channel, hold as
long as nobody signs in again while their earlier connection is in a call;
`DisplacementLeavesAGhost` says that signing in breaks them exactly then, and
`StepKeeps` that nothing else does. The relay giving up on a transport is taken
to name the channel the user is in; `WrongChannelStrandsViewers` says what
happens if it names another. What each handler does to seats, media, shares and
rooms is in `VoiceEffects`, field by field.

**The role hierarchy.** Six operations with their guards, and the claim about
coalitions: of people other than the owner working together, nobody who stood
below their highest role comes to hold it or anything above it. Reorders renumber
positions and may split ties, so the claim is about places in the stack, where a
role's place is its position and then its id. What each operation demands and
writes is told from the roles people hold (`RoleRights`): an update, for one,
passes exactly when its author may look after roles, reaches the role, and holds
every bit in which the masks differ.

The handlers look and decide at one moment and write at a later one, with no lock
over both. `Roles` takes the two together, one handler at a time, and there the
claim holds of every run (`NoCoalitionLifts`). `RoleRaces` takes them apart, with
any other handlers in between. There the hierarchy from a role up stays as it was
if and only if every create, update and reorder puts what it writes beneath that
role at the moment it is written (`HierarchyKeptExactly`), and this holds as long
as no create or update is written once a reorder has been written since its
guards, and no reorder once a role has been created since
(`NoCoalitionLiftsInterleaved`). Without that condition the claim is false:
`ReorderOvertakesUpdate` is a run of two administrators after which somebody
ranks above both. Without reorders ranks are kept exactly, interleaved or not
(`NoCoalitionOutranksInterleaved`).

So with permission bits. Taken in one go, whatever bit appears in a mask or goes
was its author's to flip (`RunFlipsOwnBits`). But an update writes back the whole
row it read, so with others in between it flips only what its author held if and
only if its author held every bit in which the mask has changed since
(`StaleRowFlips`), and `RenameRestoresBits` is a run in which somebody's rename
puts back a bit another had just taken away. All the same no bit comes out of
nothing: as long as nobody who decides is the owner or an administrator then, no
mask comes to have a bit that no mask had at the start (`NoBitOutOfNothing`).

**Throttling and screening.** Token buckets over real numbers, the table of them
swept and unswept, the bounded history against everything ever let through, and
the masking of listed words through a folded copy of another length. The table
looks a bucket up under its own lock and takes from it after letting that go, so
a sweep may come in between: it can be told from later answers if and only if it
drops a bucket so held (`SweepShowsIffItDropsAHeldBucket`, `TwoTakesAtOnce`).
Screening a masked message again can find something: exactly when a match covers
spaces only, or spaces and then part of what one more rune folds to
(`FoundAgainIffEscaped`), which `NothingFoundAgain` rules out for one-to-one
folding with whole words off.

**The log file.** Writers, the worker, the ticker and any number of Closes, as
program counters interleaved step by step, with Go's rule that a waiting write
lock holds off new readers. A write is turned away only once some Close has
marked the writer closed (`RefusedOnlyWhenClosed`), and one under the read lock
before any Close had the lock succeeds (`LockedInTimeSucceeds`); what succeeded
is in the file once a Close has returned (`CloseReturnsWithEverythingWritten`),
and without any Close whenever the worker has nothing to do
(`NothingToDoMeansWritten`).

**Connections and presence.** The two maps of the registry under every
interleaving of authentications and closings, and the presence feed: what each
connected viewer makes of the frames sent to them, against a snapshot taken now,
and both against what is stored and reported of a user (`FeedShowsTheFields`).

Where handlers take turns, whoever folds their frames over their snapshot sees
the same as a snapshot taken now (`FeedEqualsSnapshot`), and as long as somebody
hides, everybody else is sent exactly what they would have been sent had that
person done nothing. But joining, reading a snapshot and queueing it are separate
moments, and so are setting a change, reading the view that tells of it, and
queueing it for each viewer. `PresenceRaces` takes them apart. There, at every
moment of every run, a viewer's frames show a user as a snapshot would if and
only if what was read for the last frame about that user, snapshots included,
reads to the viewer as the user does now (`FeedExactly`); if the reading was of
the user as they were, that is to say that they have not come to read otherwise
since (`ReadSinceTheLastChange`). As long as at most one thing under way ever
concerns how a viewer is shown a user, and the user makes no report over a
connection that a newer one has displaced, the viewer is right about them
whenever nothing is (`RightInTurn`), whatever else interleaves; that covers
handlers that take turns (`TakingTurns`). `SnapshotOvertaken` is a run that does
not: a snapshot is read, its viewer is told of a change, and the snapshot comes
after; the viewer goes on seeing what was, with nothing left under way that would
put it right.

## Model

| member | source | states |
|---|---|---|
| OutboundText.EscapedHasNoMarkup | internal/discord/text.go:168-184 | whatever was typed, no "<@" and no "<#" leaves here |
| OutboundText.EscapingOnlyInsertsSpaces | internal/discord/text.go:159-167 | nothing is deleted: without the zero-width spaces the text is what was typed |
| OutboundText.EveryoneSurvivesBehindAngle | internal/discord/text.go:177-183 | "@everyone" or "@here" is left in the output if and only if it was typed directly behind a "<" |
| OutboundText.UntouchedExactly | internal/discord/text.go:168-184 | a text is changed if and only if it holds one of the four openings |
| OutboundText.RewritingOnlyTouchesMentions | internal/discord/text.go:199-221 | put each mention's name back and the text is the one that came in |
| OutboundText.MentionsResolve | internal/discord/text.go:213-220 | a name becomes a mention only of the id it resolves to, and is left as written only if it resolves to nobody |
| OutboundText.EveryNameIsLookedUp | internal/discord/text.go:197-221 | every "@" with a name behind it, as much of it as there is up to 64 runes, is taken for that whole name: a mention of whom it resolves to, or left as it was |
| OutboundText.MentionsAreNames | internal/discord/text.go:197-221 | and a mention stands only where such a name stood |
| OutboundText.OnlyInsertedMentions | internal/discord/text.go:206-221 | in rewritten text a "<@" stands only where a mention was put in |
| OutboundText.AllowedAreTheMentioned | internal/gateway/relay_roster.go:254-268 | the list of ids that may be pinged holds the ids mentioned, all of them, each once, and no other |
| OutboundText.ResolveOutboundMentions | internal/gateway/relay_roster.go:245-269 | the loop over the text writes that output and that list; without a guild or a client the text is unchanged and nobody is pinged |
| OutboundText.TruncateRunes | internal/discord/text.go:229-246 | the result fits the limit, is the text itself if that fits, and otherwise is one rune short of the limit and an ellipsis |
| OutboundText.EveryTagIsAllowed | internal/discord/text.go:168-246 | after escaping, rewriting and cutting, the text fits and every "<@" begins a mention put in for a name that resolves to an allowed id |
| Bridge.StoresGrown | internal/gateway/relay.go:44-64 | copies stay copies of originals, here one of each, and tagged as ours there, however the stores grow by copies that were due |
| Bridge.EnqueueInv | internal/gateway/relay.go:469-488 | queueing, or dropping on a full queue, keeps every waiting delivery one of an original that has not crossed, and no two the same |
| Bridge.TakeHandoffInv | internal/gateway/handlers_message.go:134-140 | whichever handler turns to the bridge next, it brings an original that has not crossed and that nobody else brings |
| Bridge.PopInv | internal/gateway/relay.go:515-546 | the worker takes a delivery nobody else has, of a message whose news is not still to come |
| Bridge.RunJobStep | internal/discord/rest.go:347-396 | whatever job runs and however its calls go or are repeated, it copies only what was due, pairs only a copy with its original, and touches no original on either side |
| Bridge.StepInv | internal/gateway/relay.go:44-64 | every step of people, handlers, gateway, workers, administrators and housekeeping keeps the whole invariant |
| Bridge.NoLoop | internal/gateway/relay.go:44-64 | over every run no copy is copied, nothing from Discord is copied here twice, our copies bear our webhooks, and nothing waiting is a copy or has crossed |
| Bridge.OriginalsChangeOnlyByHand | internal/gateway/relay.go:998-1077 | no edit or deletion of a copy reaches its original: what somebody wrote changes only by their own side's hand |
| BridgeGuards.CopiedOnceUnlessRepeated | internal/discord/rest.go:465-499 | over every run no message has two copies on Discord if and only if no post that had taken effect was made again |
| BridgeGuards.RepeatedPost | internal/discord/rest.go:465-499 | a post made again leaves two live copies, of which whatever is done here reaches only the second |
| BridgeGuards.OnlyThePairedCopyFollows | internal/gateway/relay_outbound.go:298-355 | an edit or deletion here changes no copy but the one its message is paired with |
| BridgeGuards.StepRows | internal/gateway/relay.go:965-995 | every row a link, a queued job or a copy names stays one made for its own channel |
| BridgeGuards.RecognisedExactly | internal/gateway/relay.go:352-360 | at every moment of every run a copy here is recognised if and only if its channel's link writes under its row now |
| BridgeGuards.TwoRowsForOneLink | internal/gateway/relay.go:965-995 | two deliveries queued before the first row make one each, and the first copy is recognised until the second is written |
| BridgeGuards.CopiesNeverCrossBack | internal/gateway/relay_outbound.go:298-355 | recognised or not, no edit or deletion of a copy makes a call, and none is ever posted |
| BridgeConvergence.StepConverges | internal/gateway/relay_outbound.go:28-74 | on a healthy link every step keeps the promise that what is queued would make each copy say what was handed over about its message |
| BridgeConvergence.JobCarriesOut | internal/gateway/relay_outbound.go:298-355 | a job changes its own link's copies as its effect says and every other link's not at all |
| BridgeConvergence.EmptyQueueShows | internal/gateway/relay_outbound.go:140-203 | with an empty queue there is on Discord exactly one copy of a message saying what was handed over, or none |
| BridgeConvergence.ToldInOrder | internal/gateway/relay_outbound.go:28-74 | a sequence of handoffs tells what is wanted of a message if and only if it has them in the right order |
| BridgeConvergence.Convergence | internal/gateway/handlers_message.go:107-142 | at every moment of every run that goes well for a link, running its queued jobs leaves of a message exactly one copy with its present text, or none if it is gone, if and only if what was done to it was handed over in the right order and no sweep dropped its pairing while the copy was still there |
| BridgeConvergence.ChannelConvergence | internal/gateway/relay.go:469-546 | so the whole channel is mirrored on Discord if and only if the order is right for each of its messages and no sweep gave one up |
| BridgeConvergence.InTurnConverges | internal/gateway/handlers_message.go:107-142 | handed over in the order it was stored, and all of it, that order is right, so the mirror is unless a sweep came too early |
| BridgeConvergence.ChangeOvertakesItsPost | internal/gateway/handlers_message.go:573-586 | a run on which every call goes well, and the copy of a message deleted or edited since still says what was posted |
| BridgeConvergence.EditsOvertakeEachOther | internal/gateway/handlers_message.go:515-528 | a run on which two edits are queued the other way round, and the earlier one stays |
| BridgeConvergence.StepStrays | internal/store/relay.go:291-311 | a copy whose pairing a sweep dropped stays on Discord whatever happens here, and nothing but a sweep makes one such |
| BridgeConvergence.SweepOvertakesDeletion | internal/store/relay.go:291-311 | a run from the start on which everything goes well, and the pairing of a deleted message is dropped before its deletion is handed over |
| BridgeConvergence.DeletionNeedsItsPairing | internal/gateway/relay_outbound.go:341-355 | a queued deletion leaves a copy there if and only if the pairing is gone or names another |
| BridgeGates.HandOverQueues | internal/gateway/relay_outbound.go:28-133 | handing over queues a message on its channel's link if and only if it is an ordinary line, written under no link's row, the relay is up, the link is enabled and carries toward Discord, carries edits if it is one, and has room; and it changes no other queue |
| BridgeGates.DeliverQueues | internal/gateway/relay.go:580-648 | hearing of something from Discord queues it on its channel's link if and only if it is not our own echo, a notice, or the bot's, the link is enabled and carries this way, carries edits if it is one, and has room |
| BridgeGates.QueuesExactly | internal/gateway/relay.go:469-546 | over every run, what becomes of every queue at every step |
| BridgeGates.RunLetThrough | internal/gateway/relay_outbound.go:28-133 | nothing ever waits on a link that it was not open to when it was queued |
| BridgeGates.ClosedLinkStaysSilent | internal/gateway/relay_outbound.go:126-129 | a link that at no moment of a run carried toward Discord has left no copy in its channel there |
| BridgeOutcomes.BlankMeans | internal/gateway/relay_outbound.go:140-150 | what counts as blank |
| BridgeOutcomes.PostLeaves | internal/gateway/relay_outbound.go:140-203 | whatever becomes of a delivery's calls, one copy stands for each time it took effect, in the link's channel under its webhook, and the last is paired if and only if it was answered and recorded |
| BridgeOutcomes.EditLeaves | internal/gateway/relay_outbound.go:298-339 | an edit rewrites the copy if and only if it took effect, and drops the pairing if and only if the copy is gone and that was answered and recorded |
| BridgeOutcomes.DeleteLeaves | internal/gateway/relay_outbound.go:341-355 | a deletion removes the copy if and only if it took effect, and drops the pairing if and only if it was answered and recorded |
| BridgeOutcomes.ProvisionLeaves | internal/gateway/relay.go:965-995 | a row is made if and only if the one known is gone and one can be, and the link writes under it from then on if and only if that was recorded |
| BridgeOutcomes.ForgetsWhenRecorded | internal/gateway/relay.go:1071-1123 | a deletion from Discord drops the pairing just when that could be recorded |
| BridgeOutcomes.OthersLeave | internal/gateway/relay.go:44-64 | what people on Discord, administrators and housekeeping do, and what of it is to be heard |
| BridgeInbound.JobSays | internal/gateway/relay.go:651-1123 | whatever job runs, the copy here of a message on Discord says afterwards the text it brought, cut to size, or what it said before, or is gone |
| BridgeInbound.StepSays | internal/gateway/relay.go:998-1018 | and so with every step of the bridge and of people here |
| BridgeInbound.CopySaysWhatWasRun | internal/gateway/relay.go:651-1123 | over every run, a message on Discord has here on a link exactly one live copy, saying what the last job run about it made of it, or none |
| BridgeRuns.RepeatedPostFromTheStart | internal/discord/rest.go:465-499 | a run from the start after which a message has two live copies, of which the first follows nothing done here |
| BridgeRuns.TwoRowsFromTheStart | internal/gateway/relay.go:965-995 | a run from the start after which the earlier of two copies here is no longer recognised |
| BridgeRedelivery.StepCounts | internal/gateway/relay.go:580-730 | no step makes more of a message from Discord, waiting and copied, than the deliveries of its news |
| BridgeRedelivery.CopiesAtMostDeliveries | internal/store/relay.go:232-235 | over every run, however often the gateway delivers an event again, the copies here of a message on Discord number at most the deliveries of its news |
| DiscordRelay.PairingIsUnique | internal/store/relay.go:275-279 | a Discord message is paired with at most one message here on a link |
| DiscordRelay.DiscordRelay.SetLinks | internal/gateway/relay.go:294-321 | both indexes and both guard sets are those of the rows given, disabled links included; queues of links that are gone are handed back with their jobs |
| DiscordRelay.DiscordRelay.LinkForChannel | internal/gateway/relay.go:332-337 | the index answers as a search of all links would |
| DiscordRelay.DiscordRelay.LinkForDiscord | internal/gateway/relay.go:324-329 | the index answers as a search of all links would |
| DiscordRelay.DiscordRelay.IsOwnEcho | internal/gateway/relay.go:340-348 | true exactly of a message under a webhook of one of the links |
| DiscordRelay.DiscordRelay.IsInboundMessage | internal/gateway/relay.go:352-360 | true exactly of a message under a row some link writes under |
| DiscordRelay.DiscordRelay.Enqueue | internal/gateway/relay.go:469-488 | the job goes last, on a new queue if there was none, or is dropped when the queue is full |
| DiscordRelay.DiscordRelay.OutboundLink | internal/gateway/relay_outbound.go:116-137 | the link a message crosses by: none for a comment on a post, the relay's own writing, a link off or turned the other way, or no connection |
| DiscordRelay.DiscordRelay.StoreMessage | internal/gateway/handlers_message.go:112-136 | storing a message is the model's step, keeps the invariant, and leaves it still to be handed over |
| DiscordRelay.DiscordRelay.StoreEdit | internal/gateway/handlers_message.go:515-527 | likewise for an edit |
| DiscordRelay.DiscordRelay.StoreDeletion | internal/gateway/handlers_message.go:573-585 | likewise for a deletion, which is handed over with the message as it was |
| DiscordRelay.DiscordRelay.HandOver | internal/gateway/relay_outbound.go:436-452 | whichever handler turns to the relay, its turning is the model's step, and keeps the invariant |
| DiscordRelay.DiscordRelay.OnDiscordMessage | internal/gateway/relay.go:580-606 | Discord's own notices, our own echo and the bot's account are dropped; the rest is queued on its channel's link if that link carries this way |
| DiscordRelay.DiscordRelay.OnDiscordEdit | internal/gateway/relay.go:610-631 | our own echo is dropped; the rest is queued if the link carries edits and there is text or a card |
| DiscordRelay.DiscordRelay.OnDiscordDelete | internal/gateway/relay.go:634-647 | likewise for bulk deletions |
| DiscordRelay.DiscordRelay.OnGatewayEvent | internal/gateway/relay.go:194-201 | delivering any one pending event is the model's step, and keeps the invariant |
| DiscordRelay.DiscordRelay.Execute | internal/discord/rest.go:347-396 | a post and its repetitions each leave a copy and its news, and the last is the one answered |
| DiscordRelay.DiscordRelay.DeliverToDiscord | internal/gateway/relay_outbound.go:140-203 | blank text is not sent; what is sent is the rendered text under the link's webhook, and the copy answered is paired as written here |
| DiscordRelay.DiscordRelay.PushEdit | internal/gateway/relay_outbound.go:298-338 | an edit travels only away from where the message was written; a blank one leaves the copy; a pairing whose copy is gone is forgotten |
| DiscordRelay.DiscordRelay.PushDelete | internal/gateway/relay_outbound.go:341-355 | likewise for a deletion, whose pairing is forgotten once Discord has answered |
| DiscordRelay.DiscordRelay.InboundWebhook | internal/gateway/relay.go:965-995 | the known row if it is still there, and otherwise a new one recorded on the link and in the guard set, or no row if it could not be made or recorded |
| DiscordRelay.DiscordRelay.DeliverToAural | internal/gateway/relay.go:651-730 | a refused or empty text writes nothing; otherwise one message, cut to size, under the relay's row, paired as written there |
| DiscordRelay.DiscordRelay.RelayMessageByDiscord | internal/store/relay.go:275-279 | the pairing of a Discord message on one link, if there is one |
| DiscordRelay.DiscordRelay.ApplyDiscordEdit | internal/gateway/relay.go:998-1018 | rewrites the copy here and nothing that was written here |
| DiscordRelay.DiscordRelay.ApplyDiscordDeletes | internal/gateway/relay.go:634-647 | each message of a bulk deletion in turn loses its copy here, if it has one and it can be deleted, whatever became of those before it |
| DiscordRelay.DiscordRelay.RunNext | internal/gateway/relay.go:515-534 | the worker taking and running the job at the head is the model's step, and keeps the invariant |
| VoiceRooms.StepValid | internal/gateway/voice.go:325-406 | stored rooms stay non-empty and free of duplicates |
| VoiceRooms.StepKeepsOrder | internal/gateway/voice.go:25-36 | whoever stays in a room stays in order, and newcomers come last |
| VoiceRooms.OneHostPerEpoch | internal/gateway/voice.go:325-406 | for every interleaving on a channel not deleted meanwhile the epoch never decreases and no number belongs to two hosts |
| VoiceRooms.HostPresentLongest | internal/gateway/voice.go:25-44 | whoever has been in the room throughout, the host has too |
| VoiceRooms.ArriveDoes | internal/gateway/voice.go:325-369 | whoever arrives goes last in the room; the first to is host and moves the epoch by one; no other room or epoch changes |
| VoiceRooms.DepartDoes | internal/gateway/voice.go:371-394 | whoever departs leaves the others as they stood, and moves the epoch by one if they were host |
| VoiceRooms.OthersDo | internal/gateway/voice.go:396-417 | emptying keeps the epoch, an election moves it by one and nobody, forgetting starts it again |
| VoicePlane.ResetFacts | internal/gateway/voice.go:494-525 | after a reset nobody connected has media in the channel and its room is gone; other channels are as they were |
| VoicePlane.LeaveFacts | internal/gateway/voice.go:439-491 | what one departure does to every seat and every room, an election included |
| VoicePlane.LeaveWhole | internal/gateway/voice.go:548-599 | a departure leaves nobody watching what is not shared, and the rooms those in a call |
| VoicePlane.EvictKeeps | internal/gateway/handlers_channel.go:369-404 | pulling people out one after another keeps agreement, rooms and viewers right |
| VoicePlane.DeleteKeeps | internal/gateway/handlers_channel.go:239-249 | so does deleting channels, their rooms first |
| VoicePlane.FinishDisplacedKeeps | internal/gateway/server.go:336-354 | so does the end of a displaced connection, which repairs its room only if nobody holds the identity |
| VoicePlane.ConnectKeeps | internal/gateway/handlers_voice.go:64-178 | so does opening a session, which leaves the one open before |
| VoicePlane.StepKeeps | internal/gateway/voice.go:18-24 | every handler, with no other acting inside it, keeps agreement, and the rest too unless it displaces somebody in a call |
| VoicePlane.SessionsAgreeWithRooms | internal/gateway/voice.go:18-24 | in every state reached by whole handlers media open in a channel means being in its room and sitting in it |
| VoicePlane.RoomsAreThoseInCall | internal/gateway/session.go:335-368 | likewise, when nobody is displaced in a call, a room's members are exactly those with media open there, so nobody is in two rooms |
| VoicePlane.NobodyWatchesNothing | internal/gateway/handlers_voice.go:495-556 | nor does anybody watch a screen that is not shared in their own channel |
| VoicePlane.HostLeavesNobodyInCall | internal/gateway/voice.go:485-490 | a client-hosted host leaving ends every call in the channel |
| VoicePlane.DisplacementLeavesAGhost | internal/gateway/server.go:345-353 | signing in again keeps all this if and only if the earlier connection had no media open |
| VoicePlane.WrongChannelStrandsViewers | internal/gateway/voice.go:682-688 | leaving by another channel's name leaves viewers right if and only if there were none |
| VoiceEffects.StreamDoes | internal/gateway/handlers_voice.go:404-486 | in a call the share is afterwards as asked; one that stops is watched by nobody in the channel; nothing else changes, and outside a call nothing at all |
| VoiceEffects.StoppedIsUnwatched | internal/gateway/voice.go:527-546 | so a share not wanted is one nobody watches |
| VoiceEffects.WatchDoes | internal/gateway/handlers_voice.go:495-556 | the publisher is watched afterwards if and only if that was wanted and is shared in the viewer's own channel, or the request could not be met and it was so before; nothing else changes |
| VoiceEffects.MoveDoes | internal/gateway/handlers_user.go:540-562 | the user sits where they were moved, out of any call unless it was no move; nobody else's seat changes |
| VoiceEffects.ConnectDoes | internal/gateway/handlers_voice.go:64-178 | a connect that succeeds opens media where its user sits and puts them in that room, last if they were not left there; one that fails leaves no media open |
| VoiceEffects.LeaveDoes | internal/gateway/handlers_voice.go:196-201 | leaving closes the media, keeps the seat and leaves the room |
| VoiceEffects.SignInDoes | internal/gateway/hub.go:784-799 | a new connection starts with an empty seat and the earlier one goes on as it was |
| VoiceEffects.FinishDoes | internal/gateway/server.go:321-356 | a connection that ends is gone, and its user from the room of its call |
| VoiceEffects.FinishDisplacedDoes | internal/gateway/server.go:336-354 | a displaced one touches nothing of the newer one's, and with none its user leaves the room of its call |
| VoiceEffects.EvictDoes | internal/gateway/handlers_channel.go:369-404 | whoever is pulled out sits nowhere and is in no call, and everybody else sits where they sat |
| VoiceEffects.DeleteDoes | internal/gateway/handlers_channel.go:239-249 | after a deletion nobody sits in a channel deleted |
| VoiceEffects.DeletedIsForgotten | internal/gateway/voice.go:408-417 | and a channel deleted has no room and starts its epochs again |
| VoiceEffects.ResetDoes | internal/gateway/voice.go:494-525 | resetting a channel nobody is in does nothing, and otherwise empties it and moves its epoch by one |
| VoiceEffects.ConfigureDoes | internal/gateway/voice.go:494-525 | a change of mode ends every call and moves nobody's seat |
| VoiceRaces.OpeningAgrees | internal/gateway/session.go:335-344 | opening in a channel checked earlier keeps sessions and rooms agreeing if and only if the user sits there now |
| VoiceRaces.AgreementExactly | internal/gateway/handlers_voice.go:73-144 | over every run with other handlers between check and opening, agreement has held throughout if and only if every opening found its user still in the channel checked |
| VoiceRaces.SeatStays | internal/gateway/handlers_user.go:559-562 | no handler but a move, an eviction, a deletion or the end of the connection takes somebody from their seat |
| VoiceRaces.MarkedExactly | internal/gateway/handlers_user.go:540-562 | a check not yet followed up counts as overtaken if and only if its user has been moved or pulled out since |
| VoiceRaces.AgreementUnlessReseated | internal/gateway/handlers_voice.go:73-144 | so agreement holds as long as nobody is reseated between a check and its opening |
| VoiceRaces.MoveOvertakesConnect | internal/gateway/handlers_user.go:559-562 | a run from the start on which a moderator's move comes in between and media is open in the channel left |
| VoiceHub.Session.OpenVoiceSession | internal/gateway/session.go:335-344 | refused exactly when a session is open in another channel, and then nothing changes |
| VoiceHub.Session.ClearVoiceSession | internal/gateway/session.go:351-368 | the share and what is watched end with the session of the channel named, or with whichever is open if none is, and with no other |
| VoiceHub.Session.SetScreen | internal/gateway/session.go:428-438 | announcing a share forgets nothing that is watched |
| VoiceHub.Session.SetWatching | internal/gateway/session.go:450-465 | answers whether the wish changed, and changes only that |
| VoiceHub.Hub.VoiceAttach | internal/gateway/voice.go:325-344 | arrival is the model's critical section, and answers the host, the epoch and the count there are then |
| VoiceHub.Hub.VoiceDetach | internal/gateway/voice.go:371-393 | departure is the model's critical section, and answers whether the host left, who remains and the epoch |
| VoiceHub.Hub.VoiceDropRoom | internal/gateway/voice.go:396-406 | answers who was there and forgets the room, keeping its epoch |
| VoiceHub.Hub.DropViewers | internal/gateway/voice.go:572-585 | everybody in the channel but the publisher stops watching them, and nobody else changes |
| VoiceHub.Hub.ResetVoiceRoom | internal/gateway/voice.go:494-525 | the room goes, the epoch moves, and each member still connected is cleared |
| VoiceHub.Hub.EndScreenShare | internal/gateway/voice.go:548-569 | the share ends with its viewers, or nothing happens |
| VoiceHub.Hub.LeaveVoice | internal/gateway/voice.go:439-491 | the single exit is the model's departure |
| VoiceHub.Hub.HandleVoiceConnect | internal/gateway/handlers_voice.go:64-178 | the handler is the model's step, and keeps the invariant |
| VoiceHub.Hub.HandleVoiceLeave | internal/gateway/handlers_voice.go:183-188 | likewise |
| VoiceHub.Hub.HandleVoiceStream | internal/gateway/handlers_voice.go:404-486 | likewise |
| VoiceHub.Hub.HandleVoiceWatch | internal/gateway/handlers_voice.go:495-556 | likewise; only a share in the viewer's own channel can be watched |
| VoiceHub.Hub.HandleUserMove | internal/gateway/handlers_user.go:485-565 | likewise; audio goes before the seat does |
| VoiceHub.Hub.FinishSession | internal/gateway/server.go:336-354 | likewise for a connection that still holds its identity |
| VoiceHub.Hub.EvictUsers | internal/gateway/handlers_channel.go:369-404 | likewise for people pulled out in turn |
| VoiceHub.Hub.ResetAllVoice | internal/gateway/voice.go:530-540 | every room listed starts over |
| Roles.StepSame | internal/gateway/handlers_role.go:17-189 | a step by anybody but the owner changes no role from their rank up: which there are, where they stand and who holds them |
| Roles.NobodyIsLifted | internal/gateway/handlers_role.go:324-540 | whoever ranked at or above the actor keeps their exact rank, and whoever ranked below stays below |
| Roles.NoCoalitionOutranks | internal/gateway/hub.go:740-769 | over any run without reorders the same holds of the highest rank in a coalition |
| Roles.NoCoalitionLifts | internal/gateway/handlers_role.go:17-540 | over any run of all six operations, each guarded and written in one go, the coalition's highest role stays and nobody who stood below it comes to hold it or anything above |
| RoleRaces.InOneGo | internal/gateway/handlers_role.go:82-160 | what a handler's guards decide on, written at once, is the operation of the model taken in one go |
| RoleRaces.WriteKeeps | internal/store/roles.go:92-192 | whatever hierarchy a decided write finds, it leaves it valid, and from a role up as it was if and only if it puts what it writes beneath that role |
| RoleRaces.HierarchyKeptExactly | internal/gateway/handlers_role.go:82-265 | over every run of guards and writes interleaved, the hierarchy from the coalition's highest role up stays as it was if and only if every create, update and reorder puts its roles beneath when written |
| RoleRaces.NobodyIsLifted | internal/gateway/handlers_role.go:82-265 | and then nobody below comes to stand at or above it, and the coalition stays at most there |
| RoleRaces.WhoIsLifted | internal/store/roles.go:124-154 | a write that does put something there lifts exactly those below who hold what it put there |
| RoleRaces.NoCoalitionLiftsInterleaved | internal/gateway/handlers_role.go:93-265 | as long as nothing is written after what has overtaken it, nobody who stood below the coalition's highest role is lifted |
| RoleRaces.NoCoalitionOutranksInterleaved | internal/gateway/hub.go:740-769 | over any interleaved run without reorders ranks from the coalition's highest up are kept exactly and those below stay below |
| RoleRaces.ReorderOvertakesUpdate | internal/gateway/handlers_role.go:93-160 | a run of two administrators in which a reorder comes between an update's guards and its write, and a member comes to rank above both |
| Roles.ReorderPermutes | internal/gateway/handlers_role.go:212-265 | an accepted reorder names every role once, fixes every index from the caller's ceiling up, and moves the rest among themselves |
| Roles.ReorderKeepsRolesBelow | internal/gateway/handlers_role.go:191-200 | roles strictly below the caller stay so, and with distinct positions no other role comes to be |
| Roles.ReorderKeepsUsersBelow | internal/gateway/handlers_role.go:191-200 | the same of users |
| Roles.ReorderValid | internal/store/roles.go:141-154 | renumbering leaves the everyone role alone at the bottom |
| RoleRights.UpdateAcceptedExactly | internal/gateway/handlers_role.go:82-158 | an update is accepted if and only if its author may look after roles, reaches the role, holds every bit in which the masks differ or is an administrator, and moves it within the stack beneath themselves |
| RoleRights.UpdateWrites | internal/gateway/handlers_role.go:82-160 | and then mask and place are those asked for, or as they were, and no other role or grant changes |
| RoleRights.CreateAcceptedExactly | internal/gateway/handlers_role.go:17-54 | a role is created if and only if its author may look after roles, holds every bit of the mask, and has room beneath them |
| RoleRights.CreateWrites | internal/gateway/handlers_role.go:42-62 | with just that mask, above all but admin roles if its author reaches that far and else as high as they reach |
| RoleRights.SomeNextPosition | internal/gateway/handlers_role.go:483-494 | there is always such a place |
| RoleRights.DeleteAcceptedExactly | internal/gateway/handlers_role.go:324-345 | deleting demands an unmanaged role within reach |
| RoleRights.DeleteWrites | internal/store/roles.go:157-163 | after it nobody holds the role, and everything else is as it was |
| RoleRights.MembershipAcceptedExactly | internal/gateway/handlers_role.go:380-405 | granting and revoking demand a role given by hand within reach, and oneself or somebody all of whose roles are within reach |
| RoleRights.MembershipWrites | internal/store/roles.go:193-210 | exactly one person comes to hold exactly one role, or no longer does |
| RoleRights.ReorderAcceptedExactly | internal/gateway/handlers_role.go:201-263 | a reorder is accepted if and only if it names every role but everyone's once and moves only roles within reach, to places of such roles |
| RoleRights.StepFlipsOwnBits | internal/gateway/handlers_role.go:128-138 | a step puts into a mask or takes from it only what whoever took it holds |
| RoleRights.RunFlipsOwnBits | internal/gateway/handlers_role.go:17-540 | and so at every step of every run of whole operations |
| RoleRights.DecidedFlipsOwnBits | internal/gateway/handlers_role.go:128-138 | what is decided flips, against what was read, only what its author holds |
| RoleRights.OvertakenExactly | internal/gateway/handlers_role.go:93-265 | a write waiting is overtaken if and only if a reorder is made while it is a row, or a role while it is a reorder |
| RoleRights.StaleRowFlips | internal/store/roles.go:124-132 | when it is written later it flips only what its author held if and only if its author held every bit in which the mask has changed since |
| RoleRights.RenameRestoresBits | internal/gateway/handlers_role.go:93-160 | a run in which a rename written late puts back a bit another had taken away and its author does not hold |
| RoleRights.NoBitOutOfNothing | internal/gateway/handlers_role.go:17-160 | over every interleaved run in which nobody decides who is the owner or an administrator then, no mask comes to have a bit that no mask had at the start |
| RoleHandlers.RoleStore.EffectiveRoleIDs | internal/gateway/hub.go:647-673 | the roles held explicitly and by being connected or registered |
| RoleHandlers.RoleStore.HighestRolePosition | internal/gateway/hub.go:758-769 | the greatest position among the roles, or zero |
| RoleHandlers.RoleStore.RankOf | internal/gateway/hub.go:749-754 | that, or above everything for the owner |
| RoleHandlers.RoleStore.BasePermissions | internal/gateway/hub.go:676-687 | a bit is in the mask if and only if one of the roles grants it |
| RoleHandlers.RoleStore.Has | internal/permissions/permissions.go:156-161 | the owner and an administrator cover everything, anybody else what their roles grant |
| RoleHandlers.RoleStore.SortedRoles | internal/gateway/hub.go:608-623 | every role once, by position and then id |
| RoleHandlers.RoleStore.NextRolePosition | internal/gateway/handlers_role.go:483-494 | one above the highest role that is not the admin role |
| RoleHandlers.RoleStore.CheckRoleCreate | internal/gateway/handlers_role.go:17-54 | the guards pass exactly when the model allows it, and the row to be inserted is the one decided on |
| RoleHandlers.RoleStore.InsertRole | internal/store/roles.go:92-122 | does the write, whatever the roles have become |
| RoleHandlers.RoleStore.HandleRoleCreate | internal/gateway/handlers_role.go:17-79 | with nothing in between, accepts exactly what the model allows and then does its step; refused, it changes nothing |
| RoleHandlers.RoleStore.CheckRoleUpdate | internal/gateway/handlers_role.go:82-158 | the guards pass exactly when the model allows it, and the whole row to be written back is the one read, patched |
| RoleHandlers.RoleStore.UpdateRole | internal/store/roles.go:124-132 | writes that row over whatever it has become, but for what kind of role it is; a role gone meanwhile is reported |
| RoleHandlers.RoleStore.HandleRoleUpdate | internal/gateway/handlers_role.go:82-189 | likewise with nothing in between |
| RoleHandlers.RoleStore.CheckRoleDelete | internal/gateway/handlers_role.go:324-345 | the guards pass exactly when the model allows it |
| RoleHandlers.RoleStore.DeleteRole | internal/store/roles.go:157-163 | removes an unmanaged role and the grants of it, or nothing |
| RoleHandlers.RoleStore.HandleRoleDelete | internal/gateway/handlers_role.go:324-367 | likewise with nothing in between |
| RoleHandlers.RoleStore.CheckRoleMembership | internal/gateway/handlers_role.go:380-405 | the guards for granting and for revoking are the same, and pass exactly when the model allows it |
| RoleHandlers.RoleStore.ChangeRoleMembership | internal/gateway/handlers_role.go:380-477 | likewise with nothing in between, for both |
| RoleHandlers.RoleStore.CeilingOf | internal/gateway/handlers_role.go:240-251 | exactly the roles of the stack beneath the caller's rank lie below the ceiling |
| RoleHandlers.RoleStore.NamesAll | internal/gateway/handlers_role.go:217-238 | a request passes if and only if it names each role of the stack once |
| RoleHandlers.RoleStore.ReorderRoles | internal/store/roles.go:141-154 | positions 1 upwards in the order given, every other role untouched; if a role named is gone, nothing changes |
| RoleHandlers.RoleStore.HandleRoleReorder | internal/gateway/handlers_role.go:201-300 | with nothing in between, accepts exactly the reorders the model allows and makes them |
| TokenBucket.TookWellformed | internal/gateway/ratelimit.go:44-72 | tokens stay between zero and the capacity |
| TokenBucket.RefusalWaitIsExact | internal/gateway/ratelimit.go:55-71 | the wait given with a refusal is exactly the least after which a take succeeds |
| TokenBucket.SuccessWaitIsExact | internal/gateway/ratelimit.go:44-72 | so is the wait given with a success for the next one |
| TokenBucket.NothingToWaitFor | internal/gateway/ratelimit.go:55-71 | where nothing refills no wait is given |
| TokenBucket.SuccessesOfAStretch | internal/gateway/ratelimit.go:44-72 | from any bucket the successes of a stretch number at most the capacity and what the stretch refills |
| TokenBucket.SuccessesInAnInterval | internal/gateway/ratelimit.go:44-72 | in any interval within a run successes number at most the capacity and the rate times its length |
| TokenBucket.FullIsFresh | internal/gateway/ratelimit.go:74-86 | a bucket spent long enough answers as a new one |
| TokenBucket.SweepingIsInvisible | internal/gateway/handlers_upload.go:68-103 | over any run of lookups, takes and sweeps in which no sweep drops a bucket looked up and not yet taken from, every answer is that of a table never swept |
| TokenBucket.SweepShowsIffItDropsAHeldBucket | internal/gateway/handlers_upload.go:68-103 | after one sweep all answers of all such runs are those of a table never swept if and only if it dropped no bucket so held, or the buckets hold no token anyway |
| TokenBucket.TwoTakesAtOnce | internal/gateway/handlers_upload.go:75-84 | a sweep between lookup and take lets a bucket of one token be taken from twice at one instant |
| TokenBucket.RateLimiter.Take | internal/gateway/ratelimit.go:44-72 | refill, spend and answer as the bucket's specification says |
| TokenBucket.RateLimiter.IsSpent | internal/gateway/ratelimit.go:78-86 | true exactly when the bucket is idle and full |
| TokenBucket.UserLimiters.Lookup | internal/gateway/handlers_upload.go:75-82 | a bucket made on first use and held by the call, nobody else's changed |
| TokenBucket.UserLimiters.TakeFrom | internal/gateway/handlers_upload.go:83 | the take answers for the bucket held and changes no other, whether or not it is still in the table |
| TokenBucket.UserLimiters.Sweep | internal/gateway/handlers_upload.go:94-103 | exactly the spent buckets leave the table, and whoever holds one still does |
| PaceHistory.RememberedStandsFor | internal/gateway/automod.go:435-450 | the pruned history goes on standing for everything let through |
| PaceHistory.FloodDecisionRefines | internal/gateway/automod.go:454-470 | within the bounds of a stored rule the flood decision is that on the whole transcript |
| PaceHistory.RepeatDecisionRefines | internal/gateway/automod.go:473-491 | so is the repetition decision, within the window |
| PaceHistory.RunStandsFor | internal/gateway/automod.go:114-192 | over any run of attempts, refused and let through |
| PaceHistory.LetThroughPassed | internal/gateway/automod.go:131-142 | whatever was let through had passed both rules against everything before it |
| PaceHistory.LetThroughExactly | internal/gateway/automod.go:114-192 | an attempt is let through if and only if its content is, and of all that was let through before not too many were within the rule's seconds nor the last so many the same within a minute |
| PaceHistory.FloodBound | internal/gateway/automod.go:131-136 | under a fixed flood rule messages within less than its seconds of one another number at most its limit |
| PaceHistory.RepetitionBound | internal/gateway/automod.go:137-142 | of one more than `times` equal messages in a row the first and the last but one are more than a minute apart |
| PaceHistory.NormalisedRules | internal/gateway/automod.go:544-551 | whatever settings arrive, the rules kept are within what the short history can decide |
| PaceHistory.NormalisingTwiceChangesNothing | internal/gateway/automod.go:493-551 | rules already stored are read back as they are |
| PaceHistory.Clamp | internal/gateway/automod.go:589-600 | a setting left out takes the fallback, and any other the nearest value within its bounds |
| PaceHistory.History.RememberMessage | internal/gateway/automod.go:435-450 | at most 32 entries are kept, and they still stand for the transcript |
| PaceHistory.History.Flooding | internal/gateway/automod.go:454-470 | fires exactly when too many of all messages ever let through fall in the window |
| PaceHistory.History.Repeating | internal/gateway/automod.go:473-491 | fires exactly when the last `times` of all messages say the same within the window |
| WordScreen.IndexFrom | internal/gateway/automod.go:286-302 | the first occurrence from a position on, or that there is none |
| WordScreen.FoldWithOrigins | internal/gateway/automod.go:258-279 | the folded copy, and for each place in it the rune it came from |
| WordScreen.MaskRange | internal/gateway/automod.go:309-313 | within one match exactly the runes that are not spaces are masked |
| WordScreen.ScreenWords | internal/gateway/automod.go:253-320 | a rune is masked if and only if it is no space and lies in the origin of an occurrence of a listed word, overlaps included; length is kept; blocking and censoring report the same |
| WordScreen.MatchAvoidsMarks | internal/gateway/automod.go:304-320 | with no mark in any word, a match in the masked text covers no masked rune |
| WordScreen.FoundAgainIffEscaped | internal/gateway/automod.go:253-320 | screening the result again finds something if and only if some match covers spaces only, or spaces and then part of what one more rune folds to that no match covers to its end |
| WordScreen.NothingFoundAgain | internal/gateway/automod.go:245-320 | with one-to-one folding that keeps spaces, whole words off and no mark in a word, nothing does |
| WordScreen.InsideAnExpansionNothingIsMasked | internal/gateway/automod.go:309-313 | a match that ends inside one rune's expansion does not mask that rune |
| WordScreen.TrimMeans | internal/gateway/automod.go:283 | a listed word is looked for without the space around it |
| WordScreen.PlainlyMasked | internal/gateway/automod.go:253-334 | where no character folds, a rune is masked if and only if it is no space and lies in a listed word as it stands in the message, with whole words on one with no letter or digit on either side |
| WordScreen.FoundStandsAlone | internal/gateway/automod.go:322-334 | with whole words on, what is found has no word character right before or behind it in the folded copy |
| LogWriter.EnqueueConserves | internal/logging/file.go:99-112 | an accepted line is in the pipe once, after everything before it |
| LogWriter.WorkerStepConserves | internal/logging/file.go:68-95 | however the worker steps and its buffer spills, the bytes stay in order |
| LogWriter.StepInv | internal/logging/file.go:68-139 | every step of writer, worker, ticker and Close keeps the invariant |
| LogWriter.NeverPanics | internal/logging/file.go:115-126 | no interleaving sends on the closed queue or closes it twice |
| LogWriter.CloseReturnsWithEverythingWritten | internal/logging/file.go:114-139 | once a Close has returned the file holds exactly the writes that returned success, each once, in the order they were enqueued |
| LogWriter.RefusedOnlyWhenClosed | internal/logging/file.go:107-111 | over every run, a write is turned away only once some Close has marked the writer closed |
| LogWriter.NobodyClosesNobodyIsRefused | internal/logging/file.go:99-112 | where there is no Close every write that has finished returned success, and its line is logged once |
| LogWriter.LockedInTimeSucceeds | internal/logging/file.go:105-123 | a write that took the read lock before any Close held the lock returns success |
| LogWriter.WaitingCloseHoldsOffWriters | internal/logging/file.go:118-126 | nobody takes the read lock while a Close waits for the lock or holds it |
| LogWriter.QueueIsOpenWhereUsed | internal/logging/file.go:110-123 | in every reachable state whoever is about to send on the queue or to close it finds it open |
| LogWriter.NothingWrittenAfterClosing | internal/logging/file.go:126-135 | once the file is closed nothing more is written to it |
| LogWriter.TickFlushes | internal/logging/file.go:68-95 | the ticker's flush leaves everything taken from the queue in the file |
| LogWriter.QueueIsBounded | internal/logging/file.go:110 | the queue never holds more than it has room for |
| LogWriter.NothingToDoMeansWritten | internal/logging/file.go:68-95 | whenever the worker is idle with an empty queue every line accepted is in the file |
| LogWriter.SomebodyCanStep | internal/logging/file.go:118-126 | until all are done some thread or the worker can step, with a full queue and a Close waiting too |
| LogWriter.RunsAreBounded | internal/logging/file.go:68-139 | and no run goes on for ever but by ticks |
| Registry.AddFacts | internal/gateway/hub.go:784-799 | taking a place is refused exactly when full and new, and otherwise displaces exactly the identity's own connection |
| Registry.AddCounts | internal/gateway/hub.go:784-799 | the count never passes the capacity, and a reconnect leaves it as it was |
| Registry.RemoveFacts | internal/gateway/hub.go:803-811 | removing a connection takes its own place only |
| Registry.RegistryStaysPaired | internal/gateway/hub.go:784-811 | under every interleaving the two maps hold the same connections, one an identity, within the capacity |
| Registry.ReconnectIsNeverRefused | internal/gateway/handlers_auth.go:301-313 | somebody already connected is never turned away and takes over their place |
| Registry.NewcomerIsRefusedWhenFull | internal/gateway/handlers_auth.go:306-310 | somebody new is turned away if and only if every place is taken |
| Registry.DisplacedNeverEvictsReplacement | internal/gateway/hub.go:801-811 | the end of a displaced connection leaves its replacement where it is |
| Registry.Hub.AddSession | internal/gateway/hub.go:784-799 | the maps of sessions change as the places do, for a session registered already too |
| Registry.Hub.RemoveSession | internal/gateway/hub.go:803-811 | likewise |
| Registry.AuthenticatedFacts | internal/gateway/handlers_auth.go:291-337 | whoever is turned away leaves nothing; whoever was let in and could not be answered leaves nothing but has displaced their own earlier connection |
| Registry.Hub.TakePlace | internal/gateway/handlers_auth.go:301-310 | identity and place are had together or not at all |
| Registry.Hub.FinishAuth | internal/gateway/handlers_auth.go:291-337 | an authentication is the model's steps of applying, registering and, if it fails, withdrawing, and keeps the invariant; the session is authenticated exactly when it joined |
| Registry.Hub.FinishSession | internal/gateway/server.go:321-356 | the end of a connection is the model's steps of leaving its place, if it has one, and closing |
| Presence.SameActivityIsEqual | internal/gateway/handlers_user.go:467-481 | a report is taken as unchanged if and only if it holds the same |
| Presence.SnapshotShows | internal/gateway/hub.go:898-926 | a snapshot shows everybody as masking would, those it leaves out read as away |
| Presence.BroadcastInStep | internal/gateway/hub.go:1023-1044 | a broadcast keeps every viewer in step when each is told how the change reads to them |
| Presence.StepInStep | internal/gateway/handlers_user.go:240-325 | every handler, with no other acting inside it, keeps every viewer in step |
| Presence.FeedEqualsSnapshot | internal/gateway/hub.go:957-1044 | where handlers take turns, at every moment each viewer's frames show each user exactly as a snapshot taken then would |
| Presence.HiddenIsSilent | internal/gateway/hub.go:1011-1044 | where handlers take turns, over any run throughout which somebody is hidden, every other viewer is sent exactly what they would have been sent had that person done nothing |
| Presence.HiddenReadsAsAbsent | internal/gateway/hub.go:987-997 | what somebody else changes about a hidden member reads as it would of an absent one |
| PresenceFields.SnapshotFields | internal/gateway/session.go:542-555 | a snapshot shows everybody by what is stored and reported of them: online with status, text and activity, or away if absent or hidden from the viewer |
| PresenceFields.SnapshotLists | internal/gateway/hub.go:898-926 | it lists whoever has an account, and of the others those connected who do not hide, and oneself |
| PresenceFields.FeedShowsTheFields | internal/gateway/hub.go:998-1044 | where handlers take turns, each viewer's frames show each user's own fields at every moment |
| PresenceFields.StepChanges | internal/gateway/handlers_user.go:240-325 | what each handler changes of what is stored and reported |
| PresenceFields.StepTells | internal/gateway/hub.go:998-1044 | which viewers each handler sends a frame, one and no more: all but those to whom a hidden user's doings would give them away |
| PresenceFields.ReportIsShown | internal/gateway/handlers_user.go:318-323 | once somebody who does not hide has reported an activity every viewer's frames show it |
| PresenceFields.ProfileIsShown | internal/gateway/handlers_user.go:240-246 | and a profile set that does not hide shows its status and text |
| PresenceFields.MoveReaches | internal/gateway/hub.go:957-985 | a move is told to oneself, and of somebody who does not hide to those who may see an end of it, and to nobody else |
| PresenceRaces.FoldShowsLast | internal/gateway/hub.go:957-1044 | folding a queue shows of a user what its last frame about them says |
| PresenceRaces.StepHonest | internal/gateway/hub.go:998-1044 | whatever is queued, and whatever a broadcast under way has still to queue, shows its subjects as they were read when it was made |
| PresenceRaces.FeedExactly | internal/gateway/handlers_auth.go:291-430 | over every run of handlers interleaved in their parts, a viewer's frames show a user as a snapshot would if and only if the reading behind the last frame about the user reads to the viewer as the user does now |
| PresenceRaces.ReadSinceTheLastChange | internal/gateway/handlers_user.go:240-250 | and, where the reading was of the user as they were, if and only if the user reads to the viewer as at that moment |
| PresenceTurns.BegunOwes | internal/gateway/handlers_user.go:240-325 | a handler begun on what was settled owes what it is about to make good |
| PresenceTurns.ActedOwes | internal/gateway/hub.go:998-1044 | each next part of it passes on what is owed, or makes it good |
| PresenceTurns.RightInTurn | internal/gateway/handlers_channel.go:410-421 | as long as at most one thing under way ever concerns a viewer and a user, and the user reports over no displaced connection, the viewer is right about the user whenever nothing does, whatever else interleaves |
| PresenceTurns.TakingTurns | internal/gateway/hub.go:957-1044 | so where each handler begins when nothing is under way, every viewer is right about everybody between two handlers |
| PresenceTurns.SnapshotOvertaken | internal/gateway/handlers_auth.go:306-356 | a run from the start on which a snapshot is read before a change and queued after the frame that tells of it, and its viewer stays wrong with nothing left to come |
| PresenceFields.ReadingsAgree | internal/gateway/session.go:542-555 | what is read where handlers interleave is the view of the same moment as whole handlers have it |
| PresenceFields.RacingStepChanges | internal/gateway/handlers_user.go:240-325 | what the beginning of a handler changes of sessions and of what is stored |
| PresenceFields.PerformedChanges | internal/gateway/handlers_auth.go:291-356 | and what each later part of one does |
| PresenceFields.RightMeansFields | internal/gateway/hub.go:998-1044 | so there too a viewer is right about a user if and only if their frames show the user's own fields |
| PresenceHub.Hub.BroadcastUserPresence | internal/gateway/hub.go:1023-1044 | each viewer hears exactly the word the change is to them |
| PresenceHub.Hub.BroadcastMemberUpdated | internal/gateway/hub.go:998-1009 | likewise, the subject first and whole |
| PresenceHub.Hub.BroadcastConnected | internal/gateway/handlers_auth.go:339-348 | an arrival is told to all others, or to nobody if it hides |
| PresenceHub.Hub.BroadcastDisconnected | internal/gateway/server.go:358-373 | so is a departure |
| PresenceHub.Hub.MemberList | internal/gateway/hub.go:898-926 | everybody connected but hidden guests, and every absent member, each as the viewer is to see them |
| PresenceHub.Hub.FinishAuth | internal/gateway/handlers_auth.go:291-356 | signing in with no other handler in between is the model's step |
| PresenceHub.Hub.FinishSession | internal/gateway/server.go:321-375 | so is the end of a connection that holds its identity |
| PresenceHub.Hub.Resync | internal/gateway/handlers_channel.go:410-421 | so is a fresh snapshot for one viewer |
| PresenceHub.Hub.HandleUserUpdate | internal/gateway/handlers_user.go:240-250 | so is a change of profile, by the status everybody last saw |
| PresenceHub.Hub.HandleUserActivity | internal/gateway/handlers_user.go:290-325 | so is a report, and an unchanged one says nothing |

## Left out

- What a handler looks at for one decision or one snapshot it sees as it is at one moment; a role handler whose guards read a cache not yet refreshed is one that decided before that write.
- Roles.NoCoalitionLifts: is about operations guarded and written in one go; what becomes of it with others in between is RoleRaces.HierarchyKeptExactly and RoleRaces.NoCoalitionLiftsInterleaved.
- RoleHandlers.RoleStore.HandleRoleCreate: has no other handler between guards and write; its two halves are CheckRoleCreate and InsertRole.
- RoleHandlers.RoleStore.HandleRoleUpdate: has no other handler between guards and write; its two halves are CheckRoleUpdate and UpdateRole.
- VoicePlane.StepKeeps: has no other handler acting inside one, and takes onRelayGone to name the channel the user's media is open in, because WrongChannelStrandsViewers shows what follows otherwise.
- VoicePlane.SessionsAgreeWithRooms: is about whole handlers; for a connect taken apart see VoiceRaces.AgreementExactly.
- VoicePlane.RoomsAreThoseInCall: is about whole handlers, of which no other than connect is taken apart.
- VoicePlane.NobodyWatchesNothing: likewise.
- VoiceRaces.AgreementExactly: a connection that ends or is displaced takes its unfinished opening with it, and closing the earlier session and opening the new one are one moment.
- Presence.StepInStep: has no other handler acting inside one.
- Presence.FeedEqualsSnapshot: is about handlers that take turns; PresenceRaces.FeedExactly says what holds when they do not.
- Presence.HiddenIsSilent: is about handlers that take turns.
- PresenceHub.Hub.FinishAuth: has no other handler between joining, reading the snapshot and queueing it; with others in between, see PresenceRaces.
- PresenceRaces follows frames that carry presence only; a snapshot that cannot be built, kicks and bans, and accounts made during a run are left out of it.
- Registry.Hub.FinishAuth: has no other connection's step in between; the interleavings of its steps are those of Registry.RegistryStaysPaired.
- The bridge carries text only: reply quotes, embeds, attachments, stickers, media posts and what a Discord message renders to here (its text after moderation is an input of the step) are not part of this model.
- DiscordRelay.DiscordRelay.InboundWebhook: does not model links failing to reload after the row is recorded, which leaves the row in the store and out of the guard set.
- DiscordRelay.DiscordRelay.DeliverToDiscord: files, reply quotes, names and avatars are no part of what is sent.
- Bridge.NoLoop: takes no event to be delivered twice; BridgeRedelivery.CopiesAtMostDeliveries says what holds if one is.
- Links are neither made, removed, repointed nor seeded while the bridge runs, and bulk deletions here that queue no job are not steps.
- BridgeConvergence.Convergence: asks that the link's calls are not repeated after taking effect, because BridgeGuards.RepeatedPost shows the claim false without; and that nobody here posts over HTTP under the relay's own row, which the guard takes for the relay's writing.
- The roster a name is resolved against stays the same during one run of BridgeConvergence; a change of roster changes what a queued text renders to.
- OutboundText takes a string as runes and the classes of letters and numbers as parameters; names of webhooks and avatars are left out.
- The error half of handlers: which message a refusal carries, rate limits on signalling, caps on participants, streams and viewers, whose check and insert are separate sections.
- Voice permissions, mute and deafen, speaking, SDP, ICE and the relay itself: a permission or relay failure is a refused or skipped step.
- Role names, colours and hoisting, audit records, and channel overwrites; the owner's own steps are modelled but claimed to keep only what Roles.ReorderValid and the handlers state.
- RoleRights.NoBitOutOfNothing: says nothing about who comes to hold a bit, because a role below one's own may be granted to oneself whatever it holds.
- TokenBucket: rounding of floating point is not modelled, and lookups, takes and sweeps read the clock in the order in which they happen.
- PaceHistory: a message is remembered when it is let through, with the clock read again then; exemptions and changes of the rules during a run are left out.
- WordScreen: the comparison is in characters, the fold table, spaces and word characters are parameters, and reading a byte of a longer character as a rune at a word boundary is not modelled.
- WordScreen.FoundAgainIffEscaped: says nothing with whole words on, where a mark beside a word can make a boundary that was not there.
- LogWriter: disk errors, opening the file and the ticker's period.
- Presence: kicks, bans and registration during a run, channels and role lists in a view, frames lost to a client too slow to take them.
- HTTP, uploads, direct messages, expressions, webhooks in general, the SQLite store, configuration and TLS.
