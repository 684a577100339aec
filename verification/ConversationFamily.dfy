/**
 A conversation and everything forked from it, as live objects that share lineages,
 raw prefixes and identity sets (src/conversation/mod.rs, boundary/fork.rs).
*/
module ConversationFamily {
  import opened Wrappers
  import opened HistoryStore
  import opened ConversationStore
  import opened ConversationRuns
  import Spec = Conversations
  import B = Boundaries
  import opened Turns

  ghost predicate Distinct(members: seq<LiveConversation>) {
    forall i, j :: 0 <= i < j < |members| ==>
      members[i] != members[j] && members[i].history != members[j].history
  }

  ghost predicate ShowsOne(c: LiveConversation, state: Spec.Conversation)
    reads c, c.history, c.history.messageIds
  {
    c.Valid() && c.State() == state
  }

  /** Distinct objects over distinct histories that show, one by one, the given world. */
  ghost predicate Shows(members: seq<LiveConversation>, world: seq<Spec.Conversation>)
    reads set m | m in members
    reads set m | m in members :: m.history
    reads set m | m in members :: m.history.messageIds
  {
    && |members| == |world| && Distinct(members)
    && forall i :: 0 <= i < |members| ==> ShowsOne(members[i], world[i])
  }

  /** One action on one live conversation, refused or not. */
  method Perform(c: LiveConversation, action: Action)
    requires c.Valid()
    modifies c, c.history, c.history.messageIds
    ensures c.Valid() && c.State() == Next(old(c.State()), action)
    ensures c.history.messageIds == old(c.history.messageIds) || fresh(c.history.messageIds)
    ensures c.LeftAlone(old(c.history.messageIds))
  {
    NextKeepsValid(c.State(), action);
    match action
    case Begin(turnId, messageId, content, payloadOk) =>
      var begun := c.BeginTurn(turnId, messageId, content, payloadOk);
    case Advance(next) => var advanced := c.AdvancePending(next);
    case Inject(token, messageId, content, payloadOk) =>
      var injected := c.InjectUserMessage(token, messageId, content, payloadOk);
    case Commit => var committed := c.CommitPending();
    case CancelIntoCommit(closed) => var closing := c.CommitCancelled(closed);
    case DiscardPending => var discarded := c.DiscardPending();
    case Revert(to) => var reverted := c.RevertTo(to);
    case Compact(plan) => var compacted := c.ApplyCompaction(plan);
  }

  /** An action on one member leaves every other member, whatever it shares, as it was. */
  method PerformIn(members: seq<LiveConversation>, who: nat, action: Action, ghost world: seq<Spec.Conversation>)
    requires Shows(members, world) && AllInRange(world) && who < |members|
    modifies members[who], members[who].history, members[who].history.messageIds
    ensures Shows(members, world[who := Next(world[who], action)])
    ensures members[who].history.messageIds == old(members[who].history.messageIds)
            || fresh(members[who].history.messageIds)
    ensures forall i :: 0 <= i < |members| && i != who ==> unchanged(members[i].history)
  {
    var c := members[who];
    assert ShowsOne(c, world[who]);
    Perform(c, action);
    forall i | 0 <= i < |members| && i != who
      ensures ShowsOne(members[i], world[i])
    {
      var other := members[i];
      assert old(ShowsOne(other, world[i]));
      if c.history.LeftShared(old(c.history.messageIds)) {
        c.history.OthersUndisturbed(other.history);
      }
    }
  }

  ghost function Histories(members: seq<LiveConversation>): set<History> {
    set m | m in members :: m.history
  }

  ghost function IdSets(members: seq<LiveConversation>): set<IdSet>
    reads set m | m in members :: m.history
  {
    set m | m in members :: m.history.messageIds
  }

  lemma OneMoreShows(members: seq<LiveConversation>, world: seq<Spec.Conversation>, child: LiveConversation,
                     state: Spec.Conversation)
    requires Shows(members, world) && ShowsOne(child, state)
    requires forall m :: m in members ==> m != child && m.history != child.history
    ensures Shows(members + [child], world + [state])
  {
    var all, grown := members + [child], world + [state];
    forall i | 0 <= i < |all|
      ensures ShowsOne(all[i], grown[i])
    {
      assert i < |members| ==> ShowsOne(members[i], world[i]);
    }
  }

  /** A fork joins the family without touching any member. */
  method ForkIn(members: seq<LiveConversation>, who: nat, token: B.Boundary, childId: ConversationId,
                ghost world: seq<Spec.Conversation>)
    returns (child: Result<LiveConversation, Error>)
    requires Shows(members, world) && AllInRange(world) && who < |members|
    ensures child.Ok? <==> Spec.ForkAt(world[who], token, childId).Ok?
    ensures child.Ok? ==>
              && fresh(child.value) && fresh(child.value.history) && fresh(child.value.history.messageIds)
              && child.value.history.lineage == members[who].history.lineage
              && Shows(members + [child.value], world + [Spec.ForkAt(world[who], token, childId).value])
  {
    assert ShowsOne(members[who], world[who]);
    child := members[who].ForkAt(token, childId);
    if child.Ok? {
      forall i | 0 <= i < |members|
        ensures ShowsOne(members[i], world[i])
      {
        assert old(ShowsOne(members[i], world[i]));
      }
      OneMoreShows(members, world, child.value, Spec.ForkAt(world[who], token, childId).value);
    }
  }

  /** One event of a family's life. */
  method Step(members: seq<LiveConversation>, e: Event, ghost world: seq<Spec.Conversation>)
    returns (all: seq<LiveConversation>)
    requires Shows(members, world) && AllInRange(world)
    modifies members, Histories(members), IdSets(members)
    ensures AllInRange(NextWorld(world, e)) ==> Shows(all, NextWorld(world, e))
    ensures members <= all
    ensures forall m :: m in all && m !in members ==> fresh(m) && fresh(m.history)
    ensures forall m :: m in all ==> m.history.messageIds in old(IdSets(members)) || fresh(m.history.messageIds)
  {
    all := members;
    if e.who < |members| {
      match e
      case On(who, action) => PerformIn(members, who, action, world);
      case ForkFrom(who, token, childId) =>
        var child := ForkIn(members, who, token, childId, world);
        if child.Ok? {
          all := members + [child.value];
        }
    }
  }

  /**
   Forks and their families, on objects that really share: after any events, forks
   among them, every member shows what the value-level world says, and every
   member that was there at the start ends where its own actions alone take it.
  */
  method RunFamily(members: seq<LiveConversation>, events: seq<Event>, ghost world: seq<Spec.Conversation>)
    returns (all: seq<LiveConversation>)
    requires Shows(members, world) && AllValid(world) && AllInRange(world)
    modifies members, Histories(members), IdSets(members)
    ensures members <= all && Shows(all, RunWorld(world, events))
    ensures forall i :: 0 <= i < |members| ==> ShowsOne(all[i], Run(world[i], ActionsOn(events, i)))
    decreases |events|
  {
    all := members;
    if events != [] {
      NextWorldKeepsValid(world, events[0]);
      all := Step(members, events[0], world);
      ghost var before := all;
      all := RunFamily(all, events[1..], NextWorld(world, events[0]));
      assert members <= before <= all;
    }
    forall i | 0 <= i < |members|
      ensures ShowsOne(all[i], Run(world[i], ActionsOn(events, i)))
    {
      FamilyMembersAreIndependent(world, events, i);
    }
  }
}
