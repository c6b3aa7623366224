/**
 * What each friend and block event does, said of relations alone: when it is accepted, what the
 * two users are to each other afterwards, and that nobody else is concerned.
 */
module FriendLaws {
  import opened Collections
  import opened Friends

  /** The other user an event is about. */
  function TargetOf(e: FriendEvent): nat {
    match e
    case SendRequest(_, target) => target
    case CancelRequest(_, target) => target
    case Respond(_, requesterId, _) => requesterId
    case RemoveFriend(_, friend) => friend
    case BlockUser(_, target) => target
    case UnblockUser(_, target) => target
  }

  /** When an event is accepted, read off the two relations before it. */
  predicate Allowed(g: Graph, e: FriendEvent) {
    var (u, t) := (e.userId, TargetOf(e));
    match e
    case SendRequest(_, _) => u != t && t in g.users && RelationTo(g, u, t).None? && RelationTo(g, t, u).None?
    case CancelRequest(_, _) => RelationTo(g, u, t) == Some(REQUEST_SENT)
    case Respond(_, _, _) => RelationTo(g, u, t) == Some(REQUEST_RECEIVED)
    case RemoveFriend(_, _) => RelationTo(g, u, t) == Some(FRIEND)
    case BlockUser(_, _) => u != t && t in g.users && RelationTo(g, u, t) != Some(BLOCKED)
    case UnblockUser(_, _) => t in g.users && RelationTo(g, u, t) == Some(BLOCKED)
  }

  /** What an accepted event makes the target to its sender. */
  function Becomes(e: FriendEvent): Option<Relation> {
    match e
    case SendRequest(_, _) => Some(REQUEST_SENT)
    case Respond(_, _, accept) => if accept then Some(FRIEND) else None
    case BlockUser(_, _) => Some(BLOCKED)
    case _ => None
  }

  /** And what it makes the sender to the target; blocks of the target's own stay. */
  function BecomesBack(e: FriendEvent, before: Option<Relation>): Option<Relation> {
    match e
    case SendRequest(_, _) => Some(REQUEST_RECEIVED)
    case Respond(_, _, accept) => if accept then Some(FRIEND) else None
    case BlockUser(_, _) => if before == Some(BLOCKED) then Some(BLOCKED) else None
    case UnblockUser(_, _) => before
    case _ => None
  }

  lemma AllowedExactly(g: Graph, e: FriendEvent)
    requires GraphOk(g)
    ensures Handle(g, e).result.Ok? <==> Allowed(g, e)
    ensures !Allowed(g, e) ==> Handle(g, e).graph == g
  {
  }

  lemma ActsOnThePair(g: Graph, e: FriendEvent)
    requires GraphOk(g) && Allowed(g, e)
    ensures
      var (u, t, after) := (e.userId, TargetOf(e), Handle(g, e).graph);
      && RelationTo(after, u, t) == Becomes(e)
      && RelationTo(after, t, u) == BecomesBack(e, RelationTo(g, t, u))
  {
    AllowedExactly(g, e);
  }

  lemma OthersUnconcerned(g: Graph, e: FriendEvent, a: nat, b: nat)
    requires {a, b} != {e.userId, TargetOf(e)}
    ensures RelationTo(Handle(g, e).graph, a, b) == RelationTo(g, a, b)
  {
    var (u, t) := (e.userId, TargetOf(e));
    assert !(a == u && b == t) && !(a == t && b == u);
  }

  /**
   * After any run, an event is accepted exactly when the relation allows it; then it changes the
   * relation of its two users as stated and no other, and a refused one changes nothing.
   */
  lemma EventsActAsStated(users: map<nat, User>, run: seq<FriendEvent>, e: FriendEvent)
    ensures
      var g := RunGraph(Graph(users, map[], {}), run);
      var after := RunGraph(Graph(users, map[], {}), run + [e]);
      var (u, t) := (e.userId, TargetOf(e));
      && (Handle(g, e).result.Ok? <==> Allowed(g, e))
      && (!Allowed(g, e) ==> after == g)
      && (Allowed(g, e) ==>
            && RelationTo(after, u, t) == Becomes(e)
            && RelationTo(after, t, u) == BecomesBack(e, RelationTo(g, t, u))
            && forall a: nat, b: nat | {a, b} != {u, t} :: RelationTo(after, a, b) == RelationTo(g, a, b))
  {
    var g := RunGraph(Graph(users, map[], {}), run);
    EveryRunOk(users, run);
    AllowedExactly(g, e);
    assert (run + [e])[..|run|] == run;
    if Allowed(g, e) {
      ActsOnThePair(g, e);
      forall a: nat, b: nat | {a, b} != {e.userId, TargetOf(e)}
        ensures RelationTo(Handle(g, e).graph, a, b) == RelationTo(g, a, b)
      {
        OthersUnconcerned(g, e, a, b);
      }
    }
  }
}
