/**
  The relational store behind the ORM, as in-memory tables. Each table is a
  sequence of rows in insertion order; the row at position i has id i + 1
  (ids are auto-incremented from 1 and the core never deletes a row), so
  `Model.query.get(id)` is Lookup and `Model.query.all()` walks the
  sequence in id order. `clock` is the value `datetime.utcnow()` returns.
*/
module Database {
  import opened Wrappers
  import opened Models

  /** `Model.query.get(id)` */
  function Lookup<T>(rows: seq<T>, id: int): (r: Option<T>)
    ensures r.Some? <==> 1 <= id <= |rows|
    ensures r.Some? ==> r.value == rows[id - 1]
  {
    if 1 <= id <= |rows| then Some(rows[id - 1]) else None
  }

  /** `Model.query.filter_by(...).first()`: the position of the first row that matches. */
  function FirstWhere<T>(rows: seq<T>, matches: T -> bool): (r: Option<nat>)
    ensures r.None? <==> forall i :: 0 <= i < |rows| ==> !matches(rows[i])
    ensures r.Some? ==> r.value < |rows| && matches(rows[r.value])
    ensures r.Some? ==> forall j :: 0 <= j < r.value ==> !matches(rows[j])
  {
    if rows == [] then None
    else if matches(rows[0]) then Some(0)
    else
      match FirstWhere(rows[1..], matches)
      case None => None
      case Some(k) => Some(k + 1)
  }

  /** Comments are stamped from a clock that never goes back. */
  predicate CommentsStamped(cs: seq<Comment>, clock: int) {
    && (forall i, j :: 0 <= i < j < |cs| ==> cs[i].createdAt <= cs[j].createdAt)
    && (forall i :: 0 <= i < |cs| ==> cs[i].createdAt <= clock)
  }

  /** `stripe_subscription_id` is declared unique (NULLs do not collide). */
  predicate SubscriptionIdsUnique(subs: seq<Subscription>) {
    forall i, j :: 0 <= i < j < |subs| && subs[i].stripeSubscriptionId.Some? ==>
      subs[i].stripeSubscriptionId != subs[j].stripeSubscriptionId
  }

  /** `username` and `email` are declared unique. */
  predicate CustomersUnique(cs: seq<Customer>) {
    forall i, j :: 0 <= i < j < |cs| ==> cs[i].username != cs[j].username && cs[i].email != cs[j].email
  }

  class Store {
    var projects: seq<Project>
    var agents: seq<AgentRecord>
    var tickets: seq<Ticket>
    var comments: seq<Comment>
    var checkpoints: seq<Checkpoint>
    var conversations: seq<Conversation>
    var messages: seq<Message>
    var customers: seq<Customer>
    var subscriptions: seq<Subscription>
    var clock: int

    /** The constraints the schema enforces, plus the clock's monotonicity. */
    ghost predicate Valid()
      reads this`comments, this`clock, this`checkpoints, this`subscriptions, this`customers
    {
      && CommentsStamped(comments, clock)
      && LinksUnique(checkpoints)
      && SubscriptionIdsUnique(subscriptions)
      && CustomersUnique(customers)
    }

    constructor ()
      ensures Valid()
      ensures projects == [] && agents == [] && tickets == [] && comments == []
      ensures checkpoints == [] && conversations == [] && messages == []
      ensures customers == [] && subscriptions == [] && clock == 0
    {
      projects, agents, tickets, comments := [], [], [], [];
      checkpoints, conversations, messages := [], [], [];
      customers, subscriptions, clock := [], [], 0;
    }

    /** Time passes. */
    method AdvanceClock(t: int)
      requires Valid() && clock <= t
      modifies this`clock
      ensures Valid() && clock == t
    {
      clock := t;
    }

    /** `Project(name, description)` added and committed; returns its id. */
    method AddProject(p: Project) returns (id: nat)
      modifies this`projects
      ensures projects == old(projects) + [p] && id == |projects|
    {
      projects := projects + [p];
      id := |projects|;
    }
  }
}
