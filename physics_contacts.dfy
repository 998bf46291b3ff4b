/** The contact listener of physics/WorldContactListener.java: handlers register under
    themselves, and each Box2D callback is forwarded to the handler registered under the
    user data of each touching fixture's body, with the fixtures ordered so that the
    handler's own comes first. The calls made are returned in order. */
module PhysicsContacts {
  import opened Wrappers
  import opened Box2D

  /** physics/FixtureContact.java: the handler's fixture and the one it touches. */
  datatype FixtureContact = FixtureContact(handledFixture: Fixture, otherFixture: Fixture)

  /** A call into physics/ContactHandler.java. */
  datatype HandlerCall =
    | HandleContactBegin(handler: ObjectId, fixtures: FixtureContact)
    | HandleContactEnd(handler: ObjectId, fixtures: FixtureContact)
    | HandlePreSolve(handler: ObjectId, contact: Contact, fixtures: FixtureContact)

  /** The listener callbacks that forward to handlers. */
  datatype Callback = OnBeginContact | OnEndContact | OnPreSolve

  /** The handler method a callback forwards to. */
  function CallFor(callback: Callback, handler: ObjectId, contact: Contact, fixtures: FixtureContact): HandlerCall
  {
    match callback
    case OnBeginContact => HandleContactBegin(handler, fixtures)
    case OnEndContact => HandleContactEnd(handler, fixtures)
    case OnPreSolve => HandlePreSolve(handler, contact, fixtures)
  }

  /** The callback a call came from. */
  function CallbackOf(call: HandlerCall): Callback
  {
    match call
    case HandleContactBegin(_, _) => OnBeginContact
    case HandleContactEnd(_, _) => OnEndContact
    case HandlePreSolve(_, _, _) => OnPreSolve
  }

  /** The call, if any, for the handler owning the body of `fixtures.handledFixture`. */
  function Deliver(handlers: map<ObjectId, ObjectId>, callback: Callback, contact: Contact, fixtures: FixtureContact): seq<HandlerCall>
  {
    match Lookup(handlers, fixtures.handledFixture.bodyUserData)
    case None => []
    case Some(handler) => [CallFor(callback, handler, contact, fixtures)]
  }

  /** The calls of one callback: first for fixture A's body, then for fixture B's. */
  function Dispatch(handlers: map<ObjectId, ObjectId>, callback: Callback, contact: Contact): seq<HandlerCall>
  {
    Deliver(handlers, callback, contact, FixtureContact(contact.fixtureA, contact.fixtureB))
    + Deliver(handlers, callback, contact, FixtureContact(contact.fixtureB, contact.fixtureA))
  }

  /** Whether the body of fixture `f` belongs to a registered handler. */
  predicate Registered(handlers: map<ObjectId, ObjectId>, f: Fixture)
  {
    f.bodyUserData.Some? && f.bodyUserData.value in handlers
  }

  /** Every call goes to the handler that is its fixture's body user data, with that fixture
      first and the other one second, through the handler method of the callback; and each
      registered side gets its call. An unregistered body gets nothing, so a contact
      between two unregistered bodies makes no call at all. */
  lemma DispatchReachesExactlyTheOwners(handlers: map<ObjectId, ObjectId>, callback: Callback, contact: Contact)
    requires SelfKeyed(handlers)
    ensures var calls := Dispatch(handlers, callback, contact);
      |calls| <= 2
      && (forall call :: call in calls ==>
            CallbackOf(call) == callback
            && (call.fixtures == FixtureContact(contact.fixtureA, contact.fixtureB)
                || call.fixtures == FixtureContact(contact.fixtureB, contact.fixtureA))
            && call.fixtures.handledFixture.bodyUserData == Some(call.handler)
            && call.handler in handlers
            && Registered(handlers, call.fixtures.handledFixture))
      && (Registered(handlers, contact.fixtureA) ==>
            CallFor(callback, contact.fixtureA.bodyUserData.value, contact, FixtureContact(contact.fixtureA, contact.fixtureB)) in calls)
      && (Registered(handlers, contact.fixtureB) ==>
            CallFor(callback, contact.fixtureB.bodyUserData.value, contact, FixtureContact(contact.fixtureB, contact.fixtureA)) in calls)
      && (!Registered(handlers, contact.fixtureA) && !Registered(handlers, contact.fixtureB) ==> calls == [])
  {
  }

  /** For the begin and end callbacks, Box2D's order of the two fixtures only decides which
      handler is called first (`preSolve` also hands over the contact object itself). */
  lemma DispatchIgnoresFixtureOrder(handlers: map<ObjectId, ObjectId>, callback: Callback, contact: Contact)
    requires callback != OnPreSolve
    ensures multiset(Dispatch(handlers, callback, Contact(contact.id, contact.fixtureB, contact.fixtureA)))
            == multiset(Dispatch(handlers, callback, contact))
  {
    var ab := Deliver(handlers, callback, contact, FixtureContact(contact.fixtureA, contact.fixtureB));
    var ba := Deliver(handlers, callback, contact, FixtureContact(contact.fixtureB, contact.fixtureA));
    var swapped := Contact(contact.id, contact.fixtureB, contact.fixtureA);
    assert Dispatch(handlers, callback, swapped) == ba + ab;
    assert multiset(ba + ab) == multiset(ba) + multiset(ab);
    assert multiset(ab + ba) == multiset(ab) + multiset(ba);
  }

  class WorldContactListener {
    var contactHandlers: map<ObjectId, ObjectId>

    ghost predicate Valid()
      reads this
    {
      SelfKeyed(contactHandlers)
    }

    constructor ()
      ensures contactHandlers == map[] && Valid()
    {
      contactHandlers := map[];
    }

    /** `addListener`: the handler is registered under itself; registering it again
        changes nothing. */
    method AddListener(listener: ObjectId)
      requires Valid()
      modifies this
      ensures Valid()
      ensures contactHandlers == old(contactHandlers)[listener := listener]
      ensures listener in contactHandlers
      ensures listener in old(contactHandlers) ==> contactHandlers == old(contactHandlers)
    {
      contactHandlers := contactHandlers[listener := listener];
    }

    /** `beginContact`. */
    method BeginContact(contact: Contact) returns (calls: seq<HandlerCall>)
      ensures calls == Dispatch(contactHandlers, OnBeginContact, contact)
    {
      var fixtureA := contact.fixtureA;
      var fixtureB := contact.fixtureB;
      calls := [];
      var handlerA := Lookup(contactHandlers, fixtureA.bodyUserData);
      if handlerA.Some? {
        calls := calls + [HandleContactBegin(handlerA.value, FixtureContact(fixtureA, fixtureB))];
      }
      var handlerB := Lookup(contactHandlers, fixtureB.bodyUserData);
      if handlerB.Some? {
        calls := calls + [HandleContactBegin(handlerB.value, FixtureContact(fixtureB, fixtureA))];
      }
    }

    /** `endContact`. */
    method EndContact(contact: Contact) returns (calls: seq<HandlerCall>)
      ensures calls == Dispatch(contactHandlers, OnEndContact, contact)
    {
      var fixtureA := contact.fixtureA;
      var fixtureB := contact.fixtureB;
      calls := [];
      var handlerA := Lookup(contactHandlers, fixtureA.bodyUserData);
      if handlerA.Some? {
        calls := calls + [HandleContactEnd(handlerA.value, FixtureContact(fixtureA, fixtureB))];
      }
      var handlerB := Lookup(contactHandlers, fixtureB.bodyUserData);
      if handlerB.Some? {
        calls := calls + [HandleContactEnd(handlerB.value, FixtureContact(fixtureB, fixtureA))];
      }
    }

    /** `preSolve`: the contact itself goes along with the ordered fixtures. */
    method PreSolve(contact: Contact) returns (calls: seq<HandlerCall>)
      ensures calls == Dispatch(contactHandlers, OnPreSolve, contact)
    {
      var fixtureA := contact.fixtureA;
      var fixtureB := contact.fixtureB;
      calls := [];
      var handlerA := Lookup(contactHandlers, fixtureA.bodyUserData);
      if handlerA.Some? {
        calls := calls + [HandlePreSolve(handlerA.value, contact, FixtureContact(fixtureA, fixtureB))];
      }
      var handlerB := Lookup(contactHandlers, fixtureB.bodyUserData);
      if handlerB.Some? {
        calls := calls + [HandlePreSolve(handlerB.value, contact, FixtureContact(fixtureB, fixtureA))];
      }
    }

    /** `postSolve` forwards nothing. */
    method PostSolve(contact: Contact) returns (calls: seq<HandlerCall>)
      ensures calls == []
    {
      calls := [];
    }
  }
}
