/** The older contact listener of the root package (WorldContactListener.java): the same
    registration, but handlers are found by the fixture's own user data and receive one
    `handleContact` call carrying the ordered fixtures and whether the contact begins or
    ends. `preSolve` and `postSolve` forward nothing. */
module WorldContacts {
  import opened Wrappers
  import opened Box2D
  import Physics = PhysicsContacts

  datatype ContactStatus = Begin | End

  /** `ContactUpdate(fixtureA, fixtureB, status)`, the handled fixture first. */
  datatype ContactUpdate = ContactUpdate(fixtureA: Fixture, fixtureB: Fixture, status: ContactStatus)

  /** A `handleContact` call. */
  datatype HandlerCall = HandleContact(handler: ObjectId, update: ContactUpdate)

  function Deliver(handlers: map<ObjectId, ObjectId>, update: ContactUpdate): seq<HandlerCall>
  {
    match Lookup(handlers, update.fixtureA.userData)
    case None => []
    case Some(handler) => [HandleContact(handler, update)]
  }

  /** The calls for a contact with the given status: fixture A's handler, then B's. */
  function Dispatch(handlers: map<ObjectId, ObjectId>, status: ContactStatus, contact: Contact): seq<HandlerCall>
  {
    Deliver(handlers, ContactUpdate(contact.fixtureA, contact.fixtureB, status))
    + Deliver(handlers, ContactUpdate(contact.fixtureB, contact.fixtureA, status))
  }

  predicate Registered(handlers: map<ObjectId, ObjectId>, f: Fixture)
  {
    f.userData.Some? && f.userData.value in handlers
  }

  /** Every call goes to the handler that is its fixture's own user data, carries the
      callback's status and the two fixtures with the handler's first; each registered
      fixture gets its call and an unregistered one nothing. */
  lemma DispatchReachesExactlyTheOwners(handlers: map<ObjectId, ObjectId>, status: ContactStatus, contact: Contact)
    requires SelfKeyed(handlers)
    ensures var calls := Dispatch(handlers, status, contact);
      |calls| <= 2
      && (forall call :: call in calls ==>
            call.update.status == status
            && ((call.update.fixtureA, call.update.fixtureB) == (contact.fixtureA, contact.fixtureB)
                || (call.update.fixtureA, call.update.fixtureB) == (contact.fixtureB, contact.fixtureA))
            && call.update.fixtureA.userData == Some(call.handler)
            && call.handler in handlers
            && Registered(handlers, call.update.fixtureA))
      && (Registered(handlers, contact.fixtureA) ==>
            HandleContact(contact.fixtureA.userData.value, ContactUpdate(contact.fixtureA, contact.fixtureB, status)) in calls)
      && (Registered(handlers, contact.fixtureB) ==>
            HandleContact(contact.fixtureB.userData.value, ContactUpdate(contact.fixtureB, contact.fixtureA, status)) in calls)
  {
  }

  /** The two listeners look in different places: a handler that is the user data of a
      body, but not of the body's fixture, hears about the contact from the listener of the
      physics package and not from this one. */
  lemma FixtureDataNotBodyData(handler: ObjectId, other: Fixture)
    requires other.userData.None? && other.bodyUserData.None?
    ensures var handlers := map[handler := handler];
      var mine := Fixture(0, None, Some(handler));
      var contact := Contact(0, mine, other);
      Dispatch(handlers, Begin, contact) == []
      && Physics.Dispatch(handlers, Physics.OnBeginContact, contact)
         == [Physics.HandleContactBegin(handler, Physics.FixtureContact(mine, other))]
  {
  }

  class WorldContactListener {
    var contactHandlers: map<ObjectId, ObjectId>

    ghost predicate Valid()
      reads this
    {
      SelfKeyed(contactHandlers)
    }

    constructor ()
      ensures contactHandlers == map[] && Valid()
    {
      contactHandlers := map[];
    }

    /** `addListener`: the handler is registered under itself; registering it again
        changes nothing. */
    method AddListener(listener: ObjectId)
      requires Valid()
      modifies this
      ensures Valid()
      ensures contactHandlers == old(contactHandlers)[listener := listener]
      ensures listener in old(contactHandlers) ==> contactHandlers == old(contactHandlers)
    {
      contactHandlers := contactHandlers[listener := listener];
    }

    /** `beginContact`. */
    method BeginContact(contact: Contact) returns (calls: seq<HandlerCall>)
      ensures calls == Dispatch(contactHandlers, Begin, contact)
    {
      var fixtureA := contact.fixtureA;
      var fixtureB := contact.fixtureB;
      calls := [];
      var handlerA := Lookup(contactHandlers, fixtureA.userData);
      if handlerA.Some? {
        calls := calls + [HandleContact(handlerA.value, ContactUpdate(fixtureA, fixtureB, Begin))];
      }
      var handlerB := Lookup(contactHandlers, fixtureB.userData);
      if handlerB.Some? {
        calls := calls + [HandleContact(handlerB.value, ContactUpdate(fixtureB, fixtureA, Begin))];
      }
    }

    /** `endContact`. */
    method EndContact(contact: Contact) returns (calls: seq<HandlerCall>)
      ensures calls == Dispatch(contactHandlers, End, contact)
    {
      var fixtureA := contact.fixtureA;
      var fixtureB := contact.fixtureB;
      calls := [];
      var handlerA := Lookup(contactHandlers, fixtureA.userData);
      if handlerA.Some? {
        calls := calls + [HandleContact(handlerA.value, ContactUpdate(fixtureA, fixtureB, End))];
      }
      var handlerB := Lookup(contactHandlers, fixtureB.userData);
      if handlerB.Some? {
        calls := calls + [HandleContact(handlerB.value, ContactUpdate(fixtureB, fixtureA, End))];
      }
    }

    /** `preSolve` forwards nothing. */
    method PreSolve(contact: Contact) returns (calls: seq<HandlerCall>)
      ensures calls == []
    {
      calls := [];
    }

    /** `postSolve` forwards nothing. */
    method PostSolve(contact: Contact) returns (calls: seq<HandlerCall>)
      ensures calls == []
    {
      calls := [];
    }
  }
}
