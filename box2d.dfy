/** What the contact listeners see of Box2D: objects are named by identities, and a
    fixture carries its own user data and its body's, either of which may be null. */
module Box2D {
  import opened Wrappers

  /** The identity of a Java object (a handler, a game entity used as user data). */
  type ObjectId = nat

  datatype Fixture = Fixture(id: nat, userData: Option<ObjectId>, bodyUserData: Option<ObjectId>)

  /** A contact between two fixtures, in Box2D's order. */
  datatype Contact = Contact(id: nat, fixtureA: Fixture, fixtureB: Fixture)

  /** `HashMap.get` on a handler map keyed by user data: a null key or an unregistered object
      finds nothing. */
  function Lookup(handlers: map<ObjectId, ObjectId>, key: Option<ObjectId>): (handler: Option<ObjectId>)
    ensures handler.Some? <==> key.Some? && key.value in handlers
    ensures handler.Some? ==> handler.value == handlers[key.value]
  {
    if key.Some? && key.value in handlers then Some(handlers[key.value]) else None
  }

  /** The map of `addListener`, which registers each handler under itself. */
  predicate SelfKeyed(handlers: map<ObjectId, ObjectId>)
  {
    forall k :: k in handlers ==> handlers[k] == k
  }
}
