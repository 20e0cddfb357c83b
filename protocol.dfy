/**
 * Records shared by the chat server and the web client: identities, message
 * records and presence values as they travel over the real-time protocol.
 */
module Protocol {
  /** A user identity (a database object id): never the empty string. */
  type UserId = s: string | s != "" witness "0"

  /** One transport connection (the socket.io socket id). */
  type ConnId = nat

  /** Session descriptions and ICE candidates are opaque to both sides. */
  type Sdp = string
  type Candidate = string

  /** A presence entry: `true` while online, the epoch-millisecond time of the last disconnect otherwise. */
  datatype Presence = Online | LastSeen(at: int)

  /** The public part of a user record (what the server sends once the password is stripped). */
  datatype Profile = Profile(id: UserId, username: string, name: string)

  /** A chat message; `seen` is false until the receiver reads it. */
  datatype Message = Message(sender: UserId, receiver: UserId, content: string, date: int, seen: bool)

  /** The message belongs to the conversation of `u`. */
  predicate Involves(m: Message, u: UserId) {
    m.sender == u || m.receiver == u
  }

  /** Exactly the messages of `ms` in the conversation of `u`, each as often as in `ms`, kept in list order. */
  function Conversation(ms: seq<Message>, u: UserId): (r: seq<Message>)
    ensures forall m :: multiset(r)[m] == if Involves(m, u) then multiset(ms)[m] else 0
    ensures forall m :: m in r <==> m in ms && Involves(m, u)
    ensures |r| <= |ms|
  {
    if ms == [] then []
    else
      assert ms == [ms[0]] + ms[1..];
      if Involves(ms[0], u) then [ms[0]] + Conversation(ms[1..], u)
      else Conversation(ms[1..], u)
  }

  /**
   * The selection keeps list order: selecting from a concatenation is
   * concatenating the selections. With the single-element cases this fixes
   * the result as the in-order filter of the list.
   */
  lemma {:induction false} ConversationAppend(a: seq<Message>, b: seq<Message>, u: UserId)
    ensures Conversation(a + b, u) == Conversation(a, u) + Conversation(b, u)
    decreases |a|
  {
    if a == [] {
      assert a + b == b;
    } else {
      assert (a + b)[1..] == a[1..] + b;
      ConversationAppend(a[1..], b, u);
    }
  }
}
