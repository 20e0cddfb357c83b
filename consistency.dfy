/**
 * How the client's view of the messages agrees with the server's store when
 * both sides handle "seen": the client marks a contact's messages seen
 * locally and emits `seen`; the server turns that into its bulk update.
 */
module Consistency {
  import opened Protocol
  import opened ChatMessages
  import opened Relay

  /**
   * On a list of messages that all involve `me` (what initial sync sends), the
   * client's marking of everything from `c` is exactly the server's bulk
   * update of the unseen messages `c` sent to `me`.
   */
  lemma ClientMarkingIsServerUpdate(ms: seq<Message>, me: UserId, c: UserId)
    requires c != me
    requires forall i :: 0 <= i < |ms| ==> Involves(ms[i], me)
    ensures MarkSeenFrom(ms, c) == MarkSeen(ms, c, me)
  {
  }

  /**
   * After `me` opens the conversation with `c`, the list the client holds
   * equals what initial sync would deliver from the updated store.
   */
  lemma {:induction false} SeenUpdateCommutesWithSync(store: seq<Message>, me: UserId, c: UserId)
    requires c != me
    ensures Conversation(MarkSeen(store, c, me), me) == MarkSeenFrom(Conversation(store, me), c)
  {
    if store != [] {
      var x := store[0];
      var rest := MarkSeen(store[1..], c, me);
      var x' := if Pending(x, c, me) then x.(seen := true) else x;
      assert MarkSeen(store, c, me) == [x'] + rest;
      assert ([x'] + rest)[0] == x' && ([x'] + rest)[1..] == rest;
      assert Involves(x', me) == Involves(x, me);
      SeenUpdateCommutesWithSync(store[1..], me, c);
      if Involves(x, me) {
        var tail := Conversation(store[1..], me);
        assert Conversation(store, me) == [x] + tail;
        assert ([x] + tail)[0] == x && ([x] + tail)[1..] == tail;
        assert x' == if x.sender == c then x.(seen := true) else x;
      }
    }
  }
}
