/**
 * The message-list logic of the web client's chat view: contacts and their
 * presence, seen-marking on navigation, and who the call peer is.
 */
module ChatMessages {
  import opened Wrappers
  import opened Protocol

  /** A contact as the client holds it: the profile fields it reads plus the last presence it heard. */
  datatype Contact = Contact(id: Option<UserId>, name: Option<string>, status: Option<Presence>)

  /** The empty contact `{}` the view starts with. */
  const NoContact := Contact(None, None, None)

  function FromProfile(p: Profile): Contact {
    Contact(Some(p.id), Some(p.name), None)
  }

  /** JavaScript truthiness of a presence value: `true`, or a non-zero timestamp. */
  predicate Truthy(p: Presence) {
    p.Online? || p.at != 0
  }

  /** One step of `updateUsersState`: copy a truthy presence entry onto the contact. */
  function WithStatus(c: Contact, users: map<UserId, Presence>): (r: Contact)
    ensures r.id == c.id && r.name == c.name
    ensures r.status != c.status ==> c.id.Some? && c.id.value in users && r.status == Some(users[c.id.value])
    ensures c.id.Some? && c.id.value in users && Truthy(users[c.id.value]) ==> r.status == Some(users[c.id.value])
    ensures !(c.id.Some? && c.id.value in users && Truthy(users[c.id.value])) ==> r == c
  {
    if c.id.Some? && c.id.value in users && Truthy(users[c.id.value]) then c.(status := Some(users[c.id.value])) else c
  }

  /** `onChatNavigate`'s map: every message from `id` becomes seen. */
  function MarkSeenFrom(ms: seq<Message>, id: UserId): (r: seq<Message>)
    ensures |r| == |ms|
    ensures forall i :: 0 <= i < |ms| ==> if ms[i].sender == id then r[i] == ms[i].(seen := true) else r[i] == ms[i]
  {
    if ms == [] then []
    else [if ms[0].sender == id then ms[0].(seen := true) else ms[0]] + MarkSeenFrom(ms[1..], id)
  }

  /** The caller name sent with `callUser`: the username, or `'Unknown Caller'` when there is none. */
  function CallerName(user: Option<Profile>): (r: string)
    ensures r != ""
    ensures user.Some? && user.value.username != "" ==> r == user.value.username
    ensures !(user.Some? && user.value.username != "") ==> r == "Unknown Caller"
  {
    if user.Some? && user.value.username != "" then user.value.username else "Unknown Caller"
  }
}
