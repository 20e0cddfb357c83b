/**
 * The chat view of the web client: the call state machine and the socket
 * handlers that drive it, and the message handlers.
 *
 * Component state is a set of fields; each handler changes the fields its
 * `modifies` clause names and no others. Socket emits are appended to `sent`,
 * calls into the peer connection and the media streams to `media`. A promise
 * the view is waiting on is an entry of `tasks`; the method that resolves it
 * runs the continuation the source attaches to it, and `FailTask` stands for
 * the `.catch` handlers, which only log.
 */
module ChatView {
  import opened Wrappers
  import opened Protocol
  import opened ChatMessages

  datatype CallState = Idle | Calling | Receiving | InCall

  /** What an `incomingCall` event carries. */
  datatype CallerInfo = CallerInfo(from: UserId, callerName: string)

  /** An offer that arrived before the peer connection existed. */
  datatype PendingOffer = PendingOffer(sdp: Sdp, caller: UserId)

  /** Opaque handles of a media stream and of a peer connection. */
  type Stream = nat
  type PeerConnection = nat

  datatype ConnectionState = New | Connecting | Connected | Disconnected | Failed | Closed

  /** Socket emits, with the addressee each one names. */
  datatype Outgoing =
    | CallUserOut(recipientId: UserId, callerName: string)
    | OfferOut(offer: Sdp, target: UserId)
    | AnswerOut(answer: Sdp, target: UserId)
    | IceOut(candidate: Candidate, peer: Option<UserId>)
    | HangUpOut(peer: Option<UserId>)
    | SeenOut(sender: Option<UserId>)
    | MessageOut(message: Message)
    | TypingOut(receiver: UserId)

  /** Calls into the peer connection and the local stream. */
  datatype MediaOp =
    | AddTracks(stream: Stream, pc: PeerConnection)
    | SetRemote(pc: PeerConnection, sdp: Sdp)
    | SetLocal(pc: PeerConnection, sdp: Sdp)
    | AddIce(pc: PeerConnection, candidate: Candidate)
    | ClosePc(pc: PeerConnection)
    | StopTracks(stream: Stream)

  /** Promises in flight, with the values their continuations captured. */
  datatype Task =
    | CallerMedia(target: UserId)                        // getUserMedia in initiateCall
    | OfferCreation(pc: PeerConnection, target: UserId)  // createOffer in initiateCall
    | CalleeMedia                                        // getUserMedia in acceptCall
    | AnswerCreation(caller: UserId)                     // setRemoteDescription then createAnswer in handleOffer
    | AnswerApplied                                      // setRemoteDescription in the answer handler

  function Without<T>(s: seq<T>, i: nat): (r: seq<T>)
    requires i < |s|
    ensures |r| == |s| - 1
    ensures forall k :: 0 <= k < |r| ==> r[k] == if k < i then s[k] else s[k + 1]
  {
    s[..i] + s[i + 1..]
  }

  /** `contact.id || callerInfo.from`: the peer a hang-up or an ICE candidate is addressed to. */
  function PeerId(contact: Contact, callerInfo: Option<CallerInfo>): (r: Option<UserId>)
    ensures r.None? <==> contact.id.None? && callerInfo.None?
    ensures contact.id.Some? ==> r == contact.id
    ensures contact.id.None? && callerInfo.Some? ==> r == Some(callerInfo.value.from)
  {
    if contact.id.Some? then contact.id
    else if callerInfo.Some? then Some(callerInfo.value.from)
    else None
  }

  /** The peer-connection states that end a call. */
  predicate Ends(s: ConnectionState) {
    s == Disconnected || s == Failed || s == Closed
  }

  /** A hang-up is sent only from these states. */
  predicate Active(s: CallState) {
    s == Calling || s == InCall
  }

  class Chat {
    var contacts: seq<Contact>
    var contact: Contact
    var connected: bool
    var messages: seq<Message>
    var typing: Option<UserId>
    var user: Option<Profile>

    var callState: CallState
    var incomingCallModal: bool
    var callerInfo: Option<CallerInfo>
    var localStream: Option<Stream>
    var remoteStream: Option<Stream>
    var peerConnection: Option<PeerConnection>
    var pendingOffer: Option<PendingOffer>

    var sent: seq<Outgoing>
    var media: seq<MediaOp>
    var tasks: seq<Task>

    constructor ()
      ensures contacts == [] && contact == NoContact && !connected && messages == [] && typing.None? && user.None?
      ensures callState == Idle && !incomingCallModal && callerInfo.None?
      ensures localStream.None? && remoteStream.None? && peerConnection.None? && pendingOffer.None?
      ensures sent == [] && media == [] && tasks == []
    {
      contacts, contact, connected, messages, typing, user := [], NoContact, false, [], None, None;
      callState, incomingCallModal, callerInfo := Idle, false, None;
      localStream, remoteStream, peerConnection, pendingOffer := None, None, None, None;
      sent, media, tasks := [], [], [];
    }

    // ---------------- socket connection ----------------

    method OnConnect()
      modifies this`connected
      ensures connected
    {
      connected := true;
    }

    method OnDisconnect()
      modifies this`connected
      ensures !connected
    {
      connected := false;
    }

    // ---------------- inbound call events ----------------

    /** `incomingCall`: show the modal, remember the caller, and make the caller the contact. */
    method OnIncomingCall(from: UserId, callerName: string)
      modifies this`callState, this`incomingCallModal, this`callerInfo, this`contact
      ensures callState == Receiving && incomingCallModal && callerInfo == Some(CallerInfo(from, callerName))
      ensures contact == if old(contact).id == Some(from) then old(contact)
                         else old(contact).(id := Some(from), name := Some(callerName))
    {
      callState, incomingCallModal, callerInfo := Receiving, true, Some(CallerInfo(from, callerName));
      if contact.id != Some(from) {
        contact := contact.(id := Some(from), name := Some(callerName));
      }
    }

    /** `offer`: answer it at once if a peer connection exists, otherwise buffer it, replacing any earlier one. */
    method OnOffer(sdp: Sdp, caller: UserId)
      modifies this`pendingOffer, this`media, this`tasks
      ensures old(peerConnection).None? ==>
        pendingOffer == Some(PendingOffer(sdp, caller)) && media == old(media) && tasks == old(tasks)
      ensures old(peerConnection).Some? ==>
        && pendingOffer == old(pendingOffer)
        && media == old(media) + [SetRemote(peerConnection.value, sdp)]
        && tasks == old(tasks) + [AnswerCreation(caller)]
    {
      if peerConnection.Some? {
        HandleOffer(sdp, caller);
      } else {
        pendingOffer := Some(PendingOffer(sdp, caller));
      }
    }

    /** `handleOffer`: apply the remote description and start creating the answer. */
    method HandleOffer(sdp: Sdp, caller: UserId)
      requires peerConnection.Some?
      modifies this`media, this`tasks
      ensures media == old(media) + [SetRemote(peerConnection.value, sdp)]
      ensures tasks == old(tasks) + [AnswerCreation(caller)]
    {
      media := media + [SetRemote(peerConnection.value, sdp)];
      tasks := tasks + [AnswerCreation(caller)];
    }

    /**
     * The answer of `handleOffer` is ready: set it locally, send it to the
     * caller, and the call is on. The continuation reads the peer connection
     * anew; if the call was torn down meanwhile it throws and only logs.
     */
    method ResolveAnswerCreation(i: nat, answer: Sdp)
      requires i < |tasks| && tasks[i].AnswerCreation?
      modifies this`media, this`sent, this`callState, this`tasks
      ensures tasks == Without(old(tasks), i)
      ensures old(peerConnection).Some? ==>
        && media == old(media) + [SetLocal(peerConnection.value, answer)]
        && sent == old(sent) + [AnswerOut(answer, old(tasks)[i].caller)]
        && callState == InCall
      ensures old(peerConnection).None? ==> media == old(media) && sent == old(sent) && callState == old(callState)
    {
      var caller := tasks[i].caller;
      tasks := Without(tasks, i);
      if peerConnection.Some? {
        media := media + [SetLocal(peerConnection.value, answer)];
        sent := sent + [AnswerOut(answer, caller)];
        callState := InCall;
      }
    }

    /** `answer`: ignored without a peer connection; otherwise apply it and wait. */
    method OnAnswer(sdp: Sdp)
      modifies this`media, this`tasks
      ensures old(peerConnection).None? ==> media == old(media) && tasks == old(tasks)
      ensures old(peerConnection).Some? ==>
        media == old(media) + [SetRemote(peerConnection.value, sdp)] && tasks == old(tasks) + [AnswerApplied]
    {
      if peerConnection.Some? {
        media := media + [SetRemote(peerConnection.value, sdp)];
        tasks := tasks + [AnswerApplied];
      }
    }

    /** The answer is applied: the call is on. */
    method ResolveAnswerApplied(i: nat)
      requires i < |tasks| && tasks[i].AnswerApplied?
      modifies this`callState, this`tasks
      ensures callState == InCall && tasks == Without(old(tasks), i)
    {
      tasks := Without(tasks, i);
      callState := InCall;
    }

    /** `iceCandidate`: added only when a peer connection exists and the candidate is present; never buffered. */
    method OnIceCandidate(candidate: Option<Candidate>)
      modifies this`media
      ensures media == if old(peerConnection).Some? && candidate.Some?
                       then old(media) + [AddIce(peerConnection.value, candidate.value)]
                       else old(media)
    {
      if peerConnection.Some? && candidate.Some? {
        media := media + [AddIce(peerConnection.value, candidate.value)];
      }
    }

    /** `hangUp` from the peer. */
    method OnHangUp()
      modifies this`callState, this`peerConnection, this`localStream, this`remoteStream, this`callerInfo
      modifies this`incomingCallModal, this`pendingOffer, this`sent, this`media
      ensures sent == old(sent) + if Active(old(callState)) then [HangUpOut(PeerId(contact, old(callerInfo)))] else []
      ensures media == old(media) + (if old(peerConnection).Some? then [ClosePc(old(peerConnection).value)] else [])
                                  + (if old(localStream).Some? then [StopTracks(old(localStream).value)] else [])
      ensures callState == Idle && !incomingCallModal && callerInfo.None? && pendingOffer.None?
      ensures peerConnection.None? && localStream.None? && remoteStream.None?
    {
      EndCall();
    }

    // ---------------- user actions ----------------

    /**
     * `initiateCall`: a contact without an id changes nothing. Otherwise the
     * view is `calling` and `callUser` goes out before the microphone is asked for.
     */
    method InitiateCall(c: Contact)
      modifies this`callState, this`contact, this`sent, this`tasks
      ensures c.id.None? ==> callState == old(callState) && contact == old(contact) && sent == old(sent) && tasks == old(tasks)
      ensures c.id.Some? ==>
        && callState == Calling && contact == c
        && sent == old(sent) + [CallUserOut(c.id.value, CallerName(user))]
        && tasks == old(tasks) + [CallerMedia(c.id.value)]
    {
      if c.id.None? {
        return;
      }
      callState, contact := Calling, c;
      sent := sent + [CallUserOut(c.id.value, CallerName(user))];
      tasks := tasks + [CallerMedia(c.id.value)];
    }

    /**
     * The caller's microphone is granted: keep the stream, build the peer
     * connection `pc`, add the tracks, start the offer, install `pc`. No check
     * that the call is still wanted.
     */
    method ResolveCallerMedia(i: nat, stream: Stream, pc: PeerConnection)
      requires i < |tasks| && tasks[i].CallerMedia?
      modifies this`localStream, this`peerConnection, this`media, this`tasks
      ensures localStream == Some(stream) && peerConnection == Some(pc)
      ensures media == old(media) + [AddTracks(stream, pc)]
      ensures tasks == Without(old(tasks), i) + [OfferCreation(pc, old(tasks)[i].target)]
    {
      var target := tasks[i].target;
      localStream := Some(stream);
      media := media + [AddTracks(stream, pc)];
      tasks := Without(tasks, i) + [OfferCreation(pc, target)];
      peerConnection := Some(pc);
    }

    /** The offer is created: set it on the connection it was made for and send it to the contact called. */
    method ResolveOfferCreation(i: nat, offer: Sdp)
      requires i < |tasks| && tasks[i].OfferCreation?
      modifies this`media, this`sent, this`tasks
      ensures media == old(media) + [SetLocal(old(tasks)[i].pc, offer)]
      ensures sent == old(sent) + [OfferOut(offer, old(tasks)[i].target)]
      ensures tasks == Without(old(tasks), i)
    {
      var t := tasks[i];
      tasks := Without(tasks, i);
      media := media + [SetLocal(t.pc, offer)];
      sent := sent + [OfferOut(offer, t.target)];
    }

    /** `acceptCall`: close the modal, enter `inCall`, make the caller the contact, ask for the microphone. */
    method AcceptCall()
      modifies this`incomingCallModal, this`callState, this`contact, this`tasks
      ensures !incomingCallModal && callState == InCall
      ensures tasks == old(tasks) + [CalleeMedia]
      ensures contact == if callerInfo.Some? && old(contact).id != Some(callerInfo.value.from)
                         then old(contact).(id := Some(callerInfo.value.from), name := Some(callerInfo.value.callerName))
                         else old(contact)
    {
      incomingCallModal, callState := false, InCall;
      if callerInfo.Some? && contact.id != Some(callerInfo.value.from) {
        contact := contact.(id := Some(callerInfo.value.from), name := Some(callerInfo.value.callerName));
      }
      tasks := tasks + [CalleeMedia];
    }

    /**
     * The callee's microphone is granted: keep the stream, build `pc`, add the
     * tracks, install `pc`, then hand a buffered offer to `handleOffer` once
     * and drop it.
     */
    method ResolveCalleeMedia(i: nat, stream: Stream, pc: PeerConnection)
      requires i < |tasks| && tasks[i].CalleeMedia?
      modifies this`localStream, this`peerConnection, this`media, this`tasks, this`pendingOffer
      ensures localStream == Some(stream) && peerConnection == Some(pc) && pendingOffer.None?
      ensures old(pendingOffer).None? ==>
        media == old(media) + [AddTracks(stream, pc)] && tasks == Without(old(tasks), i)
      ensures old(pendingOffer).Some? ==>
        && media == old(media) + [AddTracks(stream, pc), SetRemote(pc, old(pendingOffer).value.sdp)]
        && tasks == Without(old(tasks), i) + [AnswerCreation(old(pendingOffer).value.caller)]
    {
      localStream := Some(stream);
      media := media + [AddTracks(stream, pc)];
      tasks := Without(tasks, i);
      peerConnection := Some(pc);
      if pendingOffer.Some? {
        HandleOffer(pendingOffer.value.sdp, pendingOffer.value.caller);
        pendingOffer := None;
      }
    }

    /** `rejectCall`: back to `idle`, forget the caller and any buffered offer; nothing is sent. */
    method RejectCall()
      modifies this`incomingCallModal, this`callState, this`callerInfo, this`pendingOffer
      ensures !incomingCallModal && callState == Idle && callerInfo.None? && pendingOffer.None?
    {
      incomingCallModal, callState, callerInfo, pendingOffer := false, Idle, None, None;
    }

    /**
     * `endCall`: tell the peer only when calling or in a call, close the peer
     * connection, stop the microphone, and reset every call field.
     */
    method EndCall()
      modifies this`callState, this`peerConnection, this`localStream, this`remoteStream, this`callerInfo
      modifies this`incomingCallModal, this`pendingOffer, this`sent, this`media
      ensures sent == old(sent) + if Active(old(callState)) then [HangUpOut(PeerId(contact, old(callerInfo)))] else []
      ensures media == old(media) + (if old(peerConnection).Some? then [ClosePc(old(peerConnection).value)] else [])
                                  + (if old(localStream).Some? then [StopTracks(old(localStream).value)] else [])
      ensures callState == Idle && !incomingCallModal && callerInfo.None? && pendingOffer.None?
      ensures peerConnection.None? && localStream.None? && remoteStream.None?
    {
      var target := PeerId(contact, callerInfo);
      if Active(callState) {
        sent := sent + [HangUpOut(target)];
      }
      if peerConnection.Some? {
        media := media + [ClosePc(peerConnection.value)];
      }
      if localStream.Some? {
        media := media + [StopTracks(localStream.value)];
      }
      callState, peerConnection, localStream, remoteStream := Idle, None, None, None;
      callerInfo, incomingCallModal, pendingOffer := None, false, None;
    }

    /** A `.catch` handler: the failed promise is logged and nothing else changes. */
    method FailTask(i: nat)
      requires i < |tasks|
      modifies this`tasks
      ensures tasks == Without(old(tasks), i)
    {
      tasks := Without(tasks, i);
    }

    // ---------------- peer-connection callbacks ----------------

    /** `onicecandidate`: a gathered candidate goes to the peer; the end-of-gathering event sends nothing. */
    method OnLocalIceCandidate(candidate: Option<Candidate>)
      modifies this`sent
      ensures sent == if candidate.Some? then old(sent) + [IceOut(candidate.value, PeerId(contact, callerInfo))] else old(sent)
    {
      if candidate.Some? {
        sent := sent + [IceOut(candidate.value, PeerId(contact, callerInfo))];
      }
    }

    /** `ontrack`: the remote stream to play. */
    method OnRemoteTrack(stream: Stream)
      modifies this`remoteStream
      ensures remoteStream == Some(stream)
    {
      remoteStream := Some(stream);
    }

    /** `onconnectionstatechange`: a disconnected, failed or closed connection ends the call. */
    method OnConnectionStateChange(s: ConnectionState)
      modifies this`callState, this`peerConnection, this`localStream, this`remoteStream, this`callerInfo
      modifies this`incomingCallModal, this`pendingOffer, this`sent, this`media
      ensures !Ends(s) ==>
        && callState == old(callState) && peerConnection == old(peerConnection) && localStream == old(localStream)
        && remoteStream == old(remoteStream) && callerInfo == old(callerInfo) && incomingCallModal == old(incomingCallModal)
        && pendingOffer == old(pendingOffer) && sent == old(sent) && media == old(media)
      ensures Ends(s) ==>
        && sent == old(sent) + (if Active(old(callState)) then [HangUpOut(PeerId(contact, old(callerInfo)))] else [])
        && media == old(media) + (if old(peerConnection).Some? then [ClosePc(old(peerConnection).value)] else [])
                               + (if old(localStream).Some? then [StopTracks(old(localStream).value)] else [])
        && callState == Idle && peerConnection.None? && localStream.None? && remoteStream.None?
        && callerInfo.None? && pendingOffer.None? && !incomingCallModal
    {
      if Ends(s) {
        EndCall();
      }
    }

    // ---------------- messages ----------------

    /** `onData`: the initial payload; the first contact is opened, then presence is applied. */
    method OnData(u: Profile, cs: seq<Profile>, ms: seq<Message>, users: map<UserId, Presence>)
      modifies this`messages, this`contacts, this`user, this`contact
      ensures messages == ms && user == Some(u) && |contacts| == |cs|
      ensures forall k :: 0 <= k < |cs| ==> contacts[k] == WithStatus(FromProfile(cs[k]), users)
      ensures contact == WithStatus(if |cs| > 0 then FromProfile(cs[0]) else NoContact, users)
    {
      messages, user := ms, Some(u);
      contacts := seq(|cs|, k requires 0 <= k < |cs| => FromProfile(cs[k]));
      contact := if |cs| > 0 then FromProfile(cs[0]) else NoContact;
      UpdateUsersState(users);
    }

    /** `updateUsersState`: every contact, and the open one, takes its truthy presence entry. */
    method UpdateUsersState(users: map<UserId, Presence>)
      modifies this`contacts, this`contact
      ensures |contacts| == |old(contacts)|
      ensures forall k :: 0 <= k < |contacts| ==> contacts[k] == WithStatus(old(contacts)[k], users)
      ensures contact == WithStatus(old(contact), users)
    {
      var i := 0;
      while i < |contacts|
        invariant 0 <= i <= |contacts| == |old(contacts)|
        invariant forall k :: 0 <= k < i ==> contacts[k] == WithStatus(old(contacts)[k], users)
        invariant forall k :: i <= k < |contacts| ==> contacts[k] == old(contacts)[k]
        invariant contact == old(contact)
      {
        var element := contacts[i];
        if element.id.Some? && element.id.value in users && Truthy(users[element.id.value]) {
          contacts := contacts[i := element.(status := Some(users[element.id.value]))];
        }
        i := i + 1;
      }
      if contact.id.Some? && contact.id.value in users && Truthy(users[contact.id.value]) {
        contact := contact.(status := Some(users[contact.id.value]));
      }
    }

    /** `onNewMessage`: a message from the open contact stops its typing mark, is reported seen and stored seen. */
    method OnNewMessage(m: Message)
      modifies this`typing, this`sent, this`messages
      ensures contact.id == Some(m.sender) ==>
        typing.None? && sent == old(sent) + [SeenOut(contact.id)] && messages == old(messages) + [m.(seen := true)]
      ensures contact.id != Some(m.sender) ==>
        typing == old(typing) && sent == old(sent) && messages == old(messages) + [m]
    {
      var message := m;
      if contact.id == Some(m.sender) {
        typing := None;
        sent := sent + [SeenOut(contact.id)];
        message := m.(seen := true);
      }
      messages := messages + [message];
    }

    /** `onTypingMessage`: only the open contact's typing is shown (the reset timer is not modelled). */
    method OnTypingMessage(sender: UserId)
      modifies this`typing
      ensures typing == if contact.id == Some(sender) then Some(sender) else old(typing)
    {
      if contact.id != Some(sender) {
        return;
      }
      typing := Some(sender);
    }

    /** `sendMessage`: without an open contact nothing happens; otherwise address, store and send. */
    method SendMessage(m: Message)
      modifies this`messages, this`sent
      ensures contact.id.None? ==> messages == old(messages) && sent == old(sent)
      ensures contact.id.Some? ==>
        var addressed := m.(receiver := contact.id.value);
        messages == old(messages) + [addressed] && sent == old(sent) + [MessageOut(addressed)]
    {
      if contact.id.None? {
        return;
      }
      var addressed := m.(receiver := contact.id.value);
      messages := messages + [addressed];
      sent := sent + [MessageOut(addressed)];
    }

    /** `sendType`: a typing notice to the open contact, if there is one. */
    method SendType()
      modifies this`sent
      ensures sent == if contact.id.Some? then old(sent) + [TypingOut(contact.id.value)] else old(sent)
    {
      if contact.id.Some? {
        sent := sent + [TypingOut(contact.id.value)];
      }
    }

    /** `onChatNavigate`: open `c`, report its messages seen, and mark them seen locally. */
    method OnChatNavigate(c: Contact)
      modifies this`contact, this`sent, this`messages
      ensures contact == c && sent == old(sent) + [SeenOut(c.id)]
      ensures messages == if c.id.Some? then MarkSeenFrom(old(messages), c.id.value) else old(messages)
    {
      contact := c;
      sent := sent + [SeenOut(c.id)];
      if c.id.Some? {
        messages := MarkSeenFrom(messages, c.id.value);
      }
    }

    /** `renderChat`'s selection: nothing without an open contact, else exactly its conversation. */
    function RenderChat(): (r: Option<seq<Message>>)
      reads this`contact, this`messages
      ensures r.None? <==> contact.id.None?
      ensures r.Some? ==> forall m :: m in r.value <==> m in messages && Involves(m, contact.id.value)
      ensures r.Some? ==> forall m :: multiset(r.value)[m] == if Involves(m, contact.id.value) then multiset(messages)[m] else 0
      ensures r.Some? ==> |r.value| <= |messages|
    {
      if contact.id.None? then None else Some(Conversation(messages, contact.id.value))
    }
  }

  /**
   * The offer race: the offer arrives while the callee is still deciding,
   * is buffered, and after the callee's microphone is granted it is answered,
   * so the callee ends in `inCall` having sent exactly one answer.
   */
  method OfferRaceScenario(caller: UserId, name: string, offer: Sdp, stream: Stream, pc: PeerConnection, answer: Sdp)
    returns (state: CallState, sent: seq<Outgoing>, media: seq<MediaOp>, pending: Option<PendingOffer>)
    ensures state == InCall && pending.None?
    ensures sent == [AnswerOut(answer, caller)]
    ensures media == [AddTracks(stream, pc), SetRemote(pc, offer), SetLocal(pc, answer)]
  {
    var v := new Chat();
    v.OnIncomingCall(caller, name);
    v.OnOffer(offer, caller);
    v.AcceptCall();
    v.ResolveCalleeMedia(0, stream, pc);
    v.ResolveAnswerCreation(0, answer);
    state, sent, media, pending := v.callState, v.sent, v.media, v.pendingOffer;
  }

  /**
   * A caller's call reaches `inCall`, then the peer connection fails: the
   * view is `idle`, the microphone is stopped and one hang-up goes out; a
   * duplicate hang-up from the peer afterwards sends nothing more.
   */
  method FailedCallScenario(callee: UserId, stream: Stream, pc: PeerConnection, offer: Sdp, answer: Sdp)
    returns (afterFailure: seq<Outgoing>, afterDuplicate: seq<Outgoing>, state: CallState, media: seq<MediaOp>)
    ensures afterFailure == [CallUserOut(callee, "Unknown Caller"), OfferOut(offer, callee), HangUpOut(Some(callee))]
    ensures afterDuplicate == afterFailure
    ensures state == Idle
    ensures media == [AddTracks(stream, pc), SetLocal(pc, offer), SetRemote(pc, answer), ClosePc(pc), StopTracks(stream)]
  {
    var v := new Chat();
    v.InitiateCall(Contact(Some(callee), None, None));
    v.ResolveCallerMedia(0, stream, pc);
    v.ResolveOfferCreation(0, offer);
    v.OnAnswer(answer);
    v.ResolveAnswerApplied(0);
    v.OnConnectionStateChange(Failed);
    afterFailure := v.sent;
    v.OnHangUp();
    afterDuplicate, state, media := v.sent, v.callState, v.media;
  }

  /**
   * The caller hangs up before the microphone is granted; when the grant
   * arrives, its continuation still installs the stream and a peer
   * connection, although the view is `idle`.
   */
  method LateMediaScenario(callee: UserId, stream: Stream, pc: PeerConnection)
    returns (state: CallState, local: Option<Stream>, connection: Option<PeerConnection>, tasks: seq<Task>)
    ensures state == Idle && local == Some(stream) && connection == Some(pc)
    ensures tasks == [OfferCreation(pc, callee)]
  {
    var v := new Chat();
    v.InitiateCall(Contact(Some(callee), None, None));
    v.EndCall();
    v.ResolveCallerMedia(0, stream, pc);
    state, local, connection, tasks := v.callState, v.localStream, v.peerConnection, v.tasks;
  }
}
