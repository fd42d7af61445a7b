/** The transport session (`WebRTCService`): the service's own fields around a peer
    connection and its ordered data channel. The peer connection itself belongs to
    the WebRTC library; here it is a value whose behaviour arrives as oracle
    parameters (the SDP text the library produces, whether it accepts a description)
    and as event methods (the channel opens, closes or delivers data). */
module WebRtc {
  import opened Wrappers
  import opened Entities

  /** `RTCPeerConnection.connectionState`, which the service copies, and the values
      it writes itself. */
  datatype LinkState = New | Connecting | Connected | Disconnected | Failed | Closed

  datatype SdpType = Offer | Answer

  /** `{ type, sdp }`: the signalling object the user copies between devices. The
      SDP text is opaque library output. */
  datatype Signal = Signal(kind: SdpType, sdp: string)

  /** `RTCDataChannel.readyState`. */
  datatype ChannelState = ChannelConnecting | ChannelOpen | ChannelClosing | ChannelClosed

  datatype DataChannel = DataChannel(name: string, ordered: bool, readyState: ChannelState)

  /** What the service can see of an `RTCPeerConnection`: its descriptions, and
      whether an `ondatachannel` handler was installed when it was created. */
  datatype PeerConnection = PeerConnection(
    localDescription: Option<Signal>,
    remoteDescription: Option<Signal>,
    listensForChannel: bool)

  datatype MediaStream = MediaStream(id: string)

  /** A frame on the data channel, before `JSON.stringify` and after `JSON.parse`. */
  datatype WireMessage = WireMessage(
    id: string,
    kind: MessageKind,
    content: string,
    fileName: Option<string>,
    fileType: Option<string>,
    timestamp: Time)

  /** Why an operation threw: there was no peer connection to use, or the library
      rejected the step. */
  datatype RtcError = NoPeerConnection | LibraryRejected

  /** The label and options `createDataChannel('messages', { ordered: true })` uses. */
  const MessagesChannel := DataChannel("messages", true, ChannelConnecting)

  /** Every field of the service except the three logs below. */
  datatype SessionView = SessionView(
    peerConnection: Option<PeerConnection>,
    dataChannel: Option<DataChannel>,
    localStream: Option<MediaStream>,
    remoteStream: Option<MediaStream>,
    isInitiator: bool,
    connectionState: LinkState,
    hasMessageCallback: bool,
    hasStateCallback: bool)

  class WebRtcService {
    var peerConnection: Option<PeerConnection>
    var dataChannel: Option<DataChannel>
    var localStream: Option<MediaStream>
    var remoteStream: Option<MediaStream>
    var isInitiator: bool
    var connectionState: LinkState
    var hasMessageCallback: bool
    var hasStateCallback: bool
    /** Frames handed to `dataChannel.send`, oldest first. */
    var sent: seq<WireMessage>
    /** Calls of the `onMessageReceived` callback, oldest first. */
    var delivered: seq<WireMessage>
    /** Calls of the `onConnectionStateChange` callback, oldest first. */
    var notified: seq<LinkState>

    function Session(): SessionView
      reads this
    {
      SessionView(peerConnection, dataChannel, localStream, remoteStream, isInitiator,
                  connectionState, hasMessageCallback, hasStateCallback)
    }

    /** The send guard: a channel exists and its `readyState` is `'open'`. */
    predicate CanSend()
      reads this
    {
      dataChannel.Some? && dataChannel.value.readyState == ChannelOpen
    }

    /** `isConnected()`. */
    predicate IsConnected()
      reads this
    {
      connectionState == Connected && CanSend()
    }

    /** `generateSignalingData()`: the local description, or `null` without a peer
        connection or before one is set. */
    function GenerateSignalingData(): Option<Signal>
      reads this
    {
      if peerConnection.Some? && peerConnection.value.localDescription.Some?
      then peerConnection.value.localDescription
      else None
    }

    constructor ()
      ensures peerConnection.None? && dataChannel.None? && localStream.None? && remoteStream.None?
      ensures !isInitiator && connectionState == Disconnected
      ensures !hasMessageCallback && !hasStateCallback
      ensures sent == [] && delivered == [] && notified == []
    {
      peerConnection, dataChannel, localStream, remoteStream := None, None, None, None;
      isInitiator, connectionState := false, Disconnected;
      hasMessageCallback, hasStateCallback := false, false;
      sent, delivered, notified := [], [], [];
    }

    method SetOnMessageReceived()
      modifies this
      ensures hasMessageCallback
      ensures Session() == old(Session()).(hasMessageCallback := true)
      ensures sent == old(sent) && delivered == old(delivered) && notified == old(notified)
    {
      hasMessageCallback := true;
    }

    method SetOnConnectionStateChange()
      modifies this
      ensures hasStateCallback
      ensures Session() == old(Session()).(hasStateCallback := true)
      ensures sent == old(sent) && delivered == old(delivered) && notified == old(notified)
    {
      hasStateCallback := true;
    }

    /** `createPeerConnection()`: a fresh connection; only a non-initiator listens
        for the remote side's data channel. */
    method CreatePeerConnection()
      modifies this
      ensures peerConnection == Some(PeerConnection(None, None, !isInitiator))
      ensures Session() == old(Session()).(peerConnection := peerConnection)
      ensures sent == old(sent) && delivered == old(delivered) && notified == old(notified)
    {
      peerConnection := Some(PeerConnection(None, None, !isInitiator));
    }

    /** `setupDataChannel(channel)`: the channel becomes the service's channel. */
    method SetupDataChannel(channel: DataChannel)
      modifies this
      ensures dataChannel == Some(channel)
      ensures Session() == old(Session()).(dataChannel := Some(channel))
      ensures sent == old(sent) && delivered == old(delivered) && notified == old(notified)
    {
      dataChannel := Some(channel);
    }

    /** `initializeConnection()`: become the initiator, open the `messages` channel
        and produce the offer. `offerSdp` is what the library's `createOffer` yields,
        `None` when it rejects. */
    method InitializeConnection(offerSdp: Option<string>) returns (r: Result<Signal, RtcError>)
      modifies this
      ensures isInitiator
      ensures dataChannel == Some(MessagesChannel)
      ensures peerConnection.Some? && !peerConnection.value.listensForChannel
      ensures r.Ok? <==> offerSdp.Some?
      ensures r.Ok? ==> r.value == Signal(Offer, offerSdp.value) && GenerateSignalingData() == Some(r.value)
      ensures r.Err? ==> r.error == LibraryRejected && GenerateSignalingData() == None
      ensures connectionState == old(connectionState) && localStream == old(localStream) && remoteStream == old(remoteStream)
      ensures hasMessageCallback == old(hasMessageCallback) && hasStateCallback == old(hasStateCallback)
      ensures sent == old(sent) && delivered == old(delivered) && notified == old(notified)
    {
      isInitiator := true;
      CreatePeerConnection();
      SetupDataChannel(MessagesChannel);
      if offerSdp.None? {
        return Err(LibraryRejected);
      }
      var offer := Signal(Offer, offerSdp.value);
      peerConnection := Some(peerConnection.value.(localDescription := Some(offer)));
      r := Ok(offer);
    }

    /** `handleOffer(offerData)`: become the answerer, apply the remote offer and
        produce the answer. The remote description is built as an offer from
        `offerData.sdp` whatever `offerData.type` says. The three library calls run
        in order: `offerAccepted` is whether `setRemoteDescription` takes the offer,
        and `answerSdp` is the answer that `createAnswer` and `setLocalDescription`
        yield, `None` when either rejects. A rejection after the offer was taken
        leaves the offer as remote description. */
    method HandleOffer(offerData: Signal, offerAccepted: bool, answerSdp: Option<string>) returns (r: Result<Signal, RtcError>)
      modifies this
      ensures !isInitiator
      ensures peerConnection.Some? && peerConnection.value.listensForChannel
      ensures r.Ok? <==> offerAccepted && answerSdp.Some?
      ensures r.Ok? ==> r.value == Signal(Answer, answerSdp.value) && GenerateSignalingData() == Some(r.value)
      ensures offerAccepted ==> peerConnection.value.remoteDescription == Some(Signal(Offer, offerData.sdp))
      ensures !offerAccepted ==> peerConnection.value.remoteDescription == None
      ensures r.Err? ==> r.error == LibraryRejected && GenerateSignalingData() == None
      ensures dataChannel == old(dataChannel) && connectionState == old(connectionState)
      ensures localStream == old(localStream) && remoteStream == old(remoteStream)
      ensures hasMessageCallback == old(hasMessageCallback) && hasStateCallback == old(hasStateCallback)
      ensures sent == old(sent) && delivered == old(delivered) && notified == old(notified)
    {
      isInitiator := false;
      CreatePeerConnection();
      if !offerAccepted {
        return Err(LibraryRejected);
      }
      peerConnection := Some(peerConnection.value.(remoteDescription := Some(Signal(Offer, offerData.sdp))));
      if answerSdp.None? {
        return Err(LibraryRejected);
      }
      var answer := Signal(Answer, answerSdp.value);
      peerConnection := Some(PeerConnection(Some(answer), Some(Signal(Offer, offerData.sdp)), true));
      r := Ok(answer);
    }

    /** `handleAnswer(answerData)`: apply the remote answer. Without a peer
        connection the call throws; `accepted` is whether the library takes the
        description. The answer is built from `answerData.sdp` alone. */
    method HandleAnswer(answerData: Signal, accepted: bool) returns (r: Result<(), RtcError>)
      modifies this
      ensures old(peerConnection).None? ==> r == Err(NoPeerConnection) && Session() == old(Session())
      ensures old(peerConnection).Some? && !accepted ==> r == Err(LibraryRejected) && Session() == old(Session())
      ensures old(peerConnection).Some? && accepted ==>
        r.Ok? && Session() == old(Session()).(peerConnection := Some(old(peerConnection).value.(remoteDescription := Some(Signal(Answer, answerData.sdp)))))
      ensures sent == old(sent) && delivered == old(delivered) && notified == old(notified)
    {
      if peerConnection.None? {
        return Err(NoPeerConnection);
      }
      if !accepted {
        return Err(LibraryRejected);
      }
      peerConnection := Some(peerConnection.value.(remoteDescription := Some(Signal(Answer, answerData.sdp))));
      r := Ok(());
    }

    /** The peer connection's `ondatachannel` event: only a connection created by the
        non-initiator has the handler, and it adopts the remote side's channel. */
    method OnDataChannel(channel: DataChannel)
      modifies this
      ensures old(peerConnection).Some? && old(peerConnection).value.listensForChannel ==>
        Session() == old(Session()).(dataChannel := Some(channel))
      ensures !(old(peerConnection).Some? && old(peerConnection).value.listensForChannel) ==> Session() == old(Session())
      ensures sent == old(sent) && delivered == old(delivered) && notified == old(notified)
    {
      if peerConnection.Some? && peerConnection.value.listensForChannel {
        SetupDataChannel(channel);
      }
    }

    /** The channel's `onopen` event. The library has set `readyState` to open; the
        handler records `'connected'` and passes the same value to the callback. */
    method OnChannelOpen()
      modifies this
      ensures connectionState == Connected
      ensures dataChannel == if old(dataChannel).Some? then Some(old(dataChannel).value.(readyState := ChannelOpen)) else None
      ensures old(dataChannel).Some? ==> CanSend() && IsConnected()
      ensures notified == if hasStateCallback then old(notified) + [Connected] else old(notified)
      ensures Session() == old(Session()).(dataChannel := dataChannel, connectionState := Connected)
      ensures sent == old(sent) && delivered == old(delivered)
    {
      if dataChannel.Some? {
        dataChannel := Some(dataChannel.value.(readyState := ChannelOpen));
      }
      connectionState := Connected;
      if hasStateCallback {
        notified := notified + [Connected];
      }
    }

    /** The channel's `onclose` event: the library has set `readyState` to closed;
        the handler records `'disconnected'` and passes it to the callback. */
    method OnChannelClose()
      modifies this
      ensures connectionState == Disconnected && !IsConnected() && !CanSend()
      ensures dataChannel == if old(dataChannel).Some? then Some(old(dataChannel).value.(readyState := ChannelClosed)) else None
      ensures notified == if hasStateCallback then old(notified) + [Disconnected] else old(notified)
      ensures Session() == old(Session()).(dataChannel := dataChannel, connectionState := Disconnected)
      ensures sent == old(sent) && delivered == old(delivered)
    {
      if dataChannel.Some? {
        dataChannel := Some(dataChannel.value.(readyState := ChannelClosed));
      }
      connectionState := Disconnected;
      if hasStateCallback {
        notified := notified + [Disconnected];
      }
    }

    /** The channel's `onmessage` event. `parsed` is the result of `JSON.parse`,
        `None` when the data does not parse: such data is dropped. */
    method OnChannelMessage(parsed: Option<WireMessage>)
      modifies this
      ensures delivered == if parsed.Some? && hasMessageCallback then old(delivered) + [parsed.value] else old(delivered)
      ensures parsed.None? ==> delivered == old(delivered)
      ensures Session() == old(Session()) && sent == old(sent) && notified == old(notified)
    {
      if parsed.Some? && hasMessageCallback {
        delivered := delivered + [parsed.value];
      }
    }

    /** The peer connection's `onconnectionstatechange` event: the service copies the
        connection's new state and passes it to the callback. */
    method OnPeerStateChange(newState: LinkState)
      modifies this
      ensures old(peerConnection).Some? ==>
        connectionState == newState && notified == (if hasStateCallback then old(notified) + [newState] else old(notified))
      ensures old(peerConnection).None? ==> connectionState == old(connectionState) && notified == old(notified)
      ensures Session() == old(Session()).(connectionState := connectionState)
      ensures sent == old(sent) && delivered == old(delivered)
    {
      if peerConnection.Some? {
        connectionState := newState;
        if hasStateCallback {
          notified := notified + [newState];
        }
      }
    }

    /** `sendTextMessage(text, messageId)`: sends one text frame when the channel is
        open, and nothing otherwise. */
    method SendTextMessage(text: string, messageId: string, now: Time) returns (ok: bool)
      modifies this
      ensures ok == old(CanSend())
      ensures old(IsConnected()) ==> ok
      ensures sent == if ok then old(sent) + [WireMessage(messageId, Text, text, None, None, now)] else old(sent)
      ensures Session() == old(Session()) && delivered == old(delivered) && notified == old(notified)
    {
      if CanSend() {
        sent := sent + [WireMessage(messageId, Text, text, None, None, now)];
        return true;
      }
      ok := false;
    }

    /** `sendFile(fileData, fileName, fileType, messageId)`: the same guard, one file
        frame. */
    method SendFile(fileData: string, fileName: Option<string>, fileType: Option<string>, messageId: string, now: Time) returns (ok: bool)
      modifies this
      ensures ok == old(CanSend())
      ensures old(IsConnected()) ==> ok
      ensures sent == if ok then old(sent) + [WireMessage(messageId, File, fileData, fileName, fileType, now)] else old(sent)
      ensures Session() == old(Session()) && delivered == old(delivered) && notified == old(notified)
    {
      if CanSend() {
        sent := sent + [WireMessage(messageId, File, fileData, fileName, fileType, now)];
        return true;
      }
      ok := false;
    }

    /** `closeConnection()`: releases the channel, the connection and both streams,
        and resets the state. The resulting session does not depend on the one
        before, so a second call changes nothing. */
    method CloseConnection()
      modifies this
      ensures Session() == SessionView(None, None, None, None, false, Disconnected, old(hasMessageCallback), old(hasStateCallback))
      ensures !IsConnected() && GenerateSignalingData() == None
      ensures sent == old(sent) && delivered == old(delivered) && notified == old(notified)
    {
      if dataChannel.Some? {
        dataChannel := None;
      }
      if peerConnection.Some? {
        peerConnection := None;
      }
      if localStream.Some? {
        localStream := None;
      }
      if remoteStream.Some? {
        remoteStream := None;
      }
      connectionState := Disconnected;
      isInitiator := false;
    }
  }
}
