/**
  One STOMP connection (stompserver/stomp_connection.go): the frame handlers, the
  three arms of the `run` select, and `Close`. `Conn` is the value of a connection,
  the functions say what one step makes of it, and class `StompConn` is the object
  whose methods carry the steps out in place. A write to the socket may fail; the
  result is the parameter `ok`.
 */
module Connection {
  import opened Options
  import opened Routing
  import opened HeartBeat
  import opened Subscriptions

  datatype Phase = Connecting | Connected | Closed

  datatype Command = CONNECT | STOMP | DISCONNECT | SEND | SUBSCRIBE | UNSUBSCRIBE | UNSUPPORTED

  datatype HeartBeatHeader = NoHeartBeat | BadHeartBeat | HeartBeatMs(cx: nat, cy: nat)

  /** An incoming frame after parsing; `acceptVersions` is already split at the commas. */
  datatype ClientFrame = ClientFrame(
    command: Command,
    id: Option<string>,
    destination: Option<string>,
    receipt: Option<string>,
    inTransaction: bool,
    acceptVersions: Option<seq<string>>,
    heartBeat: HeartBeatHeader,
    body: string)

  datatype StompError =
    | UnsupportedCommand | UnexpectedCommand | InvalidHeader | UnsupportedVersion
    | InvalidHeartBeat | NotConnected | InvalidSubscription | InvalidFrame
    | InvalidSendDestination | WriteFailed

  /** Frames other goroutines put on `outFrames`. */
  datatype OutFrame =
    | OutMessage(destination: string, subscription: string, body: string)
    | OutError(error: StompError)

  /** Frames that reached the client. */
  datatype Written =
    | ConnectedFrame(version: string, sentX: int, sentY: int)
    | MessageFrame(destination: string, subscription: string, messageId: nat, body: string)
    | ReceiptFrame(receiptId: string)
    | HeartBeatFrame
    | ErrorFrame(error: StompError)

  datatype ServerConfig = ServerConfig(heartbeat: int, prefixes: seq<string>)

  datatype Conn = Conn(
    id: string,
    phase: Phase,
    version: string,
    subs: map<string, string>,
    readTimeoutMs: int,
    writeTimeout: int,
    messageId: nat,
    closeDone: bool,
    out: seq<OutFrame>,
    written: seq<Written>,
    emitted: seq<Event>)

  datatype Outcome = Outcome(conn: Conn, error: Option<StompError>)

  const V12 := "1.2"
  const V11 := "1.1"
  const V10 := "1.0"

  // ----- what one step makes of a connection -----

  function NewConn(id: string): Conn {
    Conn(id, Connecting, "", map[], 0, 0, 0, false, [], [], [])
  }

  function Write(c: Conn, f: Written, ok: bool): Conn {
    if ok then c.(written := c.written + [f]) else c
  }

  function Emit(c: Conn, e: Event): Conn {
    c.(emitted := c.emitted + [e])
  }

  function Close(c: Conn): Conn {
    if c.closeDone then c else Emit(c.(phase := Closed, closeDone := true), ConnectionClosed(c.id))
  }

  function WriteReceipt(c: Conn, f: ClientFrame, ok: bool): Conn {
    if f.receipt.Some? then Write(c, ReceiptFrame(f.receipt.value), ok) else c
  }

  /** The highest supported version the client accepts; a missing header means 1.0. */
  function DetermineVersion(f: ClientFrame): Option<string> {
    match f.acceptVersions
    case None => Some(V10)
    case Some(vs) =>
      if V12 in vs then Some(V12) else if V11 in vs then Some(V11) else if V10 in vs then Some(V10) else None
  }

  function ClientBeats(f: ClientFrame): (nat, nat) {
    if f.heartBeat.HeartBeatMs? then (f.heartBeat.cx, f.heartBeat.cy) else (0, 0)
  }

  function HandleConnect(c: Conn, cfg: ServerConfig, f: ClientFrame, ok: bool): Outcome {
    if c.phase.Connected? then Outcome(c, Some(UnexpectedCommand))
    else if f.receipt.Some? then Outcome(c, Some(InvalidHeader))
    else
      var v := DetermineVersion(f);
      if v.None? then Outcome(c.(version := ""), Some(UnsupportedVersion))
      else
        var c1 := c.(version := v.value);
        if v.value == V10 then Outcome(c1, Some(UnsupportedVersion))
        else if f.heartBeat.BadHeartBeat? then Outcome(c1, Some(InvalidHeartBeat))
        else
          var b := Negotiate(cfg.heartbeat, ClientBeats(f).0, ClientBeats(f).1);
          var c2 := c1.(writeTimeout := b.writeTimeout, readTimeoutMs := b.readTimeoutMs);
          if !ok then Outcome(c2, Some(WriteFailed))
          else
            var c3 := Write(c2, ConnectedFrame(v.value, b.sentX, b.sentY), true);
            Outcome(Emit(c3.(phase := Connected), ConnectionEstablished(c.id)), None)
  }

  function HandleDisconnect(c: Conn, f: ClientFrame, ok: bool): Outcome {
    if c.phase.Connecting? then Outcome(c, Some(NotConnected))
    else Outcome(Close(WriteReceipt(c, f, ok)), None)
  }

  function HandleSubscribe(c: Conn, f: ClientFrame): Outcome {
    if c.phase.Connecting? then Outcome(c, Some(NotConnected))
    else if c.phase.Closed? then Outcome(c, None)
    else if f.id.None? then Outcome(c, Some(InvalidSubscription))
    else if f.destination.None? then Outcome(c, Some(InvalidFrame))
    else if f.id.value in c.subs then Outcome(c, None)
    else
      var c1 := c.(subs := c.subs[f.id.value := f.destination.value]);
      Outcome(Emit(c1, SubscribeToTopic(c.id, f.id.value, f.destination.value)), None)
  }

  function HandleUnsubscribe(c: Conn, f: ClientFrame, ok: bool): Outcome {
    if c.phase.Connecting? then Outcome(c, Some(NotConnected))
    else if c.phase.Closed? then Outcome(c, None)
    else if f.id.None? then Outcome(c, Some(InvalidSubscription))
    else
      var c1 := WriteReceipt(c, f, ok);
      if f.id.value !in c.subs then Outcome(c1, None)
      else
        var c2 := c1.(subs := c1.subs - {f.id.value});
        Outcome(Emit(c2, UnsubscribeFromTopic(c.id, f.id.value, c.subs[f.id.value])), None)
  }

  function HandleSend(c: Conn, cfg: ServerConfig, f: ClientFrame, ok: bool): Outcome {
    if c.phase.Connecting? then Outcome(c, Some(NotConnected))
    else if c.phase.Closed? then Outcome(c, None)
    else if f.inTransaction then Outcome(c, Some(UnsupportedCommand))
    else if f.destination.None? then Outcome(c, Some(InvalidFrame))
    else if !Accepts(cfg.prefixes, f.destination.value) then Outcome(c, Some(InvalidSendDestination))
    else if f.receipt.Some? && !ok then Outcome(c, Some(WriteFailed))
    else Outcome(Emit(WriteReceipt(c, f, ok), IncomingMessage(c.id, f.destination.value, f.body)), None)
  }

  function HandleFrame(c: Conn, cfg: ServerConfig, f: ClientFrame, ok: bool): Outcome {
    match f.command
    case CONNECT => HandleConnect(c, cfg, f, ok)
    case STOMP => HandleConnect(c, cfg, f, ok)
    case DISCONNECT => HandleDisconnect(c, f, ok)
    case SEND => HandleSend(c, cfg, f, ok)
    case SUBSCRIBE => HandleSubscribe(c, f)
    case UNSUBSCRIBE => HandleUnsubscribe(c, f, ok)
    case UNSUPPORTED => Outcome(c, Some(UnsupportedCommand))
  }

  /** The `inFrames` arm: an error is reported to the client and ends the connection. */
  function OnInFrame(c: Conn, cfg: ServerConfig, f: ClientFrame, ok: bool, okError: bool): Conn {
    var r := HandleFrame(c, cfg, f, ok);
    if r.error.Some? then Close(Write(r.conn, ErrorFrame(r.error.value), okError)) else r.conn
  }

  /** The `outFrames` arm: MESSAGE frames get the next message id. */
  function OnOutFrame(c: Conn, ok: bool): Conn
    requires c.out != []
  {
    match c.out[0]
    case OutMessage(d, s, body) =>
      var n := (c.messageId + 1) % TWO_64;
      var c1 := Write(c.(out := c.out[1..], messageId := n), MessageFrame(d, s, n, body), ok);
      if ok then c1 else Close(c1)
    case OutError(e) =>
      Close(Write(c.(out := c.out[1..]), ErrorFrame(e), ok))
  }

  /** The timer arm: a heart-beat. */
  function OnTimer(c: Conn, ok: bool): Conn {
    if ok then Write(c, HeartBeatFrame, true) else Close(c)
  }

  // ----- the object -----

  class StompConn {
    const id: string
    const config: StompConfig
    var state: Phase
    var version: string
    var subscriptions: map<string, string>
    var readTimeoutMs: int
    var writeTimeout: int
    var currentMessageId: nat
    var closeOnce: bool
    var outFrames: seq<OutFrame>
    var written: seq<Written>
    var events: seq<Event>

    ghost function Model(): Conn
      reads this
    {
      Conn(id, state, version, subscriptions, readTimeoutMs, writeTimeout, currentMessageId,
           closeOnce, outFrames, written, events)
    }

    ghost function Config(): ServerConfig
      reads config.appDestPrefix
    {
      ServerConfig(config.heartbeat, config.appDestPrefix[..])
    }

    constructor (id: string, config: StompConfig)
      ensures Model() == NewConn(id) && this.config == config && ConnInv(Model())
    {
      this.id, this.config := id, config;
      state, version, subscriptions := Connecting, "", map[];
      readTimeoutMs, writeTimeout, currentMessageId, closeOnce := 0, 0, 0, false;
      outFrames, written, events := [], [], [];
      new;
      NewConnOk(id);
    }

    method SendFrameToSubscription(destination: string, subscription: string, body: string)
      modifies this`outFrames
      ensures outFrames == old(outFrames) + [OutMessage(destination, subscription, body)]
    {
      outFrames := outFrames + [OutMessage(destination, subscription, body)];
    }

    method WriteFrame(f: Written, ok: bool)
      modifies this`written
      ensures Model() == Write(old(Model()), f, ok)
    {
      if ok { written := written + [f]; }
    }

    method CloseConn()
      modifies this
      ensures Model() == Close(old(Model()))
    {
      if !closeOnce {
        closeOnce := true;
        state := Closed;
        events := events + [ConnectionClosed(id)];
      }
    }

    method SendReceiptResponse(f: ClientFrame, ok: bool) returns (err: Option<StompError>)
      modifies this`written
      ensures Model() == WriteReceipt(old(Model()), f, ok)
      ensures err == if f.receipt.Some? && !ok then Some(WriteFailed) else None
    {
      err := None;
      if f.receipt.Some? {
        WriteFrame(ReceiptFrame(f.receipt.value), ok);
        if !ok { err := Some(WriteFailed); }
      }
    }

    method Connect(f: ClientFrame, ok: bool) returns (err: Option<StompError>)
      modifies this
      ensures Outcome(Model(), err) == HandleConnect(old(Model()), Config(), f, ok)
    {
      if state == Connected { return Some(UnexpectedCommand); }
      if f.receipt.Some? { return Some(InvalidHeader); }
      var v := DetermineVersion(f);
      version := if v.Some? then v.value else "";
      if v.None? { return Some(UnsupportedVersion); }
      if version == V10 { return Some(UnsupportedVersion); }
      if f.heartBeat.BadHeartBeat? { return Some(InvalidHeartBeat); }
      var (cx, cy) := ClientBeats(f);
      var b := Negotiate(config.heartbeat, cx, cy);
      writeTimeout := b.writeTimeout;
      readTimeoutMs := b.readTimeoutMs;
      WriteFrame(ConnectedFrame(version, b.sentX, b.sentY), ok);
      if !ok { return Some(WriteFailed); }
      state := Connected;
      events := events + [ConnectionEstablished(id)];
      return None;
    }

    method Disconnect(f: ClientFrame, ok: bool) returns (err: Option<StompError>)
      modifies this
      ensures Outcome(Model(), err) == HandleDisconnect(old(Model()), f, ok)
    {
      if state == Connecting { return Some(NotConnected); }
      var _ := SendReceiptResponse(f, ok);
      CloseConn();
      return None;
    }

    method Subscribe(f: ClientFrame) returns (err: Option<StompError>)
      modifies this
      ensures Outcome(Model(), err) == HandleSubscribe(old(Model()), f)
    {
      if state == Connecting { return Some(NotConnected); }
      if state == Closed { return None; }
      if f.id.None? { return Some(InvalidSubscription); }
      if f.destination.None? { return Some(InvalidFrame); }
      if f.id.value in subscriptions { return None; }
      subscriptions := subscriptions[f.id.value := f.destination.value];
      events := events + [SubscribeToTopic(id, f.id.value, f.destination.value)];
      return None;
    }

    method Unsubscribe(f: ClientFrame, ok: bool) returns (err: Option<StompError>)
      modifies this
      ensures Outcome(Model(), err) == HandleUnsubscribe(old(Model()), f, ok)
    {
      if state == Connecting { return Some(NotConnected); }
      if state == Closed { return None; }
      if f.id.None? { return Some(InvalidSubscription); }
      var _ := SendReceiptResponse(f, ok);
      if f.id.value !in subscriptions { return None; }
      var destination := subscriptions[f.id.value];
      subscriptions := subscriptions - {f.id.value};
      events := events + [UnsubscribeFromTopic(id, f.id.value, destination)];
      return None;
    }

    method Send(f: ClientFrame, ok: bool) returns (err: Option<StompError>)
      modifies this
      ensures Outcome(Model(), err) == HandleSend(old(Model()), Config(), f, ok)
    {
      if state == Connecting { return Some(NotConnected); }
      if state == Closed { return None; }
      if f.inTransaction { return Some(UnsupportedCommand); }
      if f.destination.None? { return Some(InvalidFrame); }
      var accepted := config.IsAppRequestDestination(f.destination.value);
      if !accepted { return Some(InvalidSendDestination); }
      err := SendReceiptResponse(f, ok);
      if err.Some? { return; }
      events := events + [IncomingMessage(id, f.destination.value, f.body)];
      return None;
    }

    method HandleIncomingFrame(f: ClientFrame, ok: bool) returns (err: Option<StompError>)
      modifies this
      ensures Outcome(Model(), err) == HandleFrame(old(Model()), Config(), f, ok)
    {
      match f.command
      case CONNECT => err := Connect(f, ok);
      case STOMP => err := Connect(f, ok);
      case DISCONNECT => err := Disconnect(f, ok);
      case SEND => err := Send(f, ok);
      case SUBSCRIBE => err := Subscribe(f);
      case UNSUBSCRIBE => err := Unsubscribe(f, ok);
      case UNSUPPORTED => err := Some(UnsupportedCommand);
    }

    /** One turn of the `run` loop that takes an incoming frame. */
    method RunInFrame(f: ClientFrame, ok: bool, okError: bool)
      requires state != Closed
      modifies this
      ensures Model() == OnInFrame(old(Model()), Config(), f, ok, okError)
      ensures ConnInv(old(Model())) ==> ConnInv(Model()) && FaithfulStep(old(Model()), Model())
    {
      if ConnInv(Model()) { InFrameKeeps(Model(), Config(), f, ok, okError); }
      var err := HandleIncomingFrame(f, ok);
      if err.Some? {
        WriteFrame(ErrorFrame(err.value), okError);
        CloseConn();
      }
    }

    /** One turn that takes an outgoing frame. */
    method RunOutFrame(ok: bool)
      requires state != Closed && outFrames != []
      modifies this
      ensures Model() == OnOutFrame(old(Model()), ok)
      ensures ConnInv(old(Model())) ==> ConnInv(Model()) && FaithfulStep(old(Model()), Model())
    {
      if ConnInv(Model()) { OutFrameKeeps(Model(), ok); }
      var f := outFrames[0];
      outFrames := outFrames[1..];
      match f
      case OutMessage(d, s, body) =>
        currentMessageId := (currentMessageId + 1) % TWO_64;
        WriteFrame(MessageFrame(d, s, currentMessageId, body), ok);
        if !ok { CloseConn(); }
      case OutError(e) =>
        WriteFrame(ErrorFrame(e), ok);
        CloseConn();
    }

    /** One turn on which the write timer fires. */
    method RunTimer(ok: bool)
      requires state != Closed && writeTimeout > 0
      modifies this
      ensures Model() == OnTimer(old(Model()), ok)
      ensures ConnInv(old(Model())) ==> ConnInv(Model()) && FaithfulStep(old(Model()), Model())
    {
      if ConnInv(Model()) { TimerKeeps(Model(), ok); }
      WriteFrame(HeartBeatFrame, ok);
      if !ok { CloseConn(); }
    }
  }

  // ----- what every step keeps -----

  predicate IsTraffic(f: Written) { f.MessageFrame? || f.ReceiptFrame? || f.HeartBeatFrame? }

  /** CONNECTED followed by traffic. */
  ghost predicate IsSession(w: seq<Written>) {
    w != [] && w[0].ConnectedFrame? && forall i :: 1 <= i < |w| ==> IsTraffic(w[i])
  }

  /** `ERROR?` or `CONNECTED (MESSAGE | RECEIPT | heart-beat)* ERROR?`. */
  ghost predicate InLanguage(w: seq<Written>) {
    var body := if w != [] && w[|w| - 1].ErrorFrame? then w[..|w| - 1] else w;
    body == [] || IsSession(body)
  }

  function Messages(w: seq<Written>): nat {
    if w == [] then 0 else Messages(w[..|w| - 1]) + if w[|w| - 1].MessageFrame? then 1 else 0
  }

  /** The n-th MESSAGE written carries message id n (as a uint64). */
  ghost predicate Numbered(w: seq<Written>) {
    forall i :: 0 <= i < |w| && w[i].MessageFrame? ==> w[i].messageId == Messages(w[..i + 1]) % TWO_64
  }

  predicate IsSessionEvent(e: Event) {
    e.SubscribeToTopic? || e.UnsubscribeFromTopic? || e.IncomingMessage?
  }

  /** An optional Established, then subscription and message events. */
  ghost predicate IsEventSession(es: seq<Event>, id: string) {
    && (forall i :: 0 <= i < |es| ==> es[i].conn == id)
    && (es == [] || (es[0].ConnectionEstablished? && forall i :: 1 <= i < |es| ==> IsSessionEvent(es[i])))
  }

  /** The same, with Closed as the one and last event exactly of a closed connection. */
  ghost predicate EventsOk(id: string, phase: Phase, es: seq<Event>) {
    match phase
    case Connecting => es == []
    case Connected => es != [] && IsEventSession(es, id)
    case Closed => es != [] && es[|es| - 1] == ConnectionClosed(id) && IsEventSession(es[..|es| - 1], id)
  }

  ghost predicate WireOk(phase: Phase, w: seq<Written>, messageId: nat) {
    && Numbered(w)
    && (match phase
        case Connecting => w == []
        case Connected => IsSession(w) && messageId == Messages(w) % TWO_64
        case Closed => InLanguage(w))
  }

  ghost predicate ConnInv(c: Conn) {
    && (c.closeDone <==> c.phase.Closed?)
    && WireOk(c.phase, c.written, c.messageId)
    && EventsOk(c.id, c.phase, c.emitted)
    && (c.phase.Connecting? ==> c.subs == map[] && c.writeTimeout == 0 && c.out == [] && c.messageId == 0)
  }

  /** The subscriptions a connection holds; a closed one holds none. */
  function LiveOf(c: Conn): Index {
    if c.phase.Closed? then {} else set s | s in c.subs :: Subscription(c.subs[s], c.id, s)
  }

  ghost predicate Holds(c: Conn, t: Subscription) {
    !c.phase.Closed? && t.conn == c.id && t.id in c.subs && c.subs[t.id] == t.destination
  }

  lemma LiveOfHolds(c: Conn)
    ensures forall t :: t in LiveOf(c) <==> Holds(c, t)
  {
    if !c.phase.Closed? {
      forall t | Holds(c, t) ensures t in LiveOf(c) {
        assert t == Subscription(c.subs[t.id], c.id, t.id);
      }
    }
  }

  /** The events a step added. */
  function NewEvents(c: Conn, c': Conn): seq<Event> {
    if |c.emitted| <= |c'.emitted| then c'.emitted[|c.emitted|..] else []
  }

  /** A step that tells the server nothing changes nothing the server should know. */
  ghost predicate Quiet(c: Conn, c': Conn) {
    c'.emitted == c.emitted && LiveOf(c') == LiveOf(c)
  }

  /** The event is legal for the connection's own table and turns the old table into the new. */
  ghost predicate Tells(c: Conn, c': Conn, e: Event) {
    && c'.emitted == c.emitted + [e]
    && e.conn == c.id
    && Legal(LiveOf(c), e)
    && LiveOf(c') == Apply(LiveOf(c), e)
    && (e.SubscribeToTopic? ==> !c.phase.Connecting?)
  }

  ghost predicate FaithfulStep(c: Conn, c': Conn) {
    && c'.id == c.id
    && (c'.phase.Connecting? ==> c.phase.Connecting?)
    && (Quiet(c, c') || exists e :: Tells(c, c', e))
  }

  /** All events so far: a session, followed by Closed exactly when the connection is closed. */
  ghost predicate TellsSession(es: seq<Event>, id: string, closed: bool) {
    if closed then es != [] && es[|es| - 1] == ConnectionClosed(id) && IsEventSession(es[..|es| - 1], id)
    else IsEventSession(es, id)
  }

  lemma TracesOf(c: Conn)
    requires ConnInv(c)
    ensures InLanguage(c.written) && Numbered(c.written) && TellsSession(c.emitted, c.id, c.phase.Closed?)
  {
    if c.phase.Connected? {
      var w := c.written;
      assert |w| > 1 ==> IsTraffic(w[|w| - 1]);
    }
  }

  // ----- the wire -----

  lemma TrafficOnWire(w: seq<Written>, n: nat, f: Written)
    requires WireOk(Connected, w, n) && IsTraffic(f)
    requires f.MessageFrame? ==> f.messageId == (n + 1) % TWO_64
    ensures WireOk(Connected, w + [f], if f.MessageFrame? then (n + 1) % TWO_64 else n)
  {
    var w' := w + [f];
    assert w'[..|w'| - 1] == w;
    assert w'[..|w'|] == w';
    NumberedPrefix(w, f);
  }

  /** Numbering of the old frames does not depend on the new one. */
  lemma NumberedPrefix(w: seq<Written>, f: Written)
    requires Numbered(w)
    requires f.MessageFrame? ==> f.messageId == Messages(w + [f]) % TWO_64
    ensures Numbered(w + [f])
  {
    var w' := w + [f];
    forall i | 0 <= i < |w'| && w'[i].MessageFrame?
      ensures w'[i].messageId == Messages(w'[..i + 1]) % TWO_64
    {
      if i < |w| {
        assert w'[..i + 1] == w[..i + 1];
      } else {
        assert w'[..i + 1] == w';
      }
    }
  }

  lemma ErrorOnWire(phase: Phase, w: seq<Written>, n: nat, f: Written, ok: bool, n': nat)
    requires WireOk(phase, w, n) && !phase.Closed? && f.ErrorFrame?
    ensures WireOk(Closed, if ok then w + [f] else w, n')
  {
    if ok {
      NumberedPrefix(w, f);
      assert (w + [f])[..|w + [f]| - 1] == w;
    }
  }

  // ----- the events -----

  lemma ClosedLast(c: Conn)
    requires EventsOk(c.id, c.phase, c.emitted) && !c.phase.Closed?
    ensures EventsOk(c.id, Closed, c.emitted + [ConnectionClosed(c.id)])
  {
    var es := c.emitted + [ConnectionClosed(c.id)];
    assert es[..|es| - 1] == c.emitted;
  }

  /** Every way a connection ends: frames already written, then Closed. */
  lemma EndKeeps(c: Conn, c': Conn)
    requires ConnInv(c) && !c.phase.Closed?
    requires c'.id == c.id && c'.phase.Closed? && c'.closeDone
    requires c'.emitted == c.emitted + [ConnectionClosed(c.id)]
    requires WireOk(Closed, c'.written, c'.messageId)
    ensures ConnInv(c') && FaithfulStep(c, c')
  {
    ClosedLast(c);
    LiveOfHolds(c);
    var e := ConnectionClosed(c.id);
    assert OfConn(LiveOf(c), c.id) == LiveOf(c);
    assert Tells(c, c', e);
  }

  lemma CloseKeeps(c: Conn)
    requires ConnInv(c) && !c.phase.Closed?
    ensures ConnInv(Close(c)) && FaithfulStep(c, Close(c))
  {
    EndKeeps(c, Close(c));
  }

  /** Closing after the ERROR frame, whatever the failed handler had already set. */
  lemma FailKeeps(c: Conn, d: Conn, error: StompError, ok: bool)
    requires ConnInv(c) && !c.phase.Closed?
    requires d.id == c.id && d.closeDone == c.closeDone && d.written == c.written && d.emitted == c.emitted
    ensures var c' := Close(Write(d, ErrorFrame(error), ok)); ConnInv(c') && FaithfulStep(c, c')
  {
    var c' := Close(Write(d, ErrorFrame(error), ok));
    ErrorOnWire(c.phase, c.written, c.messageId, ErrorFrame(error), ok, c'.messageId);
    EndKeeps(c, c');
  }

  /** A session event emitted while connected. */
  lemma TellKeeps(c: Conn, c': Conn, e: Event)
    requires ConnInv(c) && c.phase.Connected? && IsSessionEvent(e) && Tells(c, c', e)
    requires c'.id == c.id && c'.phase == c.phase && c'.closeDone == c.closeDone
    requires WireOk(Connected, c'.written, c'.messageId)
    ensures ConnInv(c') && FaithfulStep(c, c')
  {
  }

  lemma ReceiptKeeps(c: Conn, f: ClientFrame, ok: bool)
    requires ConnInv(c) && c.phase.Connected?
    ensures ConnInv(WriteReceipt(c, f, ok))
  {
    if f.receipt.Some? {
      TrafficOnWire(c.written, c.messageId, ReceiptFrame(f.receipt.value));
    }
  }

  lemma FirstFrame(f: Written)
    requires f.ConnectedFrame?
    ensures WireOk(Connected, [f], 0)
  {
    assert [f][..0] == [];
    assert Messages([f]) == 0;
  }

  lemma ConnectKeeps(c: Conn, cfg: ServerConfig, f: ClientFrame, ok: bool)
    requires ConnInv(c) && c.phase.Connecting?
    requires HandleConnect(c, cfg, f, ok).error.None?
    ensures var c' := HandleConnect(c, cfg, f, ok).conn; ConnInv(c') && FaithfulStep(c, c')
  {
    var c' := HandleConnect(c, cfg, f, ok).conn;
    FirstFrame(c'.written[0]);
    assert c'.written == [c'.written[0]];
    assert LiveOf(c') == LiveOf(c);
    assert Tells(c, c', ConnectionEstablished(c.id));
  }

  lemma SubscribeKeeps(c: Conn, f: ClientFrame)
    requires ConnInv(c) && c.phase.Connected? && HandleSubscribe(c, f).error.None?
    ensures var c' := HandleSubscribe(c, f).conn; ConnInv(c') && FaithfulStep(c, c')
  {
    var c' := HandleSubscribe(c, f).conn;
    if f.id.value !in c.subs {
      var e := SubscribeToTopic(c.id, f.id.value, f.destination.value);
      LiveOfHolds(c);
      LiveOfHolds(c');
      assert LiveOf(c') == Apply(LiveOf(c), e);
      TellKeeps(c, c', e);
    }
  }

  lemma UnsubscribeKeeps(c: Conn, f: ClientFrame, ok: bool)
    requires ConnInv(c) && c.phase.Connected? && HandleUnsubscribe(c, f, ok).error.None?
    ensures var c' := HandleUnsubscribe(c, f, ok).conn; ConnInv(c') && FaithfulStep(c, c')
  {
    var c' := HandleUnsubscribe(c, f, ok).conn;
    ReceiptKeeps(c, f, ok);
    LiveOfHolds(c);
    LiveOfHolds(c');
    if f.id.value in c.subs {
      var e := UnsubscribeFromTopic(c.id, f.id.value, c.subs[f.id.value]);
      assert LiveOf(c') == Apply(LiveOf(c), e);
      TellKeeps(c, c', e);
    } else {
      assert LiveOf(c') == LiveOf(c);
    }
  }

  lemma SendKeeps(c: Conn, cfg: ServerConfig, f: ClientFrame, ok: bool)
    requires ConnInv(c) && c.phase.Connected? && HandleSend(c, cfg, f, ok).error.None?
    ensures var c' := HandleSend(c, cfg, f, ok).conn; ConnInv(c') && FaithfulStep(c, c')
  {
    var c' := HandleSend(c, cfg, f, ok).conn;
    ReceiptKeeps(c, f, ok);
    assert LiveOf(c') == LiveOf(c);
    TellKeeps(c, c', IncomingMessage(c.id, f.destination.value, f.body));
  }

  lemma DisconnectKeeps(c: Conn, f: ClientFrame, ok: bool)
    requires ConnInv(c) && c.phase.Connected?
    ensures var c' := HandleDisconnect(c, f, ok).conn; ConnInv(c') && FaithfulStep(c, c')
  {
    var c' := HandleDisconnect(c, f, ok).conn;
    ReceiptKeeps(c, f, ok);
    assert c'.written == WriteReceipt(c, f, ok).written;
    EndKeeps(c, c');
  }

  /** A handler that reports an error has written and told nothing. */
  lemma ErrorsComeFirst(c: Conn, cfg: ServerConfig, f: ClientFrame, ok: bool)
    requires !c.phase.Closed? && HandleFrame(c, cfg, f, ok).error.Some?
    ensures var d := HandleFrame(c, cfg, f, ok).conn;
            d.id == c.id && d.closeDone == c.closeDone && d.written == c.written && d.emitted == c.emitted
  {
  }

  /** An incoming frame, whatever it is and whichever writes fail. */
  lemma InFrameKeeps(c: Conn, cfg: ServerConfig, f: ClientFrame, ok: bool, okError: bool)
    requires ConnInv(c) && !c.phase.Closed?
    ensures var c' := OnInFrame(c, cfg, f, ok, okError); ConnInv(c') && FaithfulStep(c, c')
  {
    var r := HandleFrame(c, cfg, f, ok);
    if r.error.Some? {
      ErrorsComeFirst(c, cfg, f, ok);
      FailKeeps(c, r.conn, r.error.value, okError);
    } else {
      match f.command
      case CONNECT => ConnectKeeps(c, cfg, f, ok);
      case STOMP => ConnectKeeps(c, cfg, f, ok);
      case DISCONNECT => DisconnectKeeps(c, f, ok);
      case SEND => SendKeeps(c, cfg, f, ok);
      case SUBSCRIBE => SubscribeKeeps(c, f);
      case UNSUBSCRIBE => UnsubscribeKeeps(c, f, ok);
    }
  }

  lemma OutFrameKeeps(c: Conn, ok: bool)
    requires ConnInv(c) && !c.phase.Closed? && c.out != []
    ensures var c' := OnOutFrame(c, ok); ConnInv(c') && FaithfulStep(c, c')
  {
    var c' := OnOutFrame(c, ok);
    match c.out[0]
    case OutMessage(d, s, body) =>
      if ok {
        TrafficOnWire(c.written, c.messageId, MessageFrame(d, s, (c.messageId + 1) % TWO_64, body));
        assert Quiet(c, c');
      } else {
        EndKeeps(c, c');
      }
    case OutError(e) =>
      FailKeeps(c, c.(out := c.out[1..]), e, ok);
  }

  lemma TimerKeeps(c: Conn, ok: bool)
    requires ConnInv(c) && !c.phase.Closed? && c.writeTimeout > 0
    ensures var c' := OnTimer(c, ok); ConnInv(c') && FaithfulStep(c, c')
  {
    if ok {
      TrafficOnWire(c.written, c.messageId, HeartBeatFrame);
      assert Quiet(c, OnTimer(c, ok));
    } else {
      CloseKeeps(c);
    }
  }

  /**
    SUBSCRIBE adds exactly a new id. UNSUBSCRIBE needs only the id and takes exactly a held
    one away, naming the destination it was held on. The server is told iff they do.
   */
  lemma SubscriptionTakesEffect(c: Conn, cfg: ServerConfig, f: ClientFrame, ok: bool, okError: bool)
    requires c.phase.Connected? && f.id.Some? && (f.command.SUBSCRIBE? ==> f.destination.Some?)
    ensures var c' := OnInFrame(c, cfg, f, ok, okError);
            && (f.command.SUBSCRIBE? && f.id.value !in c.subs ==>
                  && LiveOf(c') == LiveOf(c) + {Subscription(f.destination.value, c.id, f.id.value)}
                  && c'.emitted == c.emitted + [SubscribeToTopic(c.id, f.id.value, f.destination.value)])
            && (f.command.SUBSCRIBE? && f.id.value in c.subs ==> c' == c)
            && (f.command.UNSUBSCRIBE? ==>
                  && f.id.value !in c'.subs && c'.phase.Connected?
                  && (forall u :: u in LiveOf(c') <==> u in LiveOf(c) && u.id != f.id.value))
            && (f.command.UNSUBSCRIBE? && f.id.value in c.subs ==>
                  c'.emitted == c.emitted + [UnsubscribeFromTopic(c.id, f.id.value, c.subs[f.id.value])])
            && (f.command.UNSUBSCRIBE? && f.id.value !in c.subs ==> c'.emitted == c.emitted)
  {
    var c' := OnInFrame(c, cfg, f, ok, okError);
    LiveOfHolds(c);
    LiveOfHolds(c');
    if f.command.SUBSCRIBE? && f.id.value !in c.subs {
      var t := Subscription(f.destination.value, c.id, f.id.value);
      forall u ensures u in LiveOf(c') <==> u in LiveOf(c) + {t} {
        assert Holds(c', u) <==> Holds(c, u) || u == t;
      }
    }
    if f.command.UNSUBSCRIBE? {
      forall u ensures u in LiveOf(c') <==> u in LiveOf(c) && u.id != f.id.value {
        assert Holds(c', u) <==> Holds(c, u) && u.id != f.id.value;
      }
    }
  }

  // ----- what the client sees of a frame it sent -----

  /** The client offers a version above 1.0 that the server speaks. */
  predicate SpeaksVersion(f: ClientFrame) {
    f.acceptVersions.Some? && ("1.2" in f.acceptVersions.value || "1.1" in f.acceptVersions.value)
  }

  predicate IsConnect(f: ClientFrame) { f.command.CONNECT? || f.command.STOMP? }

  /** The frames that are answered with an ERROR. */
  predicate IsRefused(c: Conn, cfg: ServerConfig, f: ClientFrame, ok: bool) {
    match f.command
    case DISCONNECT => c.phase.Connecting?
    case SUBSCRIBE => c.phase.Connecting? || f.id.None? || f.destination.None?
    case UNSUBSCRIBE => c.phase.Connecting? || f.id.None?
    case SEND =>
      || c.phase.Connecting? || f.inTransaction || f.destination.None?
      || !Accepts(cfg.prefixes, f.destination.value) || (f.receipt.Some? && !ok)
    case UNSUPPORTED => true
    case _ => c.phase.Connected? || f.receipt.Some? || !SpeaksVersion(f) || f.heartBeat.BadHeartBeat? || !ok
  }

  /** The ERROR names something that is wrong with the frame. */
  predicate IsReason(c: Conn, cfg: ServerConfig, f: ClientFrame, ok: bool, e: StompError) {
    match e
    case NotConnected =>
      && c.phase.Connecting?
      && (f.command.DISCONNECT? || f.command.SUBSCRIBE? || f.command.UNSUBSCRIBE? || f.command.SEND?)
    case UnexpectedCommand => IsConnect(f) && c.phase.Connected?
    case InvalidHeader => IsConnect(f) && f.receipt.Some?
    case UnsupportedVersion => IsConnect(f) && !SpeaksVersion(f)
    case InvalidHeartBeat => IsConnect(f) && f.heartBeat.BadHeartBeat?
    case InvalidSubscription => (f.command.SUBSCRIBE? || f.command.UNSUBSCRIBE?) && f.id.None?
    case InvalidFrame => (f.command.SUBSCRIBE? || f.command.SEND?) && f.destination.None?
    case InvalidSendDestination =>
      f.command.SEND? && f.destination.Some? && !Accepts(cfg.prefixes, f.destination.value)
    case UnsupportedCommand => f.command.UNSUPPORTED? || (f.command.SEND? && f.inTransaction)
    case WriteFailed => !ok && (IsConnect(f) || (f.command.SEND? && f.receipt.Some?))
  }

  lemma RefusedIffError(c: Conn, cfg: ServerConfig, f: ClientFrame, ok: bool)
    requires !c.phase.Closed?
    ensures var r := HandleFrame(c, cfg, f, ok);
            (r.error.Some? <==> IsRefused(c, cfg, f, ok)) && (r.error.Some? ==> IsReason(c, cfg, f, ok, r.error.value))
  {
  }

  /** A refused frame, and no other, is answered with an ERROR naming the reason, which ends the connection. */
  lemma RefusedFramesEnd(c: Conn, cfg: ServerConfig, f: ClientFrame, ok: bool, okError: bool)
    requires ConnInv(c) && !c.phase.Closed?
    ensures var c' := OnInFrame(c, cfg, f, ok, okError);
            && (IsRefused(c, cfg, f, ok) ==>
                  && c'.phase.Closed? && c'.emitted == c.emitted + [ConnectionClosed(c.id)]
                  && exists e :: IsReason(c, cfg, f, ok, e)
                              && c'.written == c.written + if okError then [ErrorFrame(e)] else [])
            && (!IsRefused(c, cfg, f, ok) ==>
                  && (forall i :: |c.written| <= i < |c'.written| ==> !c'.written[i].ErrorFrame?)
                  && (c'.phase.Closed? <==> f.command.DISCONNECT?))
  {
    RefusedIffError(c, cfg, f, ok);
    if IsRefused(c, cfg, f, ok) {
      ErrorsComeFirst(c, cfg, f, ok);
    } else if IsConnect(f) {
      AcceptedConnect(c, cfg, f, ok);
    }
  }

  /** A CONNECT that is not refused: one CONNECTED frame with the highest common version, and the server is told. */
  lemma AcceptedConnect(c: Conn, cfg: ServerConfig, f: ClientFrame, ok: bool)
    requires !c.phase.Closed? && IsConnect(f) && !IsRefused(c, cfg, f, ok)
    ensures var c' := HandleFrame(c, cfg, f, ok).conn;
            && c'.phase.Connected? && c'.emitted == c.emitted + [ConnectionEstablished(c.id)]
            && c'.version == (if "1.2" in f.acceptVersions.value then "1.2" else "1.1")
            && c'.subs == c.subs && c'.closeDone == c.closeDone
            && exists w: Written :: w.ConnectedFrame? && w.version == c'.version && c'.written == c.written + [w]
  {
    var c' := HandleFrame(c, cfg, f, ok).conn;
    assert c'.written == c.written + [c'.written[|c.written|]];
  }

  /**
    What the server is told by a frame that is not refused: a connection established, a
    message with its own destination and body, the end, or what changed in the table.
   */
  lemma AcceptedFramesTell(c: Conn, cfg: ServerConfig, f: ClientFrame, ok: bool, okError: bool)
    requires ConnInv(c) && !c.phase.Closed? && !IsRefused(c, cfg, f, ok)
    ensures var c' := OnInFrame(c, cfg, f, ok, okError);
            && (IsConnect(f) ==> c'.emitted == c.emitted + [ConnectionEstablished(c.id)])
            && (f.command.SEND? ==> c'.emitted == c.emitted + [IncomingMessage(c.id, f.destination.value, f.body)])
            && (f.command.DISCONNECT? ==> c'.emitted == c.emitted + [ConnectionClosed(c.id)])
            && (f.command.SEND? || IsConnect(f) ==> c'.subs == c.subs)
            && (f.command.SUBSCRIBE? || f.command.UNSUBSCRIBE? || f.command.SEND? ==> c'.phase == c.phase)
            && c'.messageId == c.messageId && c'.out == c.out
            && (!IsConnect(f) ==>
                  && c'.readTimeoutMs == c.readTimeoutMs && c'.writeTimeout == c.writeTimeout
                  && c'.version == c.version)
  {
    RefusedIffError(c, cfg, f, ok);
    if IsConnect(f) {
      AcceptedConnect(c, cfg, f, ok);
    }
  }

  /** A MESSAGE taken from the queue is written with the next id, or the connection ends. */
  lemma OutFrameTakesEffect(c: Conn, ok: bool)
    requires ConnInv(c) && !c.phase.Closed? && c.out != []
    ensures var f, c' := c.out[0], OnOutFrame(c, ok);
            && c'.out == c.out[1..] && c'.subs == c.subs
            && c'.readTimeoutMs == c.readTimeoutMs && c'.writeTimeout == c.writeTimeout
            && (ok && f.OutMessage? ==>
                  && c'.phase == c.phase && c'.emitted == c.emitted
                  && exists w: Written :: w.MessageFrame? && c'.written == c.written + [w]
                                       && w.destination == f.destination && w.subscription == f.subscription
                                       && w.body == f.body && w.messageId == (c.messageId + 1) % TWO_64)
            && (ok && f.OutError? ==> c'.written == c.written + [ErrorFrame(f.error)])
            && (!ok ==> c'.written == c.written)
            && (c'.phase.Closed? <==> !ok || f.OutError?)
            && (c'.phase.Closed? ==> c'.emitted == c.emitted + [ConnectionClosed(c.id)])
  {
    var f, c' := c.out[0], OnOutFrame(c, ok);
    if ok && f.OutMessage? {
      assert c'.written == c.written + [c'.written[|c.written|]];
    }
  }

  /** The timer writes a heart-beat and changes nothing else, or ends the connection. */
  lemma TimerTakesEffect(c: Conn, ok: bool)
    requires ConnInv(c) && !c.phase.Closed?
    ensures ok ==> OnTimer(c, ok) == c.(written := c.written + [HeartBeatFrame])
    ensures !ok ==> OnTimer(c, ok).phase.Closed? && OnTimer(c, ok).written == c.written
                    && OnTimer(c, ok).emitted == c.emitted + [ConnectionClosed(c.id)]
  {
  }

  /** The frames whose receipt header is answered; SUBSCRIBE is not among them. */
  predicate AnswersReceipt(c: Conn, cfg: ServerConfig, f: ClientFrame) {
    && c.phase.Connected? && f.receipt.Some?
    && match f.command
       case DISCONNECT => true
       case UNSUBSCRIBE => f.id.Some?
       case SEND => !f.inTransaction && f.destination.Some? && Accepts(cfg.prefixes, f.destination.value)
       case _ => false
  }

  /** A frame writes its one receipt, and nothing else, exactly if it is such a frame and the write succeeds. */
  lemma ReceiptsAnswered(c: Conn, cfg: ServerConfig, f: ClientFrame, ok: bool, okError: bool)
    requires !c.phase.Closed?
    ensures var c' := OnInFrame(c, cfg, f, ok, okError);
            && (ok && AnswersReceipt(c, cfg, f) ==> c'.written == c.written + [ReceiptFrame(f.receipt.value)])
            && (!(ok && AnswersReceipt(c, cfg, f)) ==> NoNewReceipt(c, c'))
  {
    if f.command.CONNECT? || f.command.STOMP? {
      ConnectWritesNoReceipt(c, cfg, f, ok);
    }
    var d := HandleFrame(c, cfg, f, ok).conn;
    assert ok && AnswersReceipt(c, cfg, f) ==> d.written == c.written + [ReceiptFrame(f.receipt.value)];
    assert !(ok && AnswersReceipt(c, cfg, f)) ==> NoNewReceipt(c, d);
  }

  ghost predicate NoNewReceipt(c: Conn, c': Conn) {
    forall i :: |c.written| <= i < |c'.written| ==> !c'.written[i].ReceiptFrame?
  }

  lemma ConnectWritesNoReceipt(c: Conn, cfg: ServerConfig, f: ClientFrame, ok: bool)
    ensures NoNewReceipt(c, HandleConnect(c, cfg, f, ok).conn)
  {
  }

  lemma NewConnOk(id: string)
    ensures ConnInv(NewConn(id)) && LiveOf(NewConn(id)) == {}
  {
  }

  // ----- what CONNECTED promises -----

  /**
    A successful CONNECT picks the highest version both sides know, never 1.0, and the
    heart-beats the client derives from the frame are the timeouts the server keeps,
    with the one exception of a wrapped configuration.
   */
  lemma ConnectedFrameIsKept(c: Conn, cfg: ServerConfig, f: ClientFrame, ok: bool)
    requires IsInt64(cfg.heartbeat) && HeartBeat.InRange(ClientBeats(f).0, ClientBeats(f).1)
    requires HandleConnect(c, cfg, f, ok).error.None?
    ensures var c' := HandleConnect(c, cfg, f, ok).conn;
            var (cx, cy) := ClientBeats(f);
            var min := Minimum(cfg.heartbeat);
            && |c'.written| == |c.written| + 1 && c'.written[|c.written|].ConnectedFrame?
            && f.acceptVersions.Some?
            && var w := c'.written[|c.written|];
               && w.version == c'.version && w.version in f.acceptVersions.value
               && (if V12 in f.acceptVersions.value then w.version == V12 else w.version == V11)
               && Agreed(cx, w.sentY) == c'.readTimeoutMs
               && (Agreed(w.sentX, cy) * MILLISECOND == c'.writeTimeout
                   <==> !(0 < cy * MILLISECOND < min && min % MILLISECOND != 0))
  {
    HeartBeatAgreement(cfg.heartbeat, ClientBeats(f).0, ClientBeats(f).1);
  }

  // ----- messages belong to subscriptions the connection made -----

  ghost predicate Made(c: Conn, destination: string, id: string) {
    SubscribeToTopic(c.id, id, destination) in c.emitted
  }

  /** Every MESSAGE written or waiting to be written names a subscription made here. */
  ghost predicate Deserved(c: Conn) {
    && (forall f :: f in c.out && f.OutMessage? ==> Made(c, f.destination, f.subscription))
    && (forall w :: w in c.written && w.MessageFrame? ==> Made(c, w.destination, w.subscription))
  }

  /** Nothing but non-MESSAGE frames was written. */
  ghost predicate NoNewMessage(c: Conn, c': Conn) {
    && c'.id == c.id && c'.out == c.out && c.written <= c'.written
    && forall i :: |c.written| <= i < |c'.written| ==> !c'.written[i].MessageFrame?
  }

  lemma ReceiptsAreNoMessages(c: Conn, f: ClientFrame, ok: bool)
    ensures NoNewMessage(c, WriteReceipt(c, f, ok))
  {
  }

  lemma ConnectWritesNoMessage(c: Conn, cfg: ServerConfig, f: ClientFrame, ok: bool)
    ensures NoNewMessage(c, HandleConnect(c, cfg, f, ok).conn)
  {
  }

  lemma HandlersWriteNoMessage(c: Conn, cfg: ServerConfig, f: ClientFrame, ok: bool)
    ensures NoNewMessage(c, HandleFrame(c, cfg, f, ok).conn)
  {
    if f.command.CONNECT? || f.command.STOMP? {
      ConnectWritesNoMessage(c, cfg, f, ok);
    } else {
      ReceiptsAreNoMessages(c, f, ok);
      var w := HandleFrame(c, cfg, f, ok).conn.written;
      assert w == c.written || w == WriteReceipt(c, f, ok).written;
    }
  }

  lemma InFrameKeepsDeserved(c: Conn, cfg: ServerConfig, f: ClientFrame, ok: bool, okError: bool)
    requires Deserved(c) && c.emitted <= OnInFrame(c, cfg, f, ok, okError).emitted
    ensures Deserved(OnInFrame(c, cfg, f, ok, okError))
  {
    HandlersWriteNoMessage(c, cfg, f, ok);
    var c' := OnInFrame(c, cfg, f, ok, okError);
    assert NoNewMessage(c, c');
  }

  lemma OutFrameKeepsDeserved(c: Conn, ok: bool)
    requires Deserved(c) && c.out != [] && c.emitted <= OnOutFrame(c, ok).emitted
    ensures Deserved(OnOutFrame(c, ok))
  {
    var c' := OnOutFrame(c, ok);
    assert c.out[0] in c.out;
    forall w | w in c'.written && w.MessageFrame? ensures Made(c', w.destination, w.subscription) {
      if w !in c.written {
        assert Made(c, c.out[0].destination, c.out[0].subscription);
      }
    }
  }
}
