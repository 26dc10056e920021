/**
  The multiplexed client channel (channel.cc with KIMRPC_ASYNC_CLIENT) at the granularity of its locks.

  Callers, the receive thread, the timer thread and the destructor take steps in any order. What one thread does
  under m_pendingMtx is one step; everything else is as many steps as it has accesses to shared state. `wh` is the
  header encoder.
 */
module Channel {
  import opened ByteStrings
  import opened Wire

  /** Where the Pending record of a call is: which thread may touch it. */
  datatype Slot = NoSlot | InTable | WithRx | WithTimer | WithCaller | WithDtor | Freed

  /** How far callAsync has got. */
  datatype Pc =
    | Fresh          // serialising the arguments
    | Numbered       // has its request id
    | Addressed      // has its host
    | Locked         // holds m_connMtx
    | Joining        // holds m_connMtx, old connection closed
    | Dialing        // holds m_connMtx, old receive thread gone
    | Connected      // ensureConnected said yes
    | Registered     // its slot is in the table
    | Sending        // holds m_sendMtx
    | SendFailed
    | Undone         // took its slot back
    | Failing        // will report a failure
    | Returned

  datatype Outcome = Unset | Answered(body: Bytes) | Failed

  datatype Call = Call(
    pc: Pc, host: nat, request: Request,
    written: nat,               // bytes of its frame handed to send
    deadline: Option<int>,      // None: no timeout
    slot: Slot,
    done: nat,                  // how often its callback has run
    frees: nat,                 // how often its Pending was deleted
    outcome: Outcome)

  /** One TCP connection, ours from dial to close. */
  datatype Conn = Conn(
    sent: Bytes,                // what send has taken
    order: seq<nat>,            // history: the calls that wrote on it, in order
    tail: nat,                  // history: how much of the last one's frame
    torn: bool,                 // history: a frame was cut off or began elsewhere, and more was written after it
    recvd: Bytes,               // what recv has returned
    taken: seq<Response>)       // history: the frames read off it

  datatype Rx =
    | NoThread
    | Testing(conn: nat)                                   // while (m_running)
    | Reading(conn: nat, got: Bytes)                       // part of a frame
    | Holding(conn: nat, call: nat, body: Bytes, ran: bool)
    | Leaving(conn: nat)
    | Quitting(conn: nat)                                  // has cleared m_running
    | Clearing(conn: nat, batch: seq<nat>, ran: bool)      // failAllPending
    | Ended(conn: nat)

  datatype Timer = Waiting | Expiring(batch: seq<nat>, ran: bool) | Stopped

  datatype Dtor =
    | Alive
    | StoppingTimer
    | Closing
    | JoiningRx
    | Swapping
    | Emptying(batch: seq<nat>, ran: bool)
    | Destroyed

  datatype State = State(
    calls: seq<Call>,
    pending: map<nat, nat>,     // m_pending: request id to call
    nextId: nat,
    conns: seq<Conn>,
    fd: Option<nat>,            // m_clientfd
    host: Option<nat>,          // m_connectedHost
    running: bool,
    connMtx: Option<nat>,       // the call that holds it
    sendMtx: Option<nat>,
    rx: Rx,                     // m_recvThread
    timer: Timer,
    timerRunning: bool,
    dtor: Dtor)

  function Start(): State {
    State([], map[], 1, [], None, None, false, None, None, NoThread, Waiting, true, Alive)
  }

  function FrameOf(wh: Header -> Bytes, c: Call): Bytes {
    RequestFrame(wh, c.request)
  }

  function Put(s: State, k: nat, c: Call): State
    requires k < |s.calls|
  {
    s.(calls := s.calls[k := c])
  }

  function Goto(s: State, k: nat, pc: Pc): State
    requires k < |s.calls|
  {
    Put(s, k, s.calls[k].(pc := pc))
  }

  function Ran(c: Call, o: Outcome): Call {
    c.(done := c.done + 1, outcome := o)
  }

  function Deleted(c: Call): Call {
    c.(slot := Freed, frees := c.frees + 1)
  }

  /** All calls of a batch change owner. */
  function Claim(calls: seq<Call>, batch: seq<nat>, owner: Slot): (r: seq<Call>)
    ensures |r| == |calls|
    ensures forall k :: 0 <= k < |calls| ==> r[k] == if k in batch then calls[k].(slot := owner) else calls[k]
  {
    seq(|calls|, k requires 0 <= k < |calls| => if k in batch then calls[k].(slot := owner) else calls[k])
  }

  /** The batch lists exactly the calls whose table entry satisfies `p`, in some order. */
  ghost predicate Lists(s: State, batch: seq<nat>, p: Call -> bool) {
    && NoDup(batch)
    && (forall i :: 0 <= i < |batch| ==> batch[i] < |s.calls|)
    && (forall k :: 0 <= k < |s.calls| ==>
          (k in batch <==> s.calls[k].request.requestId in s.pending && s.pending[s.calls[k].request.requestId] == k && p(s.calls[k])))
  }

  function Expired(now: int): Call -> bool {
    (c: Call) => c.deadline.Some? && c.deadline.value <= now
  }

  function Any(): Call -> bool {
    (c: Call) => true
  }

  function Without(s: State, batch: seq<nat>): map<nat, nat> {
    map id | id in s.pending && s.pending[id] !in batch :: s.pending[id]
  }

  /** Taking the calls of a batch out of the table, under the lock. */
  function Take(s: State, batch: seq<nat>, owner: Slot): State {
    s.(calls := Claim(s.calls, batch, owner), pending := Without(s, batch))
  }

  // Steps of a call.

  datatype PrepareStep = BadArgs | Number | NoAddress | Resolve

  datatype ConnectStep = LockConn | Reuse | CloseOld | JoinRx | DialFail | DialOk

  datatype SendStep = LockSend | SendSome(n: nat) | SendError | SendDone

  datatype GiveUpStep = Undo | DeleteSlot | RunFail

  datatype CallerEvent =
    | Begin(host: nat, request: Request)
    | Prepare(k: nat, p: PrepareStep)
    | Connect(k: nat, c: ConnectStep)
    | Register(k: nat, deadline: Option<int>)
    | Send(k: nat, d: SendStep)
    | GiveUp(k: nat, u: GiveUpStep)

  predicate At(s: State, k: nat, pc: Pc) {
    k < |s.calls| && s.calls[k].pc == pc
  }

  /** ensureConnected keeps the connection it finds. */
  predicate Usable(s: State, k: nat)
    requires k < |s.calls|
  {
    s.fd.Some? && s.running && s.host == Some(s.calls[k].host)
  }

  predicate PrepareEnabled(s: State, k: nat, p: PrepareStep) {
    match p
    case BadArgs => At(s, k, Fresh)
    case Number => At(s, k, Fresh)
    case NoAddress => At(s, k, Numbered)       // also: the header does not serialise
    case Resolve => At(s, k, Numbered)
  }

  predicate ConnectEnabled(s: State, k: nat, c: ConnectStep) {
    match c
    case LockConn => At(s, k, Addressed) && s.connMtx == None
    case Reuse => At(s, k, Locked) && Usable(s, k)
    case CloseOld => At(s, k, Locked) && !Usable(s, k)
    case JoinRx => At(s, k, Joining) && (s.rx.NoThread? || s.rx.Ended?)
    case DialFail => At(s, k, Dialing)
    case DialOk => At(s, k, Dialing)
  }

  predicate SendEnabled(wh: Header -> Bytes, s: State, k: nat, d: SendStep) {
    match d
    case LockSend => At(s, k, Registered) && s.sendMtx == None
    case SendSome(n) =>
      && At(s, k, Sending) && s.fd.Some? && s.fd.value < |s.conns|
      && 0 < n && s.calls[k].written + n <= |FrameOf(wh, s.calls[k])|
    case SendError => At(s, k, Sending) && s.calls[k].written < |FrameOf(wh, s.calls[k])|
    case SendDone => At(s, k, Sending) && s.calls[k].written == |FrameOf(wh, s.calls[k])|
  }

  predicate GiveUpEnabled(s: State, k: nat, u: GiveUpStep) {
    match u
    case Undo => At(s, k, SendFailed)
    case DeleteSlot => At(s, k, Undone)
    case RunFail => At(s, k, Failing)
  }

  predicate CallerEnabled(wh: Header -> Bytes, s: State, ev: CallerEvent) {
    match ev
    case Begin(host, request) => s.dtor == Alive
    case Prepare(k, p) => PrepareEnabled(s, k, p)
    case Connect(k, c) => ConnectEnabled(s, k, c)
    case Register(k, deadline) => At(s, k, Connected)
    case Send(k, d) => SendEnabled(wh, s, k, d)
    case GiveUp(k, u) => GiveUpEnabled(s, k, u)
  }

  /** Bytes written..written + n of call k's frame go out on connection c. */
  function Write(wh: Header -> Bytes, s: State, c: Conn, k: nat, n: nat): Conn
    requires k < |s.calls| && s.calls[k].written + n <= |FrameOf(wh, s.calls[k])|
  {
    var w, frame := s.calls[k].written, FrameOf(wh, s.calls[k]);
    var d := c.(sent := c.sent + frame[w..w + n]);
    var whole := c.order == [] || (Last(c) < |s.calls| && c.tail == |FrameOf(wh, s.calls[Last(c)])|);
    if w == 0 && whole then d.(order := c.order + [k], tail := n)
    else if w > 0 && c.order != [] && Last(c) == k && c.tail == w then d.(tail := w + n)
    else d.(torn := true)
  }

  function Last(c: Conn): nat
    requires c.order != []
  {
    c.order[|c.order| - 1]
  }

  function Dial(s: State, k: nat): State
    requires k < |s.calls|
  {
    Goto(s, k, Connected).(
      conns := s.conns + [Conn([], [], 0, false, [], [])], fd := Some(|s.conns|), host := Some(s.calls[k].host),
      running := true, rx := Testing(|s.conns|), connMtx := None)
  }

  function UndoCall(s: State, k: nat): State
    requires k < |s.calls|
  {
    var id := s.calls[k].request.requestId;
    if id in s.pending
    then Put(s, k, s.calls[k].(pc := Undone, slot := WithCaller)).(pending := s.pending - {id})
    else Goto(s, k, Returned)
  }

  function PrepareNext(s: State, k: nat, p: PrepareStep): State
    requires PrepareEnabled(s, k, p)
  {
    match p
    case BadArgs => Goto(s, k, Failing)
    case Number =>
      var c := s.calls[k];
      Put(s, k, c.(pc := Numbered, request := c.request.(requestId := s.nextId))).(nextId := s.nextId + 1)
    case NoAddress => Goto(s, k, Failing)
    case Resolve => Goto(s, k, Addressed)
  }

  function ConnectNext(s: State, k: nat, c: ConnectStep): State
    requires ConnectEnabled(s, k, c)
  {
    match c
    case LockConn => Goto(s, k, Locked).(connMtx := Some(k))
    case Reuse => Goto(s, k, Connected).(connMtx := None)
    case CloseOld => Goto(s, k, Joining).(fd := None)
    case JoinRx => Goto(s, k, Dialing).(rx := NoThread, host := None)
    case DialFail => Goto(s, k, Failing).(connMtx := None)
    case DialOk => Dial(s, k)
  }

  function SendNext(wh: Header -> Bytes, s: State, k: nat, d: SendStep): State
    requires SendEnabled(wh, s, k, d)
  {
    match d
    case LockSend => Goto(s, k, Sending).(sendMtx := Some(k))
    case SendSome(n) =>
      Put(s, k, s.calls[k].(written := s.calls[k].written + n))
      .(conns := s.conns[s.fd.value := Write(wh, s, s.conns[s.fd.value], k, n)])
    case SendError => Goto(s, k, SendFailed).(sendMtx := None)
    case SendDone => Goto(s, k, Returned).(sendMtx := None)
  }

  function GiveUpNext(s: State, k: nat, u: GiveUpStep): State
    requires GiveUpEnabled(s, k, u)
  {
    match u
    case Undo => UndoCall(s, k)
    case DeleteSlot => Put(s, k, Deleted(s.calls[k]).(pc := Failing))
    case RunFail => Put(s, k, Ran(s.calls[k], Failed).(pc := Returned))
  }

  function NewCall(host: nat, request: Request): Call {
    Call(Fresh, host, request.(requestId := 0), 0, None, NoSlot, 0, 0, Unset)
  }

  function Registering(s: State, k: nat, deadline: Option<int>): State
    requires k < |s.calls|
  {
    Put(s, k, s.calls[k].(pc := Registered, deadline := deadline, slot := InTable))
    .(pending := s.pending[s.calls[k].request.requestId := k])
  }

  function CallerNext(wh: Header -> Bytes, s: State, ev: CallerEvent): State
    requires CallerEnabled(wh, s, ev)
  {
    match ev
    case Begin(host, request) => s.(calls := s.calls + [NewCall(host, request)])
    case Prepare(k, p) => PrepareNext(s, k, p)
    case Connect(k, c) => ConnectNext(s, k, c)
    case Register(k, deadline) => Registering(s, k, deadline)
    case Send(k, d) => SendNext(wh, s, k, d)
    case GiveUp(k, u) => GiveUpNext(s, k, u)
  }

  // Steps of the receive thread.

  datatype RxEvent =
    | RxTest
    | RxBytes(data: Bytes)
    | RxBreak                           // recv fails or returns 0, or the frame is malformed
    | RxLookup
    | RxRun
    | RxDelete
    | RxQuit
    | RxSwap(batch: seq<nat>)
    | RxFail
    | RxDeleteFailed
    | RxEnd

  /** How many bytes the current recvAll still waits for; 0 when the frame is complete. */
  function Wanted(got: Bytes): int {
    if |got| < 4 then 4 - |got| else if |got| < 12 then 12 - |got| else 4 + FromLE(got[..4]) - |got|
  }

  predicate WellFormed(got: Bytes) {
    |got| >= 4 ==> FromLE(got[..4]) >= 8
  }

  /** A whole response frame has been read. */
  predicate Complete(got: Bytes) {
    |got| >= 12 && WellFormed(got) && |got| == 4 + FromLE(got[..4])
  }

  function ResponseOf(got: Bytes): Response
    requires |got| >= 12
  {
    Response(FromLE(got[4..12]), got[12..])
  }

  ghost predicate RxEnabled(s: State, ev: RxEvent) {
    match ev
    case RxTest => s.rx.Testing?
    case RxBytes(data) =>
      && s.rx.Reading? && s.fd.Some? && s.fd.value < |s.conns|
      && WellFormed(s.rx.got) && 0 < |data| <= Wanted(s.rx.got)
    case RxBreak => s.rx.Reading? && !Complete(s.rx.got)
    case RxLookup => s.rx.Reading? && s.rx.conn < |s.conns| && Complete(s.rx.got)
    case RxRun => s.rx.Holding? && !s.rx.ran && s.rx.call < |s.calls|
    case RxDelete => s.rx.Holding? && s.rx.ran && s.rx.call < |s.calls|
    case RxQuit => s.rx.Leaving?
    case RxSwap(batch) => s.rx.Quitting? && Lists(s, batch, Any())
    case RxFail => s.rx.Clearing? && HasHead(s, s.rx.batch) && !s.rx.ran
    case RxDeleteFailed => s.rx.Clearing? && HasHead(s, s.rx.batch) && s.rx.ran
    case RxEnd => s.rx.Clearing? && s.rx.batch == []
  }

  predicate HasHead(s: State, batch: seq<nat>) {
    batch != [] && batch[0] < |s.calls|
  }

  /** Failing the first call of a batch, then deleting its record. */
  function FailHead(s: State, batch: seq<nat>): State
    requires HasHead(s, batch)
  {
    Put(s, batch[0], Ran(s.calls[batch[0]], Failed))
  }

  function DeleteHead(s: State, batch: seq<nat>): State
    requires HasHead(s, batch)
  {
    Put(s, batch[0], Deleted(s.calls[batch[0]]))
  }

  /** The frame just read finds its call in the table and takes it out, or is discarded. */
  function Lookup(s: State): State
    requires s.rx.Reading? && s.rx.conn < |s.conns| && |s.rx.got| >= 12
  {
    var c, r := s.rx.conn, ResponseOf(s.rx.got);
    var s1 := s.(conns := s.conns[c := s.conns[c].(taken := s.conns[c].taken + [r])]);
    if r.requestId in s.pending && s.pending[r.requestId] < |s.calls| then
      var k := s.pending[r.requestId];
      Put(s1, k, s.calls[k].(slot := WithRx)).(pending := s.pending - {r.requestId}, rx := Holding(c, k, r.body, false))
    else s1.(rx := Testing(c))
  }

  ghost function RxNext(s: State, ev: RxEvent): State
    requires RxEnabled(s, ev)
  {
    match ev
    case RxTest => s.(rx := if s.running then Reading(s.rx.conn, []) else Leaving(s.rx.conn))
    case RxBytes(data) =>
      var c := s.fd.value;
      s.(rx := Reading(s.rx.conn, s.rx.got + data), conns := s.conns[c := s.conns[c].(recvd := s.conns[c].recvd + data)])
    case RxBreak => s.(rx := Leaving(s.rx.conn))
    case RxLookup => Lookup(s)
    case RxRun => Put(s, s.rx.call, Ran(s.calls[s.rx.call], Answered(s.rx.body)))
                  .(rx := Holding(s.rx.conn, s.rx.call, s.rx.body, true))
    case RxDelete => Put(s, s.rx.call, Deleted(s.calls[s.rx.call])).(rx := Testing(s.rx.conn))
    case RxQuit => s.(rx := Quitting(s.rx.conn), running := false)
    case RxSwap(batch) => Take(s, batch, WithRx).(rx := Clearing(s.rx.conn, batch, false))
    case RxFail => FailHead(s, s.rx.batch).(rx := Clearing(s.rx.conn, s.rx.batch, true))
    case RxDeleteFailed => DeleteHead(s, s.rx.batch).(rx := Clearing(s.rx.conn, s.rx.batch[1..], false))
    case RxEnd => s.(rx := Ended(s.rx.conn))
  }

  // Steps of the timer thread.

  datatype TimerEvent =
    | TimerScan(now: int, batch: seq<nat>)
    | TimerFail
    | TimerDelete
    | TimerRest
    | TimerStop

  ghost predicate TimerEnabled(s: State, ev: TimerEvent) {
    match ev
    case TimerScan(now, batch) => s.timer.Waiting? && s.timerRunning && Lists(s, batch, Expired(now))
    case TimerFail => s.timer.Expiring? && HasHead(s, s.timer.batch) && !s.timer.ran
    case TimerDelete => s.timer.Expiring? && HasHead(s, s.timer.batch) && s.timer.ran
    case TimerRest => s.timer.Expiring? && s.timer.batch == []
    case TimerStop => s.timer.Waiting? && !s.timerRunning
  }

  ghost function TimerNext(s: State, ev: TimerEvent): State
    requires TimerEnabled(s, ev)
  {
    match ev
    case TimerScan(now, batch) => Take(s, batch, WithTimer).(timer := Expiring(batch, false))
    case TimerFail => FailHead(s, s.timer.batch).(timer := Expiring(s.timer.batch, true))
    case TimerDelete => DeleteHead(s, s.timer.batch).(timer := Expiring(s.timer.batch[1..], false))
    case TimerRest => s.(timer := Waiting)
    case TimerStop => s.(timer := Stopped)
  }

  // Steps of the destructor; the caller must not destroy a channel on which calls are still being issued.

  datatype DtorEvent =
    | DtorBegin
    | DtorJoinTimer
    | DtorClose
    | DtorJoinRx
    | DtorSwap(batch: seq<nat>)
    | DtorFail
    | DtorDelete
    | DtorEnd

  ghost predicate DtorEnabled(s: State, ev: DtorEvent) {
    match ev
    case DtorBegin => s.dtor == Alive && (forall k :: 0 <= k < |s.calls| ==> s.calls[k].pc == Returned)
    case DtorJoinTimer => s.dtor == StoppingTimer && s.timer.Stopped?
    case DtorClose => s.dtor == Closing && s.connMtx == None
    case DtorJoinRx => s.dtor == JoiningRx && (s.rx.NoThread? || s.rx.Ended?)
    case DtorSwap(batch) => s.dtor == Swapping && Lists(s, batch, Any())
    case DtorFail => s.dtor.Emptying? && HasHead(s, s.dtor.batch) && !s.dtor.ran
    case DtorDelete => s.dtor.Emptying? && HasHead(s, s.dtor.batch) && s.dtor.ran
    case DtorEnd => s.dtor.Emptying? && s.dtor.batch == []
  }

  ghost function DtorNext(s: State, ev: DtorEvent): State
    requires DtorEnabled(s, ev)
  {
    match ev
    case DtorBegin => s.(dtor := StoppingTimer, timerRunning := false)
    case DtorJoinTimer => s.(dtor := Closing)
    case DtorClose => s.(dtor := JoiningRx, running := false, fd := None, host := None)
    case DtorJoinRx => s.(dtor := Swapping, rx := NoThread)
    case DtorSwap(batch) => Take(s, batch, WithDtor).(dtor := Emptying(batch, false))
    case DtorFail => FailHead(s, s.dtor.batch).(dtor := Emptying(s.dtor.batch, true))
    case DtorDelete => DeleteHead(s, s.dtor.batch).(dtor := Emptying(s.dtor.batch[1..], false))
    case DtorEnd => s.(dtor := Destroyed)
  }

  datatype Event = Caller(c: CallerEvent) | Rx(r: RxEvent) | Timer(t: TimerEvent) | Dtor(d: DtorEvent)

  ghost predicate Step(wh: Header -> Bytes, s: State, ev: Event, s': State) {
    match ev
    case Caller(c) => CallerEnabled(wh, s, c) && s' == CallerNext(wh, s, c)
    case Rx(r) => RxEnabled(s, r) && s' == RxNext(s, r)
    case Timer(t) => TimerEnabled(s, t) && s' == TimerNext(s, t)
    case Dtor(d) => DtorEnabled(s, d) && s' == DtorNext(s, d)
  }

  /** The events lead from a new channel to s. */
  ghost predicate Leads(wh: Header -> Bytes, evs: seq<Event>, s: State)
    decreases |evs|, 1
  {
    if evs == [] then s == Start() else exists s0 :: LeadsVia(wh, evs, s0, s)
  }

  ghost predicate LeadsVia(wh: Header -> Bytes, evs: seq<Event>, s0: State, s: State)
    requires evs != []
    decreases |evs|, 0
  {
    Leads(wh, evs[..|evs| - 1], s0) && Step(wh, s0, evs[|evs| - 1], s)
  }

  ghost predicate Reachable(wh: Header -> Bytes, s: State) {
    exists evs :: Leads(wh, evs, s)
  }
}
