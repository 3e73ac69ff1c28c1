/** The FreeSWITCH event-socket client (server/internal/integrations/freeswitch/client.go and
    supervisor.go): one command at a time under commandMu, one read loop per connection handing replies
    over an unbuffered channel, and disconnects that race with both. The server sends one reply per
    command, in order; a connection on which a write or deadline call failed delivers no more. */
module EslClient {
  import opened Basics

  type ConnId = nat
  type Command = nat

  datatype Loop = Reading | Holding(reply: nat) | Ended

  /** A connection: the commands the server has received, how many replies the read loop has taken
      off the wire, and the channels made for it. */
  datatype Conn = Conn(sent: seq<Command>, read: nat, loop: Loop, dead: bool, readErr: bool, doneCloses: nat)

  /** Where the command that holds commandMu stands. */
  datatype Active = Idle | Locked(command: Command) | Picked(command: Command, conn: ConnId)
    | Waiting(command: Command, conn: ConnId, index: nat) | TimedOut(conn: ConnId)

  /** A frame handed to a caller: the reply number `index` of a connection. */
  datatype Reply = Reply(command: Command, conn: ConnId, index: nat)

  /** `closing` holds the connections a disconnect has unset but whose done channel it has yet to close. */
  datatype State = State(
    conns: map<ConnId, Conn>, current: Option<ConnId>, closed: bool,
    active: Active, closing: multiset<ConnId>, returned: seq<Reply>)

  const INITIAL := State(map[], None, false, Idle, multiset{}, [])

  // ---- the lock regions ----

  /** installConnection. */
  function Install(s: State, k: ConnId): (State, bool) {
    if s.closed || s.current.Some? then (s, false)
    else (s.(conns := s.conns[k := Conn([], 0, Reading, false, false, 0)], current := Some(k)), true)
  }

  /** The part of disconnect under the lock: only the first caller for the current connection goes on. */
  function Unset(s: State, k: ConnId): State {
    if s.current != Some(k) then s else s.(current := None, closing := s.closing + multiset{k})
  }

  /** The rest of disconnect: offer the read error, close the done channel. */
  function FinishDisconnect(s: State, k: ConnId): State
    requires k in s.conns
  {
    s.(closing := s.closing - multiset{k},
       conns := s.conns[k := s.conns[k].(readErr := true, doneCloses := s.conns[k].doneCloses + 1)])
  }

  function SetLoop(s: State, k: ConnId, loop: Loop): State
    requires k in s.conns
  {
    s.(conns := s.conns[k := s.conns[k].(loop := loop)])
  }

  // ---- runs ----

  /** How writing a command to the connection can go: refused for a line break before anything is
      written, failed (with or without the server receiving it), or sent. */
  datatype Write = LineBreak | DeadlineFailed | WriteFailed(received: bool) | ClearFailed | Written

  datatype Op =
    | DoInstall(conn: ConnId)
    | Begin(command: Command)
    | Pick
    | DoWrite(write: Write)
    | LoopReads(conn: ConnId)
    | LoopFails(conn: ConnId)
    | LoopGivesUp(conn: ConnId)
    | Deliver
    | WaitFails
    | Timeout
    | Retire
    | Finish(conn: ConnId)
    | Close

  function StepWrite(s: State, write: Write): State
    requires s.active.Picked? && s.active.conn in s.conns
  {
    var k, command := s.active.conn, s.active.command;
    var c := s.conns[k];
    match write
    case LineBreak => s.(active := Idle)
    case DeadlineFailed => s.(active := Idle, conns := s.conns[k := c.(dead := true)])
    case WriteFailed(received) =>
      var sent := if received then c.sent + [command] else c.sent;
      s.(active := Idle, conns := s.conns[k := c.(dead := true, sent := sent)])
    case ClearFailed => s.(active := Idle, conns := s.conns[k := c.(dead := true, sent := c.sent + [command])])
    case Written => s.(active := Waiting(command, k, |c.sent|), conns := s.conns[k := c.(sent := c.sent + [command])])
  }

  /** A step that is not enabled leaves the state alone. */
  function Apply(s: State, op: Op): State {
    match op
    case DoInstall(k) => if k in s.conns then s else Install(s, k).0
    case Begin(command) => if s.active.Idle? then s.(active := Locked(command)) else s
    case Pick =>
      if !s.active.Locked? then s
      else if s.current.None? then s.(active := Idle)
      else s.(active := Picked(s.active.command, s.current.value))
    case DoWrite(write) => if s.active.Picked? && s.active.conn in s.conns then StepWrite(s, write) else s
    case LoopReads(k) =>
      if k in s.conns && s.conns[k].loop.Reading? && !s.conns[k].dead && s.conns[k].read < |s.conns[k].sent|
      then s.(conns := s.conns[k := s.conns[k].(read := s.conns[k].read + 1, loop := Holding(s.conns[k].read))])
      else s
    case LoopFails(k) =>
      if k in s.conns && s.conns[k].loop.Reading? then Unset(SetLoop(s, k, Ended), k) else s
    case LoopGivesUp(k) =>
      if k in s.conns && s.conns[k].loop.Holding? && s.conns[k].doneCloses > 0 then SetLoop(s, k, Ended)
      else if k in s.conns && s.conns[k].loop.Holding? && s.closed then Unset(SetLoop(s, k, Ended), k)
      else s
    case Deliver =>
      if s.active.Waiting? && s.active.conn in s.conns && s.conns[s.active.conn].loop.Holding?
      then SetLoop(s, s.active.conn, Reading).(active := Idle,
             returned := s.returned + [Reply(s.active.command, s.active.conn, s.conns[s.active.conn].loop.reply)])
      else s
    case WaitFails =>
      if s.active.Waiting? && s.active.conn in s.conns
         && (s.conns[s.active.conn].readErr || s.conns[s.active.conn].doneCloses > 0)
      then s.(active := Idle) else s
    case Timeout => if s.active.Waiting? then s.(active := TimedOut(s.active.conn)) else s
    case Retire => if s.active.TimedOut? then Unset(s, s.active.conn).(active := Idle) else s
    case Finish(k) => if k in s.closing && k in s.conns then FinishDisconnect(s, k) else s
    case Close => s.(closed := true)
  }

  function Run(s: State, ops: seq<Op>): State
    decreases |ops|
  {
    if ops == [] then s else Run(Apply(s, ops[0]), ops[1..])
  }

  // ---- the invariant ----

  /** Replies handed to callers. */
  function HandedOut(c: Conn): int { if c.loop.Holding? then c.read - 1 else c.read }

  predicate PickedOn(s: State, k: ConnId) { s.active.Picked? && s.active.conn == k }

  /** A command has been written to `k` and its caller has not yet left. */
  predicate AwaitedOn(s: State, k: ConnId) { (s.active.Waiting? || s.active.TimedOut?) && s.active.conn == k }

  /** What holds of one connection, given how the client stands to it. A connection that a next command
      could use owes no reply, except the one reply to the command that is awaiting it. */
  predicate Sound(c: Conn, current: bool, picked: bool, awaited: bool, closing: nat) {
    && c.read <= |c.sent|
    && (c.loop.Holding? ==> c.read > 0 && c.loop.reply == c.read - 1)
    && c.doneCloses + closing <= 1
    && (c.doneCloses > 0 || closing > 0 || c.readErr ==> !current)
    && (c.dead && (current || picked || awaited) ==> !c.loop.Holding?)
    && (!c.dead && awaited ==>
          c.read >= |c.sent| - 1 && (c.loop.Holding? ==> c.read == |c.sent|) &&
              (c.loop.Reading? ==> c.read == |c.sent| - 1))
    && (!c.dead && (current || picked) && !awaited ==> c.read == |c.sent| && !c.loop.Holding?)
  }

  predicate ConnOk(s: State, k: ConnId)
    requires k in s.conns
  {
    Sound(s.conns[k], s.current == Some(k), PickedOn(s, k), AwaitedOn(s, k), s.closing[k])
  }

  predicate ActiveOk(s: State) {
    && (s.current.Some? ==> s.current.value in s.conns)
    && ((s.active.Picked? || s.active.Waiting? || s.active.TimedOut?) ==> s.active.conn in s.conns)
    && (s.active.Waiting? ==>
          var c := s.conns[s.active.conn];
          s.active.index == |c.sent| - 1 && c.sent[s.active.index] == s.active.command)
  }

  predicate ReplyOk(s: State, r: Reply) {
    && r.conn in s.conns
    && r.index < |s.conns[r.conn].sent| && r.index < HandedOut(s.conns[r.conn])
    && s.conns[r.conn].sent[r.index] == r.command
  }

  ghost predicate Inv(s: State) {
    && ActiveOk(s)
    && (forall k :: k in s.conns ==> ConnOk(s, k))
    && (forall k :: k in s.closing ==> k in s.conns)
    && (forall i :: 0 <= i < |s.returned| ==> ReplyOk(s, s.returned[i]))
    && (forall i, j :: 0 <= i < j < |s.returned| && s.returned[i].conn == s.returned[j].conn ==>
          s.returned[i].index < s.returned[j].index)
  }

  lemma WriteKeepsConns(s: State, write: Write, k: ConnId)
    requires Inv(s) && k in s.conns && s.active.Picked? && s.active.conn in s.conns
    ensures k in StepWrite(s, write).conns && ConnOk(StepWrite(s, write), k)
  {
    assert ConnOk(s, k);
  }

  lemma LoopKeepsConns(s: State, op: Op, k: ConnId)
    requires k in s.conns && ConnOk(s, k) && (op.LoopReads? || op.LoopFails? || op.LoopGivesUp? || op.Deliver?)
    ensures k in Apply(s, op).conns && ConnOk(Apply(s, op), k)
  {
  }

  lemma LifecycleKeepsConns(s: State, op: Op, k: ConnId)
    requires Inv(s) && k in Apply(s, op).conns && (op.DoInstall? || op.Finish? || op.Retire?)
    ensures ConnOk(Apply(s, op), k)
  {
    if k in s.conns { assert ConnOk(s, k); }
  }

  lemma ApplyKeepsConns(s: State, op: Op, k: ConnId)
    requires Inv(s) && k in Apply(s, op).conns
    ensures ConnOk(Apply(s, op), k)
  {
    hide Install, FinishDisconnect;
    if op.DoWrite? {
      if s.active.Picked? && s.active.conn in s.conns { WriteKeepsConns(s, op.write, k); }
    } else if op.LoopReads? || op.LoopFails? || op.LoopGivesUp? || op.Deliver? {
      assert ConnOk(s, k);
      LoopKeepsConns(s, op, k);
    } else if op.DoInstall? || op.Finish? || op.Retire? {
      LifecycleKeepsConns(s, op, k);
    } else {
      assert ConnOk(s, k);
    }
  }

  lemma WriteKeepsActive(s: State, write: Write)
    requires ActiveOk(s) && s.active.Picked? && s.active.conn in s.conns
    ensures ActiveOk(StepWrite(s, write))
  {
  }

  predicate TouchesConns(op: Op) {
    op.DoInstall? || op.LoopReads? || op.LoopFails? || op.LoopGivesUp? || op.Deliver? || op.Retire? || op.Finish?
  }

  /** A connection is not forgotten, what was sent on it stays, and replies handed out stay handed out. */
  lemma SentStays(s: State, op: Op, k: ConnId)
    requires k in s.conns && TouchesConns(op)
    ensures var t := Apply(s, op);
            k in t.conns && t.conns[k].sent == s.conns[k].sent && HandedOut(t.conns[k]) >= HandedOut(s.conns[k])
  {
    if op.LoopReads? || op.LoopFails? {
      LoopLeavesSent(s, op, k);
    } else if op.LoopGivesUp? || op.Deliver? {
      LoopHandsOn(s, op, k);
    }
  }

  lemma LoopLeavesSent(s: State, op: Op, k: ConnId)
    requires k in s.conns && (op.LoopReads? || op.LoopFails?)
    ensures var t := Apply(s, op);
            k in t.conns && t.conns[k].sent == s.conns[k].sent && HandedOut(t.conns[k]) == HandedOut(s.conns[k])
  {
  }

  lemma LoopHandsOn(s: State, op: Op, k: ConnId)
    requires k in s.conns && (op.LoopGivesUp? || op.Deliver?)
    ensures var t := Apply(s, op);
            k in t.conns && t.conns[k].sent == s.conns[k].sent && HandedOut(t.conns[k]) >= HandedOut(s.conns[k])
  {
  }

  lemma ActiveMoves(s: State, op: Op)
    requires TouchesConns(op)
    ensures var t := Apply(s, op);
            && (t.active == s.active || t.active.Idle?)
            && (t.current == s.current || t.current.None? || t.current.value in t.conns)
  {
  }

  lemma ApplyKeepsActive(s: State, op: Op)
    requires ActiveOk(s)
    ensures ActiveOk(Apply(s, op))
  {
    hide StepWrite;
    if op.DoWrite? {
      if s.active.Picked? && s.active.conn in s.conns { WriteKeepsActive(s, op.write); }
    } else if TouchesConns(op) {
      hide Apply;
      ActiveMoves(s, op);
      if s.current.Some? { SentStays(s, op, s.current.value); }
      if s.active.Picked? || s.active.Waiting? || s.active.TimedOut? { SentStays(s, op, s.active.conn); }
    }
  }

  lemma CurrentIsThere(s: State)
    requires ActiveOk(s)
    ensures s.current.Some? ==> s.current.value in s.conns
  {
  }

  lemma ConnStays(s: State, op: Op, k: ConnId)
    requires k in s.conns
    ensures k in Apply(s, op).conns
  {
    hide HandedOut;
    if TouchesConns(op) { SentStays(s, op, k); }
  }

  lemma ClosingGrows(s: State, op: Op, k: ConnId)
    requires k in Apply(s, op).closing
    ensures k in s.closing || s.current == Some(k)
  {
    hide StepWrite;
    if op.DoWrite? && s.active.Picked? && s.active.conn in s.conns { WriteLeavesClosing(s, op.write); }
  }

  lemma WriteLeavesClosing(s: State, write: Write)
    requires s.active.Picked? && s.active.conn in s.conns
    ensures StepWrite(s, write).closing == s.closing
  {
  }

  lemma ConnsStay(s: State, op: Op)
    requires forall k :: k in s.closing ==> k in s.conns
    requires s.current.Some? ==> s.current.value in s.conns
    ensures forall k :: k in Apply(s, op).closing ==> k in Apply(s, op).conns
  {
    hide Apply;
    forall k | k in Apply(s, op).closing ensures k in Apply(s, op).conns {
      ClosingGrows(s, op, k);
      ConnStays(s, op, k);
    }
  }

  lemma WriteKeepsReply(s: State, write: Write, r: Reply)
    requires ReplyOk(s, r) && s.active.Picked? && s.active.conn in s.conns
    ensures ReplyOk(StepWrite(s, write), r)
  {
  }

  lemma ApplyKeepsReply(s: State, op: Op, r: Reply)
    requires ReplyOk(s, r)
    ensures ReplyOk(Apply(s, op), r)
  {
    hide StepWrite;
    if op.DoWrite? {
      if s.active.Picked? && s.active.conn in s.conns { WriteKeepsReply(s, op.write, r); }
    } else if TouchesConns(op) {
      hide Apply;
      SentStays(s, op, r.conn);
    }
  }

  lemma DeliverReturnsItsReply(s: State)
    requires Inv(s) && Apply(s, Deliver).returned != s.returned
    ensures var t := Apply(s, Deliver);
            && |t.returned| == |s.returned| + 1 && t.returned[..|s.returned|] == s.returned
            && ReplyOk(t, t.returned[|s.returned|])
            && forall i :: 0 <= i < |s.returned| && s.returned[i].conn == t.returned[|s.returned|].conn ==>
                 s.returned[i].index < t.returned[|s.returned|].index
  {
    assert ConnOk(s, s.active.conn);
    forall i | 0 <= i < |s.returned| ensures ReplyOk(s, s.returned[i]) {}
  }

  lemma OnlyDeliverReturns(s: State, op: Op)
    ensures !op.Deliver? ==> Apply(s, op).returned == s.returned
  {
  }

  lemma ApplyKeepsInvariant(s: State, op: Op)
    requires Inv(s)
    ensures Inv(Apply(s, op))
  {
    hide Apply, ConnOk, ReplyOk, ActiveOk;
    var t := Apply(s, op);
    ApplyKeepsActive(s, op);
    assert s.current.Some? ==> s.current.value in s.conns by { CurrentIsThere(s); }
    ConnsStay(s, op);
    OnlyDeliverReturns(s, op);
    forall k | k in t.conns ensures ConnOk(t, k) { ApplyKeepsConns(s, op, k); }
    forall i | 0 <= i < |s.returned| ensures ReplyOk(t, s.returned[i]) { ApplyKeepsReply(s, op, s.returned[i]); }
    if op.Deliver? && t.returned != s.returned {
      DeliverReturnsItsReply(s);
      forall i | 0 <= i < |s.returned| ensures t.returned[i] == s.returned[i] {
        assert t.returned[..|s.returned|][i] == s.returned[i];
      }
    }
  }

  lemma {:induction false} RunKeepsInvariant(s: State, ops: seq<Op>)
    requires Inv(s)
    ensures Inv(Run(s, ops))
    decreases |ops|
  {
    if ops != [] {
      ApplyKeepsInvariant(s, ops[0]);
      RunKeepsInvariant(Apply(s, ops[0]), ops[1..]);
    }
  }

  // ---- over every run ----

  /** Any frame a command returns is the reply to that very command: the server's answer to the
      command that was written at that place of that connection. */
  lemma ReplyIsToItsCommand(ops: seq<Op>, i: nat)
    requires i < |Run(INITIAL, ops).returned|
    ensures var s := Run(INITIAL, ops);
            var r := s.returned[i];
            r.conn in s.conns && r.index < |s.conns[r.conn].sent| && s.conns[r.conn].sent[r.index] == r.command
  {
    RunKeepsInvariant(INITIAL, ops);
    assert ReplyOk(Run(INITIAL, ops), Run(INITIAL, ops).returned[i]);
  }

  /** No reply is handed to two commands. */
  lemma RepliesHandedOutOnce(ops: seq<Op>, i: nat, j: nat)
    requires i < j < |Run(INITIAL, ops).returned|
    ensures var s := Run(INITIAL, ops);
            s.returned[i].conn == s.returned[j].conn ==> s.returned[i].index < s.returned[j].index
  {
    RunKeepsInvariant(INITIAL, ops);
  }

  /** While a command waits on a connection whose read loop runs and whose writes went through, the next
      reply off the wire is its own, and is what it returns. */
  lemma AnswerReachesItsCommand(ops: seq<Op>)
    requires var s := Run(INITIAL, ops);
             s.active.Waiting? && s.active.conn in s.conns && !s.conns[s.active.conn].dead &&
                 !s.conns[s.active.conn].loop.Ended?
    ensures var s := Run(INITIAL, ops);
            var k := s.active.conn;
            var t := Apply(Apply(s, LoopReads(k)), Deliver);
            && t.returned == s.returned + [Reply(s.active.command, k, s.active.index)]
            && t.active.Idle? && s.active.index < |s.conns[k].sent| &&
                s.conns[k].sent[s.active.index..] == [s.active.command]
  {
    hide Run;
    RunKeepsInvariant(INITIAL, ops);
    assert ConnOk(Run(INITIAL, ops), Run(INITIAL, ops).active.conn);
  }

  /** However many disconnects race, a connection's done channel is closed at most once, and only after
      the client has let go of that connection. */
  lemma DoneClosedAtMostOnce(ops: seq<Op>, k: ConnId)
    requires k in Run(INITIAL, ops).conns
    ensures var s := Run(INITIAL, ops);
            s.conns[k].doneCloses <= 1 && (s.conns[k].doneCloses == 1 ==> s.current != Some(k))
  {
    RunKeepsInvariant(INITIAL, ops);
    assert ConnOk(Run(INITIAL, ops), k);
  }

  /** Once a waiting command has timed out and retired its connection, that connection is never used
      again: nothing is ever written to it and no command ever waits on it. */
  lemma {:induction false} RetiredNeverReused(s: State, ops: seq<Op>, k: ConnId)
    requires Inv(s) && k in s.conns && s.current != Some(k) && !PickedOn(s, k) && !AwaitedOn(s, k)
    ensures var t := Run(s, ops);
            k in t.conns && t.conns[k].sent == s.conns[k].sent && t.current != Some(k) && !PickedOn(t, k) &&
                !AwaitedOn(t, k)
    decreases |ops|
  {
    if ops != [] {
      ApplyKeepsInvariant(s, ops[0]);
      LetGoStaysLetGo(s, ops[0], k);
      RetiredNeverReused(Apply(s, ops[0]), ops[1..], k);
    }
  }

  lemma LetGoStaysLetGo(s: State, op: Op, k: ConnId)
    requires k in s.conns && s.current != Some(k) && !PickedOn(s, k) && !AwaitedOn(s, k)
    ensures var t := Apply(s, op);
            k in t.conns && t.conns[k].sent == s.conns[k].sent && t.current != Some(k) && !PickedOn(t, k) &&
                !AwaitedOn(t, k)
  {
    hide StepWrite;
    if op.DoWrite? {
      if s.active.Picked? && s.active.conn in s.conns { WriteLeavesOthers(s, op.write, k); }
    } else if TouchesConns(op) {
      hide Apply;
      SentStays(s, op, k);
      StaysAside(s, op, k);
    }
  }

  lemma StaysAside(s: State, op: Op, k: ConnId)
    requires k in s.conns && s.current != Some(k) && !PickedOn(s, k) && !AwaitedOn(s, k) && TouchesConns(op)
    ensures var t := Apply(s, op); t.current != Some(k) && !PickedOn(t, k) && !AwaitedOn(t, k)
  {
  }

  lemma WriteLeavesOthers(s: State, write: Write, k: ConnId)
    requires s.active.Picked? && s.active.conn in s.conns && k in s.conns && k != s.active.conn
    ensures var t := StepWrite(s, write);
            k in t.conns && t.conns[k] == s.conns[k] && t.current == s.current && !PickedOn(t, k) && !AwaitedOn(t, k)
  {
  }

  lemma TimeoutRetires(ops: seq<Op>)
    requires Run(INITIAL, ops).active.TimedOut?
    ensures var s := Run(INITIAL, ops);
            var k, t := s.active.conn, Apply(s, Retire);
            k in t.conns && t.current != Some(k) && !PickedOn(t, k) && !AwaitedOn(t, k) && Inv(t)
  {
    RunKeepsInvariant(INITIAL, ops);
    ApplyKeepsInvariant(Run(INITIAL, ops), Retire);
  }

  // ---- as it runs ----

  class Client {
    var conns: map<ConnId, Conn>
    var current: Option<ConnId>
    var closed: bool
    var active: Active
    var closing: multiset<ConnId>
    var returned: seq<Reply>

    constructor ()
      ensures View() == INITIAL
    {
      conns, current, closed, active, closing, returned := map[], None, false, Idle, multiset{}, [];
    }

    function View(): State
      reads this
    {
      State(conns, current, closed, active, closing, returned)
    }

    method InstallConnection(k: ConnId) returns (installed: bool)
      modifies this
      ensures (View(), installed) == Install(old(View()), k)
    {
      if closed { return false; }
      if current.Some? { return false; }
      conns := conns[k := Conn([], 0, Reading, false, false, 0)];
      current := Some(k);
      return true;
    }

    /** disconnect, when nothing runs between its two halves. */
    method Disconnect(k: ConnId)
      requires k in conns
      modifies this
      ensures View() == if old(current) == Some(k) then FinishDisconnect(Unset(old(View()), k), k) else old(View())
    {
      if current != Some(k) { return; }
      current := None;
      var c := conns[k];
      conns := conns[k := c.(readErr := true, doneCloses := c.doneCloses + 1)];
      assert closing + multiset{k} - multiset{k} == closing;
    }

    /** command, up to where it waits for its reply or returns an error. */
    method SendCommand(command: Command, write: Write)
      requires active.Idle? && (current.Some? ==> current.value in conns)
      modifies this
      ensures View() == Run(old(View()), [Begin(command), Pick, DoWrite(write)])
    {
      ThreeSteps(View(), Begin(command), Pick, DoWrite(write));
      if current.None? { return; }
      var k := current.value;
      match write
      case LineBreak => return;
      case DeadlineFailed => conns := conns[k := conns[k].(dead := true)];
      case WriteFailed(received) =>
        if received { conns := conns[k := conns[k].(sent := conns[k].sent + [command])]; }
        conns := conns[k := conns[k].(dead := true)];
      case ClearFailed =>
        conns := conns[k := conns[k].(sent := conns[k].sent + [command])];
        conns := conns[k := conns[k].(dead := true)];
      case Written =>
        active := Waiting(command, k, |conns[k].sent|);
        conns := conns[k := conns[k].(sent := conns[k].sent + [command])];
    }
  }

  lemma ThreeSteps(s: State, a: Op, b: Op, c: Op)
    ensures Run(s, [a, b, c]) == Apply(Apply(Apply(s, a), b), c)
  {
    hide Apply;
    assert [a, b, c][1..] == [b, c] && [b, c][1..] == [c] && [c][1..] == [];
    assert Run(Apply(Apply(s, a), b), [c]) == Apply(Apply(Apply(s, a), b), c);
    assert Run(Apply(s, a), [b, c]) == Run(Apply(Apply(s, a), b), [c]);
  }
}
