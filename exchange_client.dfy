/**
 * exchange/ExchangeWebSocketClient: a socket client that forwards every frame
 * to a handler and reconnects after a close or an error. The scheduled
 * executor is abstract: every task it was given is kept in `tasks` with its
 * delay and its status, and `reconnectFuture` is the index of the task in the
 * reconnectFuture field. A task runs when the environment calls
 * RunReconnectTask; socket I/O is reduced to the outcome of that run.
 */
module ExchangeClient {
  import opened Wrappers
  import GzipUtil

  /** RECONNECT_DELAY_SECONDS. */
  const ReconnectDelaySeconds: int := 5

  datatype Status = Pending | Running | Done | Cancelled

  datatype Task = Task(delaySeconds: int, status: Status)

  /** Future.isDone() is false exactly while the task has not finished or been cancelled. */
  predicate Live(t: Task) {
    t.status == Pending || t.status == Running
  }

  /** How reconnectBlocking() ends: it returns true, returns false, or throws. */
  datatype Outcome = Connected | Refused | Threw

  /** A java.nio.ByteBuffer: backing bytes and a read position; the limit is the end. */
  datatype ByteBuffer = ByteBuffer(data: seq<GzipUtil.byte>, position: nat)

  predicate WellFormed(b: ByteBuffer) {
    b.position <= |b.data|
  }

  /** The bytes bytes.get(new byte[bytes.remaining()]) copies out. */
  function Remaining(b: ByteBuffer): (r: seq<GzipUtil.byte>)
    requires WellFormed(b)
    ensures |r| == |b.data| - b.position
    ensures forall i :: 0 <= i < |r| ==> r[i] == b.data[b.position + i]
  {
    b.data[b.position..]
  }

  /** What the handler was given: a text frame as is, a binary frame as a byte array. */
  datatype Frame = TextFrame(text: string) | BinaryFrame(bytes: seq<GzipUtil.byte>)

  function CountLive(tasks: seq<Task>): nat {
    if tasks == [] then 0 else CountLive(tasks[..|tasks| - 1]) + (if Live(tasks[|tasks| - 1]) then 1 else 0)
  }

  /** Only the task in the slot can still be live. */
  predicate OnlySlotLive(tasks: seq<Task>, slot: Option<nat>) {
    && (slot.Some? ==> slot.value < |tasks|)
    && forall i :: 0 <= i < |tasks| && Live(tasks[i]) ==> slot == Some(i)
  }

  /** Hence at most one reconnect is ever pending or running: the slot's task, if it is live. */
  lemma {:induction false} AtMostOneLive(tasks: seq<Task>, slot: Option<nat>)
    requires OnlySlotLive(tasks, slot)
    ensures CountLive(tasks) == if slot.Some? && Live(tasks[slot.value]) then 1 else 0
  {
    if tasks != [] {
      var init := tasks[..|tasks| - 1];
      var last := |tasks| - 1;
      var s := if slot.Some? && slot.value < |init| then slot else None;
      assert OnlySlotLive(init, s) by {
        forall i | 0 <= i < |init|
          ensures Live(init[i]) ==> s == Some(i)
        {
          assert tasks[i] == init[i];
        }
      }
      AtMostOneLive(init, s);
      if s.Some? {
        assert init[s.value] == tasks[s.value];
      }
    }
  }

  class ExchangeWebSocketClient {
    var isReconnecting: bool
    /** reconnectExecutor.isShutdown(); nothing in the client shuts it down. */
    var executorShutdown: bool
    var tasks: seq<Task>
    var reconnectFuture: Option<nat>
    /** The frames passed to messageHandler.accept, in order. */
    var forwarded: seq<Frame>

    /** The flag is only ever set together with scheduling a task, and only the slot's task is live. */
    ghost predicate Valid()
      reads this
    {
      && OnlySlotLive(tasks, reconnectFuture)
      && (isReconnecting ==> reconnectFuture.Some? && Live(tasks[reconnectFuture.value]))
    }

    /** The number of reconnect tasks still pending or running. */
    function LiveTasks(): nat
      reads this
    {
      CountLive(tasks)
    }

    constructor ()
      ensures Valid()
      ensures !isReconnecting && !executorShutdown && tasks == [] && reconnectFuture == None && forwarded == []
    {
      isReconnecting, executorShutdown, tasks, reconnectFuture, forwarded := false, false, [], None, [];
    }

    method OnOpen()
      requires Valid()
      modifies this
      ensures Valid()
      ensures !isReconnecting
      ensures executorShutdown == old(executorShutdown) && tasks == old(tasks)
      ensures reconnectFuture == old(reconnectFuture) && forwarded == old(forwarded)
    {
      isReconnecting := false;
    }

    /** onMessage(String): the text goes to the handler unchanged; handler errors are swallowed. */
    method OnTextMessage(message: string)
      modifies this
      ensures forwarded == old(forwarded) + [TextFrame(message)]
      ensures isReconnecting == old(isReconnecting) && executorShutdown == old(executorShutdown)
      ensures tasks == old(tasks) && reconnectFuture == old(reconnectFuture)
    {
      forwarded := forwarded + [TextFrame(message)];
    }

    /** onMessage(ByteBuffer): the handler gets a copy of the remaining bytes. */
    method OnBinaryMessage(bytes: ByteBuffer)
      requires WellFormed(bytes)
      modifies this
      ensures forwarded == old(forwarded) + [BinaryFrame(Remaining(bytes))]
      ensures isReconnecting == old(isReconnecting) && executorShutdown == old(executorShutdown)
      ensures tasks == old(tasks) && reconnectFuture == old(reconnectFuture)
    {
      forwarded := forwarded + [BinaryFrame(Remaining(bytes))];
    }

    /** onClose: asks for a reconnect unless one is already under way. */
    method OnClose()
      requires Valid()
      modifies this
      ensures Valid() && forwarded == old(forwarded) && executorShutdown == old(executorShutdown)
      ensures old(isReconnecting) || executorShutdown ==>
        isReconnecting == old(isReconnecting) && tasks == old(tasks) && reconnectFuture == old(reconnectFuture)
      ensures !old(isReconnecting) && !executorShutdown ==>
        && isReconnecting
        && |tasks| == |old(tasks)| + 1
        && tasks[|old(tasks)|] == Task(ReconnectDelaySeconds, Pending)
        && reconnectFuture == Some(|old(tasks)|)
        && (forall i :: 0 <= i < |old(tasks)| ==>
              tasks[i] == if Live(old(tasks)[i]) then old(tasks)[i].(status := Cancelled) else old(tasks)[i])
    {
      if !isReconnecting {
        ScheduleReconnect();
      }
    }

    /** onError: the same rule as onClose. */
    method OnError()
      requires Valid()
      modifies this
      ensures Valid() && forwarded == old(forwarded) && executorShutdown == old(executorShutdown)
      ensures old(isReconnecting) || executorShutdown ==>
        isReconnecting == old(isReconnecting) && tasks == old(tasks) && reconnectFuture == old(reconnectFuture)
      ensures !old(isReconnecting) && !executorShutdown ==>
        && isReconnecting
        && |tasks| == |old(tasks)| + 1
        && tasks[|old(tasks)|] == Task(ReconnectDelaySeconds, Pending)
        && reconnectFuture == Some(|old(tasks)|)
        && (forall i :: 0 <= i < |old(tasks)| ==>
              tasks[i] == if Live(old(tasks)[i]) then old(tasks)[i].(status := Cancelled) else old(tasks)[i])
    {
      if !isReconnecting {
        ScheduleReconnect();
      }
    }

    /**
     * scheduleReconnect: a no-op while reconnecting or once the executor is
     * shut down; otherwise sets the flag, cancels the slot's task if it is not
     * done, and puts exactly one new task, 5 seconds out, in the slot.
     */
    method ScheduleReconnect()
      requires Valid()
      modifies this
      ensures Valid() && forwarded == old(forwarded) && executorShutdown == old(executorShutdown)
      ensures old(isReconnecting) || executorShutdown ==>
        isReconnecting == old(isReconnecting) && tasks == old(tasks) && reconnectFuture == old(reconnectFuture)
      ensures !old(isReconnecting) && !executorShutdown ==>
        && isReconnecting
        && |tasks| == |old(tasks)| + 1
        && tasks[|old(tasks)|] == Task(ReconnectDelaySeconds, Pending)
        && reconnectFuture == Some(|old(tasks)|)
        && (forall i :: 0 <= i < |old(tasks)| ==>
              tasks[i] == if Live(old(tasks)[i]) then old(tasks)[i].(status := Cancelled) else old(tasks)[i])
    {
      if isReconnecting || executorShutdown {
        return;
      }
      isReconnecting := true;
      CancelExistingReconnectTask();
      ScheduleNewReconnectTask();
    }

    /** cancelExistingReconnectTask: cancel(false) on the slot's task if it is not done. */
    method CancelExistingReconnectTask()
      requires OnlySlotLive(tasks, reconnectFuture)
      modifies this
      ensures OnlySlotLive(tasks, reconnectFuture) && reconnectFuture == old(reconnectFuture)
      ensures isReconnecting == old(isReconnecting) && executorShutdown == old(executorShutdown) && forwarded == old(forwarded)
      ensures |tasks| == |old(tasks)|
      ensures forall i :: 0 <= i < |tasks| ==>
        tasks[i] == if Live(old(tasks)[i]) then old(tasks)[i].(status := Cancelled) else old(tasks)[i]
      ensures CountLive(tasks) == 0 && forall i :: 0 <= i < |tasks| ==> !Live(tasks[i])
    {
      if reconnectFuture.Some? && Live(tasks[reconnectFuture.value]) {
        tasks := tasks[reconnectFuture.value := tasks[reconnectFuture.value].(status := Cancelled)];
      }
      AtMostOneLive(tasks, reconnectFuture);
    }

    method ScheduleNewReconnectTask()
      requires isReconnecting && forall i :: 0 <= i < |tasks| ==> !Live(tasks[i])
      modifies this
      ensures Valid()
      ensures tasks == old(tasks) + [Task(ReconnectDelaySeconds, Pending)] && reconnectFuture == Some(|old(tasks)|)
      ensures isReconnecting && executorShutdown == old(executorShutdown) && forwarded == old(forwarded)
    {
      tasks := tasks + [Task(ReconnectDelaySeconds, Pending)];
      reconnectFuture := Some(|tasks| - 1);
    }

    /** handleReconnectFailure: clears the flag and schedules again; there is no retry limit. */
    method HandleReconnectFailure()
      requires OnlySlotLive(tasks, reconnectFuture)
      modifies this
      ensures Valid() && forwarded == old(forwarded) && executorShutdown == old(executorShutdown)
      ensures executorShutdown ==> !isReconnecting && tasks == old(tasks) && reconnectFuture == old(reconnectFuture)
      ensures !executorShutdown ==>
        && isReconnecting
        && |tasks| == |old(tasks)| + 1
        && tasks[|old(tasks)|] == Task(ReconnectDelaySeconds, Pending)
        && reconnectFuture == Some(|old(tasks)|)
        && (forall i :: 0 <= i < |old(tasks)| ==>
              tasks[i] == if Live(old(tasks)[i]) then old(tasks)[i].(status := Cancelled) else old(tasks)[i])
    {
      isReconnecting := false;
      ScheduleReconnect();
    }


    /**
     * performReconnect, with handleReconnectFailure for a throw, as the task
     * body runs them. `wasOpen` is isOpen() at that moment: close() then
     * reports through onClose. A refused connection reports through onError
     * and onClose before reconnectBlocking returns false, and the source then
     * clears the flag as if it had connected.
     */
    method PerformReconnect(wasOpen: bool, outcome: Outcome)
      requires Valid() && reconnectFuture.Some? && tasks[reconnectFuture.value].status == Running
      modifies this
      ensures Valid() && forwarded == old(forwarded) && executorShutdown == old(executorShutdown)
      ensures isReconnecting <==> outcome == Threw && !executorShutdown
      ensures Ran(old(tasks), old(reconnectFuture).value, Running,
                  Reschedules(old(isReconnecting), executorShutdown, wasOpen, outcome), tasks, reconnectFuture)
    {
      ghost var before, me := tasks, reconnectFuture.value;
      ghost var k: nat := 0;
      ghost var mid, midSlot, flag := tasks, reconnectFuture, isReconnecting;
      if wasOpen {
        OnClose();
        CallbackKeepsRun(before, me, k, mid, midSlot, tasks, reconnectFuture, !flag && !executorShutdown);
        k := k + if !flag && !executorShutdown then 1 else 0;
      }
      match outcome {
        case Connected =>
          OnOpen();
          isReconnecting := false;
        case Refused =>
          mid, midSlot, flag := tasks, reconnectFuture, isReconnecting;
          OnError();
          CallbackKeepsRun(before, me, k, mid, midSlot, tasks, reconnectFuture, !flag && !executorShutdown);
          k := k + if !flag && !executorShutdown then 1 else 0;
          mid, midSlot, flag := tasks, reconnectFuture, isReconnecting;
          OnClose();
          CallbackKeepsRun(before, me, k, mid, midSlot, tasks, reconnectFuture, !flag && !executorShutdown);
          k := k + if !flag && !executorShutdown then 1 else 0;
          isReconnecting := false;
        case Threw =>
          mid, midSlot := tasks, reconnectFuture;
          HandleReconnectFailure();
          CallbackKeepsRun(before, me, k, mid, midSlot, tasks, reconnectFuture, !executorShutdown);
          k := k + if !executorShutdown then 1 else 0;
      }
      assert k == Reschedules(old(isReconnecting), executorShutdown, wasOpen, outcome);
    }

    /**
     * The executor runs the slot's pending task. The flag is whatever the
     * callbacks left it: onOpen may have cleared it while the task waited.
     */
    method RunReconnectTask(wasOpen: bool, outcome: Outcome)
      requires Valid() && reconnectFuture.Some? && tasks[reconnectFuture.value].status == Pending
      modifies this
      ensures Valid() && forwarded == old(forwarded) && executorShutdown == old(executorShutdown)
      ensures isReconnecting <==> outcome == Threw && !executorShutdown
      ensures Ran(old(tasks), old(reconnectFuture).value, Done,
                  Reschedules(old(isReconnecting), executorShutdown, wasOpen, outcome), tasks, reconnectFuture)
      ensures LiveTasks() == if Reschedules(old(isReconnecting), executorShutdown, wasOpen, outcome) == 0 then 0 else 1
    {
      var me := reconnectFuture.value;
      tasks := tasks[me := tasks[me].(status := Running)];
      PerformReconnect(wasOpen, outcome);
      if tasks[me].status == Running {
        tasks := tasks[me := tasks[me].(status := Done)];
      }
      AtMostOneLive(tasks, reconnectFuture);
    }

    /**
     * The evidently intended performReconnect: reconnectBlocking's `false`
     * is a failed attempt, handled like a throw, so a refused connection is
     * retried.
     */
    method PerformReconnectChecked(wasOpen: bool, outcome: Outcome)
      requires Valid() && reconnectFuture.Some? && tasks[reconnectFuture.value].status == Running
      modifies this
      ensures Valid() && forwarded == old(forwarded) && executorShutdown == old(executorShutdown)
      ensures isReconnecting <==> outcome != Connected && !executorShutdown
      ensures Ran(old(tasks), old(reconnectFuture).value, Running,
                  ReschedulesChecked(old(isReconnecting), executorShutdown, wasOpen, outcome), tasks, reconnectFuture)
    {
      ghost var before, me := tasks, reconnectFuture.value;
      ghost var k: nat := 0;
      ghost var mid, midSlot, flag := tasks, reconnectFuture, isReconnecting;
      if wasOpen {
        OnClose();
        CallbackKeepsRun(before, me, k, mid, midSlot, tasks, reconnectFuture, !flag && !executorShutdown);
        k := k + if !flag && !executorShutdown then 1 else 0;
      }
      if outcome == Connected {
        OnOpen();
        isReconnecting := false;
      } else {
        if outcome == Refused {
          mid, midSlot, flag := tasks, reconnectFuture, isReconnecting;
          OnError();
          CallbackKeepsRun(before, me, k, mid, midSlot, tasks, reconnectFuture, !flag && !executorShutdown);
          k := k + if !flag && !executorShutdown then 1 else 0;
          mid, midSlot, flag := tasks, reconnectFuture, isReconnecting;
          OnClose();
          CallbackKeepsRun(before, me, k, mid, midSlot, tasks, reconnectFuture, !flag && !executorShutdown);
          k := k + if !flag && !executorShutdown then 1 else 0;
        }
        mid, midSlot := tasks, reconnectFuture;
        HandleReconnectFailure();
        CallbackKeepsRun(before, me, k, mid, midSlot, tasks, reconnectFuture, !executorShutdown);
        k := k + if !executorShutdown then 1 else 0;
      }
      assert k == ReschedulesChecked(old(isReconnecting), executorShutdown, wasOpen, outcome);
    }

    /** The task body with the corrected performReconnect. */
    method RunReconnectTaskChecked(wasOpen: bool, outcome: Outcome)
      requires Valid() && reconnectFuture.Some? && tasks[reconnectFuture.value].status == Pending
      modifies this
      ensures Valid() && forwarded == old(forwarded) && executorShutdown == old(executorShutdown)
      ensures isReconnecting <==> outcome != Connected && !executorShutdown
      ensures Ran(old(tasks), old(reconnectFuture).value, Done,
                  ReschedulesChecked(old(isReconnecting), executorShutdown, wasOpen, outcome), tasks, reconnectFuture)
      ensures LiveTasks() == if ReschedulesChecked(old(isReconnecting), executorShutdown, wasOpen, outcome) == 0 then 0 else 1
    {
      var me := reconnectFuture.value;
      tasks := tasks[me := tasks[me].(status := Running)];
      PerformReconnectChecked(wasOpen, outcome);
      if tasks[me].status == Running {
        tasks := tasks[me := tasks[me].(status := Done)];
      }
      AtMostOneLive(tasks, reconnectFuture);
    }
  }

  /**
   * How many reconnect tasks one run of the task body schedules. close() on
   * an open socket reports through onClose, which schedules only while the
   * flag is clear and then sets it. A refusal reports through onError and
   * onClose under the same rule. A throw goes to handleReconnectFailure,
   * which clears the flag and always schedules. A shut-down executor
   * schedules nothing.
   */
  function Reschedules(wasReconnecting: bool, shutdown: bool, wasOpen: bool, outcome: Outcome): nat {
    if shutdown then 0
    else
      var byClose := if wasOpen && !wasReconnecting then 1 else 0;
      match outcome
      case Connected => byClose
      case Refused => byClose + (if wasOpen || wasReconnecting then 0 else 1)
      case Threw => byClose + 1
  }

  /** The same count when a refusal is also handed to handleReconnectFailure. */
  function ReschedulesChecked(wasReconnecting: bool, shutdown: bool, wasOpen: bool, outcome: Outcome): nat {
    if shutdown || outcome != Refused then Reschedules(wasReconnecting, shutdown, wasOpen, outcome)
    else Reschedules(wasReconnecting, shutdown, wasOpen, outcome) + 1
  }

  /** As written, a refusal during a reconnect schedules nothing; the corrected body always schedules one retry. */
  lemma RefusalWhileReconnecting(wasOpen: bool)
    ensures Reschedules(true, false, wasOpen, Refused) == 0
    ensures ReschedulesChecked(true, false, wasOpen, Refused) == 1
  {
  }

  /** With the correction, every failed attempt on a running executor leaves a retry. */
  lemma CheckedFailureRetries(wasReconnecting: bool, wasOpen: bool, outcome: Outcome)
    requires outcome != Connected
    ensures ReschedulesChecked(wasReconnecting, false, wasOpen, outcome) >= 1
  {
  }

  /**
   * The tasks after the slot's task `me` ran and scheduled `k` reconnects.
   * With none, `me` ends as `finished` and stays in the slot. Otherwise the
   * first schedule cancelled `me`, each later one cancelled the task before
   * it, and the last new task is pending in the slot.
   */
  ghost predicate Ran(before: seq<Task>, me: nat, finished: Status, k: nat, after: seq<Task>, slot: Option<nat>) {
    && me < |before|
    && |after| == |before| + k
    && (forall i :: 0 <= i < |before| && i != me ==> after[i] == before[i])
    && after[me] == before[me].(status := if k == 0 then finished else Cancelled)
    && (forall i :: |before| <= i < |after| ==>
          after[i] == Task(ReconnectDelaySeconds, if i == |after| - 1 then Pending else Cancelled))
    && slot == Some(if k == 0 then me else |after| - 1)
  }

  /** A callback during a run either changes nothing or schedules one more reconnect. */
  lemma CallbackKeepsRun(before: seq<Task>, me: nat, k: nat, mid: seq<Task>, midSlot: Option<nat>,
                         after: seq<Task>, afterSlot: Option<nat>, scheduled: bool)
    requires Ran(before, me, Running, k, mid, midSlot) && before[me].status == Running
    requires OnlySlotLive(before, Some(me))
    requires !scheduled ==> after == mid && afterSlot == midSlot
    requires scheduled ==>
      && |after| == |mid| + 1 && after[|mid|] == Task(ReconnectDelaySeconds, Pending) && afterSlot == Some(|mid|)
      && forall i :: 0 <= i < |mid| ==> after[i] == if Live(mid[i]) then mid[i].(status := Cancelled) else mid[i]
    ensures Ran(before, me, Running, k + (if scheduled then 1 else 0), after, afterSlot)
  {
    if scheduled {
      forall i | 0 <= i < |before| && i != me
        ensures after[i] == before[i]
      {
        assert !Live(before[i]);
        assert mid[i] == before[i];
      }
      assert after[me] == before[me].(status := Cancelled) by {
        assert mid[me] == before[me].(status := if k == 0 then Running else Cancelled);
      }
      forall i | |before| <= i < |after|
        ensures after[i] == Task(ReconnectDelaySeconds, if i == |after| - 1 then Pending else Cancelled)
      {
        if i < |mid| {
          assert mid[i] == Task(ReconnectDelaySeconds, if i == |mid| - 1 then Pending else Cancelled);
        }
      }
    }
  }

  /** As written: one refused reconnect leaves the client closed with nothing scheduled. */
  method RefusedReconnectStopsRetrying() returns (c: ExchangeWebSocketClient)
    ensures !c.isReconnecting && c.LiveTasks() == 0 && |c.tasks| == 1 && c.tasks[0].status == Done
  {
    c := new ExchangeWebSocketClient();
    c.OnClose();
    c.RunReconnectTask(false, Refused);
  }

  /** Corrected: after the same refusal a retry is pending, 5 seconds out. */
  method RefusedReconnectIsRetried() returns (c: ExchangeWebSocketClient)
    ensures c.isReconnecting && c.LiveTasks() == 1 && |c.tasks| == 2
    ensures c.tasks[0].status == Cancelled && c.tasks[1] == Task(ReconnectDelaySeconds, Pending)
  {
    c := new ExchangeWebSocketClient();
    c.OnClose();
    c.RunReconnectTaskChecked(false, Refused);
  }

  /**
   * When onOpen clears the flag while a reconnect waits, the task still runs:
   * it closes the open socket, whose onClose schedules another reconnect, and
   * it reconnects. The client is left connected with the flag clear and a new
   * task pending, so the next onOpen does not cancel it either.
   */
  method OpenBeforeTaskRunsReconnectsAgain() returns (c: ExchangeWebSocketClient)
    ensures !c.isReconnecting && c.LiveTasks() == 1 && |c.tasks| == 2
    ensures c.tasks[0].status == Cancelled && c.tasks[1] == Task(ReconnectDelaySeconds, Pending)
    ensures c.reconnectFuture == Some(1)
  {
    c := new ExchangeWebSocketClient();
    c.OnClose();
    c.OnOpen();
    c.RunReconnectTask(true, Connected);
  }
}
