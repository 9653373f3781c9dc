/** The shared backlog counter: incremented by the producer after each send, decremented by the writer
    after each command, in every interleaving, on 64 bits that wrap around. */
module Backlog {

  const WORD: int := 0x1_0000_0000_0000_0000

  datatype Item = Data | ShutdownItem

  datatype Producer = Ready | BetweenSendAndInc | Dropped

  datatype Consumer = Receiving | Processing | Exited

  datatype State = State(counter: nat, queue: seq<Item>, producer: Producer, consumer: Consumer)

  const START: State := State(0, [], Ready, Receiving)

  datatype Step = Send | Inc | SendShutdown | Receive | Dec

  predicate Enabled(s: State, a: Step) {
    match a
    case Send => s.producer.Ready?
    case Inc => s.producer.BetweenSendAndInc?
    case SendShutdown => s.producer.Ready?
    case Receive => s.consumer.Receiving? && s.queue != []
    case Dec => s.consumer.Processing?
  }

  /** Atomic addition and subtraction wrap around; the shutdown is never counted. */
  function Apply(s: State, a: Step): State
    requires Enabled(s, a)
  {
    match a
    case Send => s.(queue := s.queue + [Data], producer := BetweenSendAndInc)
    case Inc => s.(counter := (s.counter + 1) % WORD, producer := Ready)
    case SendShutdown => s.(queue := s.queue + [ShutdownItem], producer := Dropped)
    case Receive => s.(queue := s.queue[1..], consumer := if s.queue[0].Data? then Processing else Exited)
    case Dec => s.(counter := (s.counter - 1) % WORD, consumer := Receiving)
  }

  predicate Leads(from: State, run: seq<Step>, to: State)
    decreases |run|
  {
    if run == [] then to == from else Enabled(from, run[0]) && Leads(Apply(from, run[0]), run[1..], to)
  }

  function DataIn(queue: seq<Item>): nat {
    if queue == [] then 0 else (if queue[0].Data? then 1 else 0) + DataIn(queue[1..])
  }

  lemma {:induction false} DataAppend(queue: seq<Item>, item: Item)
    ensures DataIn(queue + [item]) == DataIn(queue) + if item.Data? then 1 else 0
  {
    if queue == [] {
      assert [item][1..] == [];
    } else {
      DataAppend(queue[1..], item);
      assert (queue + [item])[1..] == queue[1..] + [item];
    }
  }

  /** Queued and in process, less one while the producer has sent but not counted yet. */
  function Outstanding(s: State): int {
    DataIn(s.queue) + (if s.consumer.Processing? then 1 else 0) - if s.producer.BetweenSendAndInc? then 1 else 0
  }

  /** The shutdown is sent last and once, and the writer leaves only on it. */
  predicate ShutdownLast(s: State) {
    && (forall i :: 0 <= i < |s.queue| - 1 ==> s.queue[i].Data?)
    && (s.consumer.Exited? ==> s.queue == [] && s.producer.Dropped?)
    && (if s.producer.Dropped? then s.consumer.Exited? || (s.queue != [] && s.queue[|s.queue| - 1].ShutdownItem?)
        else forall i :: 0 <= i < |s.queue| ==> s.queue[i].Data?)
  }

  predicate Counted(s: State) {
    s.counter == Outstanding(s) % WORD && ShutdownLast(s)
  }

  lemma {:induction false} ModUp(a: int)
    ensures (a % WORD + 1) % WORD == (a + 1) % WORD
    ensures (a % WORD - 1) % WORD == (a - 1) % WORD
  {
  }

  lemma {:induction false} StepCounts(s: State, a: Step)
    requires Counted(s) && Enabled(s, a)
    ensures Counted(Apply(s, a))
  {
    ModUp(Outstanding(s));
    match a
    case Send => DataAppend(s.queue, Data);
    case SendShutdown => DataAppend(s.queue, ShutdownItem);
    case _ =>
  }

  /** In every reachable state the counter is what is outstanding, modulo 2^64. */
  lemma {:induction false} RunCounts(s: State, run: seq<Step>, s': State)
    requires Counted(s) && Leads(s, run, s')
    ensures Counted(s')
    decreases |run|
  {
    if run != [] {
      StepCounts(s, run[0]);
      RunCounts(Apply(s, run[0]), run[1..], s');
    }
  }

  lemma {:induction false} BacklogIsOutstanding(run: seq<Step>, s: State)
    requires Leads(START, run, s)
    ensures s.counter == Outstanding(s) % WORD
  {
    RunCounts(START, run, s);
  }

  /** When the writer has exited, everything was drained and the counter is exactly zero. */
  lemma {:induction false} DrainedMeansZero(run: seq<Step>, s: State)
    requires Leads(START, run, s) && s.consumer.Exited?
    ensures s.counter == 0 && s.queue == []
  {
    RunCounts(START, run, s);
  }

  /** Exactly when a reader sees a huge backlog: the one command outstanding has been processed before
      it was counted. */
  lemma {:induction false} WrapsOnlyWhenOvertaken(run: seq<Step>, s: State)
    requires Leads(START, run, s) && DataIn(s.queue) < WORD - 2
    ensures s.counter == WORD - 1 <==> s.producer.BetweenSendAndInc? && s.consumer.Receiving? && s.queue == []
  {
    RunCounts(START, run, s);
    if s.queue != [] {
      assert s.producer.BetweenSendAndInc? ==> s.queue[0].Data?;
    }
  }

  /** And it does happen. */
  lemma {:induction false} OvertakingRun()
    ensures Leads(START, [Send, Receive, Dec], State(WORD - 1, [], BetweenSendAndInc, Receiving))
  {
    var s1 := Apply(START, Send);
    assert s1.queue == [Data];
    var s2 := Apply(s1, Receive);
    assert [Data][1..] == [];
    var s3 := Apply(s2, Dec);
    assert [Send, Receive, Dec][1..] == [Receive, Dec] && [Receive, Dec][1..] == [Dec] && [Dec][1..] == [];
    assert Leads(s3, [], s3);
    assert Leads(s2, [Dec], s3);
    assert Leads(s1, [Receive, Dec], s3);
  }
}
