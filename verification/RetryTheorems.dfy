/** What holds over whole runs of the retry protocol. */
module RetryTheorems {
  import opened RetryModel
  import opened RetryInvariant
  import opened RetryBrokerRun
  import opened RetryDispatchRun

  lemma TakeKeeps(s: State, i: nat, added: bool)
    requires Inv(s) && Enabled(s, Take(i, added))
    ensures Inv(Apply(s, Take(i, added)))
  {
    hide Inv, Apply;
    if s.bps[i].input[0].Syn? { TakeSynKeeps(s, i, added); }
    else if NeedsRetry(s.bps[i]) { TakeBackKeeps(s, i, added); }
    else { TakeAddKeeps(s, i, added); }
  }

  lemma RespondKeeps(s: State, i: nat, reply: Reply)
    requires Inv(s) && Enabled(s, Respond(i, reply))
    ensures Inv(Apply(s, Respond(i, reply)))
  {
    hide ViewInv;
    assert AllData(s.bps[i].sent) by { assert Health(s.bps[i], s.max); }
    IdsOfData(s.bps[i].sent);
    match reply
    case Acked => AckedKeeps(s, i);
    case Retriable => RetriableKeeps(s, i);
    case Refused =>
      assert Health(s.bps[i], s.max);
      SettleKeeps(s, Apply(s, Respond(i, reply)), i);
    case Dropped => SettleKeeps(s, Apply(s, Respond(i, reply)), i);
  }

  lemma ControlKeeps(s: State, step: Step)
    requires Inv(s) && Enabled(s, step) && (step.Shutdown? || step.TakeShutdown? || step.CloseChannels?)
    ensures Inv(Apply(s, step))
  {
    hide ViewInv, Health, OfVisit;
    assert ViewOf(Apply(s, step)) == ViewOf(s);
  }

  /** Every step keeps the invariant. */
  lemma StepKeeps(s: State, step: Step)
    requires Inv(s) && Enabled(s, step)
    ensures Inv(Apply(s, step))
  {
    hide Inv, Apply;
    match step
    case Submit(accepted) => SubmitKeeps(s, accepted);
    case Feed => FeedKeeps(s);
    case Dispatch(leaders) => DispatchKeeps(s, leaders);
    case Take(i, added) => TakeKeeps(s, i, added);
    case Emit(i) => EmitKeeps(s, i);
    case Flush(i) => FlushKeeps(s, i);
    case Respond(i, reply) => RespondKeeps(s, i, reply);
    case ConnectionLost(i) => ConnectionLostKeeps(s, i);
    case Shutdown => ControlKeeps(s, step);
    case TakeShutdown => ControlKeeps(s, step);
    case CloseChannels => ControlKeeps(s, step);
  }

  lemma {:induction false} RunKeeps(s: State, steps: seq<Step>)
    requires Inv(s) && ValidRun(s, steps)
    ensures Inv(Run(s, steps))
    decreases |steps|
  {
    hide Inv;
    if steps != [] {
      StepKeeps(s, steps[0]);
      RunKeeps(Apply(s, steps[0]), steps[1..]);
    }
  }

  // --------------------------------------------------------------------------- order

  /** Whatever fails, is retried, changes leader or is submitted in between, acknowledged messages
      are in submission order, each at most once. */
  lemma AcksFollowSubmissionOrder(max: nat, prefetched: bool, steps: seq<Step>)
    requires max > 0 && ValidRun(Init(max, prefetched), steps)
    ensures var s := Run(Init(max, prefetched), steps);
            Increasing(s.acked) && forall k :: 0 <= k < |s.acked| ==> s.acked[k] < s.submitted
  {
    InitInv(max, prefetched);
    RunKeeps(Init(max, prefetched), steps);
  }

  ghost predicate Leads(s: State, steps: seq<Step>, t: State) {
    ValidRun(s, steps) && Run(s, steps) == t
  }

  lemma OneMore(s: State, step: Step, t: State, rest: seq<Step>, u: State)
    requires Enabled(s, step) && Apply(s, step) == t && Leads(t, rest, u)
    ensures Leads(s, [step] + rest, u)
  {
    assert ([step] + rest)[1..] == rest;
  }

  lemma {:induction false} Joined(s: State, a: seq<Step>, t: State, b: seq<Step>, u: State)
    requires Leads(s, a, t) && Leads(t, b, u)
    ensures Leads(s, a + b, u)
    decreases |a|
  {
    if a == [] {
      assert a + b == b;
    } else {
      Joined(Apply(s, a[0]), a[1..], t, b, u);
      assert (a + b)[1..] == a[1..] + b;
    }
  }

  /** A state with retries turned off. */
  ghost function Off(submitted: nat, ppIn: seq<Msg>, cur: nat, bps: seq<BrokerProducer>,
                     acked: seq<nat>, failed: seq<nat>, inFlight: int): State
  {
    State(0, submitted, ppIn, [], 0, [[]], [false], [0], Some(cur), bps, acked, failed, 0, inFlight, false, false, false)
  }

  ghost function Held(sent: seq<Msg>, buffer: seq<Msg>, input: seq<Msg>, abandoned: bool): BrokerProducer {
    BrokerProducer([], sent, buffer, input, false, false, abandoned)
  }

  lemma Lists<T>(x: T, y: T, z: T)
    ensures [x][1..] == [] && [x, y][1..] == [y] && [x, y, z][1..] == [y, z] && [] + [x] == [x]
    ensures [x] + [y] == [x, y] && [x, y] + [z] == [x, y, z]
    ensures [x][0 := z] == [z] && [x, y][0 := z] == [z, y] && [x, y][1 := z] == [x, z]
  {
  }

  /** Three messages are submitted and the prefetched broker producer opens. */
  lemma Submitted(s: State, t: State) returns (steps: seq<Step>)
    requires s == Off(0, [], 0, [Held([], [], [Syn], false)], [], [], 1)
    requires t == Off(3, [Data(0, 0), Data(1, 0), Data(2, 0)], 0, [Held([], [], [], false)], [], [], 3)
    ensures Leads(s, steps, t)
  {
    hide Leads;
    var s1 := Off(1, [Data(0, 0)], 0, [Held([], [], [Syn], false)], [], [], 2);
    var s2 := Off(2, [Data(0, 0), Data(1, 0)], 0, [Held([], [], [Syn], false)], [], [], 3);
    var s3 := Off(3, [Data(0, 0), Data(1, 0), Data(2, 0)], 0, [Held([], [], [Syn], false)], [], [], 4);
    Lists(Data(0, 0), Data(0, 0), Data(0, 0));
    Lists(Data(0, 0), Data(1, 0), Data(1, 0));
    Lists(Data(0, 0), Data(1, 0), Data(2, 0));
    Lists(Data(1, 0), Data(1, 0), Data(1, 0));
    Lists(Data(2, 0), Data(2, 0), Data(2, 0));
    Lists(Held([], [], [Syn], false), Held([], [], [Syn], false), Held([], [], [], false));
    Lists(Syn, Data(2, 0), Data(2, 0));
    steps := [];
    Done(t);
    OneMore(s3, Take(0, true), t, steps, t);
    steps := [Take(0, true)] + steps;
    OneMore(s2, Submit(true), s3, steps, t);
    steps := [Submit(true)] + steps;
    OneMore(s1, Submit(true), s2, steps, t);
    steps := [Submit(true)] + steps;
    OneMore(s, Submit(true), s1, steps, t);
    steps := [Submit(true)] + steps;
  }

  /** The first is sent by broker producer 0. */
  lemma FirstSent(s: State, t: State) returns (steps: seq<Step>)
    requires s == Off(3, [Data(0, 0), Data(1, 0), Data(2, 0)], 0, [Held([], [], [], false)], [], [], 3)
    requires t == Off(3, [Data(1, 0), Data(2, 0)], 0, [Held([Data(0, 0)], [], [], false)], [], [], 3)
    ensures Leads(s, steps, t)
  {
    hide Leads;
    var s5 := Off(3, [Data(1, 0), Data(2, 0)], 0, [Held([], [], [Data(0, 0)], false)], [], [], 3);
    var s6 := Off(3, [Data(1, 0), Data(2, 0)], 0, [Held([], [Data(0, 0)], [], false)], [], [], 3);
    Lists(Data(0, 0), Data(0, 0), Data(0, 0));
    Lists(Data(0, 0), Data(1, 0), Data(2, 0));
    Lists(Data(1, 0), Data(1, 0), Data(1, 0));
    Lists(Data(1, 0), Data(2, 0), Data(2, 0));
    Lists(Data(2, 0), Data(2, 0), Data(2, 0));
    Lists(Held([], [Data(0, 0)], [], false), Held([], [Data(0, 0)], [], false), Held([Data(0, 0)], [], [], false));
    Lists(Held([], [], [Data(0, 0)], false), Held([], [], [Data(0, 0)], false), Held([], [Data(0, 0)], [], false));
    Lists(Held([], [], [], false), Held([], [], [], false), Held([], [], [Data(0, 0)], false));
    steps := [];
    Done(t);
    OneMore(s6, Flush(0), t, steps, t);
    steps := [Flush(0)] + steps;
    OneMore(s5, Take(0, true), s6, steps, t);
    steps := [Take(0, true)] + steps;
    OneMore(s, Dispatch([]), s5, steps, t);
    steps := [Dispatch([])] + steps;
  }

  /** The second waits behind it when it fails with a retriable error. */
  lemma FirstFails(s: State, t: State) returns (steps: seq<Step>)
    requires s == Off(3, [Data(1, 0), Data(2, 0)], 0, [Held([Data(0, 0)], [], [], false)], [], [], 3)
    requires t == Off(3, [Data(2, 0)], 0, [Held([], [Data(1, 0)], [], true)], [], [0], 2)
    ensures Leads(s, steps, t)
  {
    hide Leads;
    var s8 := Off(3, [Data(2, 0)], 0, [Held([Data(0, 0)], [], [Data(1, 0)], false)], [], [], 3);
    var s9 := Off(3, [Data(2, 0)], 0, [Held([Data(0, 0)], [Data(1, 0)], [], false)], [], [], 3);
    Lists(Data(0, 0), Data(0, 0), Data(0, 0));
    Lists(Data(1, 0), Data(1, 0), Data(1, 0));
    Lists(Data(1, 0), Data(2, 0), Data(2, 0));
    Lists(Data(2, 0), Data(2, 0), Data(2, 0));
    Lists(Held([Data(0, 0)], [Data(1, 0)], [], false), Held([Data(0, 0)], [Data(1, 0)], [], false), Held([], [Data(1, 0)], [], true));
    Lists(Held([Data(0, 0)], [], [Data(1, 0)], false), Held([Data(0, 0)], [], [Data(1, 0)], false), Held([Data(0, 0)], [Data(1, 0)], [], false));
    Lists(Held([Data(0, 0)], [], [], false), Held([Data(0, 0)], [], [], false), Held([Data(0, 0)], [], [Data(1, 0)], false));
    steps := [];
    Done(t);
    OneMore(s9, Respond(0, Retriable), t, steps, t);
    steps := [Respond(0, Retriable)] + steps;
    OneMore(s8, Take(0, true), s9, steps, t);
    steps := [Take(0, true)] + steps;
    OneMore(s, Dispatch([]), s8, steps, t);
    steps := [Dispatch([])] + steps;
  }

  /** The third finds the broker producer abandoned and goes to a new one. */
  lemma Diverted(s: State, t: State) returns (steps: seq<Step>)
    requires s == Off(3, [Data(2, 0)], 0, [Held([], [Data(1, 0)], [], true)], [], [0], 2)
    requires t == Off(3, [], 1, [Held([], [Data(1, 0)], [], true), Held([], [], [Syn, Data(2, 0)], false)], [], [0], 3)
    ensures Leads(s, steps, t)
  {
    hide Leads;
    Lists(Data(1, 0), Data(1, 0), Data(1, 0));
    Lists(Data(2, 0), Data(2, 0), Data(2, 0));
    Lists(Held([], [Data(1, 0)], [], true), Held([], [], [Syn], false), Held([], [], [Syn], false));
    Lists(Held([], [Data(1, 0)], [], true), Held([], [], [Syn], false), Held([], [], [Syn, Data(2, 0)], false));
    Lists(Syn, Data(2, 0), Data(2, 0));
    steps := [];
    Done(t);
    OneMore(s, Dispatch([Some(1)]), t, steps, t);
    steps := [Dispatch([Some(1)])] + steps;
  }

  /** It is sent there. */
  lemma ThirdSent(s: State, t: State) returns (steps: seq<Step>)
    requires s == Off(3, [], 1, [Held([], [Data(1, 0)], [], true), Held([], [], [Syn, Data(2, 0)], false)], [], [0], 3)
    requires t == Off(3, [], 1, [Held([], [Data(1, 0)], [], true), Held([Data(2, 0)], [], [], false)], [], [0], 2)
    ensures Leads(s, steps, t)
  {
    hide Leads;
    var s12 := Off(3, [], 1, [Held([], [Data(1, 0)], [], true), Held([], [], [Data(2, 0)], false)], [], [0], 2);
    var s13 := Off(3, [], 1, [Held([], [Data(1, 0)], [], true), Held([], [Data(2, 0)], [], false)], [], [0], 2);
    Lists(Data(1, 0), Data(1, 0), Data(1, 0));
    Lists(Data(2, 0), Data(2, 0), Data(2, 0));
    Lists(Held([], [Data(1, 0)], [], true), Held([], [Data(2, 0)], [], false), Held([Data(2, 0)], [], [], false));
    Lists(Held([], [Data(1, 0)], [], true), Held([], [], [Data(2, 0)], false), Held([], [Data(2, 0)], [], false));
    Lists(Held([], [Data(1, 0)], [], true), Held([], [], [Syn, Data(2, 0)], false), Held([], [], [Data(2, 0)], false));
    Lists(Syn, Data(2, 0), Data(2, 0));
    steps := [];
    Done(t);
    OneMore(s13, Flush(1), t, steps, t);
    steps := [Flush(1)] + steps;
    OneMore(s12, Take(1, true), s13, steps, t);
    steps := [Take(1, true)] + steps;
    OneMore(s, Take(1, true), s12, steps, t);
    steps := [Take(1, true)] + steps;
  }

  /** It is acknowledged before the second is sent. */
  lemma Overtaken(s: State, t: State) returns (steps: seq<Step>)
    requires s == Off(3, [], 1, [Held([], [Data(1, 0)], [], true), Held([Data(2, 0)], [], [], false)], [], [0], 2)
    requires t == Off(3, [], 1, [Held([], [], [], true), Held([], [], [], false)], [2, 1], [0], 0)
    ensures Leads(s, steps, t)
  {
    hide Leads;
    var s15 := Off(3, [], 1, [Held([], [Data(1, 0)], [], true), Held([], [], [], false)], [2], [0], 1);
    var s16 := Off(3, [], 1, [Held([Data(1, 0)], [], [], true), Held([], [], [], false)], [2], [0], 1);
    Lists(Data(1, 0), Data(1, 0), Data(1, 0));
    Lists(Data(2, 0), Data(2, 0), Data(2, 0));
    Lists(Held([Data(1, 0)], [], [], true), Held([], [], [], false), Held([], [], [], true));
    Lists(Held([], [Data(1, 0)], [], true), Held([Data(2, 0)], [], [], false), Held([], [], [], false));
    Lists(Held([], [Data(1, 0)], [], true), Held([], [], [], false), Held([Data(1, 0)], [], [], true));
    steps := [];
    Done(t);
    OneMore(s16, Respond(0, Acked), t, steps, t);
    steps := [Respond(0, Acked)] + steps;
    OneMore(s15, Flush(0), s16, steps, t);
    steps := [Flush(0)] + steps;
    OneMore(s, Respond(1, Acked), s15, steps, t);
    steps := [Respond(1, Acked)] + steps;
  }

  lemma Done(s: State)
    ensures Leads(s, [], s)
  {
  }

  /** With retries turned off, messages can be acknowledged out of order: the first of three is
      refused by broker producer 0, which still holds the second when the third overtakes it. */
  lemma RetriesOffReorders() returns (steps: seq<Step>)
    ensures ValidRun(Init(0, true), steps)
    ensures Run(Init(0, true), steps).acked == [2, 1]
  {
    assert Leads(Init(0, true), [], Init(0, true));
    var s0 := Off(0, [], 0, [Held([], [], [Syn], false)], [], [], 1);
    var s1 := Off(3, [Data(0, 0), Data(1, 0), Data(2, 0)], 0, [Held([], [], [], false)], [], [], 3);
    var s2 := Off(3, [Data(1, 0), Data(2, 0)], 0, [Held([Data(0, 0)], [], [], false)], [], [], 3);
    var s3 := Off(3, [Data(2, 0)], 0, [Held([], [Data(1, 0)], [], true)], [], [0], 2);
    var s4 := Off(3, [], 1, [Held([], [Data(1, 0)], [], true), Held([], [], [Syn, Data(2, 0)], false)], [], [0], 3);
    var s5 := Off(3, [], 1, [Held([], [Data(1, 0)], [], true), Held([Data(2, 0)], [], [], false)], [], [0], 2);
    var s6 := Off(3, [], 1, [Held([], [], [], true), Held([], [], [], false)], [2, 1], [0], 0);
    assert Init(0, true) == s0;
    steps := [];
    var a0 := Submitted(s0, s1);
    Joined(s0, steps, s0, a0, s1);
    steps := steps + a0;
    var a1 := FirstSent(s1, s2);
    Joined(s0, steps, s1, a1, s2);
    steps := steps + a1;
    var a2 := FirstFails(s2, s3);
    Joined(s0, steps, s2, a2, s3);
    steps := steps + a2;
    var a3 := Diverted(s3, s4);
    Joined(s0, steps, s3, a3, s4);
    steps := steps + a3;
    var a4 := ThirdSent(s4, s5);
    Joined(s0, steps, s4, a4, s5);
    steps := steps + a4;
    var a5 := Overtaken(s5, s6);
    Joined(s0, steps, s5, a5, s6);
    steps := steps + a5;
  }

  /** Acknowledgement order is submission order in all runs exactly when retries are on. */
  lemma OrderedIffRetriesOn(max: nat)
    ensures max > 0 <==> forall prefetched, steps :: ValidRun(Init(max, prefetched), steps) ==>
              Increasing(Run(Init(max, prefetched), steps).acked)
  {
    hide Init, ValidRun, Run;
    if max > 0 {
      forall prefetched, steps | ValidRun(Init(max, prefetched), steps)
        ensures Increasing(Run(Init(max, prefetched), steps).acked)
      {
        AcksFollowSubmissionOrder(max, prefetched, steps);
      }
    } else {
      var steps := RetriesOffReorders();
      assert [2, 1][0] == 2 && [2, 1][1] == 1;
      assert !Increasing([2, 1]);
    }
  }
}
