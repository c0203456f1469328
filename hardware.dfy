/** The interface the coordinator uses of its hardware objects: a counting
    channel (PulseCounter) and the gate generator (PulseTimeGenerator).
    Their internals drive a device and are not modelled; what is modelled is
    the state the coordinator reads and writes, and the calls it makes on
    them, recorded in one trace so that the order across devices is visible. */
module Hardware {
  import opened PyBuiltins

  /** A snapshot of one counting channel: the `enabled` flag the coordinator
      reads and writes, the samples acquired so far (`data`) and the number
      of samples ready to be read (`sample_readies`). */
  datatype Channel = Channel(enabled: bool, data: seq<real>, sampleReadies: int)

  /** A channel right after `start(samples)`: armed for a new run, with an
      empty buffer and no sample ready. The `enabled` flag belongs to the
      coordinator and is kept. */
  function Armed(c: Channel): (r: Channel)
    ensures r.enabled == c.enabled
    ensures r.data == [] && r.sampleReadies == 0
  {
    Channel(c.enabled, [], 0)
  }

  /** A snapshot of the gate generator: its `done` flag. A `start` arms a new
      pulse train, which is not done; after `stop` the generator is done. */
  datatype Timer = Timer(done: bool)

  /** A call made on one channel. */
  datatype ChannelCall = Start(samples: int) | Stop

  /** A call made on the gate generator; the pulse times are passed through
      untouched, so they are kept as opaque numbers. */
  datatype TimerCall =
    | TimerStart(samples: int, highTime: real, lowTime: real, initialDelay: real)
    | TimerStop

  /** One hardware call, addressed to a channel by its configured name or to the timer. */
  datatype Call = ToChannel(name: string, call: ChannelCall) | ToTimer(timerCall: TimerCall)

  /** The calls a channel received, in the order of the trace. */
  function ChannelLog(trace: seq<Call>, name: string): (log: seq<ChannelCall>)
    ensures |log| <= |trace|
  {
    if trace == [] then []
    else
      (if trace[0].ToChannel? && trace[0].name == name then [trace[0].call] else [])
      + ChannelLog(trace[1..], name)
  }

  /** The calls the gate generator received, in the order of the trace. */
  function TimerLog(trace: seq<Call>): (log: seq<TimerCall>)
    ensures |log| <= |trace|
  {
    if trace == [] then []
    else
      (if trace[0].ToTimer? then [trace[0].timerCall] else [])
      + TimerLog(trace[1..])
  }

  /** A device's log of a trace extended by more calls is its old log
      extended by its log of the new calls. */
  lemma {:induction false} LogsOfConcat(a: seq<Call>, b: seq<Call>, name: string)
    ensures ChannelLog(a + b, name) == ChannelLog(a, name) + ChannelLog(b, name)
    ensures TimerLog(a + b) == TimerLog(a) + TimerLog(b)
  {
    if a == [] {
      assert a + b == b;
    } else {
      assert (a + b)[1..] == a[1..] + b;
      LogsOfConcat(a[1..], b, name);
    }
  }

  /** The calls made by a loop that sends the same call to every channel
      named in `names`, in that order. */
  function Broadcast(names: seq<string>, c: ChannelCall): seq<Call> {
    seq(|names|, i requires 0 <= i < |names| => ToChannel(names[i], c))
  }

  /** A broadcast over one more name ends with the call to that name. */
  lemma BroadcastStep(names: seq<string>, c: ChannelCall, i: nat)
    requires i < |names|
    ensures Broadcast(names[..i + 1], c) == Broadcast(names[..i], c) + [ToChannel(names[i], c)]
  {
    var longer, shorter := Broadcast(names[..i + 1], c), Broadcast(names[..i], c);
    assert |longer| == |shorter| + 1;
    forall k | 0 <= k < |shorter|
      ensures longer[k] == shorter[k]
    {
    }
  }

  /** A broadcast over distinct names reaches each listed channel exactly
      once, no other channel, and never the timer. */
  lemma {:induction false} BroadcastReachesEach(names: seq<string>, c: ChannelCall, name: string)
    requires Distinct(names)
    ensures ChannelLog(Broadcast(names, c), name) == if name in names then [c] else []
    ensures TimerLog(Broadcast(names, c)) == []
  {
    if names != [] {
      var t := Broadcast(names, c);
      assert t[1..] == Broadcast(names[1..], c);
      assert Distinct(names[1..]);
      BroadcastReachesEach(names[1..], c, name);
      assert names[0] == name ==> name !in names[1..];
      assert name in names <==> name == names[0] || name in names[1..];
    }
  }
}
