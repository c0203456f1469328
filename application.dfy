/** The acquisition coordinator `CountingApp` of ni660x/application.py: a
    name-keyed, insertion-ordered collection of counting channels and one gate
    generator, with the list of channels started in the current run. */
module Application {
  import opened PyBuiltins
  import opened Hardware

  /** The exceptions the coordinator lets escape: a `KeyError` for an
      unconfigured channel name, and the `TypeError` Python raises when a list
      is indexed with a string. */
  datatype Error = KeyError(key: string) | TypeError

  datatype Result<T> = Ok(value: T) | Err(error: Error)

  /** The names among `names` whose channel is enabled, in the order of `names`. */
  function EnabledNames(names: seq<string>, channels: map<string, Channel>): (r: seq<string>)
    requires forall n :: n in names ==> n in channels
    ensures |r| <= |names|
    ensures forall i :: 0 <= i < |r| ==> r[i] in names
  {
    if names == [] then []
    else
      var last := names[|names| - 1];
      EnabledNames(names[..|names| - 1], channels) + (if channels[last].enabled then [last] else [])
  }

  /** A name is collected exactly when it is listed and its channel is enabled. */
  lemma {:induction false} EnabledNamesMembers(names: seq<string>, channels: map<string, Channel>, n: string)
    requires forall m :: m in names ==> m in channels
    ensures n in EnabledNames(names, channels) <==> n in names && channels[n].enabled
  {
    if names != [] {
      var init := names[..|names| - 1];
      assert names == init + [names[|names| - 1]];
      EnabledNamesMembers(init, channels, n);
    }
  }

  /** Collecting enabled names keeps the order of the list: collecting over a
      concatenation concatenates the collections. */
  lemma {:induction false} EnabledNamesConcat(a: seq<string>, b: seq<string>, channels: map<string, Channel>)
    requires forall m :: m in a ==> m in channels
    requires forall m :: m in b ==> m in channels
    ensures EnabledNames(a + b, channels) == EnabledNames(a, channels) + EnabledNames(b, channels)
  {
    if b != [] {
      var init := b[..|b| - 1];
      assert (a + b)[..|a + b| - 1] == a + init;
      EnabledNamesConcat(a, init, channels);
    } else {
      assert a + b == a;
    }
  }

  /** Collecting over one more name appends that name when it is enabled. */
  lemma EnabledNamesStep(names: seq<string>, channels: map<string, Channel>, i: nat)
    requires i < |names|
    requires forall m :: m in names ==> m in channels
    ensures EnabledNames(names[..i + 1], channels)
         == EnabledNames(names[..i], channels) + (if channels[names[i]].enabled then [names[i]] else [])
  {
    assert names[..i + 1][..i] == names[..i];
  }

  /** Collecting enabled names from distinct names gives distinct names. */
  lemma {:induction false} EnabledNamesDistinct(names: seq<string>, channels: map<string, Channel>)
    requires forall m :: m in names ==> m in channels
    requires Distinct(names)
    ensures Distinct(EnabledNames(names, channels))
  {
    if names != [] {
      var init := names[..|names| - 1];
      var last := names[|names| - 1];
      assert names == init + [last];
      assert Distinct(init);
      EnabledNamesDistinct(init, channels);
      EnabledNamesMembers(init, channels, last);
    }
  }

  /** The first position of `names` that is not a key of `channels`
      (`|names|` when every name is a key). */
  function KnownPrefix(channels: map<string, Channel>, names: seq<string>): (k: nat)
    ensures k <= |names|
    ensures forall j :: 0 <= j < k ==> names[j] in channels
    ensures k < |names| ==> names[k] !in channels
  {
    if names == [] || names[0] !in channels then 0
    else 1 + KnownPrefix(channels, names[1..])
  }

  /** The properties of `KnownPrefix` determine it. */
  lemma KnownPrefixUnique(channels: map<string, Channel>, names: seq<string>, i: nat)
    requires i <= |names|
    requires forall j :: 0 <= j < i ==> names[j] in channels
    requires i < |names| ==> names[i] !in channels
    ensures KnownPrefix(channels, names) == i
  {
  }

  /** The channels after setting the `enabled` flag of each listed channel to
      `enabled`, one name after the other. */
  function WithEnabled(channels: map<string, Channel>, names: seq<string>, enabled: bool): (r: map<string, Channel>)
    requires forall n :: n in names ==> n in channels
    ensures r.Keys == channels.Keys
  {
    if names == [] then channels
    else
      var m := WithEnabled(channels, names[..|names| - 1], enabled);
      var last := names[|names| - 1];
      m[last := m[last].(enabled := enabled)]
  }

  /** Setting flags one name at a time sets the flag of exactly the listed
      channels, leaves every other channel as it was, and never touches a
      buffer or a ready count. */
  lemma {:induction false} WithEnabledEffect(channels: map<string, Channel>, names: seq<string>, enabled: bool, n: string)
    requires forall m :: m in names ==> m in channels
    requires n in channels
    ensures WithEnabled(channels, names, enabled)[n]
         == if n in names then channels[n].(enabled := enabled) else channels[n]
  {
    if names != [] {
      var init := names[..|names| - 1];
      assert names == init + [names[|names| - 1]];
      WithEnabledEffect(channels, init, enabled, n);
    }
  }

  /** Extending the list of names by one more sets that one more flag. */
  lemma WithEnabledStep(channels: map<string, Channel>, names: seq<string>, i: nat, enabled: bool)
    requires i < |names|
    requires forall j :: 0 <= j <= i ==> names[j] in channels
    ensures var m := WithEnabled(channels, names[..i], enabled);
            WithEnabled(channels, names[..i + 1], enabled) == m[names[i] := m[names[i]].(enabled := enabled)]
  {
    assert names[..i + 1][..i] == names[..i];
  }

  /** With the empty list `set_channels_enabled` walks every configured name:
      no name is unknown, and every channel ends with the requested flag. */
  lemma SetAllFlags(channels: map<string, Channel>, names: seq<string>, enabled: bool)
    requires forall n :: n in channels <==> n in names
    ensures KnownPrefix(channels, names) == |names|
    ensures forall n :: n in channels ==> WithEnabled(channels, names, enabled)[n].enabled == enabled
  {
    KnownPrefixUnique(channels, names, |names|);
    forall n | n in channels
      ensures WithEnabled(channels, names, enabled)[n].enabled == enabled
    {
      WithEnabledEffect(channels, names, enabled, n);
    }
  }

  /** Enabling or disabling by name is a last-write-wins update: after two
      updates, a channel carries the flag of the later update that listed it. */
  lemma LastWriteWins(channels: map<string, Channel>, first: seq<string>, e1: bool,
                      second: seq<string>, e2: bool, n: string)
    requires forall m :: m in first ==> m in channels
    requires forall m :: m in second ==> m in channels
    requires n in channels
    ensures WithEnabled(WithEnabled(channels, first, e1), second, e2)[n].enabled
         == if n in second then e2 else if n in first then e1 else channels[n].enabled
  {
    var mid := WithEnabled(channels, first, e1);
    WithEnabledEffect(channels, first, e1, n);
    WithEnabledEffect(mid, second, e2, n);
  }

  /** The hardware calls of `start_all(samples, high, low, delay)`. */
  function StartAllCalls(names: seq<string>, samples: int, high: real, low: real, delay: real): (t: seq<Call>)
    ensures |t| == |names| + 1
    ensures forall i :: 0 <= i < |names| ==> t[i] == ToChannel(names[i], Start(samples))
    ensures t[|names|] == ToTimer(TimerStart(samples, high, low, delay))
  {
    Broadcast(names, Start(samples)) + [ToTimer(TimerStart(samples, high, low, delay))]
  }

  /** The hardware calls of `stop()`. */
  function StopCalls(names: seq<string>): (t: seq<Call>)
    ensures |t| == |names| + 1
    ensures t[0] == ToTimer(TimerStop)
    ensures forall i :: 0 <= i < |names| ==> t[i + 1] == ToChannel(names[i], Stop)
  {
    [ToTimer(TimerStop)] + Broadcast(names, Stop)
  }

  /** The channels after each listed channel received `start`, one name
      after the other: each listed channel is armed for a new run. */
  function ArmListed(channels: map<string, Channel>, names: seq<string>): (r: map<string, Channel>)
    requires forall n :: n in names ==> n in channels
    ensures r.Keys == channels.Keys
  {
    if names == [] then channels
    else
      var m := ArmListed(channels, names[..|names| - 1]);
      var last := names[|names| - 1];
      m[last := Armed(m[last])]
  }

  /** Starting channels by name arms exactly the listed channels: they keep
      their flag but lose their buffer and ready count; every other channel
      is left as it was. */
  lemma {:induction false} ArmListedEffect(channels: map<string, Channel>, names: seq<string>, n: string)
    requires forall m :: m in names ==> m in channels
    requires n in channels
    ensures ArmListed(channels, names)[n] == if n in names then Armed(channels[n]) else channels[n]
  {
    if names != [] {
      var init := names[..|names| - 1];
      assert names == init + [names[|names| - 1]];
      ArmListedEffect(channels, init, n);
    }
  }

  /** When every configured channel is started, every channel keeps its flag
      and has an empty buffer and nothing ready. */
  lemma ArmEvery(channels: map<string, Channel>, names: seq<string>)
    requires forall n :: n in channels <==> n in names
    ensures forall n :: n in channels ==> ArmListed(channels, names)[n] == Armed(channels[n])
  {
    forall n | n in channels
      ensures ArmListed(channels, names)[n] == Armed(channels[n])
    {
      ArmListedEffect(channels, names, n);
    }
  }

  /** One turn of the `start_channels` loop: arming the next channel and
      recording it when enabled extends both folds by that name. */
  lemma StartChannelsStep(before: map<string, Channel>, order: seq<string>, i: nat,
                          chans: map<string, Channel>, run: seq<string>)
    requires forall n :: n in order ==> n in before
    requires i < |order|
    requires chans == ArmListed(before, order[..i])
    requires run == EnabledNames(order[..i], before)
    ensures order[i] in chans
    ensures chans[order[i] := Armed(chans[order[i]])] == ArmListed(before, order[..i + 1])
    ensures chans[order[i]].enabled == before[order[i]].enabled
    ensures (if before[order[i]].enabled then run + [order[i]] else run)
            == EnabledNames(order[..i + 1], before)
  {
    assert order[..i + 1][..i] == order[..i];
    ArmListedEffect(before, order[..i], order[i]);
    EnabledNamesStep(order, before, i);
  }

  /** The loop of `start_channels` over the configured names. */
  method StartEach(order: seq<string>, before: map<string, Channel>, samples: int)
    returns (chans: map<string, Channel>, run: seq<string>, log: seq<Call>)
    requires forall n :: n in order ==> n in before
    ensures chans == ArmListed(before, order)
    ensures run == EnabledNames(order, before)
    ensures log == Broadcast(order, Start(samples))
  {
    chans, run, log := before, [], [];
    var i := 0;
    while i < |order|
      invariant 0 <= i <= |order|
      invariant chans == ArmListed(before, order[..i])
      invariant run == EnabledNames(order[..i], before)
      invariant log == Broadcast(order[..i], Start(samples))
    {
      var name := order[i];
      StartChannelsStep(before, order, i, chans, run);
      BroadcastStep(order, Start(samples), i);
      log := log + [ToChannel(name, Start(samples))];
      chans := chans[name := Armed(chans[name])];
      if chans[name].enabled {
        run := run + [name];
      }
      i := i + 1;
    }
    assert order[..|order|] == order;
  }

  /** `start_all` starts every configured channel, enabled or not, once with
      `samples`, then starts the timer once with the same `samples` and the
      pulse times unchanged; no channel call comes after the timer call. */
  lemma StartAllOrder(names: seq<string>, samples: int, high: real, low: real, delay: real, n: string)
    requires Distinct(names)
    ensures var t := StartAllCalls(names, samples, high, low, delay);
      && TimerLog(t) == [TimerStart(samples, high, low, delay)]
      && ChannelLog(t, n) == (if n in names then [Start(samples)] else [])
      && forall i, j :: 0 <= i < |t| && 0 <= j < |t| && t[i].ToChannel? && t[j].ToTimer? ==> i < j
  {
    var b := Broadcast(names, Start(samples));
    var tail := [ToTimer(TimerStart(samples, high, low, delay))];
    BroadcastReachesEach(names, Start(samples), n);
    LogsOfConcat(b, tail, n);
    assert tail[1..] == [];
  }

  /** `stop` stops the timer first, then every configured channel once,
      started or not. */
  lemma StopOrder(names: seq<string>, n: string)
    requires Distinct(names)
    ensures var t := StopCalls(names);
      && TimerLog(t) == [TimerStop]
      && ChannelLog(t, n) == (if n in names then [Stop] else [])
      && forall i, j :: 0 <= i < |t| && 0 <= j < |t| && t[i].ToTimer? && t[j].ToChannel? ==> i < j
  {
    var head := [ToTimer(TimerStop)];
    var b := Broadcast(names, Stop);
    BroadcastReachesEach(names, Stop, n);
    LogsOfConcat(head, b, n);
    assert head[1..] == [];
  }

  /** The names of a configuration, in configuration order. */
  function ConfigNames(config: seq<(string, Channel)>): seq<string> {
    seq(|config|, i requires 0 <= i < |config| => config[i].0)
  }

  class CountingApp {
    /** The keys of `self._channels`, in configuration (insertion) order. */
    var names: seq<string>
    /** `self._channels`: the channel of each configured name. */
    var channels: map<string, Channel>
    /** `self._channels_started`: the names started in the current run. */
    var started: seq<string>
    /** `self._timer`. */
    var timer: Timer
    /** Every hardware call the coordinator has made, oldest first. */
    var calls: seq<Call>

    ghost predicate Valid()
      reads this
    {
      && Distinct(names)
      && (forall n :: n in channels <==> n in names)
      && (forall n :: n in started ==> n in channels)
    }

    /** Builds the channel dict from the configured counters, in their order.
        Reading the configuration file and routing terminals are not modelled. */
    constructor (config: seq<(string, Channel)>, timer: Timer)
      requires Distinct(ConfigNames(config))
      ensures Valid()
      ensures names == ConfigNames(config)
      ensures forall i :: 0 <= i < |config| ==> config[i].0 in channels && channels[config[i].0] == config[i].1
      ensures started == [] && calls == [] && this.timer == timer
    {
      var order: seq<string> := [];
      var dict: map<string, Channel> := map[];
      var i := 0;
      while i < |config|
        invariant 0 <= i <= |config|
        invariant order == ConfigNames(config[..i])
        invariant forall n :: n in dict <==> n in order
        invariant forall j :: 0 <= j < i ==> config[j].0 in dict && dict[config[j].0] == config[j].1
      {
        var (name, channel) := config[i];
        forall j | 0 <= j < i
          ensures config[j].0 != name
        {
          assert ConfigNames(config)[j] == config[j].0 && ConfigNames(config)[i] == name;
        }
        order := order + [name];
        dict := dict[name := channel];
        i := i + 1;
      }
      assert config[..|config|] == config;
      names, channels := order, dict;
      started, calls := [], [];
      this.timer := timer;
    }

    /** `start_channels(samples)`: calls `start(samples)` on every configured
        channel in configuration order, enabled or not, which arms each for a
        new run, and rebuilds the started list from scratch with the names of
        the channels enabled at that moment. */
    method StartChannels(samples: int)
      requires Valid()
      modifies this
      ensures Valid()
      ensures names == old(names) && timer == old(timer)
      ensures channels == ArmListed(old(channels), names)
      ensures started == EnabledNames(names, old(channels))
      ensures calls == old(calls) + Broadcast(names, Start(samples))
    {
      var chans, run, log := StartEach(names, channels, samples);
      forall n | n in run
        ensures n in chans
      {
        EnabledNamesMembers(names, channels, n);
      }
      channels, started, calls := chans, run, calls + log;
    }

    /** `start_timer(samples, high_time, low_time, initial_delay=0)`: passes
        its arguments unchanged to the timer's `start`, which arms a new
        pulse train that is not done. */
    method StartTimer(samples: int, highTime: real, lowTime: real, initialDelay: real := 0.0)
      requires Valid()
      modifies this
      ensures Valid()
      ensures names == old(names) && channels == old(channels) && started == old(started)
      ensures !timer.done
      ensures calls == old(calls) + [ToTimer(TimerStart(samples, highTime, lowTime, initialDelay))]
    {
      calls := calls + [ToTimer(TimerStart(samples, highTime, lowTime, initialDelay))];
      timer := Timer(false);
    }

    /** `start_all(...)`: the channels first, then the timer, with the same
        `samples`. */
    method StartAll(samples: int, highTime: real, lowTime: real, initialDelay: real := 0.0)
      requires Valid()
      modifies this
      ensures Valid()
      ensures names == old(names) && channels == ArmListed(old(channels), names) && !timer.done
      ensures started == EnabledNames(names, old(channels))
      ensures calls == old(calls) + StartAllCalls(names, samples, highTime, lowTime, initialDelay)
    {
      StartChannels(samples);
      StartTimer(samples, highTime, lowTime, initialDelay);
    }

    /** `stop()`: stops the timer, which is then done, then every configured
        channel; the started list and every channel's flag, buffer and ready
        count are left as they were. */
    method Stop()
      requires Valid()
      modifies this
      ensures Valid()
      ensures names == old(names) && channels == old(channels) && started == old(started)
      ensures timer.done
      ensures calls == old(calls) + StopCalls(names)
    {
      calls := calls + [ToTimer(TimerStop)];
      timer := Timer(true);
      var i := 0;
      while i < |names|
        invariant 0 <= i <= |names|
        invariant names == old(names) && channels == old(channels)
        invariant started == old(started) && timer.done
        invariant calls == old(calls) + [ToTimer(TimerStop)] + Broadcast(names[..i], Hardware.Stop)
      {
        BroadcastStep(names, Hardware.Stop, i);
        calls := calls + [ToChannel(names[i], Hardware.Stop)];
        i := i + 1;
      }
      assert names[..|names|] == names;
    }

    /** `get_all_data()` as written: the loop indexes the started list with a
        name, which raises a `TypeError` on its first iteration, so the call
        only succeeds, with an empty dict, when nothing was started. */
    method GetAllData() returns (r: Result<map<string, seq<real>>>)
      requires Valid()
      ensures started == [] ==> r == Ok(map[])
      ensures started != [] ==> r == Err(TypeError)
    {
      var data: map<string, seq<real>> := map[];
      if |started| > 0 {
        return Err(TypeError);
      }
      r := Ok(data);
    }

    /** `get_all_data()` as its documentation describes it, keying the channel
        dict by name: the buffer of every started channel, and nothing else. */
    method GetAllDataByName() returns (data: map<string, seq<real>>)
      requires Valid()
      ensures forall n :: n in data <==> n in started
      ensures forall n :: n in data ==> data[n] == channels[n].data
    {
      data := map[];
      var i := 0;
      while i < |started|
        invariant 0 <= i <= |started|
        invariant forall n :: n in data <==> n in started[..i]
        invariant forall n :: n in data ==> data[n] == channels[n].data
      {
        var name := started[i];
        data := data[name := channels[name].data];
        i := i + 1;
      }
      assert started[..|started|] == started;
    }

    /** `get_names()`: every configured name once, in configuration order,
        whatever its flag. */
    function GetNames(): (r: seq<string>)
      reads this
      requires Valid()
      ensures r == names
      ensures Distinct(r)
      ensures forall n :: n in r <==> n in channels
    {
      names
    }

    /** `get_channel_data(name, start=0, end=-1)`: the Python slice
        `data[start:end]` of the named channel's buffer, or a `KeyError`. */
    function GetChannelData(name: string, start: int := 0, end: int := -1): (r: Result<seq<real>>)
      reads this
      ensures r.Err? <==> name !in channels
      ensures r.Err? ==> r.error == KeyError(name)
      ensures r.Ok? ==> |r.value| <= |channels[name].data|
      ensures r.Ok? ==> r.value == Slice(channels[name].data, start, end)
    {
      if name in channels then Ok(Slice(channels[name].data, start, end))
      else Err(KeyError(name))
    }

    /** `set_channels_enabled(names=[], enabled=True)`: sets the flag of every
        listed channel, or of every channel when the list is empty, one name
        at a time; an unknown name raises a `KeyError` after the names before
        it have been set. */
    method SetChannelsEnabled(selected: seq<string> := [], enabled: bool := true) returns (r: Result<()>)
      requires Valid()
      modifies this
      ensures Valid()
      ensures names == old(names) && started == old(started)
      ensures timer == old(timer) && calls == old(calls)
      ensures var targets := if selected == [] then names else selected;
              var k := KnownPrefix(old(channels), targets);
              && channels == WithEnabled(old(channels), targets[..k], enabled)
              && r == if k < |targets| then Err(KeyError(targets[k])) else Ok(())
    {
      var targets := if |selected| == 0 then names else selected;
      ghost var before := channels;
      var i := 0;
      while i < |targets|
        invariant 0 <= i <= |targets|
        invariant names == old(names) && started == old(started)
        invariant timer == old(timer) && calls == old(calls)
        invariant forall j :: 0 <= j < i ==> targets[j] in before
        invariant channels == WithEnabled(before, targets[..i], enabled)
      {
        var name := targets[i];
        if name !in channels {
          KnownPrefixUnique(before, targets, i);
          return Err(KeyError(name));
        }
        WithEnabledStep(before, targets, i, enabled);
        channels := channels[name := channels[name].(enabled := enabled)];
        i := i + 1;
      }
      KnownPrefixUnique(before, targets, i);
      assert targets[..i] == targets;
      r := Ok(());
    }

    /** `get_channels_enabled()`: the current flag of every configured channel. */
    method GetChannelsEnabled() returns (status: map<string, bool>)
      requires Valid()
      ensures forall n :: n in status <==> n in names
      ensures forall n :: n in status ==> status[n] == channels[n].enabled
    {
      status := map[];
      var i := 0;
      while i < |names|
        invariant 0 <= i <= |names|
        invariant forall n :: n in status <==> n in names[..i]
        invariant forall n :: n in status ==> status[n] == channels[n].enabled
      {
        var name := names[i];
        status := status[name := channels[name].enabled];
        i := i + 1;
      }
      assert names[..|names|] == names;
    }

    /** `get_samples_readies()`: 0 when nothing is started, otherwise the least
        ready count among the started channels, which is one of them. */
    method GetSamplesReadies() returns (r: int)
      requires Valid()
      ensures started == [] ==> r == 0
      ensures forall n :: n in started ==> r <= channels[n].sampleReadies
      ensures started != [] ==> exists n :: n in started && r == channels[n].sampleReadies
    {
      var readies: seq<int> := [];
      var i := 0;
      while i < |started|
        invariant 0 <= i <= |started|
        invariant |readies| == i
        invariant forall j :: 0 <= j < i ==> readies[j] == channels[started[j]].sampleReadies
      {
        readies := readies + [channels[started[i]].sampleReadies];
        i := i + 1;
      }
      if |readies| > 0 {
        r := Min(readies);
        var j :| 0 <= j < |readies| && r == readies[j];
        assert started[j] in started;
      } else {
        r := 0;
      }
    }

    /** `is_done()`: the timer's `done` flag. */
    function IsDone(): (r: bool)
      reads this
      ensures r <==> timer.done
    {
      timer.done
    }
  }

  /** Two channels, A enabled and B disabled: `start_all` starts both but
      records only A and leaves nothing ready, the literal `get_all_data` then
      fails while the name-keyed one returns A's (empty) buffer alone, and
      `stop`, twice in a row, reaches B too and leaves the timer done. */
  method TwoChannelRun(a: seq<real>, b: seq<real>)
  {
    var config := [("A", Channel(true, a, 3)), ("B", Channel(false, b, 5))];
    assert ConfigNames(config) == ["A", "B"];
    var app := new CountingApp(config, Timer(true));
    var before := app.channels;
    assert before["A"].enabled && !before["B"].enabled;
    app.StartAll(10, 0.01, 0.01);
    assert app.names == ["A", "B"];
    assert app.names[..1] == ["A"] && app.names[..1][..0] == [];
    assert EnabledNames(app.names[..1], before) == ["A"];
    assert app.started == ["A"];
    assert !app.IsDone();
    var literal := app.GetAllData();
    assert literal == Err(TypeError);
    var byName := app.GetAllDataByName();
    assert byName.Keys == {"A"} && byName["A"] == [];
    var ready := app.GetSamplesReadies();
    assert ready == 0;
    app.Stop();
    var afterFirst := app.channels;
    app.Stop();
    assert app.channels == afterFirst && app.started == ["A"] && app.IsDone();
    StopOrder(["A", "B"], "B");
    assert ChannelLog(StopCalls(["A", "B"]), "B") == [Hardware.Stop];
  }
}
