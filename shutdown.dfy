/** The process-wide channel registry and stop flag (bashtasks/executor.py,
    the globals `channels` and `stop`, `channels.append` in
    `start_executor`, `stop_ampq_channels` and `stop_and_exit`). */
module Shutdown {
  import opened Broker

  datatype ChannelState = Open | Closed

  /** The registry after one pass of `stop_ampq_channels`, where the close
      of every channel in `raising` throws. */
  function AfterClosing(chs: seq<ChannelState>, raising: set<nat>): (r: seq<ChannelState>)
    ensures |r| == |chs|
    ensures forall i :: 0 <= i < |chs| && chs[i] == Closed ==> r[i] == Closed
    ensures forall i :: 0 <= i < |chs| && i !in raising ==> r[i] == Closed
    ensures forall i :: 0 <= i < |chs| && i in raising ==> r[i] == chs[i]
  {
    seq(|chs|, i requires 0 <= i < |chs| => if chs[i] == Open && i !in raising then Closed else chs[i])
  }

  /** The close attempts of that pass, in registry order: one per channel
      that was open, whether or not its close threw. */
  function CloseEvents(chs: seq<ChannelState>, raising: set<nat>): (events: seq<Event>)
    ensures |events| <= |chs|
    ensures forall k :: 0 <= k < |events| ==> events[k].CloseAttempt? && events[k].channel < |chs|
    decreases |chs|
  {
    if chs == [] then []
    else
      var last := |chs| - 1;
      CloseEvents(chs[..last], raising)
        + (if chs[last] == Open then [CloseAttempt(last, last in raising)] else [])
  }

  /** The k-th close attempt of a pass is on a channel that was open, and
      it raised exactly when that channel's close throws. */
  lemma {:induction false} CloseAttemptAt(chs: seq<ChannelState>, raising: set<nat>, k: nat)
    requires k < |CloseEvents(chs, raising)|
    ensures var e := CloseEvents(chs, raising)[k];
            e.CloseAttempt? && e.channel < |chs| && chs[e.channel] == Open && e.raised == (e.channel in raising)
    decreases |chs|
  {
    var last := |chs| - 1;
    var front := CloseEvents(chs[..last], raising);
    assert CloseEvents(chs, raising) == front + (if chs[last] == Open then [CloseAttempt(last, last in raising)] else []);
    if k < |front| {
      CloseAttemptAt(chs[..last], raising, k);
      assert chs[..last][front[k].channel] == chs[front[k].channel];
    }
  }

  /** Every close attempt is on an open channel (closed ones are left
      alone), every open channel gets exactly one, and they come in
      registry order. */
  lemma {:induction false} CloseEventsAreTheOpenChannels(chs: seq<ChannelState>, raising: set<nat>)
    ensures var es := CloseEvents(chs, raising);
            && (forall k :: 0 <= k < |es| ==>
                  es[k].CloseAttempt? && es[k].channel < |chs| && chs[es[k].channel] == Open
                  && es[k].raised == (es[k].channel in raising))
            && (forall k, l :: 0 <= k < l < |es| ==> es[k].channel < es[l].channel)
            && (forall i :: 0 <= i < |chs| && chs[i] == Open ==> CloseAttempt(i, i in raising) in es)
    decreases |chs|
  {
    if chs != [] {
      var last := |chs| - 1;
      CloseEventsAreTheOpenChannels(chs[..last], raising);
      var es := CloseEvents(chs, raising);
      var front := CloseEvents(chs[..last], raising);
      assert es == front + (if chs[last] == Open then [CloseAttempt(last, last in raising)] else []);
      forall k | 0 <= k < |es|
        ensures es[k].CloseAttempt? && es[k].channel < |chs| && chs[es[k].channel] == Open
                && es[k].raised == (es[k].channel in raising)
      {
        CloseAttemptAt(chs, raising, k);
      }
      forall i | 0 <= i < |chs| && chs[i] == Open
        ensures CloseAttempt(i, i in raising) in es
      {
        if i < last {
          assert chs[..last][i] == chs[i];
        }
      }
    }
  }

  /** A registry with no open channel gets no close attempt. */
  lemma {:induction false} NothingOpenNothingClosed(chs: seq<ChannelState>, raising: set<nat>)
    requires forall i :: 0 <= i < |chs| ==> chs[i] == Closed
    ensures CloseEvents(chs, raising) == []
    decreases |chs|
  {
    if chs != [] {
      NothingOpenNothingClosed(chs[..|chs| - 1], raising);
    }
  }

  /** Once a stop has closed every channel, another stop attempts no close
      and changes no channel. */
  lemma SecondStopChangesNothing(chs: seq<ChannelState>, raising: set<nat>)
    ensures var closed := AfterClosing(chs, {});
            && AfterClosing(closed, raising) == closed
            && CloseEvents(closed, raising) == []
  {
    NothingOpenNothingClosed(AfterClosing(chs, {}), raising);
  }

  /** `AfterClosing` of one more channel is `AfterClosing` of the prefix
      followed by that channel's own outcome. */
  lemma AfterClosingExtend(chs: seq<ChannelState>, i: nat, raising: set<nat>)
    requires i < |chs|
    ensures AfterClosing(chs[..i + 1], raising)
            == AfterClosing(chs[..i], raising) + [if chs[i] == Open && i !in raising then Closed else chs[i]]
  {
    assert chs[..i + 1][..i] == chs[..i];
  }

  /** The module-level state every worker shares: the registered channels,
      the stop flag, and the trace every channel's effects go to. */
  class Registry {
    var channels: seq<ChannelState>
    var stop: bool
    const trace: Trace

    /** The module globals at import: `channels = []`, `stop = False`. */
    constructor ()
      ensures channels == [] && !stop && fresh(trace) && trace.events == []
    {
      channels := [];
      stop := false;
      trace := new Trace();
    }

    /** `channels.append(ch)` for the channel a worker has just opened; the
      channel's index in the registry identifies it. */
    method Register() returns (id: nat)
      modifies this
      ensures channels == old(channels) + [Open] && id == |old(channels)|
      ensures stop == old(stop)
    {
      id := |channels|;
      channels := channels + [Open];
    }

    /** `stop_ampq_channels`: close every open channel in registry order,
      skip closed ones, swallow a close that throws and go on; no channel
      leaves the registry. */
    method StopAmqpChannels(raising: set<nat>)
      modifies this, trace
      ensures channels == AfterClosing(old(channels), raising)
      ensures trace.events == old(trace.events) + CloseEvents(old(channels), raising)
      ensures stop == old(stop)
    {
      var i := 0;
      while i < |channels|
        invariant 0 <= i <= |channels| == |old(channels)|
        invariant channels[..i] == AfterClosing(old(channels)[..i], raising)
        invariant channels[i..] == old(channels)[i..]
        invariant trace.events == old(trace.events) + CloseEvents(old(channels)[..i], raising)
        invariant stop == old(stop)
      {
        ghost var before := old(channels)[..i + 1];
        assert before[..i] == old(channels)[..i];
        assert channels[i] == old(channels)[i];
        assert CloseEvents(before, raising) == CloseEvents(old(channels)[..i], raising)
               + (if channels[i] == Open then [CloseAttempt(i, i in raising)] else []);
        AfterClosingExtend(old(channels), i, raising);
        if channels[i] == Open {
          var raised := i in raising;
          trace.Record(CloseAttempt(i, raised));
          if !raised {
            channels := channels[i := Closed];
          }
        }
        assert channels[..i + 1] == channels[..i] + [channels[i]];
        i := i + 1;
      }
      assert old(channels)[..i] == old(channels);
      assert channels[..i] == channels;
    }

    /** `stop_and_exit`: close all channels first, then set `stop`. */
    method StopAndExit(raising: set<nat>)
      modifies this, trace
      ensures channels == AfterClosing(old(channels), raising) && stop
      ensures trace.events == old(trace.events) + CloseEvents(old(channels), raising) + [StopSet]
    {
      StopAmqpChannels(raising);
      trace.Record(StopSet);
      stop := true;
    }
  }
}
