/**
 * Properties of the monitor's event trace (async_job_status.go, JobStatusMonitor):
 * pacing of polls by ticks, the terminal send as the last thing before the stream
 * closes, and polling that only a terminal status ends.
 */
module MonitorTrace {
  import opened Wrappers
  import opened Http
  import opened Authentication
  import opened AsyncJobStatus

  predicate IsFetch(e: Event) {
    e.Fetch?
  }

  predicate IsTick(e: Event) {
    e.Tick?
  }

  /** The number of events of `t` that satisfy `p`. */
  function Count(t: seq<Event>, p: Event -> bool): nat {
    if t == [] then 0 else (if p(t[0]) then 1 else 0) + Count(t[1..], p)
  }

  lemma {:induction false} CountConcat(a: seq<Event>, b: seq<Event>, p: Event -> bool)
    ensures Count(a + b, p) == Count(a, p) + Count(b, p)
  {
    if a != [] {
      assert (a + b)[0] == a[0] && (a + b)[1..] == a[1..] + b;
      CountConcat(a[1..], b, p);
    } else {
      assert a + b == b;
    }
  }

  lemma {:induction false} CountNone(t: seq<Event>, p: Event -> bool)
    requires forall k :: 0 <= k < |t| ==> !p(t[k])
    ensures Count(t, p) == 0
  {
    if t != [] {
      CountNone(t[1..], p);
    }
  }

  /** The events of one non-terminal pass: one poll and one tick. */
  lemma PassCounts(url: string, race: Race, s: JobStatus)
    ensures var pass := [Fetch(url)] + Wait(race, s);
      Count(pass, IsFetch) == 1 && Count(pass, IsTick) == 1
      && forall k :: 1 <= k < |pass| ==> !pass[k].Fetch?
  {
    var w := Wait(race, s);
    CountConcat([Fetch(url)], w, IsFetch);
    CountConcat([Fetch(url)], w, IsTick);
    assert Count([Fetch(url)], IsFetch) == 1 && Count([Fetch(url)], IsTick) == 0 by {
      assert [Fetch(url)][1..] == [];
    }
    assert Count([Tick], IsFetch) == 0 && Count([Tick], IsTick) == 1 by {
      assert [Tick][1..] == [];
    }
    if race == PublishFirst {
      assert w[1..] == [Tick];
    }
  }

  /**
   * Every poll after the first waits for its own tick: before the poll at position `j`
   * there are exactly as many ticks as earlier polls.
   */
  lemma {:induction false} TicksBeforeEachFetch(session: AuthSession, s: JobStatus, rounds: seq<Round>,
                                                 decode: string -> Unmarshal<JobStatusFields>, j: nat)
    requires var t := Run(session, s, rounds, decode).trace; j < |t| && t[j].Fetch?
    ensures var t := Run(session, s, rounds, decode).trace; Count(t[..j], IsTick) == Count(t[..j], IsFetch)
    decreases |rounds|
  {
    var t := Run(session, s, rounds, decode).trace;
    if j > 0 {
      RunUnfold(session, s, rounds, decode);
      var next := Query(session, s, rounds[0].network, decode).snapshot;
      if !IsTerminal(next.status) {
        var pass := [Fetch(s.callbackUrl)] + Wait(rounds[0].race, next);
        var rest := Run(session, next, rounds[1..], decode).trace;
        PassCounts(s.callbackUrl, rounds[0].race, next);
        assert t == pass + rest;
        assert j >= |pass|;
        var j' := j - |pass|;
        assert rest[j'] == t[j];
        TicksBeforeEachFetch(session, next, rounds[1..], decode, j');
        assert t[..j] == pass + rest[..j'];
        CountConcat(pass, rest[..j'], IsTick);
        CountConcat(pass, rest[..j'], IsFetch);
      }
    }
  }

  /** Between two consecutive polls the ticker fires exactly once. */
  lemma OneTickBetweenPolls(session: AuthSession, s: JobStatus, rounds: seq<Round>,
                            decode: string -> Unmarshal<JobStatusFields>, i: nat, j: nat)
    requires var t := Run(session, s, rounds, decode).trace;
      i < j < |t| && t[i].Fetch? && t[j].Fetch? && forall k :: i < k < j ==> !t[k].Fetch?
    ensures var t := Run(session, s, rounds, decode).trace; Count(t[i + 1..j], IsTick) == 1
  {
    var t := Run(session, s, rounds, decode).trace;
    TicksBeforeEachFetch(session, s, rounds, decode, i);
    TicksBeforeEachFetch(session, s, rounds, decode, j);
    var between := t[i + 1..j];
    assert t[..j] == (t[..i] + [t[i]]) + between;
    CountConcat(t[..i] + [t[i]], between, IsTick);
    CountConcat(t[..i] + [t[i]], between, IsFetch);
    CountConcat(t[..i], [t[i]], IsTick);
    CountConcat(t[..i], [t[i]], IsFetch);
    CountNone(between, IsFetch);
  }

  /**
   * A closed stream was closed right after the terminal snapshot was sent and the ticker
   * stopped: the trace ends with that send, the stop and the close.
   */
  lemma {:induction false} ClosedRunEndsWithTerminalSend(session: AuthSession, s: JobStatus, rounds: seq<Round>,
                                                          decode: string -> Unmarshal<JobStatusFields>)
    ensures var r := Run(session, s, rounds, decode);
      r.closed ==>
        (|r.trace| >= 4 && IsTerminal(r.snapshot.status) && r.trace[|r.trace| - 3..] == [Publish(r.snapshot), Stop, Close])
    decreases |rounds|
  {
    if rounds != [] {
      RunUnfold(session, s, rounds, decode);
      var next := Query(session, s, rounds[0].network, decode).snapshot;
      if !IsTerminal(next.status) {
        var pass := [Fetch(s.callbackUrl)] + Wait(rounds[0].race, next);
        var rest := Run(session, next, rounds[1..], decode);
        ClosedRunEndsWithTerminalSend(session, next, rounds[1..], decode);
        if rest.closed {
          var t := pass + rest.trace;
          assert t[|t| - 3..] == rest.trace[|rest.trace| - 3..];
        }
      }
    }
  }

  /**
   * The stream is closed once, by the last event, and the ticker is stopped once, just
   * before it; nothing follows the close, and an open run has neither.
   */
  lemma {:induction false} CloseIsLastEvent(session: AuthSession, s: JobStatus, rounds: seq<Round>,
                                            decode: string -> Unmarshal<JobStatusFields>)
    ensures var r := Run(session, s, rounds, decode);
      && (forall k :: 0 <= k < |r.trace| ==> (r.trace[k] == Close <==> r.closed && k == |r.trace| - 1))
      && (forall k :: 0 <= k < |r.trace| ==> (r.trace[k] == Stop <==> r.closed && k == |r.trace| - 2))
    decreases |rounds|
  {
    if rounds != [] {
      RunUnfold(session, s, rounds, decode);
      var next := Query(session, s, rounds[0].network, decode).snapshot;
      if !IsTerminal(next.status) {
        var pass := [Fetch(s.callbackUrl)] + Wait(rounds[0].race, next);
        var rest := Run(session, next, rounds[1..], decode);
        CloseIsLastEvent(session, next, rounds[1..], decode);
        var t := pass + rest.trace;
        forall k | 0 <= k < |t|
          ensures (t[k] == Close <==> rest.closed && k == |t| - 1)
          ensures (t[k] == Stop <==> rest.closed && k == |t| - 2)
        {
          if k >= |pass| {
            assert t[k] == rest.trace[k - |pass|];
          } else {
            assert t[k] == pass[k];
          }
        }
      }
    }
  }

  /**
   * Once a poll has yielded a terminal status nothing is polled again: the one send of a
   * terminal snapshot is the third event from the end of a closed run, and every earlier
   * send carried a status that was still running.
   */
  lemma {:induction false} TerminalSendIsFinal(session: AuthSession, s: JobStatus, rounds: seq<Round>,
                                               decode: string -> Unmarshal<JobStatusFields>)
    ensures var r := Run(session, s, rounds, decode);
      forall k :: 0 <= k < |r.trace| && r.trace[k].Publish? && IsTerminal(r.trace[k].snapshot.status) ==>
        r.closed && k == |r.trace| - 3
    decreases |rounds|
  {
    if rounds != [] {
      RunUnfold(session, s, rounds, decode);
      var next := Query(session, s, rounds[0].network, decode).snapshot;
      if !IsTerminal(next.status) {
        var pass := [Fetch(s.callbackUrl)] + Wait(rounds[0].race, next);
        var rest := Run(session, next, rounds[1..], decode);
        TerminalSendIsFinal(session, next, rounds[1..], decode);
        var t := pass + rest.trace;
        forall k | 0 <= k < |t| && t[k].Publish? && IsTerminal(t[k].snapshot.status)
          ensures rest.closed && k == |t| - 3
        {
          if k >= |pass| {
            assert t[k] == rest.trace[k - |pass|];
          }
        }
      }
    }
  }

  /** No poll follows the send of a terminal snapshot. */
  lemma NoPollAfterTerminal(session: AuthSession, s: JobStatus, rounds: seq<Round>,
                            decode: string -> Unmarshal<JobStatusFields>, i: nat, j: nat)
    requires var t := Run(session, s, rounds, decode).trace;
      i < j < |t| && t[i].Publish? && IsTerminal(t[i].snapshot.status)
    ensures !Run(session, s, rounds, decode).trace[j].Fetch?
  {
    var r := Run(session, s, rounds, decode);
    TerminalSendIsFinal(session, s, rounds, decode);
    ClosedRunEndsWithTerminalSend(session, s, rounds, decode);
    assert r.trace[j] == r.trace[|r.trace| - 3..][j - (|r.trace| - 3)];
  }

  /**
   * Failed polls never end the loop: a run that did not close polled once per round,
   * and the snapshot it holds is still running; a closed run polled at most once per round.
   */
  lemma {:induction false} OpenRunPollsEveryRound(session: AuthSession, s: JobStatus, rounds: seq<Round>,
                                                  decode: string -> Unmarshal<JobStatusFields>)
    ensures var r := Run(session, s, rounds, decode);
      && (!r.closed ==> Count(r.trace, IsFetch) == |rounds|)
      && (!r.closed && rounds != [] ==> !IsTerminal(r.snapshot.status))
      && (r.closed ==> 1 <= Count(r.trace, IsFetch) <= |rounds|)
    decreases |rounds|
  {
    if rounds != [] {
      RunUnfold(session, s, rounds, decode);
      var next := Query(session, s, rounds[0].network, decode).snapshot;
      if IsTerminal(next.status) {
        var t := [Fetch(s.callbackUrl), Publish(next), Stop, Close];
        CountConcat([Fetch(s.callbackUrl)], t[1..], IsFetch);
        CountNone(t[1..], IsFetch);
        assert [Fetch(s.callbackUrl)] + t[1..] == t;
      } else {
        var pass := [Fetch(s.callbackUrl)] + Wait(rounds[0].race, next);
        var rest := Run(session, next, rounds[1..], decode);
        OpenRunPollsEveryRound(session, next, rounds[1..], decode);
        PassCounts(s.callbackUrl, rounds[0].race, next);
        CountConcat(pass, rest.trace, IsFetch);
      }
    }
  }

  /**
   * Every send directly follows a poll: the consumer is offered at most one snapshot
   * per poll, and never one that no poll preceded.
   */
  lemma {:induction false} SendsFollowPolls(session: AuthSession, s: JobStatus, rounds: seq<Round>,
                                            decode: string -> Unmarshal<JobStatusFields>)
    ensures var t := Run(session, s, rounds, decode).trace;
      forall k :: 0 <= k < |t| && t[k].Publish? ==> 1 <= k && t[k - 1].Fetch?
    decreases |rounds|
  {
    if rounds != [] {
      RunUnfold(session, s, rounds, decode);
      var next := Query(session, s, rounds[0].network, decode).snapshot;
      if !IsTerminal(next.status) {
        var pass := [Fetch(s.callbackUrl)] + Wait(rounds[0].race, next);
        var rest := Run(session, next, rounds[1..], decode).trace;
        SendsFollowPolls(session, next, rounds[1..], decode);
        var t := pass + rest;
        forall k | 0 <= k < |t| && t[k].Publish?
          ensures 1 <= k && t[k - 1].Fetch?
        {
          if k >= |pass| {
            assert t[k] == rest[k - |pass|];
            if k > |pass| {
              assert t[k - 1] == rest[k - 1 - |pass|];
            }
          }
        }
      }
    }
  }

  /**
   * A poll that fails (no response, a code other than 200 and 202, or a body that does
   * not decode and writes nothing) is only logged: the loop goes on with the snapshot
   * unchanged, ending only if that snapshot was already terminal.
   */
  lemma FailedPollIsOnlyLogged(session: AuthSession, s: JobStatus, rounds: seq<Round>,
                               decode: string -> Unmarshal<JobStatusFields>)
    requires rounds != []
    requires Query(session, s, rounds[0].network, decode).err.Some?
    requires var out := rounds[0].network(SharedClient, JobStatusRequest(session, s));
      out.Response? && (out.statusCode == 200 || out.statusCode == 202) ==>
        decode(out.body).written == JobStatusFields(None, None, None)
    ensures Run(session, s, rounds, decode) ==
      if IsTerminal(s.status) then RunState([Fetch(s.callbackUrl), Publish(s), Stop, Close], s, true)
      else After([Fetch(s.callbackUrl)] + Wait(rounds[0].race, s), Run(session, s, rounds[1..], decode))
  {
    FailedQueryKeepsSnapshot(session, s, rounds[0].network, decode);
    RunUnfold(session, s, rounds, decode);
  }

  /**
   * A decode that writes a terminal status ends the monitor even when it then fails on
   * a type mismatch: the poll returns an error, yet the partly written snapshot is
   * terminal, so it is sent and the stream is closed.
   */
  lemma TerminalStatusWrittenEndsRun(session: AuthSession, s: JobStatus, rounds: seq<Round>,
                                     decode: string -> Unmarshal<JobStatusFields>)
    requires rounds != []
    requires var out := rounds[0].network(SharedClient, JobStatusRequest(session, s));
      && out.Response? && (out.statusCode == 200 || out.statusCode == 202)
      && decode(out.body).written.status.Some? && IsTerminal(decode(out.body).written.status.value)
    ensures var out := rounds[0].network(SharedClient, JobStatusRequest(session, s));
      var q := Query(session, s, rounds[0].network, decode);
      && (q.err.Some? <==> decode(out.body).err.Some?)
      && Run(session, s, rounds, decode) == RunState([Fetch(s.callbackUrl), Publish(q.snapshot), Stop, Close], q.snapshot, true)
  {
    QueryOutcomes(session, s, rounds[0].network, decode);
    RunUnfold(session, s, rounds, decode);
  }
}
