/**
 * async_job_status.go: polling a job's callback URL for its status, and the monitor
 * that repeats the poll on every tick of a ticker and streams snapshots to a consumer.
 */
module AsyncJobStatus {
  import opened Wrappers
  import opened Http
  import opened Authentication

  /** A snapshot of a remote job's progress. */
  datatype JobStatus = JobStatus(status: string, jobId: string, callbackUrl: string)

  /** `JobStatus{}`: the struct a fresh decode starts from. */
  const ZeroJobStatus := JobStatus("", "", "")

  /**
   * The members a response body sets when it is unmarshalled into a `JobStatus`:
   * `Some` for a member present with a string value, `None` for one absent or null.
   */
  datatype JobStatusFields = JobStatusFields(status: Option<string>, jobId: Option<string>, callbackUrl: Option<string>)

  /** Unmarshalling into an existing struct: the members written replace fields, the rest are kept. */
  function Overlay(f: JobStatusFields, s: JobStatus): JobStatus {
    JobStatus(
      if f.status.Some? then f.status.value else s.status,
      if f.jobId.Some? then f.jobId.value else s.jobId,
      if f.callbackUrl.Some? then f.callbackUrl.value else s.callbackUrl)
  }

  /** The two statuses that end monitoring; every other value, known or not, means still running. */
  predicate IsTerminal(status: string) {
    status == "ERROR" || status == "COMPLETED"
  }

  const PollErrorPrefix := "Error Polling Job Status: "

  /** The poll: a GET of the snapshot's own callback URL, authenticated with the session id. */
  function JobStatusRequest(session: AuthSession, s: JobStatus): (req: Request)
    ensures req.verb == Get && req.url == s.callbackUrl && req.body == None
    ensures req.header == map["Accept" := "application/json", "X-Auth-Token" := session.Id()]
  {
    Request(Get, s.callbackUrl, map["Accept" := "application/json", "X-Auth-Token" := session.Id()], None)
  }

  /** What one poll leaves in the snapshot it was given, and the error it returned, if any. */
  datatype QueryResult = QueryResult(snapshot: JobStatus, err: Option<Error>)

  /** The effect of `JobStatusQuery` on the snapshot `s`; `QueryOutcomes` states it case by case. */
  function Query(session: AuthSession, s: JobStatus, network: Network, decode: string -> Unmarshal<JobStatusFields>): QueryResult {
    match network(SharedClient, JobStatusRequest(session, s))
    case NoResponse(cause) => QueryResult(s, Some(TransportError(cause)))
    case Response(code, body) =>
      if StatusSwitch(code, {400, 401, 404, 413, 500, 503}, {200, 202}) == Reject then
        QueryResult(s, Some(TextError(PollErrorPrefix + body)))
      else
        var u := decode(body);
        var next := Overlay(u.written, s);
        if u.err.Some? then QueryResult(next, Some(JsonError(u.err.value))) else QueryResult(next, None)
  }

  /**
   * One poll of snapshot `s`. The request goes through the shared client, whatever
   * client the session holds. Only 200 and 202 succeed; every other code, listed or
   * not, is an error with the body appended to a fixed prefix, and like a transport
   * error it is returned before anything is decoded. On success the members of the body
   * are written over `s`; a decode error is returned after whatever members were written.
   */
  lemma QueryOutcomes(session: AuthSession, s: JobStatus, network: Network, decode: string -> Unmarshal<JobStatusFields>)
    ensures var q := Query(session, s, network, decode);
      var out := network(SharedClient, JobStatusRequest(session, s));
      && (out.NoResponse? ==> q == QueryResult(s, Some(TransportError(out.cause))))
      && (out.Response? && out.statusCode != 200 && out.statusCode != 202 ==>
            q == QueryResult(s, Some(TextError(PollErrorPrefix + out.body))))
      && (out.Response? && (out.statusCode == 200 || out.statusCode == 202) ==>
            var u := decode(out.body);
            && q.snapshot == Overlay(u.written, s)
            && (q.err.None? <==> u.err.None?)
            && (u.err.Some? ==> q.err == Some(JsonError(u.err.value))))
  {
  }

  /**
   * A failed poll leaves the snapshot as it was, unless it failed while decoding after
   * members had been written; a decode that writes nothing (a syntax error) changes nothing.
   */
  lemma FailedQueryKeepsSnapshot(session: AuthSession, s: JobStatus, network: Network, decode: string -> Unmarshal<JobStatusFields>)
    requires var out := network(SharedClient, JobStatusRequest(session, s));
      out.Response? && (out.statusCode == 200 || out.statusCode == 202) ==>
        decode(out.body).written == JobStatusFields(None, None, None)
    ensures var q := Query(session, s, network, decode);
      q.err.Some? ==> q.snapshot == s
  {
  }

  /**
   * A successful poll whose body states all three members replaces the snapshot with
   * exactly those values, whatever it held before.
   */
  lemma SuccessfulQueryReplacesSnapshot(session: AuthSession, s: JobStatus, network: Network, decode: string -> Unmarshal<JobStatusFields>)
    requires var out := network(SharedClient, JobStatusRequest(session, s));
      out.Response? && decode(out.body).written.status.Some?
      && decode(out.body).written.jobId.Some? && decode(out.body).written.callbackUrl.Some?
    ensures var q := Query(session, s, network, decode);
      var f := decode(network(SharedClient, JobStatusRequest(session, s)).body).written;
      q.err.None? ==> q.snapshot == JobStatus(f.status.value, f.jobId.value, f.callbackUrl.value)
  {
  }

  /** The poll depends on the session only through its id: the session's own client is never used. */
  lemma QueryIgnoresSessionClient(s1: AuthSession, s2: AuthSession, s: JobStatus, network: Network, decode: string -> Unmarshal<JobStatusFields>)
    requires s1.Id() == s2.Id()
    ensures Query(s1, s, network, decode) == Query(s2, s, network, decode)
  {
  }

  /** The `*JobStatus` the poll writes through. */
  class JobStatusRef {
    var value: JobStatus

    constructor (s: JobStatus)
      ensures value == s
    {
      value := s;
    }
  }

  /**
   * JobStatusQuery: poll once and write the outcome through `jobStatus`; on success the
   * same pointer is returned, otherwise the error.
   */
  method JobStatusQuery(session: AuthSession, jobStatus: JobStatusRef, network: Network, decode: string -> Unmarshal<JobStatusFields>)
    returns (r: Result<JobStatusRef, Error>)
    modifies jobStatus
    ensures var q := Query(session, old(jobStatus.value), network, decode);
      && jobStatus.value == q.snapshot
      && (q.err.None? ==> r == Ok(jobStatus))
      && (q.err.Some? ==> r == Err(q.err.value))
  {
    var req := JobStatusRequest(session, jobStatus.value);
    var resp := network(SharedClient, req);
    if resp.NoResponse? {
      return Err(TransportError(resp.cause));
    }
    var responseBody := resp.body;
    if StatusSwitch(resp.statusCode, {400, 401, 404, 413, 500, 503}, {200, 202}) == Reject {
      return Err(TextError(PollErrorPrefix + responseBody));
    }
    var u := decode(responseBody);
    jobStatus.value := Overlay(u.written, jobStatus.value);
    if u.err.Some? {
      return Err(JsonError(u.err.value));
    }
    return Ok(jobStatus);
  }

  /** How the monitor's `select` between the next tick and a ready consumer came out. */
  datatype Race = TickFirst | PublishFirst

  /** One pass of the polling loop: the network as the poll finds it, and the race outcome. */
  datatype Round = Round(network: Network, race: Race)

  /** What the monitor does, in order: poll a URL, send on the stream, take a tick, stop the ticker, close the stream. */
  datatype Event = Fetch(url: string) | Publish(snapshot: JobStatus) | Tick | Stop | Close

  /** The events of a non-terminal pass after the poll: a tick alone, or a send and then a tick. */
  function Wait(race: Race, s: JobStatus): seq<Event> {
    if race == TickFirst then [Tick] else [Publish(s), Tick]
  }

  /** The trace of a run, the snapshot it leaves, and whether the stream was closed. */
  datatype RunState = RunState(trace: seq<Event>, snapshot: JobStatus, closed: bool)

  /**
   * The polling loop from snapshot `s` over `rounds`: poll (an error is only logged);
   * on a terminal status send the snapshot, stop the ticker and close the stream, and
   * stop; otherwise either take a tick, or send the snapshot and then take a tick, and
   * go round again.
   */
  function Run(session: AuthSession, s: JobStatus, rounds: seq<Round>, decode: string -> Unmarshal<JobStatusFields>): RunState
    decreases |rounds|
  {
    if rounds == [] then RunState([], s, false)
    else
      var next := Query(session, s, rounds[0].network, decode).snapshot;
      var fetch := [Fetch(JobStatusRequest(session, s).url)];
      if IsTerminal(next.status) then
        RunState(fetch + [Publish(next), Stop, Close], next, true)
      else
        var rest := Run(session, next, rounds[1..], decode);
        RunState(fetch + Wait(rounds[0].race, next) + rest.trace, rest.snapshot, rest.closed)
  }

  /** `r` preceded by the events `done`. */
  function After(done: seq<Event>, r: RunState): RunState {
    RunState(done + r.trace, r.snapshot, r.closed)
  }

  /** Running over `a + b` is running over `a`, then, unless the stream closed, over `b` from where `a` left off. */
  lemma {:induction false} RunConcat(session: AuthSession, s: JobStatus, a: seq<Round>, b: seq<Round>, decode: string -> Unmarshal<JobStatusFields>)
    ensures var ra := Run(session, s, a, decode);
      Run(session, s, a + b, decode) == if ra.closed then ra else After(ra.trace, Run(session, ra.snapshot, b, decode))
    decreases |a|
  {
    if a == [] {
      assert a + b == b;
    } else {
      assert (a + b)[0] == a[0];
      assert (a + b)[1..] == a[1..] + b;
      var next := Query(session, s, a[0].network, decode).snapshot;
      if !IsTerminal(next.status) {
        var head := [Fetch(JobStatusRequest(session, s).url)] + Wait(a[0].race, next);
        var rest := Run(session, next, a[1..], decode);
        RunConcat(session, next, a[1..], b, decode);
        if !rest.closed {
          var tail := Run(session, rest.snapshot, b, decode);
          assert head + (rest.trace + tail.trace) == (head + rest.trace) + tail.trace;
        }
      }
    }
  }

  /** One pass of the polling loop: a poll, then either the end of the run, or the wait and the rest of the run. */
  lemma RunUnfold(session: AuthSession, s: JobStatus, rounds: seq<Round>, decode: string -> Unmarshal<JobStatusFields>)
    requires rounds != []
    ensures var next := Query(session, s, rounds[0].network, decode).snapshot;
      Run(session, s, rounds, decode) ==
        if IsTerminal(next.status) then RunState([Fetch(s.callbackUrl), Publish(next), Stop, Close], next, true)
        else After([Fetch(s.callbackUrl)] + Wait(rounds[0].race, next), Run(session, next, rounds[1..], decode))
  {
  }

  lemma AfterAfter(a: seq<Event>, b: seq<Event>, r: RunState)
    ensures After(a, After(b, r)) == After(a + b, r)
  {
    assert a + (b + r.trace) == (a + b) + r.trace;
  }

  /**
   * JobStatusMonitor: the goroutine's copy of the snapshot, the events it has produced
   * and whether the stream is closed. `initial` and `consumed` record, for the proofs,
   * the snapshot it started from and the rounds it has been offered.
   */
  class Monitor {
    const session: AuthSession
    const decode: string -> Unmarshal<JobStatusFields>
    const jobStatus: JobStatusRef
    var trace: seq<Event>
    var closed: bool
    ghost const initial: JobStatus
    ghost var consumed: seq<Round>

    /** Everything the monitor has done is the run of the polling loop from its first snapshot. */
    ghost predicate Valid()
      reads this, jobStatus
    {
      var run := Run(session, initial, consumed, decode);
      trace == run.trace && jobStatus.value == run.snapshot && closed == run.closed
    }

    /** JobStatusMonitor: an open stream, and the goroutine holding its own copy of the snapshot. */
    constructor (session: AuthSession, jobStatus: JobStatus, decode: string -> Unmarshal<JobStatusFields>)
      ensures Valid() && fresh(this.jobStatus)
      ensures this.session == session && this.decode == decode && initial == jobStatus
      ensures this.jobStatus.value == jobStatus && trace == [] && !closed && consumed == []
    {
      this.session := session;
      this.decode := decode;
      this.jobStatus := new JobStatusRef(jobStatus);
      trace := [];
      closed := false;
      initial := jobStatus;
      consumed := [];
    }

    /**
     * The goroutine, offered the rounds that come to pass: the `for` loop polls, then
     * either sends the terminal snapshot, stops the ticker and closes the stream, or
     * waits for the next tick (sending first if a consumer is ready). Once the stream is
     * closed the goroutine has returned and nothing more happens.
     */
    method Poll(rounds: seq<Round>)
      requires Valid()
      modifies this, jobStatus
      ensures Valid() && consumed == old(consumed) + rounds
      ensures old(closed) ==> trace == old(trace) && closed && jobStatus.value == old(jobStatus.value)
      ensures !old(closed) ==>
        var run := Run(session, old(jobStatus.value), rounds, decode);
        trace == old(trace) + run.trace && jobStatus.value == run.snapshot && closed == run.closed
    {
      RunConcat(session, initial, consumed, rounds, decode);
      consumed := consumed + rounds;
      if closed {
        return;
      }
      ghost var whole := Run(session, jobStatus.value, rounds, decode);
      var events: seq<Event>, stopped, i := [], false, 0;
      while i < |rounds| && !stopped
        modifies jobStatus
        invariant 0 <= i <= |rounds|
        invariant !stopped ==> whole == After(events, Run(session, jobStatus.value, rounds[i..], decode))
        invariant stopped ==> whole == RunState(events, jobStatus.value, true)
      {
        assert rounds[i..][0] == rounds[i] && rounds[i..][1..] == rounds[i + 1..];
        RunUnfold(session, jobStatus.value, rounds[i..], decode);
        var url := jobStatus.value.callbackUrl;
        var _ := JobStatusQuery(session, jobStatus, rounds[i].network, decode);
        var snapshot := jobStatus.value;
        var pass;
        if IsTerminal(snapshot.status) {
          pass := [Fetch(url), Publish(snapshot), Stop, Close];
          stopped := true;
        } else {
          pass := [Fetch(url)] + Wait(rounds[i].race, snapshot);
          AfterAfter(events, pass, Run(session, snapshot, rounds[i + 1..], decode));
        }
        events := events + pass;
        i := i + 1;
      }
      assert !stopped ==> rounds[i..] == [];
      trace, closed := trace + events, stopped;
    }
  }
}
