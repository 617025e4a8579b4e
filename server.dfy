/**
 * The server process: the module-level session table that `initialize`
 * fills, and the endpoint applied to it one request at a time.
 */
module McpServer {
  import opened Wrappers
  import opened PyJson
  import opened Mcp

  /** A session table entry: `{'created_at': <ISO timestamp>}`. */
  datatype Session = Session(createdAt: string)

  /**
   * The session table after one request: a request that opens a session
   * stores it under its identifier, stamped with `now`; every other request
   * leaves the table as it was.
   */
  function Register(sessions: map<string, Session>, created: Option<string>, now: string): map<string, Session> {
    match created
    case Some(id) => sessions[id := Session(now)]
    case None => sessions
  }

  /**
   * The server: the PushPlus token it sends with every push and the
   * `sessions` table, which lives as long as the process.
   */
  class Server {
    const token: string
    var sessions: map<string, Session>

    constructor (token: string)
      ensures this.token == token && sessions == map[]
    {
      this.token := token;
      sessions := map[];
    }

    /**
     * One request to `/mcp`. `freshId` stands for the uuid4 an `initialize`
     * draws and `now` for the timestamp it records; `outcome` is what the
     * push call, if one is made, produces. Only `initialize` changes the
     * table, by adding the fresh identifier; no request removes one.
     */
    method Handle(req: Request, freshId: string, now: string, outcome: PushOutcome)
      returns (resp: Response, push: Option<PushRequest>)
      modifies this
      ensures resp == Respond(req, freshId, token, outcome).response
      ensures push == Respond(req, freshId, token, outcome).push
      ensures sessions == Register(old(sessions), Respond(req, freshId, token, outcome).created, now)
      ensures Initializes(req) ==> sessions == old(sessions)[freshId := Session(now)]
      ensures Initializes(req) ==> resp.headers[SessionHeader] == freshId
      ensures !Initializes(req) ==> sessions == old(sessions)
      ensures Initializes(req) && freshId !in old(sessions) ==>
        && sessions.Keys == old(sessions).Keys + {freshId}
        && |sessions| == |old(sessions)| + 1
        && forall id | id in old(sessions) :: sessions[id] == old(sessions)[id]
    {
      var h := Respond(req, freshId, token, outcome);
      if h.created.Some? {
        sessions := sessions[h.created.value := Session(now)];
      }
      resp, push := h.response, h.push;
    }
  }

  /** One request as the server meets it, with the fresh id, clock and push outcome it sees. */
  datatype Exchange = Exchange(req: Request, freshId: string, now: string, outcome: PushOutcome)

  /** The session table after a run of requests, each handled in turn. */
  function Replay(sessions: map<string, Session>, token: string, run: seq<Exchange>): map<string, Session>
    decreases |run|
  {
    if run == [] then sessions
    else
      var x := run[|run| - 1];
      var before := Replay(sessions, token, run[..|run| - 1]);
      Register(before, Respond(x.req, x.freshId, token, x.outcome).created, x.now)
  }

  /** The identifiers the `initialize` requests of a run draw, in order. */
  ghost function OpenedIds(run: seq<Exchange>): seq<string> {
    if run == [] then []
    else
      var x := run[|run| - 1];
      OpenedIds(run[..|run| - 1]) + (if Initializes(x.req) then [x.freshId] else [])
  }

  /**
   * Sessions are only ever added: after any run, the table holds the keys it
   * started with plus the identifiers drawn by the run's `initialize`
   * requests, and nothing else (DELETE does not remove a session).
   */
  lemma {:induction false} ReplayKeys(sessions: map<string, Session>, token: string, run: seq<Exchange>)
    ensures Replay(sessions, token, run).Keys == sessions.Keys + set id | id in OpenedIds(run)
  {
    if run != [] {
      var init := run[..|run| - 1];
      ReplayKeys(sessions, token, init);
    }
  }

  /**
   * When every drawn identifier is fresh (distinct, and new to the table),
   * each `initialize` grows the table by exactly one session.
   */
  lemma {:induction false} ReplayCount(sessions: map<string, Session>, token: string, run: seq<Exchange>)
    requires forall i, j | 0 <= i < j < |OpenedIds(run)| :: OpenedIds(run)[i] != OpenedIds(run)[j]
    requires forall i | 0 <= i < |OpenedIds(run)| :: OpenedIds(run)[i] !in sessions
    ensures |Replay(sessions, token, run)| == |sessions| + |OpenedIds(run)|
  {
    if run != [] {
      var init := run[..|run| - 1];
      var x := run[|run| - 1];
      assert OpenedIds(run)[..|OpenedIds(init)|] == OpenedIds(init);
      ReplayCount(sessions, token, init);
      if Initializes(x.req) {
        ReplayKeys(sessions, token, init);
        var last := |OpenedIds(run)| - 1;
        assert OpenedIds(run)[last] == x.freshId;
        assert x.freshId !in Replay(sessions, token, init) by {
          forall k | 0 <= k < |OpenedIds(init)| ensures OpenedIds(init)[k] != x.freshId {
            assert OpenedIds(init)[k] == OpenedIds(run)[k];
          }
        }
      }
    }
  }

  /**
   * A session, once opened, keeps the record it was opened with while later
   * requests draw fresh identifiers.
   */
  lemma {:induction false} ReplayKeepsSessions(sessions: map<string, Session>, token: string,
                                               run: seq<Exchange>, id: string)
    requires id in sessions
    requires id !in OpenedIds(run)
    ensures id in Replay(sessions, token, run) && Replay(sessions, token, run)[id] == sessions[id]
  {
    if run != [] {
      var init := run[..|run| - 1];
      ReplayKeepsSessions(sessions, token, init, id);
    }
  }
}
