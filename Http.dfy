/** The client's HTTP layer (frontend/src/http/index.js): the endpoint table
    and the response interceptor that answers a 401 by refreshing the tokens
    and reissuing the request once, marking it with `_retry`. The server is
    a script of answers, one per request sent, consumed in order. */
module Http {
  import opened Common

  datatype HttpMethod = Get | Post

  /** What one call of `api` sends: method, path, and whether a body is passed. */
  datatype Target = Target(verb: HttpMethod, path: string, hasBody: bool)

  datatype Endpoint =
    | SendOtp | VerifyOtp | Activate | Logout | Refresh
    | CreateRoom | GetAllRooms | GetRoom(roomId: string)

  const RoomsPath: string := "/api/rooms"

  /** The exported endpoint functions. Every path lies under `/api/`; the
      reads are GETs without a body, and only the endpoints that take `data`
      send one. */
  function EndpointTarget(e: Endpoint): (t: Target)
    ensures |t.path| > 5 && t.path[..5] == "/api/"
    ensures t.verb == Get <==> e.Refresh? || e.GetAllRooms? || e.GetRoom?
    ensures t.hasBody <==> e.SendOtp? || e.VerifyOtp? || e.Activate? || e.CreateRoom?
  {
    match e
    case SendOtp => Target(Post, "/api/send-otp", true)
    case VerifyOtp => Target(Post, "/api/verify-otp", true)
    case Activate => Target(Post, "/api/activate", true)
    case Logout => Target(Post, "/api/logout", false)
    case Refresh => Target(Get, "/api/refresh", false)
    case CreateRoom => Target(Post, RoomsPath, true)
    case GetAllRooms => Target(Get, RoomsPath, false)
    case GetRoom(roomId) => Target(Get, RoomsPath + "/" + roomId, false)
  }

  const RefreshTarget: Target := EndpointTarget(Refresh)

  /** `getRoom(id)` is a GET of `/api/rooms/` followed by the id; every
      other endpoint's target does not depend on its argument. */
  lemma GetRoomTarget(roomId: string)
    ensures var t := EndpointTarget(GetRoom(roomId));
      t.verb == Get && !t.hasBody && |t.path| == 11 + |roomId|
      && t.path[..11] == "/api/rooms/" && t.path[11..] == roomId
  {
  }

  /** No two endpoints share a target, so a request names the endpoint it came from. */
  lemma EndpointTableInjective(e1: Endpoint, e2: Endpoint)
    requires EndpointTarget(e1) == EndpointTarget(e2)
    ensures e1 == e2
  {
    if e1.GetRoom? && e2.GetRoom? {
      GetRoomTarget(e1.roomId);
      GetRoomTarget(e2.roomId);
    } else if e1.GetRoom? || e2.GetRoom? {
      var room := if e1.GetRoom? then e1 else e2;
      var other := if e1.GetRoom? then e2 else e1;
      GetRoomTarget(room.roomId);
      FixedTargetNotRoom(other);
      assert false;
    }
  }

  /** A fixed target is no room's: the room paths are GETs at least 11
      characters long with 'o' at index 6, and the only other GET path,
      `/api/refresh`, has 'e' there. */
  lemma FixedTargetNotRoom(e: Endpoint)
    requires !e.GetRoom?
    ensures var t := EndpointTarget(e); t.verb != Get || |t.path| < 11 || t.path[6] != 'o'
  {
  }

  /** What the server does with one request. `Failure(None)` is an error
      without a response, such as an unreachable backend. */
  datatype Answer = Ok | Failure(status: Option<nat>)

  datatype Decision = Reject | RefreshAndRetry

  /** The interceptor's error branch for an error with `status` whose
      config's `_retry` flag is `retry` (None: the error has no config;
      an unset flag is false). A missing or zero status rejects at once. */
  function OnError(status: Option<nat>, retry: Option<bool>): (d: Decision)
    ensures d == RefreshAndRetry <==> status == Some(401) && retry == Some(false)
    ensures (status == None || status == Some(0)) ==> d == Reject
  {
    if status == None || status.value == 0 then Reject
    else if status.value == 401 && retry.Some? && !retry.value then RefreshAndRetry
    else Reject
  }

  /** Whose error a request's promise is rejected with. */
  datatype Outcome = Resolved(target: Target) | Rejected(source: Target, status: Option<nat>) | Stalled

  /** How the refresh request is issued. `AsWritten`: through the same
      interceptor, with its own unset `_retry`. `RefreshMarked`: with
      `_retry` already set, so a failing refresh is not itself refreshed. */
  datatype Policy = AsWritten | RefreshMarked

  /** The requests sent, in order, and the answers not yet consumed. */
  datatype Run = Run(outcome: Outcome, sent: seq<Target>, rest: seq<Answer>)

  /** The settled result of `api(config)` for a config with `_retry == retry`.
      `Stalled` means the script ran out before the promise settled. */
  function RunRequest(policy: Policy, target: Target, retry: bool, script: seq<Answer>): (r: Run)
    ensures |r.rest| <= |script|
    ensures script != [] ==> |r.rest| < |script| && r.sent != [] && r.sent[0] == target
    ensures script == [] ==> r == Run(Stalled, [], [])
    decreases |script|
  {
    if script == [] then Run(Stalled, [], [])
    else match script[0]
      case Ok => Run(Resolved(target), [target], script[1..])
      case Failure(status) =>
        if OnError(status, Some(retry)) == Reject then Run(Rejected(target, status), [target], script[1..])
        else
          var refresh := RunRequest(policy, RefreshTarget, policy == RefreshMarked, script[1..]);
          if !refresh.outcome.Resolved? then Run(refresh.outcome, [target] + refresh.sent, refresh.rest)
          else
            var again := RunRequest(policy, target, true, refresh.rest);
            Run(again.outcome, [target] + refresh.sent + again.sent, again.rest)
  }

  /** A successful response passes through unchanged. */
  lemma SuccessPassesThrough(policy: Policy, target: Target, retry: bool, rest: seq<Answer>)
    ensures RunRequest(policy, target, retry, [Ok] + rest) == Run(Resolved(target), [target], rest)
  {
    assert ([Ok] + rest)[1..] == rest;
  }

  /** An error that is not a 401, or has no status at all, is rejected with
      that error and nothing more is sent. */
  lemma OtherErrorsRejected(policy: Policy, target: Target, retry: bool, status: Option<nat>, rest: seq<Answer>)
    requires status != Some(401)
    ensures RunRequest(policy, target, retry, [Failure(status)] + rest) == Run(Rejected(target, status), [target], rest)
  {
    assert ([Failure(status)] + rest)[1..] == rest;
  }

  /** A 401 on a request already marked is rejected: each request is retried at most once. */
  lemma MarkedRequestNotRetried(policy: Policy, target: Target, rest: seq<Answer>)
    ensures RunRequest(policy, target, true, [Failure(Some(401))] + rest)
         == Run(Rejected(target, Some(401)), [target], rest)
  {
    assert ([Failure(Some(401))] + rest)[1..] == rest;
  }

  /** A 401 on an unmarked request sends the refresh and, once it succeeds,
      reissues the marked request and settles as that second attempt does. */
  lemma UnauthorizedRefreshesThenRetries(policy: Policy, target: Target, again: Answer, rest: seq<Answer>)
    ensures var r := RunRequest(policy, target, false, [Failure(Some(401)), Ok, again] + rest);
      && r.sent == [target, RefreshTarget, target]
      && r.rest == rest
      && r.outcome == (if again.Ok? then Resolved(target)
                       else if OnError(again.status, Some(true)) == Reject then Rejected(target, again.status)
                       else Stalled)
  {
    var script := [Failure(Some(401)), Ok, again] + rest;
    assert script[1..] == [Ok] + ([again] + rest);
    SuccessPassesThrough(policy, RefreshTarget, policy == RefreshMarked, [again] + rest);
    assert ([again] + rest)[0] == again && ([again] + rest)[1..] == rest;
  }

  /** A refresh that fails settles the request with the refresh's own
      outcome, and the original request is not sent again. */
  lemma FailedRefreshNotRetried(policy: Policy, target: Target, script: seq<Answer>)
    requires script != [] && script[0] == Failure(Some(401))
    requires !RunRequest(policy, RefreshTarget, policy == RefreshMarked, script[1..]).outcome.Resolved?
    ensures var refresh := RunRequest(policy, RefreshTarget, policy == RefreshMarked, script[1..]);
      RunRequest(policy, target, false, script) == Run(refresh.outcome, [target] + refresh.sent, refresh.rest)
  {
  }

  /** With the refresh marked, one request leads to at most one refresh and
      at most one reissue: what it sends is a prefix of target, refresh, target. */
  lemma {:induction false} AtMostOneRefresh(target: Target, retry: bool, script: seq<Answer>)
    ensures RunRequest(RefreshMarked, target, retry, script).sent <= [target, RefreshTarget, target]
    ensures retry ==> RunRequest(RefreshMarked, target, retry, script).sent <= [target]
    decreases |script|
  {
    if script != [] && script[0].Failure? && OnError(script[0].status, Some(retry)) == RefreshAndRetry {
      var refresh := RunRequest(RefreshMarked, RefreshTarget, true, script[1..]);
      AtMostOneRefresh(RefreshTarget, true, script[1..]);
      if refresh.outcome.Resolved? {
        assert refresh.sent == [RefreshTarget];
        var again := RunRequest(RefreshMarked, target, true, refresh.rest);
        AtMostOneRefresh(target, true, refresh.rest);
      }
    }
  }

  function Repeat(a: Answer, n: nat): (s: seq<Answer>)
    ensures |s| == n && forall i :: 0 <= i < n ==> s[i] == a
  {
    if n == 0 then [] else [a] + Repeat(a, n - 1)
  }

  /** As written, a refresh answered by 401 is itself refreshed: against a
      server answering 401 to everything, every answer of the script is
      spent on another refresh and the request never settles. */
  lemma {:induction false} RefreshRecursesAsWritten(n: nat)
    requires n > 0
    ensures var r := RunRequest(AsWritten, RefreshTarget, false, Repeat(Failure(Some(401)), n));
      r == Run(Stalled, seq(n, _ => RefreshTarget), [])
  {
    var script := Repeat(Failure(Some(401)), n);
    assert script[1..] == Repeat(Failure(Some(401)), n - 1);
    if n > 1 {
      RefreshRecursesAsWritten(n - 1);
      assert [RefreshTarget] + seq(n - 1, _ => RefreshTarget) == seq(n, _ => RefreshTarget);
    }
  }

  /** So the number of refreshes one request triggers has no bound: three
      401 answers already produce two refresh requests. */
  lemma UnboundedRefreshesAsWritten(target: Target)
    ensures RunRequest(AsWritten, target, false, Repeat(Failure(Some(401)), 3)).sent
         == [target, RefreshTarget, RefreshTarget]
  {
    var script := Repeat(Failure(Some(401)), 3);
    assert script[1..] == Repeat(Failure(Some(401)), 2);
    RefreshRecursesAsWritten(2);
    assert seq(2, _ => RefreshTarget) == [RefreshTarget, RefreshTarget];
  }

  /** With the refresh marked, the same server answers a 401 to the refresh
      and the request is rejected with the refresh's error. */
  lemma RefreshMarkedSettles(target: Target, rest: seq<Answer>)
    ensures RunRequest(RefreshMarked, target, false, [Failure(Some(401)), Failure(Some(401))] + rest)
         == Run(Rejected(RefreshTarget, Some(401)), [target, RefreshTarget], rest)
  {
    var script := [Failure(Some(401)), Failure(Some(401))] + rest;
    assert script[1..] == [Failure(Some(401))] + rest;
    MarkedRequestNotRetried(RefreshMarked, RefreshTarget, rest);
  }

  /** An axios request config; `retry` is the `_retry` mark. */
  class RequestConfig {
    const target: Target
    var retry: bool

    constructor (target: Target, retry: bool)
      ensures this.target == target && this.retry == retry
    {
      this.target := target;
      this.retry := retry;
    }
  }

  /** The server side of the connection: the answers still to come and the
      requests sent so far. */
  class Network {
    var script: seq<Answer>
    var sent: seq<Target>

    constructor (script: seq<Answer>)
      ensures this.script == script && sent == []
    {
      this.script := script;
      sent := [];
    }

    /** Sends one request and takes the next answer. */
    method Send(target: Target) returns (answer: Option<Answer>)
      modifies this
      ensures old(script) == [] ==> answer == None && script == [] && sent == old(sent)
      ensures old(script) != [] ==>
        answer == Some(old(script)[0]) && script == old(script)[1..] && sent == old(sent) + [target]
    {
      if script == [] {
        return None;
      }
      answer := Some(script[0]);
      script := script[1..];
      sent := sent + [target];
    }
  }

  /** `api(config)` with the interceptor installed: on a 401 of an unmarked
      config, set its `_retry`, await the refresh, then reissue the config. */
  method Dispatch(policy: Policy, config: RequestConfig, net: Network) returns (outcome: Outcome)
    modifies config, net
    decreases |net.script|
    ensures var r := RunRequest(policy, config.target, old(config.retry), old(net.script));
      && outcome == r.outcome
      && net.sent == old(net.sent) + r.sent
      && net.script == r.rest
    ensures config.retry == (old(config.retry) || (old(net.script) != [] && old(net.script)[0] == Failure(Some(401))))
  {
    ghost var script := net.script;
    var answer := net.Send(config.target);
    if answer.None? {
      return Stalled;
    }
    match answer.value
    case Ok =>
      outcome := Resolved(config.target);
    case Failure(status) =>
      if OnError(status, Some(config.retry)) == Reject {
        outcome := Rejected(config.target, status);
      } else {
        config.retry := true;
        var refreshConfig := new RequestConfig(RefreshTarget, policy == RefreshMarked);
        var refreshed := Dispatch(policy, refreshConfig, net);
        if !refreshed.Resolved? {
          outcome := refreshed;
        } else {
          assert |net.script| < |script|;
          outcome := Dispatch(policy, config, net);
        }
      }
  }
}
