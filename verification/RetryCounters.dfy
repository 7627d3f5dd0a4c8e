/** Retries after a 429 answer and the counters that record them (src/api/request_handler.py). */
module RetryCounters {
  import opened Common

  type Path = string

  /** What one HTTP attempt comes to. `Refused` is a `RequestException` with the status of its
      response, if there is one; `Broken` is any other exception. */
  datatype Answer = Answered | Refused(status: Option<int>) | Broken

  datatype Metric = Responses | Retries | Succeeded | Failed

  /** The counters of each path: how often each metric was recorded. */
  type Metrics = map<Path, multiset<Metric>>

  function Count(metrics: Metrics, path: Path, m: Metric): nat {
    if path in metrics then metrics[path][m] else 0
  }

  /** `after` has the given counts more than `before` at one path, and the same at every other. */
  ghost predicate Tallied(before: Metrics, after: Metrics, path: Path, responses: nat, retries: nat, succeeded: nat,
                          failed: nat) {
    && Count(after, path, Responses) == Count(before, path, Responses) + responses
    && Count(after, path, Retries) == Count(before, path, Retries) + retries
    && Count(after, path, Succeeded) == Count(before, path, Succeeded) + succeeded
    && Count(after, path, Failed) == Count(before, path, Failed) + failed
    && forall p, m :: p != path ==> Count(after, p, m) == Count(before, p, m)
  }

  /** The same for all metrics at once. */
  ghost predicate TalliedBy(before: Metrics, after: Metrics, path: Path, count: Metric -> nat) {
    forall p, m :: Count(after, p, m) == Count(before, p, m) + if p == path then count(m) else 0
  }

  lemma TalliedIsTalliedBy(before: Metrics, after: Metrics, path: Path, count: Metric -> nat)
    requires Tallied(before, after, path, count(Responses), count(Retries), count(Succeeded), count(Failed))
    ensures TalliedBy(before, after, path, count)
  {
    forall p, m ensures Count(after, p, m) == Count(before, p, m) + if p == path then count(m) else 0 {
      match m
      case Responses =>
      case Retries =>
      case Succeeded =>
      case Failed =>
    }
  }

  // ---------------------------------------------------------------- one request

  predicate TooMany(a: Answer) {
    a == Refused(Some(429))
  }

  /** The attempt that settles the request: the first that is not retried. `tried` attempts were. */
  function LastAttempt(answers: nat -> Answer, maxRetries: int, tried: nat): nat
    decreases maxRetries - tried
  {
    if TooMany(answers(tried)) && tried < maxRetries then LastAttempt(answers, maxRetries, tried + 1) else tried
  }

  /** The settling attempt is the least one that is no 429 or has no retry left. */
  lemma {:induction false} LastAttemptIsFirst(answers: nat -> Answer, maxRetries: int, tried: nat)
    ensures
      var last := LastAttempt(answers, maxRetries, tried);
      && tried <= last && (last <= maxRetries || last == tried)
      && (!TooMany(answers(last)) || last >= maxRetries)
      && forall k :: tried <= k < last ==> TooMany(answers(k))
    decreases maxRetries - tried
  {
    if TooMany(answers(tried)) && tried < maxRetries {
      LastAttemptIsFirst(answers, maxRetries, tried + 1);
    }
  }

  /** An answer that is retried: a 429 of the board with a retry left. */
  predicate MetRetry(maxRetries: int, board: bool, answer: Answer, k: nat) {
    board && TooMany(answer) && k < maxRetries
  }

  function LastOf(board: bool, answers: nat -> Answer, maxRetries: int): nat {
    if board then LastAttempt(answers, maxRetries, 0) else 0
  }

  /** How often a request records each metric, when its last attempt is number `last`: every 429 and
      every retry of a board request, and how it ended if it met a 429. A broken attempt records no end. */
  function Recorded(board: bool, answer: Answer, last: nat, m: Metric): nat {
    var met := last + (if TooMany(answer) then 1 else 0);
    if !board then 0
    else
      match m
      case Responses => met
      case Retries => last
      case Succeeded => if met > 0 && answer.Answered? then 1 else 0
      case Failed => if met > 0 && answer.Refused? then 1 else 0
  }

  /** How often a request with these answers records each metric. */
  function RecordedBy(board: bool, answers: nat -> Answer, maxRetries: int, m: Metric): nat {
    var last := LastOf(board, answers, maxRetries);
    Recorded(board, answers(last), last, m)
  }

  function CountsOf(board: bool, answers: nat -> Answer, maxRetries: int): Metric -> nat {
    m => RecordedBy(board, answers, maxRetries, m)
  }

  function Attempts(board: bool, answers: nat -> Answer, maxRetries: int): nat {
    LastOf(board, answers, maxRetries) + 1
  }

  /** The counters balance: a request met a 429 exactly when it is counted as succeeded or failed, or
      broke after a retry; and it ran out of retries exactly when it has one response more than retries. */
  lemma RecordedBalances(board: bool, answers: nat -> Answer, maxRetries: int)
    ensures
      var last := LastOf(board, answers, maxRetries);
      var count := (m: Metric) => Recorded(board, answers(last), last, m);
      && count(Succeeded) + count(Failed) <= 1
      && (count(Responses) > 0 <==>
          count(Succeeded) + count(Failed) == 1 || (board && last > 0 && answers(last).Broken?))
      && count(Responses) - count(Retries) == (if board && TooMany(answers(last)) then 1 else 0)
      && (count(Responses) > count(Retries) ==> count(Failed) == 1 && count(Retries) == last && last >= maxRetries)
  {
    LastAttemptIsFirst(answers, maxRetries, 0);
  }

  /** Among the first `n` answers, those that are 429. */
  function Refusals(answers: nat -> Answer, n: nat): nat {
    if n == 0 then 0 else Refusals(answers, n - 1) + if answers(n - 1) == Refused(Some(429)) then 1 else 0
  }

  lemma {:induction false} AllAreRefusals(answers: nat -> Answer, n: nat)
    requires forall k :: 0 <= k < n ==> TooMany(answers(k))
    ensures Refusals(answers, n) == n
  {
    if n > 0 {
      AllAreRefusals(answers, n - 1);
    }
  }

  /** A request of the board is recorded with a response for each of its 429s and a retry for each attempt after the
      first, as succeeded or as failed by its last answer once it has met a 429, and no other request is recorded. */
  lemma RecordedIff(board: bool, answers: nat -> Answer, maxRetries: int)
    ensures
      var n := Attempts(board, answers, maxRetries);
      var count, met := CountsOf(board, answers, maxRetries), board && Refusals(answers, n) > 0;
      && count(Responses) == (if board then Refusals(answers, n) else 0)
      && count(Retries) == (if board then n - 1 else 0)
      && count(Succeeded) == (if met && answers(n - 1) == Answered then 1 else 0)
      && count(Failed) == (if met && answers(n - 1).Refused? then 1 else 0)
  {
    LastAttemptIsFirst(answers, maxRetries, 0);
    AllAreRefusals(answers, LastOf(board, answers, maxRetries));
  }

  /** A request makes at most one attempt more than the retries allowed. */
  lemma AttemptsAreBounded(board: bool, answers: nat -> Answer, maxRetries: int)
    ensures 1 <= Attempts(board, answers, maxRetries) <= (if maxRetries > 0 then maxRetries else 0) + 1
  {
    LastAttemptIsFirst(answers, maxRetries, 0);
  }

  // ---------------------------------------------------------------- the handler

  /** How a request ends for its caller: with a body, with a `RequestException` or with another exception. */
  datatype Ending = Json | Error(status: Option<int>) | Crash

  /** What the caller of the outer function gets: the body, `None`, or another exception. */
  datatype Reply = Body | NoBody | Escaped

  function ReplyOf(a: Answer): Reply {
    match a
    case Answered => Body
    case Refused(_) => NoBody
    case Broken => Escaped
  }

  function EndingOf(a: Answer): Ending {
    match a
    case Answered => Json
    case Refused(status) => Error(status)
    case Broken => Crash
  }

  /** The answers after the first `n`. */
  function After(answers: nat -> Answer, n: nat): nat -> Answer {
    (k: nat) => answers(n + k)
  }

  /** Whether a second request follows the first, which made `first` attempts, when a new token can be had. */
  predicate SendsAgain(answers: nat -> Answer, first: nat, renewable: bool)
    requires first > 0
  {
    answers(first - 1) == Refused(Some(401)) && renewable
  }

  /** The attempts of one request, or of both. */
  function AttemptsOfBoth(board: bool, answers: nat -> Answer, maxRetries: int, again: bool): nat {
    var first := Attempts(board, answers, maxRetries);
    first + if again then Attempts(board, After(answers, first), maxRetries) else 0
  }

  /** How often both requests together record each metric. */
  function CountsOfBoth(board: bool, answers: nat -> Answer, maxRetries: int, again: bool): Metric -> nat {
    var second := After(answers, Attempts(board, answers, maxRetries));
    (m: Metric) =>
      RecordedBy(board, answers, maxRetries, m) + if again then RecordedBy(board, second, maxRetries, m) else 0
  }

  /** What both requests leave of the counters when the last answer is number `last`. */
  ghost predicate Sent(board: bool, answers: nat -> Answer, maxRetries: int, renewable: bool, before: Metrics,
                       after: Metrics, path: Path, last: nat) {
    var again := SendsAgain(answers, Attempts(board, answers, maxRetries), renewable);
    && last + 1 == AttemptsOfBoth(board, answers, maxRetries, again)
    && TalliedBy(before, after, path, CountsOfBoth(board, answers, maxRetries, again))
  }

  lemma OneRequestIsSent(board: bool, answers: nat -> Answer, maxRetries: int, renewable: bool, a: Metrics, b: Metrics,
                         path: Path, last: nat)
    requires last == LastOf(board, answers, maxRetries) && !SendsAgain(answers, last + 1, renewable)
    requires
      var count := CountsOf(board, answers, maxRetries);
      Tallied(a, b, path, count(Responses), count(Retries), count(Succeeded), count(Failed))
    ensures Sent(board, answers, maxRetries, renewable, a, b, path, last)
  {
    TalliedIsTalliedBy(a, b, path, CountsOf(board, answers, maxRetries));
  }

  lemma TwoRequestsAreSent(board: bool, answers: nat -> Answer, maxRetries: int, renewable: bool, a: Metrics,
                           b: Metrics, c: Metrics, path: Path, first: nat, second: nat -> Answer, last: nat)
    requires first == LastOf(board, answers, maxRetries) + 1 && SendsAgain(answers, first, renewable)
    requires second == After(answers, first) && last == first + LastOf(board, second, maxRetries)
    requires
      var count := CountsOf(board, answers, maxRetries);
      Tallied(a, b, path, count(Responses), count(Retries), count(Succeeded), count(Failed))
    requires
      var count := CountsOf(board, second, maxRetries);
      Tallied(b, c, path, count(Responses), count(Retries), count(Succeeded), count(Failed))
    ensures Sent(board, answers, maxRetries, renewable, a, c, path, last)
  {
    TalliedIsTalliedBy(a, b, path, CountsOf(board, answers, maxRetries));
    TalliedIsTalliedBy(b, c, path, CountsOf(board, second, maxRetries));
    assert first == Attempts(board, answers, maxRetries);
  }

  lemma AnswerAfter(answers: nat -> Answer, n: nat, after: nat -> Answer, k: nat, m: nat)
    requires after == After(answers, n) && m == n + k
    ensures after(k) == answers(m)
  {}

  class RequestHandler {
    const maxRetries: int
    var metrics: Metrics
    var attempts: nat

    constructor (retries: int)
      ensures maxRetries == retries && metrics == map[] && attempts == 0
    {
      maxRetries, metrics, attempts := retries, map[], 0;
    }

    method RecordMetric(path: Path, metric: Metric)
      modifies `metrics
      ensures Tallied(old(metrics), metrics, path,
                      if metric == Responses then 1 else 0, if metric == Retries then 1 else 0,
                      if metric == Succeeded then 1 else 0, if metric == Failed then 1 else 0)
    {
      if path !in metrics {
        metrics := metrics[path := multiset{}];
      }
      metrics := metrics[path := metrics[path] + multiset{metric}];
    }

    /** Records the end of a request that was retried. */
    method RecordEnd(path: Path, metric: Metric, retries: nat)
      requires metric == Succeeded || metric == Failed
      modifies `metrics
      ensures Tallied(old(metrics), metrics, path, 0, 0, if metric == Succeeded && retries > 0 then 1 else 0,
                      if metric == Failed && retries > 0 then 1 else 0)
    {
      if retries > 0 {
        RecordMetric(path, metric);
      }
    }

    /** Records a 429, and the retry that follows it or the failure when none is left. */
    method RecordTooMany(path: Path, retries: nat) returns (again: bool)
      modifies `metrics
      ensures again <==> retries < maxRetries
      ensures Tallied(old(metrics), metrics, path, 1, if again then 1 else 0, 0, if again then 0 else 1)
    {
      RecordMetric(path, Responses);
      again := retries < maxRetries;
      RecordMetric(path, if again then Retries else Failed);
    }

    /** One attempt after some retries: its end is recorded unless it is to be made again. */
    method AttemptOnce(path: Path, board: bool, answer: Answer, retries: nat) returns (ending: Option<Ending>)
      modifies this
      ensures attempts == old(attempts) + 1
      ensures ending == if MetRetry(maxRetries, board, answer, retries) then None else Some(EndingOf(answer))
      ensures
        var again := MetRetry(maxRetries, board, answer, retries);
        Tallied(old(metrics), metrics, path, if board && TooMany(answer) then 1 else 0, if again then 1 else 0,
                if retries > 0 && answer.Answered? then 1 else 0,
                if !again && answer.Refused? && (retries > 0 || (board && TooMany(answer))) then 1 else 0)
    {
      attempts := attempts + 1;
      match answer
      case Broken =>
        ending := Some(Crash);
      case Answered =>
        RecordEnd(path, Succeeded, retries);
        ending := Some(Json);
      case Refused(status) =>
        if status != Some(429) || !board {
          RecordEnd(path, Failed, retries);
          return Some(Error(status));
        }
        var again := RecordTooMany(path, retries);
        ending := if again then None else Some(Error(status));
    }

    /** Sends one request, again after each 429 of the board while retries are left. */
    method RequestWithRetry(path: Path, board: bool, answers: nat -> Answer) returns (ending: Ending)
      modifies this
      ensures attempts == old(attempts) + Attempts(board, answers, maxRetries)
      ensures ending == EndingOf(answers(LastOf(board, answers, maxRetries)))
      ensures
        var count := CountsOf(board, answers, maxRetries);
        Tallied(old(metrics), metrics, path, count(Responses), count(Retries), count(Succeeded), count(Failed))
    {
      var retryCount := 0;
      while true
        invariant retryCount > 0 ==> board && retryCount <= maxRetries
        invariant attempts == old(attempts) + retryCount
        invariant board ==> LastAttempt(answers, maxRetries, 0) == LastAttempt(answers, maxRetries, retryCount)
        invariant Tallied(old(metrics), metrics, path, retryCount, retryCount, 0, 0)
        decreases maxRetries - retryCount
      {
        var settled := AttemptOnce(path, board, answers(retryCount), retryCount);
        if settled.Some? {
          assert LastOf(board, answers, maxRetries) == retryCount;
          return settled.value;
        }
        retryCount := retryCount + 1;
      }
    }

    /** Sends once more after a 401, when a new token can be had. The last answer is number `last`. */
    method SendTwice(path: Path, board: bool, answers: nat -> Answer, renewable: bool)
      returns (ending: Ending, ghost last: nat)
      modifies this
      ensures attempts == old(attempts) + last + 1 && ending == EndingOf(answers(last))
      ensures Sent(board, answers, maxRetries, renewable, old(metrics), metrics, path, last)
    {
      ghost var start := metrics;
      last := LastOf(board, answers, maxRetries);
      var before := attempts;
      ending := RequestWithRetry(path, board, answers);
      var first := attempts - before;
      ghost var between := metrics;
      if ending == Error(Some(401)) && renewable {
        var second := After(answers, first);
        ghost var more := LastOf(board, second, maxRetries);
        last := first + more;
        AnswerAfter(answers, first, second, more, last);
        ending := RequestWithRetry(path, board, second);
        TwoRequestsAreSent(board, answers, maxRetries, renewable, start, between, metrics, path, first, second, last);
      } else {
        OneRequestIsSent(board, answers, maxRetries, renewable, start, metrics, path, last);
      }
    }

    /** Sends once more with a new token after a 401, when there is one to be had. */
    method SendWithAuthRetry(path: Path, board: bool, answers: nat -> Answer, hasKey: bool, tokenEndpoint: bool,
                             newToken: bool)
      returns (reply: Reply)
      modifies this
      ensures attempts - old(attempts) <= 2 * ((if maxRetries > 0 then maxRetries else 0) + 1)
      ensures
        var first := Attempts(board, answers, maxRetries);
        var again := SendsAgain(answers, first, hasKey && !tokenEndpoint && newToken);
        && attempts == old(attempts) + AttemptsOfBoth(board, answers, maxRetries, again)
        && TalliedBy(old(metrics), metrics, path, CountsOfBoth(board, answers, maxRetries, again))
      ensures reply == ReplyOf(answers(attempts - old(attempts) - 1))
      ensures
        var first := Attempts(board, answers, maxRetries);
        var n := attempts - old(attempts);
        && (n > first <==> answers(first - 1) == Refused(Some(401)) && hasKey && !tokenEndpoint && newToken)
        && (reply == Body <==> answers(n - 1) == Answered) && (reply == Escaped <==> answers(n - 1) == Broken)
    {
      AttemptsAreBounded(board, answers, maxRetries);
      AttemptsAreBounded(board, After(answers, Attempts(board, answers, maxRetries)), maxRetries);
      var ending;
      ghost var last;
      ending, last := SendTwice(path, board, answers, hasKey && !tokenEndpoint && newToken);
      reply := match ending
        case Json => Body
        case Error(_) => NoBody
        case Crash => Escaped;
    }
  }

  // ---------------------------------------------------------------- concurrent requests

  /** Where a running request stands: sending; having met a 429; having recorded it with retries left
      or without; about to record its end; or done. */
  datatype Phase = Sending | Met | Again | Spent | Closing | Done

  /** A request with the answers it got so far. */
  datatype Request = Request(path: Path, board: bool, phase: Phase, answers: seq<Answer>)

  datatype System = System(requests: seq<Request>, metrics: Metrics)

  datatype Move = Start(path: Path, board: bool) | Receive(request: nat, answer: Answer) | RecordNext(request: nat)

  function Record(metrics: Metrics, path: Path, m: Metric): Metrics {
    metrics[path := (if path in metrics then metrics[path] else multiset{}) + multiset{m}]
  }

  /** The phase after an answer. `retries` retries came before it. */
  function AfterAnswer(board: bool, retries: nat, answer: Answer): Phase {
    if TooMany(answer) && board then Met
    else if retries > 0 && !answer.Broken? then Closing
    else Done
  }

  function Received(r: Request, answer: Answer): Request {
    r.(phase := AfterAnswer(r.board, |r.answers|, answer), answers := r.answers + [answer])
  }

  /** One atomic move of one request, or of a new one; the lock makes each record atomic. */
  function Next(maxRetries: int, s: System, move: Move): System {
    match move
    case Start(path, board) => s.(requests := s.requests + [Request(path, board, Sending, [])])
    case Receive(i, answer) =>
      if i < |s.requests| && s.requests[i].phase.Sending? then
        s.(requests := s.requests[i := Received(s.requests[i], answer)])
      else s
    case RecordNext(i) =>
      if i >= |s.requests| || s.requests[i].answers == [] then s
      else
        var r := s.requests[i];
        var retries := |r.answers| - 1;
        match r.phase
        case Met => Recording(s, i, Responses, if retries >= maxRetries then Spent else Again)
        case Again => Recording(s, i, Retries, Sending)
        case Spent => Recording(s, i, Failed, Done)
        case Closing => Recording(s, i, if r.answers[retries].Answered? then Succeeded else Failed, Done)
        case _ => s
  }

  function Recording(s: System, i: nat, m: Metric, phase: Phase): System
    requires i < |s.requests|
  {
    System(s.requests[i := s.requests[i].(phase := phase)], Record(s.metrics, s.requests[i].path, m))
  }

  function Run(maxRetries: int, moves: seq<Move>): System {
    if moves == [] then System([], map[])
    else Next(maxRetries, Run(maxRetries, moves[..|moves| - 1]), moves[|moves| - 1])
  }

  /** A board request whose last answer was a 429. */
  predicate Exhausted(r: Request) {
    r.board && r.answers != [] && TooMany(r.answers[|r.answers| - 1])
  }

  /** The retries a request has recorded, which are the attempts before the current one. */
  function Retried(r: Request): nat {
    if r.phase.Sending? || r.answers == [] then |r.answers| else |r.answers| - 1
  }

  function Number(condition: bool): nat {
    if condition then 1 else 0
  }

  /** What a request has recorded so far. */
  function Own(r: Request, m: Metric): nat {
    var ended := r.phase.Done? && r.answers != [];
    match m
    case Responses => Retried(r) + Number(r.phase.Again? || r.phase.Spent? || (ended && Exhausted(r)))
    case Retries => Retried(r)
    case Succeeded => Number(ended && Retried(r) > 0 && r.answers[|r.answers| - 1].Answered?)
    case Failed => Number(ended && r.answers[|r.answers| - 1].Refused? && (Retried(r) > 0 || Exhausted(r)))
  }

  /** The first `n` answers were retried. */
  ghost predicate OnlyRetries(maxRetries: int, board: bool, answers: seq<Answer>, n: nat) {
    forall k :: 0 <= k < n && k < |answers| ==> MetRetry(maxRetries, board, answers[k], k)
  }

  /** The answers of a request: 429s up to the last, retried while retries were left. */
  ghost predicate RequestSound(maxRetries: int, r: Request) {
    var n := |r.answers|;
    && (r.phase.Sending? || n > 0)
    && OnlyRetries(maxRetries, r.board, r.answers, Retried(r))
    && (r.phase.Met? || r.phase.Again? || r.phase.Spent? ==> r.board && TooMany(r.answers[n - 1]))
    && (r.phase.Again? ==> n - 1 < maxRetries)
    && (r.phase.Spent? ==> n - 1 >= maxRetries)
    && (r.phase.Closing? ==> n > 1 && !TooMany(r.answers[n - 1]) && !r.answers[n - 1].Broken?)
    && (r.phase.Done? && r.board && TooMany(r.answers[n - 1]) ==> n - 1 >= maxRetries)
  }

  function Sum(rs: seq<Request>, p: Path, f: Request -> nat): nat {
    if rs == [] then 0
    else Sum(rs[..|rs| - 1], p, f) + (if rs[|rs| - 1].path == p then f(rs[|rs| - 1]) else 0)
  }

  lemma {:induction false} SumUpdates(rs: seq<Request>, p: Path, f: Request -> nat, i: nat, r: Request)
    requires i < |rs| && r.path == rs[i].path
    ensures Sum(rs[i := r], p, f) == Sum(rs, p, f) + (if r.path == p then f(r) - f(rs[i]) else 0)
  {
    var n := |rs| - 1;
    if i == n {
      assert rs[i := r][..n] == rs[..n];
    } else {
      assert rs[i := r][..n] == rs[..n][i := r];
      SumUpdates(rs[..n], p, f, i, r);
    }
  }

  function OwnOf(m: Metric): Request -> nat {
    r => Own(r, m)
  }

  ghost predicate Sound(maxRetries: int, s: System) {
    && (forall i :: 0 <= i < |s.requests| ==> RequestSound(maxRetries, s.requests[i]))
    && forall p, m :: Count(s.metrics, p, m) == Sum(s.requests, p, OwnOf(m))
  }

  /** Recording a metric and entering a phase keeps a request sound and what it has recorded exact. */
  ghost predicate Fits(maxRetries: int, r: Request, metric: Metric, phase: Phase) {
    var after := r.(phase := phase);
    && RequestSound(maxRetries, after)
    && forall m :: Own(after, m) == Own(r, m) + (if m == metric then 1 else 0)
  }

  lemma RecordFits(maxRetries: int, r: Request)
    requires RequestSound(maxRetries, r) && r.answers != []
    ensures r.phase.Met? ==> Fits(maxRetries, r, Responses, if |r.answers| > maxRetries then Spent else Again)
    ensures r.phase.Again? ==> Fits(maxRetries, r, Retries, Sending)
    ensures r.phase.Spent? ==> Fits(maxRetries, r, Failed, Done)
    ensures r.phase.Closing? ==>
      Fits(maxRetries, r, if r.answers[|r.answers| - 1].Answered? then Succeeded else Failed, Done)
  {}

  lemma RecordCounts(metrics: Metrics, path: Path, metric: Metric, p: Path, m: Metric)
    ensures Count(Record(metrics, path, metric), p, m) ==
            Count(metrics, p, m) + if p == path && m == metric then 1 else 0
  {}

  lemma RecordingKeepsSound(maxRetries: int, s: System, i: nat, metric: Metric, phase: Phase)
    requires Sound(maxRetries, s) && i < |s.requests| && Fits(maxRetries, s.requests[i], metric, phase)
    ensures Sound(maxRetries, Recording(s, i, metric, phase))
  {
    var r, after := s.requests[i].(phase := phase), Recording(s, i, metric, phase);
    forall p, m ensures Count(after.metrics, p, m) == Sum(after.requests, p, OwnOf(m)) {
      RecordCounts(s.metrics, r.path, metric, p, m);
      SumUpdates(s.requests, p, OwnOf(m), i, r);
    }
  }

  /** An answer by itself records nothing. */
  lemma ReceivedRecordsNothing(r: Request, answer: Answer, m: Metric)
    requires r.phase.Sending?
    ensures Own(Received(r, answer), m) == Own(r, m)
  {
    var n, after := |r.answers|, Received(r, answer);
    assert |after.answers| == n + 1 && after.answers[n] == answer && Retried(after) == n == Retried(r);
    var ended := after.phase.Done?;
    assert !(after.phase.Again? || after.phase.Spent? || (ended && Exhausted(after)));
    assert !(ended && n > 0 && answer.Answered?);
    assert !(ended && answer.Refused? && (n > 0 || Exhausted(after)));
    match m
    case Responses =>
    case Retries =>
    case Succeeded =>
    case Failed =>
  }

  lemma ReceivedIsSound(maxRetries: int, r: Request, answer: Answer)
    requires RequestSound(maxRetries, r) && r.phase.Sending?
    ensures RequestSound(maxRetries, Received(r, answer))
  {
    var n, after := |r.answers|, Received(r, answer);
    assert Retried(r) == n == Retried(after) && after.answers[n] == answer;
    forall k | 0 <= k < n ensures MetRetry(maxRetries, r.board, after.answers[k], k) {
      assert after.answers[k] == r.answers[k];
    }
    assert OnlyRetries(maxRetries, r.board, after.answers, n);
    if n > 0 {
      assert MetRetry(maxRetries, r.board, r.answers[0], 0);
    }
  }

  lemma ReceiveKeepsSound(maxRetries: int, s: System, i: nat, answer: Answer)
    requires Sound(maxRetries, s) && i < |s.requests| && s.requests[i].phase.Sending?
    ensures Sound(maxRetries, Next(maxRetries, s, Receive(i, answer)))
  {
    var r := Received(s.requests[i], answer);
    ReceivedIsSound(maxRetries, s.requests[i], answer);
    forall p, m ensures Count(s.metrics, p, m) == Sum(s.requests[i := r], p, OwnOf(m)) {
      ReceivedRecordsNothing(s.requests[i], answer, m);
      SumUpdates(s.requests, p, OwnOf(m), i, r);
    }
  }

  lemma NextKeepsSound(maxRetries: int, s: System, move: Move)
    requires Sound(maxRetries, s)
    ensures Sound(maxRetries, Next(maxRetries, s, move))
  {
    match move
    case Start(path, board) =>
    case Receive(i, answer) =>
      if i < |s.requests| && s.requests[i].phase.Sending? {
        ReceiveKeepsSound(maxRetries, s, i, answer);
      }
    case RecordNext(i) =>
      if i < |s.requests| && s.requests[i].answers != [] {
        RecordNextKeepsSound(maxRetries, s, i);
      }
  }

  lemma RecordNextKeepsSound(maxRetries: int, s: System, i: nat)
    requires Sound(maxRetries, s) && i < |s.requests| && s.requests[i].answers != []
    ensures Sound(maxRetries, Next(maxRetries, s, RecordNext(i)))
  {
    var r := s.requests[i];
    RecordFits(maxRetries, r);
    match r.phase
    case Met => RecordingKeepsSound(maxRetries, s, i, Responses, if |r.answers| > maxRetries then Spent else Again);
    case Again => RecordingKeepsSound(maxRetries, s, i, Retries, Sending);
    case Spent => RecordingKeepsSound(maxRetries, s, i, Failed, Done);
    case Closing => RecordingKeepsSound(maxRetries, s, i, if r.answers[|r.answers| - 1].Answered? then Succeeded
                                        else Failed, Done);
    case _ =>
  }

  lemma {:induction false} RunIsSound(maxRetries: int, moves: seq<Move>)
    ensures Sound(maxRetries, Run(maxRetries, moves))
  {
    if moves != [] {
      RunIsSound(maxRetries, moves[..|moves| - 1]);
      NextKeepsSound(maxRetries, Run(maxRetries, moves[..|moves| - 1]), moves[|moves| - 1]);
    }
  }

  /** No request makes more attempts than its retries allow, at any time. */
  lemma {:induction false} NoRequestExceedsRetries(maxRetries: int, moves: seq<Move>, i: nat)
    requires i < |Run(maxRetries, moves).requests|
    ensures |Run(maxRetries, moves).requests[i].answers| <= (if maxRetries > 0 then maxRetries else 0) + 1
  {
    RunIsSound(maxRetries, moves);
    var r := Run(maxRetries, moves).requests[i];
    if |r.answers| > 1 {
      assert TooMany(r.answers[|r.answers| - 2]);
    }
  }

  /** A board request that got a 429 at least once. */
  ghost predicate MetTooMany(r: Request) {
    r.board && exists k :: 0 <= k < |r.answers| && r.answers[k] == Refused(Some(429))
  }

  predicate Broke(r: Request) {
    r.answers != [] && r.answers[|r.answers| - 1].Broken?
  }

  lemma {:induction false} SumsAgree(rs: seq<Request>, p: Path, f: Request -> nat, g: Request -> nat, h: Request -> nat)
    requires forall i :: 0 <= i < |rs| ==> f(rs[i]) + g(rs[i]) == h(rs[i])
    ensures Sum(rs, p, f) + Sum(rs, p, g) == Sum(rs, p, h)
  {
    if rs != [] {
      assert f(rs[|rs| - 1]) + g(rs[|rs| - 1]) == h(rs[|rs| - 1]);
      SumsAgree(rs[..|rs| - 1], p, f, g, h);
    }
  }

  ghost function Hits(): Request -> nat {
    r => Number(MetTooMany(r))
  }

  ghost function Breaks(): Request -> nat {
    r => Number(MetTooMany(r) && Broke(r))
  }

  function Exhaustions(): Request -> nat {
    r => Number(Exhausted(r))
  }

  ghost predicate AtRest(s: System) {
    forall i :: 0 <= i < |s.requests| ==> s.requests[i].phase.Done?
  }

  /** Under every interleaving, once all requests are done: `succeeded + failed` of a path is the number
      of its requests that met a 429, less those that broke afterwards, and `responses - retries` is the
      number that ran out of retries. */
  lemma {:induction false} CountersBalanceAtRest(maxRetries: int, moves: seq<Move>, p: Path)
    requires AtRest(Run(maxRetries, moves))
    ensures
      var s := Run(maxRetries, moves);
      && Count(s.metrics, p, Succeeded) + Count(s.metrics, p, Failed)
           + Sum(s.requests, p, Breaks()) == Sum(s.requests, p, Hits())
      && Count(s.metrics, p, Responses) == Count(s.metrics, p, Retries) + Sum(s.requests, p, Exhaustions())
  {
    RunIsSound(maxRetries, moves);
    var s := Run(maxRetries, moves);
    var ended := (r: Request) => Own(r, Succeeded) + Own(r, Failed);
    forall i | 0 <= i < |s.requests|
      ensures ended(s.requests[i]) + Breaks()(s.requests[i]) == Hits()(s.requests[i])
      ensures OwnOf(Retries)(s.requests[i]) + Exhaustions()(s.requests[i]) == OwnOf(Responses)(s.requests[i])
    {
      DoneBalances(maxRetries, s.requests[i]);
    }
    SumsAgree(s.requests, p, OwnOf(Succeeded), OwnOf(Failed), ended);
    SumsAgree(s.requests, p, ended, Breaks(), Hits());
    SumsAgree(s.requests, p, OwnOf(Retries), Exhaustions(), OwnOf(Responses));
  }

  /** The answers of a request that are 429. */
  function RefusalsIn(answers: seq<Answer>): nat {
    if answers == [] then 0
    else RefusalsIn(answers[..|answers| - 1]) + Number(answers[|answers| - 1] == Refused(Some(429)))
  }

  lemma {:induction false} AllButLastRefused(answers: seq<Answer>)
    requires forall k :: 0 <= k < |answers| ==> TooMany(answers[k])
    ensures RefusalsIn(answers) == |answers|
  {
    if answers != [] {
      AllButLastRefused(answers[..|answers| - 1]);
    }
  }

  /** What one request adds to a counter: a response for each 429 of a board request, a retry for each attempt after the
      first, and its end by its last answer if it has met a 429. */
  ghost function Adds(m: Metric): Request -> nat {
    (r: Request) =>
      match m
      case Responses => if r.board then RefusalsIn(r.answers) else 0
      case Retries => if r.answers == [] then 0 else |r.answers| - 1
      case Succeeded => Number(MetTooMany(r) && r.answers[|r.answers| - 1].Answered?)
      case Failed => Number(MetTooMany(r) && r.answers[|r.answers| - 1].Refused?)
  }

  lemma DoneAdds(maxRetries: int, r: Request, m: Metric)
    requires RequestSound(maxRetries, r) && r.phase.Done?
    ensures Own(r, m) == Adds(m)(r)
  {
    var n := |r.answers| - 1;
    forall k | 0 <= k < n ensures TooMany(r.answers[..n][k]) {
      assert MetRetry(maxRetries, r.board, r.answers[k], k);
    }
    AllButLastRefused(r.answers[..n]);
    if n > 0 {
      assert TooMany(r.answers[0]) && r.board;
    }
  }

  lemma {:induction false} SumsAreSame(rs: seq<Request>, p: Path, f: Request -> nat, g: Request -> nat)
    requires forall i :: 0 <= i < |rs| ==> f(rs[i]) == g(rs[i])
    ensures Sum(rs, p, f) == Sum(rs, p, g)
  {
    if rs != [] {
      var n := |rs| - 1;
      assert f(rs[n]) == g(rs[n]);
      SumsAreSame(rs[..n], p, f, g);
    }
  }

  /** Under every interleaving, once all requests are done each counter of a path is exactly what the answers of its
      requests add to it. */
  lemma CountersAreExactAtRest(maxRetries: int, moves: seq<Move>, p: Path, m: Metric)
    requires AtRest(Run(maxRetries, moves))
    ensures
      var s := Run(maxRetries, moves);
      Count(s.metrics, p, m) == Sum(s.requests, p, Adds(m))
  {
    RunIsSound(maxRetries, moves);
    var s := Run(maxRetries, moves);
    forall i | 0 <= i < |s.requests| ensures OwnOf(m)(s.requests[i]) == Adds(m)(s.requests[i]) {
      DoneAdds(maxRetries, s.requests[i], m);
    }
    SumsAreSame(s.requests, p, OwnOf(m), Adds(m));
  }

  lemma {:induction false} SumIsZero(rs: seq<Request>, p: Path, f: Request -> nat)
    ensures Sum(rs, p, f) == 0 <==> forall i :: 0 <= i < |rs| && rs[i].path == p ==> f(rs[i]) == 0
  {
    if rs != [] {
      var n := |rs| - 1;
      SumIsZero(rs[..n], p, f);
      assert forall i :: 0 <= i < n ==> rs[..n][i] == rs[i];
    }
  }

  /** So `succeeded + failed` counts exactly the requests that met a 429 if and only if none of them
      ended in an exception that is no `RequestException`. */
  lemma EveryHitIsCountedIff(maxRetries: int, moves: seq<Move>, p: Path)
    requires AtRest(Run(maxRetries, moves))
    ensures
      var s := Run(maxRetries, moves);
      Count(s.metrics, p, Succeeded) + Count(s.metrics, p, Failed) == Sum(s.requests, p, Hits()) <==>
        forall i :: 0 <= i < |s.requests| && s.requests[i].path == p && MetTooMany(s.requests[i]) ==>
          !Broke(s.requests[i])
  {
    CountersBalanceAtRest(maxRetries, moves, p);
    var rs := Run(maxRetries, moves).requests;
    SumIsZero(rs, p, Breaks());
    forall i | 0 <= i < |rs| ensures Breaks()(rs[i]) == 0 <==> !(MetTooMany(rs[i]) && Broke(rs[i])) {}
  }

  function BreakingRun(path: Path): seq<Move> {
    [Start(path, true), Receive(0, Refused(Some(429))), RecordNext(0), RecordNext(0), Receive(0, Broken)]
  }

  lemma RefusedAndRetried(path: Path)
    ensures Run(1, BreakingRun(path)[..4]).requests == [Request(path, true, Sending, [Refused(Some(429))])]
  {
    var moves, refused := BreakingRun(path), Refused(Some(429));
    var sent, met := Request(path, true, Sending, []), Request(path, true, Met, [refused]);
    var again, retried := met.(phase := Again), met.(phase := Sending);
    assert moves[..4][..3] == moves[..3] && moves[..3][..2] == moves[..2] && moves[..2][..1] == moves[..1]
      && moves[..1][..0] == [];
    assert Run(1, moves[..1]).requests == [sent];
    assert Received(sent, refused) == met && [sent][0 := met] == [met];
    assert Run(1, moves[..2]).requests == [met];
    assert [met][0 := again] == [again] && [again][0 := retried] == [retried];
    assert Run(1, moves[..3]).requests == [again];
  }

  /** A run in which the two numbers differ: a request is refused once and breaks when it is sent again. */
  lemma BrokenRequestIsNotCounted(path: Path)
    ensures
      var s := Run(1, BreakingRun(path));
      && AtRest(s) && |s.requests| == 1
      && Count(s.metrics, path, Succeeded) + Count(s.metrics, path, Failed) != Sum(s.requests, path, Hits())
  {
    RefusedAndRetried(path);
    var s := Run(1, BreakingRun(path));
    assert s.requests[0].answers == [Refused(Some(429)), Broken];
    assert TooMany(s.requests[0].answers[0]);
    EveryHitIsCountedIff(1, BreakingRun(path), path);
  }

  lemma DoneBalances(maxRetries: int, r: Request)
    requires RequestSound(maxRetries, r) && r.phase.Done?
    ensures Own(r, Succeeded) + Own(r, Failed) + Number(MetTooMany(r) && Broke(r)) == Number(MetTooMany(r))
    ensures Own(r, Retries) + Number(Exhausted(r)) == Own(r, Responses)
  {
    if |r.answers| > 1 {
      assert TooMany(r.answers[0]);
    }
  }
}
