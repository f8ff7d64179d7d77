/** The tool loop behind every model turn: stream a reply, run its calls, append
    both to the conversation, until a rule ends the turn. */
module Runner {
  import opened Wrappers
  import opened Strings
  import Chunker
  import Reply
  import Failures
  import Executor
  import Permissions

  type Message = Reply.Message
  type ToolCall = Reply.ToolCall

  const TOOL_MESSAGE_MAX_CHARS := 8000
  const NOT_RUN := "not run: turn interrupted"

  datatype ErrorKind = Transport | Server

  /** One model call as the adapter streams it: the deltas, then either an error
      or the reply's calls and its end. */
  datatype Stream = Stream(deltas: seq<Reply.Delta>, fault: Option<ErrorKind>, calls: seq<ToolCall>, end: Reply.End)

  /** What running a call answers. */
  datatype Answer = Answer(parses: bool, taints: bool, reply: Option<Failures.Result>)

  datatype Policy = Policy(maxPasses: nat, mustReport: bool, rule: Failures.Rule)

  datatype EndedBy =
    | NoToolCalls | ReportRan
    | Cancel | MaxTokens
    | SafeModeTrip | StuckTrip | UnboundLimit | MaxPasses
    | ModelError(kind: ErrorKind)

  // ---- texts ----

  function SpeechOf(ds: seq<Reply.Delta>): seq<string> {
    if ds == [] then []
    else SpeechOf(ds[..|ds| - 1]) + if ds[|ds| - 1].Speech? then [ds[|ds| - 1].text] else []
  }

  function ThinkOf(ds: seq<Reply.Delta>): seq<string> {
    if ds == [] then []
    else ThinkOf(ds[..|ds| - 1]) + if ds[|ds| - 1].Think? then [ds[|ds| - 1].text] else []
  }

  /** The adapter's promise (`Adapt`): the message is the reply verbatim,
      and a reply cut by max_tokens has no calls. */
  predicate StreamOk(s: Stream) {
    s.fault.None? ==>
    && s.end.message == Reply.Assistant(Join(SpeechOf(s.deltas)), Join(ThinkOf(s.deltas)), s.calls)
    && (s.end.finish == "length" ==> s.calls == [])
  }

  function PartialReply(reasoning: string, spoken: string): Option<Message> {
    if reasoning == "" && spoken == "" then None else Some(Reply.Assistant(spoken, reasoning, []))
  }

  // ---- well-formed conversations ----

  /** `ms` answers `calls` from the first to the last, in order. */
  predicate Answers(calls: seq<ToolCall>, ms: seq<Message>) {
    |ms| == |calls| && forall k | 0 <= k < |ms| :: ms[k].ToolResult? && ms[k].callId == calls[k].id
  }

  /** Assistant messages, each followed by exactly the answers to its calls. */
  predicate Rounds(ms: seq<Message>)
    decreases |ms|
  {
    ms == [] ||
    (&& ms[0].Assistant?
     && |ms| > |ms[0].calls|
     && Answers(ms[0].calls, ms[1..|ms[0].calls| + 1])
     && Rounds(ms[|ms[0].calls| + 1..]))
  }

  lemma {:induction false} RoundsAppend(a: seq<Message>, b: seq<Message>)
    requires Rounds(a) && Rounds(b)
    ensures Rounds(a + b)
    decreases |a|
  {
    if a == [] {
      assert a + b == b;
    } else {
      var n := |a[0].calls| + 1;
      SlicesOf(a, b, n);
      RoundsAppend(a[n..], b);
    }
  }

  lemma SlicesOf(a: seq<Message>, b: seq<Message>, n: nat)
    requires 1 <= n <= |a|
    ensures (a + b)[0] == a[0] && (a + b)[1..n] == a[1..n] && (a + b)[n..] == a[n..] + b
  {
  }

  lemma OneRound(m: Message, answers: seq<Message>)
    requires m.Assistant? && Answers(m.calls, answers)
    ensures Rounds([m] + answers)
  {
    var ms := [m] + answers;
    assert ms[1..|m.calls| + 1] == answers;
    assert ms[|m.calls| + 1..] == [];
  }

  /** What she said, according to the conversation. */
  function Contents(ms: seq<Message>): string {
    if ms == [] then ""
    else Contents(ms[..|ms| - 1]) + Words(ms[|ms| - 1])
  }

  function Words(m: Message): string { if m.Assistant? then m.content else "" }

  lemma ContentsLast(ms: seq<Message>, m: Message)
    ensures Contents(ms + [m]) == Contents(ms) + Words(m)
  {
    assert (ms + [m])[..|ms|] == ms;
  }

  lemma ContentsStep(a: seq<Message>, c: seq<Message>, last: Message)
    requires Contents(a + c) == Contents(a) + Contents(c)
    ensures Contents(a + (c + [last])) == Contents(a) + Contents(c + [last])
  {
    ListAssoc(a, c, [last]);
    ContentsLast(a + c, last);
    ContentsLast(c, last);
    ListAssoc(Contents(a), Contents(c), Words(last));
  }

  lemma ListAssoc<T>(a: seq<T>, b: seq<T>, c: seq<T>)
    ensures a + b + c == a + (b + c)
  {
  }

  lemma {:induction false} ContentsAppend(a: seq<Message>, b: seq<Message>)
    ensures Contents(a + b) == Contents(a) + Contents(b)
  {
    if b == [] {
      assert a + b == a;
    } else {
      var c, last := b[..|b| - 1], b[|b| - 1];
      ContentsAppend(a, c);
      assert b == c + [last];
      ContentsStep(a, c, last);
    }
  }

  lemma {:induction false} AnswersSayNothing(ms: seq<Message>)
    requires forall k | 0 <= k < |ms| :: ms[k].ToolResult?
    ensures Contents(ms) == ""
  {
    if ms != [] { AnswersSayNothing(ms[..|ms| - 1]); }
  }

  lemma RoundContents(m: Message, answers: seq<Message>)
    requires m.Assistant? && Answers(m.calls, answers)
    ensures Contents([m] + answers) == m.content
  {
    AnswersSayNothing(answers);
    ContentsAppend([m], answers);
    assert Contents([m]) == Contents([m][..0]) + m.content;
  }

  // ---- the failure rules ----

  ghost predicate Trips(rule: Failures.Rule, passes: seq<seq<Failures.Result>>) {
    || (rule.SafeMode? && Failures.Streak(Failures.Flat(passes)) >= Failures.FAIL_THRESHOLD)
    || (rule.StuckTool? && Failures.AnyStuck(Failures.Flat(passes)))
    || Failures.AnyRefused(passes)
  }

  /** None of the rules held at any earlier pass end. */
  ghost predicate Untripped(rule: Failures.Rule, passes: seq<seq<Failures.Result>>) {
    forall n | 0 <= n < |passes| :: !Trips(rule, passes[..n])
  }

  lemma UntrippedMore(rule: Failures.Rule, passes: seq<seq<Failures.Result>>, results: seq<Failures.Result>)
    requires Untripped(rule, passes) && !Trips(rule, passes)
    ensures Untripped(rule, passes + [results])
  {
    forall n | 0 <= n < |passes + [results]| ensures !Trips(rule, (passes + [results])[..n]) {
      assert (passes + [results])[..n] == if n == |passes| then passes else passes[..n];
    }
  }

  datatype Pass = Pass(
    reasoning: string,
    spoken: seq<string>,
    end: Option<Reply.End>,
    results: seq<Failures.Result>,
    answers: seq<Message>,
    reply: Option<Message>,
    error: Option<ErrorKind>,
    cancelled: bool)

  datatype TurnResult = TurnResult(endedBy: EndedBy, said: string, passes: nat, results: seq<Failures.Result>)

  /** What a pass promises of its reply and of what it spoke; `dropped`: the blank
      pieces of the reply, which were not. */
  ghost predicate PassOk(speaks: bool, p: Pass, dropped: seq<string>) {
    && (p.reply.Some? ==> p.reply.value.Assistant? && Answers(p.reply.value.calls, p.answers))
    && (p.reply.None? ==> p.answers == [] && Join(p.spoken) == "" && dropped == [])
    && (if speaks then p.reply.Some? ==> Agrees(p.reply.value.content, Join(p.spoken), dropped) else p.spoken == [] == dropped)
    && (p.error.Some? ==> p.answers == [] && dropped == [])
  }

  /** A pass cut short: its reply is what was thought and said. */
  function CutPass(speaks: bool, think: string, spoken: seq<string>, error: Option<ErrorKind>): (p: Pass)
    requires !speaks ==> spoken == []
    ensures PassOk(speaks, p, [])
    ensures p.reply.Some? ==> p.reply.value.content == Join(p.spoken) && p.reply.value.reasoning == think
  {
    Pass(think, spoken, None, [], [], PartialReply(think, Join(spoken)), error, error.None?)
  }

  /** A pass has its stream's fault or end, and a finished reply all its calls. */
  predicate FromStream(p: Pass, s: Stream) {
    && (p.error.Some? ==> p.error == s.fault)
    && (p.error.None? && !p.cancelled ==> s.fault.None?)
    && (p.end.Some? ==> p.end.value == s.end && p.reply.Some? && p.reply.value.Assistant?
                        && p.reply.value.calls == s.calls && p.reply.value.reasoning == Join(ThinkOf(s.deltas)))
    && (p.end.None? && p.reply.Some? ==> p.reply.value.Assistant? && p.reply.value.calls == [])
  }

  /** What of a pass goes into the conversation: nothing after a server error. */
  function Kept(p: Pass): seq<Message> {
    if p.error == Some(Server) then []
    else (if p.reply.Some? then [p.reply.value] else []) + p.answers
  }

  /** A pass's reply and the answers to its calls go into the conversation, unless the
      server refused it. */
  predicate Grew(before: seq<Message>, p: Pass, after: seq<Message>) {
    if p.reply.Some? && p.error != Some(Server) then after == before + [p.reply.value] + p.answers else after == before
  }

  /** The conversation grew by whole rounds; it and `lost` say what was said, and the
      blank pieces `dropped`. */
  ghost predicate Told(speaks: bool, said: seq<string>, start: seq<Message>, messages: seq<Message>, lost: string, dropped: seq<string>) {
    && start <= messages && Rounds(messages[|start|..])
    && (if speaks then Agrees(Contents(messages[|start|..]) + lost, Join(said), dropped) else said == [] == dropped)
  }

  /** Each request begins with the one before it, and the conversation with the last. */
  ghost predicate Prefixes(sent: seq<seq<Message>>, start: seq<Message>, messages: seq<Message>) {
    && (forall i | 0 <= i < |sent| :: start <= sent[i] <= messages)
    && (forall i, j | 0 <= i < j < |sent| :: sent[i] <= sent[j])
  }

  function NotRun(call: ToolCall): Failures.Result { Failures.Result(call.name, false, NOT_RUN, false) }

  function BadArguments(call: ToolCall): Failures.Result {
    Failures.Result(call.name, false, "arguments are not a JSON object", false)
  }

  function Done(call: ToolCall): Failures.Result { Failures.Result(call.name, true, "ok", false) }

  /** What a call that ran answers, and how the executor decided it: bad arguments never
      get there; else its tool's own result, or a refusal. */
  predicate RanAs(e: Executor.ToolExecutor, call: ToolCall, answer: Answer, out: Option<Executor.Ran>, result: Failures.Result) {
    if !answer.parses then out.None? && result == BadArguments(call)
    else
      && out.Some? && out.value.ask == Executor.Ask(e.Resolve(call.name), answer.taints, answer.reply)
      && match out.value.decision
         case Allow => result == answer.reply.GetOr(Done(call))
         case Unbound => result.tool == call.name && !result.success && result.unbound
         case Deny => result.tool == call.name && !result.success && !result.unbound
  }

  /** The calls that reached the executor, in order. */
  function Reached(outs: seq<Option<Executor.Ran>>): seq<Executor.Ran> {
    if outs == [] then []
    else
      var out := outs[|outs| - 1];
      Reached(outs[..|outs| - 1]) + if out.Some? then [out.value] else []
  }

  lemma ReachedMore(outs: seq<Option<Executor.Ran>>, out: Option<Executor.Ran>)
    ensures Reached(outs + [out]) == Reached(outs) + if out.Some? then [out.value] else []
  {
    assert (outs + [out])[..|outs|] == outs;
  }

  /** An allowed Report that ran without a failure: it has nothing to say. */
  predicate Reports(x: Executor.Ran) {
    x.decision.Allow? && x.ask.tool == Some(Permissions.Report) && x.ask.reply.None?
  }

  ghost predicate Reported(ran: seq<Executor.Ran>, from: nat) { exists i :: from <= i < |ran| && Reports(ran[i]) }

  /** The report is in exactly when it was before, or one of the calls since reported. */
  ghost predicate Reporting(was: bool, before: seq<Executor.Ran>, now: bool, after: seq<Executor.Ran>) {
    before <= after && (now <==> was || Reported(after, |before|))
  }

  lemma ReportingOn(was: bool, before: seq<Executor.Ran>, then_: bool, mid: seq<Executor.Ran>, now: bool, after: seq<Executor.Ran>)
    requires Reporting(was, before, then_, mid) && Reporting(then_, mid, now, after)
    ensures Reporting(was, before, now, after)
  {
    if Reported(mid, |before|) {
      var i :| |before| <= i < |mid| && Reports(mid[i]);
      assert Reports(after[i]);
    }
    if Reported(after, |before|) && !Reported(after, |mid|) {
      var i :| |before| <= i < |after| && Reports(after[i]);
      assert i < |mid| && mid[i] == after[i];
    }
  }

  function ToolMessage(call: ToolCall, result: Failures.Result): Message {
    Reply.ToolResult(call.id, MessageText(call.name, result.detail))
  }

  /** A call that ran and its result, or one that did not; and its message, with the
      call's id and the result's text. */
  predicate Answered(e: Executor.ToolExecutor, call: ToolCall, answer: Answer, ran: Option<Option<Executor.Ran>>,
                     result: Failures.Result, m: Message) {
    && (if ran.Some? then RanAs(e, call, answer, ran.value, result) else result == NotRun(call))
    && m == ToolMessage(call, result)
  }

  function At<T>(s: seq<T>, i: nat): Option<T> { if i < |s| then Some(s[i]) else None }

  /** The results so far: the first `|outs|` calls ran, the others did not. */
  ghost predicate Progress(e: Executor.ToolExecutor, calls: seq<ToolCall>, answers: nat -> Answer, from: nat,
                           outs: seq<Option<Executor.Ran>>, results: seq<Failures.Result>, ms: seq<Message>) {
    && |outs| <= |results| == |ms| <= |calls|
    && (forall i | 0 <= i < |results| :: Answered(e, calls[i], answers(from + i), At(outs, i), results[i], ms[i]))
  }

  lemma ProgressMore(e: Executor.ToolExecutor, calls: seq<ToolCall>, answers: nat -> Answer, from: nat,
                     outs: seq<Option<Executor.Ran>>, results: seq<Failures.Result>, ms: seq<Message>,
                     result: Failures.Result, ran: Option<Option<Executor.Ran>>)
    requires Progress(e, calls, answers, from, outs, results, ms) && |results| < |calls| && (ran.Some? ==> |outs| == |results|)
    requires Answered(e, calls[|results|], answers(from + |results|), ran, result, ToolMessage(calls[|results|], result))
    ensures Progress(e, calls, answers, from, if ran.Some? then outs + [ran.value] else outs, results + [result],
                     ms + [ToolMessage(calls[|results|], result)])
  {
    var m := ToolMessage(calls[|results|], result);
    var now := if ran.Some? then outs + [ran.value] else outs;
    forall i | 0 <= i < |results| + 1
      ensures Answered(e, calls[i], answers(from + i), At(now, i), (results + [result])[i], (ms + [m])[i])
    {
      if i < |results| { assert Answered(e, calls[i], answers(from + i), At(outs, i), results[i], ms[i]); }
    }
  }

  lemma ProgressAnswers(e: Executor.ToolExecutor, calls: seq<ToolCall>, answers: nat -> Answer, from: nat,
                        outs: seq<Option<Executor.Ran>>, results: seq<Failures.Result>, ms: seq<Message>)
    requires Progress(e, calls, answers, from, outs, results, ms) && |results| == |calls|
    ensures Answers(calls, ms)
  {
    forall k | 0 <= k < |ms| ensures ms[k].ToolResult? && ms[k].callId == calls[k].id {
      assert Answered(e, calls[k], answers(from + k), At(outs, k), results[k], ms[k]);
    }
  }

  /** Of `n` calls, those that run when an interrupt that comes up at `at` is looked at
      before each. */
  function Until(at: Option<nat>, clock: nat, n: nat): nat {
    if at.None? || clock + n < at.value then n else if at.value <= clock then 0 else at.value - clock - 1
  }

  // ---- the exits ----

  predicate Complete(p: Pass) { p.error.None? && !p.cancelled && p.end.Some? }

  /** The pass got as far as the failure rules. */
  predicate JudgedPass(policy: Policy, p: Pass, report: bool, judged: seq<seq<Failures.Result>>) {
    && Complete(p) && p.end.value.finish != "length" && !(policy.mustReport && report)
    && p.results != [] && judged != [] && judged[|judged| - 1] == p.results
  }

  /** The exit `why` is taken behind the pass `p`. */
  ghost predicate Ends(policy: Policy, why: EndedBy, p: Pass, report: bool, judged: seq<seq<Failures.Result>>) {
    match why
    case ModelError(k) => p.error == Some(k)
    case Cancel => p.error.None? && p.cancelled
    case MaxTokens => Complete(p) && p.end.value.finish == "length"
    case ReportRan => Complete(p) && p.end.value.finish != "length" && policy.mustReport && report
    case NoToolCalls => Complete(p) && p.end.value.finish != "length" && !(policy.mustReport && report) && p.results == []
    case SafeModeTrip =>
      JudgedPass(policy, p, report, judged)
      && policy.rule.SafeMode? && Failures.Streak(Failures.Flat(judged)) >= Failures.FAIL_THRESHOLD
    case StuckTrip => JudgedPass(policy, p, report, judged) && policy.rule.StuckTool? && Failures.AnyStuck(Failures.Flat(judged))
    case UnboundLimit =>
      && JudgedPass(policy, p, report, judged) && Failures.AnyRefused(judged)
      && !(policy.rule.SafeMode? && Failures.Streak(Failures.Flat(judged)) >= Failures.FAIL_THRESHOLD)
      && !(policy.rule.StuckTool? && Failures.AnyStuck(Failures.Flat(judged)))
    case MaxPasses => false
  }

  /** A complete reply that was not cut ends a turn that must report exactly when the
      report is in. */
  predicate ReportedRight(policy: Policy, why: EndedBy, p: Pass, report: bool) {
    policy.mustReport && Complete(p) && p.end.value.finish != "length" ==> (why == ReportRan <==> report)
  }

  lemma ReportEnds(policy: Policy, why: EndedBy, p: Pass, report: bool, judged: seq<seq<Failures.Result>>)
    requires Ends(policy, why, p, report, judged)
    ensures ReportedRight(policy, why, p, report)
  {
  }

  lemma NoneBefore(mustReport: bool, was: bool, before: seq<Executor.Ran>, now: bool, mid: seq<Executor.Ran>, after: seq<Executor.Ran>)
    requires Reporting(was, before, now, mid) && mid <= after && (mustReport ==> !now || mid == before)
    ensures |before| <= |mid| <= |after| && (mustReport ==> !Reported(after[..|mid|], |before|))
  {
    assert after[..|mid|] == mid;
  }

  /** At most one exit is taken. */
  lemma OneExit(policy: Policy, a: EndedBy, b: EndedBy, p: Pass, report: bool, judged: seq<seq<Failures.Result>>)
    requires Ends(policy, a, p, report, judged) && Ends(policy, b, p, report, judged)
    ensures a == b
  {
  }

  class TurnRunner {
    const policy: Policy
    const speaks: bool
    const executor: Executor.ToolExecutor
    const streams: nat -> Stream
    const answers: nat -> Answer
    const cancelAt: Option<nat>
    var clock: nat                    // cancel checks so far
    var executed: nat                 // calls run so far
    var report: bool                  // ctx.agent_report
    var passes: nat                   // model calls made
    var messages: seq<Message>
    var said: seq<string>
    ghost var sent: seq<seq<Message>>                    // the requests
    ghost var last: Option<Pass>                         // the pass that just ended
    ghost var dropped: seq<string>                       // blank pieces of finished replies
    ghost var judged: seq<seq<Failures.Result>>          // results given to the counters
    ghost var from: nat                                  // the executor's calls before the last pass

    constructor (policy: Policy, speaks: bool, executor: Executor.ToolExecutor, streams: nat -> Stream,
                 answers: nat -> Answer, cancelAt: Option<nat>, messages: seq<Message>)
      ensures this.policy == policy && this.speaks == speaks && this.executor == executor
      ensures this.streams == streams && this.messages == messages
      ensures said == [] && !report && passes == 0 && sent == [] && judged == [] && dropped == []
    {
      this.policy, this.speaks, this.executor := policy, speaks, executor;
      this.streams, this.answers, this.cancelAt, this.messages := streams, answers, cancelAt, messages;
      clock, executed, report, passes := 0, 0, false, 0;
      said, sent, judged, last, dropped, from := [], [], [], None, [], 0;
    }

    ghost predicate Valid()
      reads this, executor
    {
      executor.Valid() && forall n :: StreamOk(streams(n))
    }

    /** The interrupt flag; once up it stays up. */
    method Cancelled() returns (b: bool)
      modifies this`clock
      ensures b <==> cancelAt.Some? && cancelAt.value <= clock
      ensures clock == old(clock) + 1
    {
      clock := clock + 1;
      b := cancelAt.Some? && cancelAt.value <= clock;
    }

    /** `run_tool_calls`: the calls run in order until the interrupt is seen, the others
        answer NOT_RUN; none runs when the turn is stopped. */
    method RunToolCalls(calls: seq<ToolCall>, stopAll: bool)
      returns (results: seq<Failures.Result>, ms: seq<Message>, ghost outs: seq<Option<Executor.Ran>>)
      requires Valid()
      modifies this`clock, this`executed, this`report, executor
      ensures Valid() && Answers(calls, ms) && |results| == |calls|
      ensures Progress(executor, calls, answers, old(executed), outs, results, ms)
      ensures executor.ran == old(executor.ran) + Reached(outs) && executed == old(executed) + |outs|
      ensures |outs| == (if stopAll then 0 else Until(cancelAt, old(clock), |calls|))
      ensures clock == old(clock) + if stopAll then 0 else |calls|
      ensures Reporting(old(report), old(executor.ran), report, executor.ran)
    {
      results, ms, outs := [], [], [];
      ghost var from, at, before, wasReport := executed, clock, executor.ran, report;
      for k := 0 to |calls|
        invariant Valid() && |results| == k
        invariant Along(calls, stopAll, from, at, before, wasReport, outs, results, ms)
      {
        results, ms, outs := CallNext(calls, stopAll, from, at, before, wasReport, outs, results, ms);
      }
      ProgressAnswers(executor, calls, answers, from, outs, results, ms);
    }

    /** How far `RunToolCalls` is. */
    ghost predicate Along(calls: seq<ToolCall>, stopAll: bool, from: nat, at: nat, before: seq<Executor.Ran>, wasReport: bool,
                          outs: seq<Option<Executor.Ran>>, results: seq<Failures.Result>, ms: seq<Message>)
      reads this`executed, this`clock, this`report, executor
    {
      && Progress(executor, calls, answers, from, outs, results, ms) && executed == from + |outs|
      && executor.ran == before + Reached(outs) && Reporting(wasReport, before, report, executor.ran)
      && |outs| == (if stopAll then 0 else Until(cancelAt, at, |results|))
      && clock == at + if stopAll then 0 else |results|
    }

    method CallNext(calls: seq<ToolCall>, stopAll: bool, ghost from: nat, ghost at: nat, ghost before: seq<Executor.Ran>,
                    ghost wasReport: bool, ghost outs: seq<Option<Executor.Ran>>, results: seq<Failures.Result>, ms: seq<Message>)
      returns (results2: seq<Failures.Result>, ms2: seq<Message>, ghost outs2: seq<Option<Executor.Ran>>)
      requires Valid() && |results| < |calls| && Along(calls, stopAll, from, at, before, wasReport, outs, results, ms)
      modifies this`clock, this`executed, this`report, executor
      ensures Valid() && |results2| == |results| + 1 && Along(calls, stopAll, from, at, before, wasReport, outs2, results2, ms2)
    {
      var call := calls[|results|];
      var result;
      ghost var ran;
      ghost var was, had := executor.ran, report;
      result, ran := OneCall(call, stopAll);
      ProgressMore(executor, calls, answers, from, outs, results, ms, result, ran);
      ReportingOn(wasReport, before, had, was, report, executor.ran);
      if ran.Some? { ReachedMore(outs, ran.value); }
      outs2 := if ran.Some? then outs + [ran.value] else outs;
      results2, ms2 := results + [result], ms + [ToolMessage(call, result)];
    }

    predicate Stopped()
      reads this`clock
    {
      Up(clock)
    }

    /** The interrupt is seen by look number `n`. */
    predicate Up(n: nat) { cancelAt.Some? && cancelAt.value <= n }

    /** The interrupt is looked at before the call. */
    method OneCall(call: ToolCall, stopAll: bool) returns (result: Failures.Result, ghost ran: Option<Option<Executor.Ran>>)
      requires Valid()
      modifies this`clock, this`executed, this`report, executor
      ensures Valid() && (ran.Some? <==> !stopAll && !Up(old(clock) + 1)) && clock == old(clock) + if stopAll then 0 else 1
      ensures executed == old(executed) + if ran.Some? then 1 else 0
      ensures executor.ran == old(executor.ran) + if ran.Some? && ran.value.Some? then [ran.value.value] else []
      ensures Answered(executor, call, answers(old(executed)), ran, result, ToolMessage(call, result))
      ensures Reporting(old(report), old(executor.ran), report, executor.ran)
    {
      ran := None;
      if stopAll { return NotRun(call), ran; }
      var stop := Cancelled();
      if stop { return NotRun(call), ran; }
      ghost var out;
      result, out := RunCall(call);
      ran := Some(out);
    }

    /** One call: arguments that do not parse never reach the executor. */
    method RunCall(call: ToolCall) returns (result: Failures.Result, ghost out: Option<Executor.Ran>)
      requires Valid()
      modifies this`executed, this`report, executor
      ensures Valid() && executed == old(executed) + 1
      ensures RanAs(executor, call, answers(old(executed)), out, result)
      ensures executor.ran == old(executor.ran) + if out.Some? then [out.value] else []
      ensures Reporting(old(report), old(executor.ran), report, executor.ran)
    {
      var answer := answers(executed);
      executed := executed + 1;
      out := None;
      if !answer.parses { return BadArguments(call), out; }
      var r := executor.Run(call.name, answer.taints, answer.reply);
      out := Some(executor.ran[|old(executor.ran)|]);
      if r.None? {
        if executor.Resolve(call.name) == Some(Permissions.Report) { report := true; }
        return Done(call), out;
      }
      return r.value, out;
    }

    /** `_stream_one_pass`, on model call `index`. It is cut exactly when the interrupt
        was up at its last look; `outs`: its calls that ran. */
    method StreamOnePass(index: nat) returns (p: Pass, ghost blanks: seq<string>, ghost outs: seq<Option<Executor.Ran>>)
      requires Valid()
      modifies this`clock, this`executed, this`report, this`said, executor
      ensures Valid()
      ensures said == old(said) + p.spoken
      ensures PassOk(speaks, p, blanks) && |p.results| == |p.answers|
      ensures p.error.Some? ==> !p.cancelled && p.results == []
      ensures p.error.None? && !p.cancelled ==> p.end.Some? && p.reply == Some(p.end.value.message)
      ensures (p.cancelled ==> Stopped()) && (!old(Stopped()) ==> (p.cancelled <==> Stopped()))
      ensures FromStream(p, streams(index))
      ensures CallsRan(p, streams(index).calls, old(executed), old(report), old(executor.ran), outs)
    {
      blanks, outs := [], [];
      var st := streams(index);
      var chunker, think, spoken, stop;
      ghost var cuts;
      chunker, think, spoken, stop, cuts := Listen(st);
      if stop || st.fault.Some? {
        p := CutPass(speaks, think, spoken, if stop then None else st.fault);
        return;
      }
      p, blanks, outs := EndReply(st, chunker, think, spoken, cuts);
    }

    /** The stream to its end, its fault or an interrupt. */
    method Listen(st: Stream)
      returns (chunker: Chunker.SentenceChunker, think: string, spoken: seq<string>, stop: bool, ghost cuts: seq<string>)
      modifies this`clock, this`said
      ensures fresh(chunker) && said == old(said) + spoken
      ensures (stop ==> Stopped()) && (!old(Stopped()) ==> (stop <==> Stopped()))
      ensures !stop && st.fault.None? ==> think == Join(ThinkOf(st.deltas))
      ensures !stop && st.fault.None? && speaks ==> Cutting(cuts, chunker.buf, SpeechOf(st.deltas), spoken)
      ensures !speaks ==> spoken == []
    {
      chunker := new Chunker.SentenceChunker(120);
      var thought, speech;
      thought, speech, spoken, stop, cuts := StreamDeltas(st.deltas, chunker);
      think := Join(thought);
      if !stop && st.fault.None? { stop := Cancelled(); }
    }

    /** Behind a finished reply each call has its result, and all of them ran unless the
        pass was cut; without one nothing ran. The report is in as it should. */
    ghost predicate CallsRan(p: Pass, calls: seq<ToolCall>, at: nat, wasReport: bool, before: seq<Executor.Ran>,
                             outs: seq<Option<Executor.Ran>>)
      reads this`report, executor
    {
      && (if p.end.None? then p.results == [] && outs == []
          else Progress(executor, calls, answers, at, outs, p.results, p.answers) && (!p.cancelled ==> |outs| == |calls|))
      && executor.ran == before + Reached(outs) && Reporting(wasReport, before, report, executor.ran)
    }

    /** Behind the stream: the last sentence, then the calls. */
    method EndReply(st: Stream, chunker: Chunker.SentenceChunker, think: string, spoken: seq<string>, ghost cuts: seq<string>)
      returns (p: Pass, ghost blanks: seq<string>, ghost outs: seq<Option<Executor.Ran>>)
      requires Valid() && StreamOk(st) && st.fault.None?
      requires speaks ==> Cutting(cuts, chunker.buf, SpeechOf(st.deltas), spoken)
      requires !speaks ==> spoken == []
      modifies this`clock, this`executed, this`report, this`said, executor, chunker
      ensures Valid() && FromStream(p, st)
      ensures spoken <= p.spoken && said == old(said) + p.spoken[|spoken|..]
      ensures PassOk(speaks, p, blanks) && p.end == Some(st.end) && p.error.None?
      ensures |p.results| == |p.answers|
      ensures !p.cancelled ==> p.reply == Some(st.end.message)
      ensures p.cancelled <==> Stopped()
      ensures CallsRan(p, st.calls, old(executed), old(report), old(executor.ran), outs)
    {
      blanks := [];
      var stop := Cancelled();
      if stop {
        var results, ms;
        results, ms, outs := RunToolCalls(st.calls, true);
        p := Pass(think, spoken, Some(st.end), results, ms,
                  Some(Reply.Assistant(Join(spoken), st.end.message.reasoning, st.calls)), None, true);
        AgreesSame(Join(spoken));
        return;
      }
      var more := [];
      if speaks {
        LastCut(cuts, chunker.buf, SpeechOf(st.deltas), spoken);
        blanks := Blanks(cuts + if chunker.buf == "" then [] else [chunker.buf]);
        more := chunker.Flush();
        said := said + more;
      }
      var results, ms;
      results, ms, outs := RunToolCalls(st.calls, false);
      stop := Cancelled();
      p := Pass(think, spoken + more, Some(st.end), results, ms, Some(st.end.message), None, stop);
    }

    /** The stream's deltas, spoken sentence by sentence; `stop`: cut mid-stream. */
    method StreamDeltas(deltas: seq<Reply.Delta>, chunker: Chunker.SentenceChunker)
      returns (think: seq<string>, speech: seq<string>, spoken: seq<string>, stop: bool, ghost cuts: seq<string>)
      requires chunker.max == 120 && chunker.buf == ""
      modifies this`clock, this`said, chunker
      ensures said == old(said) + spoken
      ensures !stop ==> think == ThinkOf(deltas) && speech == SpeechOf(deltas)
      ensures (stop ==> Stopped()) && (!stop ==> !Stopped() || clock == old(clock))
      ensures speaks ==> Cutting(cuts, chunker.buf, speech, spoken)
      ensures !speaks ==> spoken == []
    {
      think, speech, spoken, stop, cuts := [], [], [], false, [];
      assert deltas[..0] == [];
      for n := 0 to |deltas|
        invariant said == old(said) + spoken
        invariant think == ThinkOf(deltas[..n]) && speech == SpeechOf(deltas[..n]) && !stop
        invariant speaks ==> Cutting(cuts, chunker.buf, speech, spoken)
        invariant !speaks ==> spoken == []
        invariant !Stopped() || clock == old(clock)
      {
        stop := Cancelled();
        if stop { return; }
        assert deltas[..n + 1][..n] == deltas[..n];
        if deltas[n].Think? {
          think := think + [deltas[n].text];
        } else {
          if speaks {
            var out;
            ghost var more;
            ghost var before := chunker.buf;
            out, more := chunker.Feed(deltas[n].text);
            MoreCuts(cuts, before, speech, spoken, more, deltas[n].text, chunker.buf);
            cuts := cuts + more;
            spoken := spoken + out;
            said := said + out;
          }
          speech := speech + [deltas[n].text];
        }
      }
      assert deltas[..|deltas|] == deltas;
    }

    /** `TurnRunner.run`. However the turn ends: the conversation only grew at its
        end, by whole rounds; every request is a prefix of the next and of the
        conversation; what was spoken is what the conversation says was spoken
        (after a server error: and what that last reply said); and the failure
        rules ended it at the first pass end at which one of them held. The report is
        in exactly when one of the turn's calls reported; of a turn that must report,
        only its last pass, which it then ends. It is cut exactly when its last look at
        the interrupt found it up. */
    method Run() returns (result: TurnResult, ghost lost: string)
      requires Valid() && said == [] && passes == 0 && sent == [] && judged == [] && dropped == []
      modifies this, executor
      ensures Valid()
      ensures |sent| <= policy.maxPasses && |sent| == result.passes
      ensures Prefixes(sent, old(messages), messages)
      ensures result.said == Join(said) && Failures.Flat(judged) <= result.results
      ensures Told(speaks, said, old(messages), messages, lost, dropped) && (result.endedBy != ModelError(Server) ==> lost == "")
      ensures Untripped(policy.rule, judged)
      ensures Trips(policy.rule, judged) <==> result.endedBy in {SafeModeTrip, StuckTrip, UnboundLimit}
      ensures if result.endedBy == MaxPasses then result.passes == policy.maxPasses == |judged| else EndOk(result.endedBy)
      ensures policy.maxPasses > 0 ==> (result.endedBy == Cancel <==> Stopped())
      ensures Reporting(old(report), old(executor.ran), report, executor.ran)
      ensures NoneEarlier(old(executor.ran)) && ReportRight(result.endedBy)
    {
      last, from := None, |executor.ran|;
      var failures := new Failures.Counters(policy.rule);
      assert messages[|messages|..] == [];
      var endedBy, all;
      endedBy, all, lost := Loop(failures, messages, executor.ran, report);
      result := TurnResult(endedBy, Join(said), passes, all);
    }

    /** The passes. */
    method Loop(failures: Failures.Counters, ghost start: seq<Message>, ghost before: seq<Executor.Ran>, ghost wasReport: bool)
      returns (endedBy: EndedBy, all: seq<Failures.Result>, ghost lost: string)
      requires Valid() && failures.rule == policy.rule && Going(0, [], failures, start, before, wasReport)
      modifies this, executor, failures
      ensures Over(endedBy, all, start, lost, before, wasReport)
    {
      all, lost := [], "";
      for index := 0 to policy.maxPasses
        invariant Valid() && failures.rule == policy.rule && lost == ""
        invariant Going(index, all, failures, start, before, wasReport)
      {
        var ended;
        ended, all, lost := Step(index, all, failures, start, before, wasReport);
        if ended.Some? { return ended.value, all, lost; }
      }
      endedBy := MaxPasses;
    }

    /** What a turn leaves behind, however it ended. */
    ghost predicate Over(endedBy: EndedBy, all: seq<Failures.Result>, start: seq<Message>, lost: string,
                         before: seq<Executor.Ran>, wasReport: bool)
      reads this, executor
    {
      && Valid() && |sent| == passes <= policy.maxPasses && Failures.Flat(judged) <= all
      && Told(speaks, said, start, messages, lost, dropped) && Prefixes(sent, start, messages)
      && (endedBy != ModelError(Server) ==> lost == "")
      && Untripped(policy.rule, judged) && (Trips(policy.rule, judged) <==> endedBy in {SafeModeTrip, StuckTrip, UnboundLimit})
      && (if endedBy == MaxPasses then passes == policy.maxPasses == |judged| else EndOk(endedBy))
      && (policy.maxPasses > 0 ==> (endedBy == Cancel <==> Stopped()))
      && Reporting(wasReport, before, report, executor.ran) && NoneEarlier(before) && ReportRight(endedBy)
    }

    /** Before pass `index`. */
    ghost predicate Going(index: nat, all: seq<Failures.Result>, failures: Failures.Counters, start: seq<Message>,
                          before: seq<Executor.Ran>, wasReport: bool)
      reads this, executor, failures
    {
      && failures.Valid() && failures.passes == judged && |sent| == passes == index == |judged| && all == Failures.Flat(judged)
      && Told(speaks, said, start, messages, "", dropped) && Prefixes(sent, start, messages)
      && Untripped(policy.rule, judged) && !Trips(policy.rule, judged)
      && Reporting(wasReport, before, report, executor.ran) && NoneEarlier(before)
      && (if index == 0 then last.None? && report == wasReport && executor.ran == before
          else !Stopped() && last.Some? && JudgedPass(policy, last.value, report, judged))
    }

    /** A turn that ends with its report had none before its last pass. */
    ghost predicate NoneEarlier(before: seq<Executor.Ran>)
      reads this`from, executor
    {
      && |before| <= from <= |executor.ran|
      && (policy.mustReport ==> !Reported(executor.ran[..from], |before|))
    }

    /** The pass that ran to its end, if it was the last, and the report agree. */
    ghost predicate ReportRight(ended: EndedBy)
      reads this`last, this`report
    {
      last.Some? ==> ReportedRight(policy, ended, last.value, report)
    }

    method Step(index: nat, all: seq<Failures.Result>, failures: Failures.Counters, ghost start: seq<Message>,
                ghost before: seq<Executor.Ran>, ghost wasReport: bool)
      returns (ended: Option<EndedBy>, results: seq<Failures.Result>, ghost lost: string)
      requires Valid() && failures.rule == policy.rule && Going(index, all, failures, start, before, wasReport)
      modifies this, executor, failures
      ensures Behind(ended, results, failures, start, lost) && Reporting(wasReport, before, report, executor.ran) && NoneEarlier(before)
      ensures if ended.None? then lost == "" && Going(index + 1, results, failures, start, before, wasReport)
              else |sent| <= index + 1 && ReportRight(ended.value)
    {
      ghost var had, was := report, executor.ran;
      ended, results, lost := OnePass(index, all, failures, start);
      ReportingOn(wasReport, before, had, was, report, executor.ran);
      NoneBefore(policy.mustReport, wasReport, before, had, was, executor.ran);
      if ended.Some? && last.Some? { ReportEnds(policy, ended.value, last.value, report, judged); }
    }

    /** Behind a turn of the loop, ended or going on. */
    ghost predicate Behind(ended: Option<EndedBy>, results: seq<Failures.Result>, failures: Failures.Counters,
                           start: seq<Message>, lost: string)
      reads this, executor, failures
    {
      && Valid() && failures.Valid() && failures.passes == judged && passes == |sent|
      && Told(speaks, said, start, messages, lost, dropped) && Prefixes(sent, start, messages)
      && (ended != Some(ModelError(Server)) ==> lost == "")
      && Untripped(policy.rule, judged)
      && (Trips(policy.rule, judged) <==> ended.Some? && ended.value in {SafeModeTrip, StuckTrip, UnboundLimit})
      && Failures.Flat(judged) <= results
      && (if ended.None? then results == Failures.Flat(judged) && last.Some? && JudgedPass(policy, last.value, report, judged)
          else EndOk(ended.value))
      && (ended == Some(Cancel) <==> Stopped())
    }

    /** One turn of the loop. No call is made exactly when the interrupt is seen first. */
    method OnePass(index: nat, all: seq<Failures.Result>, failures: Failures.Counters, ghost start: seq<Message>)
      returns (ended: Option<EndedBy>, results: seq<Failures.Result>, ghost lost: string)
      requires Valid() && failures.Valid() && failures.rule == policy.rule && failures.passes == judged
      requires passes == |sent| == index && all == Failures.Flat(judged)
      requires Told(speaks, said, start, messages, "", dropped) && Prefixes(sent, start, messages)
      requires Untripped(policy.rule, judged) && !Trips(policy.rule, judged)
      modifies this, executor, failures
      ensures Behind(ended, results, failures, start, lost)
      ensures ended.None? ==> |judged| == |old(judged)| + 1 && |sent| == index + 1
      ensures sent == (if old(Up(clock + 1)) then old(sent) else old(sent) + [old(messages)])
      ensures if last.Some? then results == all + last.value.results && Grew(old(messages), last.value, messages)
              else results == all && messages == old(messages)
      ensures Reporting(old(report), old(executor.ran), report, executor.ran) && from == |old(executor.ran)|
    {
      var stop := Boundary();
      if stop { return Some(Cancel), all, ""; }
      ended, results, lost := CallAndClose(index, all, failures, start);
    }

    /** The look at the interrupt before a pass. */
    method Boundary() returns (stop: bool)
      modifies this`clock, this`last, this`from
      ensures (stop <==> Stopped()) && (stop <==> old(Up(clock + 1))) && last.None? && from == |executor.ran|
    {
      last, from := None, |executor.ran|;
      stop := Cancelled();
    }

    /** One request, its pass, and what is behind it. */
    method CallAndClose(index: nat, all: seq<Failures.Result>, failures: Failures.Counters, ghost start: seq<Message>)
      returns (ended: Option<EndedBy>, results: seq<Failures.Result>, ghost lost: string)
      requires Valid() && failures.Valid() && failures.rule == policy.rule && failures.passes == judged
      requires passes == |sent| == index && all == Failures.Flat(judged) && !Stopped()
      requires Told(speaks, said, start, messages, "", dropped) && Prefixes(sent, start, messages)
      requires Untripped(policy.rule, judged) && !Trips(policy.rule, judged)
      modifies this`clock, this`executed, this`report, this`said, this`messages, this`dropped, this`sent, this`passes,
               this`judged, this`last, executor, failures
      ensures Behind(ended, results, failures, start, lost)
      ensures ended.None? ==> |judged| == |old(judged)| + 1 && |sent| == index + 1
      ensures sent == old(sent) + [old(messages)]
      ensures last.Some? && results == all + last.value.results && Grew(old(messages), last.value, messages)
      ensures Reporting(old(report), old(executor.ran), report, executor.ran)
    {
      var p;
      p, lost := CallModel(index, start);
      results, ended := Close(p, all, failures);
    }

    /** Behind the call: the pass's results, and its exit. */
    method Close(p: Pass, all: seq<Failures.Result>, failures: Failures.Counters)
      returns (results: seq<Failures.Result>, ended: Option<EndedBy>)
      requires failures.Valid() && failures.rule == policy.rule && failures.passes == judged && all == Failures.Flat(judged)
      requires p.error.Some? || p.cancelled || p.end.Some?
      requires p.cancelled ==> Stopped()
      requires Untripped(policy.rule, judged) && !Trips(policy.rule, judged)
      modifies this`judged, this`last, failures
      ensures failures.Valid() && failures.passes == judged && Untripped(policy.rule, judged) && results == all + p.results
      ensures Failures.Flat(judged) <= results && (ended.None? ==> results == Failures.Flat(judged) && |judged| == |old(judged)| + 1)
      ensures Trips(policy.rule, judged) <==> ended.Some? && ended.value in {SafeModeTrip, StuckTrip, UnboundLimit}
      ensures if ended.Some? then EndOk(ended.value) else JudgedPass(policy, p, report, judged)
      ensures last == Some(p) && (ended == Some(Cancel) <==> p.error.None? && p.cancelled)
      ensures p.error.Some? ==> ended == Some(ModelError(p.error.value))
    {
      Failures.FlatSnoc(judged, p.results);
      results := all + p.results;
      ended := PassEnd(p, failures);
    }

    /** One request, and the pass it makes. */
    method CallModel(index: nat, ghost start: seq<Message>) returns (p: Pass, ghost lost: string)
      requires Valid() && Told(speaks, said, start, messages, "", dropped) && Prefixes(sent, start, messages)
      requires passes == |sent| == index
      modifies this`clock, this`executed, this`report, this`said, this`messages, this`dropped, this`sent, this`passes, executor
      ensures Valid() && Told(speaks, said, start, messages, lost, dropped) && Prefixes(sent, start, messages)
      ensures p.error != Some(Server) ==> lost == ""
      ensures passes == |sent| == index + 1 && sent == old(sent) + [old(messages)] && Grew(old(messages), p, messages)
      ensures p.error.Some? || p.cancelled || p.end.Some?
      ensures p.cancelled ==> Stopped() && p.error.None?
      ensures !old(Stopped()) ==> (p.cancelled <==> Stopped())
      ensures Reporting(old(report), old(executor.ran), report, executor.ran)
    {
      SentMore(sent, start, messages);
      sent := sent + [messages];
      ghost var before := messages;
      p, lost := PassAndAppend(index, start);
      passes := index + 1;
      StillPrefixes(sent, start, before, messages);
    }

    /** What ended the turn had its reason: an interrupt before the next pass, or one
        of the exits behind the last. */
    ghost predicate EndOk(why: EndedBy)
      reads this`report, this`judged, this`last, this`clock
    {
      match last
      case None => why.Cancel? && Stopped()
      case Some(p) => Ends(policy, why, p, report, judged) && (why.Cancel? ==> Stopped())
    }

    /** The exits behind a pass, in order. */
    method PassEnd(p: Pass, failures: Failures.Counters) returns (ended: Option<EndedBy>)
      requires failures.Valid() && failures.rule == policy.rule && failures.passes == judged
      requires p.error.Some? || p.cancelled || p.end.Some?
      requires p.cancelled ==> Stopped()
      requires Untripped(policy.rule, judged) && !Trips(policy.rule, judged)
      modifies this`judged, this`last, failures
      ensures failures.Valid() && failures.passes == judged && Untripped(policy.rule, judged) && last == Some(p)
      ensures judged == old(judged) || judged == old(judged) + [p.results]
      ensures Trips(policy.rule, judged) <==> ended.Some? && ended.value in {SafeModeTrip, StuckTrip, UnboundLimit}
      ensures if ended.Some? then EndOk(ended.value) else JudgedPass(policy, p, report, judged) && judged == old(judged) + [p.results]
      ensures p.error.Some? ==> ended == Some(ModelError(p.error.value))
      ensures ended == Some(Cancel) <==> p.error.None? && p.cancelled
    {
      last := Some(p);
      if p.error.Some? { return Some(ModelError(p.error.value)); }
      if p.cancelled { return Some(Cancel); }
      if p.end.value.finish == "length" { return Some(MaxTokens); }
      if policy.mustReport && report { return Some(ReportRan); }
      if p.results == [] { return Some(NoToolCalls); }
      UntrippedMore(policy.rule, judged, p.results);
      ended := Judge(failures, p.results);
      judged := judged + [p.results];
    }

    /** One pass, and what of it goes into the conversation. */
    method PassAndAppend(index: nat, ghost start: seq<Message>) returns (p: Pass, ghost lost: string)
      requires Valid() && Told(speaks, said, start, messages, "", dropped)
      modifies this`clock, this`executed, this`report, this`said, this`messages, this`dropped, executor
      ensures Valid() && old(messages) <= messages && Grew(old(messages), p, messages)
      ensures Told(speaks, said, start, messages, lost, dropped) && (p.error != Some(Server) ==> lost == "")
      ensures p.error.Some? || p.cancelled || p.end.Some?
      ensures p.cancelled ==> Stopped() && p.error.None?
      ensures !old(Stopped()) ==> (p.cancelled <==> Stopped())
      ensures Reporting(old(report), old(executor.ran), report, executor.ran)
    {
      ghost var was := said;
      ghost var blanks, outs;
      p, blanks, outs := StreamOnePass(index);
      lost := if p.error == Some(Server) then Join(p.spoken) else "";
      TellPass(speaks, was, start, messages, dropped, p, blanks);
      KeptGrew(messages, p, speaks, blanks);
      dropped := dropped + blanks;
      messages := messages + Kept(p);
    }

    /** The failure rules at a pass end. */
    method Judge(failures: Failures.Counters, results: seq<Failures.Result>) returns (o: Option<EndedBy>)
      requires failures.Valid() && failures.rule == policy.rule
      modifies failures
      ensures failures.Valid() && failures.passes == old(failures.passes) + [results]
      ensures o.Some? <==> Trips(policy.rule, failures.passes)
      ensures o.Some? ==> o.value == if policy.rule.SafeMode? && Failures.Streak(Failures.Flat(failures.passes)) >= Failures.FAIL_THRESHOLD then SafeModeTrip
                                     else if policy.rule.StuckTool? && Failures.AnyStuck(Failures.Flat(failures.passes)) then StuckTrip
                                     else UnboundLimit
    {
      failures.Add(results);
      if policy.rule.SafeMode? {
        var reason := failures.SafeModeReason();
        if reason.Some? { return Some(SafeModeTrip); }
      } else {
        var stuck := failures.Stuck();
        if stuck.Some? { return Some(StuckTrip); }
      }
      var refused := failures.Refused();
      if refused.Some? { return Some(UnboundLimit); }
      return None;
    }
  }

  function Decimal(n: nat): string {
    (if n < 10 then "" else Decimal(n / 10)) + [('0' as int + n % 10) as char]
  }

  /** A tool message's text: never empty; the first characters of a text that is too
      long, with its length. */
  function MessageText(tool: string, detail: string): (t: string)
    ensures t != "" && (detail != "" && |detail| <= TOOL_MESSAGE_MAX_CHARS ==> t == detail)
    ensures |detail| > TOOL_MESSAGE_MAX_CHARS ==>
              if tool == "InvokeSkill" then t == detail
              else |t| > TOOL_MESSAGE_MAX_CHARS && t[..TOOL_MESSAGE_MAX_CHARS] == detail[..TOOL_MESSAGE_MAX_CHARS]
  {
    var text := if detail == "" then "ok" else detail;
    if |text| > TOOL_MESSAGE_MAX_CHARS && tool != "InvokeSkill"
    then text[..TOOL_MESSAGE_MAX_CHARS] + ("\n(cut; " + Decimal(|text|) + " chars total)")
    else text
  }

  /** A streamed call, from the server's chunks; `broken`: the transport failed
      behind them. */
  method Adapt(chunks: seq<Reply.Chunk>, broken: bool) returns (s: Stream)
    ensures StreamOk(s)
    ensures SpeechOf(s.deltas) == Reply.Speeches(chunks) && ThinkOf(s.deltas) == Reply.Thoughts(chunks)
    ensures broken ==> s.fault == Some(Transport)
    ensures s.fault.None? ==>
      s.end.finish == Reply.Finish(chunks)
      && if s.end.finish == "length" then s.calls == [] && s.end.dropped == |Reply.Indices(Reply.FragsOf(chunks))|
         else Reply.CallsOf(Reply.FragsOf(chunks), s.calls) && s.end.dropped == 0
    ensures s.fault == Some(Server) ==> Reply.Finish(chunks) !in {"length", "tool_calls"}
                                        && Reply.Indices(Reply.FragsOf(chunks)) != {}
  {
    var reply, deltas := FeedAll(chunks);
    var none := Reply.End("", Reply.Assistant("", "", []), 0);
    if broken { return Stream(deltas, Some(Transport), [], none); }
    var r := reply.FinishReply();
    if r.None? { return Stream(deltas, Some(Server), [], none); }
    s := Stream(deltas, None, r.value.0, r.value.1);
    assert |reply.tools| == |reply.tools.Keys|;
  }

  method FeedAll(chunks: seq<Reply.Chunk>) returns (reply: Reply.Reply, deltas: seq<Reply.Delta>)
    ensures fresh(reply) && reply.Valid() && reply.chunks == chunks
    ensures SpeechOf(deltas) == Reply.Speeches(chunks) && ThinkOf(deltas) == Reply.Thoughts(chunks)
  {
    reply := new Reply.Reply();
    deltas := [];
    assert chunks[..0] == [];
    for n := 0 to |chunks|
      invariant fresh(reply) && reply.Valid() && reply.chunks == chunks[..n]
      invariant SpeechOf(deltas) == Reply.Speeches(chunks[..n]) && ThinkOf(deltas) == Reply.Thoughts(chunks[..n])
    {
      assert chunks[..n + 1] == chunks[..n] + [chunks[n]];
      deltas := FeedOne(reply, deltas, chunks[n]);
    }
    assert chunks[..|chunks|] == chunks;
  }

  method FeedOne(reply: Reply.Reply, deltas: seq<Reply.Delta>, chunk: Reply.Chunk) returns (more: seq<Reply.Delta>)
    requires reply.Valid()
    requires SpeechOf(deltas) == Reply.Speeches(reply.chunks) && ThinkOf(deltas) == Reply.Thoughts(reply.chunks)
    modifies reply
    ensures reply.Valid() && reply.chunks == old(reply.chunks) + [chunk]
    ensures SpeechOf(more) == Reply.Speeches(reply.chunks) && ThinkOf(more) == Reply.Thoughts(reply.chunks)
  {
    var out := reply.Feed(chunk);
    Reply.MoreChunks(old(reply.chunks), chunk);
    MoreDeltas(deltas, chunk);
    more := deltas + out;
  }

  lemma MoreDeltas(deltas: seq<Reply.Delta>, chunk: Reply.Chunk)
    ensures var out := (if chunk.think == "" then [] else [Reply.Think(chunk.think)])
                       + (if chunk.speech == "" then [] else [Reply.Speech(chunk.speech)]);
            && SpeechOf(deltas + out) == SpeechOf(deltas) + (if chunk.speech == "" then [] else [chunk.speech])
            && ThinkOf(deltas + out) == ThinkOf(deltas) + (if chunk.think == "" then [] else [chunk.think])
  {
    var thoughts := if chunk.think == "" then [] else [Reply.Think(chunk.think)];
    var words := if chunk.speech == "" then [] else [Reply.Speech(chunk.speech)];
    if chunk.think != "" { DeltaSnoc(deltas, Reply.Think(chunk.think)); }
    if chunk.speech != "" { DeltaSnoc(deltas + thoughts, Reply.Speech(chunk.speech)); }
    assert chunk.think == "" ==> deltas + thoughts == deltas;
    assert chunk.speech == "" ==> (deltas + thoughts) + words == deltas + thoughts;
    assert deltas + (thoughts + words) == (deltas + thoughts) + words;
  }

  lemma DeltaSnoc(ds: seq<Reply.Delta>, d: Reply.Delta)
    ensures SpeechOf(ds + [d]) == SpeechOf(ds) + if d.Speech? then [d.text] else []
    ensures ThinkOf(ds + [d]) == ThinkOf(ds) + if d.Think? then [d.text] else []
  {
    assert (ds + [d])[..|ds|] == ds;
  }

  /** The pieces cut so far, none empty, and the buffer are the text; what is not
      blank was spoken. */
  ghost predicate Cutting(cuts: seq<string>, buf: string, speech: seq<string>, spoken: seq<string>) {
    && Join(cuts) + buf == Join(speech) && spoken == Spoken(cuts)
    && (forall x | x in cuts :: x != "")
  }

  lemma MoreCuts(cuts: seq<string>, before: string, speech: seq<string>, spoken: seq<string>,
                 more: seq<string>, text: string, after: string)
    requires Cutting(cuts, before, speech, spoken) && Join(more) + after == before + text && Chunker.Pieces(more)
    ensures Cutting(cuts + more, after, speech + [text], spoken + Spoken(more))
  {
    Chunker.KeepsText(cuts, before, speech, text, more, after);
    SpokenAppend(cuts, more);
  }

  lemma LastCut(cuts: seq<string>, buf: string, speech: seq<string>, spoken: seq<string>)
    requires Cutting(cuts, buf, speech, spoken)
    ensures Agrees(Join(speech), Join(spoken + if Blank(buf) then [] else [buf]), Blanks(cuts + if buf == "" then [] else [buf]))
  {
    var all := cuts + if buf == "" then [] else [buf];
    if buf == "" {
      assert all == cuts && spoken + [] == spoken && Join(cuts) + "" == Join(cuts);
    } else {
      JoinSnoc(cuts, buf);
      SpokenSnoc(cuts, buf);
      assert spoken + [] == spoken;
    }
    AgreesSpoken(all);
  }

  /** One pass appends at most one round, which says what the pass spoke. */
  lemma TellPass(speaks: bool, said: seq<string>, start: seq<Message>, messages: seq<Message>, dropped: seq<string>,
                 p: Pass, blanks: seq<string>)
    requires Told(speaks, said, start, messages, "", dropped) && PassOk(speaks, p, blanks)
    ensures Told(speaks, said + p.spoken, start, messages + Kept(p), if p.error == Some(Server) then Join(p.spoken) else "",
                 dropped + blanks)
  {
    var grown := messages[|start|..];
    assert (messages + Kept(p))[|start|..] == grown + Kept(p);
    KeptIsARound(p, blanks, speaks);
    RoundsAppend(grown, Kept(p));
    ContentsAppend(grown, Kept(p));
    JoinAppend(said, p.spoken);
    if speaks {
      AgreesOn(Contents(grown), Join(said), dropped, Contents(Kept(p)), if p.error == Some(Server) then Join(p.spoken) else "",
               Join(p.spoken), blanks);
    }
  }

  lemma AgreesOn(grown: string, said: string, dropped: seq<string>, kept: string, lost: string, spoken: string, blanks: seq<string>)
    requires Agrees(grown + "", said, dropped) && Agrees(kept + lost, spoken, blanks)
    ensures Agrees(grown + kept + lost, said + spoken, dropped + blanks)
  {
    assert grown + "" == grown;
    AgreesAppend(grown, said, dropped, kept + lost, spoken, blanks);
    assert grown + kept + lost == grown + (kept + lost);
  }

  lemma KeptGrew(before: seq<Message>, p: Pass, speaks: bool, blanks: seq<string>)
    requires PassOk(speaks, p, blanks)
    ensures before <= before + Kept(p) && Grew(before, p, before + Kept(p))
  {
    if p.reply.Some? { assert before + ([p.reply.value] + p.answers) == before + [p.reply.value] + p.answers; }
  }

  lemma KeptIsARound(p: Pass, blanks: seq<string>, speaks: bool)
    requires PassOk(speaks, p, blanks)
    ensures Rounds(Kept(p))
    ensures speaks ==> Agrees(Contents(Kept(p)) + if p.error == Some(Server) then Join(p.spoken) else "", Join(p.spoken), blanks)
  {
    if p.reply.Some? && p.error != Some(Server) {
      OneRound(p.reply.value, p.answers);
      RoundContents(p.reply.value, p.answers);
      assert p.reply.value.content + "" == p.reply.value.content;
    } else {
      assert Kept(p) == [];
      assert "" + Join(p.spoken) == Join(p.spoken);
      AgreesSame(Join(p.spoken));
    }
  }

  /** What was said is what the conversation says, to the letter, exactly when no
      piece of a finished reply was blank. */
  lemma SaidVerbatim(said: seq<string>, start: seq<Message>, messages: seq<Message>, lost: string, dropped: seq<string>)
    requires Told(true, said, start, messages, lost, dropped)
    ensures Join(said) == Contents(messages[|start|..]) + lost <==> dropped == []
  {
    AgreesVerbatim(Contents(messages[|start|..]) + lost, Join(said), dropped);
  }

  lemma SentMore(sent: seq<seq<Message>>, start: seq<Message>, messages: seq<Message>)
    requires Prefixes(sent, start, messages) && start <= messages
    ensures Prefixes(sent + [messages], start, messages)
  {
  }

  lemma StillPrefixes(sent: seq<seq<Message>>, start: seq<Message>, before: seq<Message>, messages: seq<Message>)
    requires Prefixes(sent, start, before) && before <= messages
    ensures Prefixes(sent, start, messages)
  {
  }

  /** On one page the next turn's requests, behind one more user message, begin with
      every request before them. */
  lemma PrefixesAcross(sent: seq<seq<Message>>, start: seq<Message>, messages: seq<Message>, user: Message,
                       more: seq<seq<Message>>, later: seq<Message>)
    requires start <= messages && Prefixes(sent, start, messages)
    requires messages + [user] <= later && Prefixes(more, messages + [user], later)
    ensures start <= later && Prefixes(sent + more, start, later)
  {
    forall i | 0 <= i < |sent + more| ensures start <= (sent + more)[i] <= later {
      if i < |sent| { assert start <= sent[i] <= messages <= later; }
    }
    forall i, j | 0 <= i < j < |sent + more| ensures (sent + more)[i] <= (sent + more)[j] {
      if i < |sent| <= j { assert sent[i] <= messages <= messages + [user] <= more[j - |sent|]; }
    }
  }
}
