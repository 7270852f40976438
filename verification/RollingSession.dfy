/** A model session with rolling preparation: foreground calls with tool use, and at most one
    background preparation job, which every new foreground dispatch asks to cancel. */
module RollingSession {
  import opened Wrappers

  /******* Responses *******/

  /** A tool call of a response: its id, if that is a string, and whether it is a function call. */
  datatype Call = Call(id: Option<string>, isFunction: bool)

  /** A response as received.  `textual` says that all text fields are strings, `listed` that the
      tool calls are a list of mappings, and `worded` that content or refusal is not blank. */
  datatype Response = Response(failed: bool, done: bool, finish: string, textual: bool, listed: bool, calls: seq<Call>,
                               worded: bool, promptTokens: Option<nat>)

  function CallIds(calls: seq<Call>): (ids: seq<string>)
    ensures |ids| == |calls| && forall i :: 0 <= i < |calls| && calls[i].id.Some? ==> ids[i] == calls[i].id.value
  {
    seq(|calls|, i requires 0 <= i < |calls| => if calls[i].id.Some? then calls[i].id.value else "")
  }

  predicate DistinctIds(calls: seq<Call>) {
    && (forall i :: 0 <= i < |calls| ==> calls[i].id.Some? && calls[i].id.value != "")
    && (forall i, j :: 0 <= i < j < |calls| ==> calls[i].id != calls[j].id)
  }

  function ResponseIssue(r: Response): (issue: Option<string>)
    ensures issue == None <==>
              && !r.failed && r.done && r.finish in {"stop", "tool_calls"} && r.textual && r.listed
              && (r.calls == [] ==> r.worded) && DistinctIds(r.calls)
              && (forall i :: 0 <= i < |r.calls| ==> r.calls[i].isFunction)
              && (r.finish == "tool_calls" ==> r.calls != [])
    ensures issue == Some("model_error") <==> r.failed || !r.done
    ensures issue == Some("output_limit") <==> !r.failed && r.done && r.finish == "length"
    ensures issue == Some("empty_response") <==>
              !r.failed && r.done && r.finish in {"stop", "tool_calls"} && r.textual && r.listed && r.calls == [] && !r.worded
  {
    if r.failed || !r.done then Some("model_error")
    else if r.finish == "length" then Some("output_limit")
    else if r.finish !in {"stop", "tool_calls"} then Some("unsupported_finish_reason")
    else if !r.textual then Some("unsupported_message")
    else if !r.listed then Some("invalid_tool_calls")
    else if r.calls == [] && !r.worded then Some("empty_response")
    else if !DistinctIds(r.calls) then Some("invalid_tool_ids")
    else if exists i :: 0 <= i < |r.calls| && !r.calls[i].isFunction then Some("invalid_tool_calls")
    else if r.finish == "tool_calls" && r.calls == [] then Some("missing_tool_calls")
    else None
  }

  /** The session also distrusts a response whose prompt count is not the renderer's. */
  function IssueOf(r: Response, count: nat): (issue: Option<string>)
    ensures issue == None <==> ResponseIssue(r) == None && r.promptTokens == Some(count)
    ensures issue == Some("empty_response") <==> ResponseIssue(r) == Some("empty_response") && r.promptTokens == Some(count)
    ensures ResponseIssue(r).Some? && ResponseIssue(r) != Some("empty_response") ==> issue == ResponseIssue(r)
    ensures issue == Some("empty_response") ==> r.calls == []
  {
    var issue := ResponseIssue(r);
    if (issue == None || issue == Some("empty_response")) && r.promptTokens != Some(count) then Some("renderer_count_mismatch")
    else issue
  }

  /******* Histories *******/

  datatype Message = System | User(text: string) | Assistant(ids: seq<string>) | Tool(id: string, content: string)

  /** The tool calls still to be answered after `h`; absent once an answer came out of turn. */
  function Owed(h: seq<Message>): Option<seq<string>> {
    if h == [] then Some([])
    else
      var owed, last := Owed(h[..|h| - 1]), h[|h| - 1];
      if owed.None? then None
      else if last.Tool? then (if owed.value != [] && owed.value[0] == last.id then Some(owed.value[1..]) else None)
      else if owed.value != [] then None
      else if last.Assistant? then Some(last.ids)
      else Some([])
  }

  /** Every tool call has been answered. */
  predicate Answered(h: seq<Message>) { Owed(h) == Some([]) }

  lemma OwedSnoc(h: seq<Message>, m: Message, owed: seq<string>)
    requires Owed(h) == Some(owed)
    ensures m.Tool? && owed != [] && owed[0] == m.id ==> Owed(h + [m]) == Some(owed[1..])
    ensures !m.Tool? && owed == [] ==> Owed(h + [m]) == Some(if m.Assistant? then m.ids else [])
  {
    assert (h + [m])[..|h|] == h;
  }

  /** Position `i` is followed by the answers to its calls, in order, and then by no further answer. */
  ghost predicate AnsweredAt(h: seq<Message>, i: nat)
    requires i < |h| && h[i].Assistant?
  {
    var n := |h[i].ids|;
    && i + n < |h|
    && (forall j :: 0 <= j < n ==> IsAnswer(h, i + 1 + j, h[i].ids[j]))
    && (i + 1 + n < |h| ==> !h[i + 1 + n].Tool?)
  }

  ghost predicate IsAnswer(h: seq<Message>, k: nat, id: string) { k < |h| && h[k].Tool? && h[k].id == id }

  /** The last assistant message is at `i`, and `owed` of its calls are left to answer. */
  ghost predicate Answering(h: seq<Message>, i: nat, owed: seq<string>)
    requires i < |h| && h[i].Assistant?
  {
    var n := |h[i].ids|;
    && owed != [] && |owed| <= n && |h| == i + 1 + n - |owed| && owed == h[i].ids[n - |owed|..]
    && forall j :: 0 <= j < n - |owed| ==> IsAnswer(h, i + 1 + j, h[i].ids[j])
  }

  /** What `Owed` says of a history, message by message. */
  lemma {:induction false} OwedMeans(h: seq<Message>, i: nat)
    requires Owed(h).Some? && i < |h| && h[i].Assistant?
    ensures Answering(h, i, Owed(h).value) || AnsweredAt(h, i)
    ensures Answering(h, i, Owed(h).value) ==> |Owed(h).value| > 0
    ensures AnsweredAt(h, i) && i + 1 + |h[i].ids| == |h| ==> Owed(h).value == []
    decreases |h|
  {
    var init, last := h[..|h| - 1], h[|h| - 1];
    if i < |h| - 1 {
      OwedMeans(init, i);
      AnswersStay(init, last);
      assert h == init + [last];
      if Answering(init, i, Owed(init).value) {
        var n, owed := |h[i].ids|, Owed(init).value;
        assert IsAnswer(h, |init|, owed[0]) && owed[0] == h[i].ids[n - |owed|];
      }
    }
  }

  lemma AnswersStay(h: seq<Message>, m: Message)
    ensures forall k, id :: IsAnswer(h, k, id) ==> IsAnswer(h + [m], k, id)
  {
  }

  /** A history that is answered answers each of its tool calls exactly once, in order, right after
      the message that made them. */
  lemma AnsweredMeans(h: seq<Message>, i: nat)
    requires Answered(h) && i < |h| && h[i].Assistant?
    ensures AnsweredAt(h, i)
  {
    OwedMeans(h, i);
  }

  lemma {:induction false} OwedOrigin(h: seq<Message>) returns (i: nat)
    requires Owed(h).Some? && Owed(h).value != []
    ensures i < |h| && h[i].Assistant? && Answering(h, i, Owed(h).value)
  {
    var init, last := h[..|h| - 1], h[|h| - 1];
    assert h == init + [last];
    if last.Assistant? {
      i := |h| - 1;
    } else {
      i := OwedOrigin(init);
      OwedMeans(h, i);
      assert |Owed(h).value| + 1 == |Owed(init).value|;
    }
  }

  /** And no answer is without its call. */
  lemma {:induction false} AnswerHasCall(h: seq<Message>, k: nat)
    requires Owed(h).Some? && k < |h| && h[k].Tool?
    ensures exists i :: 0 <= i < k && h[i].Assistant? && k - i - 1 < |h[i].ids| && h[i].ids[k - i - 1] == h[k].id
    decreases |h|
  {
    var init := h[..|h| - 1];
    if k < |init| {
      AnswerHasCall(init, k);
      var i :| 0 <= i < k && init[i].Assistant? && k - i - 1 < |init[i].ids| && init[i].ids[k - i - 1] == init[k].id;
      assert h[i] == init[i] && h[k] == init[k];
    } else {
      var i := OwedOrigin(init);
      assert h[i] == init[i];
    }
  }

  /******* Rolling preparation *******/

  /** A background job: whether it has finished and whether it was asked to cancel. */
  datatype Job = Job(done: bool, asked: bool)

  datatype Attempt = Attempt(trigger: nat, status: string, reason: string, dispatched: bool)

  /** At most the last job is unfinished. */
  predicate OneActive(jobs: seq<Job>) { forall j :: 0 <= j < |jobs| - 1 ==> jobs[j].done }

  predicate AllAsked(jobs: seq<Job>) { forall j :: 0 <= j < |jobs| && !jobs[j].done ==> jobs[j].asked }

  class RollingPreparation {
    const enabled: bool
    var attempts: seq<Attempt>
    var jobs: seq<Job>
    var active: Option<nat>

    ghost predicate Valid()
      reads this
    {
      && OneActive(jobs)
      && (active.Some? <==> jobs != []) && (active.Some? ==> active.value == |jobs| - 1)
      && (!enabled ==> jobs == [])
    }

    constructor (enabled: bool)
      ensures Valid() && this.enabled == enabled && attempts == [] && jobs == []
    {
      this.enabled, attempts, jobs, active := enabled, [], [], None;
    }

    /** While the session waits, the event loop may finish jobs. */
    method Settle(finished: set<nat>)
      requires Valid()
      modifies `jobs
      ensures Valid() && |jobs| == |old(jobs)|
      ensures forall j :: 0 <= j < |jobs| ==> jobs[j] == old(jobs)[j].(done := old(jobs)[j].done || j in finished)
    {
      var after: seq<Job> := [];
      for j := 0 to |jobs|
        invariant |after| == j && jobs == old(jobs)
        invariant forall k :: 0 <= k < j ==> after[k] == jobs[k].(done := jobs[k].done || k in finished)
      {
        after := after + [jobs[j].(done := jobs[j].done || j in finished)];
      }
      jobs := after;
    }

    /** A foreground request is about to be sent: whatever is still running is asked to cancel. */
    method BeforeDispatch()
      requires Valid()
      modifies `attempts, `jobs
      ensures Valid() && AllAsked(jobs) && |attempts| == |old(attempts)| && |jobs| == |old(jobs)|
      ensures attempts == if old(attempts) == [] then [] else
                old(attempts)[..|old(attempts)| - 1] + [old(attempts)[|old(attempts)| - 1].(dispatched := true)]
      ensures forall j :: 0 <= j < |jobs| ==> jobs[j].done == old(jobs)[j].done
    {
      if attempts != [] {
        attempts := attempts[..|attempts| - 1] + [attempts[|attempts| - 1].(dispatched := true)];
      }
      if active.Some? && !jobs[active.value].done {
        jobs := jobs[active.value := jobs[active.value].(asked := true)];
      }
    }

    /** A response has arrived: record the attempt, and start a job unless something speaks against it. */
    method AfterResponse(trigger: nat, issue: Option<string>)
      requires Valid()
      modifies `attempts, `jobs, `active
      ensures Valid() && |attempts| == |old(attempts)| + 1 && attempts[..|old(attempts)|] == old(attempts)
      ensures attempts[|old(attempts)|].trigger == trigger
      ensures jobs == old(jobs) || jobs == old(jobs) + [Job(false, false)]
      ensures jobs != old(jobs) <==> issue.None? && enabled && forall j :: 0 <= j < |old(jobs)| ==> old(jobs)[j].done
      ensures var status := attempts[|old(attempts)|].status;
              && (status == "ineligible" <==> issue.Some?)
              && (status == "pending" <==> jobs != old(jobs))
              && (status == "off" <==> issue.None? && !enabled)
              && attempts[|old(attempts)|].reason == (if issue.Some? then issue.value else "")
              && !attempts[|old(attempts)|].dispatched
    {
      var row := Attempt(trigger, if enabled then "pending" else "off", "", false);
      if issue.Some? {
        attempts := attempts + [row.(status := "ineligible", reason := issue.value)];
        return;
      }
      if !enabled {
        attempts := attempts + [row];
        return;
      }
      if active.Some? && !jobs[active.value].done {
        attempts := attempts + [row.(status := "skipped_prior_cleanup_pending")];
        return;
      }
      attempts := attempts + [row];
      jobs := jobs + [Job(false, false)];
      active := Some(|jobs| - 1);
    }
  }

  /******* The session *******/

  datatype Config = Config(contextLimit: int, maxOutput: int, callsPerTurn: nat)

  datatype Reply = Cancelled | Got(response: Response)

  datatype ToolResult = ToolResult(content: string, failure: Option<string>)

  /** Everything the session cannot decide: the clock, the renderer's token count, the model's replies,
      the tools' results and which jobs finish during each wait. */
  datatype World = World(late: nat -> bool, count: seq<Message> -> nat, reply: nat -> Reply, tool: nat -> ToolResult,
                         finish: nat -> set<nat>)

  datatype Mark = Dispatched(history: seq<Message>, jobs: seq<Job>) | Responded

  datatype TurnResult = TurnResult(calls: nat, outcome: string)

  datatype Outcome = Outcome(modelCalls: nat, toolCalls: nat, turns: seq<TurnResult>, outcome: string)

  /** Dispatches and responses alternate, starting with a dispatch; what is sent answers every earlier
      tool call, fits the context and is in time, with at most one job unfinished and that one asked to cancel. */
  ghost predicate Orderly(world: World, config: Config, log: seq<Mark>) {
    forall k :: 0 <= k < |log| ==>
      if k % 2 == 0
      then log[k].Dispatched? && Sendable(world, config, log[k].history, k / 2) && OneActive(log[k].jobs) && AllAsked(log[k].jobs)
      else log[k].Responded?
  }

  ghost predicate Sendable(world: World, config: Config, h: seq<Message>, k: nat) {
    Answered(h) && world.count(h) + config.maxOutput <= config.contextLimit && !world.late(k)
  }

  lemma OrderlyStep(world: World, config: Config, log: seq<Mark>, h: seq<Message>, jobs: seq<Job>)
    requires Orderly(world, config, log) && |log| % 2 == 0
    requires Sendable(world, config, h, |log| / 2) && OneActive(jobs) && AllAsked(jobs)
    ensures Orderly(world, config, log + [Dispatched(h, jobs)] + [Responded]) && (|log| + 2) % 2 == 0
  {
  }

  /******* What a history tells *******/

  /** The assistant messages of a history: one per model call that the session went on from. */
  function Replies(h: seq<Message>): nat {
    if h == [] then 0 else Replies(h[..|h| - 1]) + if h[|h| - 1].Assistant? then 1 else 0
  }

  function CountTools(h: seq<Message>): nat {
    if h == [] then 0 else CountTools(h[..|h| - 1]) + if h[|h| - 1].Tool? then 1 else 0
  }

  function Users(h: seq<Message>): seq<string> {
    if h == [] then [] else Users(h[..|h| - 1]) + if h[|h| - 1].User? then [h[|h| - 1].text] else []
  }

  lemma CountSnoc(h: seq<Message>, m: Message)
    ensures CountTools(h + [m]) == CountTools(h) + if m.Tool? then 1 else 0
    ensures Replies(h + [m]) == Replies(h) + if m.Assistant? then 1 else 0
    ensures Users(h + [m]) == Users(h) + if m.User? then [m.text] else []
  {
    assert (h + [m])[..|h|] == h;
  }

  /** What message `m` after `h` must say: a tool's answer is the next tool result, an assistant message
      makes the calls of the next reply. */
  predicate Fits(world: World, h: seq<Message>, m: Message) {
    match m
    case Tool(_, content) => content == world.tool(CountTools(h)).content
    case Assistant(ids) => world.reply(Replies(h)).Got? && ids == CallIds(world.reply(Replies(h)).response.calls)
    case _ => true
  }

  /** Every message of the history says what the model and the tools said. */
  ghost predicate Spoken(world: World, h: seq<Message>) { forall p :: 0 <= p < |h| ==> Fits(world, h[..p], h[p]) }

  lemma SpokenMore(world: World, h: seq<Message>, m: Message)
    requires Spoken(world, h) && Fits(world, h, m)
    ensures Spoken(world, h + [m])
  {
    hide Fits;
    var more := h + [m];
    forall p | 0 <= p < |more| ensures Fits(world, more[..p], more[p]) {
      assert more[..p] == h[..p];
      if p == |h| { assert h[..p] == h; }
    }
  }

  /** Dispatch `k` sent all that the history holds before reply `k`. */
  ghost predicate SentAt(sent: seq<Message>, history: seq<Message>, k: nat) {
    && sent <= history && Replies(sent) == k
    && (|sent| < |history| ==> history[|sent|].Assistant?)
  }

  ghost predicate Sent(log: seq<Mark>, history: seq<Message>) {
    forall k :: 0 <= k < |log| && k % 2 == 0 && log[k].Dispatched? ==> SentAt(log[k].history, history, k / 2)
  }

  lemma SentMore(log: seq<Mark>, history: seq<Message>, m: Message)
    requires Sent(log, history) && |log| % 2 == 0
    requires m.Assistant? || Replies(history) == |log| / 2
    ensures Sent(log, history + [m])
  {
    forall k | 0 <= k < |log| && k % 2 == 0 && log[k].Dispatched? ensures SentAt(log[k].history, history + [m], k / 2) {
      var sent := log[k].history;
      assert SentAt(sent, history, k / 2);
      if |sent| == |history| { assert sent == history; }
    }
  }

  lemma SentNow(log: seq<Mark>, history: seq<Message>, jobs: seq<Job>)
    requires Sent(log, history) && |log| % 2 == 0 && Replies(history) == |log| / 2
    ensures Sent(log + [Dispatched(history, jobs)] + [Responded], history)
  {
    var more := log + [Dispatched(history, jobs)] + [Responded];
    forall k | 0 <= k < |more| && k % 2 == 0 && more[k].Dispatched? ensures SentAt(more[k].history, history, k / 2) {
      if k < |log| { assert SentAt(log[k].history, history, k / 2); }
    }
  }

  /******* What the calls of a turn led to *******/

  /** How the session takes a reply: it goes on with tools, ends the turn, or stops. */
  datatype Verdict = Continue | Finish | Empty | Stop(reason: string)

  function VerdictOf(reply: Reply, count: nat): Verdict {
    match reply
    case Cancelled => Stop("controller_stop")
    case Got(r) =>
      var issue := IssueOf(r, count);
      if issue == Some("empty_response") && r.finish == "stop" then Empty
      else if issue.Some? then Stop(issue.value)
      else if r.calls == [] then Finish else Continue
  }

  /** The verdicts on the replies, one for each dispatch. */
  ghost function Verdicts(world: World, log: seq<Mark>): (vs: seq<Verdict>)
    ensures |vs| == |log| / 2
    decreases |log|
  {
    if |log| < 2 then []
    else
      var n, mark := |log| / 2 - 1, log[|log| - 2];
      Verdicts(world, log[..|log| - 2])
      + [if mark.Dispatched? then VerdictOf(world.reply(n), world.count(mark.history)) else Stop("")]
  }

  lemma VerdictsSnoc(world: World, log: seq<Mark>, h: seq<Message>, jobs: seq<Job>)
    requires |log| % 2 == 0
    ensures Verdicts(world, log + [Dispatched(h, jobs)] + [Responded])
         == Verdicts(world, log) + [VerdictOf(world.reply(|log| / 2), world.count(h))]
  {
    hide VerdictOf;
    var more := log + [Dispatched(h, jobs)] + [Responded];
    assert |more| == |log| + 2 && more[..|log|] == log && more[|log|] == Dispatched(h, jobs);
  }

  predicate AllContinue(vs: seq<Verdict>) { forall i :: 0 <= i < |vs| ==> vs[i] == Continue }

  /** A turn that is over: its calls went on with tools, up to the one that ended it or to the limit. */
  predicate TurnClosed(limit: nat, vs: seq<Verdict>, outcome: string) {
    || (outcome == "call_limit" && |vs| == limit && AllContinue(vs))
    || (outcome == "assistant_finished" && 0 < |vs| <= limit && AllContinue(vs[..|vs| - 1]) && vs[|vs| - 1] == Finish)
    || (outcome == "empty_response" && 0 < |vs| <= limit && AllContinue(vs[..|vs| - 1]) && vs[|vs| - 1] == Empty)
  }

  /** A turn under way. */
  predicate TurnOpen(limit: nat, vs: seq<Verdict>, outcome: string) {
    outcome == "call_limit" && |vs| <= limit && AllContinue(vs)
  }

  /** A turn in which the session stopped. */
  predicate TurnStopped(limit: nat, vs: seq<Verdict>, outcome: string) {
    && outcome == "call_limit" && |vs| <= limit
    && (vs == [] || (AllContinue(vs[..|vs| - 1]) && (vs[|vs| - 1].Continue? || vs[|vs| - 1].Stop?)))
  }

  /** The turns divide the verdicts among them, and all of them are over. */
  predicate TurnsClosed(limit: nat, vs: seq<Verdict>, turns: seq<TurnResult>)
    decreases |turns|
  {
    if turns == [] then vs == []
    else
      var t := turns[|turns| - 1];
      && t.calls <= |vs| && TurnsClosed(limit, vs[..|vs| - t.calls], turns[..|turns| - 1])
      && TurnClosed(limit, vs[|vs| - t.calls..], t.outcome)
  }

  /** All but the last turn are over; `last` are the verdicts of that one. */
  predicate TurnsUntil(limit: nat, vs: seq<Verdict>, turns: seq<TurnResult>, last: seq<Verdict>) {
    && turns != [] && turns[|turns| - 1].calls == |last| <= |vs| && last == vs[|vs| - |last|..]
    && TurnsClosed(limit, vs[..|vs| - |last|], turns[..|turns| - 1])
  }

  function TurnCalls(turns: seq<TurnResult>): nat {
    if turns == [] then 0 else TurnCalls(turns[..|turns| - 1]) + turns[|turns| - 1].calls
  }

  /** The books of a session: one attempt row per model call, two marks per call, calls per turn. */
  ghost predicate Booked(attempts: nat, log: seq<Mark>, modelCalls: nat, turns: seq<TurnResult>) {
    |log| == 2 * attempts && modelCalls == attempts && TurnCalls(turns) == attempts
  }

  lemma TurnSnoc(turns: seq<TurnResult>, t: TurnResult)
    ensures TurnCalls(turns + [t]) == TurnCalls(turns) + t.calls
  {
    assert (turns + [t])[..|turns|] == turns;
  }

  /******* Lemmas about the turns *******/

  lemma UntilCall(limit: nat, vs: seq<Verdict>, turns: seq<TurnResult>, last: seq<Verdict>, v: Verdict)
    requires TurnsUntil(limit, vs, turns, last)
    ensures TurnsUntil(limit, vs + [v], Called(turns), last + [v])
  {
    assert Called(turns)[..|turns| - 1] == turns[..|turns| - 1];
    var more := vs + [v];
    assert more[..|more| - (|last| + 1)] == vs[..|vs| - |last|];
    assert more[|more| - (|last| + 1)..] == last + [v];
  }

  lemma UntilClosed(limit: nat, vs: seq<Verdict>, turns: seq<TurnResult>, after: seq<TurnResult>, last: seq<Verdict>)
    requires TurnsUntil(limit, vs, turns, last) && |after| == |turns| && after[..|turns| - 1] == turns[..|turns| - 1]
    requires after[|turns| - 1].calls == |last| && TurnClosed(limit, last, after[|turns| - 1].outcome)
    ensures TurnsClosed(limit, vs, after)
  {
  }

  lemma UntilOpened(limit: nat, vs: seq<Verdict>, turns: seq<TurnResult>)
    requires TurnsClosed(limit, vs, turns)
    ensures TurnsUntil(limit, vs, turns + [TurnResult(0, "call_limit")], [])
  {
    var more := turns + [TurnResult(0, "call_limit")];
    assert more[..|turns|] == turns && vs[..|vs|] == vs && vs[|vs|..] == [];
  }

  lemma UntilNamed(limit: nat, vs: seq<Verdict>, turns: seq<TurnResult>, last: seq<Verdict>)
    requires TurnsUntil(limit, vs, turns, last)
    ensures turns != [] && turns[|turns| - 1].calls == |last|
  {
  }

  lemma ContinueMore(vs: seq<Verdict>, v: Verdict)
    requires AllContinue(vs)
    ensures AllContinue((vs + [v])[..|vs|]) && (v == Continue ==> AllContinue(vs + [v]))
  {
    assert (vs + [v])[..|vs|] == vs;
  }

  /******* Attempt rows *******/

  /** What speaks against preparing after a reply. */
  function Objection(reply: Reply, count: nat): Option<string> {
    match reply
    case Cancelled => Some("controller_cancelled")
    case Got(r) => IssueOf(r, count)
  }

  /** Row `k` belongs to model call `k`, names the objection to its reply if there is one, and says
      whether another dispatch followed. */
  ghost predicate AttemptTells(world: World, log: seq<Mark>, attempts: seq<Attempt>, k: nat)
    requires k < |attempts| && 2 * k < |log|
  {
    && attempts[k].trigger == k && log[2 * k].Dispatched?
    && (attempts[k].dispatched <==> k + 1 < |attempts|)
    && var objection := Objection(world.reply(k), world.count(log[2 * k].history));
       && (attempts[k].status == "ineligible" <==> objection.Some?)
       && attempts[k].reason == (if objection.Some? then objection.value else "")
  }

  ghost predicate AttemptsTell(world: World, log: seq<Mark>, attempts: seq<Attempt>) {
    2 * |attempts| == |log| && forall k :: 0 <= k < |attempts| ==> AttemptTells(world, log, attempts, k)
  }

  lemma AttemptsMore(world: World, log: seq<Mark>, more: seq<Mark>, old': seq<Attempt>, marked: seq<Attempt>, row: Attempt,
                     h: seq<Message>, jobs: seq<Job>)
    requires AttemptsTell(world, log, old') && more == log + [Dispatched(h, jobs)] + [Responded]
    requires marked == if old' == [] then [] else old'[..|old'| - 1] + [old'[|old'| - 1].(dispatched := true)]
    requires row.trigger == |old'| && !row.dispatched
    requires var objection := Objection(world.reply(|old'|), world.count(h));
             && (row.status == "ineligible" <==> objection.Some?)
             && row.reason == (if objection.Some? then objection.value else "")
    ensures AttemptsTell(world, more, marked + [row])
  {
    hide Objection;
    forall k | 0 <= k < |marked + [row]| ensures AttemptTells(world, more, marked + [row], k) {
      if k < |old'| { assert AttemptTells(world, log, old', k) && more[2 * k] == log[2 * k]; }
    }
  }

  predicate Unfailing(world: World, n: nat) { forall t :: 0 <= t < n ==> world.tool(t).failure.None? }

  /******* The books of a session *******/

  datatype Books = Books(history: seq<Message>, log: seq<Mark>, modelCalls: nat, toolCalls: nat, turns: seq<TurnResult>)

  /** The books agree with each other and with the world. */
  ghost predicate Consistent(world: World, config: Config, b: Books, attempts: seq<Attempt>) {
    && Orderly(world, config, b.log)
    && Booked(|attempts|, b.log, b.modelCalls, b.turns)
    && b.toolCalls == CountTools(b.history) && Sent(b.log, b.history) && Spoken(world, b.history)
    && AttemptsTell(world, b.log, attempts)
  }

  lemma MessageBooked(world: World, config: Config, b: Books, attempts: seq<Attempt>, m: Message)
    requires Consistent(world, config, b, attempts) && Fits(world, b.history, m)
    requires m.Assistant? || Replies(b.history) == b.modelCalls
    ensures Consistent(world, config, b.(history := b.history + [m], toolCalls := b.toolCalls + if m.Tool? then 1 else 0), attempts)
    ensures Replies(b.history + [m]) == Replies(b.history) + if m.Assistant? then 1 else 0
    ensures Users(b.history + [m]) == Users(b.history) + if m.User? then [m.text] else []
  {
    hide Orderly, Sent, CountTools, Spoken, Fits, AttemptsTell, Replies, Users;
    CountSnoc(b.history, m);
    SentMore(b.log, b.history, m);
    SpokenMore(world, b.history, m);
  }

  /** One more call of the last turn. */
  function Called(turns: seq<TurnResult>): seq<TurnResult>
    requires turns != []
  {
    var n := |turns| - 1;
    turns[..n] + [turns[n].(calls := turns[n].calls + 1)]
  }

  function Renamed(turns: seq<TurnResult>, outcome: string): seq<TurnResult>
    requires turns != []
  {
    var n := |turns| - 1;
    turns[..n] + [turns[n].(outcome := outcome)]
  }

  lemma CalledOnce(turns: seq<TurnResult>)
    requires turns != []
    ensures TurnCalls(Called(turns)) == TurnCalls(turns) + 1
  {
    var init, last := turns[..|turns| - 1], turns[|turns| - 1];
    assert turns == init + [last];
    TurnSnoc(init, last);
    TurnSnoc(init, last.(calls := last.calls + 1));
  }

  lemma RenamedSame(turns: seq<TurnResult>, outcome: string)
    requires turns != []
    ensures TurnCalls(Renamed(turns, outcome)) == TurnCalls(turns)
  {
    var init, last := turns[..|turns| - 1], turns[|turns| - 1];
    assert turns == init + [last];
    TurnSnoc(init, last);
    TurnSnoc(init, last.(outcome := outcome));
  }

  function MarkedLast(attempts: seq<Attempt>): seq<Attempt> {
    if attempts == [] then [] else attempts[..|attempts| - 1] + [attempts[|attempts| - 1].(dispatched := true)]
  }

  /** The row that a reply leaves. */
  ghost predicate RowTells(row: Attempt, k: nat, objection: Option<string>) {
    && row.trigger == k && !row.dispatched && (row.status == "ineligible" <==> objection.Some?)
    && row.reason == (if objection.Some? then objection.value else "")
  }

  lemma CallBooked(world: World, config: Config, b: Books, attempts: seq<Attempt>, jobs: seq<Job>, row: Attempt)
    requires Consistent(world, config, b, attempts) && Answered(b.history) && Replies(b.history) == b.modelCalls
    requires b.turns != [] && !world.late(b.modelCalls) && OneActive(jobs) && AllAsked(jobs)
    requires world.count(b.history) + config.maxOutput <= config.contextLimit
    requires RowTells(row, b.modelCalls, Objection(world.reply(b.modelCalls), world.count(b.history)))
    ensures var log := b.log + [Dispatched(b.history, jobs)] + [Responded];
            && Consistent(world, config, b.(log := log, modelCalls := b.modelCalls + 1, turns := Called(b.turns)), MarkedLast(attempts) + [row])
            && Verdicts(world, log) == Verdicts(world, b.log) + [VerdictOf(world.reply(b.modelCalls), world.count(b.history))]
  {
    hide Answered, CountTools, Orderly, Sent, TurnCalls, AllAsked, OneActive, Spoken, Replies, AttemptsTell, VerdictOf, Objection;
    OrderlyStep(world, config, b.log, b.history, jobs);
    SentNow(b.log, b.history, jobs);
    VerdictsSnoc(world, b.log, b.history, jobs);
    CalledOnce(b.turns);
    AttemptsMore(world, b.log, b.log + [Dispatched(b.history, jobs)] + [Responded], attempts, MarkedLast(attempts), row, b.history, jobs);
  }

  lemma TurnBooked(world: World, config: Config, b: Books, attempts: seq<Attempt>, turns: seq<TurnResult>)
    requires Consistent(world, config, b, attempts) && TurnCalls(turns) == TurnCalls(b.turns)
    ensures Consistent(world, config, b.(turns := turns), attempts)
  {
    hide CountTools, Orderly, Sent, TurnCalls, Spoken, AttemptsTell;
  }

  /******* Why a session stopped *******/

  /** Nothing speaks against going on: all is answered, every reply is in the history, no tool failed. */
  ghost predicate Going(world: World, b: Books) {
    Answered(b.history) && Replies(b.history) == b.modelCalls && Unfailing(world, b.toolCalls)
  }

  /** A turn was cut short, and the outcome says by what: the clock, the context, a reply or a tool. */
  ghost predicate CutShort(world: World, config: Config, b: Books, outcome: string) {
    exists last ::
      && TurnsUntil(config.callsPerTurn, Verdicts(world, b.log), b.turns, last)
      && TurnStopped(config.callsPerTurn, last, b.turns[|b.turns| - 1].outcome)
      && Reason(world, config, b, last, outcome)
  }

  ghost predicate Reason(world: World, config: Config, b: Books, last: seq<Verdict>, outcome: string) {
    || (outcome == "session_timeout" && Going(world, b) && world.late(b.modelCalls) && AllContinue(last))
    || (outcome == "context_budget_stop" && Going(world, b) && !world.late(b.modelCalls) && AllContinue(last)
        && world.count(b.history) + config.maxOutput > config.contextLimit)
    || (last != [] && last[|last| - 1] == Stop(outcome) && Replies(b.history) + 1 == b.modelCalls)
    || (b.toolCalls > 0 && AllContinue(last) && world.tool(b.toolCalls - 1).failure == Some(outcome)
        && Unfailing(world, b.toolCalls - 1) && b.history != [] && b.history[|b.history| - 1].Tool?)
  }

  /** All turns are over, and the outcome sums them up. */
  ghost predicate RanThrough(world: World, config: Config, b: Books, outcome: string) {
    && Going(world, b) && TurnsClosed(config.callsPerTurn, Verdicts(world, b.log), b.turns)
    && SumsUp(b.turns, outcome)
  }

  ghost predicate SumsUp(turns: seq<TurnResult>, outcome: string) {
    if exists t :: t in turns && t.outcome == "empty_response" then outcome == "finished_with_turn_failures"
    else if exists t :: t in turns && t.outcome != "assistant_finished" then outcome == "turn_call_limit"
    else outcome == "finished"
  }

  datatype Progress = More | TurnOver | SessionOver

  /** One session: its history, its counts, and the marks of what it sent. */
  class Session {
    const world: World
    const config: Config
    const policy: RollingPreparation
    var history: seq<Message>
    var log: seq<Mark>
    var modelCalls: nat
    var toolCalls: nat
    var turns: seq<TurnResult>
    var outcome: string

    ghost function Kept(): Books
      reads this
    {
      Books(history, log, modelCalls, toolCalls, turns)
    }

    ghost predicate Valid()
      reads this, policy
    {
      policy.Valid() && Consistent(world, config, Kept(), policy.attempts)
    }

    /** The verdicts so far are those of closed turns. */
    ghost predicate Settled()
      reads this
    {
      Going(world, Kept()) && TurnsClosed(config.callsPerTurn, Verdicts(world, log), turns)
    }

    /** The last turn is under way, with the verdicts `last` so far. */
    ghost predicate Underway(last: seq<Verdict>)
      reads this
    {
      && Going(world, Kept()) && TurnsUntil(config.callsPerTurn, Verdicts(world, log), turns, last)
      && turns != [] && TurnOpen(config.callsPerTurn, last, turns[|turns| - 1].outcome)
    }

    constructor (world: World, config: Config, enabled: bool)
      ensures Valid() && fresh(policy) && this.world == world && this.config == config && policy.enabled == enabled
      ensures Settled() && turns == [] && Users(history) == []
    {
      this.world, this.config := world, config;
      policy := new RollingPreparation(enabled);
      history, log, modelCalls, toolCalls, turns, outcome := [System], [], 0, 0, [], "not_started";
      new;
      OpeningAnswered();
    }

    method AddMessage(m: Message, ghost owed: seq<string>)
      requires Valid() && !m.Tool? && Owed(history) == Some([]) && Fits(world, history, m)
      requires m.Assistant? || Replies(history) == modelCalls
      requires owed == if m.Assistant? then m.ids else []
      modifies `history
      ensures Valid() && Owed(history) == Some(owed) && history == old(history) + [m]
      ensures Replies(history) == old(Replies(history)) + if m.Assistant? then 1 else 0
      ensures Users(history) == old(Users(history)) + if m.User? then [m.text] else []
    {
      hide Consistent, Fits, Replies, Users;
      OwedSnoc(history, m, []);
      MessageBooked(world, config, Kept(), policy.attempts, m);
      history := history + [m];
    }

    /** Answer the calls of the last message one after another; a tool failure ends the session, but
        not before its answer is in the history. */
    method AnswerCalls(ids: seq<string>) returns (failure: Option<string>)
      requires Valid() && Owed(history) == Some(ids) && Replies(history) == modelCalls && Unfailing(world, toolCalls)
      modifies `history, `toolCalls, policy
      ensures Valid() && Users(history) == old(Users(history))
      ensures failure.None? ==> Going(world, Kept())
      ensures failure.Some? ==>
                && toolCalls > 0 && world.tool(toolCalls - 1).failure == failure && Unfailing(world, toolCalls - 1)
                && history != [] && history[|history| - 1].Tool?
    {
      hide Owed, Consistent, Replies, Users, CountTools;
      assert ids[0..] == ids;
      for i := 0 to |ids|
        invariant Valid() && Owed(history) == Some(ids[i..])
        invariant Replies(history) == modelCalls && Unfailing(world, toolCalls) && Users(history) == old(Users(history))
      {
        var result := world.tool(toolCalls);
        policy.Settle(world.finish(modelCalls + toolCalls));
        var answer := Tool(ids[i], result.content);
        OwedSnoc(history, answer, ids[i..]);
        ToolsCounted(world, config, Kept(), policy.attempts);
        MessageBooked(world, config, Kept(), policy.attempts, answer);
        assert ids[i..][1..] == ids[i + 1..];
        history := history + [answer];
        toolCalls := toolCalls + 1;
        if result.failure.Some? { return result.failure; }
      }
      assert ids[|ids|..] == [];
      failure := None;
    }

    /** Send the history as it is and book the response; `None` stands for a cancelled controller. */
    method Exchange(count: nat) returns (response: Option<Response>, issue: Option<string>)
      requires Valid() && Answered(history) && Replies(history) == modelCalls && turns != [] && count == world.count(history)
      requires count + config.maxOutput <= config.contextLimit && !world.late(modelCalls)
      modifies `log, `modelCalls, `turns, policy
      ensures Valid() && modelCalls == old(modelCalls) + 1 && turns == Called(old(turns))
      ensures Verdicts(world, log) == old(Verdicts(world, log)) + [VerdictOf(world.reply(old(modelCalls)), count)]
      ensures world.reply(old(modelCalls)) == if response.Some? then Got(response.value) else Cancelled
      ensures response.Some? ==> issue == IssueOf(response.value, count)
    {
      hide Consistent, Answered, Replies, Verdicts, VerdictOf, AllAsked, OneActive, RowTells, Objection;
      ghost var before, attempts := Kept(), policy.attempts;
      policy.BeforeDispatch();
      OneActiveNow();
      ghost var jobs := policy.jobs;
      log := log + [Dispatched(history, policy.jobs)];
      var reply := world.reply(modelCalls);
      policy.Settle(world.finish(modelCalls + toolCalls));
      turns := Called(turns);
      response, issue := BookReply(reply, count);
      CallBooked(world, config, before, attempts, jobs, policy.attempts[|attempts|]);
      modelCalls := modelCalls + 1;
      log := log + [Responded];
    }

    /** One attempt row for the reply, whatever it is. */
    method BookReply(reply: Reply, count: nat) returns (response: Option<Response>, issue: Option<string>)
      requires policy.Valid()
      modifies policy
      ensures policy.Valid() && |policy.attempts| == |old(policy.attempts)| + 1
      ensures policy.attempts == old(policy.attempts) + [policy.attempts[|old(policy.attempts)|]]
      ensures RowTells(policy.attempts[|old(policy.attempts)|], modelCalls, Objection(reply, count))
      ensures reply == (if response.Some? then Got(response.value) else Cancelled)
      ensures response.Some? ==> issue == IssueOf(response.value, count)
    {
      match reply {
        case Cancelled =>
          policy.AfterResponse(modelCalls, Some("controller_cancelled"));
          response, issue := None, None;
        case Got(r) =>
          issue := IssueOf(r, count);
          policy.AfterResponse(modelCalls, issue);
          response := Some(r);
      }
    }

    lemma OneActiveNow()
      requires policy.Valid()
      ensures OneActive(policy.jobs)
    {
    }

    method EndTurn(result: string, ghost last: seq<Verdict>)
      requires Valid() && Going(world, Kept()) && TurnsUntil(config.callsPerTurn, Verdicts(world, log), turns, last)
      requires TurnClosed(config.callsPerTurn, last, result)
      modifies `turns
      ensures Valid() && |turns| == |old(turns)| && Settled()
    {
      hide Consistent, Verdicts, TurnClosed, TurnsUntil, TurnsClosed, Replies, Answered, TurnCalls;
      UntilNamed(config.callsPerTurn, Verdicts(world, log), turns, last);
      RenamedSame(turns, result);
      TurnBooked(world, config, Kept(), policy.attempts, Renamed(turns, result));
      UntilClosed(config.callsPerTurn, Verdicts(world, log), turns, Renamed(turns, result), last);
      turns := Renamed(turns, result);
    }

    /** One pass of a turn's loop: check the clock and the context, exchange, and answer tool calls. */
    method Step(ghost last: seq<Verdict>) returns (progress: Progress)
      requires Valid() && Underway(last) && |last| < config.callsPerTurn
      modifies this, policy
      ensures Valid() && |turns| == |old(turns)| && Users(history) == old(Users(history))
      ensures progress.More? ==> Underway(last + [Continue])
      ensures progress.TurnOver? ==> Settled()
      ensures progress.SessionOver? ==> CutShort(world, config, Kept(), outcome)
    {
      hide Consistent, Answered, Replies, Users, Verdicts, TurnsUntil, CutShort;
      if world.late(modelCalls) {
        outcome := "session_timeout";
        StopOpen(world, config, Kept(), last, outcome);
        return SessionOver;
      }
      var count := world.count(history);
      if count + config.maxOutput > config.contextLimit {
        outcome := "context_budget_stop";
        StopOpen(world, config, Kept(), last, outcome);
        return SessionOver;
      }
      ghost var vs, turns0 := Verdicts(world, log), turns;
      var response, issue := Exchange(count);
      UntilCall(config.callsPerTurn, vs, turns0, last, VerdictOf(world.reply(modelCalls - 1), count));
      progress := Take(response, issue, count, last);
    }

    /** What follows a reply. */
    method Take(response: Option<Response>, issue: Option<string>, count: nat, ghost last: seq<Verdict>) returns (progress: Progress)
      requires Valid() && Answered(history) && Replies(history) + 1 == modelCalls && Unfailing(world, toolCalls)
      requires world.reply(modelCalls - 1) == if response.Some? then Got(response.value) else Cancelled
      requires response.Some? ==> issue == IssueOf(response.value, count)
      requires var v := VerdictOf(world.reply(modelCalls - 1), count);
               TurnsUntil(config.callsPerTurn, Verdicts(world, log), turns, last + [v])
      requires turns != [] && |last| < config.callsPerTurn && TurnOpen(config.callsPerTurn, last, turns[|turns| - 1].outcome)
      modifies this, policy
      ensures Valid() && |turns| == |old(turns)| && Users(history) == old(Users(history))
      ensures progress.More? ==> Underway(last + [Continue])
      ensures progress.TurnOver? ==> Settled()
      ensures progress.SessionOver? ==> CutShort(world, config, Kept(), outcome)
    {
      hide Consistent, Owed, Replies, Users, Verdicts, TurnsUntil, TurnClosed, CutShort, IssueOf;
      ghost var v := VerdictOf(world.reply(modelCalls - 1), count);
      ContinueMore(last, v);
      ClosedBy(config.callsPerTurn, last, v);
      if response.None? {
        outcome := "controller_stop";
        StopReply(world, config, Kept(), last, outcome);
        return SessionOver;
      }
      var r := response.value;
      if issue == Some("empty_response") && r.finish == "stop" {
        AddMessage(Assistant([]), []);
        EndTurn("empty_response", last + [v]);
        return TurnOver;
      }
      if issue.Some? {
        outcome := issue.value;
        StopReply(world, config, Kept(), last, outcome);
        return SessionOver;
      }
      var ids := CallIds(r.calls);
      AddMessage(Assistant(ids), ids);
      if r.calls == [] {
        assert ids == [];
        EndTurn("assistant_finished", last + [v]);
        return TurnOver;
      }
      var failure := AnswerCalls(ids);
      if failure.Some? {
        outcome := failure.value;
        StopOpen(world, config, Kept(), last + [Continue], outcome);
        return SessionOver;
      }
      progress := More;
    }

    /** A user turn: the instruction, then calls until the assistant is done or the limit is reached. */
    method RunTurn(instruction: string) returns (over: bool)
      requires Valid() && Settled()
      modifies this, policy
      ensures Valid() && |turns| == |old(turns)| + 1 && Users(history) == old(Users(history)) + [instruction]
      ensures !over ==> Settled()
      ensures over ==> CutShort(world, config, Kept(), outcome)
    {
      hide Consistent, Owed, Replies, Users, Verdicts, TurnsUntil, TurnsClosed, CutShort;
      AddMessage(User(instruction), []);
      OpenTurn();
      ghost var last: seq<Verdict> := [];
      for i := 0 to config.callsPerTurn
        invariant Valid() && Underway(last) && |turns| == |old(turns)| + 1 && |last| == i
        invariant Users(history) == old(Users(history)) + [instruction]
      {
        var progress := Step(last);
        if progress.SessionOver? { return true; }
        if progress.TurnOver? { return false; }
        last := last + [Continue];
      }
      UntilNamed(config.callsPerTurn, Verdicts(world, log), turns, last);
      UntilClosed(config.callsPerTurn, Verdicts(world, log), turns, turns, last);
      over := false;
    }

    method OpenTurn()
      requires Valid() && Settled()
      modifies `turns
      ensures Valid() && |turns| == |old(turns)| + 1 && Underway([])
    {
      hide Consistent, Verdicts, TurnsUntil, TurnsClosed, Answered, Replies, TurnCalls;
      var longer := turns + [TurnResult(0, "call_limit")];
      TurnSnoc(turns, TurnResult(0, "call_limit"));
      TurnBooked(world, config, Kept(), policy.attempts, longer);
      UntilOpened(config.callsPerTurn, Verdicts(world, log), turns);
      turns := longer;
    }

    method Run(prompts: seq<string>)
      requires Valid() && Settled() && turns == [] && Users(history) == []
      modifies this, policy
      ensures Valid() && |turns| <= |prompts| && Users(history) == prompts[..|turns|]
      ensures || CutShort(world, config, Kept(), outcome)
              || (|turns| == |prompts| && RanThrough(world, config, Kept(), outcome))
    {
      hide Consistent, Verdicts, TurnsUntil, TurnsClosed, Users, Going, CutShort;
      for i := 0 to |prompts|
        invariant Valid() && Settled() && |turns| == i && Users(history) == prompts[..i]
      {
        var over := RunTurn(prompts[i]);
        assert prompts[..i + 1] == prompts[..i] + [prompts[i]];
        if over { return; }
      }
      assert prompts[..|prompts|] == prompts;
      outcome := SumUp(turns);
    }
  }

  /** The outcome of a session that ran through all its turns. */
  method SumUp(turns: seq<TurnResult>) returns (outcome: string)
    ensures SumsUp(turns, outcome)
  {
    if exists t :: t in turns && t.outcome == "empty_response" {
      outcome := "finished_with_turn_failures";
    } else if forall t :: t in turns ==> t.outcome == "assistant_finished" {
      outcome := "finished";
    } else {
      outcome := "turn_call_limit";
    }
  }

  lemma ToolsCounted(world: World, config: Config, b: Books, attempts: seq<Attempt>)
    requires Consistent(world, config, b, attempts)
    ensures b.toolCalls == CountTools(b.history)
  {
  }

  lemma StopOpen(world: World, config: Config, b: Books, last: seq<Verdict>, outcome: string)
    requires TurnsUntil(config.callsPerTurn, Verdicts(world, b.log), b.turns, last)
    requires TurnOpen(config.callsPerTurn, last, b.turns[|b.turns| - 1].outcome) && Reason(world, config, b, last, outcome)
    ensures CutShort(world, config, b, outcome)
  {
    hide Reason, Verdicts, TurnsUntil;
    if last != [] {
      assert last[|last| - 1] == Continue;
      assert AllContinue(last[..|last| - 1]);
    }
  }

  lemma StopReply(world: World, config: Config, b: Books, last: seq<Verdict>, outcome: string)
    requires TurnsUntil(config.callsPerTurn, Verdicts(world, b.log), b.turns, last + [Stop(outcome)])
    requires AllContinue(last) && |last| < config.callsPerTurn && b.turns[|b.turns| - 1].outcome == "call_limit"
    requires Replies(b.history) + 1 == b.modelCalls
    ensures CutShort(world, config, b, outcome)
  {
    hide Verdicts, TurnsUntil;
    var now := last + [Stop(outcome)];
    assert now[..|now| - 1] == last;
    assert Reason(world, config, b, now, outcome);
  }

  lemma ClosedBy(limit: nat, last: seq<Verdict>, v: Verdict)
    requires AllContinue(last) && |last| < limit
    ensures v == Finish ==> TurnClosed(limit, last + [v], "assistant_finished")
    ensures v == Empty ==> TurnClosed(limit, last + [v], "empty_response")
  {
    assert (last + [v])[..|last|] == last;
  }

  /** A whole session, for any clock, model, tools and job completions.  Its marks are orderly and its rows
      tell the replies; every message says what the user, the model or a tool said, and each dispatch sent
      all that came before its reply; the turns are what the replies made of them; and the session ran
      through all prompts or was cut short for the reason it reports. */
  method RunSession(world: World, config: Config, enabled: bool, prompts: seq<string>)
    returns (result: Outcome, log: seq<Mark>, attempts: seq<Attempt>, jobs: seq<Job>, history: seq<Message>)
    ensures Orderly(world, config, log) && |log| == 2 * result.modelCalls
    ensures |attempts| == result.modelCalls == TurnCalls(result.turns) && |result.turns| <= |prompts|
    ensures result.toolCalls == CountTools(history) && Sent(log, history) && AttemptsTell(world, log, attempts)
    ensures Spoken(world, history) && Users(history) == prompts[..|result.turns|]
    ensures OneActive(jobs) && (!enabled ==> jobs == [])
    ensures var b := Books(history, log, result.modelCalls, result.toolCalls, result.turns);
            || CutShort(world, config, b, result.outcome)
            || (|result.turns| == |prompts| && RanThrough(world, config, b, result.outcome))
  {
    hide Orderly, Owed, CountTools, Sent, Spoken, Replies, Users, TurnsUntil, AttemptsTell, CutShort, RanThrough, Going, TurnsClosed;
    var session := new Session(world, config, enabled);
    session.Run(prompts);
    result := Outcome(session.modelCalls, session.toolCalls, session.turns, session.outcome);
    log, attempts, jobs, history := session.log, session.policy.attempts, session.policy.jobs, session.history;
  }

  lemma OpeningAnswered()
    ensures Owed([System]) == Some([]) && CountTools([System]) == 0 && Replies([System]) == 0 && Users([System]) == []
  {
    assert [System][..0] == [];
  }
}
