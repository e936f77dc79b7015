/** Token accounting of a streamed chat answer: the client runs model rounds until one
    asks for no tools, emitting a running total after each; the use case bills whatever
    total it saw last, wherever the stream is cut. */
module ChatTokens {
  import opened Collections
  import opened Wrappers

  datatype Call = Call(id: string, name: string, arguments: string)

  type Arguments = map<string, string>

  datatype GatewayEvent =
    | ContentDelta(text: string)
    | ToolCallsDelta(calls: seq<Call>)
    | UsageInfo(usage: Usage)

  datatype Usage = Usage(prompt: nat, completion: nat) {
    function Plus(other: Usage): Usage {
      Usage(prompt + other.prompt, completion + other.completion)
    }
  }

  function Total(u: Usage): nat { u.prompt + u.completion }

  const NOTHING := Usage(0, 0)

  /** What the gateway delivered for one model call; `completed` is false when it raised
      after these events. */
  datatype Reply = Reply(events: seq<GatewayEvent>, completed: bool)

  datatype Item =
    | Text(text: string)
    | StreamUsage(usage: Usage, tools: seq<string>)

  datatype Message =
    | Seed(role: string, content: string)
    | Assistant(calls: seq<Call>)
    | ToolResult(callId: string, content: string)

  // ---------- one reply ----------

  function Texts(events: seq<GatewayEvent>): seq<Item> {
    if events == [] then []
    else Texts(events[..|events| - 1])
         + (var e := events[|events| - 1]; if e.ContentDelta? then [Text(e.text)] else [])
  }

  function Used(events: seq<GatewayEvent>): Usage {
    if events == [] then NOTHING
    else
      var e := events[|events| - 1];
      if e.UsageInfo? then Used(events[..|events| - 1]).Plus(e.usage) else Used(events[..|events| - 1])
  }

  /** The last tool request wins. */
  function Calls(events: seq<GatewayEvent>): seq<Call> {
    if events == [] then []
    else
      var e := events[|events| - 1];
      if e.ToolCallsDelta? then e.calls else Calls(events[..|events| - 1])
  }

  function Names(calls: seq<Call>): seq<string> {
    seq(|calls|, k requires 0 <= k < |calls| => calls[k].name)
  }

  /** The gateway's promise for a plain call: text, then one usage record if and only if it
      succeeded. */
  predicate PlainReply(r: Reply) {
    if r.completed then
      && r.events != [] && r.events[|r.events| - 1].UsageInfo?
      && forall k :: 0 <= k < |r.events| - 1 ==> r.events[k].ContentDelta?
    else forall k :: 0 <= k < |r.events| ==> r.events[k].ContentDelta?
  }

  /** The forced final call: each usage record gives a sentinel on top of the tool rounds. */
  function Forced(events: seq<GatewayEvent>, spent: Usage, tools: seq<string>): seq<Item> {
    if events == [] then []
    else
      var e := events[|events| - 1];
      Forced(events[..|events| - 1], spent, tools)
      + (if e.ContentDelta? then [Text(e.text)]
         else if e.UsageInfo? then [StreamUsage(spent.Plus(e.usage), tools)]
         else [])
  }

  /** What one more event adds to a reply: a delta its text, a usage record its tokens, and a
      tool request takes the place of any before it. */
  lemma {:induction false} OneMoreEvent(events: seq<GatewayEvent>, e: GatewayEvent, spent: Usage, tools: seq<string>)
    ensures Texts(events + [e]) == Texts(events) + (if e.ContentDelta? then [Text(e.text)] else [])
    ensures Used(events + [e]).prompt == Used(events).prompt + (if e.UsageInfo? then e.usage.prompt else 0)
    ensures Used(events + [e]).completion == Used(events).completion + (if e.UsageInfo? then e.usage.completion else 0)
    ensures Calls(events + [e]) == if e.ToolCallsDelta? then e.calls else Calls(events)
    ensures Forced(events + [e], spent, tools)
         == Forced(events, spent, tools)
            + (match e
               case ContentDelta(text) => [Text(text)]
               case UsageInfo(u) =>
                 [StreamUsage(Usage(spent.prompt + u.prompt, spent.completion + u.completion), tools)]
               case ToolCallsDelta(_) => [])
  {
    assert (events + [e])[..|events|] == events;
  }

  lemma {:induction false} NoEvents(events: seq<GatewayEvent>, spent: Usage, tools: seq<string>)
    requires events == []
    ensures Texts(events) == [] && Used(events) == Usage(0, 0) && Calls(events) == []
    ensures Forced(events, spent, tools) == []
  {
  }

  // ---------- the whole stream ----------

  /** The JSON reader, None for text that is no JSON, and the tools: the result of the k-th
      call of round i by name and arguments, None if the tool raised. */
  datatype Executor = Executor(parse: string -> Option<Arguments>, run: (nat, nat, string, Arguments) -> Option<string>)

  /** Missing arguments are an empty object, and so is text that cannot be read. */
  function ArgumentsOf(ex: Executor, text: string): Arguments {
    var parsed := ex.parse(if text == "" then "{}" else text);
    if parsed.Some? then parsed.value else map[]
  }

  function ResultOf(ex: Executor, i: nat, k: nat, call: Call): Option<string> {
    ex.run(i, k, call.name, ArgumentsOf(ex, call.arguments))
  }

  predicate ToolsRun(run: Executor, i: nat, calls: seq<Call>) {
    forall k: nat :: k < |calls| ==> ResultOf(run, i, k, calls[k]).Some?
  }

  /** A round after which the loop goes on. */
  predicate ToolRound(replies: seq<Reply>, run: Executor, i: nat)
    requires i < |replies|
  {
    replies[i].completed && Calls(replies[i].events) != [] && ToolsRun(run, i, Calls(replies[i].events))
  }

  /** The items emitted from round i on, and whether the stream ended normally. */
  function Stream(i: nat, cap: nat, replies: seq<Reply>, run: Executor, spent: Usage,
      tools: seq<string>): (seq<Item>, bool)
    requires i <= cap < |replies|
    decreases cap - i
  {
    var r := replies[i];
    if i == cap then (Forced(r.events, spent, tools), r.completed)
    else if !r.completed then (Texts(r.events), false)
    else
      var total := spent.Plus(Used(r.events));
      var calls := Calls(r.events);
      if calls == [] then (Texts(r.events) + [StreamUsage(total, tools)], true)
      else if !ToolsRun(run, i, calls) then (Texts(r.events), false)
      else
        var used := tools + Names(calls);
        var (rest, finished) := Stream(i + 1, cap, replies, run, total, used);
        (Texts(r.events) + ([StreamUsage(total, used)] + rest), finished)
  }

  function RoundMessages(run: Executor, i: nat, calls: seq<Call>): seq<Message>
    requires ToolsRun(run, i, calls)
  {
    [Assistant(calls)] + ToolResults(run, i, calls, |calls|)
  }

  function ToolResults(run: Executor, i: nat, calls: seq<Call>, n: nat): seq<Message>
    requires ToolsRun(run, i, calls) && n <= |calls|
  {
    seq(n, k requires 0 <= k < n => ToolResult(calls[k].id, ResultOf(run, i, k, calls[k]).value))
  }

  /** The messages sent with model call i. */
  function Prompt(seed: seq<Message>, replies: seq<Reply>, run: Executor, i: nat): seq<Message>
    requires i < |replies|
    requires forall j: nat :: j < i ==> ToolRound(replies, run, j)
  {
    if i == 0 then seed
    else
      assert ToolRound(replies, run, i - 1);
      Prompt(seed, replies, run, i - 1) + RoundMessages(run, i - 1, Calls(replies[i - 1].events))
  }

  /** Every earlier round was a tool round, and these are the messages call i is sent. */
  ghost predicate Asked(seed: seq<Message>, replies: seq<Reply>, run: Executor, i: nat, messages: seq<Message>) {
    && i < |replies|
    && (forall j: nat :: j < i ==> ToolRound(replies, run, j))
    && messages == Prompt(seed, replies, run, i)
  }

  predicate Continues(items: seq<Item>, rest: (seq<Item>, bool), whole: (seq<Item>, bool)) {
    items + rest.0 == whole.0 && rest.1 == whole.1
  }

  lemma {:induction false} ContinuesOn(before: seq<Item>, texts: seq<Item>, s: Item, rest: (seq<Item>, bool),
      whole: (seq<Item>, bool))
    requires Continues(before, (texts + ([s] + rest.0), rest.1), whole)
    ensures Continues(before + texts + [s], rest, whole)
  {
    assert before + (texts + ([s] + rest.0)) == before + texts + [s] + rest.0;
  }

  // ---------- the client ----------

  /** The names and the arguments of all calls, before any of them runs. */
  method ParseCalls(calls: seq<Call>, run: Executor) returns (names: seq<string>, parsed: seq<Arguments>)
    ensures names == Names(calls) && |parsed| == |calls|
    ensures forall k: nat :: k < |calls| ==> parsed[k] == ArgumentsOf(run, calls[k].arguments)
  {
    names, parsed := [], [];
    for n := 0 to |calls|
      invariant names == Names(calls)[..n]
      invariant |parsed| == n && forall k: nat :: k < n ==> parsed[k] == ArgumentsOf(run, calls[k].arguments)
    {
      names := names + [calls[n].name];
      var arguments := run.parse(if calls[n].arguments == "" then "{}" else calls[n].arguments);
      parsed := parsed + [if arguments.Some? then arguments.value else map[]];
    }
  }

  /** The results of all calls in their order, None if a tool raised. */
  method GatherResults(calls: seq<Call>, parsed: seq<Arguments>, run: Executor, i: nat)
      returns (results: Option<seq<Message>>)
    requires |parsed| == |calls|
    requires forall k: nat :: k < |calls| ==> parsed[k] == ArgumentsOf(run, calls[k].arguments)
    ensures results.Some? <==> ToolsRun(run, i, calls)
    ensures results.Some? ==> results.value == ToolResults(run, i, calls, |calls|)
  {
    var gathered: seq<Message> := [];
    for n := 0 to |calls|
      invariant forall k: nat :: k < n ==> ResultOf(run, i, k, calls[k]).Some?
      invariant |gathered| == n
      invariant forall k: nat :: k < n ==> gathered[k] == ToolResult(calls[k].id, ResultOf(run, i, k, calls[k]).value)
    {
      var result := run.run(i, n, calls[n].name, parsed[n]);
      assert result == ResultOf(run, i, n, calls[n]);
      if result.None? { return None; }
      gathered := gathered + [ToolResult(calls[n].id, result.value)];
    }
    assert gathered == ToolResults(run, i, calls, |calls|);
    return Some(gathered);
  }

  /** In plain fields: the tools run if none of them raises on the arguments that were asked for. */
  lemma {:induction false} ToolsRunMeans(run: Executor, i: nat, calls: seq<Call>)
    ensures !ToolsRun(run, i, calls) <==>
              exists k: nat :: k < |calls| &&
                var read := run.parse(if calls[k].arguments == "" then "{}" else calls[k].arguments);
                run.run(i, k, calls[k].name, if read.Some? then read.value else map[]).None?
  {
    if !ToolsRun(run, i, calls) {
      var k: nat :| k < |calls| && ResultOf(run, i, k, calls[k]).None?;
      assert ArgumentsOf(run, calls[k].arguments)
          == var read := run.parse(if calls[k].arguments == "" then "{}" else calls[k].arguments);
             if read.Some? then read.value else map[];
    }
  }

  /** The message is the result of the call: the named tool's, on the arguments that were asked for. */
  predicate ResultIs(run: Executor, i: nat, k: nat, call: Call, message: Message) {
    var read := run.parse(if call.arguments == "" then "{}" else call.arguments);
    var result := run.run(i, k, call.name, if read.Some? then read.value else map[]);
    result.Some? && message == ToolResult(call.id, result.value)
  }

  /** What one tool round adds to the conversation, in plain fields: the tool request and, for each
      of its calls in order, the result of the named tool on the arguments that were asked for,
      unreadable ones counting as none. */
  lemma {:induction false} RoundMeans(run: Executor, i: nat, calls: seq<Call>)
    requires ToolsRun(run, i, calls)
    ensures |RoundMessages(run, i, calls)| == 1 + |calls| && RoundMessages(run, i, calls)[0] == Assistant(calls)
    ensures forall k: nat :: k < |calls| ==>
              var read := run.parse(if calls[k].arguments == "" then "{}" else calls[k].arguments);
              var result := run.run(i, k, calls[k].name, if read.Some? then read.value else map[]);
              result.Some? && RoundMessages(run, i, calls)[1 + k] == ToolResult(calls[k].id, result.value)
  {
    forall k: nat | k < |calls| ensures ResultIs(run, i, k, calls[k], RoundMessages(run, i, calls)[1 + k]) {
      assert ResultOf(run, i, k, calls[k]).Some?;
    }
  }

  method ExecuteToolRound(messages: seq<Message>, calls: seq<Call>, run: Executor, i: nat)
      returns (after: Option<seq<Message>>, names: seq<string>)
    ensures |names| == |calls| && forall k :: 0 <= k < |calls| ==> names[k] == calls[k].name
    ensures after.None? <==>
              exists k: nat :: k < |calls| &&
                var read := run.parse(if calls[k].arguments == "" then "{}" else calls[k].arguments);
                run.run(i, k, calls[k].name, if read.Some? then read.value else map[]).None?
    ensures after.Some? ==>
              && |after.value| == |messages| + 1 + |calls| && messages <= after.value
              && after.value[|messages|] == Assistant(calls)
              && forall k: nat :: k < |calls| ==>
                   var read := run.parse(if calls[k].arguments == "" then "{}" else calls[k].arguments);
                   var result := run.run(i, k, calls[k].name, if read.Some? then read.value else map[]);
                   result.Some? && after.value[|messages| + 1 + k] == ToolResult(calls[k].id, result.value)
    ensures after.Some? <==> ToolsRun(run, i, calls)
    ensures after.Some? ==> after.value == messages + RoundMessages(run, i, calls) && names == Names(calls)
  {
    var parsed;
    names, parsed := ParseCalls(calls, run);
    var results := GatherResults(calls, parsed, run, i);
    ToolsRunMeans(run, i, calls);
    if results.None? { return None, names; }
    RoundMeans(run, i, calls);
    after := Some(messages + [Assistant(calls)] + results.value);
    assert messages + [Assistant(calls)] + results.value == messages + RoundMessages(run, i, calls);
  }

  /** The events of one round with tools on offer. */
  method ReadRound(events: seq<GatewayEvent>, start: Usage) returns (texts: seq<Item>, spent: Usage, calls: seq<Call>)
    ensures texts == Texts(events) && spent == start.Plus(Used(events)) && calls == Calls(events)
  {
    texts, spent, calls := [], start, [];
    assert events[..0] == [];
    for n := 0 to |events|
      invariant texts == Texts(events[..n])
      invariant spent == start.Plus(Used(events[..n]))
      invariant calls == Calls(events[..n])
    {
      assert events[..n + 1][..n] == events[..n];
      match events[n]
      case ContentDelta(text) => texts := texts + [Text(text)];
      case ToolCallsDelta(requested) => calls := requested;
      case UsageInfo(usage) => spent := spent.Plus(usage);
    }
    assert events[..|events|] == events;
  }

  /** The events of the forced final answer. */
  method ReadForced(events: seq<GatewayEvent>, spent: Usage, tools: seq<string>) returns (items: seq<Item>)
    ensures items == Forced(events, spent, tools)
  {
    items := [];
    assert events[..0] == [];
    for n := 0 to |events|
      invariant items == Forced(events[..n], spent, tools)
    {
      assert events[..n + 1][..n] == events[..n];
      match events[n]
      case UsageInfo(usage) => items := items + [StreamUsage(spent.Plus(usage), tools)];
      case ContentDelta(text) => items := items + [Text(text)];
      case ToolCallsDelta(_) =>
    }
    assert events[..|events|] == events;
  }

  /** The constructor's `max(1, max_tool_iterations)`. */
  function Cap(maxToolIterations: int): (cap: nat)
    ensures maxToolIterations >= 1 ==> cap == maxToolIterations
    ensures maxToolIterations < 1 ==> cap == 1
  {
    if maxToolIterations < 1 then 1 else maxToolIterations
  }

  /** Where the round loop stands: what it emitted, what it knows, and what it sent. */
  datatype Progress = Progress(items: seq<Item>, messages: seq<Message>, spent: Usage, tools: seq<string>,
                               sent: seq<seq<Message>>)

  /** Before round i: every call so far was sent its prompt, and the rest of the stream
      completes what was emitted to the whole. */
  ghost predicate StandsAt(p: Progress, i: nat, cap: nat, seed: seq<Message>, replies: seq<Reply>, run: Executor)
    requires i <= cap < |replies|
  {
    && Asked(seed, replies, run, i, p.messages)
    && |p.sent| == i
    && (forall j: nat :: j < i ==> Asked(seed, replies, run, j, p.sent[j]))
    && Last(i, cap, replies, run) == Last(0, cap, replies, run)
    && Continues(p.items, Stream(i, cap, replies, run, p.spent, p.tools), Stream(0, cap, replies, run, NOTHING, []))
  }

  /** The stream ended: these are its items and all its calls. */
  ghost predicate Ended(items: seq<Item>, finished: bool, sent: seq<seq<Message>>, cap: nat, seed: seq<Message>,
                        replies: seq<Reply>, run: Executor)
    requires cap < |replies|
  {
    && (items, finished) == Stream(0, cap, replies, run, NOTHING, [])
    && |sent| == Last(0, cap, replies, run) + 1
    && forall j: nat :: j < |sent| ==> Asked(seed, replies, run, j, sent[j])
  }

  /** The body of the loop; `outcome` is None when another round follows. */
  method RunRound(p: Progress, i: nat, cap: nat, ghost seed: seq<Message>, replies: seq<Reply>, run: Executor)
      returns (next: Progress, outcome: Option<bool>)
    requires i < cap < |replies| && StandsAt(p, i, cap, seed, replies, run)
    ensures outcome.None? ==> StandsAt(next, i + 1, cap, seed, replies, run)
    ensures outcome.Some? ==> Ended(next.items, outcome.value, next.sent, cap, seed, replies, run)
  {
    var texts, total, calls := ReadRound(replies[i].events, p.spent);
    var items, sent := p.items + texts, p.sent + [p.messages];
    if !replies[i].completed { return p.(items := items, sent := sent), Some(false); }
    if calls == [] {
      Regroup(p.items, texts, [StreamUsage(total, p.tools)]);
      return p.(items := items + [StreamUsage(total, p.tools)], sent := sent), Some(true);
    }
    var after, names := ExecuteToolRound(p.messages, calls, run, i);
    if after.None? { return p.(items := items, sent := sent), Some(false); }
    assert ToolRound(replies, run, i);
    var s := StreamUsage(total, p.tools + names);
    ContinuesOn(p.items, texts, s, Stream(i + 1, cap, replies, run, total, p.tools + names),
                Stream(0, cap, replies, run, NOTHING, []));
    return Progress(items + [s], after.value, total, p.tools + names, sent), None;
  }

  /** `stream_with_tools`, with what it sent to the model beside what it emitted. */
  method StreamWithTools(seed: seq<Message>, maxToolIterations: int, replies: seq<Reply>, run: Executor)
      returns (items: seq<Item>, finished: bool, sent: seq<seq<Message>>)
    requires Cap(maxToolIterations) < |replies|
    ensures (items, finished) == Stream(0, Cap(maxToolIterations), replies, run, NOTHING, [])
    ensures |sent| == Last(0, Cap(maxToolIterations), replies, run) + 1
    ensures forall j: nat :: j < |sent| ==> Asked(seed, replies, run, j, sent[j])
  {
    var cap := Cap(maxToolIterations);
    var p := Progress([], seed, NOTHING, [], []);
    assert [] + Stream(0, cap, replies, run, NOTHING, []).0 == Stream(0, cap, replies, run, NOTHING, []).0;
    for i := 0 to cap
      invariant StandsAt(p, i, cap, seed, replies, run)
    {
      var outcome;
      p, outcome := RunRound(p, i, cap, seed, replies, run);
      if outcome.Some? { return p.items, outcome.value, p.sent; }
    }
    var final := ReadForced(replies[cap].events, p.spent, p.tools);
    items, finished, sent := p.items + final, replies[cap].completed, p.sent + [p.messages];
  }

  // ---------- the ledger ----------

  /** The last model call made when the loop stands at round i. */
  function Last(i: nat, cap: nat, replies: seq<Reply>, run: Executor): (e: nat)
    requires i <= cap < |replies|
    ensures i <= e <= cap
    ensures forall j: nat :: i <= j < e ==> ToolRound(replies, run, j)
    ensures e < cap ==> !ToolRound(replies, run, e)
    decreases cap - i
  {
    if i == cap || !ToolRound(replies, run, i) then i else Last(i + 1, cap, replies, run)
  }

  /** What the first n model calls cost together. */
  function Paid(replies: seq<Reply>, n: nat): Usage
    requires n <= |replies|
  {
    if n == 0 then NOTHING else Paid(replies, n - 1).Plus(Used(replies[n - 1].events))
  }

  /** The tools the first n model calls asked for. */
  function ToolsOf(replies: seq<Reply>, n: nat): seq<string>
    requires n <= |replies|
  {
    if n == 0 then [] else ToolsOf(replies, n - 1) + Names(Calls(replies[n - 1].events))
  }

  function Sentinels(items: seq<Item>): nat {
    if items == [] then 0
    else Sentinels(items[..|items| - 1]) + (if items[|items| - 1].StreamUsage? then 1 else 0)
  }

  /** The latest sentinel a reader of these items has seen. */
  function Latest(items: seq<Item>, start: Usage, tools: seq<string>): (Usage, seq<string>) {
    if items == [] then (start, tools)
    else
      var last := items[|items| - 1];
      if last.StreamUsage? then (last.usage, last.tools) else Latest(items[..|items| - 1], start, tools)
  }

  lemma {:induction false} SentinelsAppend(a: seq<Item>, b: seq<Item>)
    ensures Sentinels(a + b) == Sentinels(a) + Sentinels(b)
  {
    if b == [] {
      assert a + b == a;
    } else {
      assert (a + b)[..|a + b| - 1] == a + b[..|b| - 1];
      SentinelsAppend(a, b[..|b| - 1]);
    }
  }

  lemma {:induction false} LatestAppend(a: seq<Item>, b: seq<Item>, start: Usage, tools: seq<string>)
    ensures var (u, t) := Latest(a, start, tools);
            Latest(a + b, start, tools) == Latest(b, u, t)
  {
    if b == [] {
      assert a + b == a;
    } else {
      assert (a + b)[..|a + b| - 1] == a + b[..|b| - 1];
      LatestAppend(a, b[..|b| - 1], start, tools);
    }
  }

  predicate OnlyText(items: seq<Item>) {
    forall k :: 0 <= k < |items| ==> items[k].Text?
  }

  lemma {:induction false} TextOnly(items: seq<Item>, start: Usage, tools: seq<string>)
    requires OnlyText(items)
    ensures Sentinels(items) == 0 && Latest(items, start, tools) == (start, tools)
  {
    if items != [] {
      TextOnly(items[..|items| - 1], start, tools);
    }
  }

  lemma {:induction false} TextsAreText(events: seq<GatewayEvent>)
    ensures OnlyText(Texts(events))
  {
    if events != [] {
      TextsAreText(events[..|events| - 1]);
    }
  }

  lemma {:induction false} ContentOnly(events: seq<GatewayEvent>, spent: Usage, tools: seq<string>)
    requires forall k :: 0 <= k < |events| ==> events[k].ContentDelta?
    ensures Forced(events, spent, tools) == Texts(events) && Used(events) == NOTHING && Calls(events) == []
  {
    if events != [] {
      ContentOnly(events[..|events| - 1], spent, tools);
    }
  }

  /** The forced final call looks like a round without tools. */
  lemma {:induction false} ForcedIsFinalRound(r: Reply, spent: Usage, tools: seq<string>)
    requires PlainReply(r)
    ensures Forced(r.events, spent, tools)
         == Texts(r.events) + (if r.completed then [StreamUsage(spent.Plus(Used(r.events)), tools)] else [])
    ensures Calls(r.events) == []
  {
    if r.completed {
      var front := r.events[..|r.events| - 1];
      ContentOnly(front, spent, tools);
      assert NOTHING.Plus(r.events[|r.events| - 1].usage) == r.events[|r.events| - 1].usage;
    } else {
      ContentOnly(r.events, spent, tools);
      assert Texts(r.events) + [] == Texts(r.events);
    }
  }

  /** What a reader cut off after these items must have seen: the cost and tools of exactly
      the first `i + Sentinels(seen)` model calls. */
  predicate Accounted(replies: seq<Reply>, i: nat, seen: seq<Item>, spent: Usage, tools: seq<string>) {
    var n := i + Sentinels(seen);
    n <= |replies| && Latest(seen, spent, tools) == (Paid(replies, n), ToolsOf(replies, n))
  }

  lemma {:induction false} CutInRound(i: nat, replies: seq<Reply>, spent: Usage, tools: seq<string>,
      rest: seq<Item>, k: nat)
    requires i < |replies|
    requires spent == Paid(replies, i) && tools == ToolsOf(replies, i)
    requires k <= |Texts(replies[i].events)|
    ensures Accounted(replies, i, (Texts(replies[i].events) + rest)[..k], spent, tools)
    ensures Sentinels((Texts(replies[i].events) + rest)[..k]) == 0
  {
    var texts := Texts(replies[i].events);
    TextsAreText(replies[i].events);
    assert (texts + rest)[..k] == texts[..k];
    TextOnly(texts[..k], spent, tools);
  }

  lemma {:induction false} CutAfterSentinel(texts: seq<Item>, s: Item, rest: seq<Item>, k: nat, spent: Usage,
      tools: seq<string>)
    requires OnlyText(texts) && s.StreamUsage? && k <= |rest|
    ensures var seen := (texts + ([s] + rest))[..|texts| + 1 + k];
            && Sentinels(seen) == 1 + Sentinels(rest[..k])
            && Latest(seen, spent, tools) == Latest(rest[..k], s.usage, s.tools)
  {
    var head := texts + [s];
    assert (texts + ([s] + rest))[..|texts| + 1 + k] == head + rest[..k];
    assert head[..|head| - 1] == texts;
    TextOnly(texts, spent, tools);
    SentinelsAppend(head, rest[..k]);
    LatestAppend(head, rest[..k], spent, tools);
  }

  lemma {:induction false} CutAfterRound(i: nat, replies: seq<Reply>, spent: Usage, tools: seq<string>, s: Item,
      rest: seq<Item>, k: nat)
    requires i < |replies| && k <= |rest|
    requires s == StreamUsage(Paid(replies, i + 1), ToolsOf(replies, i + 1))
    requires Accounted(replies, i + 1, rest[..k], s.usage, s.tools)
    ensures Accounted(replies, i, (Texts(replies[i].events) + ([s] + rest))[..|Texts(replies[i].events)| + 1 + k],
        spent, tools)
  {
    TextsAreText(replies[i].events);
    CutAfterSentinel(Texts(replies[i].events), s, rest, k, spent, tools);
  }

  /** The three ways a round can go. */
  lemma {:induction false} StreamShape(i: nat, cap: nat, replies: seq<Reply>, run: Executor, spent: Usage,
      tools: seq<string>)
    requires i <= cap < |replies| && PlainReply(replies[cap])
    ensures var (items, finished) := Stream(i, cap, replies, run, spent, tools);
            var events := replies[i].events;
            var total, used := spent.Plus(Used(events)), tools + Names(Calls(events));
            if i < cap && ToolRound(replies, run, i) then
              var (rest, ok) := Stream(i + 1, cap, replies, run, total, used);
              items == Texts(events) + ([StreamUsage(total, used)] + rest) && finished == ok
            else if replies[i].completed && (i == cap || Calls(events) == []) then
              items == Texts(events) + ([StreamUsage(total, used)] + []) && finished
            else items == Texts(events) && !finished
  {
    if i == cap {
      ForcedIsFinalRound(replies[i], spent, tools);
    }
    if Calls(replies[i].events) == [] {
      assert tools + Names(Calls(replies[i].events)) == tools;
      var end := [StreamUsage(spent.Plus(Used(replies[i].events)), tools)];
      assert end + [] == end;
    }
  }

  lemma {:induction false} CutRound(i: nat, replies: seq<Reply>, spent: Usage, tools: seq<string>, s: Item,
      rest: seq<Item>, k: nat)
    requires i < |replies| && spent == Paid(replies, i) && tools == ToolsOf(replies, i)
    requires s == StreamUsage(Paid(replies, i + 1), ToolsOf(replies, i + 1))
    requires k <= |Texts(replies[i].events)| + 1 + |rest|
    requires k > |Texts(replies[i].events)| ==>
               Accounted(replies, i + 1, rest[..k - |Texts(replies[i].events)| - 1], s.usage, s.tools)
    ensures Accounted(replies, i, (Texts(replies[i].events) + ([s] + rest))[..k], spent, tools)
  {
    var n := |Texts(replies[i].events)|;
    if k <= n {
      CutInRound(i, replies, spent, tools, [s] + rest, k);
    } else {
      CutAfterRound(i, replies, spent, tools, s, rest, k - n - 1);
    }
  }

  lemma {:induction false} LedgerFrom(i: nat, cap: nat, replies: seq<Reply>, run: Executor, spent: Usage,
      tools: seq<string>, k: nat)
    requires i <= cap < |replies| && PlainReply(replies[cap])
    requires spent == Paid(replies, i) && tools == ToolsOf(replies, i)
    requires k <= |Stream(i, cap, replies, run, spent, tools).0|
    ensures Accounted(replies, i, Stream(i, cap, replies, run, spent, tools).0[..k], spent, tools)
    decreases cap - i
  {
    var events := replies[i].events;
    var total, used := Paid(replies, i + 1), ToolsOf(replies, i + 1);
    var s := StreamUsage(total, used);
    StreamShape(i, cap, replies, run, spent, tools);
    if i < cap && ToolRound(replies, run, i) {
      var rest := Stream(i + 1, cap, replies, run, total, used).0;
      if k > |Texts(events)| {
        LedgerFrom(i + 1, cap, replies, run, total, used, k - |Texts(events)| - 1);
      }
      CutRound(i, replies, spent, tools, s, rest, k);
    } else if replies[i].completed && (i == cap || Calls(events) == []) {
      CutRound(i, replies, spent, tools, s, [], k);
    } else {
      CutInRound(i, replies, spent, tools, [], k);
      assert Texts(events) + [] == Texts(events);
    }
  }

  /** Cut the stream anywhere: the latest sentinel carries exactly the cost and the tools of
      the model calls whose sentinel was seen. */
  lemma {:induction false} Ledger(cap: nat, replies: seq<Reply>, run: Executor, k: nat)
    requires 1 <= cap < |replies| && PlainReply(replies[cap])
    requires k <= |Stream(0, cap, replies, run, NOTHING, []).0|
    ensures var seen := Stream(0, cap, replies, run, NOTHING, []).0[..k];
            && Sentinels(seen) <= |replies|
            && Latest(seen, NOTHING, []) == (Paid(replies, Sentinels(seen)), ToolsOf(replies, Sentinels(seen)))
  {
    LedgerFrom(0, cap, replies, run, NOTHING, [], k);
  }

  lemma {:induction false} SentinelsOfRound(events: seq<GatewayEvent>, s: Item, rest: seq<Item>)
    requires s.StreamUsage?
    ensures Sentinels(Texts(events) + ([s] + rest)) == 1 + Sentinels(rest)
    ensures Sentinels(Texts(events)) == 0
  {
    TextsAreText(events);
    TextOnly(Texts(events), NOTHING, []);
    SentinelsAppend(Texts(events), [s] + rest);
    SentinelsAppend([s], rest);
    assert [s][..0] == [];
  }

  /** How many sentinels a stream carries, and exactly when it ends normally. */
  lemma {:induction false} Ending(i: nat, cap: nat, replies: seq<Reply>, run: Executor, spent: Usage,
      tools: seq<string>)
    requires i <= cap < |replies| && PlainReply(replies[cap])
    ensures var (items, finished) := Stream(i, cap, replies, run, spent, tools);
            var e := Last(i, cap, replies, run);
            && (finished <==> replies[e].completed && (e == cap || Calls(replies[e].events) == []))
            && i + Sentinels(items) == e + (if finished then 1 else 0)
    decreases cap - i
  {
    var events := replies[i].events;
    var total, used := spent.Plus(Used(events)), tools + Names(Calls(events));
    var s := StreamUsage(total, used);
    StreamShape(i, cap, replies, run, spent, tools);
    if i < cap && ToolRound(replies, run, i) {
      SentinelsOfRound(events, s, Stream(i + 1, cap, replies, run, total, used).0);
      Ending(i + 1, cap, replies, run, total, used);
    } else {
      SentinelsOfRound(events, s, []);
    }
  }

  lemma {:induction false} RoundThenRest(events: seq<GatewayEvent>, s: Item, rest: seq<Item>, k: nat)
    requires s.StreamUsage? && k < |Texts(events) + ([s] + rest)|
    requires (Texts(events) + ([s] + rest))[k].Text?
    ensures var items := Texts(events) + ([s] + rest);
            if k < |Texts(events)| then Sentinels(items[..k]) == 0 && items[k] in Texts(events)
            else
              var m := k - |Texts(events)| - 1;
              0 <= m < |rest| && items[k] == rest[m] && Sentinels(items[..k]) == 1 + Sentinels(rest[..m])
  {
    var texts := Texts(events);
    var items := texts + ([s] + rest);
    TextsAreText(events);
    if k < |texts| {
      assert items[..k] == texts[..k] && items[k] == texts[k];
      TextOfRound(events, k);
    } else {
      var m := k - |texts| - 1;
      assert items[..k] == texts + ([s] + rest[..m]);
      SentinelsOfRound(events, s, rest[..m]);
    }
  }

  lemma {:induction false} TextOfRound(events: seq<GatewayEvent>, k: nat)
    requires k < |Texts(events)|
    ensures Sentinels(Texts(events)[..k]) == 0 && Texts(events)[k] in Texts(events)
  {
    TextsAreText(events);
    TextOnly(Texts(events)[..k], NOTHING, []);
  }

  /** The text at k belongs to the model call numbered by the sentinels before it. */
  predicate TextBelongs(items: seq<Item>, k: nat, i: nat, last: nat, replies: seq<Reply>)
    requires k < |items| && last < |replies|
  {
    var n := i + Sentinels(items[..k]);
    n <= last && items[k] in Texts(replies[n].events)
  }

  lemma {:induction false} TextOfLater(i: nat, events: seq<GatewayEvent>, s: Item, rest: seq<Item>, k: nat, last: nat,
                                       replies: seq<Reply>)
    requires s.StreamUsage? && k < |Texts(events) + ([s] + rest)| && (Texts(events) + ([s] + rest))[k].Text?
    requires i <= last < |replies| && events == replies[i].events
    requires |Texts(events)| < k ==> k - |Texts(events)| - 1 < |rest|
                                     && TextBelongs(rest, k - |Texts(events)| - 1, i + 1, last, replies)
    ensures TextBelongs(Texts(events) + ([s] + rest), k, i, last, replies)
  {
    RoundThenRest(events, s, rest, k);
  }

  /** Text never runs ahead of the bill: a token that follows n sentinels belongs to model
      call n, so every earlier call is already accounted for when it is emitted. */
  lemma {:induction false} TextIsInFlight(i: nat, cap: nat, replies: seq<Reply>, run: Executor, spent: Usage,
      tools: seq<string>, k: nat)
    requires i <= cap < |replies| && PlainReply(replies[cap])
    requires k < |Stream(i, cap, replies, run, spent, tools).0|
    requires Stream(i, cap, replies, run, spent, tools).0[k].Text?
    ensures TextBelongs(Stream(i, cap, replies, run, spent, tools).0, k, i, Last(i, cap, replies, run), replies)
    decreases cap - i
  {
    var events := replies[i].events;
    var total, used := spent.Plus(Used(events)), tools + Names(Calls(events));
    var s, last := StreamUsage(total, used), Last(i, cap, replies, run);
    StreamShape(i, cap, replies, run, spent, tools);
    if i < cap && ToolRound(replies, run, i) {
      var rest := Stream(i + 1, cap, replies, run, total, used).0;
      var m := k - |Texts(events)| - 1;
      RoundThenRest(events, s, rest, k);
      if k > |Texts(events)| {
        TextIsInFlight(i + 1, cap, replies, run, total, used, m);
      }
      TextOfLater(i, events, s, rest, k, last, replies);
    } else if replies[i].completed && (i == cap || Calls(events) == []) {
      RoundThenRest(events, s, [], k);
      TextOfLater(i, events, s, [], k, last, replies);
    } else {
      TextOfRound(events, k);
    }
  }

  lemma {:induction false} PaidGrows(replies: seq<Reply>, m: nat, n: nat)
    requires m <= n <= |replies|
    ensures Paid(replies, m).prompt <= Paid(replies, n).prompt
    ensures Paid(replies, m).completion <= Paid(replies, n).completion
  {
    if m < n {
      PaidGrows(replies, m, n - 1);
    }
  }

  /** Running totals never decrease along a stream. */
  lemma {:induction false} SentinelsNeverDecrease(cap: nat, replies: seq<Reply>, run: Executor, j: nat, k: nat)
    requires 1 <= cap < |replies| && PlainReply(replies[cap])
    requires j <= k <= |Stream(0, cap, replies, run, NOTHING, []).0|
    ensures var items := Stream(0, cap, replies, run, NOTHING, []).0;
            var early, late := Latest(items[..j], NOTHING, []).0, Latest(items[..k], NOTHING, []).0;
            early.prompt <= late.prompt && early.completion <= late.completion
  {
    var items := Stream(0, cap, replies, run, NOTHING, []).0;
    Ledger(cap, replies, run, j);
    Ledger(cap, replies, run, k);
    assert items[..k] == items[..j] + items[j..k];
    SentinelsAppend(items[..j], items[j..k]);
    PaidGrows(replies, Sentinels(items[..j]), Sentinels(items[..k]));
  }

  // ---------- the bill ----------

  const CHARS_PER_TOKEN := 4

  function Answer(items: seq<Item>): string {
    if items == [] then ""
    else
      var last := items[|items| - 1];
      Answer(items[..|items| - 1]) + (if last.Text? then last.text else "")
  }

  function Chars(history: seq<string>): nat {
    if history == [] then 0 else Chars(history[..|history| - 1]) + |history[|history| - 1]|
  }

  lemma {:induction false} OneMoreMessage(history: seq<string>, message: string)
    ensures Chars(history + [message]) == Chars(history) + |message|
    ensures history == [] ==> Chars(history) == 0
  {
    assert (history + [message])[..|history|] == history;
  }

  /** What the use case records after these items, 0 for nothing. */
  function Billed(message: string, history: seq<string>, seen: seq<Item>): nat {
    var usage := Total(Latest(seen, NOTHING, []).0);
    if usage == 0 && Answer(seen) != "" then
      (|message| + Chars(history) + |Answer(seen)|) / CHARS_PER_TOKEN + 1
    else usage
  }

  /** The bill in plain fields. */
  lemma {:induction false} BilledMeans(message: string, history: seq<string>, seen: seq<Item>)
    ensures var usage := Latest(seen, NOTHING, []).0.prompt + Latest(seen, NOTHING, []).0.completion;
            var chars := |message| + Chars(history) + |Answer(seen)|;
            Billed(message, history, seen)
            == if usage > 0 then usage else if Answer(seen) != "" then chars / 4 + 1 else 0
  {
  }

  method EstimateTokensFromText(message: string, history: seq<string>, answer: string) returns (tokens: nat)
    ensures tokens == (|message| + Chars(history) + |answer|) / CHARS_PER_TOKEN + 1
  {
    var chars := |message|;
    assert history[..0] == [];
    for n := 0 to |history|
      invariant chars == |message| + Chars(history[..n])
    {
      assert history[..n + 1][..n] == history[..n];
      chars := chars + |history[n]|;
    }
    assert history[..|history|] == history;
    tokens := (chars + |answer|) / CHARS_PER_TOKEN + 1;
  }

  lemma {:induction false} OneMoreItem(seen: seq<Item>, item: Item)
    ensures Answer(seen + [item]) == Answer(seen) + (if item.Text? then item.text else "")
    ensures Latest(seen + [item], NOTHING, [])
         == if item.StreamUsage? then (item.usage, item.tools) else Latest(seen, NOTHING, [])
  {
    assert (seen + [item])[..|seen|] == seen;
  }

  /** The use case's loop over the items that reached it. */
  method Collect(seen: seq<Item>) returns (usage: nat, tools: seq<string>, answer: string)
    ensures usage == Latest(seen, NOTHING, []).0.prompt + Latest(seen, NOTHING, []).0.completion
    ensures tools == Latest(seen, NOTHING, []).1
    ensures answer == Answer(seen)
  {
    usage, tools, answer := 0, [], "";
    for n := 0 to |seen|
      invariant usage == Latest(seen[..n], NOTHING, []).0.prompt + Latest(seen[..n], NOTHING, []).0.completion
      invariant tools == Latest(seen[..n], NOTHING, []).1
      invariant answer == Answer(seen[..n])
    {
      OneMoreItem(seen[..n], seen[n]);
      assert seen[..n + 1] == seen[..n] + [seen[n]];
      if seen[n].Text? {
        answer := answer + seen[n].text;
      } else {
        usage, tools := seen[n].usage.prompt + seen[n].usage.completion, seen[n].tools;
        assert answer + "" == answer;
      }
    }
    assert seen[..|seen|] == seen;
  }

  /** What it does with them at the end, whether by completion, error or disconnect: the
      tokens it records, the assistant turn it saves, and the time it reports. Recording
      and saving may each fail, which is logged and swallowed and stops nothing else;
      `savedAt` is the time of a save that succeeds. */
  method Settle(message: string, history: seq<string>, seen: seq<Item>, startedAt: int, recordOk: bool,
      savedAt: Option<int>)
      returns (recorded: Option<nat>, turn: Option<(string, seq<string>)>, createdAt: int)
    ensures var usage := Latest(seen, NOTHING, []).0.prompt + Latest(seen, NOTHING, []).0.completion;
            var chars := |message| + Chars(history) + |Answer(seen)|;
            var tokens := if usage > 0 then usage else if Answer(seen) != "" then chars / 4 + 1 else 0;
            recorded == if recordOk && tokens > 0 then Some(tokens) else None
    ensures recorded == if recordOk && Billed(message, history, seen) > 0
                        then Some(Billed(message, history, seen)) else None
    ensures turn == if savedAt.Some? && Answer(seen) != ""
                    then Some((Answer(seen), Latest(seen, NOTHING, []).1)) else None
    ensures createdAt == if turn.Some? then savedAt.value else startedAt
  {
    var usage, tools, answer := Collect(seen);
    var tokens := usage;
    if usage == 0 && answer != "" {
      tokens := EstimateTokensFromText(message, history, answer);
    }
    BilledMeans(message, history, seen);
    assert tokens == Billed(message, history, seen);
    recorded, turn, createdAt := None, None, startedAt;
    if tokens > 0 && recordOk {
      recorded := Some(tokens);
    }
    if answer != "" && savedAt.Some? {
      turn, createdAt := Some((answer, tools)), savedAt.value;
    }
  }

  /** The bill at every cut: the cost of the model calls whose sentinel was seen; if that is
      nothing but text was shown, a positive estimate within one token of a quarter of the
      characters; and nothing exactly when nothing was shown and nothing was paid. */
  lemma {:induction false} BillAtEveryCut(cap: nat, replies: seq<Reply>, run: Executor, k: nat, message: string,
      history: seq<string>)
    requires 1 <= cap < |replies| && PlainReply(replies[cap])
    requires k <= |Stream(0, cap, replies, run, NOTHING, []).0|
    ensures var seen := Stream(0, cap, replies, run, NOTHING, []).0[..k];
            var bill := Billed(message, history, seen);
            var chars := |message| + Chars(history) + |Answer(seen)|;
            && Sentinels(seen) <= |replies|
            && var cost := Total(Paid(replies, Sentinels(seen)));
               && (cost > 0 ==> bill == cost)
               && (cost == 0 && Answer(seen) != "" ==>
                     bill >= 1 && CHARS_PER_TOKEN * (bill - 1) <= chars < CHARS_PER_TOKEN * bill)
               && (bill == 0 <==> cost == 0 && Answer(seen) == "")
  {
    Ledger(cap, replies, run, k);
  }

  /** A stream that ends normally bills every model call that was made. */
  lemma {:induction false} NormalBillIsEverything(cap: nat, replies: seq<Reply>, run: Executor, message: string,
      history: seq<string>)
    requires 1 <= cap < |replies| && PlainReply(replies[cap])
    ensures var (items, finished) := Stream(0, cap, replies, run, NOTHING, []);
            var calls := Last(0, cap, replies, run) + 1;
            finished && Total(Paid(replies, calls)) > 0 ==>
              Billed(message, history, items) == Total(Paid(replies, calls))
  {
    var (items, finished) := Stream(0, cap, replies, run, NOTHING, []);
    Ledger(cap, replies, run, |items|);
    assert items[..|items|] == items;
    Ending(0, cap, replies, run, NOTHING, []);
  }

  // ---------- the answer ----------

  /** The text of one model call. */
  function Said(events: seq<GatewayEvent>): string {
    if events == [] then ""
    else
      var e := events[|events| - 1];
      Said(events[..|events| - 1]) + (if e.ContentDelta? then e.text else "")
  }

  /** The text of calls i to n, one after the other. */
  function SaidFrom(replies: seq<Reply>, i: nat, n: nat): string
    requires i <= n < |replies|
    decreases n - i
  {
    Said(replies[i].events) + if i == n then "" else SaidFrom(replies, i + 1, n)
  }

  lemma {:induction false} AnswerAppend(a: seq<Item>, b: seq<Item>)
    ensures Answer(a + b) == Answer(a) + Answer(b)
  {
    if b == [] {
      assert a + b == a && Answer(a) + "" == Answer(a);
    } else {
      var last := b[|b| - 1];
      assert (a + b)[..|a + b| - 1] == a + b[..|b| - 1];
      AnswerAppend(a, b[..|b| - 1]);
      Regroup(Answer(a), Answer(b[..|b| - 1]), if last.Text? then last.text else "");
    }
  }

  lemma {:induction false} OneItem(item: Item)
    ensures Answer([item]) == if item.Text? then item.text else ""
  {
    assert [item][..0] == [] && Answer([]) == "";
  }

  lemma {:induction false} TextsSay(events: seq<GatewayEvent>, spent: Usage, tools: seq<string>)
    ensures Answer(Texts(events)) == Said(events) && Answer(Forced(events, spent, tools)) == Said(events)
  {
    if events != [] {
      var front, e := events[..|events| - 1], events[|events| - 1];
      TextsSay(front, spent, tools);
      if e.ContentDelta? {
        OneItem(Text(e.text));
        AnswerAppend(Texts(front), [Text(e.text)]);
        AnswerAppend(Forced(front, spent, tools), [Text(e.text)]);
      } else if e.UsageInfo? {
        OneItem(StreamUsage(spent.Plus(e.usage), tools));
        AnswerAppend(Forced(front, spent, tools), [StreamUsage(spent.Plus(e.usage), tools)]);
        assert Texts(front) + [] == Texts(front);
      } else {
        assert Texts(front) + [] == Texts(front) && Forced(front, spent, tools) + [] == Forced(front, spent, tools);
      }
    }
  }

  lemma {:induction false} RoundSays(events: seq<GatewayEvent>, s: Item, rest: seq<Item>)
    requires s.StreamUsage?
    ensures Answer(Texts(events) + ([s] + rest)) == Said(events) + Answer(rest)
    ensures Answer(Texts(events)) == Said(events)
  {
    TextsSay(events, NOTHING, []);
    OneItem(s);
    AnswerAppend(Texts(events), [s] + rest);
    AnswerAppend([s], rest);
    assert "" + Answer(rest) == Answer(rest);
  }

  /** No text is lost and none is invented: what a stream shows is exactly all the text of the
      model calls that were made, in order. */
  lemma {:induction false} AnswerIsEverythingSaid(i: nat, cap: nat, replies: seq<Reply>, run: Executor, spent: Usage,
      tools: seq<string>)
    requires i <= cap < |replies|
    ensures Answer(Stream(i, cap, replies, run, spent, tools).0) == SaidFrom(replies, i, Last(i, cap, replies, run))
    decreases cap - i
  {
    var events := replies[i].events;
    var total, used := spent.Plus(Used(events)), tools + Names(Calls(events));
    TextsSay(events, spent, tools);
    assert Said(events) + "" == Said(events);
    if i < cap && ToolRound(replies, run, i) {
      AnswerIsEverythingSaid(i + 1, cap, replies, run, total, used);
      RoundSays(events, StreamUsage(total, used), Stream(i + 1, cap, replies, run, total, used).0);
    } else if i < cap && replies[i].completed && Calls(events) == [] {
      RoundSays(events, StreamUsage(total, tools), []);
      assert [StreamUsage(total, tools)] + [] == [StreamUsage(total, tools)] && Answer([]) == "";
    }
  }

  // ---------- the dialogue ----------

  predicate Answers(results: seq<Message>, calls: seq<Call>)
    requires |results| == |calls|
  {
    forall k :: 0 <= k < |calls| ==> results[k].ToolResult? && results[k].callId == calls[k].id
  }

  /** Every assistant turn that asks for tools is followed by one result per call, in
      order, and no result stands elsewhere. */
  predicate Paired(ms: seq<Message>)
    decreases |ms|
  {
    ms == [] ||
    match ms[0]
    case Seed(_, _) => Paired(ms[1..])
    case ToolResult(_, _) => false
    case Assistant(calls) =>
      |calls| < |ms| && Answers(ms[1..1 + |calls|], calls) && Paired(ms[1 + |calls|..])
  }

  function TurnLength(m: Message): nat {
    if m.Assistant? then 1 + |m.calls| else 1
  }

  /** One seed, or one tool request with its results. */
  predicate IsTurn(turn: seq<Message>) {
    && turn != [] && !turn[0].ToolResult? && |turn| == TurnLength(turn[0])
    && (turn[0].Assistant? ==> Answers(turn[1..], turn[0].calls))
  }

  lemma {:induction false} FrontTurn(ms: seq<Message>) returns (turn: seq<Message>, rest: seq<Message>)
    requires Paired(ms) && ms != []
    ensures ms == turn + rest && IsTurn(turn) && Paired(rest) && |rest| < |ms|
  {
    var n := TurnLength(ms[0]);
    turn, rest := ms[..n], ms[n..];
    assert turn[1..] == ms[1..n];
  }

  lemma {:induction false} PrependTurn(turn: seq<Message>, rest: seq<Message>)
    requires IsTurn(turn) && Paired(rest)
    ensures Paired(turn + rest)
  {
    var ms := turn + rest;
    assert ms[|turn|..] == rest && ms[1..|turn|] == turn[1..];
    assert ms[0] == turn[0];
  }

  lemma {:induction false} PairedAppend(a: seq<Message>, b: seq<Message>)
    requires Paired(a) && Paired(b)
    ensures Paired(a + b)
    decreases |a|
  {
    if a == [] {
      assert a + b == b;
    } else {
      var turn, rest := FrontTurn(a);
      PairedAppend(rest, b);
      PrependTurn(turn, rest + b);
      Regroup(turn, rest, b);
    }
  }

  lemma {:induction false} SeedsArePaired(seed: seq<Message>)
    requires forall k :: 0 <= k < |seed| ==> seed[k].Seed?
    ensures Paired(seed)
  {
    if seed != [] {
      SeedsArePaired(seed[1..]);
    }
  }

  lemma {:induction false} RoundIsPaired(run: Executor, i: nat, calls: seq<Call>)
    requires ToolsRun(run, i, calls)
    ensures Paired(RoundMessages(run, i, calls))
  {
    var results := ToolResults(run, i, calls, |calls|);
    var round := [Assistant(calls)] + results;
    assert round[1..1 + |calls|] == results;
    assert round[1 + |calls|..] == [];
  }

  /** Whatever the tools return, every model call is sent a well-paired conversation. */
  lemma {:induction false} PromptsArePaired(seed: seq<Message>, replies: seq<Reply>, run: Executor, i: nat)
    requires forall k :: 0 <= k < |seed| ==> seed[k].Seed?
    requires i < |replies| && forall j: nat :: j < i ==> ToolRound(replies, run, j)
    ensures Paired(Prompt(seed, replies, run, i))
  {
    if i == 0 {
      SeedsArePaired(seed);
    } else {
      PromptsArePaired(seed, replies, run, i - 1);
      assert ToolRound(replies, run, i - 1);
      RoundIsPaired(run, i - 1, Calls(replies[i - 1].events));
      PairedAppend(Prompt(seed, replies, run, i - 1), RoundMessages(run, i - 1, Calls(replies[i - 1].events)));
    }
  }

  /** Every model call is sent the seed and then what each tool round before it added. */
  lemma {:induction false} PromptGrows(seed: seq<Message>, replies: seq<Reply>, run: Executor, i: nat)
    requires i + 1 < |replies| && forall j: nat :: j < i + 1 ==> ToolRound(replies, run, j)
    ensures Prompt(seed, replies, run, 0) == seed
    ensures ToolRound(replies, run, i)
    ensures Prompt(seed, replies, run, i + 1)
         == Prompt(seed, replies, run, i) + RoundMessages(run, i, Calls(replies[i].events))
  {
    assert ToolRound(replies, run, i);
  }
}
