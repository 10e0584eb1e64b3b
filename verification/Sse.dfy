/** The usage parsers of the metering proxy (agent/internal/tokenproxy/parse.go): response
    bytes arrive in chunks of any size; at most one usage row comes out. */
module Sse {

  import opened Wrappers
  import opened Lines

  datatype Row = Row(key: string, model: string, input: int, output: int, cacheCreation: int, cacheRead: int)

  const NO_ROW := Row("", "", 0, 0, 0, 0)

  datatype AnthropicUsage = AnthropicUsage(input: int, output: int, cacheCreation: int, cacheRead: int)

  datatype OpenAIUsage = OpenAIUsage(prompt: int, completion: int, input: int, output: int, promptCached: int, inputCached: int)

  datatype Message = Message(id: string, model: string, usage: Option<AnthropicUsage>)

  /** What the JSON decoder makes of one data line. */
  datatype Event =
    | AnthropicEvent(kind: string, message: Option<Message>, delta: Option<AnthropicUsage>)
    | Chunk(id: string, model: string, usage: Option<OpenAIUsage>)

  /** `decode` is the JSON decoder for the provider, `trim` strings.TrimSpace. */
  datatype Env = Env(decode: Data -> Option<Event>, trim: Data -> Data)

  datatype State = State(partial: Data, row: Row, sawUsage: bool)

  const START := State([], NO_ROW, false)

  const DATA: Data := [100, 97, 116, 97, 58]            // "data:"
  const DONE: Data := [91, 68, 79, 78, 69, 93]          // "[DONE]"

  // ---- events ----

  function Key(id: string): string { "proxy:" + id }

  function OpenAIRow(id: string, model: string, u: OpenAIUsage): Row
  {
    var total := if u.prompt == 0 then u.input else u.prompt;
    var cached := if u.promptCached == 0 then u.inputCached else u.promptCached;
    Row(Key(id), model, total - cached, if u.completion == 0 then u.output else u.completion, 0, cached)
  }

  function AnthropicRow(id: string, model: string, u: AnthropicUsage): Row
  {
    Row(Key(id), model, u.input, u.output, u.cacheCreation, u.cacheRead)
  }

  function ConsumeAnthropic(s: State, kind: string, message: Option<Message>, delta: Option<AnthropicUsage>): State
  {
    if kind == "message_start" && message.Some? then
      var m := message.value;
      if m.usage.Some? then s.(row := AnthropicRow(m.id, m.model, m.usage.value), sawUsage := true)
      else s.(row := s.row.(key := Key(m.id), model := m.model))
    else if kind == "message_delta" && delta.Some? && delta.value.output > 0 then
      s.(row := s.row.(output := delta.value.output), sawUsage := true)
    else s
  }

  function ConsumeChunk(s: State, id: string, model: string, usage: Option<OpenAIUsage>): State
  {
    var key := if id != "" && s.row.key == "" then Key(id) else s.row.key;
    var t := s.(row := s.row.(key := key, model := if model != "" then model else s.row.model));
    if usage.None? then t
    else
      var u := OpenAIRow(id, model, usage.value);
      t.(row := t.row.(input := u.input, cacheRead := u.cacheRead, output := u.output), sawUsage := true)
  }

  function Apply(s: State, e: Event): State
  {
    match e
    case AnthropicEvent(kind, message, delta) => ConsumeAnthropic(s, kind, message, delta)
    case Chunk(id, model, usage) => ConsumeChunk(s, id, model, usage)
  }

  function TrimCR(l: Data): Data
  {
    if l != [] && l[|l| - 1] == CR then l[..|l| - 1] else l
  }

  /** The event of one line, if it has one. */
  function EventOf(env: Env, line: Data): Option<Event>
  {
    var l := TrimCR(line);
    if !(DATA <= l) then None
    else
      var data := env.trim(l[5..]);
      if data == [] || data == DONE then None else env.decode(data)
  }

  function ConsumeLine(env: Env, s: State, line: Data): State
  {
    match EventOf(env, line)
    case None => s
    case Some(e) => Apply(s, e)
  }

  function ConsumeLines(env: Env, s: State, lines: seq<Data>): State
  {
    if lines == [] then s else ConsumeLine(env, ConsumeLines(env, s, lines[..|lines| - 1]), lines[|lines| - 1])
  }

  function Fed(env: Env, s: State, b: Data): State
  {
    ConsumeLines(env, s, Complete(s.partial + b)).(partial := Rest(s.partial + b))
  }

  function FedAll(env: Env, s: State, chunks: seq<Data>): State
  {
    if chunks == [] then s else Fed(env, FedAll(env, s, chunks[..|chunks| - 1]), chunks[|chunks| - 1])
  }

  function Result(s: State): Option<Row>
  {
    if !s.sawUsage || s.row.key == "" then None else Some(s.row)
  }

  // ---- the object ----

  /** strings.Split(text, "\n"): the complete lines, and the rest as the last part. */
  function Split(text: Data): (parts: seq<Data>)
    ensures parts != []
  {
    Complete(text) + [Rest(text)]
  }

  class Parser {

    const env: Env
    var partial: Data
    var row: Row
    var sawUsage: bool

    ghost function View(): State
      reads this
    {
      State(partial, row, sawUsage)
    }

    constructor (env: Env)
      ensures this.env == env && View() == START
    {
      this.env := env;
      partial, row, sawUsage := [], NO_ROW, false;
    }

    method Feed(b: Data)
      modifies this
      ensures View() == Fed(env, old(View()), b)
    {
      var text := partial + b;
      var lines := Split(text);
      var n := |lines| - 1;
      ghost var s := View();
      partial := lines[n];
      ghost var t := View();
      assert lines[..n] == Complete(text);
      for i := 0 to n
        invariant View() == ConsumeLines(env, s, lines[..i]).(partial := Rest(text))
      {
        var line := lines[i];
        if line != [] && line[|line| - 1] == CR {
          line := line[..|line| - 1];
        }
        ghost var before := View();
        if DATA <= line {
          var data := env.trim(line[|DATA|..]);
          if data != [] && data != DONE {
            ConsumeEvent(data);
          }
        }
        assert View() == ConsumeLine(env, before, lines[i]);
        PartialApart(env, ConsumeLines(env, s, lines[..i]), lines[i], Rest(text));
        assert lines[..i + 1][..i] == lines[..i];
      }
    }

    method ConsumeEvent(data: Data)
      modifies this`row, this`sawUsage
      ensures View() == match env.decode(data) case None => old(View()) case Some(e) => Apply(old(View()), e)
    {
      var ev := env.decode(data);
      match ev {
        case None =>
        case Some(AnthropicEvent(kind, message, delta)) =>
          if kind == "message_start" {
            if message.Some? {
              row := row.(key := Key(message.value.id), model := message.value.model);
              if message.value.usage.Some? {
                var u := message.value.usage.value;
                row := row.(input := u.input, cacheCreation := u.cacheCreation, cacheRead := u.cacheRead, output := u.output);
                sawUsage := true;
              }
            }
          } else if kind == "message_delta" {
            if delta.Some? && delta.value.output > 0 {
              row := row.(output := delta.value.output);
              sawUsage := true;
            }
          }
        case Some(Chunk(id, model, usage)) =>
          if id != "" && row.key == "" {
            row := row.(key := Key(id));
          }
          if model != "" {
            row := row.(model := model);
          }
          if usage.Some? {
            var u := OpenAIRow(id, model, usage.value);
            row := row.(input := u.input, cacheRead := u.cacheRead, output := u.output);
            sawUsage := true;
          }
      }
    }

    method GetResult() returns (r: Option<Row>)
      ensures r == Result(View())
    {
      r := if !sawUsage || row.key == "" then None else Some(row);
    }
  }

  // ---- chunks do not matter ----

  /** Consuming a line does not look at the unfinished one. */
  lemma PartialApart(env: Env, s: State, line: Data, p: Data)
    ensures ConsumeLine(env, s.(partial := p), line) == ConsumeLine(env, s, line).(partial := p)
    ensures ConsumeLine(env, s, line).partial == s.partial
  {
  }

  lemma {:induction false} PartialApartAll(env: Env, s: State, lines: seq<Data>, p: Data)
    ensures ConsumeLines(env, s.(partial := p), lines) == ConsumeLines(env, s, lines).(partial := p)
    ensures ConsumeLines(env, s, lines).partial == s.partial
  {
    hide ConsumeLine;
    if lines != [] {
      var n := |lines| - 1;
      PartialApartAll(env, s, lines[..n], p);
      PartialApart(env, ConsumeLines(env, s, lines[..n]), lines[n], p);
    }
  }

  lemma {:induction false} ConsumeJoin(env: Env, s: State, a: seq<Data>, b: seq<Data>)
    ensures ConsumeLines(env, s, a + b) == ConsumeLines(env, ConsumeLines(env, s, a), b)
  {
    hide ConsumeLine;
    if b == [] {
      assert a + b == a;
    } else {
      var n := |b| - 1;
      ConsumeJoin(env, s, a, b[..n]);
      assert (a + b)[..|a + b| - 1] == a + b[..n];
    }
  }

  /** Two feeds are one feed of both. */
  lemma FeedTwice(env: Env, s: State, a: Data, b: Data)
    ensures Fed(env, Fed(env, s, a), b) == Fed(env, s, a + b)
  {
    hide ConsumeLines, Complete, Rest;
    var x := s.partial + a;
    SplitAppend(x, b);
    assert s.partial + (a + b) == x + b;
    var t := ConsumeLines(env, s, Complete(x));
    ConsumeJoin(env, s, Complete(x), Complete(Rest(x) + b));
    PartialApartAll(env, t, Complete(Rest(x) + b), Rest(x));
  }

  function Joined(chunks: seq<Data>): Data
  {
    if chunks == [] then [] else Joined(chunks[..|chunks| - 1]) + chunks[|chunks| - 1]
  }

  lemma FeedNothing(env: Env, s: State)
    requires NL !in s.partial
    ensures Fed(env, s, []) == s
  {
    assert s.partial + [] == s.partial;
    NoNewline(s.partial);
  }

  /** However the body is cut into chunks, the parser ends in the state of one feed of the whole
      body: same row, same flag, same unfinished line. */
  lemma {:induction false} ChunksDoNotMatter(env: Env, s: State, chunks: seq<Data>)
    requires NL !in s.partial
    ensures FedAll(env, s, chunks) == Fed(env, s, Joined(chunks))
  {
    if chunks == [] {
      FeedNothing(env, s);
    } else {
      hide Fed;
      var n := |chunks| - 1;
      ChunksDoNotMatter(env, s, chunks[..n]);
      FeedTwice(env, s, Joined(chunks[..n]), chunks[n]);
    }
  }

  // ---- what the row says ----

  function Events(env: Env, lines: seq<Data>): seq<Event>
  {
    if lines == [] then []
    else
      var before := Events(env, lines[..|lines| - 1]);
      match EventOf(env, lines[|lines| - 1])
      case None => before
      case Some(e) => before + [e]
  }

  function ApplyAll(s: State, evs: seq<Event>): State
  {
    if evs == [] then s else Apply(ApplyAll(s, evs[..|evs| - 1]), evs[|evs| - 1])
  }

  lemma {:induction false} ConsumeIsApply(env: Env, s: State, lines: seq<Data>)
    ensures ConsumeLines(env, s, lines) == ApplyAll(s, Events(env, lines))
  {
    hide Apply, EventOf;
    if lines != [] {
      var n := |lines| - 1;
      ConsumeIsApply(env, s, lines[..n]);
      var before := Events(env, lines[..n]);
      match EventOf(env, lines[n]) {
        case None =>
        case Some(e) => assert (before + [e])[..|before|] == before;
      }
    }
  }

  /** An event that says how much was generated so far. */
  predicate Counts(e: Event)
  {
    e.AnthropicEvent?
    && if e.kind == "message_start" then e.message.Some? && e.message.value.usage.Some?
       else e.kind == "message_delta" && e.delta.Some? && e.delta.value.output > 0
  }

  function OutputOf(e: Event): int
    requires Counts(e)
  {
    if e.kind == "message_start" then e.message.value.usage.value.output else e.delta.value.output
  }

  predicate Starts(e: Event)
  {
    e.AnthropicEvent? && e.kind == "message_start" && e.message.Some?
  }

  /** A start that says what the prompt took. */
  predicate Sizes(e: Event)
  {
    Starts(e) && e.message.value.usage.Some?
  }

  /** e is the last event of evs with the property. */
  predicate LastWith(evs: seq<Event>, k: nat, p: Event -> bool)
    requires k < |evs|
  {
    p(evs[k]) && forall j :: k < j < |evs| ==> !p(evs[j])
  }

  predicate Any(evs: seq<Event>, p: Event -> bool)
  {
    exists k :: 0 <= k < |evs| && p(evs[k])
  }

  /** What one event does. */
  lemma OneEvent(s: State, e: Event)
    requires e.AnthropicEvent?
    ensures var t := Apply(s, e);
            && t.row.output == (if Counts(e) then OutputOf(e) else s.row.output)
            && (t.sawUsage <==> s.sawUsage || Counts(e))
            && t.row.key == (if Starts(e) then Key(e.message.value.id) else s.row.key)
            && t.row.model == (if Starts(e) then e.message.value.model else s.row.model)
            && Prompt(t.row) == (if Sizes(e) then PromptOf(e) else Prompt(s.row))
  {
  }

  /** Input, cache creation and cache read. */
  function Prompt(r: Row): (int, int, int)
  {
    (r.input, r.cacheCreation, r.cacheRead)
  }

  function PromptOf(e: Event): (int, int, int)
    requires Sizes(e)
  {
    var u := e.message.value.usage.value;
    (u.input, u.cacheCreation, u.cacheRead)
  }

  lemma LastOfMore(front: seq<Event>, e: Event, k: nat, p: Event -> bool)
    requires k <= |front|
    ensures LastWith(front + [e], k, p) <==> if k == |front| then p(e) else LastWith(front, k, p) && !p(e)
    ensures k < |front| ==> (front + [e])[k] == front[k]
  {
    var evs := front + [e];
    if k < |front| && LastWith(front, k, p) && !p(e) {
      forall j | k < j < |evs| ensures !p(evs[j]) {
        assert evs[j] == if j == |front| then e else front[j];
      }
    }
    if k < |front| && LastWith(evs, k, p) {
      assert evs[|front|] == e;
      forall j | k < j < |front| ensures !p(front[j]) {
        assert evs[j] == front[j];
      }
    }
  }

  lemma SomeOfMore(front: seq<Event>, e: Event, p: Event -> bool)
    ensures Any(front + [e], p) <==> Any(front, p) || p(e)
  {
    var evs := front + [e];
    assert evs[|front|] == e;
    if Any(front, p) {
      var k :| 0 <= k < |front| && p(front[k]);
      assert evs[k] == front[k];
    }
  }

  lemma {:induction false} AnthropicOutput(evs: seq<Event>)
    requires forall i :: 0 <= i < |evs| ==> evs[i].AnthropicEvent?
    ensures var s := ApplyAll(START, evs);
            && (forall k :: 0 <= k < |evs| && LastWith(evs, k, Counts) ==> s.row.output == OutputOf(evs[k]))
            && (!Any(evs, Counts) ==> s.row.output == 0) && (s.sawUsage <==> Any(evs, Counts))
  {
    if evs != [] {
      var n := |evs| - 1;
      var front, last := evs[..n], evs[n];
      AnthropicOutput(front);
      assert evs == front + [last];
      OneEvent(ApplyAll(START, front), last);
      SomeOfMore(front, last, Counts);
      forall k | 0 <= k < |evs|
        ensures LastWith(evs, k, Counts) <==> if k == n then Counts(last) else LastWith(front, k, Counts) && !Counts(last)
        ensures k < n ==> evs[k] == front[k]
      {
        LastOfMore(front, last, k, Counts);
      }
      hide Apply, LastWith, Any, Starts, Sizes, Prompt;
    }
  }

  lemma {:induction false} AnthropicName(evs: seq<Event>)
    requires forall i :: 0 <= i < |evs| ==> evs[i].AnthropicEvent?
    ensures var s := ApplyAll(START, evs);
            && (forall k :: 0 <= k < |evs| && LastWith(evs, k, Starts) ==>
                  s.row.key == "proxy:" + evs[k].message.value.id && s.row.model == evs[k].message.value.model)
            && (s.row.key != "" <==> Any(evs, Starts))
  {
    if evs != [] {
      var n := |evs| - 1;
      var front, last := evs[..n], evs[n];
      AnthropicName(front);
      assert evs == front + [last];
      OneEvent(ApplyAll(START, front), last);
      SomeOfMore(front, last, Starts);
      forall k | 0 <= k < |evs|
        ensures LastWith(evs, k, Starts) <==> if k == n then Starts(last) else LastWith(front, k, Starts) && !Starts(last)
        ensures k < n ==> evs[k] == front[k]
      {
        LastOfMore(front, last, k, Starts);
      }
      hide Apply, LastWith, Any, Counts, Sizes, Prompt, PromptOf;
    }
  }

  lemma {:induction false} AnthropicPrompt(evs: seq<Event>)
    requires forall i :: 0 <= i < |evs| ==> evs[i].AnthropicEvent?
    ensures var s := ApplyAll(START, evs);
            && (forall k :: 0 <= k < |evs| && LastWith(evs, k, Sizes) ==> Prompt(s.row) == PromptOf(evs[k]))
            && (!Any(evs, Sizes) ==> Prompt(s.row) == (0, 0, 0))
  {
    if evs != [] {
      var n := |evs| - 1;
      var front, last := evs[..n], evs[n];
      AnthropicPrompt(front);
      assert evs == front + [last];
      OneEvent(ApplyAll(START, front), last);
      SomeOfMore(front, last, Sizes);
      forall k | 0 <= k < |evs|
        ensures LastWith(evs, k, Sizes) <==> if k == n then Sizes(last) else LastWith(front, k, Sizes) && !Sizes(last)
        ensures k < n ==> evs[k] == front[k]
      {
        LastOfMore(front, last, k, Sizes);
      }
      hide Apply, LastWith, Any, Counts, Starts;
    }
  }

  /** An Anthropic stream: the output is the last count, the prompt's counts are those of the last
      start that has usage, each in its own field, the name comes from the last start, what no
      event says is 0, and there is a row exactly when there is a count and a start. */
  lemma AnthropicSays(evs: seq<Event>)
    requires forall i :: 0 <= i < |evs| ==> evs[i].AnthropicEvent?
    ensures var s := ApplyAll(START, evs);
            && (forall k :: 0 <= k < |evs| && LastWith(evs, k, Counts) ==> s.row.output == OutputOf(evs[k]))
            && (forall k :: 0 <= k < |evs| && LastWith(evs, k, Starts) ==>
                  s.row.key == "proxy:" + evs[k].message.value.id && s.row.model == evs[k].message.value.model)
            && (forall k :: 0 <= k < |evs| && LastWith(evs, k, Sizes) ==>
                  var u := evs[k].message.value.usage.value;
                  s.row.input == u.input && s.row.cacheCreation == u.cacheCreation && s.row.cacheRead == u.cacheRead)
            && (!Any(evs, Counts) ==> s.row.output == 0)
            && (!Any(evs, Sizes) ==> s.row.input == 0 && s.row.cacheCreation == 0 && s.row.cacheRead == 0)
            && Result(s) == if Any(evs, Counts) && Any(evs, Starts) then Some(s.row) else None
  {
    hide ApplyAll, LastWith, Any;
    AnthropicOutput(evs);
    AnthropicName(evs);
    AnthropicPrompt(evs);
  }

  // ---- OpenAI streams ----

  predicate Named(e: Event) { e.Chunk? && e.id != "" }

  predicate Modelled(e: Event) { e.Chunk? && e.model != "" }

  predicate Measured(e: Event) { e.Chunk? && e.usage.Some? }

  /** The k-th event is the first with the property. */
  predicate FirstWith(evs: seq<Event>, k: nat, p: Event -> bool)
    requires k < |evs|
  {
    p(evs[k]) && forall j :: 0 <= j < k ==> !p(evs[j])
  }

  lemma FirstOfMore(front: seq<Event>, e: Event, k: nat, p: Event -> bool)
    requires k <= |front|
    ensures FirstWith(front + [e], k, p) <==> if k == |front| then p(e) && !Any(front, p) else FirstWith(front, k, p)
  {
    var evs := front + [e];
    forall j | 0 <= j <= |front| ensures evs[j] == if j == |front| then e else front[j] {
    }
  }

  /** What one chunk does. */
  lemma OneChunk(s: State, e: Event)
    requires e.Chunk?
    ensures var t := Apply(s, e);
            && t.row.key == (if Named(e) && s.row.key == "" then "proxy:" + e.id else s.row.key)
            && t.row.model == (if Modelled(e) then e.model else s.row.model)
            && (t.sawUsage <==> s.sawUsage || Measured(e))
            && t.row.cacheCreation == s.row.cacheCreation
            && (if Measured(e) then Holds(t.row, e.usage.value) else Prompt(t.row) == Prompt(s.row) && t.row.output == s.row.output)
  {
  }

  /** The row holds these counts, under whichever of the API's two names they came: the prompt
      split into what was read from the cache and the rest. */
  predicate Holds(r: Row, u: OpenAIUsage)
  {
    && r.cacheRead == (if u.promptCached != 0 then u.promptCached else u.inputCached)
    && r.input == (if u.prompt != 0 then u.prompt else u.input) - r.cacheRead
    && r.output == (if u.completion != 0 then u.completion else u.output)
  }

  lemma {:induction false} OpenAIName(evs: seq<Event>)
    requires forall i :: 0 <= i < |evs| ==> evs[i].Chunk?
    ensures var s := ApplyAll(START, evs);
            && (forall k :: 0 <= k < |evs| && FirstWith(evs, k, Named) ==> s.row.key == "proxy:" + evs[k].id)
            && (s.row.key != "" <==> Any(evs, Named))
  {
    if evs != [] {
      var n := |evs| - 1;
      var front, last := evs[..n], evs[n];
      OpenAIName(front);
      assert evs == front + [last];
      OneChunk(ApplyAll(START, front), last);
      SomeOfMore(front, last, Named);
      forall k | 0 <= k < |evs|
        ensures FirstWith(evs, k, Named) <==> if k == n then Named(last) && !Any(front, Named) else FirstWith(front, k, Named)
        ensures k < n ==> evs[k] == front[k]
      {
        FirstOfMore(front, last, k, Named);
      }
      FirstNames(front);
      hide Apply, FirstWith, Any;
    }
  }

  lemma FirstNames(front: seq<Event>)
    ensures forall k :: 0 <= k < |front| && FirstWith(front, k, Named) ==> Any(front, Named)
  {
  }

  lemma {:induction false} OpenAIModel(evs: seq<Event>)
    requires forall i :: 0 <= i < |evs| ==> evs[i].Chunk?
    ensures var s := ApplyAll(START, evs);
            && (forall k :: 0 <= k < |evs| && LastWith(evs, k, Modelled) ==> s.row.model == evs[k].model)
            && (!Any(evs, Modelled) ==> s.row.model == "")
  {
    if evs != [] {
      var n := |evs| - 1;
      var front, last := evs[..n], evs[n];
      OpenAIModel(front);
      assert evs == front + [last];
      OneChunk(ApplyAll(START, front), last);
      SomeOfMore(front, last, Modelled);
      forall k | 0 <= k < |evs|
        ensures LastWith(evs, k, Modelled) <==> if k == n then Modelled(last) else LastWith(front, k, Modelled) && !Modelled(last)
        ensures k < n ==> evs[k] == front[k]
      {
        LastOfMore(front, last, k, Modelled);
      }
      hide Apply, LastWith, Any, Holds;
    }
  }

  lemma {:induction false} OpenAICounts(evs: seq<Event>)
    requires forall i :: 0 <= i < |evs| ==> evs[i].Chunk?
    ensures var s := ApplyAll(START, evs);
            && (forall k :: 0 <= k < |evs| && LastWith(evs, k, Measured) ==> Holds(s.row, evs[k].usage.value))
            && (!Any(evs, Measured) ==> s.row.input == 0 && s.row.cacheRead == 0 && s.row.output == 0)
            && s.row.cacheCreation == 0 && (s.sawUsage <==> Any(evs, Measured))
  {
    if evs != [] {
      var n := |evs| - 1;
      var front, last := evs[..n], evs[n];
      OpenAICounts(front);
      assert evs == front + [last];
      OneChunk(ApplyAll(START, front), last);
      SomeOfMore(front, last, Measured);
      forall k | 0 <= k < |evs|
        ensures LastWith(evs, k, Measured) <==> if k == n then Measured(last) else LastWith(front, k, Measured) && !Measured(last)
        ensures k < n ==> evs[k] == front[k]
      {
        LastOfMore(front, last, k, Measured);
      }
      hide Apply, LastWith, Any;
    }
  }

  /** An OpenAI stream: the name is the first id, the model the last one named, the counts are those
      of the last chunk with usage, what no chunk says is 0 or empty, nothing is ever billed as
      cache creation, and there is a row exactly when there is an id and usage. */
  lemma OpenAISays(evs: seq<Event>)
    requires forall i :: 0 <= i < |evs| ==> evs[i].Chunk?
    ensures var s := ApplyAll(START, evs);
            && (forall k :: 0 <= k < |evs| && FirstWith(evs, k, Named) ==> s.row.key == "proxy:" + evs[k].id)
            && (forall k :: 0 <= k < |evs| && LastWith(evs, k, Modelled) ==> s.row.model == evs[k].model)
            && (forall k :: 0 <= k < |evs| && LastWith(evs, k, Measured) ==> Holds(s.row, evs[k].usage.value))
            && (!Any(evs, Modelled) ==> s.row.model == "")
            && (!Any(evs, Measured) ==> s.row.input == 0 && s.row.cacheRead == 0 && s.row.output == 0)
            && s.row.cacheCreation == 0
            && Result(s) == if Any(evs, Measured) && Any(evs, Named) then Some(s.row) else None
  {
    hide ApplyAll, LastWith, FirstWith, Any, Holds;
    OpenAIName(evs);
    OpenAIModel(evs);
    OpenAICounts(evs);
  }

  /** The row of a whole response is decided by its events, however it arrived. */
  lemma ResultOfStream(env: Env, chunks: seq<Data>)
    ensures Result(FedAll(env, START, chunks)) == Result(ApplyAll(START, Events(env, Complete(Joined(chunks)))))
  {
    hide ConsumeLines, ApplyAll, Events, Complete, Rest;
    ChunksDoNotMatter(env, START, chunks);
    var body := Joined(chunks);
    assert START.partial + body == body;
    ConsumeIsApply(env, START, Complete(body));
  }

  /** What the proxy does with a streamed response: every read goes to a parser, and the row, if
      there is one, is that of the events of all the lines. */
  method Meter(env: Env, chunks: seq<Data>) returns (row: Option<Row>)
    ensures row == Result(ApplyAll(START, Events(env, Complete(Joined(chunks)))))
  {
    hide Fed, ApplyAll, Events, Complete, Joined, Result;
    var parser := new Parser(env);
    assert FedAll(env, START, []) == START;
    for i := 0 to |chunks|
      invariant parser.env == env && parser.View() == FedAll(env, START, chunks[..i])
    {
      assert chunks[..i + 1][..i] == chunks[..i];
      parser.Feed(chunks[i]);
    }
    assert chunks[..|chunks|] == chunks;
    row := parser.GetResult();
    ResultOfStream(env, chunks);
  }

  /** Cached prompt tokens are split off the prompt, not added to it, under either name the API
      has for the counts. */
  lemma OpenAIRowConserves(id: string, model: string, u: OpenAIUsage)
    ensures var r := OpenAIRow(id, model, u);
            && r.key == "proxy:" + id && r.model == model && Holds(r, u) && r.cacheCreation == 0
            && r.input + r.cacheRead == (if u.prompt != 0 then u.prompt else u.input)
            && (u.prompt == 0 && u.completion == 0 && u.promptCached == 0 ==>
                  r == OpenAIRow(id, model, OpenAIUsage(u.input, u.output, 0, 0, u.inputCached, 0)))
  {
  }

  /** An OpenAI stream about one response, with usage in one chunk, says what the same usage in
      a plain JSON body would. */
  lemma {:induction false} StreamEqualsBody(evs: seq<Event>, id: string, model: string, k: nat, u: OpenAIUsage)
    requires id != "" && model != "" && k < |evs|
    requires forall i :: 0 <= i < |evs| ==> evs[i] == Chunk(id, model, if i == k then Some(u) else None)
    ensures Result(ApplyAll(START, evs)) == Some(OpenAIRow(id, model, u))
  {
    var n := |evs| - 1;
    if k < n {
      StreamEqualsBody(evs[..n], id, model, k, u);
    } else {
      QuietChunks(evs[..n], id, model);
    }
  }

  lemma {:induction false} QuietChunks(evs: seq<Event>, id: string, model: string)
    requires id != "" && model != ""
    requires forall i :: 0 <= i < |evs| ==> evs[i] == Chunk(id, model, None)
    ensures var s := ApplyAll(START, evs);
            !s.sawUsage && s.row.(key := "", model := "") == NO_ROW && (s.row.key == "" || s.row.key == Key(id))
  {
    if evs != [] {
      QuietChunks(evs[..|evs| - 1], id, model);
    }
  }

  // ---- bodies that are not streamed ----

  const MAX_BODY := 0x100_0000

  function Buffered(chunks: seq<Data>): Data
  {
    if chunks == [] then []
    else
      var before := Buffered(chunks[..|chunks| - 1]);
      if |before| < MAX_BODY then before + chunks[|chunks| - 1] else before
  }

  /** The buffer of a plain body holds all of it exactly when no byte arrives after the cap has
      been reached; past the cap it does depend on the chunks. */
  lemma {:induction false} BufferedIff(chunks: seq<Data>)
    ensures Buffered(chunks) == Joined(chunks) <==> InTimeAll(chunks)
    ensures |Buffered(chunks)| <= |Joined(chunks)|
    ensures |Buffered(chunks)| < MAX_BODY ==> Buffered(chunks) == Joined(chunks)
  {
    if chunks != [] {
      var n := |chunks| - 1;
      var front := chunks[..n];
      BufferedIff(front);
      InTime(chunks);
      hide InTimeAll;
      assert Buffered(chunks) == (if |Buffered(front)| < MAX_BODY then Buffered(front) + chunks[n] else Buffered(front));
      assert Joined(chunks) == Joined(front) + chunks[n];
      if chunks[n] == [] {
        assert Joined(chunks) == Joined(front);
        assert Buffered(front) + chunks[n] == Buffered(front);
      }
    }
  }

  /** No byte arrives after the cap has been reached. */
  predicate InTimeAll(chunks: seq<Data>)
  {
    forall k :: 0 <= k < |chunks| && chunks[k] != [] ==> |Joined(chunks[..k])| < MAX_BODY
  }

  lemma InTime(chunks: seq<Data>)
    requires chunks != []
    ensures var n := |chunks| - 1;
            InTimeAll(chunks) <==> InTimeAll(chunks[..n]) && (chunks[n] != [] ==> |Joined(chunks[..n])| < MAX_BODY)
  {
    hide Joined;
    var n := |chunks| - 1;
    assert forall k :: 0 <= k < n ==> chunks[..n][..k] == chunks[..k] && chunks[..n][k] == chunks[k];
  }
}
