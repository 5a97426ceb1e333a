/**
 * planner.py: turn a decoded LLM answer into subtasks whose dependencies form a
 * bounded DAG.  Decoding the JSON text itself is outside the model; `repr` stands
 * for Python's str() on values that are not strings.
 */
module Planning {
  import opened Text
  import opened Tables
  import opened Selections

  datatype Json =
    | Null
    | Boolean(b: bool)
    | Integer(n: int)
    | Float(x: real)
    | Str(s: string)
    | Array(items: seq<Json>)
    | Object(fields: map<string, Json>)

  datatype Subtask = Subtask(agent: AgentType, description: string, dependsOn: seq<int>)

  // ---- enums.py: AgentType.from_value ----

  function LowerChar(c: char): char {
    if 'A' <= c <= 'Z' then c - 'A' + 'a' else c
  }

  function Lower(s: string): string {
    if s == "" then "" else [LowerChar(s[0])] + Lower(s[1..])
  }

  function AgentNamed(name: string): AgentType {
    if name in {"analysis", "analyze", "analyst", "analytics"} then Analysis
    else if name in {"summarization", "summary", "summarize", "summarizer"} then Summarization
    else Research
  }

  function ToStr(v: Json, repr: Json -> string): string {
    if v.Str? then v.s else repr(v)
  }

  function AgentFromValue(v: Json, repr: Json -> string): AgentType {
    if v.Null? then Research else AgentNamed(Lower(Strip(ToStr(v, repr))))
  }

  // ---- Planner._parse ----

  function Field(fields: map<string, Json>, name: string, default: Json): Json {
    if name in fields then fields[name] else default
  }

  /** isinstance(d, int): a Python bool is the integer 0 or 1. */
  function AsInt(v: Json): Option<int> {
    match v
    case Integer(n) => Some(n)
    case Boolean(b) => Some(if b then 1 else 0)
    case _ => None
  }

  function Integers(items: seq<Json>): seq<int> {
    if items == [] then []
    else
      var last := AsInt(items[|items| - 1]);
      Integers(items[..|items| - 1]) + if last.Some? then [last.value] else []
  }

  function ParseItem(item: Json, repr: Json -> string): Option<Subtask> {
    if !item.Object? then None
    else
      var description := Strip(ToStr(Field(item.fields, "description", Str("")), repr));
      if description == "" then None
      else
        var rawDeps := Field(item.fields, "depends_on", Null);
        Some(Subtask(
          AgentFromValue(Field(item.fields, "agent_type", Str("research")), repr),
          description,
          if rawDeps.Array? then Integers(rawDeps.items) else []))
  }

  function ParseItems(items: seq<Json>, repr: Json -> string): seq<Subtask> {
    if items == [] then []
    else
      var last := ParseItem(items[|items| - 1], repr);
      ParseItems(items[..|items| - 1], repr) + if last.Some? then [last.value] else []
  }

  function Parsing(repr: Json -> string): Json -> Option<Subtask> {
    (item: Json) => ParseItem(item, repr)
  }

  /** Parsing keeps every usable item, in order, and nothing else. */
  lemma {:induction false} ItemsSelected(items: seq<Json>, repr: Json -> string) returns (at: seq<nat>)
    ensures Selects(items, Parsing(repr), ParseItems(items, repr), at)
  {
    hide ParseItem;
    at := [];
    if items != [] {
      var front, last := items[..|items| - 1], items[|items| - 1];
      at := ItemsSelected(front, repr);
      SelectsNext(front, Parsing(repr), ParseItems(front, repr), at, last);
      assert front + [last] == items;
      hide Selects;
      if ParseItem(last, repr).Some? {
        at := at + [|front|];
      }
    }
  }

  /** An item is usable exactly when it is an object with a description that is not blank. */
  lemma UsableItems(item: Json, repr: Json -> string)
    ensures ParseItem(item, repr).Some? <==>
      && item.Object?
      && "description" in item.fields
      && !AllSpace(ToStr(item.fields["description"], repr))
    ensures ParseItem(item, repr).Some? ==>
      ParseItem(item, repr).value.description == Strip(ToStr(item.fields["description"], repr))
  {
    hide AgentFromValue, Integers;
    if item.Object? {
      StripBlank(ToStr(Field(item.fields, "description", Str("")), repr));
    }
  }

  /** One subtask per usable item, in order; anything but a list yields none. */
  lemma ParsedSelects(answer: Json, repr: Json -> string) returns (at: seq<nat>)
    ensures !answer.Array? ==> Parsed(answer, repr) == []
    ensures answer.Array? ==> Selects(answer.items, Parsing(repr), Parsed(answer, repr), at)
  {
    at := [];
    if answer.Array? {
      at := ItemsSelected(answer.items, repr);
    }
  }

  function Parsed(answer: Json, repr: Json -> string): seq<Subtask> {
    if answer.Array? then ParseItems(answer.items, repr) else []
  }

  function Fallback(snippet: string): seq<Subtask> {
    [ Subtask(Research, "Research and gather relevant information for: " + snippet, []),
      Subtask(Analysis, "Analyze the gathered information and identify key insights for: " + snippet, []),
      Subtask(Summarization, "Summarize the findings into a clear final answer for: " + snippet, []) ]
  }

  // ---- Planner._assign_dependencies ----

  predicate Earlier(d: int, index: nat) {
    0 <= d < index
  }

  function KeepEarlier(deps: seq<int>, index: nat): seq<int> {
    if deps == [] then []
    else
      var last := deps[|deps| - 1];
      KeepEarlier(deps[..|deps| - 1], index) + if Earlier(last, index) then [last] else []
  }

  function UpTo(index: nat): (r: seq<int>)
    ensures |r| == index && forall k :: 0 <= k < index ==> r[k] == k
  {
    seq(index, k => k)
  }

  function AssignOne(sub: Subtask, index: nat): Subtask {
    sub.(dependsOn :=
      if sub.dependsOn != [] then KeepEarlier(sub.dependsOn, index)
      else if sub.agent.Summarization? then UpTo(index)
      else [])
  }

  function Assigned(subs: seq<Subtask>): (r: seq<Subtask>)
    ensures |r| == |subs|
    ensures forall i :: 0 <= i < |subs| ==> r[i] == AssignOne(subs[i], i)
  {
    seq(|subs|, i requires 0 <= i < |subs| => AssignOne(subs[i], i))
  }

  // ---- Planner.plan ----

  function Max(a: int, b: int): int {
    if a < b then b else a
  }

  function TaskLimit(minTasks: int, maxTasks: int): (n: nat)
    ensures n >= 1 && n >= minTasks && n >= maxTasks
    ensures n == 1 || n == minTasks || n == maxTasks
  {
    Max(Max(1, minTasks), maxTasks)
  }

  function Clamp(subs: seq<Subtask>, limit: nat): seq<Subtask> {
    if |subs| <= limit then subs else subs[..limit]
  }

  function Chosen(answer: Json, repr: Json -> string, snippet: string): seq<Subtask> {
    var parsed := Parsed(answer, repr);
    if parsed == [] then Fallback(snippet) else parsed
  }

  function PlanOf(answer: Json, repr: Json -> string, snippet: string, limit: nat): seq<Subtask> {
    Assigned(Clamp(Chosen(answer, repr, snippet), limit))
  }

  // ---- what every plan satisfies ----

  function EarlierOnly(index: nat): int -> Option<int> {
    (d: int) => if Earlier(d, index) then Some(d) else None
  }

  /** The entries that name an earlier task are kept, all of them, in order. */
  lemma {:induction false} KeepsEarlierInOrder(deps: seq<int>, index: nat) returns (at: seq<nat>)
    ensures Selects(deps, EarlierOnly(index), KeepEarlier(deps, index), at)
  {
    at := [];
    if deps != [] {
      var front, last := deps[..|deps| - 1], deps[|deps| - 1];
      at := KeepsEarlierInOrder(front, index);
      SelectsNext(front, EarlierOnly(index), KeepEarlier(front, index), at, last);
      assert front + [last] == deps;
      hide Selects;
      if Earlier(last, index) {
        at := at + [|front|];
      }
    }
  }

  predicate DependenciesPrecede(plan: seq<Subtask>) {
    forall i, d :: 0 <= i < |plan| && d in plan[i].dependsOn ==> 0 <= d < i
  }

  /** The dependencies a task ends with, stated from the ones it came with. */
  ghost predicate DependenciesRespected(before: Subtask, after: Subtask, index: nat) {
    && after.agent == before.agent && after.description == before.description
    && (before.dependsOn != [] ==>
      exists at :: Selects(before.dependsOn, EarlierOnly(index), after.dependsOn, at))
    && (before.dependsOn == [] && before.agent.Summarization? ==>
      |after.dependsOn| == index && forall k :: 0 <= k < index ==> after.dependsOn[k] == k)
    && (before.dependsOn == [] && !before.agent.Summarization? ==> after.dependsOn == [])
  }

  lemma {:induction false} EarlierKept(deps: seq<int>, index: nat)
    ensures forall d :: d in KeepEarlier(deps, index) <==> d in deps && Earlier(d, index)
  {
    if deps != [] {
      EarlierKept(deps[..|deps| - 1], index);
      assert deps == deps[..|deps| - 1] + [deps[|deps| - 1]];
    }
  }

  lemma AssignOneRespects(sub: Subtask, index: nat)
    ensures DependenciesRespected(sub, AssignOne(sub, index), index)
    ensures forall d :: d in AssignOne(sub, index).dependsOn ==> 0 <= d < index
  {
    var at := KeepsEarlierInOrder(sub.dependsOn, index);
    EarlierKept(sub.dependsOn, index);
    hide Selects;
  }

  /** Every plan, whatever the model answered, is a non-empty DAG of at most `limit` tasks. */
  lemma PlanIsBoundedDag(answer: Json, repr: Json -> string, snippet: string, minTasks: int, maxTasks: int)
    ensures var limit := TaskLimit(minTasks, maxTasks);
      var source, plan := Chosen(answer, repr, snippet), PlanOf(answer, repr, snippet, limit);
      && 1 <= |plan| <= limit
      && |plan| <= |source| && (|source| <= limit ==> |plan| == |source|)
      && DependenciesPrecede(plan)
      && forall i :: 0 <= i < |plan| ==> DependenciesRespected(source[i], plan[i], i)
  {
    var limit := TaskLimit(minTasks, maxTasks);
    var clamped := Clamp(Chosen(answer, repr, snippet), limit);
    forall i | 0 <= i < |clamped|
      ensures DependenciesRespected(clamped[i], AssignOne(clamped[i], i), i)
      ensures forall d :: d in AssignOne(clamped[i], i).dependsOn ==> 0 <= d < i
    {
      AssignOneRespects(clamped[i], i);
    }
  }

  lemma {:induction false} NoneEarlier(deps: seq<int>, index: nat)
    requires forall d :: d in deps ==> !Earlier(d, index)
    ensures KeepEarlier(deps, index) == []
  {
    if deps != [] {
      NoneEarlier(deps[..|deps| - 1], index);
    }
  }

  /** A summarization task joins all earlier ones exactly when it came with no dependencies or names them all itself. */
  lemma JoinsAllExactly(sub: Subtask, index: nat)
    requires sub.agent.Summarization?
    ensures (forall d :: Earlier(d, index) ==> d in AssignOne(sub, index).dependsOn) <==>
      sub.dependsOn == [] || forall d :: Earlier(d, index) ==> d in sub.dependsOn
  {
    EarlierKept(sub.dependsOn, index);
    if sub.dependsOn == [] {
      forall d | Earlier(d, index) ensures d in UpTo(index) {
        assert UpTo(index)[d] == d;
      }
    }
  }

  /** A task waits for nothing exactly when its supplied dependencies are all invalid, or it gets none by default. */
  lemma WaitsForNothingExactly(sub: Subtask, index: nat)
    ensures AssignOne(sub, index).dependsOn == [] <==>
      if sub.dependsOn != [] then forall d :: d in sub.dependsOn ==> !Earlier(d, index)
      else sub.agent.Summarization? ==> index == 0
  {
    EarlierKept(sub.dependsOn, index);
    if sub.dependsOn != [] && forall d :: d in sub.dependsOn ==> !Earlier(d, index) {
      NoneEarlier(sub.dependsOn, index);
    }
    if exists d :: d in sub.dependsOn && Earlier(d, index) {
      var d :| d in sub.dependsOn && Earlier(d, index);
      assert d in KeepEarlier(sub.dependsOn, index);
    }
  }

  function SummaryFields(description: string, dependency: int): map<string, Json> {
    map[
      "agent_type" := Str("summarization"),
      "description" := Str(description),
      "depends_on" := Array([Integer(dependency)])]
  }

  lemma SummaryFieldsRead(description: string, dependency: int)
    ensures var fields := SummaryFields(description, dependency);
      && Field(fields, "agent_type", Str("research")) == Str("summarization")
      && Field(fields, "description", Str("")) == Str(description)
      && Field(fields, "depends_on", Null) == Array([Integer(dependency)])
  {
    assert "agent_type"[0] == 'a' && "description"[0] == 'd' && "depends_on"[0] == 'd';
    assert "description"[2] == 's' && "depends_on"[2] == 'p';
  }

  function SummaryItem(description: string, dependency: int): Json {
    Object(SummaryFields(description, dependency))
  }

  /**
   * An answer whose summary names a task that does not come before it: the planned
   * summary waits for nothing, although other tasks precede it.
   */
  lemma SummaryCanWaitForNothing(first: Json, description: string, dependency: int, repr: Json -> string)
    requires ParseItem(first, repr).Some? && !AllSpace(description) && !Earlier(dependency, 1)
    ensures var subs := Parsed(Array([first, SummaryItem(description, dependency)]), repr);
      && |subs| == 2 && subs[1] == Subtask(Summarization, Strip(description), [dependency])
      && Assigned(subs)[1].dependsOn == []
  {
    hide ParseItem, SummaryItem, AssignOne, Strip, ParseItems;
    var item := SummaryItem(description, dependency);
    SummaryItemParsed(description, dependency, repr);
    TwoItems(first, item, repr);
    WaitsForNothingExactly(ParseItem(item, repr).value, 1);
  }

  lemma TwoItems(first: Json, second: Json, repr: Json -> string)
    requires ParseItem(first, repr).Some? && ParseItem(second, repr).Some?
    ensures ParseItems([first, second], repr) == [ParseItem(first, repr).value, ParseItem(second, repr).value]
  {
    hide ParseItem;
    assert [first, second][..1] == [first] && [first][..0] == [];
    assert ParseItems([first], repr) == [ParseItem(first, repr).value];
  }

  lemma SummaryItemParsed(description: string, dependency: int, repr: Json -> string)
    requires !AllSpace(description)
    ensures ParseItem(SummaryItem(description, dependency), repr) ==
      Some(Subtask(Summarization, Strip(description), [dependency]))
  {
    hide AgentFromValue, Strip, SummaryFields, Field, Integers;
    StripBlank(description);
    SummarizationNamed(repr);
    SummaryFieldsRead(description, dependency);
    OneInteger(dependency);
  }

  lemma OneInteger(n: int)
    ensures Integers([Integer(n)]) == [n]
  {
    assert [Integer(n)][..0] == [];
  }

  lemma SummarizationNamed(repr: Json -> string)
    ensures AgentFromValue(Str("summarization"), repr) == Summarization
  {
    hide Strip, Lower, AgentNamed;
    StripSolid("summarization");
    LowerFixed("summarization");
    SummarizationIsNamed();
  }

  lemma SummarizationIsNamed()
    ensures AgentNamed("summarization") == Summarization
  {
    assert |"summarization"| == 13 && |"analytics"| == 9 && |"analysis"| == 8;
  }

  lemma {:induction false} LowerFixed(s: string)
    requires forall k :: 0 <= k < |s| ==> !('A' <= s[k] <= 'Z')
    ensures Lower(s) == s
  {
    if s != "" {
      LowerFixed(s[1..]);
    }
  }

  // ---- what a plan says, stated on the decoded answer ----

  /** Spelled like a lower-case name, capitals aside. */
  predicate SpelledAs(text: string, name: string) {
    |text| == |name| &&
    forall k :: 0 <= k < |text| ==>
      if 'A' <= text[k] <= 'Z' then text[k] as int + 32 == name[k] as int else text[k] == name[k]
  }

  predicate SpelledAsOneOf(text: string, names: set<string>) {
    exists name :: name in names && SpelledAs(text, name)
  }

  lemma {:induction false} LowerSpells(s: string, name: string)
    ensures Lower(s) == name <==> SpelledAs(s, name)
  {
    if s == "" || name == "" {
    } else {
      LowerSpells(s[1..], name[1..]);
      assert Lower(s) == [LowerChar(s[0])] + Lower(s[1..]);
      assert name == [name[0]] + name[1..];
      if SpelledAs(s, name) {
        assert SpelledAs(s[1..], name[1..]);
      }
      if SpelledAs(s[1..], name[1..]) && LowerChar(s[0]) == name[0] {
        forall k | 0 <= k < |s|
          ensures if 'A' <= s[k] <= 'Z' then s[k] as int + 32 == name[k] as int else s[k] == name[k]
        {
          if k > 0 {
            assert s[1..][k - 1] == s[k] && name[1..][k - 1] == name[k];
          }
        }
      }
    }
  }

  /** str(value), for the agent type of an item. */
  predicate NamesAgent(v: Json, repr: Json -> string, agent: AgentType) {
    var text := Strip(match v case Str(s) => s case _ => repr(v));
    match agent
    case Analysis => !v.Null? && SpelledAsOneOf(text, {"analysis", "analyze", "analyst", "analytics"})
    case Summarization => !v.Null? && SpelledAsOneOf(text, {"summarization", "summary", "summarize", "summarizer"})
    case Research =>
      || v.Null?
      || !SpelledAsOneOf(text, {"analysis", "analyze", "analyst", "analytics",
                                "summarization", "summary", "summarize", "summarizer"})
  }

  lemma SpelledAsSome(text: string, names: set<string>)
    ensures SpelledAsOneOf(text, names) <==> Lower(text) in names
  {
    LowerSpells(text, Lower(text));
    if SpelledAsOneOf(text, names) {
      var name :| name in names && SpelledAs(text, name);
      LowerSpells(text, name);
    }
    hide SpelledAs, Lower;
  }

  lemma AgentIsNamed(v: Json, repr: Json -> string)
    ensures NamesAgent(v, repr, AgentFromValue(v, repr))
  {
    hide Strip, Lower, SpelledAsOneOf;
    var text := Strip(match v case Str(s) => s case _ => repr(v));
    SpelledAsSome(text, {"analysis", "analyze", "analyst", "analytics"});
    SpelledAsSome(text, {"summarization", "summary", "summarize", "summarizer"});
    SpelledAsSome(text, {"analysis", "analyze", "analyst", "analytics",
                         "summarization", "summary", "summarize", "summarizer"});
  }

  /** Only integers count as dependencies, a bool being 0 or 1. */
  predicate IsInteger(v: Json, n: int) {
    match v
    case Integer(m) => n == m
    case Boolean(b) => n == if b then 1 else 0
    case _ => false
  }

  /** `ns` are the integers among the items: `at` gives their places, in order, none missing. */
  ghost predicate IntegersAt(items: seq<Json>, ns: seq<int>, at: seq<nat>) {
    && |at| == |ns|
    && (forall k :: 0 <= k < |at| ==> at[k] < |items| && IsInteger(items[at[k]], ns[k]))
    && (forall k, l :: 0 <= k < l < |at| ==> at[k] < at[l])
    && (forall j :: 0 <= j < |items| && (items[j].Integer? || items[j].Boolean?) ==> j in at)
  }

  lemma {:induction false} IntegersSelected(items: seq<Json>) returns (at: seq<nat>)
    ensures Selects(items, AsInt, Integers(items), at)
  {
    at := [];
    if items != [] {
      var front, last := items[..|items| - 1], items[|items| - 1];
      at := IntegersSelected(front);
      SelectsNext(front, AsInt, Integers(front), at, last);
      assert front + [last] == items;
      hide Selects;
      if AsInt(last).Some? {
        at := at + [|front|];
      }
    }
  }

  /** The dependencies an item comes with. */
  ghost predicate ComesWith(item: Json, deps: seq<int>) {
    item.Object? &&
    if "depends_on" in item.fields && item.fields["depends_on"].Array?
    then exists at :: IntegersAt(item.fields["depends_on"].items, deps, at)
    else deps == []
  }

  predicate Usable(item: Json, repr: Json -> string) {
    && item.Object? && "description" in item.fields
    && !AllSpace(match item.fields["description"] case Str(s) => s case v => repr(v))
  }

  /** The agent and description an item asks for. */
  predicate AsksFor(item: Json, repr: Json -> string, agent: AgentType, description: string) {
    && item.Object? && "description" in item.fields
    && description == Strip(match item.fields["description"] case Str(s) => s case v => repr(v))
    && (if "agent_type" in item.fields then NamesAgent(item.fields["agent_type"], repr, agent) else agent == Research)
  }

  /** `at` gives the places of the usable items, in order, none missing. */
  ghost predicate UsableAt(answer: Json, repr: Json -> string, at: seq<nat>) {
    if !answer.Array? then at == []
    else
      && (forall k :: 0 <= k < |at| ==> at[k] < |answer.items| && Usable(answer.items[at[k]], repr))
      && (forall k, l :: 0 <= k < l < |at| ==> at[k] < at[l])
      && (forall j :: 0 <= j < |answer.items| && Usable(answer.items[j], repr) ==> j in at)
  }

  /** The supplied entries that name an earlier task, in order, none missing. */
  ghost predicate EarlierAt(deps: seq<int>, index: nat, kept: seq<int>, at: seq<nat>) {
    && |at| == |kept|
    && (forall k :: 0 <= k < |at| ==> at[k] < |deps| && kept[k] == deps[at[k]] && 0 <= kept[k] < index)
    && (forall k, l :: 0 <= k < l < |at| ==> at[k] < at[l])
    && (forall j :: 0 <= j < |deps| && 0 <= deps[j] < index ==> j in at)
  }

  /** What the task at `index` waits for, from the dependencies it came with. */
  ghost predicate WaitsFor(agent: AgentType, deps: seq<int>, index: nat, result: seq<int>) {
    if deps != [] then exists at :: EarlierAt(deps, index, result, at)
    else if agent == Summarization then |result| == index && forall k :: 0 <= k < index ==> result[k] == k
    else result == []
  }

  /** A task of the plan, and the item it was planned for. */
  ghost predicate PlannedFor(item: Json, repr: Json -> string, index: nat, task: Subtask) {
    && AsksFor(item, repr, task.agent, task.description)
    && exists deps :: ComesWith(item, deps) && WaitsFor(task.agent, deps, index, task.dependsOn)
  }

  /** The task planned at `index` when the answer holds no usable item. */
  predicate FallbackTask(snippet: string, index: nat, task: Subtask) {
    match index
    case 0 => task == Subtask(Research, "Research and gather relevant information for: " + snippet, [])
    case 1 =>
      task == Subtask(Analysis, "Analyze the gathered information and identify key insights for: " + snippet, [])
    case 2 =>
      task == Subtask(Summarization, "Summarize the findings into a clear final answer for: " + snippet, [0, 1])
    case _ => false
  }

  /** One task per usable item, in order, up to the limit; without a usable item the three fallback tasks. */
  ghost predicate Follows(answer: Json, repr: Json -> string, snippet: string, limit: nat, plan: seq<Subtask>) {
    exists at :: UsableAt(answer, repr, at) && FollowsAt(answer, repr, snippet, limit, plan, at)
  }

  ghost predicate FollowsAt(
    answer: Json, repr: Json -> string, snippet: string, limit: nat, plan: seq<Subtask>, at: seq<nat>)
  {
    if at == [] then
      && |plan| == (if limit < 3 then limit else 3)
      && forall i :: 0 <= i < |plan| ==> FallbackTask(snippet, i, plan[i])
    else
      && |plan| == (if limit < |at| then limit else |at|)
      && answer.Array?
      && forall i :: 0 <= i < |plan| ==> at[i] < |answer.items| && PlannedFor(answer.items[at[i]], repr, i, plan[i])
  }

  lemma ItemAsksFor(item: Json, repr: Json -> string)
    ensures ParseItem(item, repr).Some? <==> Usable(item, repr)
    ensures ParseItem(item, repr).Some? ==>
      var sub := ParseItem(item, repr).value;
      AsksFor(item, repr, sub.agent, sub.description) && ComesWith(item, sub.dependsOn)
  {
    hide Strip, NamesAgent, AgentFromValue, Integers, IntegersAt, AllSpace;
    UsableItems(item, repr);
    if Usable(item, repr) {
      ItemAgent(item, repr);
      ItemDependencies(item, repr);
    }
  }

  lemma ItemAgent(item: Json, repr: Json -> string)
    requires ParseItem(item, repr).Some?
    ensures if "agent_type" in item.fields
      then NamesAgent(item.fields["agent_type"], repr, ParseItem(item, repr).value.agent)
      else ParseItem(item, repr).value.agent == Research
  {
    hide Strip, NamesAgent, AgentFromValue, Integers;
    AgentIsNamed(Field(item.fields, "agent_type", Str("research")), repr);
    ResearchByDefault(repr);
  }

  lemma ItemDependencies(item: Json, repr: Json -> string)
    requires ParseItem(item, repr).Some?
    ensures ComesWith(item, ParseItem(item, repr).value.dependsOn)
  {
    hide Strip, AgentFromValue, Integers, IntegersAt;
    var rawDeps := Field(item.fields, "depends_on", Null);
    if rawDeps.Array? {
      IntegersFound(rawDeps.items);
    }
  }

  lemma ResearchByDefault(repr: Json -> string)
    ensures AgentFromValue(Str("research"), repr) == Research
  {
    hide Strip, Lower, AgentNamed;
    StripSolid("research");
    LowerFixed("research");
    ResearchIsNamed();
  }

  lemma ResearchIsNamed()
    ensures AgentNamed("research") == Research
  {
    assert "research"[0] == 'r';
    assert forall name :: name in {"analysis", "analyze", "analyst", "analytics"} ==> name[0] == 'a';
    assert forall name :: name in {"summarization", "summary", "summarize", "summarizer"} ==> name[0] == 's';
  }

  lemma IntegersFound(items: seq<Json>)
    ensures exists at :: IntegersAt(items, Integers(items), at)
  {
    var at := IntegersSelected(items);
    assert IntegersAt(items, Integers(items), at);
  }

  lemma EarlierFound(deps: seq<int>, index: nat)
    ensures exists at :: EarlierAt(deps, index, KeepEarlier(deps, index), at)
  {
    var at := KeepsEarlierInOrder(deps, index);
    assert EarlierAt(deps, index, KeepEarlier(deps, index), at);
  }

  lemma AssignedWaitsFor(sub: Subtask, index: nat)
    ensures WaitsFor(sub.agent, sub.dependsOn, index, AssignOne(sub, index).dependsOn)
  {
    EarlierFound(sub.dependsOn, index);
    hide EarlierAt, KeepEarlier;
  }

  lemma ItemPlanned(item: Json, repr: Json -> string, index: nat)
    requires ParseItem(item, repr).Some?
    ensures PlannedFor(item, repr, index, AssignOne(ParseItem(item, repr).value, index))
  {
    ItemAsksFor(item, repr);
    AssignedWaitsFor(ParseItem(item, repr).value, index);
    hide ParseItem, AsksFor, ComesWith, WaitsFor;
  }

  lemma ParsedUsable(answer: Json, repr: Json -> string) returns (at: seq<nat>)
    ensures UsableAt(answer, repr, at) && |at| == |Parsed(answer, repr)|
    ensures forall k :: 0 <= k < |at| ==>
      answer.Array? && at[k] < |answer.items| && ParseItem(answer.items[at[k]], repr) == Some(Parsed(answer, repr)[k])
  {
    hide ParseItem, Usable;
    at := ParsedSelects(answer, repr);
    if answer.Array? {
      forall j | 0 <= j < |answer.items|
        ensures Parsing(repr)(answer.items[j]).Some? <==> Usable(answer.items[j], repr)
      {
        ItemAsksFor(answer.items[j], repr);
      }
    } else {
      at := [];
    }
  }

  lemma FallbackPlanned(snippet: string, limit: nat, i: nat)
    requires i < 3
    ensures FallbackTask(snippet, i, AssignOne(Fallback(snippet)[i], i))
  {
    assert UpTo(2) == [0, 1];
  }

  /** The plan follows the answer, whatever it is. */
  lemma PlanFollowsAnswer(answer: Json, repr: Json -> string, snippet: string, limit: nat)
    ensures Follows(answer, repr, snippet, limit, PlanOf(answer, repr, snippet, limit))
  {
    hide ParseItem, AssignOne, UsableAt, PlannedFor, FallbackTask, Parsed;
    var at := ParsedUsable(answer, repr);
    var plan := PlanOf(answer, repr, snippet, limit);
    assert |plan| == if |at| == 0 then (if limit < 3 then limit else 3) else (if limit < |at| then limit else |at|);
    assert at != [] ==> answer.Array? by {
      assert at != [] ==> at[0] >= 0;
    }
    forall i | 0 <= i < |plan|
      ensures if at == [] then FallbackTask(snippet, i, plan[i])
        else answer.Array? && at[i] < |answer.items| && PlannedFor(answer.items[at[i]], repr, i, plan[i])
    {
      if at == [] {
        FallbackPlanned(snippet, limit, i);
      } else {
        ItemPlanned(answer.items[at[i]], repr, i);
      }
    }
    assert FollowsAt(answer, repr, snippet, limit, plan, at);
  }

  /** The rows inserted for a plan. */
  function RowsOf(plan: seq<Subtask>): (rows: seq<Task>)
    ensures |rows| == |plan|
    ensures forall i :: 0 <= i < |plan| ==>
      rows[i] == Task(plan[i].agent, plan[i].description, plan[i].dependsOn, Pending, false, 0, None)
  {
    seq(|plan|, i requires 0 <= i < |plan| =>
      Task(plan[i].agent, plan[i].description, plan[i].dependsOn, Pending, false, 0, None))
  }

  class Planner {
    const minTasks: int
    const maxTasks: nat
    const repr: Json -> string

    constructor (minTasks: int, maxTasks: int, repr: Json -> string)
      ensures this.maxTasks == TaskLimit(minTasks, maxTasks) && this.repr == repr
    {
      this.minTasks := Max(1, minTasks);
      this.maxTasks := Max(Max(1, minTasks), maxTasks);
      this.repr := repr;
    }

    method Parse(answer: Json) returns (result: seq<Subtask>)
      ensures result == Parsed(answer, repr)
    {
      if !answer.Array? { return []; }
      var data := answer.items;
      result := [];
      for k := 0 to |data|
        invariant result == ParseItems(data[..k], repr)
      {
        assert data[..k + 1][..k] == data[..k];
        var item := data[k];
        if !item.Object? { continue; }
        var description := Strip(ToStr(Field(item.fields, "description", Str("")), repr));
        if description == "" { continue; }
        var agent := AgentFromValue(Field(item.fields, "agent_type", Str("research")), repr);
        var rawDeps := Field(item.fields, "depends_on", Null);
        var deps := if rawDeps.Array? then Integers(rawDeps.items) else [];
        result := result + [Subtask(agent, description, deps)];
      }
      assert data[..|data|] == data;
    }

    method AssignDependencies(subtasks: array<Subtask>)
      modifies subtasks
      ensures subtasks[..] == Assigned(old(subtasks[..]))
    {
      for index := 0 to subtasks.Length
        invariant forall k :: 0 <= k < index ==> subtasks[k] == AssignOne(old(subtasks[k]), k)
        invariant forall k :: index <= k < subtasks.Length ==> subtasks[k] == old(subtasks[k])
      {
        var subtask := subtasks[index];
        if subtask.dependsOn != [] {
          subtasks[index] := subtask.(dependsOn := KeepEarlier(subtask.dependsOn, index));
          continue;
        }
        if subtask.agent.Summarization? {
          subtasks[index] := subtask.(dependsOn := UpTo(index));
        } else {
          subtasks[index] := subtask.(dependsOn := []);
        }
      }
    }

    method AsList(items: seq<Subtask>) returns (list: array<Subtask>)
      ensures fresh(list) && list[..] == items
    {
      list := new Subtask[|items|](i requires 0 <= i < |items| => items[i]);
    }

    method Plan(answer: Json, snippet: string) returns (plan: seq<Subtask>)
      ensures plan == PlanOf(answer, repr, snippet, maxTasks)
      ensures Follows(answer, repr, snippet, maxTasks, plan)
    {
      PlanFollowsAnswer(answer, repr, snippet, maxTasks);
      hide Follows, Parsed;
      var subtasks := Parse(answer);
      if subtasks == [] {
        subtasks := Fallback(snippet);
      }
      if |subtasks| > maxTasks {
        subtasks := subtasks[..maxTasks];
      }
      var list := AsList(subtasks);
      AssignDependencies(list);
      plan := list[..];
    }
  }
}
