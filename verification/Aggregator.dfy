/** aggregator.py: combine task outcomes into the final text. */
module Aggregation {
  import opened Text
  import opened Tables
  import opened Selections

  datatype Outcome = Outcome(agent: AgentType, description: string, status: TaskStatus, output: string)

  const NothingProduced := "No results were produced."

  function AgentName(a: AgentType): string {
    match a
    case Research => "research"
    case Analysis => "analysis"
    case Summarization => "summarization"
  }

  predicate Counts(o: Outcome) {
    o.status.Completed? && o.output != ""
  }

  function CompletedOutcomes(os: seq<Outcome>): seq<Outcome> {
    if os == [] then []
    else CompletedOutcomes(os[..|os| - 1]) + if Counts(os[|os| - 1]) then [os[|os| - 1]] else []
  }

  /** Position of the first summarization outcome, or |os| when there is none. */
  function FirstSummary(os: seq<Outcome>): (k: nat)
    ensures k <= |os|
    ensures forall j :: 0 <= j < k ==> !os[j].agent.Summarization?
    ensures k < |os| ==> os[k].agent.Summarization?
  {
    if os == [] || os[0].agent.Summarization? then 0 else 1 + FirstSummary(os[1..])
  }

  function SupportingLines(os: seq<Outcome>): seq<string> {
    if os == [] then []
    else SupportingLines(os[..|os| - 1]) + Section(os[|os| - 1])
  }

  function Section(o: Outcome): seq<string> {
    ["", "### " + AgentName(o.agent), Strip(o.output)]
  }

  function Headline(completed: seq<Outcome>): seq<string> {
    var k := FirstSummary(completed);
    if k < |completed| then [Strip(completed[k].output)] else []
  }

  function Supporting(completed: seq<Outcome>): seq<Outcome> {
    var k := FirstSummary(completed);
    if k < |completed| then completed[..k] + completed[k + 1..] else completed
  }

  function Lines(completed: seq<Outcome>): seq<string> {
    var rest := Supporting(completed);
    Headline(completed) + if rest == [] then [] else Rule + SupportingLines(rest)
  }

  function AggregateText(outcomes: seq<Outcome>): string {
    var completed := CompletedOutcomes(outcomes);
    if completed == [] then NothingProduced else Strip(Join("\n", Lines(completed)))
  }

  // ---- what the text is made of ----

  lemma {:induction false} SectionsLaidOut(os: seq<Outcome>)
    ensures |SupportingLines(os)| == 3 * |os|
    ensures forall j :: 0 <= j < |os| ==> SectionAt(SupportingLines(os), 3 * j, os[j])
  {
    hide Section;
    if os != [] {
      var front, last := os[..|os| - 1], os[|os| - 1];
      SectionsLaidOut(front);
      SectionHasThreeLines(last);
      forall j | 0 <= j < |os| ensures SectionAt(SupportingLines(os), 3 * j, os[j]) {
        if j < |front| {
          SectionStays(SupportingLines(front), Section(last), 3 * j, front[j]);
        }
      }
    }
  }

  lemma SectionHasThreeLines(o: Outcome)
    ensures |Section(o)| == 3
  {
  }

  /** The section of outcome o starts at line `at`. */
  predicate SectionAt(lines: seq<string>, at: nat, o: Outcome) {
    at + 3 <= |lines| && lines[at..at + 3] == Section(o)
  }

  /** The headline outcome and the supporting ones are all the completed outcomes, each once. */
  lemma SupportingIsTheRest(completed: seq<Outcome>)
    ensures var k := FirstSummary(completed);
      multiset(completed) ==
        multiset(Supporting(completed)) + if k < |completed| then multiset{completed[k]} else multiset{}
  {
    if FirstSummary(completed) < |completed| {
      WithoutOne(completed, FirstSummary(completed));
    }
  }

  lemma WithoutOne<T>(xs: seq<T>, k: nat)
    requires k < |xs|
    ensures multiset(xs) == multiset(xs[..k] + xs[k + 1..]) + multiset{xs[k]}
  {
    assert xs == xs[..k] + ([xs[k]] + xs[k + 1..]);
  }

  const Rule: seq<string> := ["", "---", "Supporting work:"]

  lemma LinesLaidOut(completed: seq<Outcome>, j: nat)
    requires j < |Supporting(completed)|
    ensures |Lines(completed)| == |Headline(completed)| + 3 + 3 * |Supporting(completed)|
    ensures SectionAt(Lines(completed), |Headline(completed)| + 3 + 3 * j, Supporting(completed)[j])
  {
    hide Section, Headline, Supporting, SupportingLines;
    var rest := Supporting(completed);
    SectionsLaidOut(rest);
    assert Lines(completed) == (Headline(completed) + Rule) + SupportingLines(rest);
    SectionShifts(Headline(completed) + Rule, SupportingLines(rest), 3 * j, rest[j]);
  }

  /** No completed output is lost or repeated: the headline and the sections hold each exactly once. */
  lemma EveryOutputOnce(completed: seq<Outcome>)
    ensures var k, rest, h := FirstSummary(completed), Supporting(completed), |Headline(completed)|;
      && multiset(completed) == multiset(rest) + (if k < |completed| then multiset{completed[k]} else multiset{})
      && (k < |completed| ==> Lines(completed) != [] && Lines(completed)[0] == Strip(completed[k].output))
      && |Lines(completed)| == h + (if rest == [] then 0 else 3 + 3 * |rest|)
      && forall j :: 0 <= j < |rest| ==> SectionAt(Lines(completed), h + 3 + 3 * j, rest[j])
  {
    hide Section, Strip, SupportingLines, SectionAt, Supporting;
    SupportingIsTheRest(completed);
    forall j | 0 <= j < |Supporting(completed)|
      ensures |Lines(completed)| == |Headline(completed)| + 3 + 3 * |Supporting(completed)|
      ensures SectionAt(Lines(completed), |Headline(completed)| + 3 + 3 * j, Supporting(completed)[j])
    {
      LinesLaidOut(completed, j);
    }
    if Supporting(completed) != [] {
      LinesLaidOut(completed, 0);
    }
  }

  lemma SectionStays(head: seq<string>, tail: seq<string>, at: nat, o: Outcome)
    requires SectionAt(head, at, o)
    ensures SectionAt(head + tail, at, o)
  {
    assert (head + tail)[at..at + 3] == head[at..at + 3];
  }

  lemma SectionShifts(head: seq<string>, tail: seq<string>, at: nat, o: Outcome)
    requires SectionAt(tail, at, o)
    ensures SectionAt(head + tail, |head| + at, o)
  {
    assert (head + tail)[|head| + at..|head| + at + 3] == tail[at..at + 3];
  }

  function Counted(o: Outcome): Option<Outcome> {
    if Counts(o) then Some(o) else None
  }

  /** The completed outcomes are those with status COMPLETED and an output, in order, each as often as it comes. */
  lemma {:induction false} OnlyCompletedMatter(os: seq<Outcome>) returns (at: seq<nat>)
    ensures Selects(os, Counted, CompletedOutcomes(os), at)
  {
    at := [];
    if os != [] {
      var front, last := os[..|os| - 1], os[|os| - 1];
      at := OnlyCompletedMatter(front);
      SelectsNext(front, Counted, CompletedOutcomes(front), at, last);
      assert front + [last] == os;
      hide Selects;
      if Counts(last) {
        at := at + [|front|];
      }
    }
  }

  lemma {:induction false} AllCompletedKept(os: seq<Outcome>)
    ensures forall o :: o in CompletedOutcomes(os) <==> o in os && Counts(o)
  {
    if os != [] {
      AllCompletedKept(os[..|os| - 1]);
      assert os == os[..|os| - 1] + [os[|os| - 1]];
    }
  }

  /** Where an output stands among the lines: as the headline, or as the last line of its section. */
  lemma OutputIsALine(completed: seq<Outcome>, o: Outcome)
    requires o in completed
    ensures Strip(o.output) in Lines(completed)
  {
    hide Section, Strip, SupportingLines, Supporting, Lines;
    EveryOutputOnce(completed);
    var k, rest := FirstSummary(completed), Supporting(completed);
    if k < |completed| && completed[k] == o {
      assert Lines(completed)[0] == Strip(o.output);
    } else {
      assert o in multiset(completed);
      assert o in multiset(rest);
      var j :| 0 <= j < |rest| && rest[j] == o;
      SectionEndsWithOutput(Lines(completed), |Headline(completed)| + 3 + 3 * j, o);
    }
  }

  lemma SectionEndsWithOutput(lines: seq<string>, at: nat, o: Outcome)
    requires SectionAt(lines, at, o)
    ensures Strip(o.output) in lines
  {
    assert lines[at..at + 3][2] == lines[at + 2];
  }

  /** Every completed output occurs, stripped, in the final text. */
  lemma EveryOutputAppears(outcomes: seq<Outcome>, o: Outcome)
    requires o in outcomes && Counts(o)
    ensures Contains(AggregateText(outcomes), Strip(o.output))
  {
    hide Strip, Lines, Join;
    var completed := CompletedOutcomes(outcomes);
    AllCompletedKept(outcomes);
    OutputIsALine(completed, o);
    var k :| 0 <= k < |Lines(completed)| && Lines(completed)[k] == Strip(o.output);
    JoinContains("\n", Lines(completed), k);
    StripEnds(o.output);
    StripContains(Join("\n", Lines(completed)), Strip(o.output));
  }

  lemma {:induction false} NothingCompleted(os: seq<Outcome>)
    requires forall o :: o in os ==> !Counts(o)
    ensures CompletedOutcomes(os) == []
  {
    if os != [] {
      NothingCompleted(os[..|os| - 1]);
    }
  }

  /** Without a completed output the text says so. */
  lemma NothingToReport(outcomes: seq<Outcome>)
    requires forall o :: o in outcomes ==> !Counts(o)
    ensures AggregateText(outcomes) == NothingProduced
  {
    NothingCompleted(outcomes);
  }

  // ---- the whole text, line by line ----

  /** An output after its agent's name, as agents read it in a context. */
  function Labelled(agent: AgentType, output: string): string {
    match agent
    case Research => "[research] " + output
    case Analysis => "[analysis] " + output
    case Summarization => "[summarization] " + output
  }

  lemma LabelledByName(agent: AgentType, output: string)
    ensures "[" + AgentName(agent) + "] " + output == Labelled(agent, output)
  {
    assert "[" + "research" + "] " == "[research] ";
    assert "[" + "analysis" + "] " == "[analysis] ";
    assert "[" + "summarization" + "] " == "[summarization] ";
  }

  function Heading(agent: AgentType): string {
    match agent
    case Research => "### research"
    case Analysis => "### analysis"
    case Summarization => "### summarization"
  }

  lemma HeadingByName(agent: AgentType)
    ensures "### " + AgentName(agent) == Heading(agent)
  {
  }

  /** The outcomes used: those COMPLETED with an output, in order, none missing; `at` gives their places. */
  ghost predicate UsedAt(outcomes: seq<Outcome>, used: seq<Outcome>, at: seq<nat>) {
    && |at| == |used|
    && (forall k :: 0 <= k < |at| ==>
          at[k] < |outcomes| && used[k] == outcomes[at[k]] && used[k].status == Completed && used[k].output != "")
    && (forall k, l :: 0 <= k < l < |at| ==> at[k] < at[l])
    && (forall j :: 0 <= j < |outcomes| && outcomes[j].status == Completed && outcomes[j].output != "" ==> j in at)
  }

  /** The first summary is at k; without one k is past the end. */
  predicate FirstSummaryAt(used: seq<Outcome>, k: nat) {
    && k <= |used|
    && (forall j :: 0 <= j < k ==> used[j].agent != Summarization)
    && (k < |used| ==> used[k].agent == Summarization)
  }

  /** The first summary, if any; then, if anything else was used, a rule and one headed section for each, in order. */
  ghost predicate LinesOf(used: seq<Outcome>, k: nat, lines: seq<string>)
    requires k <= |used|
  {
    var h := if k < |used| then 1 else 0;
    var others := |used| - h;
    && |lines| == h + (if others == 0 then 0 else 3 + 3 * others)
    && (h == 1 ==> lines[0] == Strip(used[k].output))
    && (others > 0 ==> lines[h] == "" && lines[h + 1] == "---" && lines[h + 2] == "Supporting work:")
    && forall j :: 0 <= j < others ==> SectionOf(lines, h + 3 + 3 * j, used[if j < k then j else j + 1])
  }

  predicate SectionOf(lines: seq<string>, at: nat, o: Outcome) {
    && at + 2 < |lines|
    && lines[at] == "" && lines[at + 1] == Heading(o.agent) && lines[at + 2] == Strip(o.output)
  }

  /** What the final text must be for the outcomes. */
  ghost predicate Summarizes(outcomes: seq<Outcome>, text: string) {
    exists used, at :: UsedAt(outcomes, used, at) && SummarizesUsed(used, text)
  }

  ghost predicate SummarizesUsed(used: seq<Outcome>, text: string) {
    if used == [] then text == "No results were produced."
    else exists k: nat, lines, body ::
      FirstSummaryAt(used, k) && LinesOf(used, k, lines) && LaidOut("\n", lines, body) && text == Strip(body)
  }

  lemma SectionReads(lines: seq<string>, at: nat, o: Outcome)
    requires SectionAt(lines, at, o)
    ensures SectionOf(lines, at, o)
  {
    HeadingByName(o.agent);
    var section := lines[at..at + 3];
    assert section[0] == lines[at] && section[1] == lines[at + 1] && section[2] == lines[at + 2];
    hide Strip, AgentName, Heading;
  }

  lemma RuleReads(completed: seq<Outcome>)
    requires Supporting(completed) != []
    ensures var h := |Headline(completed)|;
      && |Lines(completed)| >= h + 3
      && Lines(completed)[h] == "" && Lines(completed)[h + 1] == "---" && Lines(completed)[h + 2] == "Supporting work:"
  {
    hide Strip, SupportingLines, Supporting, Headline;
    assert Lines(completed) == Headline(completed) + (Rule + SupportingLines(Supporting(completed)));
  }

  lemma HeadlineAndRest(completed: seq<Outcome>)
    ensures var k := FirstSummary(completed);
      && FirstSummaryAt(completed, k)
      && |Headline(completed)| == (if k < |completed| then 1 else 0)
      && |Supporting(completed)| == |completed| - |Headline(completed)|
  {
  }

  lemma SupportingAt(completed: seq<Outcome>, j: nat)
    requires j < |Supporting(completed)|
    ensures var at := if j < FirstSummary(completed) then j else j + 1;
      at < |completed| && Supporting(completed)[j] == completed[at]
  {
    hide FirstSummary;
    if FirstSummary(completed) < |completed| {
      WithoutOutcome(completed, FirstSummary(completed), j);
    }
  }

  lemma WithoutOutcome(os: seq<Outcome>, k: nat, j: nat)
    requires k < |os| && j < |os| - 1
    ensures (os[..k] + os[k + 1..])[j] == os[if j < k then j else j + 1]
  {
  }

  lemma SectionsRead(completed: seq<Outcome>, j: nat)
    requires j < |Supporting(completed)|
    ensures var at := if j < FirstSummary(completed) then j else j + 1;
      at < |completed| && SectionOf(Lines(completed), |Headline(completed)| + 3 + 3 * j, completed[at])
  {
    hide Strip, Lines, SectionAt, SectionOf, SupportingLines, Supporting, Headline;
    LinesLaidOut(completed, j);
    SupportingAt(completed, j);
    SectionReads(Lines(completed), |Headline(completed)| + 3 + 3 * j, Supporting(completed)[j]);
  }

  lemma LinesRead(completed: seq<Outcome>)
    ensures LinesOf(completed, FirstSummary(completed), Lines(completed))
  {
    hide Strip, Lines, SectionAt, SectionOf, SupportingLines, Supporting, Headline, FirstSummary;
    EveryOutputOnce(completed);
    HeadlineAndRest(completed);
    if Supporting(completed) != [] {
      RuleReads(completed);
    }
    forall j | 0 <= j < |Supporting(completed)|
      ensures var at := if j < FirstSummary(completed) then j else j + 1;
        at < |completed| && SectionOf(Lines(completed), |Headline(completed)| + 3 + 3 * j, completed[at])
    {
      SectionsRead(completed, j);
    }
  }

  /** The final text of any outcomes, in full. */
  lemma AggregateSummarizes(outcomes: seq<Outcome>)
    ensures Summarizes(outcomes, AggregateText(outcomes))
  {
    hide Strip, Lines, LinesOf, LaidOut, Join, Selects;
    var at := OnlyCompletedMatter(outcomes);
    var used := CompletedOutcomes(outcomes);
    CompletedUsed(outcomes, used, at);
    if used != [] {
      LinesRead(used);
      JoinLaidOut("\n", Lines(used));
      assert FirstSummaryAt(used, FirstSummary(used));
    }
    assert SummarizesUsed(used, AggregateText(outcomes));
  }

  lemma CompletedUsed(outcomes: seq<Outcome>, used: seq<Outcome>, at: seq<nat>)
    requires Selects(outcomes, Counted, used, at)
    ensures UsedAt(outcomes, used, at)
  {
  }

  lemma SectionAdded(head: seq<string>, os: seq<Outcome>, k: nat)
    requires k < |os|
    ensures (head + SupportingLines(os[..k])) + Section(os[k]) == head + SupportingLines(os[..k + 1])
  {
    hide Section;
    assert os[..k + 1][..k] == os[..k];
    assert SupportingLines(os[..k + 1]) == SupportingLines(os[..k]) + Section(os[k]);
  }

  lemma AppendThree(lines: seq<string>, a: string, b: string, c: string)
    ensures lines + [a] + [b] + [c] == lines + [a, b, c]
  {
  }

  class Aggregator {
    constructor () {
    }

    method Aggregate(outcomes: seq<Outcome>) returns (text: string)
      ensures text == AggregateText(outcomes)
      ensures Summarizes(outcomes, text)
    {
      AggregateSummarizes(outcomes);
      hide Summarizes;
      hide CompletedOutcomes, Strip, Join, FirstSummary, AgentName;
      var completed := CompletedOutcomes(outcomes);
      if completed == [] {
        return NothingProduced;
      }
      var summary := FirstSummary(completed);
      var lines: seq<string> := [];
      var supporting := completed;
      if summary < |completed| {
        lines := lines + [Strip(completed[summary].output)];
        supporting := completed[..summary] + completed[summary + 1..];
      }
      if supporting != [] {
        lines := lines + Rule;
        ghost var head := lines;
        for k := 0 to |supporting|
          invariant lines == head + SupportingLines(supporting[..k])
        {
          SectionAdded(head, supporting, k);
          var outcome := supporting[k];
          AppendThree(lines, "", "### " + AgentName(outcome.agent), Strip(outcome.output));
          lines := lines + [""];
          lines := lines + ["### " + AgentName(outcome.agent)];
          lines := lines + [Strip(outcome.output)];
        }
        assert supporting[..|supporting|] == supporting;
      }
      assert supporting == Supporting(completed);
      assert lines == Lines(completed);
      text := Strip(Join("\n", lines));
    }
  }
}
