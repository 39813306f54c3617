/** The event skimmer: a lazy chain of filter stages and column definitions
    over the events of the input shards, the normalisation weight, the list
    of branches to write, and the snapshot of the surviving events. */
module Skimmer {
  import opened Text
  import opened Json

  /** One cell of an event record. */
  datatype Value = BoolV(b: bool) | IntV(i: int) | RealV(x: real)

  /** An event: column name to cell. */
  type Event = map<string, Value>

  /** A column read as a C++ condition: non-zero is true. A column the event
      does not carry reads as false. */
  predicate IsTrue(e: Event, column: string) {
    column in e &&
    match e[column]
    case BoolV(b) => b
    case IntV(i) => i != 0
    case RealV(x) => x != 0.0
  }

  /** A column read as a number (`true` is 1). A column the event does not
      carry reads as 0. */
  function Num(e: Event, column: string): real {
    if column !in e then 0.0
    else match e[column]
      case BoolV(b) => if b then 1.0 else 0.0
      case IntV(i) => i as real
      case RealV(x) => x
  }

  // ---------------------------------------------------------------------
  // Filter stages

  /** The three kinds of stage `apply_global_filters` adds. */
  datatype Stage =
    | TriggerOr(triggers: seq<string>)   // the triggers joined with `||`
    | MetAnd(flags: seq<string>)         // the MET flags joined with `&&`
    | Multiplicity                       // good vertex, a jet, three leptons

  function Label(s: Stage): string {
    match s
    case TriggerOr(_) => "Combined Trigger Cut"
    case MetAnd(_) => "Combined MET Cut"
    case Multiplicity => "Has Good PV atleat one jet only 3 L"
  }

  predicate Passes(s: Stage, e: Event) {
    match s
    case TriggerOr(ts) => exists i :: 0 <= i < |ts| && IsTrue(e, ts[i])
    case MetAnd(fs) => forall i :: 0 <= i < |fs| ==> IsTrue(e, fs[i])
    case Multiplicity =>
      Num(e, "PV_npvsGood") > 0.0 && Num(e, "nJet") > 0.0
      && Num(e, "nMuon") + Num(e, "nElectron") >= 3.0
  }

  /** The stages `apply_global_filters(triggers, met_filters)` appends, in order. */
  function GlobalStages(triggers: seq<string>, metFilters: seq<string>): (stages: seq<Stage>)
    ensures |stages| == 1 + (if triggers != [] then 1 else 0) + (if metFilters != [] then 1 else 0)
    ensures stages[|stages| - 1] == Multiplicity
    ensures triggers != [] ==> stages[0] == TriggerOr(triggers)
    ensures metFilters != [] ==> stages[|stages| - 2] == MetAnd(metFilters)
    ensures forall i :: 0 <= i < |stages| ==> stages[i] != TriggerOr([]) && stages[i] != MetAnd([])
  {
    (if triggers != [] then [TriggerOr(triggers)] else [])
    + (if metFilters != [] then [MetAnd(metFilters)] else [])
    + [Multiplicity]
  }

  predicate PassesAll(stages: seq<Stage>, e: Event) {
    forall i :: 0 <= i < |stages| ==> Passes(stages[i], e)
  }

  /** An event gets through the global stages iff one listed trigger fired
      (or no trigger is listed), every listed MET flag is set, and it has a
      good vertex, a jet and at least three leptons. */
  lemma GlobalStagesMeaning(triggers: seq<string>, metFilters: seq<string>, e: Event)
    ensures PassesAll(GlobalStages(triggers, metFilters), e) <==>
      && (triggers == [] || exists i :: 0 <= i < |triggers| && IsTrue(e, triggers[i]))
      && (forall i :: 0 <= i < |metFilters| ==> IsTrue(e, metFilters[i]))
      && Passes(Multiplicity, e)
  {
    var stages := GlobalStages(triggers, metFilters);
    if PassesAll(stages, e) {
      if triggers != [] { assert Passes(stages[0], e); }
      if metFilters != [] { assert Passes(stages[|stages| - 2], e); }
      assert Passes(stages[|stages| - 1], e);
    }
  }

  // ---------------------------------------------------------------------
  // The lazy graph

  /** The right-hand side of a `Define`. */
  datatype Expr =
    | Constant(c: real)          // a number printed into the expression
    | GenWeightTimes(scale: real) // `genWeight * <scale>`

  function Eval(x: Expr, e: Event): Value {
    match x
    case Constant(c) => RealV(c)
    case GenWeightTimes(scale) => RealV(Num(e, "genWeight") * scale)
  }

  /** One node added to the data frame: a `Filter` or a `Define`. */
  datatype Op = Filter(stage: Stage) | Define(column: string, expr: Expr)

  /** The events of `events` that pass `s`, in their order. */
  function Survivors(events: seq<Event>, s: Stage): seq<Event> {
    if events == [] then []
    else (if Passes(s, events[0]) then [events[0]] else []) + Survivors(events[1..], s)
  }

  /** A filter keeps exactly the events that pass its stage, and no more
      events than it reads. */
  lemma {:induction false} SurvivorsMeaning(events: seq<Event>, s: Stage)
    ensures |Survivors(events, s)| <= |events|
    ensures forall e :: e in Survivors(events, s) <==> e in events && Passes(s, e)
  {
    if events != [] {
      var head := if Passes(s, events[0]) then [events[0]] else [];
      SurvivorsMeaning(events[1..], s);
      assert Survivors(events, s) == head + Survivors(events[1..], s);
      assert events == [events[0]] + events[1..];
    }
  }

  /** `a` is `b` with some elements left out, the rest in order. */
  predicate IsSubsequence(a: seq<Event>, b: seq<Event>)
    decreases |b|
  {
    if a == [] then true
    else if b == [] then false
    else if a[0] == b[0] then IsSubsequence(a[1..], b[1..])
    else IsSubsequence(a, b[1..])
  }

  /** A filter keeps a subsequence of the events that reach it. */
  lemma {:induction false} SurvivorsSubsequence(events: seq<Event>, s: Stage)
    ensures IsSubsequence(Survivors(events, s), events)
  {
    if events != [] {
      var rest := Survivors(events[1..], s);
      SurvivorsSubsequence(events[1..], s);
      if Passes(s, events[0]) {
        assert Survivors(events, s) == [events[0]] + rest;
        assert ([events[0]] + rest)[1..] == rest;
      } else {
        assert Survivors(events, s) == rest;
        if rest != [] {
          SurvivorsMeaning(events[1..], s);
          assert rest[0] in rest;
          assert rest[0] != events[0];
        }
      }
    }
  }

  /** Each event with `column` set to the value of `x` on it. */
  function DefineAll(events: seq<Event>, column: string, x: Expr): seq<Event> {
    if events == [] then []
    else [events[0][column := Eval(x, events[0])]] + DefineAll(events[1..], column, x)
  }

  /** A `Define` keeps every event, in order, and sets `column` on each. */
  lemma {:induction false} DefineAllMeaning(events: seq<Event>, column: string, x: Expr)
    ensures |DefineAll(events, column, x)| == |events|
    ensures forall i :: 0 <= i < |events| ==>
      DefineAll(events, column, x)[i] == events[i][column := Eval(x, events[i])]
  {
    if events != [] {
      var rest := DefineAll(events[1..], column, x);
      DefineAllMeaning(events[1..], column, x);
      assert DefineAll(events, column, x) == [events[0][column := Eval(x, events[0])]] + rest;
      forall i | 1 <= i < |events|
        ensures DefineAll(events, column, x)[i] == events[i][column := Eval(x, events[i])]
      {
        assert DefineAll(events, column, x)[i] == rest[i - 1];
        assert events[i] == events[1..][i - 1];
      }
    }
  }

  function ApplyOp(events: seq<Event>, op: Op): seq<Event> {
    match op
    case Filter(s) => Survivors(events, s)
    case Define(c, x) => DefineAll(events, c, x)
  }

  lemma ApplyOpShrinks(events: seq<Event>, op: Op)
    ensures |ApplyOp(events, op)| <= |events|
  {
    match op
    case Filter(s) => SurvivorsMeaning(events, s);
    case Define(c, x) => DefineAllMeaning(events, c, x);
  }

  /** The events the graph yields when the event loop runs. */
  function Materialize(events: seq<Event>, graph: seq<Op>): seq<Event>
  {
    if graph == [] then events
    else ApplyOp(Materialize(events, graph[..|graph| - 1]), graph[|graph| - 1])
  }

  /** `df.Report()`: each filter's label and the number of events that got
      through it, in the order the filters were added. */
  function CutFlow(events: seq<Event>, graph: seq<Op>): seq<(string, nat)>
  {
    if graph == [] then []
    else
      var last := graph[|graph| - 1];
      CutFlow(events, graph[..|graph| - 1])
      + if last.Filter? then [(Label(last.stage), |Materialize(events, graph)|)] else []
  }

  /** No node adds events, and a filter may remove some: no cut-flow count
      exceeds an earlier one or the number of input events, and the events
      left at the end are no more than the last count. */
  lemma {:induction false} CutFlowNonIncreasing(events: seq<Event>, graph: seq<Op>)
    ensures forall i :: 0 <= i < |CutFlow(events, graph)| ==>
      |Materialize(events, graph)| <= CutFlow(events, graph)[i].1 <= |events|
    ensures forall i, j :: 0 <= i < j < |CutFlow(events, graph)| ==>
      CutFlow(events, graph)[j].1 <= CutFlow(events, graph)[i].1
  {
    if graph != [] {
      var init := graph[..|graph| - 1];
      var last := graph[|graph| - 1];
      CutFlowNonIncreasing(events, init);
      MaterializeShrinks(events, init);
      var before := Materialize(events, init);
      assert Materialize(events, graph) == ApplyOp(before, last);
      ApplyOpShrinks(before, last);
      var cf0 := CutFlow(events, init);
      var cf := CutFlow(events, graph);
      var n := |Materialize(events, graph)|;
      assert n <= |Materialize(events, init)|;
      assert cf == cf0 + if last.Filter? then [(Label(last.stage), n)] else [];
      assert forall i :: 0 <= i < |cf0| ==> cf[i] == cf0[i];
      assert forall i :: |cf0| <= i < |cf| ==> cf[i].1 == n;
      MaterializeShrinks(events, graph);
      forall i | 0 <= i < |cf| ensures n <= cf[i].1 <= |events| {
        if i < |cf0| {
          assert cf[i] == cf0[i];
          assert |Materialize(events, init)| <= cf0[i].1 <= |events|;
        }
      }
      forall i, j | 0 <= i < j < |cf| ensures cf[j].1 <= cf[i].1 {
        if j < |cf0| {
          assert cf0[j].1 <= cf0[i].1;
        }
      }
    }
  }

  /** The graph never yields more events than it reads. */
  lemma {:induction false} MaterializeShrinks(events: seq<Event>, graph: seq<Op>)
    ensures |Materialize(events, graph)| <= |events|
  {
    if graph != [] {
      var before := Materialize(events, graph[..|graph| - 1]);
      MaterializeShrinks(events, graph[..|graph| - 1]);
      ApplyOpShrinks(before, graph[|graph| - 1]);
    }
  }

  /** The graph of `apply_global_filters`: one `Filter` per stage. */
  function FilterOps(stages: seq<Stage>): (ops: seq<Op>)
    ensures |ops| == |stages|
    ensures forall i :: 0 <= i < |stages| ==> ops[i] == Filter(stages[i])
  {
    if stages == [] then [] else [Filter(stages[0])] + FilterOps(stages[1..])
  }

  /** Running two graphs one after the other is running their concatenation. */
  lemma {:induction false} MaterializeAppend(events: seq<Event>, a: seq<Op>, b: seq<Op>)
    ensures Materialize(events, a + b) == Materialize(Materialize(events, a), b)
  {
    if b != [] {
      assert (a + b)[..|a + b| - 1] == a + b[..|b| - 1];
      MaterializeAppend(events, a, b[..|b| - 1]);
    } else {
      assert a + b == a;
    }
  }

  /** Filters alone keep exactly the events that pass every stage. */
  lemma {:induction false} FiltersKeep(events: seq<Event>, stages: seq<Stage>)
    ensures forall e :: e in Materialize(events, FilterOps(stages)) <==> e in events && PassesAll(stages, e)
  {
    if stages != [] {
      var init := stages[..|stages| - 1];
      var last := stages[|stages| - 1];
      assert FilterOps(stages)[..|stages| - 1] == FilterOps(init);
      var before := Materialize(events, FilterOps(init));
      assert Materialize(events, FilterOps(stages)) == Survivors(before, last);
      SurvivorsMeaning(before, last);
      FiltersKeep(events, init);
      PassesAllSnoc(stages);
    }
  }

  lemma PassesAllSnoc(stages: seq<Stage>)
    requires stages != []
    ensures forall e :: PassesAll(stages, e) <==>
      PassesAll(stages[..|stages| - 1], e) && Passes(stages[|stages| - 1], e)
  {
    var init := stages[..|stages| - 1];
    assert forall i :: 0 <= i < |init| ==> stages[i] == init[i];
  }

  // ---------------------------------------------------------------------
  // Normalisation

  /** `(cross_section * luminosity) / sum_gen_weight`, or 0 when the sum is 0
      (a warning, not an error). */
  function GlobalScale(crossSection: real, luminosity: real, sumGenWeight: real): real {
    if sumGenWeight != 0.0 then (crossSection * luminosity) / sumGenWeight else 0.0
  }

  /** The scale normalises the generator weights to the expected yield:
      times the sum of weights it gives cross section times luminosity;
      a zero sum gives a zero scale rather than a division by zero. */
  lemma GlobalScaleMeaning(crossSection: real, luminosity: real, sumGenWeight: real)
    ensures var scale := GlobalScale(crossSection, luminosity, sumGenWeight);
      && (sumGenWeight != 0.0 ==> scale * sumGenWeight == crossSection * luminosity)
      && (sumGenWeight == 0.0 ==> scale == 0.0)
  {
  }

  /** The two `Define`s of `define_total_weight`, in order. */
  function WeightOps(sumGenWeight: real, scale: real): seq<Op> {
    [Define("genEventSumw", Constant(sumGenWeight)), Define("totalWeight", GenWeightTimes(scale))]
  }

  predicate Weighted(e: Event, sumGenWeight: real, scale: real) {
    && "genEventSumw" in e && e["genEventSumw"] == RealV(sumGenWeight)
    && "totalWeight" in e && e["totalWeight"] == RealV(Num(e, "genWeight") * scale)
  }

  /** After the weight is defined and any filters run, every event left
      carries `totalWeight == genWeight * scale` and the constant
      `genEventSumw`. */
  lemma WeightedSurvivors(events: seq<Event>, sumGenWeight: real, scale: real, stages: seq<Stage>)
    ensures forall e :: e in Materialize(events, WeightOps(sumGenWeight, scale) + FilterOps(stages)) ==>
      Weighted(e, sumGenWeight, scale) && PassesAll(stages, e)
  {
    var w := WeightOps(sumGenWeight, scale);
    var defined := Materialize(events, w);
    DefinedWeighted(events, sumGenWeight, scale);
    MaterializeAppend(events, w, FilterOps(stages));
    FiltersKeep(defined, stages);
  }

  /** Right after the two `Define`s every event carries both columns. */
  lemma DefinedWeighted(events: seq<Event>, sumGenWeight: real, scale: real)
    ensures forall e :: e in Materialize(events, WeightOps(sumGenWeight, scale)) ==> Weighted(e, sumGenWeight, scale)
  {
    var w := WeightOps(sumGenWeight, scale);
    assert w[..1][..0] == [];
    var d1 := DefineAll(events, "genEventSumw", Constant(sumGenWeight));
    DefineAllMeaning(events, "genEventSumw", Constant(sumGenWeight));
    assert Materialize(events, w[..1]) == d1;
    var d2 := DefineAll(d1, "totalWeight", GenWeightTimes(scale));
    DefineAllMeaning(d1, "totalWeight", GenWeightTimes(scale));
    assert Materialize(events, w) == d2;
    forall i | 0 <= i < |d2| ensures Weighted(d2[i], sumGenWeight, scale) {
      assert Eval(GenWeightTimes(scale), d1[i]) == RealV(Num(d1[i], "genWeight") * scale);
      assert d2[i] == d1[i]["totalWeight" := Eval(GenWeightTimes(scale), d1[i])];
      assert Num(d2[i], "genWeight") == Num(d1[i], "genWeight");
    }
  }

  // ---------------------------------------------------------------------
  // Branches to write

  /** Every name of `columns` that starts with `prefix`, in schema order. */
  function Matches(columns: seq<string>, prefix: string): (r: seq<string>)
    ensures |r| <= |columns|
    ensures forall b :: b in r <==> b in columns && StartsWith(b, prefix)
  {
    if columns == [] then []
    else (if StartsWith(columns[0], prefix) then [columns[0]] else []) + Matches(columns[1..], prefix)
  }

  /** The matches in two pieces of the schema are those of each piece, in
      schema order, each name as often as it occurs. */
  lemma {:induction false} MatchesAppend(a: seq<string>, b: seq<string>, prefix: string)
    ensures Matches(a + b, prefix) == Matches(a, prefix) + Matches(b, prefix)
  {
    if a == [] {
      assert a + b == b;
    } else {
      assert (a + b)[1..] == a[1..] + b;
      MatchesAppend(a[1..], b, prefix);
    }
  }

  /** With `MatchesAppend`, fixes the whole result: one name matches
      exactly when it starts with the prefix. */
  lemma MatchesOne(b: string, prefix: string)
    ensures Matches([b], prefix) == if StartsWith(b, prefix) then [b] else []
  {
    assert [b][1..] == [];
  }

  /** A pattern stripped of every `*`. */
  function PatternPrefix(pattern: string): string {
    RemoveChar(pattern, '*')
  }

  /** The matches of each pattern in turn, concatenated, nothing removed. */
  function Expansion(columns: seq<string>, patterns: seq<string>): seq<string>
  {
    if patterns == [] then []
    else (Expansion(columns, patterns[..|patterns| - 1])
          + Matches(columns, PatternPrefix(patterns[|patterns| - 1])))
  }

  /** Total number of matches over the patterns. */
  function MatchCount(columns: seq<string>, patterns: seq<string>): nat
  {
    if patterns == [] then 0
    else (MatchCount(columns, patterns[..|patterns| - 1])
          + |Matches(columns, PatternPrefix(patterns[|patterns| - 1]))|)
  }

  lemma ExpansionSnoc(columns: seq<string>, patterns: seq<string>, i: nat)
    requires i < |patterns|
    ensures Expansion(columns, patterns[..i + 1])
      == Expansion(columns, patterns[..i]) + Matches(columns, PatternPrefix(patterns[i]))
  {
    assert patterns[..i + 1][..i] == patterns[..i];
  }

  /** The list `build_branch_list` returns. */
  function BranchList(explicit: seq<string>, patterns: Option<seq<string>>, columns: seq<string>): seq<string>
  {
    if patterns.None? || patterns.value == [] then explicit
    else explicit + Expansion(columns, patterns.value)
  }

  /** The explicit names come first, unchanged; without patterns nothing
      follows; the length is the explicit count plus every match, duplicates
      included; and what follows is exactly the schema names some pattern's
      prefix matches. */
  lemma {:induction false} BranchListMeaning(explicit: seq<string>, patterns: Option<seq<string>>, columns: seq<string>)
    ensures var r := BranchList(explicit, patterns, columns);
      && |explicit| <= |r| && r[..|explicit|] == explicit
      && ((patterns.None? || patterns.value == []) ==> r == explicit)
      && (patterns.Some? ==> |r| == |explicit| + MatchCount(columns, patterns.value))
      && (patterns.Some? ==> forall b :: b in r[|explicit|..] <==>
            b in columns && exists i :: 0 <= i < |patterns.value| && StartsWith(b, PatternPrefix(patterns.value[i])))
  {
    var r := BranchList(explicit, patterns, columns);
    assert r[..|explicit|] == explicit;
    if patterns.Some? {
      ExpansionMeaning(columns, patterns.value);
      assert r[|explicit|..] == Expansion(columns, patterns.value);
    }
  }

  lemma {:induction false} ExpansionMeaning(columns: seq<string>, patterns: seq<string>)
    ensures |Expansion(columns, patterns)| == MatchCount(columns, patterns)
    ensures forall b :: b in Expansion(columns, patterns) <==>
      b in columns && exists i :: 0 <= i < |patterns| && StartsWith(b, PatternPrefix(patterns[i]))
  {
    if patterns != [] {
      var init := patterns[..|patterns| - 1];
      var last := patterns[|patterns| - 1];
      ExpansionMeaning(columns, init);
      forall b | b in columns && (exists i :: 0 <= i < |patterns| && StartsWith(b, PatternPrefix(patterns[i])))
        ensures b in Expansion(columns, patterns)
      {
        var i :| 0 <= i < |patterns| && StartsWith(b, PatternPrefix(patterns[i]));
        if i < |patterns| - 1 {
          assert init[i] == patterns[i];
        }
      }
      forall b | b in Expansion(columns, init)
        ensures exists i :: 0 <= i < |patterns| && StartsWith(b, PatternPrefix(patterns[i]))
      {
        var i :| 0 <= i < |init| && StartsWith(b, PatternPrefix(init[i]));
        assert patterns[i] == init[i];
      }
    }
  }

  // ---------------------------------------------------------------------
  // The written output

  /** The part of an event `Snapshot` writes: the listed branches it carries. */
  function Project(e: Event, branches: seq<string>): Event {
    map k | k in e && k in branches :: e[k]
  }

  function ProjectAll(events: seq<Event>, branches: seq<string>): seq<Event> {
    if events == [] then [] else [Project(events[0], branches)] + ProjectAll(events[1..], branches)
  }

  /** One written row per event, in order, each the event's projection. */
  lemma {:induction false} ProjectAllMeaning(events: seq<Event>, branches: seq<string>)
    ensures |ProjectAll(events, branches)| == |events|
    ensures forall i :: 0 <= i < |events| ==> ProjectAll(events, branches)[i] == Project(events[i], branches)
  {
    if events != [] {
      var rest := ProjectAll(events[1..], branches);
      ProjectAllMeaning(events[1..], branches);
      assert ProjectAll(events, branches) == [Project(events[0], branches)] + rest;
      forall i | 1 <= i < |events| ensures ProjectAll(events, branches)[i] == Project(events[i], branches) {
        assert ProjectAll(events, branches)[i] == rest[i - 1];
        assert events[i] == events[1..][i - 1];
      }
    }
  }

  /** What ROOT's `Snapshot` demands of its branch list before the event
      loop starts: no name twice, and every name a column of the data frame
      (`columns`, defined columns included). Otherwise it throws. */
  predicate SnapshotAccepts(branches: seq<string>, columns: seq<string>) {
    && (forall i, j :: 0 <= i < j < |branches| ==> branches[i] != branches[j])
    && (forall i :: 0 <= i < |branches| ==> branches[i] in columns)
  }

  /** A name both listed explicitly and matched by a wildcard stands twice in
      any branch vector that holds the built list, so ROOT rejects it. */
  lemma OverlapRejected(lead: seq<string>, explicit: seq<string>, patterns: seq<string>, columns: seq<string>,
                        known: seq<string>, b: string, k: nat)
    requires b in explicit && b in columns && k < |patterns|
    requires StartsWith(b, PatternPrefix(patterns[k]))
    ensures !SnapshotAccepts(lead + BranchList(explicit, Some(patterns), columns), known)
  {
    var ex := Expansion(columns, patterns);
    ExpansionMeaning(columns, patterns);
    assert b in ex;
    var i :| 0 <= i < |explicit| && explicit[i] == b;
    var j :| 0 <= j < |ex| && ex[j] == b;
    var front := lead + explicit;
    var v := front + ex;
    assert BranchList(explicit, Some(patterns), columns) == explicit + ex;
    assert lead + (explicit + ex) == v;
    assert front[|lead| + i] == b;
    assert v[|lead| + i] == front[|lead| + i];
    assert v[|front| + j] == ex[j];
    TwiceRejected(v, |lead| + i, |front| + j, known);
  }

  lemma TwiceRejected(v: seq<string>, p: nat, q: nat, known: seq<string>)
    requires p < q < |v| && v[p] == v[q]
    ensures !SnapshotAccepts(v, known)
  {
  }

  /** What `save_snapshot` produces: the `Events` tree written to `fileName`
      (recreated), the branch vector, the projected rows, the graph the event
      loop ran, and the cut-flow report. */
  datatype Snapshot = Snapshot(
    treeName: string,
    fileName: string,
    branches: seq<string>,
    rows: seq<Event>,
    graph: seq<Op>,
    cutFlow: seq<(string, nat)>)

  // ---------------------------------------------------------------------

  class AnalysisSkimmer {
    const inputFiles: seq<string>
    const treeName: string
    /** The events of the `tree_name` tree in the input files, as the data
        frame reads them. */
    const source: seq<Event>
    /** `self.df`: the nodes added to the data frame so far, in order. */
    var graph: seq<Op>
    var outputBranches: seq<string>

    constructor (inputFiles: seq<string>, treeName: string, source: seq<Event>)
      ensures this.inputFiles == inputFiles && this.treeName == treeName && this.source == source
      ensures graph == [] && outputBranches == []
    {
      this.inputFiles := inputFiles;
      this.treeName := treeName;
      this.source := source;
      graph := [];
      outputBranches := [];
    }

    /** The events the current graph yields. */
    function Events(): seq<Event>
      reads this
    {
      Materialize(source, graph)
    }

    /** Adds the trigger stage (if any trigger), the MET stage (if any flag)
        and the multiplicity stage, in that order. */
    method ApplyGlobalFilters(triggers: seq<string>, metFilters: seq<string>)
      modifies this
      ensures graph == old(graph) + FilterOps(GlobalStages(triggers, metFilters))
      ensures outputBranches == old(outputBranches)
    {
      if triggers != [] {
        graph := graph + [Filter(TriggerOr(triggers))];
      }
      if metFilters != [] {
        graph := graph + [Filter(MetAnd(metFilters))];
      }
      graph := graph + [Filter(Multiplicity)];
    }

    /** Defines `genEventSumw` as the (foreign) sum of the Runs tree's
        `genEventSumw`, then `totalWeight` as `genWeight` times the global
        scale, and lists both for output. */
    method DefineTotalWeight(crossSection: real, luminosity: real, sumGenWeight: real)
      modifies this
      ensures graph == old(graph) + WeightOps(sumGenWeight, GlobalScale(crossSection, luminosity, sumGenWeight))
      ensures outputBranches == old(outputBranches) + ["totalWeight", "genEventSumw"]
    {
      graph := graph + [Define("genEventSumw", Constant(sumGenWeight))];
      var globalScale := GlobalScale(crossSection, luminosity, sumGenWeight);
      graph := graph + [Define("totalWeight", GenWeightTimes(globalScale))];
      outputBranches := outputBranches + ["totalWeight", "genEventSumw"];
    }

    /** The explicit branches, then for each pattern the schema names that
        start with it (every `*` removed). `columnNames` is what the data
        frame reports as its columns. */
    method BuildBranchList(explicitBranches: seq<string>, wildcardPatterns: Option<seq<string>>,
                           columnNames: seq<string>)
      returns (finalBranches: seq<string>)
      ensures finalBranches == BranchList(explicitBranches, wildcardPatterns, columnNames)
    {
      finalBranches := explicitBranches;
      if wildcardPatterns.None? || wildcardPatterns.value == [] {
        return;
      }
      var patterns := wildcardPatterns.value;
      var i := 0;
      while i < |patterns|
        invariant 0 <= i <= |patterns|
        invariant finalBranches == explicitBranches + Expansion(columnNames, patterns[..i])
      {
        var prefix := PatternPrefix(patterns[i]);
        var matches := Matches(columnNames, prefix);
        ExpansionSnoc(columnNames, patterns, i);
        AppendAssoc(explicitBranches, Expansion(columnNames, patterns[..i]), matches);
        finalBranches := finalBranches + matches;
        i := i + 1;
      }
      assert patterns[..i] == patterns;
    }

    /** Extends the output list by the extra branches when there are any,
        copies it into the branch vector, and runs the event loop.
        `columnNames` is what the data frame knows as its columns; `written`
        says whether writing the file succeeded. When ROOT rejects the
        branch vector or the write fails, the exception propagates and no
        snapshot exists. */
    method SaveSnapshot(outputFilename: string, extraBranches: Option<seq<string>>, columnNames: seq<string>,
                        written: bool)
      returns (result: Option<Snapshot>)
      modifies this
      ensures graph == old(graph)
      ensures outputBranches == old(outputBranches)
        + (if extraBranches.Some? && extraBranches.value != [] then extraBranches.value else [])
      ensures result == if written && SnapshotAccepts(outputBranches, columnNames)
        then Some(Snapshot("Events", outputFilename, outputBranches,
                           ProjectAll(Events(), outputBranches), graph, CutFlow(source, graph)))
        else None
    {
      if extraBranches.Some? && extraBranches.value != [] {
        outputBranches := outputBranches + extraBranches.value;
      }
      var branchVector: seq<string> := [];
      var i := 0;
      while i < |outputBranches|
        invariant 0 <= i <= |outputBranches|
        invariant branchVector == outputBranches[..i]
      {
        branchVector := branchVector + [outputBranches[i]];
        i := i + 1;
      }
      assert branchVector == outputBranches;
      if !written || !SnapshotAccepts(branchVector, columnNames) {
        return None;
      }
      var report := CutFlow(source, graph);
      result := Some(Snapshot("Events", outputFilename, branchVector,
                              ProjectAll(Materialize(source, graph), branchVector), graph, report));
    }
  }
}
