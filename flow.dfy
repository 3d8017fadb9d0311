/** The dialog flow: a flat registry of named states, each with a transition
    from the latest user input and the conversation record to the name of the
    next state. The record `{name, type}` is threaded explicitly here; the
    class in module Dialog holds it as mutable fields. */
module Flow {
  import opened Wrappers
  import opened Strings
  import opened Catalog
  import opened Links
  import opened Matcher
  import opened FilterClause
  import opened Naming

  datatype Dashboard = SalesRevenue | CostAnalysis | Production | RawMaterial {
    /** The dashboard's state name, which is also its key in every catalog. */
    function Key(): string {
      match this
      case SalesRevenue => "sales_revenue"
      case CostAnalysis => "cost_analysis"
      case Production => "production"
      case RawMaterial => "raw_material"
    }

    /** The table named in the dashboard's filter clause. */
    function Table(): string {
      match this
      case SalesRevenue => "PRILFY2023"
      case CostAnalysis => "CostAnalysisTable"
      case Production => "ProductionTable"
      case RawMaterial => "RawMaterialTable"
    }
  }

  /** The options offered by `start`, and the dashboards they stand for. */
  const StartOptions: seq<string> := ["Sales Revenue", "Cost Analysis", "Production", "Raw Material"]
  const Dashboards: seq<Dashboard> := [SalesRevenue, CostAnalysis, Production, RawMaterial]

  datatype FlowState =
    | Start
    | ChooseFilter(dashboard: Dashboard)
    | PleaseWait(dashboard: Dashboard)
    | UnknownDashboard
    | End
    | Loop
  {
    /** The key of the state in the `flow` object. */
    function Name(): string {
      match this
      case Start => "start"
      case ChooseFilter(d) => d.Key()
      case PleaseWait(SalesRevenue) => "please_wait_sales_revenue"
      case PleaseWait(CostAnalysis) => "please_wait_cost_analysis"
      case PleaseWait(Production) => "please_wait_production"
      case PleaseWait(RawMaterial) => "please_wait_raw_material"
      case UnknownDashboard => "unknown_dashboard"
      case End => "end"
      case Loop => "loop"
    }
  }

  /** `flow[n]`: the state registered under a name, if any. */
  function StateNamed(n: string): (r: Option<FlowState>)
    ensures r.Some? ==> r.value.Name() == n
  {
    if n == "start" then Some(Start)
    else if n == "sales_revenue" then Some(ChooseFilter(SalesRevenue))
    else if n == "cost_analysis" then Some(ChooseFilter(CostAnalysis))
    else if n == "production" then Some(ChooseFilter(Production))
    else if n == "raw_material" then Some(ChooseFilter(RawMaterial))
    else if n == "please_wait_sales_revenue" then Some(PleaseWait(SalesRevenue))
    else if n == "please_wait_cost_analysis" then Some(PleaseWait(CostAnalysis))
    else if n == "please_wait_production" then Some(PleaseWait(Production))
    else if n == "please_wait_raw_material" then Some(PleaseWait(RawMaterial))
    else if n == "unknown_dashboard" then Some(UnknownDashboard)
    else if n == "end" then Some(End)
    else if n == "loop" then Some(Loop)
    else None
  }

  /** Every state is found under its own name, so no two states share one. */
  lemma StateNamedName(s: FlowState)
    ensures StateNamed(s.Name()) == Some(s)
  {
    match s
    case Start =>
    case ChooseFilter(d) =>
    case PleaseWait(d) =>
    case UnknownDashboard =>
    case End =>
    case Loop =>
  }

  /** A waiting state is named after its dashboard. */
  lemma PleaseWaitName(d: Dashboard)
    ensures PleaseWait(d).Name() == "please_wait_" + d.Key()
  {
    match d
    case SalesRevenue =>
    case CostAnalysis =>
    case Production =>
    case RawMaterial =>
  }

  /** The conversation record `{name, type}`; `type` is a Dafny keyword, so
      the field is called `filterType` here. */
  datatype Record = Record(name: string, filterType: string)

  /** What a transition does: name the next state, possibly opening a URL
      (the `window.open` side effect), or throw a TypeError. */
  datatype Step = Goto(next: string, openUrl: Option<string>) | Fault

  datatype Reply = Reply(rec: Record, step: Step)

  /** The `path` of `please_wait_<d>`: resolve the stored dashboard's link;
      without one, apologise; otherwise take the first mentioned dimension and
      its mentioned values, build the filtered link and open it. */
  function FetchAndOpen(d: Dashboard, name: string, input: string): (step: Step)
    ensures step == Goto("unknown_dashboard", None) <==> GetPowerBILink(name).None?
    ensures step.Fault? <==>
            GetPowerBILink(name).Some? &&
            (name !in FilterKeywords || Matching(FilterKeywords[name], input) == [])
    ensures step.Goto? && step.next != "unknown_dashboard" ==>
            step.next == "end" && step.openUrl.Some? && PowerBILinks[name] <= step.openUrl.value
  {
    match GetPowerBILink(name)
    case None => Goto("unknown_dashboard", None)
    case Some(link) =>
      if name !in FilterKeywords then Fault
      else
        match First(Matching(FilterKeywords[name], input))
        case None => Fault
        case Some(filterName) =>
          KeywordsHaveValues();
          MatchingMembers(FilterKeywords[name], input, filterName);
          if name !in FilterValues || filterName !in FilterValues[name] then Fault
          else
            var filterValues := Matching(FilterValues[name][filterName], input);
            Goto("end", Some(AddFilters(link, d.Table(), filterName, filterValues)))
  }

  /** One transition: `flow[s].path(params)` together with the `setState`
      it performs. */
  function Transition(s: FlowState, rec: Record, input: string): (reply: Reply)
    ensures reply.step.Fault? ==> s.PleaseWait?
    ensures reply.step.Goto? && reply.step.openUrl.Some? ==> s.PleaseWait?
    ensures !s.Start? ==> reply.rec.name == rec.name
    ensures !s.ChooseFilter? ==> reply.rec.filterType == rec.filterType
    ensures s.Start? ==> reply.step.Goto? && reply.step.next == reply.rec.name == DashboardName(input)
    ensures s.ChooseFilter? ==> reply.step == Goto("please_wait_" + s.dashboard.Key(), None)
    ensures s.ChooseFilter? ==> reply.rec.filterType == FilterType(input)
    ensures s.PleaseWait? ==> reply.step == FetchAndOpen(s.dashboard, rec.name, input)
    ensures s.PleaseWait? && reply.step.Goto? ==> reply.step.next in {"end", "unknown_dashboard"}
    ensures s.UnknownDashboard? ==> reply.step == Goto("end", None)
    ensures s.End? || s.Loop? ==> reply.step == Goto("loop", None)
  {
    match s
    case Start =>
      var name := DashboardName(input);
      Reply(rec.(name := name), Goto(name, None))
    case ChooseFilter(d) =>
      PleaseWaitName(d);
      Reply(rec.(filterType := FilterType(input)), Goto(PleaseWait(d).Name(), None))
    case PleaseWait(d) =>
      Reply(rec, FetchAndOpen(d, rec.name, input))
    case UnknownDashboard => Reply(rec, Goto("end", None))
    case End => Reply(rec, Goto("loop", None))
    case Loop => Reply(rec, Goto("loop", None))
  }

  /** Where a conversation stands after a sequence of inputs: at a state, or
      stopped by a thrown TypeError, or handed a name that is not a state
      (what the chat library does then is not part of this model). */
  datatype RunState = At(state: FlowState, rec: Record) | Crashed | Unrouted(name: string)

  function Run(s: FlowState, rec: Record, inputs: seq<string>): RunState
    decreases |inputs|
  {
    if inputs == [] then At(s, rec)
    else
      var reply := Transition(s, rec, inputs[0]);
      match reply.step
      case Fault => Crashed
      case Goto(next, _) =>
        match StateNamed(next)
        case None => Unrouted(next)
        case Some(s2) => Run(s2, reply.rec, inputs[1..])
  }

  /** `loop` is a sink: whatever is typed, the conversation stays there. */
  lemma {:induction false} LoopForever(rec: Record, inputs: seq<string>)
    ensures Run(Loop, rec, inputs) == At(Loop, rec)
  {
    if inputs != [] {
      LoopForever(rec, inputs[1..]);
    }
  }

  /** From `end` the only state reachable is `loop`. */
  lemma EndLeadsToLoop(rec: Record, inputs: seq<string>)
    requires inputs != []
    ensures Run(End, rec, inputs) == At(Loop, rec)
  {
    LoopForever(rec, inputs[1..]);
  }

  /** `unknown_dashboard` moves to `end` and then stays in `loop`. */
  lemma UnknownDashboardLeadsToEnd(rec: Record, inputs: seq<string>)
    requires inputs != []
    ensures Run(UnknownDashboard, rec, inputs) == if |inputs| == 1 then At(End, rec) else At(Loop, rec)
  {
    if |inputs| > 1 {
      EndLeadsToLoop(rec, inputs[1..]);
    }
  }

  /** The link opened by a completed `please_wait_*` state is the dashboard's
      URL, followed, when some value of the first mentioned dimension was
      mentioned, by a clause that reads back as exactly those values. */
  lemma {:induction false} OpenedLinkCarriesFilter(d: Dashboard, name: string, input: string)
    requires FetchAndOpen(d, name, input).Goto? && FetchAndOpen(d, name, input).next == "end"
    ensures name in FilterKeywords && Matching(FilterKeywords[name], input) != []
    ensures var dim := Matching(FilterKeywords[name], input)[0];
            name in FilterValues && dim in FilterValues[name] &&
            var values := Matching(FilterValues[name][dim], input);
            var url := FetchAndOpen(d, name, input).openUrl.value;
            var head := PowerBILinks[name] + "&filter=" + d.Table() + "/" + dim;
            (values == [] ==> url == PowerBILinks[name]) &&
            (values != [] ==> head <= url && DecodeClause(url[|head|..]) == Some(values))
  {
    var step := FetchAndOpen(d, name, input);
    assert GetPowerBILink(name).Some? && name in FilterKeywords;
    var link := PowerBILinks[name];
    var dims := Matching(FilterKeywords[name], input);
    assert dims != [];
    var dim := dims[0];
    KeywordsHaveValues();
    MatchingMembers(FilterKeywords[name], input, dim);
    assert name in FilterValues && dim in FilterValues[name];
    var values := Matching(FilterValues[name][dim], input);
    assert step == Goto("end", Some(AddFilters(link, d.Table(), dim, values)));
    forall v | v in values ensures v in FilterValues[name][dim] {
      MatchingMembers(FilterValues[name][dim], input, v);
    }
    FilteredUrl(link, d.Table(), name, dim, values);
  }

  /** The url opened for the chosen values: the bare link when none matched,
      otherwise a filter clause that decodes back to exactly those values. */
  lemma FilteredUrl(link: string, table: string, name: string, dim: string, values: seq<string>)
    requires name in FilterValues && dim in FilterValues[name]
    requires forall v :: v in values ==> v in FilterValues[name][dim]
    ensures var url := AddFilters(link, table, dim, values);
            var head := link + "&filter=" + table + "/" + dim;
            (values == [] ==> url == link) &&
            (values != [] ==> head <= url && DecodeClause(url[|head|..]) == Some(values))
  {
    if values != [] {
      CatalogFiltersRoundTrip(link, table, name, dim, values);
    }
  }

  lemma CostAnalysisLower(text: string)
    requires text == "Cost Analysis"
    ensures Lower(text) == "cost" + " " + "analysis"
  {
    LowerPointwise(text, "cost analysis");
  }

  lemma ProductionLower(text: string)
    requires text == "Production"
    ensures Lower(text) == "production"
  {
    LowerPointwise(text, "production");
  }

  lemma RawMaterialLower(text: string)
    requires text == "Raw Material"
    ensures Lower(text) == "raw" + " " + "material"
  {
    LowerPointwise(text, "raw material");
  }

  lemma SalesRevenueOptionLower(text: string)
    requires text == "Sales Revenue"
    ensures Lower(text) == "sales" + " " + "revenue"
  {
    LowerPointwise(text, "sales revenue");
  }

  lemma CostAnalysisWords()
    ensures NoSpace("cost") && NoSpace("analysis") && '.' !in "cost_analysis"
    ensures "cost" + "_" + "analysis" == "cost_analysis"
  {
  }

  lemma RawMaterialWords()
    ensures NoSpace("raw") && NoSpace("material") && '.' !in "raw_material"
    ensures "raw" + "_" + "material" == "raw_material"
  {
  }

  lemma ProductionWord()
    ensures NoSpace("production") && '.' !in "production"
  {
  }

  /** Each option offered by `start` normalises to the key of its dashboard,
      so choosing it leads to that dashboard's state. */
  lemma {:induction false} StartOptionNames(k: int)
    requires 0 <= k < |StartOptions|
    ensures DashboardName(StartOptions[k]) == Dashboards[k].Key()
    ensures StateNamed(Dashboards[k].Key()) == Some(ChooseFilter(Dashboards[k]))
  {
    StateNamedName(ChooseFilter(Dashboards[k]));
    if k == 0 {
      SalesRevenueOptionLower(StartOptions[k]);
      SalesRevenueWords();
      TwoWordName(StartOptions[k], "sales", "revenue");
    } else if k == 1 {
      CostAnalysisLower(StartOptions[k]);
      CostAnalysisWords();
      TwoWordName(StartOptions[k], "cost", "analysis");
    } else if k == 2 {
      ProductionLower(StartOptions[k]);
      ProductionWord();
      OneWordName(StartOptions[k], "production");
    } else {
      RawMaterialLower(StartOptions[k]);
      RawMaterialWords();
      TwoWordName(StartOptions[k], "raw", "material");
    }
  }

  /** Whether the `please_wait_*` state of a dashboard reached through the
      options completes: only the two dashboards with a dimension catalog
      can, and only when the input mentions one of their dimensions. */
  predicate Completes(d: Dashboard, text: string) {
    (d == SalesRevenue || d == RawMaterial) && Matching(FilterKeywords[d.Key()], text) != []
  }

  /** One step of a run: a transition that names a state continues there. */
  lemma RunStep(s: FlowState, rec: Record, inputs: seq<string>, s2: FlowState)
    requires inputs != []
    requires Transition(s, rec, inputs[0]).step.Goto?
    requires StateNamed(Transition(s, rec, inputs[0]).step.next) == Some(s2)
    ensures Run(s, rec, inputs) == Run(s2, Transition(s, rec, inputs[0]).rec, inputs[1..])
  {
  }

  /** The `please_wait_*` state of every dashboard has a link, so it either
      goes to `end` or throws, and it goes to `end` exactly when the dashboard
      has a dimension catalog and the input mentions one of its dimensions. */
  lemma PleaseWaitOutcome(d: Dashboard, text: string)
    ensures var step := FetchAndOpen(d, d.Key(), text);
            (step.Goto? && step.next == "end") <==> Completes(d, text)
    ensures FetchAndOpen(d, d.Key(), text).Fault? <==> !Completes(d, text)
  {
    assert GetPowerBILink(d.Key()).Some?;
    assert d.Key() in FilterKeywords <==> d == SalesRevenue || d == RawMaterial;
  }

  /** `please_wait_*` keeps the record and answers with `FetchAndOpen`. */
  lemma PleaseWaitStep(d: Dashboard, rec: Record, input: string)
    ensures Transition(PleaseWait(d), rec, input) == Reply(rec, FetchAndOpen(d, rec.name, input))
  {
  }

  /** A transition that throws ends the run. */
  lemma RunFault(s: FlowState, rec: Record, inputs: seq<string>)
    requires inputs != [] && Transition(s, rec, inputs[0]).step.Fault?
    ensures Run(s, rec, inputs) == Crashed
  {
  }

  /** The last step of such a dialog: `please_wait_*` ends or throws. */
  lemma PleaseWaitRun(d: Dashboard, rec: Record, text: string)
    requires rec.name == d.Key()
    ensures Run(PleaseWait(d), rec, [text]) == if Completes(d, text) then At(End, rec) else Crashed
  {
    PleaseWaitStep(d, rec, text);
    PleaseWaitOutcome(d, text);
    if Completes(d, text) {
      StateNamedName(End);
      RunStep(PleaseWait(d), rec, [text], End);
      assert [text][1..] == [];
    } else {
      RunFault(PleaseWait(d), rec, [text]);
    }
  }

  /** The middle step: the filter type is stored and `please_wait_*` follows. */
  lemma ChooseFilterRun(d: Dashboard, rec: Record, choice: string, text: string)
    ensures Run(ChooseFilter(d), rec, [choice, text]) ==
            Run(PleaseWait(d), rec.(filterType := FilterType(choice)), [text])
  {
    StateNamedName(PleaseWait(d));
    RunStep(ChooseFilter(d), rec, [choice, text], PleaseWait(d));
    assert [choice, text][1..] == [text];
  }

  /** A whole dialog whose first input names a dashboard: it reaches `end`
      (having opened the filtered link) exactly when the filter text mentions
      a dimension of a dashboard that has any; otherwise the `please_wait_*`
      state throws. `unknown_dashboard` is never reached. */
  lemma DialogFromName(d: Dashboard, rec: Record, option: string, choice: string, text: string)
    requires DashboardName(option) == d.Key()
    ensures Run(Start, rec, [option, choice, text]) ==
            if Completes(d, text) then At(End, Record(d.Key(), FilterType(choice))) else Crashed
  {
    var rec1 := rec.(name := d.Key());
    StateNamedName(ChooseFilter(d));
    RunStep(Start, rec, [option, choice, text], ChooseFilter(d));
    assert [option, choice, text][1..] == [choice, text];
    ChooseFilterRun(d, rec1, choice, text);
    PleaseWaitRun(d, rec1.(filterType := FilterType(choice)), text);
  }

  /** The same dialog started with one of the options `start` offers. */
  lemma DialogFromOption(k: int, rec: Record, choice: string, text: string)
    requires 0 <= k < |StartOptions|
    ensures Run(Start, rec, [StartOptions[k], choice, text]) ==
            if Completes(Dashboards[k], text) then At(End, Record(Dashboards[k].Key(), FilterType(choice))) else Crashed
  {
    StartOptionNames(k);
    DialogFromName(Dashboards[k], rec, StartOptions[k], choice, text);
  }

  /** No state name `please_wait_*` is a dashboard key. */
  lemma StateNameUnlinked(d: Dashboard)
    ensures GetPowerBILink(PleaseWait(d).Name()).None?
  {
    PleaseWaitName(d);
    assert |PleaseWait(d).Name()| > 13;
  }

  /** With such a name stored, `please_wait_*` moves to `unknown_dashboard`. */
  lemma UnlinkedRun(d: Dashboard, rec: Record, text: string)
    requires GetPowerBILink(rec.name).None?
    ensures Run(PleaseWait(d), rec, [text]) == At(UnknownDashboard, rec)
  {
    PleaseWaitStep(d, rec, text);
    StateNamedName(UnknownDashboard);
    RunStep(PleaseWait(d), rec, [text], UnknownDashboard);
    assert [text][1..] == [];
  }

  /** Typing the name of a `please_wait_*` state at `start` skips the
      dashboard state: the stored name is then not a dashboard key, so the
      next step lands in `unknown_dashboard`. */
  lemma TypedStateName(d: Dashboard, rec: Record, input: string, text: string)
    requires DashboardName(input) == PleaseWait(d).Name()
    ensures Run(Start, rec, [input, text]) == At(UnknownDashboard, rec.(name := PleaseWait(d).Name()))
  {
    StateNamedName(PleaseWait(d));
    RunStep(Start, rec, [input, text], PleaseWait(d));
    assert [input, text][1..] == [text];
    StateNameUnlinked(d);
    UnlinkedRun(d, rec.(name := PleaseWait(d).Name()), text);
  }

  /** An input that normalises to `unknown_dashboard` at `start` goes
      straight to that state, since it is a key of the flow. */
  lemma TypedUnknownDashboard(rec: Record, input: string)
    requires DashboardName(input) == UnknownDashboard.Name()
    ensures Run(Start, rec, [input]) == At(UnknownDashboard, rec.(name := "unknown_dashboard"))
  {
    var rec1 := rec.(name := UnknownDashboard.Name());
    assert Transition(Start, rec, input) == Reply(rec1, Goto(UnknownDashboard.Name(), None));
    StateNamedName(UnknownDashboard);
    RunStep(Start, rec, [input], UnknownDashboard);
    assert [input][1..] == [];
  }

  lemma UnknownDashboardLower(text: string)
    requires text == "Unknown Dashboard"
    ensures Lower(text) == "unknown" + " " + "dashboard"
  {
    LowerPointwise(text, "unknown dashboard");
  }

  lemma UnknownDashboardWords()
    ensures NoSpace("unknown") && NoSpace("dashboard") && '.' !in "unknown_dashboard"
    ensures "unknown" + "_" + "dashboard" == "unknown_dashboard"
  {
  }

  /** "Unknown Dashboard" is one such input. */
  lemma UnknownDashboardTyped(text: string)
    requires text == "Unknown Dashboard"
    ensures DashboardName(text) == UnknownDashboard.Name()
  {
    UnknownDashboardLower(text);
    UnknownDashboardWords();
    TwoWordName(text, "unknown", "dashboard");
  }
}
