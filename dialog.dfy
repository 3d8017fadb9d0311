/** The conversation record `{name, type}` that the `path` handlers of the
    flow update in place, with one method per kind of transition. */
module Dialog {
  import opened Wrappers
  import opened Catalog
  import opened Links
  import opened Matcher
  import opened FilterClause
  import opened Naming
  import opened Flow

  class Conversation {
    /** The dashboard key chosen at `start`. */
    var name: string
    /** The normalised filter choice (the source's `type` field). */
    var filterType: string

    /** The record begins with both fields empty. */
    constructor ()
      ensures name == "" && filterType == ""
    {
      name := "";
      filterType := "";
    }

    /** The record as a value, to compare with the transition function. */
    function Snapshot(): Record
      reads this
    {
      Record(name, filterType)
    }

    /** `start`: stores the normalised choice as the name and returns that
        same string as the next state's name; the filter type is kept. */
    method Start(input: string) returns (next: string)
      modifies this
      ensures name == DashboardName(input) && filterType == old(filterType)
      ensures next == name
    {
      name := DashboardName(input);
      next := name;
    }

    /** A dashboard state: stores the normalised filter choice and moves to
        that dashboard's `please_wait_*` state; the name is kept. */
    method ChooseFilter(d: Dashboard, input: string) returns (next: string)
      modifies this
      ensures filterType == FilterType(input) && name == old(name)
      ensures next == "please_wait_" + d.Key() && next == FlowState.PleaseWait(d).Name()
    {
      filterType := FilterType(input);
      PleaseWaitName(d);
      next := "please_wait_" + d.Key();
    }

    /** A `please_wait_*` state: looks the stored name up, picks the first
        mentioned dimension and the mentioned values of it, and opens the
        filtered link; a missing catalog entry is a thrown TypeError. The
        record is not changed. */
    method PleaseWait(d: Dashboard, input: string) returns (step: Step)
      ensures step == FetchAndOpen(d, name, input)
    {
      var link := GetPowerBILink(name);
      if link.None? {
        return Goto("unknown_dashboard", None);
      }
      var dims := GetFilters(name, input);
      if dims.TypeError? {
        return Fault;
      }
      var filterName := First(dims.value);
      var values := GetFilterValues(name, filterName, input);
      if values.TypeError? {
        return Fault;
      }
      var newLink := AddFilters(link.value, d.Table(), filterName.value, values.value);
      return Goto("end", Some(newLink));
    }

    /** `flow[s].path(input)` together with its `setState`: the new record
        and the returned step are exactly those of `Transition`. */
    method Path(s: FlowState, input: string) returns (step: Step)
      modifies this
      ensures Reply(Snapshot(), step) == Transition(s, old(Snapshot()), input)
    {
      match s
      case Start =>
        var next := Start(input);
        step := Goto(next, None);
      case ChooseFilter(d) =>
        var next := ChooseFilter(d, input);
        step := Goto(next, None);
      case PleaseWait(d) =>
        step := PleaseWait(d, input);
      case UnknownDashboard =>
        step := Goto("end", None);
      case End =>
        step := Goto("loop", None);
      case Loop =>
        step := Goto("loop", None);
    }
  }
}
