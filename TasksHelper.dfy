/**
 * The decisions behind the task sidebar's due-date checkboxes. The session maps
 * keys to strings; a key that is absent stands for a nil session value. The
 * value a view stores is the comma-joined list of the filters left checked.
 */
module TasksHelper {
  import opened RubyString

  /** The session key that holds a view's checked filters. */
  function FilterKey(view: string): string
  {
    "filter_by_task_" + view
  }

  /** Different views never share a filter key. */
  lemma FilterKeyInjective(v1: string, v2: string)
    requires FilterKey(v1) == FilterKey(v2)
    ensures v1 == v2
  {
    assert v1 == FilterKey(v1)[15..] && v2 == FilterKey(v2)[15..];
  }

  /**
   * Whether the checkbox for filter is checked in view, given how many tasks it holds.
   * A filter checked by a stored value is one of its entries: it holds no comma, is
   * made of the value's characters, and is blank when the value is blank.
   */
  function FilterChecked(session: map<string, string>, view: string, filter: string, count: int): (checked: bool)
    ensures FilterKey(view) in session && checked ==>
              ',' !in filter && forall ch :: ch in filter ==> ch in session[FilterKey(view)]
    ensures FilterKey(view) in session && IsBlank(session[FilterKey(view)]) && checked ==> IsBlank(filter)
  {
    var name := FilterKey(view);
    if name in session then
      var value := session[name];
      SplitEntries(value, ',');
      if IsBlank(value) then
        SplitOfBlankIsBlank(value, ',');
        filter in Split(value, ',')
      else filter in Split(value, ',')
    else count > 0
  }

  /**
   * Whether every filter of the view is unchecked, which empties the task list: it holds
   * when nothing is stored, and when the stored value is blank no real filter is checked.
   */
  function AllFilteredOut(session: map<string, string>, view: string): (r: bool)
    ensures FilterKey(view) !in session ==> r
    ensures r && FilterKey(view) in session ==>
              forall f, count :: !IsBlank(f) ==> !FilterChecked(session, view, f, count)
    ensures !r ==> FilterKey(view) in session && exists i :: 0 <= i < |session[FilterKey(view)]| &&
                                                           !IsSpace(session[FilterKey(view)][i])
    ensures FilterKey(view) in session && !IsBlank(session[FilterKey(view)]) ==> !r
  {
    var name := FilterKey(view);
    name !in session || IsBlank(session[name])
  }

  /** With nothing stored for the view, the checkbox is checked exactly when it has tasks. */
  lemma CheckedByDefault(session: map<string, string>, view: string, filter: string, count: int)
    requires FilterKey(view) !in session
    ensures FilterChecked(session, view, filter, count) <==> count > 0
  {
  }

  /** Once the view stores a value, the task count has no effect on the checkbox. */
  lemma CheckedIgnoresCount(session: map<string, string>, view: string, filter: string, c1: int, c2: int)
    requires FilterKey(view) in session
    ensures FilterChecked(session, view, filter, c1) == FilterChecked(session, view, filter, c2)
  {
  }

  /**
   * When the view stores the comma-joined list of the filters a user left checked,
   * a checkbox is checked exactly when its filter is one of those entries.
   */
  lemma CheckedIffStored(session: map<string, string>, view: string, filters: seq<string>, filter: string, count: int)
    requires forall f :: f in filters ==> ',' !in f
    requires filters == [] || filters[|filters| - 1] != ""
    requires FilterKey(view) in session && session[FilterKey(view)] == Join(filters, ',')
    ensures FilterChecked(session, view, filter, count) <==> filter in filters
  {
    SplitJoin(filters, ',');
  }

  /** A stored empty string checks no filter at all, whatever the counts. */
  lemma EmptyValueChecksNothing(session: map<string, string>, view: string, filter: string, count: int)
    requires FilterKey(view) in session && session[FilterKey(view)] == ""
    ensures !FilterChecked(session, view, filter, count)
  {
    assert Fields("", ',') == [""];
  }

  /** Entries are matched whole: a filter that is only part of an entry is not checked. */
  lemma WholeEntryMatch(session: map<string, string>, view: string, count: int)
    requires FilterKey(view) in session && session[FilterKey(view)] == "due_asap,overdue"
    ensures !FilterChecked(session, view, "due", count)
    ensures FilterChecked(session, view, "overdue", count)
  {
    SplitJoin(["due_asap", "overdue"], ',');
    assert Join(["due_asap", "overdue"], ',') == "due_asap,overdue";
  }
}
