/**
 * The list-view state behind the opportunities index: the stage filter, current
 * page and current query kept in the session, the list each action shows, the
 * sidebar totals, and the sharing settings an update stores. The pure functions
 * come first; the Controller class at the end holds the session state and the
 * opportunities table, and its methods are the controller's actions.
 */
module Opportunities {
  import opened Wrappers
  import opened RubyString
  import opened Users

  /** Who may see a record; new records are Private. */
  datatype Access = Private | Public | Shared

  /** An opportunity, reduced to the fields the list view and sharing depend on. */
  datatype Opportunity = Opportunity(
    id: nat,
    name: string,
    stage: string,
    access: Access,
    permissions: set<UserId>)

  /**
   * The fields a create or update form submits. A form may leave a field out (None),
   * and a save then keeps the record's current value of that field.
   */
  datatype Attributes = Attributes(name: Option<string>, stage: Option<string>, access: Option<Access>)

  /** The value a save stores for one field: the submitted one, or the current one when none was submitted. */
  function Submitted<T>(field: Option<T>, current: T): T
  {
    if field.Some? then field.value else current
  }

  // ---------------------------------------------------------------------------
  // Narrowing the list

  /**
   * Whether the stage filter stored in the session lets the record through: with no
   * filter stored every stage passes; otherwise the stage must be one of the stored
   * comma-separated entries.
   */
  predicate StageSelected(o: Opportunity, filter: Option<string>)
  {
    filter.None? || o.stage in Split(filter.value, ',')
  }

  /** Whether q occurs in s starting at position i. */
  predicate OccursAt(s: string, q: string, i: int)
  {
    0 <= i && i + |q| <= |s| && s[i..i + |q|] == q
  }

  /** Whether q occurs in s as a contiguous substring: exactly when it occurs at some position. */
  function Contains(s: string, q: string): (r: bool)
    ensures r <==> exists i :: OccursAt(s, q, i)
    decreases |s|
  {
    if q <= s then
      assert OccursAt(s, q, 0);
      true
    else if |s| == 0 then false
    else
      var t := s[1..];
      assert forall i :: OccursAt(t, q, i) ==> OccursAt(s, q, i + 1) by {
        forall i | OccursAt(t, q, i)
          ensures OccursAt(s, q, i + 1)
        {
          assert s[i + 1..i + 1 + |q|] == t[i..i + |q|];
        }
      }
      assert forall i :: OccursAt(s, q, i) ==> i > 0 && OccursAt(t, q, i - 1) by {
        forall i | OccursAt(s, q, i)
          ensures i > 0 && OccursAt(t, q, i - 1)
        {
          assert t[i - 1..i - 1 + |q|] == s[i..i + |q|];
        }
      }
      Contains(t, q)
  }

  /** Every character of a contained string is a character of the container. */
  lemma {:induction false} ContainsChars(s: string, q: string)
    requires Contains(s, q)
    ensures forall ch :: ch in q ==> ch in s
    decreases |s|
  {
    if !(q <= s) {
      ContainsChars(s[1..], q);
      assert forall ch :: ch in s[1..] ==> ch in s;
    } else {
      assert forall ch :: ch in q ==> ch in s[..|q|];
    }
  }

  /** A string that lacks one of the characters of q does not contain q. */
  lemma MissingCharNotContained(s: string, q: string, ch: char)
    requires ch in q && ch !in s
    ensures !Contains(s, q)
  {
    if Contains(s, q) {
      ContainsChars(s, q);
    }
  }

  /** Whether the stored query lets the record through: a missing or blank query matches everything. */
  predicate QueryMatches(o: Opportunity, query: Option<string>)
  {
    query.None? || IsBlank(query.value) || Contains(o.name, query.value)
  }

  /** Whether the record belongs in the list: visible to the user and passing both filters. */
  predicate Selected(o: Opportunity, mine: Opportunity -> bool, filter: Option<string>, query: Option<string>)
  {
    mine(o) && StageSelected(o, filter) && QueryMatches(o, query)
  }

  /**
   * The records shown before pagination, in table order: a record is listed exactly
   * when it is in the table, the user may see it, and it passes the stage filter and
   * the query.
   */
  function Listed(records: seq<Opportunity>, mine: Opportunity -> bool,
                  filter: Option<string>, query: Option<string>): (r: seq<Opportunity>)
    ensures |r| <= |records|
    ensures forall o :: o in r <==> o in records && Selected(o, mine, filter, query)
  {
    if records == [] then []
    else
      var rest := Listed(records[1..], mine, filter, query);
      assert forall o :: o in records <==> o == records[0] || o in records[1..];
      if Selected(records[0], mine, filter, query) then [records[0]] + rest else rest
  }

  /** The records the user may see, before any filter. */
  function Visible(records: seq<Opportunity>, mine: Opportunity -> bool): (r: seq<Opportunity>)
    ensures forall o :: o in r <==> o in records && mine(o)
  {
    Listed(records, mine, None, None)
  }

  /** A stage filter keeps a record exactly when its stage is one of the stored entries. */
  lemma StageFilterKeeps(records: seq<Opportunity>, mine: Opportunity -> bool, entries: seq<string>, o: Opportunity)
    requires forall e :: e in entries ==> ',' !in e
    requires entries == [] || entries[|entries| - 1] != ""
    requires o in records && mine(o)
    ensures o in Listed(records, mine, Some(Join(entries, ',')), None) <==> o.stage in entries
  {
    SplitJoin(entries, ',');
  }

  // ---------------------------------------------------------------------------
  // Pagination

  function Min(a: int, b: int): int { if a <= b then a else b }

  /** A 1-based page never starts before the first record. */
  lemma PageStartBounds(page: int, perPage: int)
    requires page >= 1 && perPage >= 1
    ensures (page - 1) * perPage >= 0
  {
    if page > 1 {
      PageStartBounds(page - 1, perPage);
      assert (page - 1) * perPage == (page - 2) * perPage + perPage;
    }
  }

  /** The records on a 1-based page of perPage records each. */
  function PageOf(xs: seq<Opportunity>, page: int, perPage: int): (r: seq<Opportunity>)
    requires page >= 1 && perPage >= 1
    ensures |r| <= perPage
    ensures r == [] <==> |xs| <= (page - 1) * perPage
    ensures forall i :: 0 <= i < |r| ==> (page - 1) * perPage + i < |xs| && r[i] == xs[(page - 1) * perPage + i]
  {
    PageStartBounds(page, perPage);
    var start := (page - 1) * perPage;
    if start >= |xs| then []
    else
      var end := Min(start + perPage, |xs|);
      assert start < end <= |xs| && end - start <= perPage;
      xs[start..end]
  }

  /** Every record of the list is on exactly the page its position says. */
  lemma PageOfCovers(xs: seq<Opportunity>, perPage: int, i: nat)
    requires perPage >= 1 && i < |xs|
    ensures i % perPage < |PageOf(xs, i / perPage + 1, perPage)|
    ensures PageOf(xs, i / perPage + 1, perPage)[i % perPage] == xs[i]
  {
    var page := i / perPage + 1;
    var start := (page - 1) * perPage;
    assert start == i / perPage * perPage;
    assert start + i % perPage == i;
    assert start <= i < start + perPage;
  }

  // ---------------------------------------------------------------------------
  // Sidebar totals

  /** A key of the sidebar totals: one per stage, plus all and other. */
  datatype Bucket = StageBucket(key: string) | AllBucket | OtherBucket

  /** How many records are in the given stage. */
  function CountStage(rs: seq<Opportunity>, k: string): nat
  {
    if rs == [] then 0
    else CountStage(rs[..|rs| - 1], k) + (if rs[|rs| - 1].stage == k then 1 else 0)
  }

  /** How many records are in none of the given stages. */
  function CountOther(rs: seq<Opportunity>, keys: seq<string>): nat
  {
    if rs == [] then 0
    else CountOther(rs[..|rs| - 1], keys) + (if rs[|rs| - 1].stage in keys then 0 else 1)
  }

  /** The sum of the stage counts over the given stage keys. */
  function SumStages(rs: seq<Opportunity>, keys: seq<string>): nat
  {
    if keys == [] then 0
    else SumStages(rs, keys[..|keys| - 1]) + CountStage(rs, keys[|keys| - 1])
  }

  predicate Distinct(keys: seq<string>)
  {
    forall i, j :: 0 <= i < j < |keys| ==> keys[i] != keys[j]
  }

  /** The buckets of the totals for the given stage keys. */
  function Buckets(keys: seq<string>): set<Bucket>
  {
    {AllBucket, OtherBucket} + set k | k in keys :: StageBucket(k)
  }

  /**
   * The sidebar totals over the records the user may see: a count per stage key,
   * the records whose stage is none of the keys under other, and every record under all.
   */
  function StageTotals(visible: seq<Opportunity>, keys: seq<string>): (t: map<Bucket, nat>)
    ensures forall b :: b in t ==> b.AllBucket? || b.OtherBucket? || b.key in keys
    ensures AllBucket in t && OtherBucket in t && forall k :: k in keys ==> StageBucket(k) in t
  {
    map b | b in Buckets(keys) ::
      match b
      case AllBucket => |visible|
      case OtherBucket => CountOther(visible, keys)
      case StageBucket(k) => CountStage(visible, k)
  }

  /** Adding a record adds one to the stage buckets exactly when its stage is one of the keys. */
  lemma {:induction false} SumStagesSnoc(rs: seq<Opportunity>, o: Opportunity, keys: seq<string>)
    requires Distinct(keys)
    ensures SumStages(rs + [o], keys) == SumStages(rs, keys) + (if o.stage in keys then 1 else 0)
  {
    assert (rs + [o])[..|rs + [o]| - 1] == rs;
    if keys != [] {
      var init := keys[..|keys| - 1];
      assert forall k :: k in keys <==> k in init || k == keys[|keys| - 1];
      assert keys[|keys| - 1] !in init;
      SumStagesSnoc(rs, o, init);
    }
  }

  /** Each record is counted once: the stage buckets and other add up to all. */
  lemma {:induction false} TotalsBalance(visible: seq<Opportunity>, keys: seq<string>)
    requires Distinct(keys)
    ensures SumStages(visible, keys) + StageTotals(visible, keys)[OtherBucket] == StageTotals(visible, keys)[AllBucket]
  {
    BalanceCounts(visible, keys);
  }

  lemma {:induction false} BalanceCounts(rs: seq<Opportunity>, keys: seq<string>)
    requires Distinct(keys)
    ensures SumStages(rs, keys) + CountOther(rs, keys) == |rs|
  {
    if rs == [] {
      SumStagesEmpty(keys);
    } else {
      var init := rs[..|rs| - 1];
      BalanceCounts(init, keys);
      assert init + [rs[|rs| - 1]] == rs;
      SumStagesSnoc(init, rs[|rs| - 1], keys);
    }
  }

  lemma {:induction false} SumStagesEmpty(keys: seq<string>)
    ensures SumStages([], keys) == 0
  {
    if keys != [] {
      SumStagesEmpty(keys[..|keys| - 1]);
    }
  }

  // ---------------------------------------------------------------------------
  // Sharing and table updates

  /**
   * The record after a form with these attributes and shared-user list is saved: it
   * keeps its id, takes each submitted name, stage and access and keeps the fields the
   * form leaves out. A record that ends up Shared is granted exactly the submitted
   * users, and any other record has no grants.
   */
  function Revised(o: Opportunity, attrs: Attributes, users: set<UserId>): (r: Opportunity)
    ensures r.id == o.id
    ensures attrs.name.Some? ==> r.name == attrs.name.value
    ensures attrs.name.None? ==> r.name == o.name
    ensures attrs.stage.Some? ==> r.stage == attrs.stage.value
    ensures attrs.stage.None? ==> r.stage == o.stage
    ensures attrs.access.Some? ==> r.access == attrs.access.value
    ensures attrs.access.None? ==> r.access == o.access
    ensures r.access == Shared ==> r.permissions == users
    ensures r.access != Shared ==> r.permissions == {}
  {
    var access := Submitted(attrs.access, o.access);
    Opportunity(o.id, Submitted(attrs.name, o.name), Submitted(attrs.stage, o.stage), access,
                if access == Shared then users else {})
  }

  /** Saving the same form twice gives the same record as saving it once. */
  lemma RevisedIdempotent(o: Opportunity, attrs: Attributes, users: set<UserId>)
    ensures Revised(Revised(o, attrs, users), attrs, users) == Revised(o, attrs, users)
  {
  }

  /** A complete form overwrites every revised field: of the old record only the id survives. */
  lemma RevisedForgetsOld(o1: Opportunity, o2: Opportunity, attrs: Attributes, users: set<UserId>)
    requires o1.id == o2.id
    requires attrs.name.Some? && attrs.stage.Some? && attrs.access.Some?
    ensures Revised(o1, attrs, users) == Revised(o2, attrs, users)
  {
  }

  /** A form that submits nothing changes only the grants, which follow the record's access. */
  lemma RevisedEmptyForm(o: Opportunity, users: set<UserId>)
    ensures Revised(o, Attributes(None, None, None), users)
            == o.(permissions := if o.access == Shared then users else {})
  {
  }

  /** Whether the table has a record with the id. */
  predicate HasId(records: seq<Opportunity>, id: nat)
  {
    exists i :: 0 <= i < |records| && records[i].id == id
  }

  /** Whether no two records of the table share an id, as rows of one database table. */
  predicate UniqueIds(records: seq<Opportunity>)
  {
    forall i, j :: 0 <= i < j < |records| ==> records[i].id != records[j].id
  }

  /**
   * The table with every record of the id revised. Positions and ids are kept, so the
   * same ids are present and ids stay unique; records of other ids are untouched, and
   * an id that is absent changes nothing.
   */
  function ReviseById(records: seq<Opportunity>, id: nat, attrs: Attributes, users: set<UserId>): (r: seq<Opportunity>)
    ensures |r| == |records|
    ensures forall i :: 0 <= i < |records| ==> r[i].id == records[i].id
    ensures forall i :: 0 <= i < |records| && records[i].id != id ==> r[i] == records[i]
    ensures forall k :: HasId(r, k) <==> HasId(records, k)
    ensures UniqueIds(records) ==> UniqueIds(r)
    ensures !HasId(records, id) ==> r == records
    ensures forall i :: 0 <= i < |records| && records[i].id == id ==> r[i] == Revised(records[i], attrs, users)
  {
    seq(|records|, i requires 0 <= i < |records| =>
      if records[i].id == id then Revised(records[i], attrs, users) else records[i])
  }

  /**
   * What an update writes to the record of the id: each submitted field, the old value
   * of each field left out, and the submitted users as grants exactly when it ends up Shared.
   */
  lemma ReviseByIdWrites(records: seq<Opportunity>, id: nat, attrs: Attributes, users: set<UserId>, i: nat)
    requires i < |records| && records[i].id == id
    ensures var r := ReviseById(records, id, attrs, users)[i];
            r.id == id &&
            r.name == (if attrs.name.Some? then attrs.name.value else records[i].name) &&
            r.stage == (if attrs.stage.Some? then attrs.stage.value else records[i].stage) &&
            r.access == (if attrs.access.Some? then attrs.access.value else records[i].access) &&
            r.permissions == (if r.access == Shared then users else {})
  {
  }

  /** The table without the record of the id, the others kept in order. */
  function RemoveById(records: seq<Opportunity>, id: nat): (r: seq<Opportunity>)
    ensures |r| <= |records|
    ensures forall o :: o in r <==> o in records && o.id != id
  {
    if records == [] then []
    else
      var rest := RemoveById(records[1..], id);
      assert forall o :: o in records <==> o == records[0] || o in records[1..];
      if records[0].id == id then rest else [records[0]] + rest
  }

  /** The tail of a table with unique ids has unique ids, none of them the head's. */
  lemma UniqueTail(records: seq<Opportunity>)
    requires records != [] && UniqueIds(records)
    ensures UniqueIds(records[1..])
    ensures !HasId(records[1..], records[0].id)
  {
    var tail := records[1..];
    assert forall i :: 0 <= i < |tail| ==> tail[i] == records[i + 1];
  }

  /** An id that is absent removes nothing. */
  lemma {:induction false} RemoveByIdAbsent(records: seq<Opportunity>, id: nat)
    requires !HasId(records, id)
    ensures RemoveById(records, id) == records
  {
    if records != [] {
      var tail := records[1..];
      forall i | 0 <= i < |tail|
        ensures tail[i].id != id
      {
        assert tail[i] == records[i + 1];
      }
      RemoveByIdAbsent(tail, id);
      assert records[0].id != id;
      assert RemoveById(records, id) == [records[0]] + RemoveById(tail, id);
      assert [records[0]] + tail == records;
    }
  }

  /** A record of the table has its id in the table. */
  lemma InTableHasId(records: seq<Opportunity>, o: Opportunity)
    requires o in records
    ensures HasId(records, o.id)
  {
    var k :| 0 <= k < |records| && records[k] == o;
    assert records[k].id == o.id;
  }

  /** A record put in front of a table with unique ids and without its id keeps ids unique. */
  lemma ConsUnique(o: Opportunity, rest: seq<Opportunity>)
    requires UniqueIds(rest) && !HasId(rest, o.id)
    ensures UniqueIds([o] + rest)
  {
    var r := [o] + rest;
    forall i, j | 0 <= i < j < |r|
      ensures r[i].id != r[j].id
    {
      assert r[j] == rest[j - 1];
      if i > 0 {
        assert r[i] == rest[i - 1];
      }
    }
  }

  /** Removing records keeps ids unique. */
  lemma {:induction false} RemoveByIdKeepsUnique(records: seq<Opportunity>, id: nat)
    requires UniqueIds(records)
    ensures UniqueIds(RemoveById(records, id))
  {
    if records != [] {
      var tail := records[1..];
      UniqueTail(records);
      RemoveByIdKeepsUnique(tail, id);
      var rest := RemoveById(tail, id);
      if records[0].id != id {
        forall o | o in rest
          ensures o.id != records[0].id
        {
          InTableHasId(tail, o);
        }
        assert !HasId(rest, records[0].id);
        ConsUnique(records[0], rest);
      }
    }
  }

  /** With unique ids, removing an id that is present removes exactly one record. */
  lemma {:induction false} RemoveByIdRemovesOne(records: seq<Opportunity>, id: nat)
    requires UniqueIds(records) && HasId(records, id)
    ensures |RemoveById(records, id)| == |records| - 1
  {
    var tail := records[1..];
    UniqueTail(records);
    if records[0].id == id {
      RemoveByIdAbsent(tail, id);
    } else {
      var k :| 0 <= k < |records| && records[k].id == id;
      assert tail[k - 1].id == id;
      RemoveByIdRemovesOne(tail, id);
    }
  }

  // ---------------------------------------------------------------------------
  // The page after a destroy

  /**
   * The current page after a record is destroyed. From the index page the current page
   * is kept unless it is left without records, in which case the previous page is
   * tried, never going below 1. From anywhere else the page goes back to 1.
   */
  function PageAfterDestroy(remaining: seq<Opportunity>, page: int, perPage: int, fromIndex: bool): (p: int)
    requires page >= 1 && perPage >= 1
    ensures p >= 1
    ensures !fromIndex ==> p == 1
    ensures fromIndex ==> p == page || p == page - 1
    ensures fromIndex && PageOf(remaining, page, perPage) != [] ==> p == page
    ensures fromIndex && page > 1 && PageOf(remaining, page, perPage) == [] ==> p == page - 1
  {
    if !fromIndex then 1
    else if PageOf(remaining, page, perPage) == [] && page > 1 then page - 1
    else page
  }

  /**
   * Destroying one listed record from a page that had records lands on a page that
   * still has records, unless nothing at all is left.
   */
  lemma DestroyLandsOnRecords(before: seq<Opportunity>, remaining: seq<Opportunity>, page: int, perPage: int)
    requires page >= 1 && perPage >= 1
    requires PageOf(before, page, perPage) != []
    requires |remaining| + 1 >= |before|
    ensures PageOf(remaining, PageAfterDestroy(remaining, page, perPage, true), perPage) != [] || remaining == []
  {
    if PageOf(remaining, page, perPage) == [] && page > 1 {
      assert |remaining| == (page - 1) * perPage;
      assert (page - 1) * perPage == (page - 2) * perPage + perPage;
    }
  }

  /** Page 42 of a list left empty steps back exactly one page, to 41; page 1 stays 1. */
  lemma DestroyStepsBackOnePage(perPage: int)
    requires perPage >= 1
    ensures PageAfterDestroy([], 42, perPage, true) == 41
    ensures PageAfterDestroy([], 1, perPage, true) == 1
    ensures PageAfterDestroy([], 42, perPage, false) == 1
  {
  }

  // ---------------------------------------------------------------------------
  // The controller

  /** The template an action renders. */
  datatype Template = IndexTemplate | CreateTemplate | UpdateTemplate | DestroyTemplate

  /**
   * What an action exposes: the template, the list of opportunities (None when the
   * action does not load it) and the sidebar totals (None when not computed).
   */
  datatype Response = Response(
    template: Template,
    opportunities: Option<seq<Opportunity>>,
    stageTotal: Option<map<Bucket, nat>>)

  datatype Failure = InvalidPage | RecordNotFound

  /**
   * The opportunities controller across the requests of one session. The session
   * keys filter_by_opportunity_stage, opportunities_current_page and
   * opportunities_current_query are fields; so is the opportunities table. The
   * visibility rule of the current user, the page size and the stage keys of the
   * settings are fixed for the session.
   */
  class Controller {
    var filterByStage: Option<string>
    var currentPage: int
    var currentQuery: Option<string>
    var records: seq<Opportunity>
    const mine: Opportunity -> bool
    const perPage: int
    const stageKeys: seq<string>

    ghost predicate Valid()
      reads this
    {
      currentPage >= 1 && perPage >= 1 && Distinct(stageKeys) && UniqueIds(records)
    }

    constructor (records: seq<Opportunity>, mine: Opportunity -> bool, perPage: int, stageKeys: seq<string>,
                 filterByStage: Option<string>, currentPage: int, currentQuery: Option<string>)
      requires currentPage >= 1 && perPage >= 1 && Distinct(stageKeys) && UniqueIds(records)
      ensures Valid()
      ensures this.records == records && this.mine == mine && this.perPage == perPage
      ensures this.stageKeys == stageKeys && this.filterByStage == filterByStage
      ensures this.currentPage == currentPage && this.currentQuery == currentQuery
    {
      this.records := records;
      this.mine := mine;
      this.perPage := perPage;
      this.stageKeys := stageKeys;
      this.filterByStage := filterByStage;
      this.currentPage := currentPage;
      this.currentQuery := currentQuery;
    }

    /** The list under the session's stage filter and query, before pagination. */
    function Filtered(): seq<Opportunity>
      reads this
    {
      Listed(records, mine, filterByStage, currentQuery)
    }

    /** The records on the current page. */
    function CurrentList(): seq<Opportunity>
      reads this
      requires Valid()
    {
      PageOf(Filtered(), currentPage, perPage)
    }

    /** The sidebar totals over the records the user may see. */
    function Totals(): map<Bucket, nat>
      reads this
    {
      StageTotals(Visible(records, mine), stageKeys)
    }

    /**
     * index: an explicit page parameter becomes the current page and is kept in the
     * session; without one the saved page is used. A page below 1 is rejected and
     * nothing changes. The sidebar totals are always computed.
     */
    method Index(page: Option<int>) returns (r: Result<Response, Failure>)
      requires Valid()
      modifies this
      ensures Valid()
      ensures records == old(records) && filterByStage == old(filterByStage) && currentQuery == old(currentQuery)
      ensures page.Some? && page.value < 1 ==> r == Err(InvalidPage) && currentPage == old(currentPage)
      ensures !(page.Some? && page.value < 1) ==>
                currentPage == (if page.Some? then page.value else old(currentPage)) &&
                r == Ok(Response(IndexTemplate, Some(CurrentList()), Some(Totals())))
    {
      if page.Some? {
        if page.value < 1 {
          return Err(InvalidPage);
        }
        currentPage := page.value;
      }
      r := Ok(Response(IndexTemplate, Some(CurrentList()), Some(Totals())));
    }

    /** filter: stores the submitted stage list (nil clears it) and goes back to page 1. */
    method Filter(stage: Option<string>) returns (r: Response)
      requires Valid()
      modifies this
      ensures Valid()
      ensures filterByStage == stage && currentPage == 1
      ensures records == old(records) && currentQuery == old(currentQuery)
      ensures r == Response(IndexTemplate, Some(CurrentList()), None)
    {
      filterByStage := stage;
      currentPage := 1;
      r := Response(IndexTemplate, Some(CurrentList()), None);
    }

    /** search: stores the query in the session and shows the first page of matching records. */
    method Search(query: string) returns (r: Response)
      requires Valid()
      modifies this
      ensures Valid()
      ensures currentQuery == Some(query) && currentPage == 1
      ensures records == old(records) && filterByStage == old(filterByStage)
      ensures r == Response(IndexTemplate, Some(CurrentList()), None)
    {
      currentQuery := Some(query);
      currentPage := 1;
      r := Response(IndexTemplate, Some(CurrentList()), None);
    }

    /**
     * create: adds the record when the save succeeds; only then, and only when the
     * request came from the index page, are the list and the sidebar totals reloaded.
     */
    method Create(id: nat, attrs: Attributes, users: set<UserId>, saved: bool, fromIndex: bool) returns (r: Response)
      requires Valid()
      requires !HasId(records, id)
      modifies this
      ensures Valid()
      ensures records == if saved then old(records) + [Revised(Opportunity(id, "", "", Private, {}), attrs, users)]
                         else old(records)
      ensures filterByStage == old(filterByStage) && currentPage == old(currentPage) && currentQuery == old(currentQuery)
      ensures r.template == CreateTemplate
      ensures r.opportunities == if saved && fromIndex then Some(CurrentList()) else None
      ensures r.stageTotal == if saved && fromIndex then Some(Totals()) else None
    {
      if saved {
        var added := Revised(Opportunity(id, "", "", Private, {}), attrs, users);
        assert forall i :: 0 <= i < |records| ==> records[i].id != added.id;
        records := records + [added];
      }
      if saved && fromIndex {
        r := Response(CreateTemplate, Some(CurrentList()), Some(Totals()));
      } else {
        r := Response(CreateTemplate, None, None);
      }
    }

    /**
     * update: revises the record when the save succeeds, storing the submitted access
     * and shared users; the sidebar totals are computed only after a successful save
     * requested from the index page. An unknown id changes nothing.
     */
    method Update(id: nat, attrs: Attributes, users: set<UserId>, saved: bool, fromIndex: bool)
      returns (r: Result<Response, Failure>)
      requires Valid()
      modifies this
      ensures Valid()
      ensures filterByStage == old(filterByStage) && currentPage == old(currentPage) && currentQuery == old(currentQuery)
      ensures !HasId(old(records), id) ==> r == Err(RecordNotFound) && records == old(records)
      ensures HasId(old(records), id) ==>
                records == (if saved then ReviseById(old(records), id, attrs, users) else old(records)) &&
                r == Ok(Response(UpdateTemplate, None, if saved && fromIndex then Some(Totals()) else None))
    {
      if !HasId(records, id) {
        return Err(RecordNotFound);
      }
      if saved {
        records := ReviseById(records, id, attrs, users);
      }
      r := Ok(Response(UpdateTemplate, None, if saved && fromIndex then Some(Totals()) else None));
    }

    /**
     * destroy: removes the record. From the index page the totals are recomputed and the
     * current page is reloaded; when it is left empty the previous page is tried and the
     * index is rendered. From a related asset's page the current page goes back to 1.
     */
    method Destroy(id: nat, fromIndex: bool) returns (r: Result<Response, Failure>)
      requires Valid()
      modifies this
      ensures Valid()
      ensures filterByStage == old(filterByStage) && currentQuery == old(currentQuery)
      ensures !HasId(old(records), id) ==>
                r == Err(RecordNotFound) && records == old(records) && currentPage == old(currentPage)
      ensures HasId(old(records), id) ==>
                records == RemoveById(old(records), id) && |records| == |old(records)| - 1 &&
                currentPage == PageAfterDestroy(Filtered(), old(currentPage), perPage, fromIndex) &&
                r.Ok? &&
                r.value.template == (if fromIndex && PageOf(Filtered(), old(currentPage), perPage) == []
                                     then IndexTemplate else DestroyTemplate) &&
                r.value.opportunities == (if fromIndex then Some(CurrentList()) else None) &&
                r.value.stageTotal == (if fromIndex then Some(Totals()) else None)
    {
      if !HasId(records, id) {
        return Err(RecordNotFound);
      }
      RemoveByIdKeepsUnique(records, id);
      RemoveByIdRemovesOne(records, id);
      records := RemoveById(records, id);
      if fromIndex {
        var shown := PageOf(Filtered(), currentPage, perPage);
        if shown == [] {
          if currentPage > 1 {
            currentPage := currentPage - 1;
          }
          r := Ok(Response(IndexTemplate, Some(CurrentList()), Some(Totals())));
        } else {
          r := Ok(Response(DestroyTemplate, Some(shown), Some(Totals())));
        }
      } else {
        currentPage := 1;
        r := Ok(Response(DestroyTemplate, None, None));
      }
    }
  }
}
