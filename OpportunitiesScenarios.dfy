/**
 * The cases of the opportunities controller spec, replayed against the model:
 * lemmas for the list functions, and client methods that drive the Controller
 * through its actions and check what its contracts let a caller conclude.
 */
module OpportunitiesScenarios {
  import opened Wrappers
  import opened RubyString
  import opened Opportunities

  function Record(id: nat, name: string, stage: string): Opportunity
  {
    Opportunity(id, name, stage, Private, {})
  }

  const Qualification: Opportunity := Record(1, "q", "qualification")
  const Prospecting: Opportunity := Record(2, "p", "prospecting")
  const Analysis: Opportunity := Record(3, "a", "analysis")

  lemma TwoStageEntries()
    ensures Split("prospecting,qualification", ',') == ["prospecting", "qualification"]
  {
    var xs := ["prospecting", "qualification"];
    assert ',' !in xs[0] && ',' !in xs[1];
    assert forall x :: x in xs ==> x == xs[0] || x == xs[1];
    assert xs[..1] == [xs[0]];
    assert Join(xs, ',') == xs[0] + [','] + xs[1];
    assert xs[0] + [','] + xs[1] == "prospecting,qualification";
    SplitJoin(xs, ',');
  }

  lemma OneStageEntry()
    ensures Split("prospecting", ',') == ["prospecting"]
  {
    SplitJoin(["prospecting"], ',');
  }

  /** A filter of "prospecting,qualification" keeps those two stages and drops analysis. */
  lemma StageFilterScenario(mine: Opportunity -> bool)
    requires forall o :: mine(o)
    ensures Listed([Qualification, Prospecting, Analysis], mine, Some("prospecting,qualification"), None)
            == [Qualification, Prospecting]
  {
    var filter := Some("prospecting,qualification");
    TwoStageEntries();
    assert Selected(Qualification, mine, filter, None);
    assert Selected(Prospecting, mine, filter, None);
    assert !Selected(Analysis, mine, filter, None) by {
      assert "analysis" != "prospecting" && "analysis" != "qualification";
    }
    var rs := [Qualification, Prospecting, Analysis];
    assert rs[1..] == [Prospecting, Analysis] && rs[1..][1..] == [Analysis] && rs[1..][1..][1..] == [];
    assert Listed([Analysis], mine, filter, None) == [];
    assert Listed([Prospecting, Analysis], mine, filter, None) == [Prospecting];
  }

  const First: Opportunity := Record(1, "The first one", "prospecting")
  const Second: Opportunity := Record(2, "The second one", "prospecting")

  /** A search for "second" keeps "The second one" and drops "The first one". */
  lemma SearchScenario(mine: Opportunity -> bool)
    requires forall o :: mine(o)
    ensures Listed([First, Second], mine, None, Some("second")) == [Second]
  {
    var query := Some("second");
    SecondSelected(mine);
    FirstNotSelected(mine);
    var rs := [First, Second];
    assert rs[1..] == [Second];
    assert Listed([Second][1..], mine, None, query) == [];
    assert Listed([Second], mine, None, query) == [Second];
  }

  lemma SearchIsNotBlank()
    ensures !IsBlank("second")
  {
    assert !IsSpace("second"[0]);
  }

  lemma SecondSelected(mine: Opportunity -> bool)
    requires forall o :: mine(o)
    ensures Selected(Second, mine, None, Some("second"))
  {
    SecondMatches();
  }

  lemma FirstNotSelected(mine: Opportunity -> bool)
    requires forall o :: mine(o)
    ensures !Selected(First, mine, None, Some("second"))
  {
    SearchIsNotBlank();
    FirstDoesNotMatch();
  }

  lemma SecondMatches()
    ensures Contains("The second one", "second")
  {
    assert "The second one"[4..10] == "second";
    assert OccursAt("The second one", "second", 4);
  }

  lemma FirstDoesNotMatch()
    ensures !Contains("The first one", "second")
  {
    assert "second"[2] == 'c';
    assert forall i :: 0 <= i < |"The first one"| ==> "The first one"[i] != 'c';
    MissingCharNotContained("The first one", "second", 'c');
  }

  /** Sidebar totals for stages A and B over records in A, A, Z and no stage. */
  lemma TotalsScenario()
    ensures var t := StageTotals([Record(1, "", "A"), Record(2, "", "A"), Record(3, "", "Z"), Record(4, "", "")], ["A", "B"]);
            t[StageBucket("A")] == 2 && t[StageBucket("B")] == 0 && t[OtherBucket] == 2 && t[AllBucket] == 4
  {
    var r1, r2, r3, r4 := Record(1, "", "A"), Record(2, "", "A"), Record(3, "", "Z"), Record(4, "", "");
    var keys := ["A", "B"];
    var rs := [r1, r2, r3, r4];
    assert rs[..3] == [r1, r2, r3] && [r1, r2, r3][..2] == [r1, r2] && [r1, r2][..1] == [r1] && [r1][..0] == [];
    assert "A" != "B" by { assert "A"[0] != "B"[0]; }
    assert "Z" != "A" by { assert "Z"[0] != "A"[0]; }
    assert "Z" != "B" by { assert "Z"[0] != "B"[0]; }
    assert "Z" !in keys && "" !in keys;
    assert CountStage([r1], "A") == 1 && CountStage([r1, r2], "A") == 2;
    assert CountStage([r1, r2, r3], "A") == 2 && CountStage(rs, "A") == 2;
    assert r1.stage == "A" && r2.stage == "A" && r3.stage == "Z" && r4.stage == "";
    assert CountStage([], "B") == 0;
    assert CountStage([r1], "B") == 0;
    assert CountStage([r1, r2], "B") == 0;
    assert CountStage([r1, r2, r3], "B") == 0 && CountStage(rs, "B") == 0;
    assert CountOther([r1], keys) == 0 && CountOther([r1, r2], keys) == 0;
    assert CountOther([r1, r2, r3], keys) == 1 && CountOther(rs, keys) == 2;
    assert StageBucket("A") in Buckets(keys) && StageBucket("B") in Buckets(keys);
  }

  /** Updating a Public record to Shared with users 7 and 8 stores exactly those two grants. */
  lemma SharingScenario()
    ensures var o := Opportunity(42, "x", "prospecting", Public, {});
            var r := Revised(o, Attributes(Some("Hello"), None, Some(Shared)), {7, 8});
            r.name == "Hello" && r.stage == "prospecting" && r.access == Shared && r.permissions == {7, 8}
  {
  }

  /** Updating only the name of record 42 renames it and keeps its stage and access. */
  lemma RenameScenario()
    ensures var o := Opportunity(42, "x", "prospecting", Private, {});
            var rs := ReviseById([o], 42, Attributes(Some("Hello world"), None, None), {1, 2, 3});
            |rs| == 1 && rs[0].name == "Hello world" && rs[0].stage == "prospecting" && rs[0].access == Private
  {
    var o := Opportunity(42, "x", "prospecting", Private, {});
    ReviseByIdWrites([o], 42, Attributes(Some("Hello world"), None, None), {1, 2, 3}, 0);
  }

  /** Page 42 of a one-record list is empty, and an explicit page becomes the session's page. */
  method PaginationScenario(perPage: int)
    requires perPage >= 1
  {
    var o := Record(1, "x", "prospecting");
    assert UniqueIds([o]);
    var c := new Controller([o], (x: Opportunity) => true, perPage, [], None, 1, None);
    var r := c.Index(Some(42));
    assert c.currentPage == 42 && c.perPage == perPage;
    assert |c.Filtered()| <= 1 <= 41 * perPage;
    assert c.CurrentList() == [];
    assert r.Ok? && r.value.opportunities == Some([]);
  }

  /** Without a page parameter, index stays on the page saved in the session. */
  method SavedPageScenario(perPage: int)
    requires perPage >= 1
  {
    var o := Record(1, "x", "prospecting");
    assert UniqueIds([o]);
    var saved := new Controller([o], (x: Opportunity) => true, perPage, [], None, 42, None);
    var r := saved.Index(None);
    assert saved.currentPage == 42 && saved.perPage == perPage;
    assert |saved.Filtered()| <= 1 <= 41 * perPage;
    assert saved.CurrentList() == [];
    assert r.Ok? && r.value.opportunities == Some([]);
  }

  /** Destroying the only record steps page 42 back to 41, keeps page 1, and resets from elsewhere. */
  method DestroyScenario(perPage: int)
    requires perPage >= 1
  {
    var o := Record(1, "x", "prospecting");
    var c := new Controller([o], (x: Opportunity) => true, perPage, [], None, 42, None);
    assert HasId(c.records, 1) by { assert c.records[0].id == 1; }
    var r := c.Destroy(1, true);
    assert c.records == [];
    assert c.currentPage == 41;
    assert r.Ok? && r.value.template == IndexTemplate && r.value.stageTotal.Some?;

    c := new Controller([o], (x: Opportunity) => true, perPage, [], None, 1, None);
    assert HasId(c.records, 1) by { assert c.records[0].id == 1; }
    r := c.Destroy(1, true);
    assert c.currentPage == 1;
    assert r.Ok? && r.value.template == IndexTemplate;

    c := new Controller([o], (x: Opportunity) => true, perPage, [], None, 5, None);
    assert HasId(c.records, 1) by { assert c.records[0].id == 1; }
    r := c.Destroy(1, false);
    assert c.currentPage == 1;
    assert r.Ok? && r.value.template == DestroyTemplate && r.value.stageTotal == None;
  }

  /** The filter action replaces the stored stages and resets the page to 1. */
  method FilterScenario(perPage: int)
    requires perPage >= 1
  {
    var o := Record(1, "x", "prospecting");
    var c := new Controller([o], (x: Opportunity) => true, perPage, [], Some("qualification,analysis"), 3, None);
    var r := c.Filter(Some("prospecting"));
    assert c.currentPage == 1;
    OneStageEntry();
    assert Listed([o], c.mine, Some("prospecting"), None) == [o];
    assert r.opportunities == Some([o]);
  }
}
