/**
 * The decisions in the accounts controller: the stage hash built for the show
 * page, the previous account named by the open parameter of edit, and what
 * create and update do with the form context and the users list depending on
 * whether the save succeeds.
 */
module AccountsController {
  import opened Wrappers
  import opened RubyString
  import opened Users

  /** One entry of the opportunity stage setting: a display title and the stage's key. */
  datatype StagePair = StagePair(title: string, key: string)

  /**
   * The hash built by folding the stage setting: each pair's key maps to its title,
   * and a later pair overrides an earlier one with the same key.
   */
  function StageHash(pairs: seq<StagePair>): (h: map<string, string>)
    ensures |h| <= |pairs|
  {
    if pairs == [] then map[]
    else
      var init := pairs[..|pairs| - 1];
      var last := pairs[|pairs| - 1];
      var h := StageHash(init);
      assert |h[last.key := last.title]| <= |h| + 1 by {
        assert h[last.key := last.title].Keys == h.Keys + {last.key};
      }
      h[last.key := last.title]
  }

  /** The hash has exactly the keys of the pairs. */
  lemma {:induction false} StageHashKeys(pairs: seq<StagePair>)
    ensures forall k :: k in StageHash(pairs) <==> exists i :: 0 <= i < |pairs| && pairs[i].key == k
  {
    if pairs != [] {
      var init := pairs[..|pairs| - 1];
      StageHashKeys(init);
      forall k | exists i :: 0 <= i < |pairs| && pairs[i].key == k
        ensures k in StageHash(pairs)
      {
        var i :| 0 <= i < |pairs| && pairs[i].key == k;
        if i < |init| {
          assert init[i] == pairs[i];
        }
      }
      forall k | k in StageHash(pairs)
        ensures exists i :: 0 <= i < |pairs| && pairs[i].key == k
      {
        if k != pairs[|pairs| - 1].key {
          assert k in StageHash(init);
          var i :| 0 <= i < |init| && init[i].key == k;
          assert pairs[i] == init[i];
        }
      }
    }
  }

  /** The title a key ends up with is that of the last pair carrying the key: later pairs override. */
  lemma {:induction false} StageHashLastWins(pairs: seq<StagePair>, i: nat)
    requires i < |pairs|
    requires forall j :: i < j < |pairs| ==> pairs[j].key != pairs[i].key
    ensures pairs[i].key in StageHash(pairs)
    ensures StageHash(pairs)[pairs[i].key] == pairs[i].title
  {
    if i < |pairs| - 1 {
      var init := pairs[..|pairs| - 1];
      assert init[i] == pairs[i];
      StageHashLastWins(init, i);
    }
  }

  /**
   * The id of the account to show as previous in edit: the whole run of digits that
   * ends the open parameter, or None when the parameter is missing or does not end in a digit.
   */
  function PreviousId(openParam: Option<string>): (r: Option<nat>)
    ensures r.Some? <==> openParam.Some? && |openParam.value| > 0 && IsDigit(openParam.value[|openParam.value| - 1])
  {
    match openParam
    case None => None
    case Some(s) =>
      if |s| > 0 && IsDigit(s[|s| - 1]) then Some(DecimalValue(TrailingDigits(s))) else None
  }

  /** A dom id such as account_42 names the account 42 as previous. */
  lemma PreviousIdOfDomId(prefix: string, id: nat)
    requires prefix == [] || !IsDigit(prefix[|prefix| - 1])
    ensures PreviousId(Some(prefix + DecimalString(id))) == Some(id)
  {
    TrailingDigitsOfSuffix(prefix, DecimalString(id));
    DecimalRoundTrip(id);
  }

  lemma PreviousIdExample()
    ensures PreviousId(Some("account_42")) == Some(42)
    ensures PreviousId(Some("account_")) == None
  {
    assert DecimalString(42) == "42";
    PreviousIdOfDomId("account_", 42);
    assert "account_" + "42" == "account_42";
  }

  /** The form context name that new and create save. */
  const CreateAccountContext: string := "create_account"

  /**
   * The instance variables of one request to the controller, and the contexts saved
   * in the session. save_context and drop_context are modelled as adding a context
   * name to, and removing it from, that set.
   */
  class Controller {
    var stage: map<string, string>
    var users: Option<seq<UserId>>
    var previous: Option<nat>
    var contexts: set<string>

    constructor (contexts: set<string>)
      ensures this.contexts == contexts
      ensures stage == map[] && users == None && previous == None
    {
      this.contexts := contexts;
      stage := map[];
      users := None;
      previous := None;
    }

    /** show: builds the stage hash from the stage setting. */
    method Show(setting: seq<StagePair>)
      modifies this
      ensures stage == StageHash(setting)
      ensures users == old(users) && previous == old(previous) && contexts == old(contexts)
    {
      stage := StageHash(setting);
    }

    /**
     * edit: lists the other users, saves the account's context, and looks up the
     * previous account only when open ends in a digit run.
     */
    method Edit(accountContext: string, others: seq<UserId>, openParam: Option<string>)
      modifies this
      ensures users == Some(others)
      ensures contexts == old(contexts) + {accountContext}
      ensures previous == if PreviousId(openParam).Some? then PreviousId(openParam) else old(previous)
      ensures stage == old(stage)
    {
      var id := PreviousId(openParam);
      users := Some(others);
      contexts := contexts + {accountContext};
      if id.Some? {
        previous := id;
      }
    }

    /**
     * create: saves the create context, and drops it again only when the account
     * was saved; on failure the context stays so that the form is redrawn.
     */
    method Create(others: seq<UserId>, saved: bool)
      modifies this
      ensures users == Some(others)
      ensures contexts == if saved then old(contexts) + {CreateAccountContext} - {CreateAccountContext}
                          else old(contexts) + {CreateAccountContext}
      ensures saved <==> CreateAccountContext !in contexts
      ensures stage == old(stage) && previous == old(previous)
    {
      users := Some(others);
      contexts := contexts + {CreateAccountContext};
      if saved {
        contexts := contexts - {CreateAccountContext};
      }
    }

    /** update: fetches the users list only when the update fails, to redraw the edit form. */
    method Update(others: seq<UserId>, saved: bool)
      modifies this
      ensures users == if saved then old(users) else Some(others)
      ensures stage == old(stage) && previous == old(previous) && contexts == old(contexts)
    {
      if !saved {
        users := Some(others);
      }
    }
  }
}
