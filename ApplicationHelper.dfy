/**
 * The decisions in the helpers shared by every page: which tab is active, whether
 * the layout has no tabs, which flash message is shown, the default subtitle text,
 * whether an inline form starts collapsed, and the show/hide style switches.
 */
module ApplicationHelper {
  import opened Wrappers
  import opened RubyString

  /** One entry of the tabs setting; active is the flag the tabs helper rewrites. */
  datatype Tab = Tab(text: string, url: string, active: bool)

  /** The session; a key that is absent stands for a nil value. */
  class Session {
    var data: map<string, string>

    constructor (data: map<string, string>)
      ensures this.data == data
    {
      this.data := data;
    }
  }

  const CurrentTabKey: string := "current_tab"
  const HomeTab: string := "home"

  /**
   * tabs: sets the current tab to home when none is set, then marks as active exactly
   * the tabs whose down-cased text names the current tab. The tab list is updated in
   * place and returned.
   */
  method Tabs(session: Session, tabs: array<Tab>) returns (r: array<Tab>)
    modifies session, tabs
    ensures session.data == if CurrentTabKey in old(session.data) then old(session.data)
                            else old(session.data)[CurrentTabKey := HomeTab]
    ensures r == tabs
    ensures forall i :: 0 <= i < tabs.Length ==>
              tabs[i] == old(tabs[i]).(active := Downcase(old(tabs[i]).text) == session.data[CurrentTabKey])
  {
    if CurrentTabKey !in session.data {
      session.data := session.data[CurrentTabKey := HomeTab];
    }
    var current := session.data[CurrentTabKey];
    for i := 0 to tabs.Length
      modifies tabs
      invariant forall j :: 0 <= j < i ==>
                  tabs[j] == old(tabs[j]).(active := Downcase(old(tabs[j]).text) == current)
      invariant forall j :: i <= j < tabs.Length ==> tabs[j] == old(tabs[j])
    {
      tabs[i] := tabs[i].(active := Downcase(tabs[i].text) == current);
    }
    r := tabs;
  }

  /** tabless_layout?: whether the page is drawn without the tab bar. */
  function TablessLayout(controllerName: string, actionName: string): (r: bool)
    ensures r ==> controllerName in {"authentications", "passwords", "users"}
    ensures controllerName in {"authentications", "passwords"} ==> r
    ensures controllerName == "users" ==> (r <==> actionName in {"create", "new"})
  {
    controllerName in ["authentications", "passwords"] ||
    (controllerName == "users" && actionName in ["create", "new"])
  }

  /** The action only matters to the users controller: every other controller ignores it. */
  lemma TablessIgnoresAction(controllerName: string, action1: string, action2: string)
    requires controllerName != "users"
    ensures TablessLayout(controllerName, action1) == TablessLayout(controllerName, action2)
  {
  }

  /** The flash kinds in the order in which show_flash_if_any looks at them. */
  const FlashOrder: seq<string> := ["error", "warning", "message", "notice"]

  /** The flash message selected for display, and its kind. */
  datatype FlashPick = FlashPick(kind: string, message: string)

  /**
   * show_flash_if_any: the first kind, in the order error, warning, message, notice,
   * that has a flash message set, or nothing when none of them is set.
   */
  method ShowFlashIfAny(flash: map<string, string>) returns (r: Option<FlashPick>)
    ensures r.None? <==> forall i :: 0 <= i < |FlashOrder| ==> FlashOrder[i] !in flash
    ensures r.Some? ==> exists i :: 0 <= i < |FlashOrder| && FlashOrder[i] == r.value.kind &&
                                    r.value.kind in flash && flash[r.value.kind] == r.value.message &&
                                    forall j :: 0 <= j < i ==> FlashOrder[j] !in flash
  {
    var i := 0;
    while i < |FlashOrder|
      invariant 0 <= i <= |FlashOrder|
      invariant forall j :: 0 <= j < i ==> FlashOrder[j] !in flash
    {
      var kind := FlashOrder[i];
      if kind in flash {
        return Some(FlashPick(kind, flash[kind]));
      }
      i := i + 1;
    }
    return None;
  }

  /** An error message always wins over the other kinds. */
  lemma ErrorFlashWins(flash: map<string, string>, r: Option<FlashPick>)
    requires "error" in flash
    requires r.Some? ==> exists i :: 0 <= i < |FlashOrder| && FlashOrder[i] == r.value.kind &&
                                     forall j :: 0 <= j < i ==> FlashOrder[j] !in flash
    ensures r.Some? ==> r.value.kind == "error"
  {
    if r.Some? {
      var i :| 0 <= i < |FlashOrder| && FlashOrder[i] == r.value.kind &&
               forall j :: 0 <= j < i ==> FlashOrder[j] !in flash;
      assert FlashOrder[0] == "error";
    }
  }

  /**
   * The default text of subtitle: the last underscore-separated part of the id,
   * capitalized. None stands for the NoMethodError raised when the id has no part
   * at all (it is empty or made of underscores only).
   */
  function SubtitleText(id: string): (r: Option<string>)
    ensures r.None? <==> AllSeparators(id, '_')
    ensures r.Some? ==> |r.value| > 0 && '_' !in r.value
  {
    LastPartHasNoUnderscore(id);
    CapitalizedLastPart(Split(id, '_'))
  }

  /** The last part, capitalized, or None when there is no part. */
  function CapitalizedLastPart(parts: seq<string>): Option<string>
  {
    if parts == [] then None else Some(Capitalize(parts[|parts| - 1]))
  }

  /** The last underscore-separated part of an id is non-empty and, capitalized, holds no underscore. */
  lemma LastPartHasNoUnderscore(id: string)
    ensures var parts := Split(id, '_');
            parts != [] ==> |parts[|parts| - 1]| > 0 && '_' !in Capitalize(parts[|parts| - 1])
  {
    var parts := Split(id, '_');
    if parts != [] {
      SplitEntries(id, '_');
      assert parts[|parts| - 1] in parts;
      CapitalizeKeepsUnderscores(parts[|parts| - 1]);
    }
  }

  /** Capitalize changes letters only, so it adds no underscore. */
  lemma CapitalizeKeepsUnderscores(w: string)
    requires '_' !in w
    ensures '_' !in Capitalize(w)
  {
    var c := Capitalize(w);
    forall i | 0 <= i < |c|
      ensures c[i] != '_'
    {
      if i > 0 {
        assert c[i] == c[1..][i - 1] == ToLower(w[i]);
      }
    }
  }

  /** The subtitle of prefix_word is the capitalized word, whatever the prefix. */
  lemma SubtitleOfLastPart(prefix: string, word: string)
    requires word != "" && '_' !in word
    ensures SubtitleText(prefix + "_" + word) == Some(Capitalize(word))
  {
    FieldsSnoc(prefix, '_', word);
  }

  /** An id without underscores is its own subtitle, capitalized. */
  lemma SubtitleOfSinglePart(id: string)
    requires id != "" && '_' !in id
    ensures SubtitleText(id) == Some(Capitalize(id))
  {
    LastIndexOfAbsent(id, '_');
  }

  /** Trailing underscores do not change the subtitle. */
  lemma SubtitleIgnoresTrailingUnderscore(id: string)
    ensures SubtitleText(id + "_") == SubtitleText(id)
  {
    assert id + "_" == id + ['_'];
    SplitIgnoresTrailingSeparator(id, '_');
  }

  lemma SubtitleExample()
    ensures SubtitleText("contact_info") == Some("Info")
    ensures SubtitleText("") == None
  {
    var c := Capitalize("info");
    assert c[0] == 'I';
    assert Downcase("nfo") == "nfo";
    assert c == "Info";
    SubtitleOfLastPart("contact", "info");
    assert "contact" + "_" + "info" == "contact_info";
    assert Fields("", '_') == [""];
  }

  /** inline: the form starts collapsed exactly when the session holds nothing under its id. */
  function InlineCollapsed(session: map<string, string>, id: string): bool
  {
    id !in session
  }

  /**
   * Only the session entry under the form's own id matters: storing any value there
   * expands the form, removing it collapses the form, and other entries have no effect.
   */
  lemma InlineFollowsOwnEntry(session: map<string, string>, id: string, other: string, v: string)
    requires other != id
    ensures !InlineCollapsed(session[id := v], id)
    ensures InlineCollapsed(session - {id}, id)
    ensures InlineCollapsed(session[other := v], id) == InlineCollapsed(session, id)
    ensures InlineCollapsed(session - {other}, id) == InlineCollapsed(session, id)
  {
  }

  /** The four style hashes that hidden_if and invisible_if choose between. */
  datatype Style = Hidden | Exposed | Invisible | Visible

  /** The CSS each style hash carries. */
  function Css(s: Style): string
  {
    match s
    case Hidden => "display:none;"
    case Exposed => "display:block;"
    case Invisible => "visibility:hidden;"
    case Visible => "visibility:visible;"
  }

  /** hidden_if only ever sets display, and hides the element exactly when asked. */
  function HiddenIf(youAsk: bool): (s: Style)
    ensures Css(s)[..8] == "display:"
    ensures Css(s) == "display:none;" <==> youAsk
  {
    if youAsk then Hidden else Exposed
  }

  /** invisible_if only ever sets visibility, and hides the element exactly when asked. */
  function InvisibleIf(youAsk: bool): (s: Style)
    ensures Css(s)[..11] == "visibility:"
    ensures Css(s) == "visibility:hidden;" <==> youAsk
  {
    if youAsk then Invisible else Visible
  }
}
