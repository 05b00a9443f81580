/** Per-plugin, per-group enablement: each plugin has a state with a global
    switch, a default, and lists of groups where it is explicitly enabled or
    disabled; the manager maps plugin ids to states, answers queries,
    toggles plugins in bulk and gates every event a plugin would see. */
module PluginManage {
  import opened Text

  // ---------------------------------------------------------------------
  // Group lists (`groupSet`, a slice used as a set)

  predicate NoDuplicates(s: seq<int>)
  {
    forall i, j :: 0 <= i < j < |s| ==> s[i] != s[j]
  }

  /** Index of the first g in s, or |s|. */
  function Position(s: seq<int>, g: int): (k: nat)
    ensures k <= |s|
    ensures g !in s[..k]
    ensures k < |s| ==> s[k] == g
  {
    if s == [] then 0 else if s[0] == g then 0 else 1 + Position(s[1..], g)
  }

  /** A position of g with no g before it is the first position. */
  lemma {:induction false} PositionIsFirst(s: seq<int>, g: int, i: nat)
    requires i < |s| && s[i] == g && g !in s[..i]
    ensures Position(s, g) == i
  {
    if i > 0 {
      assert s[0] in s[..i];
      assert s[1..][..i - 1] == s[..i][1..];
      PositionIsFirst(s[1..], g, i - 1);
    }
  }

  /** The list after `Add(g)`: unchanged when g is listed, else g at the end. */
  function Added(s: seq<int>, g: int): (r: seq<int>)
    ensures g in r
    ensures forall x :: x in r <==> x in s || x == g
    ensures |s| <= |r| && r[..|s|] == s
    ensures NoDuplicates(s) ==> NoDuplicates(r)
  {
    if g in s then s else s + [g]
  }

  /** Adding a listed value changes nothing, so adding twice is adding once. */
  lemma AddedIdempotent(s: seq<int>, g: int)
    ensures Added(Added(s, g), g) == Added(s, g)
  {
  }

  /** The list after `Remove(g)`: the first g cut out, the rest in order. */
  function Removed(s: seq<int>, g: int): (r: seq<int>)
    ensures g !in s ==> r == s
    ensures g in s ==> exists k :: 0 <= k < |s| && s[k] == g && g !in s[..k] && r == s[..k] + s[k + 1..]
  {
    var k := Position(s, g);
    if k < |s| then s[..k] + s[k + 1..]
    else
      assert s[..k] == s;
      s
  }

  /** Removing takes out one copy of g and nothing else; on a repeat-free
      list g is then gone. */
  lemma RemovedMultiset(s: seq<int>, g: int)
    ensures multiset(Removed(s, g)) == multiset(s) - multiset{g}
  {
    var k := Position(s, g);
    if k < |s| {
      var a, b := s[..k], s[k + 1..];
      assert s == a + [g] + b;
      assert Removed(s, g) == a + b;
      CutMultiset(a, g, b);
    } else {
      assert multiset(s)[g] == 0;
    }
  }

  /** Every other value stays listed exactly when it was. */
  lemma RemovedMembers(s: seq<int>, g: int)
    ensures forall x :: x != g ==> (x in Removed(s, g) <==> x in s)
  {
    var k := Position(s, g);
    if k < |s| {
      var a, b := s[..k], s[k + 1..];
      assert s == a + [g] + b;
      assert Removed(s, g) == a + b;
      CutMembers(a, g, b);
    }
  }

  /** On a repeat-free list g is gone afterwards and no repeat appears. */
  lemma RemovedNoDuplicates(s: seq<int>, g: int)
    requires NoDuplicates(s)
    ensures NoDuplicates(Removed(s, g)) && g !in Removed(s, g)
  {
    var k := Position(s, g);
    if k < |s| {
      var a, b := s[..k], s[k + 1..];
      assert s == a + [g] + b;
      assert Removed(s, g) == a + b;
      CutNoDuplicates(a, g, b);
    }
  }

  /** Cutting one g out of a + [g] + b removes one copy of g. */
  lemma CutMultiset(a: seq<int>, g: int, b: seq<int>)
    ensures multiset(a + b) == multiset(a + [g] + b) - multiset{g}
  {
    assert multiset(a + [g] + b) == multiset(a) + multiset{g} + multiset(b);
    assert multiset(a + b) == multiset(a) + multiset(b);
  }

  lemma CutMembers(a: seq<int>, g: int, b: seq<int>)
    ensures forall x :: x != g ==> (x in a + b <==> x in a + [g] + b)
  {
  }

  /** ... and on a repeat-free list leaves no g and no repeat. */
  lemma CutNoDuplicates(a: seq<int>, g: int, b: seq<int>)
    requires NoDuplicates(a + [g] + b)
    ensures NoDuplicates(a + b) && g !in a + b
  {
    var s, r := a + [g] + b, a + b;
    forall j | 0 <= j < |r| ensures r[j] != g {
      var j' := if j < |a| then j else j + 1;
      assert r[j] == s[j'] && s[|a|] == g;
    }
    forall i, j | 0 <= i < j < |r| ensures r[i] != r[j] {
      var i' := if i < |a| then i else i + 1;
      var j' := if j < |a| then j else j + 1;
      assert r[i] == s[i'] && r[j] == s[j'];
    }
  }

  /** `groupSet.Add`. */
  method Add(groups: seq<int>, groupId: int) returns (r: seq<int>)
    ensures r == Added(groups, groupId)
  {
    var i := 0;
    while i < |groups|
      invariant 0 <= i <= |groups|
      invariant groupId !in groups[..i]
    {
      if groups[i] == groupId {
        return groups;
      }
      assert groups[..i + 1] == groups[..i] + [groups[i]];
      i := i + 1;
    }
    assert groups[..i] == groups;
    r := groups + [groupId];
  }

  /** `groupSet.Remove`. */
  method Remove(groups: seq<int>, groupId: int) returns (r: seq<int>)
    ensures r == Removed(groups, groupId)
  {
    var i := 0;
    while i < |groups|
      invariant 0 <= i <= |groups|
      invariant groupId !in groups[..i]
    {
      if groups[i] == groupId {
        PositionIsFirst(groups, groupId, i);
        return groups[..i] + groups[i + 1..];
      }
      assert groups[..i + 1] == groups[..i] + [groups[i]];
      i := i + 1;
    }
    assert groups[..i] == groups;
    r := groups;
  }

  /** `groupSet.Contains`, a scan from the front. */
  function Contains(groups: seq<int>, groupId: int): (b: bool)
    ensures b <==> groupId in groups
  {
    if groups == [] then false
    else if groups[0] == groupId then true
    else
      assert forall x :: x in groups <==> x == groups[0] || x in groups[1..];
      Contains(groups[1..], groupId)
  }

  // ---------------------------------------------------------------------
  // Plugin state

  datatype PluginState = PluginState(
    enabled: bool,
    enableOnDefault: bool,
    enabledGroups: seq<int>,
    disabledGroups: seq<int>,
    visible: bool)

  /** The state of a newly loaded plugin: on everywhere, shown in lists. */
  function NewPluginState(): (st: PluginState)
    ensures st.visible && st.enabledGroups == [] && st.disabledGroups == []
    ensures forall g :: IsEnabled(st, g)
  {
    PluginState(true, true, [], [], true)
  }

  /** Precedence: the global switch, then the disabled list, then the
      enabled list, then the default. */
  function IsEnabled(st: PluginState, groupId: int): (b: bool)
    ensures !st.enabled ==> !b
    ensures st.enabled && groupId in st.disabledGroups ==> !b
    ensures st.enabled && groupId !in st.disabledGroups && groupId in st.enabledGroups ==> b
    ensures st.enabled && groupId !in st.disabledGroups && groupId !in st.enabledGroups ==> b == st.enableOnDefault
  {
    if !st.enabled then false
    else if Contains(st.disabledGroups, groupId) then false
    else if Contains(st.enabledGroups, groupId) then true
    else st.enableOnDefault
  }

  /** Both lists free of repeats; `Add` and `Remove` keep it so. */
  predicate WellFormed(st: PluginState)
  {
    NoDuplicates(st.enabledGroups) && NoDuplicates(st.disabledGroups)
  }

  /** One plugin's state after enabling (or disabling) it in a group. */
  function Toggled(st: PluginState, groupId: int, enable: bool): PluginState
  {
    if enable then
      st.(enabledGroups := Added(st.enabledGroups, groupId), disabledGroups := Removed(st.disabledGroups, groupId))
    else
      st.(enabledGroups := Removed(st.enabledGroups, groupId), disabledGroups := Added(st.disabledGroups, groupId))
  }

  /** t is st after toggling the group: t is repeat-free, has the same
      switches, lists the group in exactly the chosen list, and lists every
      other group where st does. */
  ghost predicate ToggledFrom(st: PluginState, t: PluginState, groupId: int, enable: bool)
  {
    && WellFormed(t)
    && t.enabled == st.enabled && t.enableOnDefault == st.enableOnDefault && t.visible == st.visible
    && (groupId in t.enabledGroups <==> enable)
    && (groupId in t.disabledGroups <==> !enable)
    && forall g :: g != groupId ==>
         (g in t.enabledGroups <==> g in st.enabledGroups) && (g in t.disabledGroups <==> g in st.disabledGroups)
  }

  /** The body of the bulk toggle for one known plugin. */
  method Toggle(state: PluginState, groupId: int, enable: bool) returns (t: PluginState)
    ensures t == Toggled(state, groupId, enable)
  {
    var enabledGroups, disabledGroups;
    if enable {
      enabledGroups := Add(state.enabledGroups, groupId);
      disabledGroups := Remove(state.disabledGroups, groupId);
    } else {
      enabledGroups := Remove(state.enabledGroups, groupId);
      disabledGroups := Add(state.disabledGroups, groupId);
    }
    t := state.(enabledGroups := enabledGroups, disabledGroups := disabledGroups);
  }

  /** On repeat-free lists one toggle puts the group in exactly the chosen list. */
  lemma ToggledEffect(st: PluginState, groupId: int, enable: bool)
    requires WellFormed(st)
    ensures ToggledFrom(st, Toggled(st, groupId, enable), groupId, enable)
  {
    RemovedMembers(st.enabledGroups, groupId);
    RemovedMembers(st.disabledGroups, groupId);
    RemovedNoDuplicates(st.enabledGroups, groupId);
    RemovedNoDuplicates(st.disabledGroups, groupId);
  }

  /** Toggling the same way again changes nothing that matters. */
  lemma ToggledAgain(st: PluginState, t: PluginState, u: PluginState, groupId: int, enable: bool)
    requires ToggledFrom(st, t, groupId, enable) && ToggledFrom(t, u, groupId, enable)
    ensures ToggledFrom(st, u, groupId, enable)
  {
  }

  /** After a toggle the plugin is enabled in the group exactly when it is on
      globally and the choice was to enable; every other group keeps its
      answer. */
  lemma ToggledAnswers(st: PluginState, t: PluginState, groupId: int, enable: bool)
    requires ToggledFrom(st, t, groupId, enable)
    ensures IsEnabled(t, groupId) == (st.enabled && enable)
    ensures forall g :: g != groupId ==> IsEnabled(t, g) == IsEnabled(st, g)
  {
  }

  /** A state in which every later toggle of the list has been applied. */
  function ToggleAll(states: map<string, PluginState>, ids: seq<string>, groupId: int, enable: bool)
    : (r: map<string, PluginState>)
    ensures r.Keys == states.Keys
  {
    if ids == [] then states
    else
      var before := ToggleAll(states, ids[..|ids| - 1], groupId, enable);
      var id := ids[|ids| - 1];
      if id in before then before[id := Toggled(before[id], groupId, enable)] else before
  }

  /** The ids of the list that name no plugin, in order, repeats kept. */
  function Unknown(states: map<string, PluginState>, ids: seq<string>): (r: seq<string>)
    ensures |r| <= |ids|
  {
    if ids == [] then []
    else
      var id := ids[|ids| - 1];
      Unknown(states, ids[..|ids| - 1]) + (if id in states then [] else [id])
  }

  /** An id is reported exactly when it is listed and names no plugin. */
  lemma {:induction false} UnknownMembers(states: map<string, PluginState>, ids: seq<string>)
    ensures forall id :: id in Unknown(states, ids) <==> id in ids && id !in states
  {
    if ids != [] {
      var front, last := ids[..|ids| - 1], ids[|ids| - 1];
      UnknownMembers(states, front);
      assert ids == front + [last];
    }
  }

  ghost predicate AllWellFormed(states: map<string, PluginState>)
  {
    forall id :: id in states ==> WellFormed(states[id])
  }

  /** Bulk toggling keeps the lists repeat-free, leaves the plugins not named
      untouched, and gives every named plugin the chosen answer in the group
      without changing its answer in any other group. */
  lemma {:induction false} ToggleAllEffect(states: map<string, PluginState>, ids: seq<string>, groupId: int, enable: bool)
    requires AllWellFormed(states)
    ensures var r := ToggleAll(states, ids, groupId, enable);
      && AllWellFormed(r)
      && (forall id :: id in states && id !in ids ==> r[id] == states[id])
      && (forall id :: id in states && id in ids ==> ToggledFrom(states[id], r[id], groupId, enable))
  {
    if ids != [] {
      var front := ids[..|ids| - 1];
      var last := ids[|ids| - 1];
      ToggleAllEffect(states, front, groupId, enable);
      var before := ToggleAll(states, front, groupId, enable);
      var r := ToggleAll(states, ids, groupId, enable);
      assert forall x :: x in ids <==> x in front || x == last;
      if last in before {
        ToggledEffect(before[last], groupId, enable);
        assert r == before[last := Toggled(before[last], groupId, enable)];
        if last in front {
          ToggledAgain(states[last], before[last], r[last], groupId, enable);
        }
      }
    }
  }

  /** What the plugins named in a bulk toggle answer afterwards. */
  lemma ToggleAllAnswers(states: map<string, PluginState>, ids: seq<string>, groupId: int, enable: bool, id: string, g: int)
    requires AllWellFormed(states) && id in states
    ensures var r := ToggleAll(states, ids, groupId, enable);
      IsEnabled(r[id], g) ==
        if id in ids && g == groupId then states[id].enabled && enable else IsEnabled(states[id], g)
  {
    ToggleAllEffect(states, ids, groupId, enable);
    var r := ToggleAll(states, ids, groupId, enable);
    if id in ids {
      ToggledAnswers(states[id], r[id], groupId, enable);
    }
  }

  lemma ToggleAllStep(states: map<string, PluginState>, ids: seq<string>, i: nat, groupId: int, enable: bool)
    requires i < |ids|
    ensures var before := ToggleAll(states, ids[..i], groupId, enable);
      ToggleAll(states, ids[..i + 1], groupId, enable)
        == if ids[i] in before then before[ids[i] := Toggled(before[ids[i]], groupId, enable)] else before
  {
    assert ids[..i + 1][..i] == ids[..i];
  }

  lemma UnknownStep(states: map<string, PluginState>, ids: seq<string>, i: nat)
    requires i < |ids|
    ensures Unknown(states, ids[..i + 1]) == Unknown(states, ids[..i]) + (if ids[i] in states then [] else [ids[i]])
  {
    assert ids[..i + 1][..i] == ids[..i];
  }

  // ---------------------------------------------------------------------
  // The manager

  /** A query's answer together with Go's error value. */
  datatype EnabledAnswer = EnabledAnswer(enabled: bool, err: Option<string>)

  function ManagerPluginId(): string { "plugin_manage@liwh011" }

  function UnknownPluginError(pluginId: string): string { "插件" + pluginId + "不存在" }

  function UnknownIdsError(ids: seq<string>): string { "没有找到以下插件ID：" + Join(ids, ", ") }

  /** The events the gate tells apart. */
  datatype Event = PrivateMessage | GroupMessage(groupId: int) | OtherEvent

  predicate NoDuplicateIds(s: seq<string>)
  {
    forall i, j :: 0 <= i < j < |s| ==> s[i] != s[j]
  }

  /** The groups of the list where the plugin is enabled, in order. */
  function EnabledOf(st: PluginState, ids: seq<int>): seq<int>
  {
    if ids == [] then []
    else
      var g := ids[|ids| - 1];
      EnabledOf(st, ids[..|ids| - 1]) + (if IsEnabled(st, g) then [g] else [])
  }

  /** The groups of the list where the plugin is disabled, in order. */
  function DisabledOf(st: PluginState, ids: seq<int>): seq<int>
  {
    if ids == [] then []
    else
      var g := ids[|ids| - 1];
      DisabledOf(st, ids[..|ids| - 1]) + (if IsEnabled(st, g) then [] else [g])
  }

  /** The two lists split the given groups, every entry counted once. */
  lemma {:induction false} EnabledDisabledPartition(st: PluginState, ids: seq<int>)
    ensures multiset(EnabledOf(st, ids)) + multiset(DisabledOf(st, ids)) == multiset(ids)
  {
    if ids != [] {
      var front, last := ids[..|ids| - 1], ids[|ids| - 1];
      EnabledDisabledPartition(st, front);
      assert ids == front + [last];
    }
  }

  /** A group is in the first list exactly when it is given and enabled. */
  lemma {:induction false} EnabledOfMembers(st: PluginState, ids: seq<int>)
    ensures forall g :: g in EnabledOf(st, ids) <==> g in ids && IsEnabled(st, g)
  {
    if ids != [] {
      var front, last := ids[..|ids| - 1], ids[|ids| - 1];
      EnabledOfMembers(st, front);
      assert ids == front + [last];
    }
  }

  /** A group is in the second list exactly when it is given and disabled. */
  lemma {:induction false} DisabledOfMembers(st: PluginState, ids: seq<int>)
    ensures forall g :: g in DisabledOf(st, ids) <==> g in ids && !IsEnabled(st, g)
  {
    if ids != [] {
      var front, last := ids[..|ids| - 1], ids[|ids| - 1];
      DisabledOfMembers(st, front);
      assert ids == front + [last];
    }
  }

  class PluginManager {
    var pluginStates: map<string, PluginState>

    constructor ()
      ensures pluginStates == map[]
    {
      pluginStates := map[];
    }

    /** The load hook: every plugin starts from a fresh state, replacing
        the one it had. */
    method RegisterPlugin(pluginId: string)
      modifies this
      ensures pluginStates == old(pluginStates)[pluginId := NewPluginState()]
    {
      pluginStates := pluginStates[pluginId := NewPluginState()];
    }

    /** An unknown plugin counts as off. */
    function IsPluginEnabledGlobally(pluginId: string): (b: bool)
      reads this
      ensures b <==> pluginId in pluginStates && pluginStates[pluginId].enabled
    {
      if pluginId !in pluginStates then false else pluginStates[pluginId].enabled
    }

    /** An unknown plugin is off and answers with an error. */
    function IsPluginEnabled(pluginId: string, groupId: int): (r: EnabledAnswer)
      reads this
      ensures r.err.Some? <==> pluginId !in pluginStates
      ensures r.err.Some? ==> r == EnabledAnswer(false, Some(UnknownPluginError(pluginId)))
      ensures r.enabled <==> pluginId in pluginStates && IsEnabled(pluginStates[pluginId], groupId)
    {
      if pluginId !in pluginStates then EnabledAnswer(false, Some(UnknownPluginError(pluginId)))
      else EnabledAnswer(IsEnabled(pluginStates[pluginId], groupId), None)
    }

    /** The visible plugins, split by whether they are enabled in the group;
        the order follows map iteration, which is unspecified. */
    method ListPlugins(groupId: int) returns (enabled: seq<string>, disabled: seq<string>)
      ensures forall id :: id in enabled <==>
        id in pluginStates && pluginStates[id].visible && IsEnabled(pluginStates[id], groupId)
      ensures forall id :: id in disabled <==>
        id in pluginStates && pluginStates[id].visible && !IsEnabled(pluginStates[id], groupId)
      ensures NoDuplicateIds(enabled) && NoDuplicateIds(disabled)
    {
      var left := pluginStates.Keys;
      enabled, disabled := [], [];
      while left != {}
        invariant left <= pluginStates.Keys
        invariant forall id :: id in enabled <==>
          id in pluginStates && id !in left && pluginStates[id].visible && IsEnabled(pluginStates[id], groupId)
        invariant forall id :: id in disabled <==>
          id in pluginStates && id !in left && pluginStates[id].visible && !IsEnabled(pluginStates[id], groupId)
        invariant NoDuplicateIds(enabled) && NoDuplicateIds(disabled)
        decreases |left|
      {
        var id :| id in left;
        var state := pluginStates[id];
        if state.visible {
          if IsEnabled(state, groupId) {
            enabled := enabled + [id];
          } else {
            disabled := disabled + [id];
          }
        }
        left := left - {id};
      }
    }

    /** The given groups split by whether the plugin is enabled there, in
        their order; both empty for an unknown plugin. */
    method GetEnabledGroupsOfPlugin(pluginId: string, groupIds: seq<int>) returns (enabled: seq<int>, disabled: seq<int>)
      ensures pluginId !in pluginStates ==> enabled == [] && disabled == []
      ensures pluginId in pluginStates ==>
        enabled == EnabledOf(pluginStates[pluginId], groupIds) && disabled == DisabledOf(pluginStates[pluginId], groupIds)
    {
      enabled, disabled := [], [];
      if pluginId !in pluginStates {
        return;
      }
      var state := pluginStates[pluginId];
      var i := 0;
      while i < |groupIds|
        invariant 0 <= i <= |groupIds|
        invariant enabled == EnabledOf(state, groupIds[..i]) && disabled == DisabledOf(state, groupIds[..i])
      {
        assert groupIds[..i + 1][..i] == groupIds[..i];
        if IsEnabled(state, groupIds[i]) {
          enabled := enabled + [groupIds[i]];
        } else {
          disabled := disabled + [groupIds[i]];
        }
        i := i + 1;
      }
      assert groupIds[..i] == groupIds;
    }

    /** Enables (or disables) each named plugin in the group. The count is
        the entries naming a plugin, repeats included; the error lists the
        entries naming none. */
    method EnablePlugin(pluginIds: seq<string>, groupId: int, enable: bool) returns (cnt: int, err: Option<string>)
      modifies this
      ensures pluginStates == ToggleAll(old(pluginStates), pluginIds, groupId, enable)
      ensures cnt + |Unknown(old(pluginStates), pluginIds)| == |pluginIds|
      ensures err == if Unknown(old(pluginStates), pluginIds) == [] then None
                     else Some(UnknownIdsError(Unknown(old(pluginStates), pluginIds)))
    {
      var initial := pluginStates;
      var states := pluginStates;
      var invalidPluginIds: seq<string> := [];
      cnt := 0;
      var i := 0;
      while i < |pluginIds|
        invariant 0 <= i <= |pluginIds|
        invariant states == ToggleAll(initial, pluginIds[..i], groupId, enable)
        invariant invalidPluginIds == Unknown(initial, pluginIds[..i])
        invariant cnt + |invalidPluginIds| == i
      {
        var id := pluginIds[i];
        ToggleAllStep(initial, pluginIds, i, groupId, enable);
        UnknownStep(initial, pluginIds, i);
        assert id in states <==> id in initial;
        if id !in states {
          invalidPluginIds := invalidPluginIds + [id];
        } else {
          var toggled := Toggle(states[id], groupId, enable);
          states := states[id := toggled];
          cnt := cnt + 1;
        }
        i := i + 1;
      }
      assert pluginIds[..i] == pluginIds;
      pluginStates := states;
      if |invalidPluginIds| > 0 {
        err := Some(UnknownIdsError(invalidPluginIds));
      } else {
        err := None;
      }
    }

    /** The middleware every plugin gets: the manager itself always runs;
        a private message needs the plugin on globally, a group message
        needs it enabled in that group, and other events pass. */
    function Admits(pluginId: string, ev: Event): (b: bool)
      reads this
      ensures pluginId == ManagerPluginId() ==> b
      ensures pluginId != ManagerPluginId() && ev.PrivateMessage? ==>
        (b <==> pluginId in pluginStates && pluginStates[pluginId].enabled)
      ensures pluginId != ManagerPluginId() && ev.GroupMessage? ==>
        (b <==> pluginId in pluginStates && IsEnabled(pluginStates[pluginId], ev.groupId))
      ensures ev.OtherEvent? ==> b
    {
      if pluginId == ManagerPluginId() then true
      else match ev
        case PrivateMessage => IsPluginEnabledGlobally(pluginId)
        case GroupMessage(g) => IsPluginEnabled(pluginId, g).enabled
        case OtherEvent => true
    }
  }
}
