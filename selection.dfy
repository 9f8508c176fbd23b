/**
 * Single selection on the settings screen: the navigation tabs
 * (`settingsNavItemListener`, settings.js:234-249), the account "select"
 * buttons (`bindAuthAccountSelect`, settings.js:392-410) and
 * `refreshAuthAccountSelected` (settings.js:530-543). The `selected`
 * attribute of the i-th element is the i-th cell of an array.
 */
module Selection {
  import opened Wrappers

  /** n flags of which only the k-th is set. */
  function OnlyAt(n: nat, k: nat): (r: seq<bool>)
    ensures |r| == n
    ensures forall i | 0 <= i < n :: r[i] == (i == k)
  {
    seq(n, i => i == k)
  }

  /** The number of set flags. */
  function Count(s: seq<bool>): nat {
    if s == [] then 0 else (if s[0] then 1 else 0) + Count(s[1..])
  }

  lemma {:induction false} CountNone(s: seq<bool>)
    requires forall i | 0 <= i < |s| :: !s[i]
    ensures Count(s) == 0
  {
    if s != [] {
      CountNone(s[1..]);
    }
  }

  /** Exactly one flag is set in s iff s is OnlyAt some position. */
  lemma {:induction false} CountOne(s: seq<bool>, k: nat)
    requires k < |s| && s[k]
    requires forall i | 0 <= i < |s| && i != k :: !s[i]
    ensures Count(s) == 1
  {
    if k == 0 {
      CountNone(s[1..]);
    } else {
      CountOne(s[1..], k - 1);
    }
  }

  /** Selecting item k of n leaves exactly one item selected. */
  lemma OnlyAtSelectsOne(n: nat, k: nat)
    requires k < n
    ensures Count(OnlyAt(n, k)) == 1
  {
    CountOne(OnlyAt(n, k), k);
  }

  /** The flags `refreshAuthAccountSelected` sets: those of the accounts whose uuid matches. */
  function Matching(uuids: seq<string>, uuid: string): (r: seq<bool>)
    ensures |r| == |uuids|
    ensures forall i | 0 <= i < |uuids| :: r[i] == (uuids[i] == uuid)
  {
    seq(|uuids|, i requires 0 <= i < |uuids| => uuids[i] == uuid)
  }

  predicate Distinct(uuids: seq<string>) {
    forall i, j | 0 <= i < j < |uuids| :: uuids[i] != uuids[j]
  }

  /** With distinct uuids, refreshing marks one account when the uuid is listed and none otherwise. */
  lemma MatchingCount(uuids: seq<string>, uuid: string)
    requires Distinct(uuids)
    ensures Count(Matching(uuids, uuid)) == if uuid in uuids then 1 else 0
  {
    var m := Matching(uuids, uuid);
    if uuid in uuids {
      var k :| 0 <= k < |uuids| && uuids[k] == uuid;
      CountOne(m, k);
    } else {
      CountNone(m);
    }
  }

  /** The settings navigation: one 'selected' flag and one target panel id per tab. */
  class NavTabs {
    const panels: seq<string>
    const selected: array<bool>
    /** `selectedSettingsTab`. */
    var current: string

    predicate Valid()
      reads this
    {
      selected.Length == |panels|
    }

    constructor (panels: seq<string>, first: nat)
      requires first < |panels|
      ensures Valid() && fresh(selected)
      ensures selected[..] == OnlyAt(|panels|, first) && current == panels[first]
    {
      this.panels := panels;
      selected := new bool[|panels|](i => i == first);
      current := panels[first];
      new;
      assert selected[..] == OnlyAt(|panels|, first);
    }

    /** A click on tab k: nothing happens if it is already selected; otherwise only it is selected and its panel is current. */
    method SelectTab(k: nat)
      requires Valid() && k < selected.Length
      modifies this, selected
      ensures Valid()
      ensures old(selected[k]) ==> selected[..] == old(selected[..]) && current == old(current)
      ensures !old(selected[k]) ==> selected[..] == OnlyAt(selected.Length, k) && current == panels[k]
    {
      if selected[k] {
        return;
      }
      var i := 0;
      while i < selected.Length
        invariant 0 <= i <= selected.Length
        invariant forall j | 0 <= j < i :: !selected[j]
      {
        if selected[i] {
          selected[i] := false;
        }
        i := i + 1;
      }
      selected[k] := true;
      current := panels[k];
    }
  }

  /** The text of an account's select button. */
  datatype ButtonText = SelectText | SelectedText

  /** The account list: one select button per account, with its account's uuid. */
  class AccountList {
    const uuids: seq<string>
    const selected: array<bool>
    const buttons: array<ButtonText>
    /** The account handed to `setSelectedAccount`. */
    var chosen: Option<string>

    predicate Valid()
      reads this
    {
      selected.Length == buttons.Length == |uuids|
    }

    /** A button reads "selected" exactly when it carries the attribute. */
    predicate Labelled()
      requires Valid()
      reads this, selected, buttons
    {
      forall i | 0 <= i < selected.Length :: selected[i] <==> buttons[i] == SelectedText
    }

    constructor (uuids: seq<string>)
      ensures Valid() && Labelled() && fresh(selected) && fresh(buttons)
      ensures this.uuids == uuids && chosen == None
      ensures forall i | 0 <= i < |uuids| :: !selected[i]
    {
      this.uuids := uuids;
      selected := new bool[|uuids|](i => false);
      buttons := new ButtonText[|uuids|](i => SelectText);
      chosen := None;
    }

    /** A click on account k's select button. */
    method SelectAccount(k: nat)
      requires Valid() && k < selected.Length
      modifies this, selected, buttons
      ensures Valid()
      ensures old(selected[k]) ==>
        selected[..] == old(selected[..]) && buttons[..] == old(buttons[..]) && chosen == old(chosen)
      ensures !old(selected[k]) ==>
        && selected[..] == OnlyAt(selected.Length, k)
        && buttons[k] == SelectedText
        && (forall i | 0 <= i < buttons.Length && i != k ::
              buttons[i] == if old(selected[i]) then SelectText else old(buttons[i]))
        && chosen == Some(uuids[k])
      ensures old(Labelled()) ==> Labelled()
    {
      if selected[k] {
        return;
      }
      var i := 0;
      while i < selected.Length
        invariant 0 <= i <= selected.Length
        invariant forall j | 0 <= j < i :: !selected[j]
        invariant forall j | i <= j < selected.Length :: selected[j] == old(selected[j])
        invariant forall j | 0 <= j < i ::
          buttons[j] == if old(selected[j]) then SelectText else old(buttons[j])
        invariant forall j | i <= j < buttons.Length :: buttons[j] == old(buttons[j])
      {
        if selected[i] {
          selected[i] := false;
          buttons[i] := SelectText;
        }
        i := i + 1;
      }
      selected[k] := true;
      buttons[k] := SelectedText;
      chosen := Some(uuids[k]);
    }

    /** `refreshAuthAccountSelected`: marks exactly the accounts whose uuid is `uuid`. */
    method RefreshAuthAccountSelected(uuid: string)
      requires Valid()
      modifies selected, buttons
      ensures selected[..] == Matching(uuids, uuid)
      ensures Labelled()
    {
      var i := 0;
      while i < selected.Length
        invariant 0 <= i <= selected.Length
        invariant forall j | 0 <= j < i :: selected[j] == (uuids[j] == uuid)
        invariant forall j | 0 <= j < i :: buttons[j] == if uuids[j] == uuid then SelectedText else SelectText
      {
        if uuid == uuids[i] {
          selected[i] := true;
          buttons[i] := SelectedText;
        } else {
          if selected[i] {
            selected[i] := false;
          }
          buttons[i] := SelectText;
        }
        i := i + 1;
      }
    }
  }
}
