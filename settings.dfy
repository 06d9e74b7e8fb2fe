/** The player's game settings: toggling one (`Format1BHandler`) and the
    tab-joined settings line sent back (`UpdateSettings`). A missing
    setting entry is `None`. */
module Settings {
  import opened Common

  datatype Setting = Setting(enabled: bool, enabledText: string, disabledText: string)

  /** The text a setting shows in its current state. */
  function Shown(s: Setting): string {
    if s.enabled then s.enabledText else s.disabledText
  }

  /** The shown text of each present setting, each followed by a tab. */
  function Segments(settings: seq<Option<Setting>>): string {
    if settings == [] then ""
    else
      var last := settings[|settings| - 1];
      Segments(settings[..|settings| - 1]) + (if last.Some? then Shown(last.value) + "\t" else "")
  }

  /** The line `UpdateSettings` sends: a leading tab, then the segments. */
  function SettingsLine(settings: seq<Option<Setting>>): string {
    "\t" + Segments(settings)
  }

  /** `UpdateSettings`: builds the line one setting at a time. */
  method UpdateSettings(settings: seq<Option<Setting>>) returns (msg: string)
    ensures msg == SettingsLine(settings)
  {
    msg := "\t";
    for i := 0 to |settings|
      invariant msg == "\t" + Segments(settings[..i])
    {
      assert settings[..i + 1][..i] == settings[..i];
      if settings[i].Some? {
        msg := msg + Shown(settings[i].value);
        msg := msg + "\t";
      }
    }
    assert settings[..|settings|] == settings;
  }

  function CountChar(s: string, c: char): nat {
    if s == [] then 0 else CountChar(s[..|s| - 1], c) + (if s[|s| - 1] == c then 1 else 0)
  }

  lemma {:induction false} CountCharAppend(a: string, b: string, c: char)
    ensures CountChar(a + b, c) == CountChar(a, c) + CountChar(b, c)
    decreases |b|
  {
    if b != [] {
      assert (a + b)[..|a + b| - 1] == a + b[..|b| - 1];
      CountCharAppend(a, b[..|b| - 1], c);
    } else {
      assert a + b == a;
    }
  }

  function Present(settings: seq<Option<Setting>>): nat {
    if settings == [] then 0
    else Present(settings[..|settings| - 1]) + (if settings[|settings| - 1].Some? then 1 else 0)
  }

  predicate TabFree(s: string) {
    forall i :: 0 <= i < |s| ==> s[i] != '\t'
  }

  lemma {:induction false} TabFreeCount(s: string)
    requires TabFree(s)
    ensures CountChar(s, '\t') == 0
    decreases |s|
  {
    if s != [] {
      TabFreeCount(s[..|s| - 1]);
    }
  }

  /** When no setting text holds a tab, the line has one tab-separated
      field per present setting: exactly one more tab than settings shown. */
  lemma {:induction false} SettingsLineTabs(settings: seq<Option<Setting>>)
    requires forall i :: 0 <= i < |settings| && settings[i].Some? ==>
               TabFree(settings[i].value.enabledText) && TabFree(settings[i].value.disabledText)
    ensures CountChar(SettingsLine(settings), '\t') == 1 + Present(settings)
    decreases |settings|
  {
    if settings == [] {
      assert SettingsLine(settings) == "\t";
      assert CountChar("\t", '\t') == CountChar("", '\t') + 1;
    } else {
      var init := settings[..|settings| - 1];
      var last := settings[|settings| - 1];
      SettingsLineTabs(init);
      var tail := if last.Some? then Shown(last.value) + "\t" else "";
      assert SettingsLine(settings) == SettingsLine(init) + tail;
      CountCharAppend(SettingsLine(init), tail, '\t');
      if last.Some? {
        TabFreeCount(Shown(last.value));
        CountCharAppend(Shown(last.value), "\t", '\t');
        assert CountChar("\t", '\t') == CountChar("", '\t') + 1;
      }
    }
  }

  datatype ToggleOutcome =
    | Unchanged                                // no settings, or none at all
    | Refreshed                                // index 0: the line is only re-sent
    | Toggled(settings: seq<Option<Setting>>)  // one setting flipped, the line re-sent
    | Fault                                    // index past the end, or a missing entry

  /** `Format1BHandler`: index `i > 0` flips setting `i - 1`; `Toggle` is
      taken to flip `Enabled`. */
  function Toggle(gameSettings: Option<seq<Option<Setting>>>, index: int): (r: ToggleOutcome)
    ensures r.Toggled? <==> gameSettings.Some? && 0 < index <= |gameSettings.value| && gameSettings.value[index - 1].Some?
    ensures r.Refreshed? <==> gameSettings.Some? && gameSettings.value != [] && index <= 0
    ensures r.Fault? <==> gameSettings.Some? && gameSettings.value != [] && 0 < index &&
                          (index > |gameSettings.value| || gameSettings.value[index - 1].None?)
    ensures r.Toggled? ==> |r.settings| == |gameSettings.value|
    ensures r.Toggled? ==> forall k :: 0 <= k < |r.settings| && k != index - 1 ==> r.settings[k] == gameSettings.value[k]
    ensures r.Toggled? ==>
              var old_ := gameSettings.value[index - 1].value;
              r.settings[index - 1] == Some(old_.(enabled := !old_.enabled))
  {
    if gameSettings.None? || gameSettings.value == [] then Unchanged
    else if index > 0 then
      var i := index - 1;
      if i >= |gameSettings.value| then Fault
      else match gameSettings.value[i]
        case None => Fault
        case Some(s) => Toggled(gameSettings.value[i := Some(s.(enabled := !s.enabled))])
    else Refreshed
  }

  /** Toggling the same setting twice restores the settings. */
  lemma ToggleTwice(settings: seq<Option<Setting>>, index: int)
    requires Toggle(Some(settings), index).Toggled?
    ensures Toggle(Some(Toggle(Some(settings), index).settings), index) == Toggled(settings)
  {
  }
}
