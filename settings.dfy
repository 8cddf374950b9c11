/** The `Settings` panel: three colour cells, seeded from the `appSettings`
    storage entry when the panel mounts, edited through the inputs, reset to
    a fixed palette, and saved back to storage and to the parent through the
    `onSaveSettings` and `onClose` callbacks. */
module Settings {
  import opened Common
  import opened Browser
  import opened Json

  const SettingsKey := "appSettings"

  datatype Colours = Colours(gradientColor1: string, gradientColor2: string, accentColor: string)

  /** The `useState` initial values, lines 4-6. */
  const Initial := Colours("#0f172a", "#1e293b", "#10b981")

  /** The palette `resetToDefaults` sets, lines 30-32. */
  const Defaults := Colours("#135e59", "#131631", "#0fba3a")

  datatype Field = GradientColor1 | GradientColor2 | AccentColor

  /** A call the panel makes to its parent. */
  datatype Callback = SaveSettings(settings: Colours) | Close

  /** The settings object in property order. */
  function Fields(c: Colours): seq<(string, string)>
  {
    [("gradientColor1", c.gradientColor1), ("gradientColor2", c.gradientColor2), ("accentColor", c.accentColor)]
  }

  /** `JSON.stringify(settings)`. */
  function Stringify(c: Colours): string
  {
    EncodeObject(Fields(c))
  }

  /** What line 9 hands to `JSON.parse`: the stored entry, or `'{}'` when it is
      missing or empty. */
  function SavedText(store: map<string, string>): string
  {
    var t := Get(store, SettingsKey);
    if Truthy(t) then t.value else "{}"
  }

  /** Lines 10-12: each colour is replaced by the saved property of the same
      name when that property is truthy. */
  function Overlay(c: Colours, saved: map<string, string>): Colours
  {
    Colours(
      if Truthy(Get(saved, "gradientColor1")) then saved["gradientColor1"] else c.gradientColor1,
      if Truthy(Get(saved, "gradientColor2")) then saved["gradientColor2"] else c.gradientColor2,
      if Truthy(Get(saved, "accentColor")) then saved["accentColor"] else c.accentColor)
  }

  /** The object a save writes has the three colours under their names. */
  lemma CollectFields(c: Colours)
    ensures Collect(map[], Fields(c)) ==
              map["gradientColor1" := c.gradientColor1, "gradientColor2" := c.gradientColor2, "accentColor" := c.accentColor]
  {
    var f := Fields(c);
    var m1 := map["gradientColor1" := c.gradientColor1];
    var m2 := m1["gradientColor2" := c.gradientColor2];
    var m3 := m2["accentColor" := c.accentColor];
    assert f[1..] == [("gradientColor2", c.gradientColor2), ("accentColor", c.accentColor)];
    assert f[1..][1..] == [("accentColor", c.accentColor)];
    assert f[1..][1..][1..] == [];
    assert Collect(m3, f[1..][1..][1..]) == m3;
    assert Collect(m2, f[1..][1..]) == m3;
    assert Collect(m1, f[1..]) == m3;
  }

  /** The text a save writes is what the next load parses, and it parses
      back to the saved colours. */
  lemma SavedTextParses(c: Colours, store: map<string, string>)
    ensures SavedText(store[SettingsKey := Stringify(c)]) == Stringify(c)
    ensures ParseObject(Stringify(c)) ==
              Some(map["gradientColor1" := c.gradientColor1, "gradientColor2" := c.gradientColor2, "accentColor" := c.accentColor])
  {
    assert Stringify(c)[0] == '{';
    ObjectRoundTrip(Fields(c));
    CollectFields(c);
  }

  /** Overlaying a saved object that holds all three properties. */
  lemma OverlayAll(a: string, b: string, d: string, current: Colours)
    ensures Overlay(current, map["gradientColor1" := a, "gradientColor2" := b, "accentColor" := d]) ==
              Colours(
                if a != "" then a else current.gradientColor1,
                if b != "" then b else current.gradientColor2,
                if d != "" then d else current.accentColor)
  {
    assert "gradientColor1"[13] != "gradientColor2"[13];
    assert "gradientColor1"[0] != "accentColor"[0];
    assert "gradientColor2"[0] != "accentColor"[0];
  }

  /** Loading what a save wrote gives back every non-empty colour; an empty
      one is falsy and keeps the colour the panel had. */
  lemma LoadAfterSave(c: Colours, current: Colours, store: map<string, string>)
    ensures ParseObject(SavedText(store[SettingsKey := Stringify(c)])).Some?
    ensures Overlay(current, ParseObject(SavedText(store[SettingsKey := Stringify(c)])).value) ==
              Colours(
                if c.gradientColor1 != "" then c.gradientColor1 else current.gradientColor1,
                if c.gradientColor2 != "" then c.gradientColor2 else current.gradientColor2,
                if c.accentColor != "" then c.accentColor else current.accentColor)
  {
    SavedTextParses(c, store);
    OverlayAll(c.gradientColor1, c.gradientColor2, c.accentColor, current);
  }

  /** Without a usable entry the panel parses `'{}'` and keeps its colours. */
  lemma NothingSavedKeepsColours(store: map<string, string>, current: Colours)
    requires !Truthy(Get(store, SettingsKey))
    ensures ParseObject(SavedText(store)) == Some(map[])
    ensures Overlay(current, map[]) == current
  {
    EmptyObjectParses(SavedText(store));
  }

  class SettingsPanel {
    const window: Window

    var gradientColor1: string
    var gradientColor2: string
    var accentColor: string

    /** The calls made to the parent's callbacks, in order. */
    var calls: seq<Callback>

    function Current(): Colours
      reads this
    {
      Colours(gradientColor1, gradientColor2, accentColor)
    }

    /** The first render. */
    constructor (window: Window)
      ensures this.window == window && Current() == Initial && calls == []
    {
      this.window := window;
      gradientColor1, gradientColor2, accentColor := Initial.gradientColor1, Initial.gradientColor2, Initial.accentColor;
      calls := [];
    }

    /** The mount effect, lines 8-13. When the text does not parse, the
        effect throws and nothing changes. */
    method LoadSaved() returns (threw: bool)
      modifies this
      ensures threw <==> ParseObject(SavedText(window.storage)).None?
      ensures threw ==> Current() == old(Current())
      ensures !threw ==> Current() == Overlay(old(Current()), ParseObject(SavedText(window.storage)).value)
      ensures calls == old(calls)
    {
      threw := ApplySaved(ParseObject(SavedText(window.storage)));
    }

    /** Lines 10-12 once `JSON.parse` has run: a thrown parse changes
        nothing, a parsed object is overlaid on the current colours. */
    method ApplySaved(saved: Option<map<string, string>>) returns (threw: bool)
      modifies this
      ensures threw <==> saved.None?
      ensures threw ==> Current() == old(Current())
      ensures !threw ==> Current() == Overlay(old(Current()), saved.value)
      ensures calls == old(calls)
    {
      threw := saved.None?;
      if !threw {
        var merged := Overlay(Current(), saved.value);
        gradientColor1, gradientColor2, accentColor := merged.gradientColor1, merged.gradientColor2, merged.accentColor;
      }
    }

    /** An input's `onChange`: the one colour takes the input's value. */
    method Edit(field: Field, value: string)
      modifies this
      ensures field == GradientColor1 ==> Current() == old(Current()).(gradientColor1 := value)
      ensures field == GradientColor2 ==> Current() == old(Current()).(gradientColor2 := value)
      ensures field == AccentColor ==> Current() == old(Current()).(accentColor := value)
      ensures calls == old(calls)
    {
      match field
      case GradientColor1 => gradientColor1 := value;
      case GradientColor2 => gradientColor2 := value;
      case AccentColor => accentColor := value;
    }

    /** `resetToDefaults`: sets the reset palette, which is not the initial
        one, and neither writes storage nor calls the parent. */
    method ResetToDefaults()
      modifies this
      ensures Current() == Defaults && Current() != Initial
      ensures calls == old(calls)
    {
      gradientColor1, gradientColor2, accentColor := Defaults.gradientColor1, Defaults.gradientColor2, Defaults.accentColor;
    }

    /** `handleSave`, lines 15-27: stores the current colours as JSON under
        `appSettings`, hands the same object to `onSaveSettings`, then calls
        `onClose`. */
    method HandleSave()
      modifies this, window
      ensures window.storage == old(window.storage)[SettingsKey := Stringify(old(Current()))]
      ensures window.location == old(window.location)
      ensures calls == old(calls) + [SaveSettings(old(Current())), Close]
      ensures Current() == old(Current())
    {
      var settings := Current();
      var text := Stringify(settings);
      window.SetItem(SettingsKey, text);
      calls := calls + [SaveSettings(settings), Close];
    }

    /** The close button of line 43: only `onClose`, nothing saved. */
    method Dismiss()
      modifies this
      ensures calls == old(calls) + [Close]
      ensures Current() == old(Current())
    {
      calls := calls + [Close];
    }

    /** Line 35 onwards: nothing when closed, otherwise the form showing the
        current colours. */
    function Render(isOpen: bool): (shown: Option<Colours>)
      reads this
      ensures shown.None? <==> !isOpen
      ensures shown.Some? ==> shown.value == Current()
    {
      if !isOpen then None else Some(Current())
    }
  }

  /** Colours saved from one panel come back in the next panel mounted on the
      same storage, whatever was stored before. */
  method SaveThenReopen(store: map<string, string>, chosen: Colours) returns (restored: Colours)
    requires chosen.gradientColor1 != "" && chosen.gradientColor2 != "" && chosen.accentColor != ""
    ensures restored == chosen
  {
    var window := new Window(store);
    SaveWithPanel(window, chosen);
    restored := Reopen(window, chosen, store);
  }

  /** A panel mounted on storage holding what a save of `saved` wrote shows
      `saved`, when none of its colours is empty. */
  method Reopen(window: Window, saved: Colours, before: map<string, string>) returns (restored: Colours)
    requires window.storage == before[SettingsKey := Stringify(saved)]
    requires saved.gradientColor1 != "" && saved.gradientColor2 != "" && saved.accentColor != ""
    ensures restored == saved
  {
    var reopened := new SettingsPanel(window);
    var initial := reopened.Current();
    LoadAfterSave(saved, initial, before);
    var _ := reopened.LoadSaved();
    restored := reopened.Current();
  }

  /** A panel on `window` whose three inputs are set to `chosen` and saved
      writes `chosen` to storage. */
  method SaveWithPanel(window: Window, chosen: Colours)
    modifies window
    ensures window.storage == old(window.storage)[SettingsKey := Stringify(chosen)]
  {
    var panel := new SettingsPanel(window);
    panel.Edit(GradientColor1, chosen.gradientColor1);
    panel.Edit(GradientColor2, chosen.gradientColor2);
    panel.Edit(AccentColor, chosen.accentColor);
    panel.HandleSave();
  }
}
