/** The colour themes of src/themes/mod.rs: four built-in themes of eight
    series colours each, a registry of themes with a current one, and a
    case-insensitive lookup by name that falls back to the light theme. */
module Themes {
  import opened Wrappers
  import opened Numeric

  /** A named set of page colours and the series palette. */
  datatype Theme = Theme(
    name: string,
    background: string,
    primary: string,
    secondary: string,
    accent: string,
    text: string,
    grid: string,
    axis: string,
    colors: seq<string>)

  function Light(): Theme {
    Theme("Light", "#ffffff", "#3498db", "#2ecc71", "#e74c3c", "#333333", "#dddddd", "#333333",
      ["#3498db", "#e74c3c", "#2ecc71", "#f39c12", "#9b59b6", "#1abc9c", "#34495e", "#e67e22"])
  }

  function Dark(): Theme {
    Theme("Dark", "#2c3e50", "#3498db", "#2ecc71", "#e74c3c", "#ecf0f1", "#34495e", "#ecf0f1",
      ["#3498db", "#e74c3c", "#2ecc71", "#f39c12", "#9b59b6", "#1abc9c", "#95a5a6", "#e67e22"])
  }

  function Material(): Theme {
    Theme("Material", "#fafafa", "#2196f3", "#4caf50", "#ff5722", "#212121", "#e0e0e0", "#424242",
      ["#2196f3", "#f44336", "#4caf50", "#ff9800", "#9c27b0", "#00bcd4", "#607d8b", "#795548"])
  }

  function Minimal(): Theme {
    Theme("Minimal", "#ffffff", "#000000", "#666666", "#999999", "#000000", "#f0f0f0", "#000000",
      ["#000000", "#666666", "#999999", "#cccccc", "#333333", "#555555", "#777777", "#aaaaaa"])
  }

  /** The built-in themes, in registration order. */
  function BuiltIn(): (r: seq<Theme>)
    ensures |r| == 4
  {
    [Light(), Dark(), Material(), Minimal()]
  }

  /** Every built-in palette has eight colours, and the four names differ. */
  lemma BuiltInPalettes()
    ensures forall i :: 0 <= i < 4 ==> |BuiltIn()[i].colors| == 8
    ensures forall i, j :: 0 <= i < j < 4 ==> BuiltIn()[i].name != BuiltIn()[j].name
  {
  }

  /** Series colour `index`, cycling through the palette. An empty palette
      would make the source divide by zero. */
  function GetColor(t: Theme, index: nat): (c: string)
    requires |t.colors| > 0
    ensures c in t.colors
    ensures index < |t.colors| ==> c == t.colors[index]
  {
    t.colors[index % |t.colors|]
  }

  /** The colours repeat with the palette's length as period. */
  lemma ColorsCycle(t: Theme, index: nat)
    requires |t.colors| > 0
    ensures GetColor(t, index + |t.colors|) == GetColor(t, index)
    ensures GetColor(t, index) == t.colors[index % |t.colors|]
  {
    ModAddPeriod(index, |t.colors|);
  }

  /** The first theme named exactly `name`, if any. */
  function Find(themes: seq<Theme>, name: string): (r: Option<Theme>)
    ensures r.None? <==> forall i :: 0 <= i < |themes| ==> themes[i].name != name
    ensures r.Some? ==> r.value.name == name
    ensures r.Some? ==> exists i :: (0 <= i < |themes| && themes[i] == r.value
      && forall j :: 0 <= j < i ==> themes[j].name != name)
    decreases |themes|
  {
    if themes == [] then None
    else if themes[0].name == name then Some(themes[0])
    else
      var r := Find(themes[1..], name);
      assert forall i :: 1 <= i < |themes| ==> themes[i] == themes[1..][i - 1];
      if r.Some? then
        ghost var k :| 0 <= k < |themes[1..]| && themes[1..][k] == r.value
          && forall j :: 0 <= j < k ==> themes[1..][j].name != name;
        assert themes[k + 1] == r.value && forall j :: 0 <= j < k + 1 ==> themes[j].name != name;
        r
      else r
  }

  /** A search only looks past themes of other names. */
  lemma FindPrefix(themes: seq<Theme>, more: seq<Theme>, name: string)
    requires Find(themes, name).Some?
    ensures Find(themes + more, name) == Find(themes, name)
    decreases |themes|
  {
    if themes[0].name != name {
      assert (themes + more)[1..] == themes[1..] + more;
      FindPrefix(themes[1..], more, name);
    }
  }

  /** The registered themes and the name of the current one. */
  datatype Manager = Manager(themes: seq<Theme>, current: string)

  /** The current name belongs to a registered theme. */
  predicate Valid(m: Manager) {
    exists i :: 0 <= i < |m.themes| && m.themes[i].name == m.current
  }

  /** The four built-in themes, the light one current. */
  function DefaultManager(): (m: Manager)
    ensures Valid(m)
    ensures m.themes == BuiltIn() && m.current == "Light"
  {
    assert BuiltIn()[0].name == "Light";
    Manager(BuiltIn(), "Light")
  }

  /** `add_theme`: register at the end. */
  function AddTheme(m: Manager, t: Theme): (r: Manager)
    ensures r.themes == m.themes + [t] && r.current == m.current
  {
    m.(themes := m.themes + [t])
  }

  /** `get_theme`: the first theme with exactly that name. */
  function GetTheme(m: Manager, name: string): Option<Theme> {
    Find(m.themes, name)
  }

  /** `get_current_theme`. */
  function GetCurrentTheme(m: Manager): Option<Theme> {
    GetTheme(m, m.current)
  }

  /** `set_current_theme`: switch only to a registered name. */
  function SetCurrentTheme(m: Manager, name: string): (r: Manager)
    ensures r.themes == m.themes
    ensures Find(m.themes, name).Some? ==> r.current == name
    ensures Find(m.themes, name).None? ==> r == m
  {
    if exists i :: 0 <= i < |m.themes| && m.themes[i].name == name then m.(current := name) else m
  }

  /** `list_themes`: the names in registration order. */
  function ListThemes(m: Manager): (r: seq<string>)
    ensures |r| == |m.themes| && forall i :: 0 <= i < |r| ==> r[i] == m.themes[i].name
  {
    seq(|m.themes|, i requires 0 <= i < |m.themes| => m.themes[i].name)
  }

  /** Every operation keeps the current name registered, so the current
      theme can always be found. */
  lemma ManagerStaysValid(m: Manager, t: Theme, name: string)
    requires Valid(m)
    ensures Valid(AddTheme(m, t)) && Valid(SetCurrentTheme(m, name))
    ensures GetCurrentTheme(m).Some? && GetCurrentTheme(m).value.name == m.current
  {
    var i :| 0 <= i < |m.themes| && m.themes[i].name == m.current;
    assert AddTheme(m, t).themes[i] == m.themes[i];
  }

  /** Registering a theme appends its name to the list and does not shadow
      a theme already registered under the same name. */
  lemma AddKeepsOrder(m: Manager, t: Theme, name: string)
    ensures ListThemes(AddTheme(m, t)) == ListThemes(m) + [t.name]
    ensures GetTheme(m, name).Some? ==> GetTheme(AddTheme(m, t), name) == GetTheme(m, name)
  {
    if GetTheme(m, name).Some? {
      FindPrefix(m.themes, [t], name);
    }
  }

  /** The default registry: its current theme is the light one, and lookup
      is case-sensitive. */
  lemma DefaultLookups()
    ensures GetCurrentTheme(DefaultManager()) == Some(Light())
    ensures GetTheme(DefaultManager(), "Dark") == Some(Dark())
    ensures GetTheme(DefaultManager(), "dark").None?
    ensures ListThemes(DefaultManager()) == ["Light", "Dark", "Material", "Minimal"]
  {
    assert BuiltIn()[0].name == "Light" && BuiltIn()[1].name == "Dark";
  }

  /** ASCII upper-case letters lowered; every other character kept. */
  function Lower(c: char): (r: char)
    ensures 'A' <= c <= 'Z' ==> r as int == c as int + 32
    ensures !('A' <= c <= 'Z') ==> r == c
  {
    if 'A' <= c <= 'Z' then (c as int + 32) as char else c
  }

  function ToLower(s: string): (r: string)
    ensures |r| == |s| && forall i :: 0 <= i < |s| ==> r[i] == Lower(s[i])
  {
    seq(|s|, i requires 0 <= i < |s| => Lower(s[i]))
  }

  /** Lowering twice is lowering once. */
  lemma ToLowerIdempotent(s: string)
    ensures ToLower(ToLower(s)) == ToLower(s)
  {
  }

  /** `from_name`: the theme whose lower-cased name matches, the light one otherwise. */
  function FromName(name: string): (t: Theme)
    ensures t in BuiltIn()
    ensures t != Light() ==> ToLower(t.name) == ToLower(name)
  {
    match ToLower(name)
    case "dark" => Dark()
    case "material" => Material()
    case "minimal" => Minimal()
    case _ => Light()
  }

  /** Lookup by name ignores case: every built-in theme is found by its own
      name in any case, and the case of a name never changes the answer. */
  lemma FromNameIgnoresCase(t: Theme, name: string)
    requires t in BuiltIn()
    ensures FromName(t.name) == t
    ensures FromName(ToLower(name)) == FromName(name)
    ensures FromName("DARK") == Dark()
  {
    ToLowerIdempotent(name);
    assert ToLower("DARK") == "dark";
    assert ToLower("Dark") == "dark";
    assert ToLower("Material") == "material";
    assert ToLower("Minimal") == "minimal";
    assert ToLower("Light") == "light";
  }
}
