/**
 * The admin theme definition and the CSS custom properties generated from it
 * (backend/src/admin/theme-config.ts).
 */
module AdminThemeConfig {
  import opened Wrappers

  /** A colour role with one value per display mode. */
  datatype ModeColor = ModeColor(light: string, dark: string)

  datatype Colors = Colors(
    primary: map<int, string>,
    background: ModeColor,
    card: ModeColor,
    secondary: ModeColor,
    accent: ModeColor,
    muted: ModeColor,
    foreground: ModeColor,
    border: ModeColor)

  datatype Shadows = Shadows(card: string, cardDark: string)

  datatype ThemeConfig = ThemeConfig(colors: Colors, borderRadius: string, fontFamily: string, shadows: Shadows)

  /** `adminThemeConfig`: fixed at load time and never changed. */
  const Config: ThemeConfig := ThemeConfig(
    Colors(
      map[50 := "#fdf2f8", 100 := "#fce7f3", 500 := "#d04f99", 600 := "#be185d", 900 := "#831843"],
      ModeColor("#f6e6ee", "#12242e"),
      ModeColor("#fdedc9", "#1c2e38"),
      ModeColor("#8acfd1", "#50afb6"),
      ModeColor("#fbe2a7", "#e6d177"),
      ModeColor("#b2e1eb", "#324859"),
      ModeColor("#5b5b5b", "#f3e3ea"),
      ModeColor("#d04f99", "#50afb6")),
    "0.4rem",
    "Poppins, sans-serif",
    Shadows("3px 3px 0px 0px hsl(325.78 58.18% 56.86% / 0.50)", "3px 3px 0px 0px hsl(195 61% 52% / 0.30)"))

  const PrimaryKey := "--admin-primary"
  const BgKey := "--admin-bg"
  const CardKey := "--admin-card"
  const SecondaryKey := "--admin-secondary"
  const AccentKey := "--admin-accent"
  const MutedKey := "--admin-muted"
  const ForegroundKey := "--admin-foreground"
  const BorderKey := "--admin-border"
  const RadiusKey := "--admin-radius"
  const ShadowKey := "--admin-shadow"
  const FontKey := "--admin-font-family"

  /** The mode-indexed variables and the colour role each one reads. */
  const RoleOfKey: map<string, ModeColor> := map[
    BgKey := Config.colors.background,
    CardKey := Config.colors.card,
    SecondaryKey := Config.colors.secondary,
    AccentKey := Config.colors.accent,
    MutedKey := Config.colors.muted,
    ForegroundKey := Config.colors.foreground,
    BorderKey := Config.colors.border]

  /** The variables that do not read a colour role by mode. */
  const FixedKeys: set<string> := {PrimaryKey, RadiusKey, ShadowKey, FontKey}

  const VariableKeys: set<string> := RoleOfKey.Keys + FixedKeys

  /**
   * `c[mode]` on a `{light, dark}` object: the mode string is used as a property name, so
   * any other string reads a property that does not exist.
   */
  function ByMode(c: ModeColor, mode: string): (o: Option<string>)
    ensures o.Some? <==> mode == "light" || mode == "dark"
    ensures mode == "light" ==> o == Some(c.light)
    ensures mode == "dark" ==> o == Some(c.dark)
  {
    if mode == "light" then Some(c.light)
    else if mode == "dark" then Some(c.dark)
    else None
  }

  /** The mode used when the argument is omitted. */
  function EffectiveMode(mode: Option<string>): string
  {
    mode.GetOr("light")
  }

  /**
   * `generateThemeVariables(mode)`. The result object always has the eleven keys; a key whose
   * lookup found nothing holds `undefined` (`None`).
   */
  function GenerateThemeVariables(mode: Option<string>): (vars: map<string, Option<string>>)
    ensures vars.Keys == VariableKeys
  {
    var theme := Config.colors;
    var m := EffectiveMode(mode);
    map[
      PrimaryKey := Some(theme.primary[500]),
      BgKey := ByMode(theme.background, m),
      CardKey := ByMode(theme.card, m),
      SecondaryKey := ByMode(theme.secondary, m),
      AccentKey := ByMode(theme.accent, m),
      MutedKey := ByMode(theme.muted, m),
      ForegroundKey := ByMode(theme.foreground, m),
      BorderKey := ByMode(theme.border, m),
      RadiusKey := Some(Config.borderRadius),
      ShadowKey := Some(if m == "light" then Config.shadows.card else Config.shadows.cardDark),
      FontKey := Some(Config.fontFamily)]
  }

  /** `--admin-primary` is `primary[500]`; radius and font family are copied from the configuration. */
  lemma FixedVariables(mode: Option<string>)
    ensures GenerateThemeVariables(mode)[PrimaryKey] == Some("#d04f99")
    ensures GenerateThemeVariables(mode)[RadiusKey] == Some(Config.borderRadius)
    ensures GenerateThemeVariables(mode)[FontKey] == Some(Config.fontFamily)
  {
  }

  /** Each role variable is that role's colour looked up by the effective mode. */
  lemma RolesFollowMode(mode: Option<string>)
    ensures forall k :: k in RoleOfKey ==> GenerateThemeVariables(mode)[k] == ByMode(RoleOfKey[k], EffectiveMode(mode))
  {
  }

  /** The variable table has exactly eleven entries, whatever the mode. */
  lemma ElevenVariables(mode: Option<string>)
    ensures |GenerateThemeVariables(mode)| == 11
  {
    var vars := GenerateThemeVariables(mode);
    assert vars.Keys == VariableKeys;
    KeyListIsVariableKeys();
    KeyListDistinct();
    DistinctKeys(KeyList);
  }

  /** The eleven variable names in the order the generator writes them. */
  const KeyList := [PrimaryKey, BgKey, CardKey, SecondaryKey, AccentKey, MutedKey, ForegroundKey,
                    BorderKey, RadiusKey, ShadowKey, FontKey]

  lemma KeyListIsVariableKeys()
    ensures VariableKeys == set k | k in KeyList
  {
  }

  /** The names differ in length or in their first character after `--admin-`. */
  lemma KeyListDistinct()
    ensures forall i, j :: 0 <= i < j < |KeyList| ==> KeyList[i] != KeyList[j]
  {
    var tags := [(15, 'p'), (10, 'b'), (12, 'c'), (17, 's'), (14, 'a'), (13, 'm'), (18, 'f'),
                 (14, 'b'), (14, 'r'), (14, 's'), (19, 'f')];
    forall i | 0 <= i < |KeyList|
      ensures |KeyList[i]| > 8 && (|KeyList[i]|, KeyList[i][8]) == tags[i]
    {
    }
  }

  /** Eleven pairwise different names make a set of eleven. */
  lemma {:induction false} DistinctKeys(keys: seq<string>)
    requires forall i, j :: 0 <= i < j < |keys| ==> keys[i] != keys[j]
    ensures |set k | k in keys| == |keys|
  {
    if keys != [] {
      DistinctKeys(keys[1..]);
      assert (set k | k in keys) == {keys[0]} + (set k | k in keys[1..]);
      assert keys[0] !in (set k | k in keys[1..]);
    }
  }

  /** In light and dark mode every role variable is that role's colour for the mode. */
  lemma KnownModeReadsRoles(mode: string)
    requires mode == "light" || mode == "dark"
    ensures forall k :: k in RoleOfKey ==>
      GenerateThemeVariables(Some(mode))[k] == Some(if mode == "light" then RoleOfKey[k].light else RoleOfKey[k].dark)
  {
  }

  /** The card shadow is chosen exactly for `'light'`; every other string, known or not, gets the dark one. */
  lemma ShadowFollowsLight(mode: Option<string>)
    ensures GenerateThemeVariables(mode)[ShadowKey] == Some(Config.shadows.card) <==> EffectiveMode(mode) == "light"
    ensures EffectiveMode(mode) != "light" ==> GenerateThemeVariables(mode)[ShadowKey] == Some(Config.shadows.cardDark)
  {
  }

  /** An unrecognised mode leaves all seven role variables undefined. */
  lemma UnknownModeLeavesRolesUndefined(mode: string)
    requires mode != "light" && mode != "dark"
    ensures forall k :: k in RoleOfKey ==> GenerateThemeVariables(Some(mode))[k] == None
  {
  }

  /** Primary colour, radius and font family are the same in every mode. */
  lemma FixedVariablesIgnoreMode(m1: Option<string>, m2: Option<string>)
    ensures GenerateThemeVariables(m1)[PrimaryKey] == GenerateThemeVariables(m2)[PrimaryKey]
    ensures GenerateThemeVariables(m1)[RadiusKey] == GenerateThemeVariables(m2)[RadiusKey]
    ensures GenerateThemeVariables(m1)[FontKey] == GenerateThemeVariables(m2)[FontKey]
  {
  }

  /** Omitting the mode is the same as asking for `'light'`. */
  lemma DefaultModeIsLight()
    ensures GenerateThemeVariables(None) == GenerateThemeVariables(Some("light"))
  {
  }

  /** The light and dark tables differ, so the variables tell which of the two modes produced them. */
  lemma VariablesDetermineMode(m1: string, m2: string)
    requires m1 == "light" || m1 == "dark"
    requires m2 == "light" || m2 == "dark"
    ensures GenerateThemeVariables(Some(m1)) == GenerateThemeVariables(Some(m2)) <==> m1 == m2
  {
    if m1 != m2 {
      var v1, v2 := GenerateThemeVariables(Some(m1)), GenerateThemeVariables(Some(m2));
      assert v1[BgKey] != v2[BgKey];
    }
  }
}
