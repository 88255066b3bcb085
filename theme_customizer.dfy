/**
 * The settings panel `ThemeCustomizer`
 * (src/components/settings/theme-customizer.tsx): four option tables, the
 * partial update each button sends to `updateTheme`, and which button is
 * shown selected.
 */
module ThemeCustomizer {
  import opened Common
  import opened ThemeProvider

  /** A button: its label and the value it stands for. */
  datatype ThemeOption = ThemeOption(name: string, value: string)

  /** `colors` (lines 7-14). */
  const Colors: seq<ThemeOption> := [
    ThemeOption("Default Red", "255 100 100"),
    ThemeOption("Ocean Blue", "56 189 248"),
    ThemeOption("Emerald Green", "52 211 153"),
    ThemeOption("Amber Gold", "251 191 36"),
    ThemeOption("Violet Purple", "167 139 250"),
    ThemeOption("Rose Pink", "251 113 133")]

  /** `bgs` (lines 16-21). */
  const Bgs: seq<ThemeOption> := [
    ThemeOption("Midnight", "10 10 15"),
    ThemeOption("Deep Space", "15 23 42"),
    ThemeOption("Forest Night", "2 44 34"),
    ThemeOption("Slate", "30 41 59")]

  /** `fonts` (lines 23-26). */
  const Fonts: seq<ThemeOption> := [
    ThemeOption("Modern Sans", "Inter"),
    ThemeOption("Elegant Serif", "Serif")]

  /** `radii` (lines 28-34). */
  const Radii: seq<ThemeOption> := [
    ThemeOption("Sharp", "0rem"),
    ThemeOption("Slight", "0.25rem"),
    ThemeOption("Standard", "0.5rem"),
    ThemeOption("Rounded", "0.75rem"),
    ThemeOption("Pill", "1.5rem")]

  /** The background whose cards get a lighter tone (line 78). */
  const Midnight := "10 10 15"
  const MidnightCard := "20 20 25"

  /** The four rows of buttons. */
  datatype Group = AccentColor | BackgroundTone | Typography | CornerRadius

  function Options(g: Group): seq<ThemeOption> {
    match g
    case AccentColor => Colors
    case BackgroundTone => Bgs
    case Typography => Fonts
    case CornerRadius => Radii
  }

  /** The theme key a row compares its buttons against (lines 56, 81, 106, 127). */
  function Shown(g: Group): Key {
    match g
    case AccentColor => Primary
    case BackgroundTone => Background
    case Typography => Font
    case CornerRadius => Radius
  }

  /** A button is shown selected iff the theme's field equals its value. */
  predicate Selected(t: Theme, g: Group, o: ThemeOption) {
    Get(t, Shown(g)) == Some(o.value)
  }

  /** The card tone set with background `v` (line 78). */
  function CardFor(v: string): string {
    if v == Midnight then MidnightCard else v
  }

  /** The partial a button sends to `updateTheme` (lines 53, 78, 103, 124). */
  function Choose(g: Group, v: string): ThemePatch {
    match g
    case AccentColor => EmptyPatch.(primary := Some(v), ring := Some(v))
    case BackgroundTone => EmptyPatch.(background := Some(v), card := Some(CardFor(v)))
    case Typography => EmptyPatch.(font := Some(v))
    case CornerRadius => EmptyPatch.(radius := Some(v))
  }

  /** The keys a row's buttons write. */
  predicate Writes(g: Group, k: Key) {
    match g
    case AccentColor => k == Primary || k == Ring
    case BackgroundTone => k == Background || k == Card
    case Typography => k == Font
    case CornerRadius => k == Radius
  }

  /** The values of a table are pairwise distinct. */
  predicate Distinct(opts: seq<ThemeOption>) {
    forall i, j :: 0 <= i < |opts| && 0 <= j < |opts| && opts[i].value == opts[j].value ==> i == j
  }

  // ---------------------------------------------------------------------------
  // What a button does
  // ---------------------------------------------------------------------------

  /**
   * A button changes exactly the keys of its row: the accent sets `primary`
   * and `ring` to its value, a background sets `background` and `card`, a
   * font only `font`, a radius only `radius`; every other key keeps its
   * value (lines 53, 78, 103, 124).
   */
  lemma ChoiceWrites(t: Theme, g: Group, v: string)
    ensures forall k :: !Writes(g, k) ==> Get(Merge(t, Choose(g, v)), k) == Get(t, k)
    ensures Get(Merge(t, Choose(g, v)), Shown(g)) == Some(v)
    ensures g == AccentColor ==> Merge(t, Choose(g, v)).ring == Some(v)
    ensures g == BackgroundTone ==> Merge(t, Choose(g, v)).card == Some(CardFor(v))
  {
    forall k | !Writes(g, k)
      ensures At(Choose(g, v), k).None?
    {
      match g
      case AccentColor => assert k != Primary && k != Ring;
      case BackgroundTone => assert k != Background && k != Card;
      case Typography => assert k != Font;
      case CornerRadius => assert k != Radius;
    }
  }

  /** Midnight gets the lighter card tone; every other background is its own card (line 78). */
  lemma BackgroundCard(t: Theme, v: string)
    ensures Merge(t, Choose(BackgroundTone, v)).card == Some(if v == "10 10 15" then "20 20 25" else v)
    ensures Merge(t, Choose(BackgroundTone, v)).background == v
  {
  }

  // ---------------------------------------------------------------------------
  // Selection
  // ---------------------------------------------------------------------------

  /** No two buttons of a row stand for the same value (lines 7-34). */
  lemma TablesDistinct(g: Group)
    ensures Distinct(Options(g))
  {
  }

  /** At most one button of a row is shown selected. */
  lemma AtMostOneSelected(t: Theme, g: Group, i: nat, j: nat)
    requires i < |Options(g)| && j < |Options(g)|
    requires Selected(t, g, Options(g)[i]) && Selected(t, g, Options(g)[j])
    ensures i == j
  {
    TablesDistinct(g);
  }

  /** After pressing button `i` of a row, button `j` of that row is selected iff `j == i`. */
  lemma ChoiceSelects(t: Theme, g: Group, i: nat, j: nat)
    requires i < |Options(g)| && j < |Options(g)|
    ensures Selected(Merge(t, Choose(g, Options(g)[i].value)), g, Options(g)[j]) <==> i == j
  {
    ChoiceWrites(t, g, Options(g)[i].value);
    TablesDistinct(g);
  }

  /** The default theme shows Default Red, Midnight, Modern Sans and Rounded selected. */
  lemma DefaultSelection()
    ensures Selected(DefaultTheme, AccentColor, Colors[0])
    ensures Selected(DefaultTheme, BackgroundTone, Bgs[0])
    ensures Selected(DefaultTheme, Typography, Fonts[0])
    ensures Selected(DefaultTheme, CornerRadius, Radii[3])
  {
  }
}
