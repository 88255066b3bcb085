/**
 * The theme of the app (src/components/providers/theme-provider.tsx): the
 * configuration record, the partial updates merged over it by object spread,
 * the CSS variables the apply effect writes, and the provider object that
 * loads, applies, updates and persists the theme.
 */
module ThemeProvider {
  import opened Common

  /**
   * A theme: the seven `ThemeConfig` fields (lines 7-15), plus the `ring` and
   * `card` keys that the customizer's partial objects add and the spread
   * carries along, absent until some update sets them.
   */
  datatype Theme = Theme(primary: string, secondary: string, accent: string, background: string,
                         foreground: string, radius: string, font: string,
                         ring: Option<string>, card: Option<string>)

  /** A partial theme: `Partial<ThemeConfig>`, or a stored config; `None` is an absent key. */
  datatype ThemePatch = ThemePatch(primary: Option<string>, secondary: Option<string>,
                                   accent: Option<string>, background: Option<string>,
                                   foreground: Option<string>, radius: Option<string>,
                                   font: Option<string>, ring: Option<string>, card: Option<string>)

  /** The keys an object of either shape may carry. */
  datatype Key = Primary | Secondary | Accent | Background | Foreground | Radius | Font | Ring | Card

  /** `defaultTheme` (lines 17-25). */
  const DefaultTheme := Theme("255 100 100", "40 40 50", "255 200 100", "10 10 15",
                              "250 250 250", "0.75rem", "Inter", None, None)

  /** The partial with no keys. */
  const EmptyPatch := ThemePatch(None, None, None, None, None, None, None, None, None)

  /** The value a theme holds under key `k`, if any. */
  function Get(t: Theme, k: Key): Option<string> {
    match k
    case Primary => Some(t.primary)
    case Secondary => Some(t.secondary)
    case Accent => Some(t.accent)
    case Background => Some(t.background)
    case Foreground => Some(t.foreground)
    case Radius => Some(t.radius)
    case Font => Some(t.font)
    case Ring => t.ring
    case Card => t.card
  }

  /** The value a partial holds under key `k`, if any. */
  function At(p: ThemePatch, k: Key): Option<string> {
    match k
    case Primary => p.primary
    case Secondary => p.secondary
    case Accent => p.accent
    case Background => p.background
    case Foreground => p.foreground
    case Radius => p.radius
    case Font => p.font
    case Ring => p.ring
    case Card => p.card
  }

  /** Two themes holding the same value under every key are the same theme. */
  lemma ThemeExt(a: Theme, b: Theme)
    requires forall k :: Get(a, k) == Get(b, k)
    ensures a == b
  {
    assert Get(a, Primary) == Get(b, Primary) && Get(a, Secondary) == Get(b, Secondary);
    assert Get(a, Accent) == Get(b, Accent) && Get(a, Background) == Get(b, Background);
    assert Get(a, Foreground) == Get(b, Foreground) && Get(a, Radius) == Get(b, Radius);
    assert Get(a, Font) == Get(b, Font) && Get(a, Ring) == Get(b, Ring) && Get(a, Card) == Get(b, Card);
  }

  function Over(v: Option<string>, prev: string): string {
    match v
    case Some(x) => x
    case None => prev
  }

  function OverOpt(v: Option<string>, prev: Option<string>): Option<string> {
    if v.Some? then v else prev
  }

  /** `{ ...t, ...p }` (lines 54 and 87): every key of `p` overwrites, the rest of `t` stays. */
  function Merge(t: Theme, p: ThemePatch): (r: Theme)
    ensures forall k :: Get(r, k) == if At(p, k).Some? then At(p, k) else Get(t, k)
  {
    Theme(Over(p.primary, t.primary), Over(p.secondary, t.secondary),
          Over(p.accent, t.accent), Over(p.background, t.background),
          Over(p.foreground, t.foreground), Over(p.radius, t.radius),
          Over(p.font, t.font), OverOpt(p.ring, t.ring), OverOpt(p.card, t.card))
  }

  /** `{ ...p, ...q }`: the keys of `q` win over those of `p`. */
  function Combine(p: ThemePatch, q: ThemePatch): (r: ThemePatch)
    ensures forall k :: At(r, k) == if At(q, k).Some? then At(q, k) else At(p, k)
  {
    ThemePatch(OverOpt(q.primary, p.primary), OverOpt(q.secondary, p.secondary),
               OverOpt(q.accent, p.accent), OverOpt(q.background, p.background),
               OverOpt(q.foreground, p.foreground), OverOpt(q.radius, p.radius),
               OverOpt(q.font, p.font), OverOpt(q.ring, p.ring), OverOpt(q.card, p.card))
  }

  /** A whole theme as a stored config: every key it holds is present. */
  function AsPatch(t: Theme): (p: ThemePatch)
    ensures forall k :: At(p, k) == Get(t, k)
  {
    ThemePatch(Some(t.primary), Some(t.secondary), Some(t.accent), Some(t.background),
               Some(t.foreground), Some(t.radius), Some(t.font), t.ring, t.card)
  }

  // ---------------------------------------------------------------------------
  // Merge laws
  // ---------------------------------------------------------------------------

  /** An empty partial leaves the theme unchanged (line 87). */
  lemma MergeEmpty(t: Theme)
    ensures Merge(t, EmptyPatch) == t
  {
    ThemeExt(Merge(t, EmptyPatch), t);
  }

  /** Applying the same partial twice gives the theme applying it once gives (line 87). */
  lemma MergeIdempotent(t: Theme, p: ThemePatch)
    ensures Merge(Merge(t, p), p) == Merge(t, p)
  {
    ThemeExt(Merge(Merge(t, p), p), Merge(t, p));
  }

  /** Two updates in a row are one update with the spread of both partials. */
  lemma MergeCompose(t: Theme, p: ThemePatch, q: ThemePatch)
    ensures Merge(Merge(t, p), q) == Merge(t, Combine(p, q))
  {
    ThemeExt(Merge(Merge(t, p), q), Merge(t, Combine(p, q)));
  }

  /** Partials with no key in common can be applied in either order. */
  lemma MergeCommutes(t: Theme, p: ThemePatch, q: ThemePatch)
    requires forall k :: !(At(p, k).Some? && At(q, k).Some?)
    ensures Merge(Merge(t, p), q) == Merge(Merge(t, q), p)
  {
    ThemeExt(Merge(Merge(t, p), q), Merge(Merge(t, q), p));
  }

  /**
   * A stored theme loaded back over any theme restores every key it holds,
   * and loaded over itself changes nothing (lines 54, 94).
   */
  lemma StoredThemeRestores(current: Theme, stored: Theme)
    ensures forall k :: Get(stored, k).Some? ==> Get(Merge(current, AsPatch(stored)), k) == Get(stored, k)
    ensures Merge(stored, AsPatch(stored)) == stored
  {
    ThemeExt(Merge(stored, AsPatch(stored)), stored);
  }

  // ---------------------------------------------------------------------------
  // CSS variables
  // ---------------------------------------------------------------------------

  const FontVar := "--font-sans"

  /** The font stack for a font name (lines 78-82); other names write nothing. */
  function FontStack(font: string): (stack: Option<string>)
    ensures font == "Inter" ==> stack == Some("Inter, sans-serif")
    ensures font == "Serif" ==> stack == Some("Playfair Display, serif")
    ensures font != "Inter" && font != "Serif" ==> stack.None?
  {
    if font == "Inter" then Some("Inter, sans-serif")
    else if font == "Serif" then Some("Playfair Display, serif")
    else None
  }

  /** The keys written as CSS variables (lines 70-75). */
  predicate Styled(k: Key) {
    k in {Primary, Secondary, Accent, Background, Foreground, Radius}
  }

  /** The variable `setVar(name, …)` writes for key `k` (line 67). */
  function VarName(k: Key): string
    requires Styled(k)
  {
    match k
    case Primary => "--primary"
    case Secondary => "--secondary"
    case Accent => "--accent"
    case Background => "--background"
    case Foreground => "--foreground"
    case Radius => "--radius"
  }

  /** The names the apply effect writes for theme `t`. */
  function Written(t: Theme): set<string> {
    {"--primary", "--secondary", "--accent", "--background", "--foreground", "--radius"}
    + (if FontStack(t.font).Some? then {FontVar} else {})
  }

  /**
   * The inline style of the root element after the apply effect ran for `t`:
   * each `setVar` overwrites one property, then the font stack, if any
   * (lines 62-84).
   */
  function StyleFor(style: map<string, string>, t: Theme): map<string, string> {
    var vars := style["--primary" := t.primary]["--secondary" := t.secondary]["--accent" := t.accent]
                     ["--background" := t.background]["--foreground" := t.foreground]["--radius" := t.radius];
    match FontStack(t.font)
    case Some(stack) => vars[FontVar := stack]
    case None => vars
  }

  /**
   * The apply effect writes the six variables from the same-named fields,
   * writes the font stack only for a known font, and leaves every other
   * property as it was (lines 70-82).
   */
  lemma StyleWritesTheme(style: map<string, string>, t: Theme)
    ensures StyleFor(style, t).Keys == style.Keys + Written(t)
    ensures forall k :: Styled(k) ==> StyleFor(style, t)[VarName(k)] == Get(t, k).value
    ensures FontStack(t.font).Some? ==> StyleFor(style, t)[FontVar] == FontStack(t.font).value
    ensures forall n :: n in style && n !in Written(t) ==> StyleFor(style, t)[n] == style[n]
  {
  }

  /** `ring` and `card` never reach the style (lines 70-82). */
  lemma StyleIgnoresRingAndCard(style: map<string, string>, t: Theme, ring: Option<string>, card: Option<string>)
    ensures StyleFor(style, t.(ring := ring, card := card)) == StyleFor(style, t)
  {
  }

  /** Running the apply effect again for the same theme changes nothing. */
  lemma StyleIdempotent(style: map<string, string>, t: Theme)
    ensures StyleFor(StyleFor(style, t), t) == StyleFor(style, t)
  {
  }

  // ---------------------------------------------------------------------------
  // The provider
  // ---------------------------------------------------------------------------

  /** A call to the `themes` table. */
  datatype ThemeCall = Select(userId: UserId) | Upsert(userId: UserId, config: Theme, updatedAt: Time)

  /**
   * `ThemeProvider`: the `theme` state, the signed-in user, the root
   * element's inline style, the calls sent to the `themes` table and the
   * config fetches awaiting their answer. The store and the auth client are
   * taken to be the same objects on every render.
   */
  class Provider {
    var theme: Theme
    var user: Option<UserId>
    var style: map<string, string>
    var calls: seq<ThemeCall>
    var fetchesInFlight: nat

    /** The root element's style shows the theme: applying it again would change nothing. */
    predicate Applied()
      reads this
    {
      StyleFor(style, theme) == style
    }

    /** The provider's first render and its two effects (lines 39, 43-59, 62-84). */
    constructor (user0: Option<UserId>, style0: map<string, string>)
      ensures theme == DefaultTheme && user == user0
      ensures style == StyleFor(style0, DefaultTheme)
      ensures calls == (if user0.Some? then [Select(user0.value)] else [])
      ensures fetchesInFlight == (if user0.Some? then 1 else 0)
      ensures Applied()
    {
      theme := DefaultTheme;
      user := user0;
      style := style0;
      calls := [];
      fetchesInFlight := 0;
      new;
      LoadEffect();
      ApplyEffect();
    }

    /** The load effect: with a user, fetch that user's config (lines 44-58). */
    method LoadEffect()
      modifies this
      ensures theme == old(theme) && user == old(user) && style == old(style)
      ensures calls == old(calls) + (if user.Some? then [Select(user.value)] else [])
      ensures fetchesInFlight == old(fetchesInFlight) + (if user.Some? then 1 else 0)
      ensures old(Applied()) ==> Applied()
    {
      if user.Some? {
        calls := calls + [Select(user.value)];
        fetchesInFlight := fetchesInFlight + 1;
      }
    }

    /** The apply effect: one `setProperty` per variable, in the order of lines 70-82. */
    method ApplyEffect()
      modifies this
      ensures style == StyleFor(old(style), theme)
      ensures theme == old(theme) && user == old(user) && calls == old(calls)
      ensures fetchesInFlight == old(fetchesInFlight)
      ensures Applied()
    {
      ghost var before := style;
      style := style["--primary" := theme.primary];
      style := style["--secondary" := theme.secondary];
      style := style["--accent" := theme.accent];
      style := style["--background" := theme.background];
      style := style["--foreground" := theme.foreground];
      style := style["--radius" := theme.radius];
      if theme.font == "Inter" {
        style := style[FontVar := "Inter, sans-serif"];
      } else if theme.font == "Serif" {
        style := style[FontVar := "Playfair Display, serif"];
      }
      StyleIdempotent(before, theme);
    }

    /** The signed-in user changes; the load effect runs for the new one (line 59). */
    method UserChanged(u: Option<UserId>)
      modifies this
      ensures user == u && theme == old(theme) && style == old(style)
      ensures calls == old(calls) + (if u != old(user) && u.Some? then [Select(u.value)] else [])
      ensures fetchesInFlight == old(fetchesInFlight) + (if u != old(user) && u.Some? then 1 else 0)
      ensures old(Applied()) ==> Applied()
    {
      if u != user {
        user := u;
        LoadEffect();
      }
    }

    /**
     * A fetch returns: a config present in the answer is merged over the
     * current theme, which is then applied; anything else, an error
     * included, changes nothing (lines 47-55).
     */
    method ConfigLoaded(config: Option<ThemePatch>)
      modifies this
      ensures fetchesInFlight == if old(fetchesInFlight) > 0 then old(fetchesInFlight) - 1 else 0
      ensures theme == if old(fetchesInFlight) > 0 && config.Some? then Merge(old(theme), config.value) else old(theme)
      ensures style == if old(fetchesInFlight) > 0 && config.Some? then StyleFor(old(style), theme) else old(style)
      ensures user == old(user) && calls == old(calls)
      ensures old(Applied()) || (old(fetchesInFlight) > 0 && config.Some?) ==> Applied()
    {
      if fetchesInFlight > 0 {
        fetchesInFlight := fetchesInFlight - 1;
        if config.Some? {
          theme := Merge(theme, config.value);
          ApplyEffect();
        }
      }
    }

    /**
     * `updateTheme(p)`: merge `p` over the theme, apply it, and with a user
     * persist the whole merged theme (lines 86-95).
     */
    method UpdateTheme(p: ThemePatch, now: Time)
      modifies this
      ensures theme == Merge(old(theme), p)
      ensures style == StyleFor(old(style), theme)
      ensures calls == old(calls) + (if user.Some? then [Upsert(user.value, theme, now)] else [])
      ensures user == old(user) && fetchesInFlight == old(fetchesInFlight)
      ensures Applied()
    {
      var updated := Merge(theme, p);
      theme := updated;
      ApplyEffect();
      if user.Some? {
        calls := calls + [Upsert(user.value, updated, now)];
      }
    }
  }
}
