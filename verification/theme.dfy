/**
 * The theme provider: a light/dark theme that starts from the operating
 * system's colour scheme, flips on request and follows later changes of the
 * system scheme.
 */
module ThemeContext {

  /** `'light' | 'dark'`: the theme is always one of exactly these two values. */
  datatype Theme = Light | Dark

  /**
   * What `Appearance.getColorScheme()` and the change listener report: the
   * system may also report no preference (`null` or `undefined`).
   */
  datatype ColorScheme = LightScheme | DarkScheme | NoPreference

  /** `colorScheme === 'dark' ? 'dark' : 'light'`. */
  function ThemeFor(scheme: ColorScheme): (t: Theme)
    ensures t == Dark <==> scheme == DarkScheme
    ensures t == Light <==> scheme != DarkScheme
  {
    if scheme == DarkScheme then Dark else Light
  }

  /** `t === 'light' ? 'dark' : 'light'`. */
  function Toggled(t: Theme): (r: Theme)
    ensures r != t
  {
    if t == Light then Dark else Light
  }

  /** Toggling maps light to dark and dark to light, and toggling twice restores the theme. */
  lemma ToggleIsInvolution(t: Theme)
    ensures Toggled(Light) == Dark && Toggled(Dark) == Light
    ensures Toggled(Toggled(t)) == t
  {
  }

  /** The two things that change the theme once the provider is mounted. */
  datatype ThemeEvent = Toggle | AppearanceChanged(scheme: ColorScheme)

  /** The provider's reaction to one event. */
  function Step(t: Theme, e: ThemeEvent): Theme {
    match e
    case Toggle => Toggled(t)
    case AppearanceChanged(scheme) => ThemeFor(scheme)
  }

  /** The theme after a run of events, applied in order. */
  function Replay(t: Theme, events: seq<ThemeEvent>): Theme
    decreases |events|
  {
    if events == [] then t else Replay(Step(t, events[0]), events[1..])
  }

  /** Toggling `n` times flips the theme exactly when `n` is odd. */
  function FlipTimes(t: Theme, n: nat): (r: Theme)
    ensures r == if n % 2 == 0 then t else Toggled(t)
  {
    if n == 0 then t else Toggled(FlipTimes(t, n - 1))
  }

  /**
   * A run of toggles with no appearance change flips the theme once per
   * toggle: it ends where it started after an even number of toggles.
   */
  lemma {:induction false} ReplayToggles(t: Theme, events: seq<ThemeEvent>)
    requires forall i :: 0 <= i < |events| ==> events[i] == Toggle
    ensures Replay(t, events) == FlipTimes(t, |events|)
    decreases |events|
  {
    if events != [] {
      ReplayToggles(Toggled(t), events[1..]);
      FlipCommutes(t, |events| - 1);
    }
  }

  /** One toggle before `n` more is the same as one toggle after them. */
  lemma {:induction false} FlipCommutes(t: Theme, n: nat)
    ensures FlipTimes(Toggled(t), n) == Toggled(FlipTimes(t, n))
  {
    if n > 0 {
      FlipCommutes(t, n - 1);
    }
  }

  /**
   * An appearance change overrides the current theme: whatever happened
   * before it, and from whatever theme, the run ends in the same theme.
   */
  lemma {:induction false} AppearanceChangeForgetsHistory(
    t1: Theme, t2: Theme, before1: seq<ThemeEvent>, before2: seq<ThemeEvent>,
    scheme: ColorScheme, after: seq<ThemeEvent>)
    ensures Replay(t1, before1 + [AppearanceChanged(scheme)] + after)
         == Replay(t2, before2 + [AppearanceChanged(scheme)] + after)
  {
    ReplayAppend(t1, before1, [AppearanceChanged(scheme)] + after);
    ReplayAppend(t2, before2, [AppearanceChanged(scheme)] + after);
    assert before1 + [AppearanceChanged(scheme)] + after == before1 + ([AppearanceChanged(scheme)] + after);
    assert before2 + [AppearanceChanged(scheme)] + after == before2 + ([AppearanceChanged(scheme)] + after);
  }

  /** Replaying two runs one after the other is replaying their concatenation. */
  lemma {:induction false} ReplayAppend(t: Theme, xs: seq<ThemeEvent>, ys: seq<ThemeEvent>)
    ensures Replay(t, xs + ys) == Replay(Replay(t, xs), ys)
    decreases |xs|
  {
    if xs == [] {
      assert xs + ys == ys;
    } else {
      assert (xs + ys)[1..] == xs[1..] + ys;
      ReplayAppend(Step(t, xs[0]), xs[1..], ys);
    }
  }

  /** The provider's `theme` state. */
  class ThemeProvider {
    var theme: Theme

    /** The initial state is read from the system's colour scheme when the provider mounts. */
    constructor(scheme: ColorScheme)
      ensures theme == ThemeFor(scheme)
      ensures theme == Dark <==> scheme == DarkScheme
    {
      theme := ThemeFor(scheme);
    }

    /** `toggleTheme()`. */
    method ToggleTheme()
      modifies this
      ensures theme == Toggled(old(theme))
      ensures theme != old(theme)
    {
      theme := Toggled(theme);
    }

    /** The body of the appearance-change listener: the new scheme decides, the old theme does not. */
    method OnAppearanceChange(scheme: ColorScheme)
      modifies this
      ensures theme == ThemeFor(scheme)
      ensures theme == Dark <==> scheme == DarkScheme
    {
      theme := ThemeFor(scheme);
    }
  }
}
