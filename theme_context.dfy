/**
 * The storefront colour-theme context (storefront/src/lib/theme-context.tsx): the provider's
 * `colorTheme` state and the `data-theme` attribute it writes on the document element.
 */
module ThemeContext {
  import opened Wrappers

  datatype ColorTheme = Bubblegum | Default | Rose | Blue | Green {
    /** The string written to the `data-theme` attribute. */
    function Name(): string
    {
      match this
      case Bubblegum => "bubblegum"
      case Default => "default"
      case Rose => "rose"
      case Blue => "blue"
      case Green => "green"
    }
  }

  const InitialTheme := Bubblegum

  const AvailableThemes: seq<ColorTheme> := [Bubblegum, Default, Rose, Blue, Green]

  /** What a consumer reads from the context. */
  datatype ContextValue = ContextValue(colorTheme: ColorTheme, availableThemes: seq<ColorTheme>)

  /** The provider's state together with the document attribute (`None` while it is unset). */
  datatype ProviderState = ProviderState(colorTheme: ColorTheme, dataTheme: Option<string>)

  /** `handleSetColorTheme(t)`: sets the state and the attribute. */
  function SetColorTheme(s: ProviderState, t: ColorTheme): (r: ProviderState)
    ensures r.colorTheme == t && r.dataTheme == Some(t.Name())
    ensures InSync(r)
  {
    ProviderState(t, Some(t.Name()))
  }

  /** The state after a sequence of `setColorTheme` calls. */
  function SetAll(s: ProviderState, ts: seq<ColorTheme>): ProviderState
  {
    if ts == [] then s else SetColorTheme(SetAll(s, ts[..|ts| - 1]), ts[|ts| - 1])
  }

  /** The attribute, once written, names the in-memory theme. */
  predicate InSync(s: ProviderState)
  {
    s.dataTheme.Some? ==> s.dataTheme == Some(s.colorTheme.Name())
  }

  const ThemeContextError := "useThemeContext must be used within a ThemeContextProvider"

  /** `useThemeContext()`: reading the context outside a provider throws. */
  function UseThemeContext(ctx: Option<ContextValue>): (r: Result<ContextValue, string>)
    ensures r.Err? <==> ctx.None?
    ensures r.Err? ==> r.error == ThemeContextError
    ensures r.Ok? ==> r.value == ctx.value
  {
    match ctx
    case None => Err(ThemeContextError)
    case Some(v) => Ok(v)
  }

  /** The theme list has five distinct entries, contains the initial theme, and names every theme. */
  lemma AvailableThemesComplete()
    ensures |AvailableThemes| == 5
    ensures forall i, j :: 0 <= i < j < |AvailableThemes| ==> AvailableThemes[i] != AvailableThemes[j]
    ensures InitialTheme in AvailableThemes
    ensures forall t: ColorTheme :: t in AvailableThemes
  {
    forall t: ColorTheme ensures t in AvailableThemes {
      match t
      case Bubblegum => assert AvailableThemes[0] == t;
      case Default => assert AvailableThemes[1] == t;
      case Rose => assert AvailableThemes[2] == t;
      case Blue => assert AvailableThemes[3] == t;
      case Green => assert AvailableThemes[4] == t;
    }
  }

  /** Distinct themes write distinct attribute values. */
  lemma NamesDistinct(t1: ColorTheme, t2: ColorTheme)
    ensures t1.Name() == t2.Name() <==> t1 == t2
  {
    if t1 != t2 {
      assert t1.Name()[0] != t2.Name()[0] || t1.Name()[1] != t2.Name()[1];
    }
  }

  /** Setting the same theme twice is the same as setting it once. */
  lemma SetColorThemeIdempotent(s: ProviderState, t: ColorTheme)
    ensures SetColorTheme(SetColorTheme(s, t), t) == SetColorTheme(s, t)
  {
  }

  /**
   * From the initial state, no call leaves the attribute unset; after at least one call the
   * state is the last theme set and the attribute names it.
   */
  lemma {:induction false} SetAllFromInitial(ts: seq<ColorTheme>)
    ensures ts == [] ==> SetAll(ProviderState(InitialTheme, None), ts) == ProviderState(InitialTheme, None)
    ensures ts != [] ==>
      SetAll(ProviderState(InitialTheme, None), ts) == ProviderState(ts[|ts| - 1], Some(ts[|ts| - 1].Name()))
    ensures InSync(SetAll(ProviderState(InitialTheme, None), ts))
  {
    if ts != [] {
      SetAllFromInitial(ts[..|ts| - 1]);
    }
  }

  /** The document element (`document.documentElement`) whose attribute the provider writes. */
  class DocumentElement {
    var dataTheme: Option<string>

    constructor ()
      ensures dataTheme == None
    {
      dataTheme := None;
    }
  }

  /** `ThemeContextProvider`: its state and the document it writes to. */
  class ThemeContextProvider {
    var colorTheme: ColorTheme
    const availableThemes: seq<ColorTheme>
    const document: DocumentElement

    function State(): ProviderState
      reads this, document
    {
      ProviderState(colorTheme, document.dataTheme)
    }

    /** Mounting the provider: the initial theme, and the attribute left as it was. */
    constructor (document: DocumentElement)
      ensures this.document == document
      ensures colorTheme == InitialTheme && availableThemes == AvailableThemes
      ensures document.dataTheme == old(document.dataTheme)
    {
      colorTheme := InitialTheme;
      availableThemes := AvailableThemes;
      this.document := document;
    }

    /** The value the provider hands to its consumers. */
    function Value(): (v: ContextValue)
      reads this
      ensures v.colorTheme == colorTheme && v.availableThemes == availableThemes
    {
      ContextValue(colorTheme, availableThemes)
    }

    /** `handleSetColorTheme(t)`. */
    method HandleSetColorTheme(t: ColorTheme)
      modifies this, document
      ensures State() == SetColorTheme(old(State()), t)
      ensures colorTheme == t && document.dataTheme == Some(t.Name())
    {
      colorTheme := t;
      document.dataTheme := Some(t.Name());
    }
  }
}
