/** The page: it owns the committed settings and the open flag of the panel,
    and projects the committed settings onto the style variables of the
    article container. */
module Page {
  import opened ArticleTypes
  import PanelSpec

  class App {
    /** The default settings record of the option catalogs. */
    const defaults: ArticleState
    var articleState: ArticleState
    var isSidebarOpen: bool

    /** The page starts from the default settings with the panel closed. */
    constructor (defaultArticleState: ArticleState)
      ensures defaults == defaultArticleState
      ensures articleState == defaultArticleState && !isSidebarOpen
    {
      defaults := defaultArticleState;
      articleState := defaultArticleState;
      isSidebarOpen := false;
    }

    /** Flips the open flag; the settings are left alone (the frame says so). */
    method ToggleSidebar()
      modifies this`isSidebarOpen
      ensures isSidebarOpen == !old(isSidebarOpen)
    {
      isSidebarOpen := !isSidebarOpen;
    }

    /** The form's apply callback: the settings are replaced wholesale. */
    method OnApply(newState: ArticleState)
      modifies this`articleState
      ensures articleState == newState
    {
      articleState := newState;
    }

    /** The form's reset callback: the settings go back to the defaults. */
    method OnReset()
      modifies this`articleState
      ensures articleState == defaults
    {
      articleState := defaults;
    }

    /** The inline style the page renders from its current settings. */
    function Style(): (r: map<string, string>)
      reads this
      ensures |r| == 5
      ensures forall k :: CssVar(k) in r && r[CssVar(k)] == Get(articleState, k).value
      ensures forall name | name in r :: exists k :: CssVar(k) == name
    {
      StyleVars(articleState)
    }
  }

  /** The style variable that carries each field; each is a custom property. */
  function CssVar(k: FieldKey): (name: string)
    ensures |name| > 2 && name[..2] == "--"
  {
    match k
    case FontFamilyOption => "--font-family"
    case FontSizeOption => "--font-size"
    case FontColor => "--font-color"
    case ContentWidth => "--container-width"
    case BackgroundColor => "--bg-color"
  }

  /** Distinct fields are carried by distinct style variables. */
  lemma CssVarInjective(j: FieldKey, k: FieldKey)
    ensures CssVar(j) == CssVar(k) ==> j == k
  {
  }

  /** The style object of the article container: exactly five variables, each
      holding the `value` of the option of its field. */
  function StyleVars(s: ArticleState): (r: map<string, string>)
    ensures |r| == 5
    ensures forall k :: CssVar(k) in r && r[CssVar(k)] == Get(s, k).value
    ensures forall name | name in r :: exists k :: CssVar(k) == name
  {
    var r := map[
      "--font-family" := s.fontFamilyOption.value,
      "--font-size" := s.fontSizeOption.value,
      "--font-color" := s.fontColor.value,
      "--container-width" := s.contentWidth.value,
      "--bg-color" := s.backgroundColor.value];
    assert r.Keys == {CssVar(FontFamilyOption), CssVar(FontSizeOption), CssVar(FontColor),
                      CssVar(ContentWidth), CssVar(BackgroundColor)};
    r
  }

  /** The style depends on the settings only through the `value` of each
      option, and it determines every one of those values. */
  lemma SameStyleIffSameValues(a: ArticleState, b: ArticleState)
    ensures StyleVars(a) == StyleVars(b) <==> forall k :: Get(a, k).value == Get(b, k).value
  {
  }

  /** Opening the closed panel, choosing `v` as font size and applying puts
      `v`'s value into the font-size variable while the other variables keep
      theirs; a reset then restores the default font size. */
  lemma FontSizeScenario(d: ArticleState, s: PanelSpec.PageState, v: OptionType)
    requires !s.isOpen
    ensures PanelSpec.Feasible(d, s, [PanelSpec.Toggle, PanelSpec.SetField(FontSizeOption, v), PanelSpec.Apply])
    ensures var applied := PanelSpec.Run(d, s, [PanelSpec.Toggle, PanelSpec.SetField(FontSizeOption, v), PanelSpec.Apply]);
      && StyleVars(applied.committed)["--font-size"] == v.value
      && (forall k | k != FontSizeOption :: StyleVars(applied.committed)[CssVar(k)] == StyleVars(s.committed)[CssVar(k)])
      && applied.isOpen
      && StyleVars(PanelSpec.ResetStep(d, applied).committed)["--font-size"] == d.fontSizeOption.value
  {
    var es := [PanelSpec.Toggle, PanelSpec.SetField(FontSizeOption, v), PanelSpec.Apply];
    var s1 := PanelSpec.ToggleStep(s);
    var s2 := PanelSpec.SetFieldStep(s1, FontSizeOption, v);
    var s3 := PanelSpec.ApplyStep(s2);
    assert es[1..] == [PanelSpec.SetField(FontSizeOption, v), PanelSpec.Apply];
    assert es[1..][1..] == [PanelSpec.Apply];
    assert [PanelSpec.Apply][1..] == [];
    assert PanelSpec.Feasible(d, s3, []) && PanelSpec.Run(d, s3, []) == s3;
    assert PanelSpec.Feasible(d, s2, [PanelSpec.Apply]) && PanelSpec.Run(d, s2, [PanelSpec.Apply]) == s3;
    assert PanelSpec.Feasible(d, s1, es[1..]) && PanelSpec.Run(d, s1, es[1..]) == s3;
    assert PanelSpec.Feasible(d, s, es) && PanelSpec.Run(d, s, es) == s3;
    assert CssVar(FontSizeOption) == "--font-size";
  }
}
