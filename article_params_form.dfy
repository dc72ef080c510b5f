/** The settings form: it owns the draft settings, keeps them in step with the
    page while the panel is open, and reports Apply and Reset to the page. */
module ParamsForm {
  import opened ArticleTypes
  import opened PanelSpec
  import opened Page

  class ArticleParamsForm {
    /** The page that passes `isOpen` and `currentState` down and receives the callbacks. */
    const app: App
    /** The draft the editors show and change. */
    var formState: ArticleState

    /** The panel as a whole: page settings, open flag and draft. */
    function State(): PageState
      reads this, app
    {
      PageState(app.articleState, app.isSidebarOpen, formState)
    }

    /** Mounting seeds the draft with the settings the page passes in. */
    constructor (app: App)
      ensures this.app == app
      ensures formState == app.articleState
    {
      this.app := app;
      formState := app.articleState;
    }

    /** The effect keyed on the open flag and the page settings: `wasOpen` and
        `previous` are their values before the handler ran. */
    method SyncEffect(wasOpen: bool, previous: ArticleState)
      modifies this`formState
      ensures State() == Sync(PageState(previous, wasOpen, old(formState)), old(State()))
    {
      if app.isSidebarOpen && (app.isSidebarOpen != wasOpen || app.articleState != previous) {
        formState := app.articleState;
      }
    }

    /** The arrow button. */
    method ToggleForm()
      modifies this`formState, app`isSidebarOpen
      ensures State() == ToggleStep(old(State()))
    {
      var wasOpen, previous := app.isSidebarOpen, app.articleState;
      app.ToggleSidebar();
      SyncEffect(wasOpen, previous);
    }

    /** The outside-click callback: it toggles only an open panel. */
    method ClickOutside()
      modifies this`formState, app`isSidebarOpen
      ensures State() == OutsideClickStep(old(State()))
    {
      var wasOpen, previous := app.isSidebarOpen, app.articleState;
      if app.isSidebarOpen {
        app.ToggleSidebar();
      }
      SyncEffect(wasOpen, previous);
    }

    /** An editor's change callback; the editors are rendered only while the panel is open. */
    method HandleFieldChange(field: FieldKey, value: OptionType)
      requires app.isSidebarOpen
      modifies this`formState
      ensures State() == SetFieldStep(old(State()), field, value)
    {
      var wasOpen, previous := app.isSidebarOpen, app.articleState;
      formState := With(formState, field, value);
      SyncEffect(wasOpen, previous);
    }

    /** Hands the current draft to the page; the submit button is rendered only while the panel is open. */
    method HandleApply()
      requires app.isSidebarOpen
      modifies this`formState, app`articleState
      ensures State() == ApplyStep(old(State()))
    {
      var wasOpen, previous := app.isSidebarOpen, app.articleState;
      app.OnApply(formState);
      SyncEffect(wasOpen, previous);
    }

    /** Form submission; suppressing the browser's default action is not modelled. */
    method HandleSubmit()
      requires app.isSidebarOpen
      modifies this`formState, app`articleState
      ensures State() == ApplyStep(old(State()))
    {
      HandleApply();
    }

    /** Resets the draft to the defaults and asks the page to do the same; the
        reset button is rendered only while the panel is open. */
    method HandleReset()
      requires app.isSidebarOpen
      modifies this`formState, app`articleState
      ensures State() == ResetStep(app.defaults, old(State()))
    {
      var wasOpen, previous := app.isSidebarOpen, app.articleState;
      formState := app.defaults;
      app.OnReset();
      SyncEffect(wasOpen, previous);
    }
  }

  /** Mounting the page and the form yields the initial panel state. */
  method Mount(defaultArticleState: ArticleState) returns (form: ArticleParamsForm)
    ensures fresh(form) && fresh(form.app)
    ensures form.app.defaults == defaultArticleState
    ensures form.State() == Init(defaultArticleState)
  {
    var app := new App(defaultArticleState);
    form := new ArticleParamsForm(app);
  }
}
