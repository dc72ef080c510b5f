# Article settings panel (blog-customizer)

A Dafny model of the settings panel of the blog-customizer page. The page
(`App`) owns the committed article settings and whether the side panel is
open. The form (`ArticleParamsForm`) owns a draft of the settings, edited field
by field. The draft goes to the page on Apply. Reset sends both back to the
defaults. The page projects the committed settings onto five CSS variables.

Files:

- `article_types.dfy`, module `ArticleTypes`: the `ArticleState` record of five
  options, the `FieldKey` enumeration, and `With`, the field-wise update the
  form's change handler applies.
- `panel_spec.dfy`, module `PanelSpec`: the panel as a pure state machine over
  `PageState(committed, isOpen, draft)`. Each transition is one handler followed
  by the form's synchronising effect, taken as one atomic step. `Run` folds a
  sequence of user events. The lemmas about sequences of events live here.
- `app.dfy`, module `Page`: class `App` with the page's two pieces of state and
  its callbacks, and `StyleVars`, the CSS-variable projection.
- `article_params_form.dfy`, module `ParamsForm`: class `ArticleParamsForm` with
  the draft and its handlers. Each handler is proved to produce exactly the
  matching `PanelSpec` transition of the whole panel state.

The default settings record and the option catalogs are not part of this model.
The defaults are a constant fixed when the page is built: `App.defaults`, and
the parameter `d` of the pure functions. An option is modelled as
`OptionType(display, value)`. Only `value` reaches the style; `display` stands
for whatever only the editors show.

The form's effect (src/components/article-params-form/ArticleParamsForm.tsx:41-45)
fires when `isOpen` or `currentState` changes identity. The model compares
settings by value. `PanelSpec.SyncIdleOnCommit` shows this makes no
difference. The committed settings change only through Apply and Reset, and
both handlers already leave the draft equal to the committed settings. So the
effect matters only when the panel opens. There it copies the committed
settings into the draft.

The comment at src/components/article-params-form/ArticleParamsForm.tsx:40
says the draft is synced when the form opens. The code also re-syncs it
whenever the committed settings change while the panel is open. The model
follows the code. The outcomes coincide, as the lemma above shows.

## Model

| member | source | states |
|---|---|---|
| `ArticleTypes.With` | src/components/article-params-form/ArticleParamsForm.tsx:58-64 | the chosen field holds the new option; every other field keeps its option |
| `ArticleTypes.FieldwiseEqual` | src/types/index.ts:3-9 | two settings records are equal exactly when all five fields agree; this makes `With`'s two ensures a complete description of its result (the model compares records by value, the source by identity) |
| `ArticleTypes.WithLaws` | src/components/article-params-form/ArticleParamsForm.tsx:60-63 | writing back a field's own option changes nothing; a second write to a field overrides the first |
| `PanelSpec.Init` | src/index.tsx:16-18 | at mount the settings are the defaults, the panel is closed and the draft equals the settings |
| `PanelSpec.Sync` | src/components/article-params-form/ArticleParamsForm.tsx:41-45 | the effect touches only the draft; on an open panel whose flag or settings just changed the draft becomes the settings; otherwise the draft is what the handler left |
| `PanelSpec.Enabled` | src/components/article-params-form/ArticleParamsForm.tsx:82-152 | an event can arrive exactly when the panel is open or the event is the arrow button or an outside click, which are always present |
| `PanelSpec.ToggleStep` | src/index.tsx:19 | the open flag flips and the settings are untouched; opening makes the draft the committed settings, whatever it held; closing leaves the draft alone |
| `PanelSpec.OutsideClickStep` | src/components/article-params-form/ArticleParamsForm.tsx:48-52 | on a closed panel nothing changes; on an open panel it is exactly a toggle and closes it, leaving the settings and draft unchanged |
| `PanelSpec.SetFieldStep` | src/components/article-params-form/ArticleParamsForm.tsx:58-64 | requires the panel open; the draft field becomes the option, the other draft fields, the settings and the open flag are unchanged |
| `PanelSpec.ApplyStep` | src/components/article-params-form/ArticleParamsForm.tsx:66-68 | the committed settings become the draft, the draft stays as it was, the open flag is unchanged |
| `PanelSpec.ResetStep` | src/components/article-params-form/ArticleParamsForm.tsx:70-73 | both the draft and the committed settings become the defaults, even over unsaved edits; the open flag is unchanged |
| `PanelSpec.CommittedChangesOnlyOnCommit` | src/index.tsx:36-41 | along any feasible sequence of events without Apply or Reset, the committed settings end as they began, so closing without Apply keeps them |
| `PanelSpec.ShowsCommittedWithoutEdits` | src/components/article-params-form/ArticleParamsForm.tsx:41-45 | along any feasible sequence without field edits, an open panel keeps showing exactly the committed settings |
| `PanelSpec.ClosedPanelInert` | src/components/article-params-form/ArticleParamsForm.tsx:41-52 | on a closed panel every event that can arrive other than the arrow button leaves settings, draft and flag unchanged |
| `PanelSpec.ClosedPanelStaysPut` | src/components/article-params-form/ArticleParamsForm.tsx:41-52 | along any feasible sequence without the arrow button, a closed panel ends exactly as it began: the draft is neither re-synced nor reset |
| `PanelSpec.DiscardOnClose` | src/components/article-params-form/ArticleParamsForm.tsx:41-52 | closing an open panel by the arrow or by an outside click and reopening it shows the committed settings, not the abandoned edits |
| `PanelSpec.ResetIdempotent` | src/index.tsx:39-41 | resetting twice gives the same state as resetting once |
| `PanelSpec.SyncIdleOnCommit` | src/components/article-params-form/ArticleParamsForm.tsx:41-45 | after the Apply and Reset handlers the effect changes nothing |
| `Page.App.constructor` | src/index.tsx:16-18 | the page starts with the default settings and the panel closed |
| `Page.App.ToggleSidebar` | src/index.tsx:19 | the open flag flips and nothing else may change |
| `Page.App.OnApply` | src/index.tsx:36-38 | the settings are replaced wholesale by the given record; the open flag may not change |
| `Page.App.OnReset` | src/index.tsx:39-41 | the settings become the defaults; the open flag may not change |
| `Page.App.Style` | src/index.tsx:23-31 | the rendered style has exactly five variables, each field's variable set to the current option's value, and no other names |
| `Page.StyleVars` | src/index.tsx:23-31 | exactly five variables, each field's variable holding the value of that field's option, and no other names |
| `Page.CssVar` | src/index.tsx:25-29 | the fixed field-to-variable table: every name is a CSS custom property, starting with `--` |
| `Page.CssVarInjective` | src/index.tsx:25-29 | the five fields are carried by five distinct variable names; this restates, as a fact about the table alone, what `StyleVars`' size and membership clauses already force |
| `Page.SameStyleIffSameValues` | src/index.tsx:23-31 | two settings records give the same style if and only if their options agree in value field by field |
| `Page.FontSizeScenario` | src/index.tsx:23-41 | opening, choosing a font size and applying puts its value into `--font-size` and keeps every other variable; a reset then restores the default font size; the panel stays open |
| `ParamsForm.ArticleParamsForm.constructor` | src/components/article-params-form/ArticleParamsForm.tsx:38 | the draft starts equal to the settings passed in at mount |
| `ParamsForm.ArticleParamsForm.SyncEffect` | src/components/article-params-form/ArticleParamsForm.tsx:41-45 | given the flag and settings before the handler, the panel state becomes exactly `Sync` of the handler's result |
| `ParamsForm.ArticleParamsForm.ToggleForm` | src/components/article-params-form/ArticleParamsForm.tsx:54-56 | the arrow button followed by the effect performs exactly `ToggleStep` on the whole panel state |
| `ParamsForm.ArticleParamsForm.ClickOutside` | src/components/article-params-form/ArticleParamsForm.tsx:48-52 | the outside-click callback followed by the effect performs exactly `OutsideClickStep` |
| `ParamsForm.ArticleParamsForm.HandleFieldChange` | src/components/article-params-form/ArticleParamsForm.tsx:58-64 | requires the panel open; performs exactly `SetFieldStep` |
| `ParamsForm.ArticleParamsForm.HandleApply` | src/components/article-params-form/ArticleParamsForm.tsx:66-68 | requires the panel open; hands the draft to the page unchanged; performs exactly `ApplyStep` |
| `ParamsForm.ArticleParamsForm.HandleSubmit` | src/components/article-params-form/ArticleParamsForm.tsx:75-78 | requires the panel open; submission is Apply: performs exactly `ApplyStep` |
| `ParamsForm.ArticleParamsForm.HandleReset` | src/components/article-params-form/ArticleParamsForm.tsx:70-73 | requires the panel open; resets the draft and calls the page's reset; performs exactly `ResetStep` with the page's defaults |
| `ParamsForm.Mount` | src/index.tsx:32-42 | the page and the form mounted together are in the state `Init` of the defaults |

## Left out

- Rendering: the JSX, DOM structure, CSS modules and the `createRoot`/`StrictMode` bootstrap (src/index.tsx:12-13, 48-52) are presentation only.
- `useClickOutside` internals: listener registration and removal, event type and the containment test. Its file is not part of this model. An outside click is an abstract input.
- The possible double toggle: the arrow button lies outside the `<aside>` boundary. A click on it while the panel is open might reach both its own handler and the outside-click handler. Whether it does depends on the unseen hook, so it is not modelled.
- Option catalogs and `defaultArticleState` (`src/constants/articleProps`) are not part of this model. So "every field holds a value from its own catalog" is not stated, and `SetFieldStep` accepts any option.
- React's asynchronous batching, effect scheduling and the stale-closure reading of `isSidebarOpen` in `toggleSidebar`. Each handler plus the effect is one atomic, sequential transition.
- `e.preventDefault()` in the submit handler is a browser side effect with no meaning for the state.
- `Select`, `RadioGroup`, `Button`, `ArrowButton`, `Text`, `Separator` are thin UI wrappers. An editor is taken to deliver one option per selection, as `SetField`.
