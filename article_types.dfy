/** The article settings record and its field-wise update. */
module ArticleTypes {

  /** One entry of an option catalog. `value` is the payload that reaches the
      style variables; `display` stands for everything only the editors show. */
  datatype OptionType = OptionType(display: string, value: string)

  /** The five settings of an article, one option per field. */
  datatype ArticleState = ArticleState(
    fontFamilyOption: OptionType,
    fontSizeOption: OptionType,
    fontColor: OptionType,
    backgroundColor: OptionType,
    contentWidth: OptionType)

  /** The keys of ArticleState, as the editors name them when they report a change. */
  datatype FieldKey = FontFamilyOption | FontSizeOption | FontColor | BackgroundColor | ContentWidth

  /** Reads the option stored under `k`. */
  function Get(s: ArticleState, k: FieldKey): OptionType
  {
    match k
    case FontFamilyOption => s.fontFamilyOption
    case FontSizeOption => s.fontSizeOption
    case FontColor => s.fontColor
    case BackgroundColor => s.backgroundColor
    case ContentWidth => s.contentWidth
  }

  /** The record update `{...prev, [field]: value}`: field `k` becomes `v`,
      every other field keeps its option. */
  function With(s: ArticleState, k: FieldKey, v: OptionType): (r: ArticleState)
    ensures Get(r, k) == v
    ensures forall j :: j != k ==> Get(r, j) == Get(s, j)
  {
    match k
    case FontFamilyOption => s.(fontFamilyOption := v)
    case FontSizeOption => s.(fontSizeOption := v)
    case FontColor => s.(fontColor := v)
    case BackgroundColor => s.(backgroundColor := v)
    case ContentWidth => s.(contentWidth := v)
  }

  /** Two settings records are equal exactly when they agree on every field. */
  lemma FieldwiseEqual(a: ArticleState, b: ArticleState)
    ensures a == b <==> forall k :: Get(a, k) == Get(b, k)
  {
    if forall k :: Get(a, k) == Get(b, k) {
      assert Get(a, FontFamilyOption) == Get(b, FontFamilyOption);
      assert Get(a, FontSizeOption) == Get(b, FontSizeOption);
      assert Get(a, FontColor) == Get(b, FontColor);
      assert Get(a, BackgroundColor) == Get(b, BackgroundColor);
      assert Get(a, ContentWidth) == Get(b, ContentWidth);
    }
  }

  /** Writing back the option a field already holds changes nothing, and a
      second write to the same field overrides the first. */
  lemma WithLaws(s: ArticleState, k: FieldKey, v: OptionType, w: OptionType)
    ensures With(s, k, Get(s, k)) == s
    ensures With(With(s, k, v), k, w) == With(s, k, w)
  {
  }
}
