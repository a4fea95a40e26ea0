/** The preset style catalog offered on the form: a fixed map from a style
    key to the descriptive phrase added to the prompt. */
module Styles {

  const PresetStyles: map<string, string> := map[
    "minimalist" := "минималистичный логотип, чистый дизайн, простые геометрические формы",
    "modern" := "современный логотип, яркие цвета, динамичный дизайн",
    "geometric" := "геометрический логотип, четкие линии, абстрактные формы",
    "vintage" := "винтажный логотип, ретро стиль, классические элементы",
    "tech" := "технологичный логотип, футуристичный стиль, цифровой дизайн",
    "corporate" := "корпоративный логотип, профессиональный вид, строгий стиль",
    "creative" := "креативный логотип, художественный стиль, яркие цвета",
    "elegant" := "элегантный логотип, изысканный дизайн, утонченные формы"
  ]
}
