/** The record every `get…Options()` helper of types/ builds for a picker. */
module TypeOptions {

  /** One picker entry; `title` is the source's `label`, a reserved word
      here. */
  datatype TypeOption = TypeOption(id: string, title: string, icon: string, desc: string)
}
