/** The parts of a navigation context that the modelled code reads. */
module Contexts {

  /** Only the side kind is distinguished by the modelled code; every other kind behaves alike. */
  datatype ContextKind = SideContext | OtherContext

  /** A context on the context stack: its key, its kind and the window it is drawn in. */
  datatype Context = Context(key: string, kind: ContextKind, window: string)

  /** A side list context together with the id of its selected item (GetSelectedItemId). */
  datatype ListContext = ListContext(context: Context, selectedItemId: string)
}
