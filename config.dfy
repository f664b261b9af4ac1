/**
 * The parsed `#[optfield(..)]` arguments, and the collaborators the core
 * calls whose definitions are not part of this model
 * (`fields::attrs::generate`, `crate::attrs::generate` and
 * `Args::final_visibility`). Those are passed in as functions, so every
 * result below holds whatever they compute.
 */
module Config {
  import opened Wrappers
  import opened Syn

  /** `fields = { .. }` / `fields = ( .. )`: extra fields to add, and where they were written. */
  datatype FieldsArg = Add(added: Fields, span: Span)

  /** The options the core reads. */
  datatype Args = Args(
    name: string,                 // identifier of the generated struct
    vis: Option<Visibility>,      // visibility override for the fields
    fields: Option<FieldsArg>,    // extra fields to merge in
    rewrap: bool)                 // wrap fields that are already `Option`

  /** The collaborators, as uninterpreted total functions. */
  datatype Hooks = Hooks(
    fieldAttrs: (Field, Args) -> seq<Attribute>,       // fields::attrs::generate on a field
    itemAttrs: (ItemStruct, Args) -> seq<Attribute>,   // crate::attrs::generate on the struct
    finalVisibility: Args -> Visibility)               // Args::final_visibility
}
