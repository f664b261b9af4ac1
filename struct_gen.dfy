/**
 * The struct assembly of `src/generate.rs`: a copy of the original struct
 * with the configured name and visibility, the filtered struct attributes
 * and the transformed fields.
 */
module StructGen {
  import opened Wrappers
  import opened Syn
  import opened Config
  import FieldsGen

  /** The derived struct, as a value: the specification `Generate` is held to. */
  function Derived(args: Args, original: ItemStruct, hooks: Hooks): Result<ItemStruct, Error> {
    match FieldsGen.Transformed(original.fields, args, hooks)
    case Err(e) => Err(e)
    case Ok(fields) =>
      Ok(original.(ident := args.name, vis := hooks.finalVisibility(args),
                   attrs := hooks.itemAttrs(original, args), fields := fields))
  }

  /** Builds the derived struct, or returns the field transform's error unchanged. */
  method Generate(args: Args, original: ItemStruct, hooks: Hooks) returns (r: Result<ItemStruct, Error>)
    ensures r == Derived(args, original, hooks)
  {
    var optStruct := original;

    optStruct := optStruct.(ident := args.name);
    optStruct := optStruct.(vis := hooks.finalVisibility(args));

    optStruct := optStruct.(attrs := hooks.itemAttrs(original, args));
    var fields :- FieldsGen.Generate(original, args, hooks);
    optStruct := optStruct.(fields := fields);

    r := Ok(optStruct);
  }

  /**
   * The derived struct has the configured name, the final visibility, the
   * attributes filtered from the original struct (not from the renamed copy)
   * and the transformed fields; its generics and trailing `;` are the
   * original's. A field error is the only failure and is passed on as it is.
   */
  lemma DerivedParts(args: Args, original: ItemStruct, hooks: Hooks)
    ensures var r := Derived(args, original, hooks);
      var fields := FieldsGen.Transformed(original.fields, args, hooks);
      && (r.Err? <==> fields.Err?)
      && (r.Err? ==> r.error == fields.error)
      && (r.Ok? ==> r.value.ident == args.name)
      && (r.Ok? ==> r.value.vis == hooks.finalVisibility(args))
      && (r.Ok? ==> r.value.attrs == hooks.itemAttrs(original, args))
      && (r.Ok? ==> r.value.fields == fields.value)
      && (r.Ok? ==> r.value.generics == original.generics && r.value.semi == original.semi)
  {
  }

  /**
   * Deriving from the derived struct again, under the same name and without
   * `rewrap` or extra fields, leaves every field type as it was.
   */
  lemma {:induction false} DeriveTwiceKeepsTypes(args: Args, original: ItemStruct, hooks: Hooks, again: Args)
    requires Derived(args, original, hooks).Ok?
    requires again.fields.None? && !again.rewrap
    ensures var once := Derived(args, original, hooks).value;
      var twice := Derived(again, once, hooks);
      && twice.Ok?
      && twice.value.generics == original.generics
      && |twice.value.fields.Members()| == |once.fields.Members()|
      && forall i :: 0 <= i < |once.fields.Members()| ==>
           twice.value.fields.Members()[i].ty == once.fields.Members()[i].ty
  {
    FieldsGen.TransformedError(original.fields, args, hooks);
    FieldsGen.NoRewrapIsIdempotentOnTypes(original.fields, args, hooks, again, hooks);
  }
}
