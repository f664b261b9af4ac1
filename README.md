# optfield: the derive's schema transform, in Dafny

`#[optfield(Opt, ..)]` on a Rust struct generates a second struct, `Opt`,
whose fields are the original's wrapped in `Option`. This project models the
core of that derive as a transformation over parsed struct descriptions:

- `Syn` (`syn.dfy`) is a value model of the syntax the derive reads: types
  (`Path` with qualifier, leading `::` and segments; `(T)`; every other form
  opaque), fields, the three kinds of struct body (`Unit`, `Named`,
  `Unnamed`), and the struct item. `OptionOf(t)` is the type `Option<t>`
  that the derive builds by quoting and reparsing `Option<#ty>`.
- `Config` (`config.dfy`) holds the options the core reads (`name`, the
  field visibility override `vis`, the extra `fields` and `rewrap`) and
  `Hooks`: the two attribute filters (`fields::attrs::generate`, applied to
  each field, and `crate::attrs::generate`, applied to the struct) and `Args::final_visibility`, passed in as uninterpreted
  functions. Every result holds whatever those functions compute.
- `FieldsGen` (`fields_gen.dfy`) is `src/fields/mod.rs`. `IsOption` is the
  syntactic test. `Generate` is the imperative transform, in two steps:
  `MergeFields` copies the fields and merges the extra ones by the shape
  rules, returning early on a mismatch; `RewriteFields` walks the list and
  updates each field's attributes, visibility and type in place, moving on
  before the type when the field is an `Option` and `rewrap` is off.
  `Generate` is proved equal to the specification `Transformed`, and the
  lemmas state what the transform promises about `Transformed`.
- `StructGen` (`struct_gen.dfy`) is `src/generate.rs`. `Generate` copies the
  original struct and overwrites its name, visibility, attributes and
  fields one after the other. It is proved equal to `Derived`, and
  `DerivedParts` says what each part of the result is.
- `FieldsScenarios` (`fields_scenarios.dfy`) restates the unit tests of
  `src/fields/mod.rs` and the merge cases as lemmas about concrete structs.

All values are immutable: "the original is not modified" holds because the
transform works on a copy of a value. `src/generate.rs:15` assigns the
`Result` returned by `fields::generate` to the struct's field without `?`;
the model propagates the field error as `?` would, and returns the assembled
struct rather than the token stream that line 17 quotes.

## Model

| member | source | states |
|---|---|---|
| `Syn.OptionOf` | src/fields/mod.rs:46-55 | The built `Option<t>` is recognised as an `Option` path, unwraps back to exactly `t`, and has one more `Option` layer than `t` |
| `FieldsGen.Generate` | src/fields/mod.rs:13-59 | The step-by-step merge and per-field rewrite returns exactly the specified result: the merge error, or the merged fields each rewritten |
| `FieldsGen.MergeFields` | src/fields/mod.rs:16-30 | The in-place merge returns the merge specification: unchanged for no or unit addition, the addition for a unit struct, concatenation for matching kinds, the mismatch error otherwise |
| `FieldsGen.RewriteFields` | src/fields/mod.rs:32-56 | The loop keeps the number of fields and leaves each one with the filtered attributes, the overriding visibility if any, and an `Option` type unless it already was one and `rewrap` is off |
| `FieldsGen.IsOption` | src/fields/mod.rs:61-75 | True exactly when the type is a path whose first segment's identifier is `Option`; its contract says every type with an `Option<..>` layer is detected and only non-empty paths are, and `IsOptionFirstSegmentOnly` and `IsOptionNeedsSegment` complete the exact condition |
| `FieldsGen.WrappedIsOption` | src/fields/mod.rs:61-75 | A field whose type was wrapped by the transform is always detected as `Option` |
| `FieldsGen.IsOptionFirstSegmentOnly` | src/fields/mod.rs:61-75 | For a path type, detection holds exactly when the first segment's identifier is `Option`; qualifier, leading `::`, arguments and later segments are ignored |
| `FieldsGen.IsOptionNeedsSegment` | src/fields/mod.rs:67-73 | Non-path types and paths without segments are never detected as `Option` |
| `FieldsGen.LayeredIsOption` | src/fields/mod.rs:61-75 | A type with at least one `Option<..>` layer is detected |
| `FieldsGen.MergeNothing` | src/fields/mod.rs:18-22 | No extra fields, or a unit addition, leaves the fields unchanged |
| `FieldsGen.MergeIntoUnit` | src/fields/mod.rs:23 | A unit struct's fields become exactly the addition |
| `FieldsGen.MergeRule` | src/fields/mod.rs:21-27 | Merging fails if and only if the kinds are named/unnamed mismatched, with "Expected named fields" or "Expected unnamed fields" at the addition's span; otherwise the result is the original fields followed by the added ones, its length the sum, its kind the original's (the addition's for a unit struct) |
| `FieldsGen.TransformedError` | src/fields/mod.rs:18-30 | The transform fails if and only if the merge fails, which is if and only if extra fields of the mismatched kind were given, and returns the merge error unchanged with no partial result |
| `FieldsGen.TransformedLayout` | src/fields/mod.rs:32-58 | The rewrite keeps the kind of body, the number, the order and the names of the merged fields |
| `FieldsGen.TransformedAttrs` | src/fields/mod.rs:33 | Every output field's attributes are the attribute filter applied to that merged field, whether or not its type is rewrapped |
| `FieldsGen.TransformedVisibility` | src/fields/mod.rs:36-38 | With an override every output field has that visibility, `Option` fields that skip wrapping included; without one each keeps its own |
| `FieldsGen.TransformedType` | src/fields/mod.rs:40-55 | A non-`Option` field's type becomes `Option<type>`; an `Option` field keeps its type without `rewrap` and with `rewrap` gains exactly one layer |
| `FieldsGen.TransformedAllOptional` | src/fields/mod.rs:40-55 | Every field of the result is detected as `Option` |
| `FieldsGen.NoRewrapIsIdempotentOnTypes` | src/fields/mod.rs:40-42 | Running the transform again on its own output, without `rewrap` or extra fields, succeeds and changes no field type |
| `StructGen.Generate` | src/generate.rs:8-15 | The step-by-step assembly over a copy of the original returns exactly the specified derived struct, or the field error |
| `StructGen.DerivedParts` | src/generate.rs:9-15 | The derived struct's name is `args.name`, its visibility the final visibility, its attributes the filter applied to the original struct, its fields the field transform's output; generics and `;` are the original's; the field error is the only failure and passes through unchanged |
| `StructGen.DeriveTwiceKeepsTypes` | src/generate.rs:9-15 | Deriving again from a derived struct without `rewrap` or extra fields keeps the generics and every field type |
| `FieldsScenarios.DetectsOption` | src/fields/mod.rs:83-99 | `String` is not detected as `Option`, `Option<String>` is |
| `FieldsScenarios.DetectionIsSyntactic` | src/fields/mod.rs:61-75 | `std::option::Option<T>` and `(Option<T>)` are not detected; `Option::Foo` is, although it has no `Option` layer |
| `FieldsScenarios.WithoutRewrap` | src/fields/mod.rs:101-127 | Without `rewrap` the four test fields get the types `Option<String>, Option<i32>, Option<T>, Option<T>` |
| `FieldsScenarios.WithRewrap` | src/fields/mod.rs:129-156 | With `rewrap` the four test fields get the types `Option<String>, Option<Option<i128>>, Option<T>, Option<Option<T>>` |
| `FieldsScenarios.UnitStructTakesAddedFields` | src/fields/mod.rs:23 | A unit struct given named extra fields becomes those named fields, wrapped |
| `FieldsScenarios.UnitStructTakesEmptyNamed` | src/fields/mod.rs:22-23 | A unit struct given an empty named addition becomes an empty named struct |
| `FieldsScenarios.NamedStructRefusesUnnamed` | src/fields/mod.rs:26 | A named struct given positional extra fields fails with "Expected named fields" at the addition's span |
| `FieldsScenarios.UnnamedStructRefusesNamed` | src/fields/mod.rs:27 | A tuple struct given named extra fields fails with "Expected unnamed fields" at the addition's span |

## Left out

- Token handling: quoting `Option<#ty>` and reparsing it (src/fields/mod.rs:46-55) is modelled as building the type `OptionOf(ty)` directly; the reparse is assumed not to fail, so its error path and the message built by `crate::error::unexpected` are not modelled. The quoting of the finished struct (src/generate.rs:17) is left out.
- `fields::attrs::generate`, `crate::attrs::generate` and `Args::final_visibility` are not part of this model; they are uninterpreted functions in `Hooks`. In particular, whether the final visibility falls back to the original struct's is not modelled (the function only sees the arguments).
- The second call `fields::attrs::generate(field, args)` (src/fields/mod.rs:34) discards its result and is not modelled.
- Argument parsing (`crate::args`) is not part of this model; `Args` keeps only the options the core reads.
- Spans are opaque numbers; diagnostics keep only a span and a message.
- Syntax details the transform never inspects: lifetime and const generic arguments, parenthesised path arguments (`Fn(A) -> B`), the position inside a qualified path, field mutability and punctuation.
- An empty `{}` addition to a unit struct turns it into an empty named struct (src/fields/mod.rs:23); it is not treated as "no addition". The model follows the code (`UnitStructTakesEmptyNamed`).
