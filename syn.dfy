/**
 * A value model of the parts of a parsed Rust struct that the derive reads
 * and writes: types, fields, field lists and the struct item itself.
 * Spans are opaque locations; token streams are not modelled.
 */
module Syn {
  import opened Wrappers

  /** An opaque source location, carried by errors. */
  datatype Span = Span(id: nat)

  /** A diagnostic: where it points and what it says. */
  datatype Error = Error(span: Span, message: string)

  /** An attribute such as `#[serde(rename = "x")]`, kept opaque. */
  datatype Attribute = Attribute(path: string, tokens: string)

  /** `pub`, `pub(crate)` / `pub(in path)`, or nothing written. */
  datatype Visibility = Public | Restricted(path: seq<string>) | Inherited

  /** One path segment: its identifier and its angle-bracketed type arguments. */
  datatype Segment = Segment(ident: string, args: seq<Ty>)

  /**
   * A type as written. `Path` is `<Q>::a::b<..>` (the `qself` qualifier, a
   * leading `::`, then the segments); `Paren` is `(T)`; every other type
   * form (references, tuples, arrays, ...) is `Other`.
   */
  datatype Ty =
    | Path(qself: Option<Ty>, leadingColon: bool, segments: seq<Segment>)
    | Paren(elem: Ty)
    | Other(kind: string)

  /** The identifier of Rust's optional type. */
  const OPTION: string := "Option"

  /** A bare path type with one segment and no type arguments, such as `i32` or `T`. */
  function Simple(ident: string): Ty {
    Path(None, false, [Segment(ident, [])])
  }

  /** The type `Option<t>`, which is what parsing `Option<#ty>` produces. */
  function OptionOf(t: Ty): (r: Ty)
    ensures OptionArg(r) == Some(t)
    ensures OptionDepth(r) == OptionDepth(t) + 1
    ensures r.Path? && |r.segments| > 0 && r.segments[0].ident == OPTION
  {
    Path(None, false, [Segment(OPTION, [t])])
  }

  /** The `T` of a type written exactly `Option<T>`, if it is one. */
  function OptionArg(t: Ty): Option<Ty> {
    if t.Path? && t.qself.None? && !t.leadingColon && |t.segments| == 1
       && t.segments[0].ident == OPTION && |t.segments[0].args| == 1
    then Some(t.segments[0].args[0])
    else None
  }

  /** How many `Option<..>` layers are wrapped around a type. */
  function OptionDepth(t: Ty): nat
    decreases t
  {
    match OptionArg(t)
    case None => 0
    case Some(inner) =>
      assert t.segments[0] in t.segments;
      assert inner in t.segments[0].args;
      1 + OptionDepth(inner)
  }

  /** A struct field; `ident` is absent for tuple-struct fields. */
  datatype Field = Field(attrs: seq<Attribute>, vis: Visibility, ident: Option<string>, ty: Ty)

  /** A struct body: `;`, `{ a: A, .. }` or `(A, ..)`. */
  datatype Fields = Unit | Named(named: seq<Field>) | Unnamed(unnamed: seq<Field>) {

    /** The fields in declaration order, as `Fields::iter` yields them. */
    function Members(): (fs: seq<Field>)
      ensures Unit? ==> fs == []
    {
      match this
      case Unit => []
      case Named(fs) => fs
      case Unnamed(fs) => fs
    }

    /** The same kind of body holding `fs` instead. */
    function WithMembers(fs: seq<Field>): (r: Fields)
      requires Unit? ==> fs == []
      ensures SameShape(r, this) && r.Members() == fs
    {
      match this
      case Unit => Unit
      case Named(_) => Named(fs)
      case Unnamed(_) => Unnamed(fs)
    }
  }

  /** Both bodies are of the same kind. */
  predicate SameShape(a: Fields, b: Fields) {
    (a.Unit? && b.Unit?) || (a.Named? && b.Named?) || (a.Unnamed? && b.Unnamed?)
  }

  /** Generic parameters and where-clause, passed through untouched. */
  datatype Generics = Generics(params: seq<string>, predicates: seq<string>)

  /** A `struct` item. `semi` records a trailing `;` (unit and tuple structs). */
  datatype ItemStruct = ItemStruct(
    attrs: seq<Attribute>,
    vis: Visibility,
    ident: string,
    generics: Generics,
    fields: Fields,
    semi: bool)
}
