/**
 * The unit tests of `src/fields/mod.rs`, and the merge cases, restated as
 * facts about concrete structs.
 */
module FieldsScenarios {
  import opened Wrappers
  import opened Syn
  import opened Config
  import opened FieldsGen

  /** The types of a field list, in order. */
  function Types(fields: Fields): (ts: seq<Ty>)
    ensures |ts| == |fields.Members()|
  {
    seq(|fields.Members()|, i requires 0 <= i < |fields.Members()| => fields.Members()[i].ty)
  }

  /** A named, inherited-visibility field without attributes. */
  function Plain(name: string, ty: Ty): Field {
    Field([], Inherited, Some(name), ty)
  }

  /** A positional field without attributes. */
  function Positional(ty: Ty): Field {
    Field([], Inherited, None, ty)
  }

  /** `#[optfield(Opt)]` or `#[optfield(Opt, rewrap)]`. */
  function OptArgs(rewrap: bool): Args {
    Args("Opt", None, None, rewrap)
  }

  /** `String` is not an `Option`; `Option<String>` is. */
  lemma DetectsOption()
    ensures !IsOption(Plain("field", Simple("String")))
    ensures IsOption(Plain("field", OptionOf(Simple("String"))))
  {
  }

  /**
   * Detection is by name only: `std::option::Option<T>` and `(Option<T>)`
   * are not recognised, while `Option::Foo` is, though it is no `Option<..>`.
   */
  lemma DetectionIsSyntactic()
    ensures !IsOption(Plain("f", Path(None, false, [Segment("std", []), Segment("option", []), Segment(OPTION, [Simple("T")])])))
    ensures !IsOption(Plain("f", Paren(OptionOf(Simple("T")))))
    ensures IsOption(Plain("f", Path(None, false, [Segment(OPTION, []), Segment("Foo", [])])))
    ensures OptionDepth(Path(None, false, [Segment(OPTION, []), Segment("Foo", [])])) == 0
  {
  }

  /** `struct S<T> { string: Option<String>, int: i32, generic: T, optional_generic: Option<T> }` */
  function WithoutRewrapInput(): Fields {
    Named([
      Plain("string", OptionOf(Simple("String"))),
      Plain("int", Simple("i32")),
      Plain("generic", Simple("T")),
      Plain("optional_generic", OptionOf(Simple("T")))])
  }

  /** Without `rewrap`, only the fields that are not yet `Option` are wrapped. */
  lemma {:induction false} WithoutRewrap(hooks: Hooks)
    ensures var r := Transformed(WithoutRewrapInput(), OptArgs(false), hooks);
      r.Ok? && Types(r.value) == [
        OptionOf(Simple("String")), OptionOf(Simple("i32")),
        OptionOf(Simple("T")), OptionOf(Simple("T"))]
  {
    var r := Transformed(WithoutRewrapInput(), OptArgs(false), hooks);
    forall i | 0 <= i < 4 ensures r.value.Members()[i].ty == Types(r.value)[i] {
    }
    TransformedType(WithoutRewrapInput(), OptArgs(false), hooks, 0);
    TransformedType(WithoutRewrapInput(), OptArgs(false), hooks, 1);
    TransformedType(WithoutRewrapInput(), OptArgs(false), hooks, 2);
    TransformedType(WithoutRewrapInput(), OptArgs(false), hooks, 3);
  }

  /** `struct S<T> { text: String, number: Option<i128>, generic: T, optional_generic: Option<T> }` */
  function WithRewrapInput(): Fields {
    Named([
      Plain("text", Simple("String")),
      Plain("number", OptionOf(Simple("i128"))),
      Plain("generic", Simple("T")),
      Plain("optional_generic", OptionOf(Simple("T")))])
  }

  /** With `rewrap`, every field gains exactly one `Option` layer. */
  lemma {:induction false} WithRewrap(hooks: Hooks)
    ensures var r := Transformed(WithRewrapInput(), OptArgs(true), hooks);
      r.Ok? && Types(r.value) == [
        OptionOf(Simple("String")), OptionOf(OptionOf(Simple("i128"))),
        OptionOf(Simple("T")), OptionOf(OptionOf(Simple("T")))]
  {
    var r := Transformed(WithRewrapInput(), OptArgs(true), hooks);
    forall i | 0 <= i < 4 ensures r.value.Members()[i].ty == Types(r.value)[i] {
    }
    TransformedType(WithRewrapInput(), OptArgs(true), hooks, 0);
    TransformedType(WithRewrapInput(), OptArgs(true), hooks, 1);
    TransformedType(WithRewrapInput(), OptArgs(true), hooks, 2);
    TransformedType(WithRewrapInput(), OptArgs(true), hooks, 3);
  }

  /** A unit struct given named extra fields becomes exactly those fields, wrapped. */
  lemma {:induction false} UnitStructTakesAddedFields(hooks: Hooks, span: Span)
    ensures var args := Args("Opt", None, Some(Add(Named([Plain("a", Simple("u8"))]), span)), false);
      var r := Transformed(Unit, args, hooks);
      r.Ok? && r.value.Named? && Types(r.value) == [OptionOf(Simple("u8"))]
        && r.value.Members()[0].ident == Some("a")
  {
    var args := Args("Opt", None, Some(Add(Named([Plain("a", Simple("u8"))]), span)), false);
    MergeIntoUnit(Named([Plain("a", Simple("u8"))]), span);
    TransformedType(Unit, args, hooks, 0);
    TransformedLayout(Unit, args, hooks);
    var r := Transformed(Unit, args, hooks);
    assert r.value.Members()[0].ty == Types(r.value)[0];
  }

  /**
   * A unit struct given an empty `{}` addition becomes an empty named
   * struct: an empty addition is not treated as no addition.
   */
  lemma {:induction false} UnitStructTakesEmptyNamed(hooks: Hooks, span: Span)
    ensures Transformed(Unit, Args("Opt", None, Some(Add(Named([]), span)), false), hooks) == Ok(Named([]))
  {
    MergeIntoUnit(Named([]), span);
  }

  /** A named struct given positional extra fields is refused, at the addition's span. */
  lemma {:induction false} NamedStructRefusesUnnamed(hooks: Hooks, span: Span)
    ensures var args := Args("Opt", None, Some(Add(Unnamed([Positional(Simple("u8"))]), span)), false);
      Transformed(WithoutRewrapInput(), args, hooks) == Err(Error(span, "Expected named fields"))
  {
    MergeRule(WithoutRewrapInput(), Unnamed([Positional(Simple("u8"))]), span);
  }

  /** A tuple struct given named extra fields is refused, at the addition's span. */
  lemma {:induction false} UnnamedStructRefusesNamed(hooks: Hooks, span: Span)
    ensures var args := Args("Opt", None, Some(Add(Named([Plain("a", Simple("u8"))]), span)), false);
      Transformed(Unnamed([Positional(Simple("u8"))]), args, hooks) == Err(Error(span, "Expected unnamed fields"))
  {
    MergeRule(Unnamed([Positional(Simple("u8"))]), Named([Plain("a", Simple("u8"))]), span);
  }
}
