/**
 * The field transform of `src/fields/mod.rs`: merge the configured extra
 * fields into the struct's own, then rewrite every field so that its type
 * is wrapped in `Option`.
 */
module FieldsGen {
  import opened Wrappers
  import opened Syn
  import opened Config

  const EXPECTED_NAMED: string := "Expected named fields"
  const EXPECTED_UNNAMED: string := "Expected unnamed fields"

  /**
   * A field's type is syntactically `Option`: a path whose first segment is
   * `Option`. Anything with an `Option<..>` layer is detected, nothing but a
   * path is; `IsOptionFirstSegmentOnly` and `IsOptionNeedsSegment` give the
   * exact condition.
   */
  function IsOption(field: Field): (b: bool)
    ensures OptionDepth(field.ty) > 0 ==> b
    ensures b ==> field.ty.Path? && field.ty.segments != []
  {
    match field.ty
    case Path(_, _, segments) =>
      if |segments| > 0 then segments[0].ident == OPTION else false
    case _ => false
  }

  // ---------------------------------------------------------------------
  // Specification of `generate`

  /** The field list after the merge step, or the shape-mismatch error. */
  function Merged(fields: Fields, add: Option<FieldsArg>): Result<Fields, Error> {
    match add
    case None => Ok(fields)
    case Some(Add(added, span)) =>
      match (fields, added)
      case (_, Unit) => Ok(fields)
      case (Unit, _) => Ok(added)
      case (Unnamed(fds), Unnamed(more)) => Ok(Unnamed(fds + more))
      case (Named(fds), Named(more)) => Ok(Named(fds + more))
      case (Named(_), _) => Err(Error(span, EXPECTED_NAMED))
      case (Unnamed(_), _) => Err(Error(span, EXPECTED_UNNAMED))
  }

  /** One field after the loop body has run on it. */
  function Rewritten(field: Field, args: Args, hooks: Hooks): Field {
    var f := field.(attrs := hooks.fieldAttrs(field, args));
    var f := if args.vis.Some? then f.(vis := args.vis.value) else f;
    if IsOption(f) && !args.rewrap then f else f.(ty := OptionOf(f.ty))
  }

  /** What `generate` returns for a struct whose own fields are `fields`. */
  function Transformed(fields: Fields, args: Args, hooks: Hooks): Result<Fields, Error> {
    match Merged(fields, args.fields)
    case Err(e) => Err(e)
    case Ok(merged) =>
      var ms := merged.Members();
      Ok(merged.WithMembers(seq(|ms|, i requires 0 <= i < |ms| => Rewritten(ms[i], args, hooks))))
  }

  // ---------------------------------------------------------------------
  // `generate`, step by step

  /** Wraps the fields of `item` in `Option`, after adding the configured extra fields. */
  method Generate(item: ItemStruct, args: Args, hooks: Hooks) returns (r: Result<Fields, Error>)
    ensures r == Transformed(item.fields, args, hooks)
  {
    var fields :- MergeFields(item.fields, args.fields);
    var members := RewriteFields(fields.Members(), args, hooks);
    assert members == seq(|members|, k requires 0 <= k < |members| => Rewritten(fields.Members()[k], args, hooks));
    r := Ok(fields.WithMembers(members));
  }

  /** The merge step: add the extra fields to the struct's own, if their kinds allow it. */
  method MergeFields(fields: Fields, add: Option<FieldsArg>) returns (r: Result<Fields, Error>)
    ensures r == Merged(fields, add)
  {
    var merged := fields;
    if add.Some? {
      var Add(added, span) := add.value;
      match (merged, added) {
        case (_, Unit) =>
        case (Unit, _) =>
          merged := added;
        case (Unnamed(fds), Unnamed(more)) =>
          merged := Unnamed(fds + more);
        case (Named(fds), Named(more)) =>
          merged := Named(fds + more);
        case (Named(_), _) =>
          return Err(Error(span, EXPECTED_NAMED));
        case (Unnamed(_), _) =>
          return Err(Error(span, EXPECTED_UNNAMED));
      }
    }
    r := Ok(merged);
  }

  /**
   * The rewrite loop: each field in turn gets its filtered attributes, the
   * visibility override if there is one, and an `Option` around its type
   * unless it already is an `Option` and `rewrap` is off.
   */
  method RewriteFields(fields: seq<Field>, args: Args, hooks: Hooks) returns (members: seq<Field>)
    ensures |members| == |fields|
    ensures forall k :: 0 <= k < |fields| ==> members[k] == Rewritten(fields[k], args, hooks)
  {
    members := fields;
    var i := 0;
    while i < |members|
      invariant i <= |members| == |fields|
      invariant forall k :: 0 <= k < i ==> members[k] == Rewritten(fields[k], args, hooks)
      invariant forall k :: i <= k < |members| ==> members[k] == fields[k]
    {
      var field := members[i];
      field := field.(attrs := hooks.fieldAttrs(field, args));

      if args.vis.Some? {
        field := field.(vis := args.vis.value);
      }

      if IsOption(field) && !args.rewrap {
        members := members[i := field];
        i := i + 1;
        continue;
      }

      field := field.(ty := OptionOf(field.ty));
      members := members[i := field];
      i := i + 1;
    }
  }

  // ---------------------------------------------------------------------
  // Optionality detection

  /** Wrapping any type makes a field that `IsOption` recognises. */
  lemma WrappedIsOption(field: Field, t: Ty)
    ensures IsOption(field.(ty := OptionOf(t)))
  {
  }

  /**
   * Only the first segment's identifier is looked at: the qualifier, a
   * leading `::`, the segment's arguments and any later segments are ignored.
   */
  lemma IsOptionFirstSegmentOnly(field: Field, qself: Option<Ty>, leadingColon: bool, first: Segment, rest: seq<Segment>)
    requires field.ty == Path(qself, leadingColon, [first] + rest)
    ensures IsOption(field) <==> first.ident == OPTION
  {
  }

  /** A field whose type is not a path, or a path with no segments, is never an `Option`. */
  lemma IsOptionNeedsSegment(field: Field)
    requires !field.ty.Path? || field.ty.segments == []
    ensures !IsOption(field)
  {
  }

  /** A type with at least one `Option<..>` layer is detected. */
  lemma LayeredIsOption(field: Field)
    requires OptionDepth(field.ty) > 0
    ensures IsOption(field)
  {
  }

  // ---------------------------------------------------------------------
  // The merge step

  /** The extra fields and the struct's own fields are of incompatible kinds. */
  predicate Mismatch(fields: Fields, added: Fields) {
    (fields.Named? && added.Unnamed?) || (fields.Unnamed? && added.Named?)
  }

  /** No extra fields, or a unit addition, leaves the fields as they are. */
  lemma MergeNothing(fields: Fields, add: Option<FieldsArg>)
    requires add.None? || add.value.added.Unit?
    ensures Merged(fields, add) == Ok(fields)
  {
  }

  /** A unit struct takes the added fields as they are. */
  lemma MergeIntoUnit(added: Fields, span: Span)
    ensures Merged(Unit, Some(Add(added, span))) == Ok(added)
  {
  }

  /**
   * Merging fails exactly on a named/unnamed mismatch, with the message
   * naming the struct's own kind and the span of the addition; otherwise the
   * result lists the struct's fields followed by the added ones, and has the
   * struct's kind (the addition's kind when the struct is a unit struct).
   */
  lemma {:induction false} MergeRule(fields: Fields, added: Fields, span: Span)
    ensures var r := Merged(fields, Some(Add(added, span)));
      && (r.Err? <==> Mismatch(fields, added))
      && (r.Err? && fields.Named? ==> r.error == Error(span, EXPECTED_NAMED))
      && (r.Err? && fields.Unnamed? ==> r.error == Error(span, EXPECTED_UNNAMED))
      && (r.Ok? ==> r.value.Members() == fields.Members() + added.Members())
      && (r.Ok? ==> |r.value.Members()| == |fields.Members()| + |added.Members()|)
      && (r.Ok? ==> SameShape(r.value, if fields.Unit? then added else fields))
  {
    var r := Merged(fields, Some(Add(added, span)));
    if added.Unit? {
      assert r == Ok(fields);
      assert fields.Members() + [] == fields.Members();
    } else if fields.Unit? {
      assert r == Ok(added);
      assert [] + added.Members() == added.Members();
    }
  }

  // ---------------------------------------------------------------------
  // The rewrite step, over the merged list

  /** A merge error is the only failure, and it is returned unchanged. */
  lemma TransformedError(fields: Fields, args: Args, hooks: Hooks)
    ensures Transformed(fields, args, hooks).Err? <==> Merged(fields, args.fields).Err?
    ensures Transformed(fields, args, hooks).Err? ==>
      Transformed(fields, args, hooks).error == Merged(fields, args.fields).error
    ensures Transformed(fields, args, hooks).Err? <==>
      args.fields.Some? && Mismatch(fields, args.fields.value.added)
  {
    if args.fields.Some? {
      MergeRule(fields, args.fields.value.added, args.fields.value.span);
    }
  }

  /** The rewrite keeps the kind, the number, the order and the names of the fields. */
  lemma TransformedLayout(fields: Fields, args: Args, hooks: Hooks)
    requires Merged(fields, args.fields).Ok?
    ensures var merged := Merged(fields, args.fields).value;
      var out := Transformed(fields, args, hooks);
      && out.Ok?
      && SameShape(out.value, merged)
      && |out.value.Members()| == |merged.Members()|
      && forall i :: 0 <= i < |merged.Members()| ==>
           out.value.Members()[i].ident == merged.Members()[i].ident
  {
  }

  /** Every field's attributes are those the attribute filter computes for it. */
  lemma TransformedAttrs(fields: Fields, args: Args, hooks: Hooks, i: nat)
    requires Merged(fields, args.fields).Ok?
    requires i < |Merged(fields, args.fields).value.Members()|
    ensures var field := Merged(fields, args.fields).value.Members()[i];
      Transformed(fields, args, hooks).value.Members()[i].attrs == hooks.fieldAttrs(field, args)
  {
  }

  /**
   * With an override every field gets that visibility, fields left as
   * `Option` included; without one every field keeps its own.
   */
  lemma TransformedVisibility(fields: Fields, args: Args, hooks: Hooks, i: nat)
    requires Merged(fields, args.fields).Ok?
    requires i < |Merged(fields, args.fields).value.Members()|
    ensures var field := Merged(fields, args.fields).value.Members()[i];
      var vis := Transformed(fields, args, hooks).value.Members()[i].vis;
      && (args.vis.Some? ==> vis == args.vis.value)
      && (args.vis.None? ==> vis == field.vis)
  {
  }

  /**
   * A field that is not an `Option` becomes `Option<its type>`; an `Option`
   * field keeps its type without `rewrap` and gains exactly one layer with it.
   */
  lemma TransformedType(fields: Fields, args: Args, hooks: Hooks, i: nat)
    requires Merged(fields, args.fields).Ok?
    requires i < |Merged(fields, args.fields).value.Members()|
    ensures var field := Merged(fields, args.fields).value.Members()[i];
      var ty := Transformed(fields, args, hooks).value.Members()[i].ty;
      && (!IsOption(field) ==> ty == OptionOf(field.ty))
      && (IsOption(field) && !args.rewrap ==> ty == field.ty)
      && (args.rewrap ==> ty == OptionOf(field.ty) && OptionDepth(ty) == OptionDepth(field.ty) + 1)
  {
    var field := Merged(fields, args.fields).value.Members()[i];
    var f := Rewritten(field, args, hooks);
    assert IsOption(f.(ty := field.ty)) == IsOption(field);
  }

  /** Every field of the result is an `Option`. */
  lemma {:induction false} TransformedAllOptional(fields: Fields, args: Args, hooks: Hooks)
    requires Merged(fields, args.fields).Ok?
    ensures var out := Transformed(fields, args, hooks).value.Members();
      forall i :: 0 <= i < |out| ==> IsOption(out[i])
  {
    var merged := Merged(fields, args.fields).value.Members();
    var out := Transformed(fields, args, hooks).value.Members();
    forall i | 0 <= i < |out| ensures IsOption(out[i]) {
      TransformedType(fields, args, hooks, i);
      if IsOption(merged[i]) && !args.rewrap {
        assert IsOption(out[i]) == IsOption(merged[i]);
      } else {
        WrappedIsOption(out[i], merged[i].ty);
      }
    }
  }

  /**
   * Without `rewrap`, running the transform again over its own output (with
   * no extra fields) changes no field's type.
   */
  lemma {:induction false} NoRewrapIsIdempotentOnTypes(fields: Fields, args: Args, hooks: Hooks, again: Args, hooks': Hooks)
    requires Merged(fields, args.fields).Ok?
    requires again.fields.None? && !again.rewrap
    ensures var once := Transformed(fields, args, hooks).value;
      var twice := Transformed(once, again, hooks');
      && twice.Ok?
      && |twice.value.Members()| == |once.Members()|
      && forall i :: 0 <= i < |once.Members()| ==> twice.value.Members()[i].ty == once.Members()[i].ty
  {
    var once := Transformed(fields, args, hooks).value;
    TransformedAllOptional(fields, args, hooks);
    MergeNothing(once, again.fields);
    TransformedLayout(once, again, hooks');
    forall i | 0 <= i < |once.Members()|
      ensures Transformed(once, again, hooks').value.Members()[i].ty == once.Members()[i].ty
    {
      TransformedType(once, again, hooks', i);
    }
  }
}
