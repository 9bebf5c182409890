/**
 * The add form's validation: which fields of a draft get an error and with which
 * message. Whether a non-empty form string reads as a positive number is left to
 * a predicate the caller supplies; `isPositiveNumber(s)` stands for
 * `!(isNaN(s) || s <= 0)` under the browser's string-to-number coercion.
 */
module Validation {
  import opened Players

  const NameRequired := "Name is required."
  const AgeRequired := "Valid age is required."
  const LevelRequired := "Valid level is required."
  const AddressRequired := "Address is required."

  const AllFields: set<Field> := {Name, Age, Level, Address}

  /** The message stored under a field that fails. */
  function Message(f: Field): string
  {
    match f
    case Name => NameRequired
    case Age => AgeRequired
    case Level => LevelRequired
    case Address => AddressRequired
  }

  /** A numeric field passes when it is not empty and reads as a positive number. */
  predicate NumberOk(s: string, isPositiveNumber: string -> bool)
  {
    s != "" && isPositiveNumber(s)
  }

  /** Name and address only have to be non-empty; age and level have to be positive numbers. */
  predicate FieldOk(d: Draft, f: Field, isPositiveNumber: string -> bool)
  {
    match f
    case Name => d.name != ""
    case Age => NumberOk(d.age, isPositiveNumber)
    case Level => NumberOk(d.level, isPositiveNumber)
    case Address => d.address != ""
  }

  /** The field-keyed error map for a draft: one message per failing field. */
  function DraftErrors(d: Draft, isPositiveNumber: string -> bool): map<Field, string>
  {
    map f | f in AllFields && !FieldOk(d, f, isPositiveNumber) :: Message(f)
  }

  /** The draft passes validation exactly when its error map is empty. */
  predicate DraftValid(d: Draft, isPositiveNumber: string -> bool)
  {
    DraftErrors(d, isPositiveNumber) == map[]
  }

  /** Each field has an error exactly when its own check fails, and the error is that field's message. */
  lemma DraftErrorsExactly(d: Draft, isPositiveNumber: string -> bool)
    ensures var e := DraftErrors(d, isPositiveNumber);
            && (Name in e <==> d.name == "")
            && (Age in e <==> d.age == "" || !isPositiveNumber(d.age))
            && (Level in e <==> d.level == "" || !isPositiveNumber(d.level))
            && (Address in e <==> d.address == "")
            && (forall f :: f in e ==> e[f] == Message(f))
  {
  }

  /** Validation succeeds exactly when all four field checks pass. */
  lemma DraftValidIff(d: Draft, isPositiveNumber: string -> bool)
    ensures DraftValid(d, isPositiveNumber) <==>
              && d.name != ""
              && NumberOk(d.age, isPositiveNumber)
              && NumberOk(d.level, isPositiveNumber)
              && d.address != ""
  {
    var e := DraftErrors(d, isPositiveNumber);
    if e == map[] {
      assert Name !in e && Age !in e && Level !in e && Address !in e;
    } else {
      var f :| f in e;
      assert !FieldOk(d, f, isPositiveNumber);
    }
  }

  /** The empty draft fails on every field, whatever the number check says. */
  lemma EmptyDraftFailsEverywhere(isPositiveNumber: string -> bool)
    ensures DraftErrors(EmptyDraft, isPositiveNumber).Keys == AllFields
    ensures !DraftValid(EmptyDraft, isPositiveNumber)
  {
    assert Name in DraftErrors(EmptyDraft, isPositiveNumber);
  }
}
