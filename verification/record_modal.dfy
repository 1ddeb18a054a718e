/**
 * The add/edit record dialog (RecordModal.component.ts): a form over date,
 * type, amount and note with its validators, the patch from the record being
 * edited, and the `onSave`/`onClose` events it emits.
 */
module RecordModal {
  import opened Records

  /**
   * The value of the form: `date` and `kind` are the text of their controls
   * ('' when empty), `amount` is None when the number control is empty, and
   * `note` is None when patched from a record whose note is NULL.
   */
  datatype FormValue = FormValue(date: string, kind: string, amount: Option<real>, note: Option<string>)

  /** The errors the form's validators can report. */
  datatype ControlError =
    | DateRequired     // `date`: Validators.required
    | TypeRequired     // `type`: Validators.required
    | AmountRequired   // `amount`: Validators.required
    | AmountBelowMin   // `amount`: Validators.min(0)

  /**
   * The form as the constructor builds it: type 'Income', amount 0 and an
   * empty note, so only the empty date keeps it from being valid.
   */
  function DefaultForm(): (f: FormValue)
    ensures Errors(f) == {DateRequired}
    ensures !FormValid(f)
  {
    FormValue("", "Income", Some(0.0), Some(""))
  }

  /**
   * What the validators report. `Validators.min` passes an empty control
   * (leaving it to `required`); `note` has no validator.
   */
  function Errors(f: FormValue): (e: set<ControlError>)
    ensures DateRequired in e <==> f.date == ""
    ensures TypeRequired in e <==> f.kind == ""
    ensures AmountRequired in e <==> f.amount.None?
    ensures AmountBelowMin in e <==> f.amount.Some? && f.amount.value < 0.0
  {
    (if f.date == "" then {DateRequired} else {})
    + (if f.kind == "" then {TypeRequired} else {})
    + (match f.amount
       case None => {AmountRequired}
       case Some(a) => if a < 0.0 then {AmountBelowMin} else {})
  }

  /** `form.valid`: no control reports an error. */
  predicate FormValid(f: FormValue): (valid: bool)
    ensures valid <==> f.date != "" && f.kind != "" && f.amount.Some? && f.amount.value >= 0.0
  {
    Errors(f) == {}
  }

  /** The note is never validated: any note leaves validity as it was. */
  lemma NoteIsUnchecked(f: FormValue, note: Option<string>)
    ensures FormValid(f.(note := note)) == FormValid(f)
    ensures Errors(f.(note := note)) == Errors(f)
  {
  }

  /** `form.patchValue(record)`: each control takes the record's field of the same name. */
  function PatchedFrom(r: Record): (f: FormValue)
    ensures f.amount.Some? && f.amount.value == r.amount
    ensures f.date == r.date && f.kind == r.kind && f.note == r.note
  {
    FormValue(r.date, r.kind, Some(r.amount), r.note)
  }

  /** `form.value` as a plain object: exactly the four controls, no `id`. */
  function FormObject(f: FormValue): (o: Object)
    ensures o.Keys == {"date", "type", "amount", "note"}
    ensures o["date"] == Str(f.date) && o["type"] == Str(f.kind) && o["note"] == NoteValue(f.note)
    ensures o["amount"] == (if f.amount.Some? then Num(f.amount.value) else Null)
  {
    map["date" := Str(f.date), "type" := Str(f.kind),
        "amount" := (match f.amount case None => Null case Some(a) => Num(a)),
        "note" := NoteValue(f.note)]
  }

  class RecordModalComponent {
    /** The `@Input() record`: None for a new record. */
    var record: Option<Record>
    var form: FormValue
    /** The values emitted on `onSave`, oldest first. */
    var saved: seq<FormValue>
    /** How many times `onClose` has been emitted. */
    var closeEvents: nat

    constructor ()
      ensures record.None? && form == DefaultForm() && saved == [] && closeEvents == 0
    {
      record := None;
      form := DefaultForm();
      saved := [];
      closeEvents := 0;
    }

    method NgOnInit()
      modifies this`form
      ensures form == if record.Some? then PatchedFrom(record.value) else old(form)
    {
      if record.Some? {
        form := PatchedFrom(record.value);
      }
    }

    /** Emits the form value once if the form is valid, nothing otherwise. */
    method Save()
      modifies this`saved
      ensures saved == old(saved) + (if FormValid(form) then [form] else [])
    {
      if FormValid(form) {
        saved := saved + [form];
      }
    }

    /** Emits `onClose`; never `onSave`. */
    method Close()
      modifies this`closeEvents
      ensures closeEvents == old(closeEvents) + 1
      ensures saved == old(saved)
    {
      closeEvents := closeEvents + 1;
    }
  }

  /** A new-record dialog saved without any input emits nothing. */
  method SaveUntouchedNewRecord() returns (emitted: seq<FormValue>)
    ensures emitted == []
  {
    var modal := new RecordModalComponent();
    modal.NgOnInit();
    modal.Save();
    emitted := modal.saved;
  }
}
