/**
 * How `garimpo` reads its POST form: integer fields with defaults, the
 * optional subscriber ceiling, the query and the publication window.
 * A field is `None` when the form does not carry it.
 */
module GarimpoForm {
  import opened Wrappers
  import opened Decimal
  import opened Window

  datatype Form = Form(
    query: Option<string>,
    startDate: DateField,
    endDate: DateField,
    periodButton: Option<string>,
    minViews: Option<string>,
    minLikes: Option<string>,
    minSubs: Option<string>,
    maxSubs: Option<string>,
    limit: Option<string>)

  /** The values the handler derives from the form before searching. */
  datatype Inputs = Inputs(
    query: string,
    minViews: int,
    minLikes: int,
    minSubs: int,
    maxSubs: Option<nat>,
    limit: int,
    window: Bounds)

  /** A field that Python treats as false: absent or empty. */
  predicate IsBlank(field: Option<string>) {
    field.None? || field.value == ""
  }

  /** `int(field or default)`: the default for a blank field, otherwise `int()` of the text (None when it raises). */
  function IntField(field: Option<string>, default: int): (r: Option<int>)
    ensures IsBlank(field) ==> r == Some(default)
    ensures !IsBlank(field) ==> (r.Some? <==> ParseInt(field.value).Some?)
    ensures !IsBlank(field) && r.Some? ==> r == ParseInt(field.value)
  {
    if IsBlank(field) then Some(default) else ParseInt(field.value)
  }

  lemma IntFieldReadsPrinted(n: int, default: int)
    ensures IntField(Some(IntToString(n)), default) == Some(n)
    ensures IntField(None, default) == Some(default) && IntField(Some(""), default) == Some(default)
  {
    ParseIntOfIntToString(n);
  }

  /** `int(max_subs) if max_subs and max_subs.isdigit() else None`. */
  function MaxSubsField(field: Option<string>): (r: Option<nat>)
    ensures r.Some? <==> !IsBlank(field) && AllDigits(field.value)
    ensures r.Some? ==> r.value == DigitsValue(field.value)
  {
    if !IsBlank(field) && AllDigits(field.value) then Some(DigitsValue(field.value)) else None
  }

  /** The ceiling reads back any count written in digits; a sign or other text gives no ceiling, not an error. */
  lemma MaxSubsFieldReadsPrinted(n: nat)
    ensures MaxSubsField(Some(NatToString(n))) == Some(n)
    ensures MaxSubsField(Some("-" + NatToString(n))) == None
  {
    DigitsValueOfNatToString(n);
    assert !IsDigit(("-" + NatToString(n))[0]);
  }

  /**
   * Lines 38-73 of the handler: None when an `int()` or a `strptime` raises,
   * which ends the request with a server error.
   */
  function ParseForm(form: Form, now: int): (r: Option<Inputs>)
    ensures r.Some? <==>
      && IntField(form.minViews, 0).Some? && IntField(form.minLikes, 0).Some?
      && IntField(form.minSubs, 0).Some? && IntField(form.limit, 50).Some?
      && !form.startDate.Unparseable? && !form.endDate.Unparseable?
    ensures r.Some? ==>
      && r.value.query == form.query.GetOr("")
      && r.value.minViews == IntField(form.minViews, 0).value
      && r.value.minLikes == IntField(form.minLikes, 0).value
      && r.value.minSubs == IntField(form.minSubs, 0).value
      && r.value.limit == IntField(form.limit, 50).value
      && r.value.maxSubs == MaxSubsField(form.maxSubs)
      && Some(r.value.window) == ResolveWindow(form.periodButton.GetOr(""), form.startDate, form.endDate, now)
  {
    var minViews := IntField(form.minViews, 0);
    var minLikes := IntField(form.minLikes, 0);
    var minSubs := IntField(form.minSubs, 0);
    var limit := IntField(form.limit, 50);
    var window := ResolveWindow(form.periodButton.GetOr(""), form.startDate, form.endDate, now);
    if minViews.None? || minLikes.None? || minSubs.None? || limit.None? || window.None? then None
    else Some(Inputs(form.query.GetOr(""), minViews.value, minLikes.value, minSubs.value,
                     MaxSubsField(form.maxSubs), limit.value, window.value))
  }

  /** An empty form parses: no query, floors 0, no ceiling, limit 50 and an open window. */
  lemma EmptyFormDefaults(now: int)
    ensures ParseForm(Form(None, Blank, Blank, None, None, None, None, None, None), now)
         == Some(Inputs("", 0, 0, 0, None, 50, Bounds(None, None)))
  {
  }
}
