/** The printing order form: validation with one message per missing field,
    error clearing on edit, the finishing toggle and the submit gate. */
module PrintForm {
  import opened Types
  import opened SeqUtil
  import PrintCalculator

  const ProductTypeError: string := "商品タイプを選択してください"
  const SizeError: string := "サイズを選択してください"
  const QuantityError: string := "有効な数量を入力してください"
  const PaperTypeError: string := "用紙タイプを選択してください"
  const PrintColorsError: string := "印刷色を選択してください"

  /** The spec a fresh form holds: every choice empty, quantity 100, no
      finishes, so that it is rejected for its four empty choices and not for
      its quantity. */
  function InitialSpecs(): (r: Specs)
    ensures r.serviceType == None && r.quantity == 100 && r.finishing == [] && r.deliveryDate == None
    ensures ValidationErrors(r).Keys == {ProductTypeField, SizeField, PaperTypeField, PrintColorsField}
  {
    Specs(None, "", "", 100, "", "", [], Some(""), None, None, None, None, None, None, None, None, None, None, None)
  }

  /** The errors `validateForm` records: one entry per failing field, keyed by
      the field, with that field's message. */
  function ValidationErrors(s: Specs): (r: map<Field, string>)
    ensures ProductTypeField in r <==> s.productType == ""
    ensures SizeField in r <==> s.size == ""
    ensures QuantityField in r <==> s.quantity < 1
    ensures PaperTypeField in r <==> s.paperType == ""
    ensures PrintColorsField in r <==> s.printColors == ""
    ensures forall f :: f in r ==> f in {ProductTypeField, SizeField, QuantityField, PaperTypeField, PrintColorsField}
    ensures ProductTypeField in r ==> r[ProductTypeField] == ProductTypeError
    ensures SizeField in r ==> r[SizeField] == SizeError
    ensures QuantityField in r ==> r[QuantityField] == QuantityError
    ensures PaperTypeField in r ==> r[PaperTypeField] == PaperTypeError
    ensures PrintColorsField in r ==> r[PrintColorsField] == PrintColorsError
  {
    map f | f in {ProductTypeField, SizeField, QuantityField, PaperTypeField, PrintColorsField} && Fails(s, f)
      :: ErrorMessage(f)
  }

  predicate Fails(s: Specs, f: Field): (r: bool) {
    match f
    case ProductTypeField => s.productType == ""
    case SizeField => s.size == ""
    case QuantityField => s.quantity < 1
    case PaperTypeField => s.paperType == ""
    case PrintColorsField => s.printColors == ""
    case _ => false
  }

  function ErrorMessage(f: Field): (r: string) {
    match f
    case ProductTypeField => ProductTypeError
    case SizeField => SizeError
    case QuantityField => QuantityError
    case PaperTypeField => PaperTypeError
    case PrintColorsField => PrintColorsError
    case _ => ""
  }

  /** A form is valid exactly when the four choices are made and the quantity
      is at least 1; finishing, the date and the notes are never checked. */
  lemma ValidIff(s: Specs)
    ensures ValidationErrors(s) == map[] <==>
              s.productType != "" && s.size != "" && s.quantity >= 1 && s.paperType != "" && s.printColors != ""
  {
    var r := ValidationErrors(s);
    if r != map[] {
      var f :| f in r;
    }
  }

  /** `handleFinishingToggle`: remove every occurrence of a selected finish,
      append one that is not selected. */
  function ToggleFinishing(finishing: seq<string>, value: string): (r: seq<string>)
    ensures value in finishing ==> value !in r && forall f :: f in r <==> f in finishing && f != value
    ensures value !in finishing ==> r == finishing + [value]
  {
    if value in finishing then Without(finishing, value) else finishing + [value]
  }

  /** Toggling a finish that is not selected twice restores the list. */
  lemma {:induction false} ToggleTwiceRestores(finishing: seq<string>, value: string)
    requires value !in finishing
    ensures ToggleFinishing(ToggleFinishing(finishing, value), value) == finishing
  {
    WithoutConcat(finishing, [value], value);
    assert Without([value], value) == [];
  }

  /** Toggling a selected finish twice moves it to the end and drops its duplicates. */
  lemma ToggleTwiceSelected(finishing: seq<string>, value: string)
    requires value in finishing
    ensures ToggleFinishing(ToggleFinishing(finishing, value), value) == Without(finishing, value) + [value]
  {
  }

  /** The spec `handleSubmit` prices: the form's spec with the chosen date, if
      any, as its delivery date. */
  function SubmittedSpecs(s: Specs, date: Option<Timestamp>): (r: Specs)
    ensures date.Some? ==> Get(r, DeliveryDateField) == Date(date.value)
    ensures date.None? ==> r == s
    ensures forall g :: g != DeliveryDateField ==> Get(r, g) == Get(s, g)
  {
    if date.Some? then Set(s, DeliveryDateField, Date(date.value)) else s
  }

  /** The delivery date never changes the price. */
  lemma DateDoesNotChangePrice(s: Specs, date: Option<Timestamp>)
    ensures PrintCalculator.QuotePrice(SubmittedSpecs(s, date)) == PrintCalculator.QuotePrice(s)
    ensures PrintCalculator.TurnaroundDays(SubmittedSpecs(s, date)) == PrintCalculator.TurnaroundDays(s)
  {
    var t := SubmittedSpecs(s, date);
    assert Get(t, ProductTypeField) == Get(s, ProductTypeField);
    assert Get(t, PaperTypeField) == Get(s, PaperTypeField);
    assert Get(t, PrintColorsField) == Get(s, PrintColorsField);
    assert Get(t, FinishingField) == Get(s, FinishingField);
    assert Get(t, QuantityField) == Get(s, QuantityField);
    PrintCalculator.QuoteDependsOnPrintingFields(t, s);
  }

  /** The state of one printing form. */
  class Form {
    var specs: Specs
    var date: Option<Timestamp>
    var isGeneratingQuote: bool
    var errors: map<Field, string>

    constructor ()
      ensures specs == InitialSpecs() && date == None && !isGeneratingQuote && errors == map[]
    {
      specs := InitialSpecs();
      date := None;
      isGeneratingQuote := false;
      errors := map[];
    }

    /** The calendar's `setDate`: the chosen delivery date, or none when the
        chosen day is clicked again and deselected. */
    method SetDate(d: Option<Timestamp>)
      modifies this`date
      ensures date == d
    {
      date := d;
    }

    /** `validateForm`: collect the message of each failing field, store them,
        and report whether there were none. */
    method ValidateForm() returns (valid: bool)
      modifies this`errors
      ensures errors == ValidationErrors(specs)
      ensures valid <==> specs.productType != "" && specs.size != "" && specs.quantity >= 1
                         && specs.paperType != "" && specs.printColors != ""
    {
      var newErrors: map<Field, string> := map[];
      if specs.productType == "" { newErrors := newErrors[ProductTypeField := ProductTypeError]; }
      if specs.size == "" { newErrors := newErrors[SizeField := SizeError]; }
      if specs.quantity < 1 { newErrors := newErrors[QuantityField := QuantityError]; }
      if specs.paperType == "" { newErrors := newErrors[PaperTypeField := PaperTypeError]; }
      if specs.printColors == "" { newErrors := newErrors[PrintColorsField := PrintColorsError]; }
      assert newErrors == ValidationErrors(specs);
      errors := newErrors;
      ValidIff(specs);
      valid := |newErrors| == 0;
      assert valid <==> newErrors == map[] by {
        if newErrors != map[] {
          var f :| f in newErrors;
        }
      }
    }

    /** `handleInputChange`: set the field, and drop that field's error when
        it has a non-empty one; every other error stays. */
    method HandleInputChange(field: Field, value: Value)
      requires Fits(field, value)
      modifies this`specs, this`errors
      ensures specs == Set(old(specs), field, value)
      ensures field in old(errors) && old(errors)[field] != "" ==> errors == old(errors) - {field}
      ensures !(field in old(errors) && old(errors)[field] != "") ==> errors == old(errors)
    {
      specs := Set(specs, field, value);
      if field in errors && errors[field] != "" {
        errors := errors - {field};
      }
    }

    /** `handleFinishingToggle`. */
    method HandleFinishingToggle(value: string)
      modifies this`specs
      ensures specs == old(specs).(finishing := ToggleFinishing(old(specs.finishing), value))
    {
      var finishingOptions := if value in specs.finishing then Without(specs.finishing, value)
                              else specs.finishing + [value];
      specs := specs.(finishing := finishingOptions);
    }

    /** `handleSubmit`: validate; on failure no quote, otherwise price the
        spec with the chosen date. The delayed callback is run at once. */
    method HandleSubmit(id: string) returns (quote: Option<Quote>)
      modifies this`errors, this`isGeneratingQuote
      ensures errors == ValidationErrors(specs)
      ensures quote.None? <==> ValidationErrors(specs) != map[]
      ensures quote.None? ==> isGeneratingQuote == old(isGeneratingQuote)
      ensures quote.Some? ==> !isGeneratingQuote
      ensures quote.Some? ==> quote.value.specs == SubmittedSpecs(specs, date) && quote.value.id == id
      ensures quote.Some? ==> quote.value.price == PrintCalculator.QuotePrice(specs)
      ensures quote.Some? ==> quote.value.turnaround == PrintCalculator.TurnaroundDays(specs)
      ensures quote.Some? ==> quote.value.discountApplied == PrintCalculator.DiscountField(specs.quantity)
      ensures quote.Some? ==> quote.value.createdAt == None
    {
      var valid := ValidateForm();
      ValidIff(specs);
      if !valid {
        return None;
      }
      isGeneratingQuote := true;
      var updatedSpecs := specs;
      if date.Some? {
        updatedSpecs := updatedSpecs.(deliveryDate := date);
      }
      assert updatedSpecs == SubmittedSpecs(specs, date);
      var q := PrintCalculator.CalculateQuote(updatedSpecs, id);
      DateDoesNotChangePrice(specs, date);
      isGeneratingQuote := false;
      quote := Some(q);
    }
  }
}
