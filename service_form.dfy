/** The service quote form: per-service default specs, the field handlers
    that update the spec, the finishing and eco checkbox rules, and the
    hand-off to the calculator. */
module ServiceForm {
  import opened Types
  import opened SeqUtil
  import PrintCalculator

  /** The fields every default spec shares: no product or size, 100
      black-and-white copies on standard paper, finishing `'none'`, empty
      notes, and no service-specific field. */
  function BaseSpecs(serviceType: ServiceType): (r: Specs)
    ensures r.serviceType == Some(serviceType) && r.productType == "" && r.size == ""
    ensures r.quantity == 100 && r.paperType == "standard" && r.printColors == "black-and-white"
    ensures r.finishing == ["none"] && r.customSpecs == Some("")
    ensures r.bindingType.None? && r.weight.None? && r.ecoMaterials.None? && r.certifications.None?
    ensures r.pageCount.None? && r.coverType.None? && r.dimensions.None? && r.deliverySpeed.None?
    ensures r.carbonOffset.None? && r.deliveryDate.None? && r.deliveryAddress.None?
  {
    Specs(Some(serviceType), "", "", 100, "standard", "black-and-white", ["none"], Some(""),
          None, None, None, None, None, None, None, None, None, None, None)
  }

  /** With no product chosen, the printing formula charges the `other`
      price: the consulting and report services, whose defaults are the base
      spec, are quoted 10000 and 5 days. */
  lemma BaseSpecsPrice(serviceType: ServiceType)
    ensures PrintCalculator.QuotePrice(BaseSpecs(serviceType)) == 10000
    ensures PrintCalculator.TurnaroundDays(BaseSpecs(serviceType)) == 5
  {
    PrintCalculator.PlainHundredOrder(BaseSpecs(serviceType));
  }

  /** `getDefaultSpecs`: the spec a form starts from for each service. */
  function DefaultSpecs(serviceType: ServiceType): (r: Specs)
    ensures r.serviceType == Some(serviceType) && r.customSpecs == Some("")
    ensures r.quantity == 100 && r.printColors == "black-and-white" && r.finishing == ["none"]
    ensures r.paperType == if serviceType == EcoPrinting then "recycled" else "standard"
    ensures serviceType == Printing ==> r == BaseSpecs(Printing).(productType := "flyer", size := "A4")
    ensures serviceType == Binding ==>
              r == BaseSpecs(Binding).(productType := "softcover-book", bindingType := Some("perfect"),
                                       pageCount := Some(50), coverType := Some("standard"))
    ensures serviceType == Logistics ==>
              r == BaseSpecs(Logistics).(productType := "other", weight := Some(5), dimensions := Some("30x20x10"),
                                         deliverySpeed := Some("standard"), deliveryAddress := Some(""))
    ensures serviceType == EcoPrinting ==>
              r == BaseSpecs(EcoPrinting).(productType := "flyer", size := "A4", paperType := "recycled",
                                           ecoMaterials := Some(["recycled-paper"]), carbonOffset := Some(false),
                                           certifications := Some([]))
    ensures serviceType == SdgsConsulting || serviceType == SustainabilityReport ==>
              r == BaseSpecs(serviceType) && r.productType == "" && r.size == ""
  {
    var base := BaseSpecs(serviceType);
    match serviceType
    case Printing => base.(productType := "flyer", size := "A4")
    case Binding =>
      base.(productType := "softcover-book", bindingType := Some("perfect"), pageCount := Some(50),
            coverType := Some("standard"))
    case Logistics =>
      base.(productType := "other", weight := Some(5), dimensions := Some("30x20x10"),
            deliverySpeed := Some("standard"), deliveryAddress := Some(""))
    case EcoPrinting =>
      base.(productType := "flyer", size := "A4", paperType := "recycled",
            ecoMaterials := Some(["recycled-paper"]), carbonOffset := Some(false), certifications := Some([]))
    case _ => base
  }

  /** The service-specific defaults are not priced by their own rules: the
      binding default's product `softcover-book` is not in the price table and
      is charged the `other` price, as is the logistics default. */
  lemma DefaultBindingPrice()
    ensures PrintCalculator.QuotePrice(DefaultSpecs(Binding)) == 10000
    ensures PrintCalculator.TurnaroundDays(DefaultSpecs(Binding)) == 5
  {
    PrintCalculator.PlainHundredOrder(DefaultSpecs(Binding));
  }

  lemma DefaultLogisticsPrice()
    ensures PrintCalculator.QuotePrice(DefaultSpecs(Logistics)) == 10000
    ensures PrintCalculator.TurnaroundDays(DefaultSpecs(Logistics)) == 5
  {
    PrintCalculator.PlainHundredOrder(DefaultSpecs(Logistics));
  }

  /** The finishing list after `handleFinishingChange`: checking drops
      `'none'` and appends the option, unchecking removes the option; an
      empty result becomes `['none']`, any other loses its `'none'`. */
  function FinishingChange(finishing: seq<string>, option: string, checked: bool): (r: seq<string>)
    ensures r == ["none"] || "none" !in r
    ensures checked && option != "none" ==> r == Without(finishing, "none") + [option]
    ensures checked && option == "none" ==> r == Without(finishing, "none")
    ensures checked ==> forall f :: f in r ==> f == option || (f in finishing && f != "none")
    ensures !checked ==> forall f :: f in r ==> f == "none" || (f in finishing && f != option)
    ensures !checked && option != "none" ==> forall f :: f in finishing && f != option && f != "none" ==> f in r
    ensures !checked && (forall f :: f in finishing ==> f == option) ==> r == ["none"]
    ensures !checked && option != "none" && "none" !in finishing ==>
              r == if Without(finishing, option) == [] then ["none"] else Without(finishing, option)
  {
    var newFinishing := if checked then Without(finishing, "none") + [option] else Without(finishing, option);
    assert !checked ==> forall f :: f in finishing && f != option ==> f in newFinishing;
    if |newFinishing| == 0 then ["none"]
    else
      assert newFinishing[0] in newFinishing;
      if checked then
        WithoutConcat(Without(finishing, "none"), [option], "none");
        Without(newFinishing, "none")
      else
        Without(newFinishing, "none")
  }

  /** Checking `'none'` while it is the only finish empties the list: the
      `'none'` appended is filtered out again, so no option is selected. */
  lemma CheckingNoneAloneEmpties()
    ensures FinishingChange(["none"], "none", true) == []
  {
    assert Without(["none"], "none") == [];
    assert Without(["none"], "none") + ["none"] == ["none"];
  }

  /** Unchecking the only selected finish falls back to `['none']`. */
  lemma UncheckingLastFinish(option: string)
    ensures FinishingChange([option], option, false) == ["none"]
  {
  }

  /** `handleEcoMaterialChange` and `handleCertificationChange`: a list that
      is not there yet becomes the one entry whatever `checked` says;
      otherwise checking appends (duplicates allowed) and unchecking removes
      every occurrence. */
  function ToggleListEntry(list: Option<seq<string>>, entry: string, checked: bool): (r: seq<string>)
    ensures list.None? ==> r == [entry]
    ensures list.Some? && checked ==> r == list.value + [entry]
    ensures list.Some? && !checked ==> entry !in r
    ensures list.Some? && !checked ==> forall e :: e in r <==> e in list.value && e != entry
  {
    match list
    case None => [entry]
    case Some(items) => if checked then items + [entry] else Without(items, entry)
  }

  /** Checking then unchecking an entry of an existing list leaves the other
      entries as they were, in order. */
  lemma {:induction false} CheckThenUncheck(items: seq<string>, entry: string)
    ensures ToggleListEntry(Some(ToggleListEntry(Some(items), entry, true)), entry, false) == Without(items, entry)
  {
    WithoutConcat(items, [entry], entry);
    assert Without([entry], entry) == [];
  }

  /** The number `handleNumberChange` stores: 0 for an empty field, the
      parsed number otherwise, nothing when parsing gives NaN (`None`). */
  function NumberInput(text: string, parsed: Option<int>): (r: Option<int>)
    ensures text == "" ==> r == Some(0)
    ensures text != "" ==> r == parsed
  {
    if text == "" then Some(0) else parsed
  }

  /** The numeric fields of a spec. */
  predicate NumericField(f: Field) {
    Fits(f, Number(0))
  }

  /** The state of one service form: the selected service and the spec being edited. */
  class Form {
    var serviceType: ServiceType
    var specs: Specs

    /** A form opens on the given service (printing by default) with its defaults. */
    constructor (initialServiceType: Option<ServiceType>)
      ensures serviceType == initialServiceType.GetOr(Printing)
      ensures specs == DefaultSpecs(serviceType)
    {
      serviceType := initialServiceType.GetOr(Printing);
      specs := DefaultSpecs(initialServiceType.GetOr(Printing));
    }

    /** Selecting a service: the effect keyed on the service resets the spec
        to that service's defaults only when the service changes; selecting
        the current service again keeps the spec being edited. */
    method SelectService(t: ServiceType)
      modifies this
      ensures serviceType == t
      ensures t != old(serviceType) ==> specs == DefaultSpecs(t)
      ensures t == old(serviceType) ==> specs == old(specs)
    {
      if t != serviceType {
        serviceType := t;
        specs := DefaultSpecs(t);
      }
    }

    /** `handleInputChange`: set one field, keep every other. */
    method HandleInputChange(field: Field, value: Value)
      requires Fits(field, value)
      modifies this`specs
      ensures specs == Set(old(specs), field, value)
      ensures Get(specs, field) == value
      ensures forall g :: g != field ==> Get(specs, g) == Get(old(specs), g)
    {
      specs := Set(specs, field, value);
    }

    /** `handleNumberChange`; `parsed` is what `parseInt(text, 10)` gives. */
    method HandleNumberChange(field: Field, text: string, parsed: Option<int>)
      requires NumericField(field)
      modifies this`specs
      ensures NumberInput(text, parsed).Some? ==> specs == Set(old(specs), field, Number(NumberInput(text, parsed).value))
      ensures NumberInput(text, parsed).None? ==> specs == old(specs)
    {
      var numValue := if text == "" then Some(0) else parsed;
      if numValue.Some? {
        HandleInputChange(field, Number(numValue.value));
      }
    }

    /** `handleFinishingChange`. */
    method HandleFinishingChange(option: string, checked: bool)
      modifies this`specs
      ensures specs == old(specs).(finishing := FinishingChange(old(specs.finishing), option, checked))
    {
      var newFinishing := if checked then Without(specs.finishing, "none") + [option]
                          else Without(specs.finishing, option);
      if |newFinishing| == 0 {
        specs := specs.(finishing := ["none"]);
      } else {
        specs := specs.(finishing := Without(newFinishing, "none"));
      }
    }

    /** `handleEcoMaterialChange`. */
    method HandleEcoMaterialChange(material: string, checked: bool)
      modifies this`specs
      ensures specs == old(specs).(ecoMaterials := Some(ToggleListEntry(old(specs.ecoMaterials), material, checked)))
    {
      if specs.ecoMaterials.None? {
        specs := specs.(ecoMaterials := Some([material]));
        return;
      }
      var newMaterials := if checked then specs.ecoMaterials.value + [material]
                          else Without(specs.ecoMaterials.value, material);
      specs := specs.(ecoMaterials := Some(newMaterials));
    }

    /** `handleCertificationChange`. */
    method HandleCertificationChange(cert: string, checked: bool)
      modifies this`specs
      ensures specs == old(specs).(certifications := Some(ToggleListEntry(old(specs.certifications), cert, checked)))
    {
      if specs.certifications.None? {
        specs := specs.(certifications := Some([cert]));
        return;
      }
      var newCerts := if checked then specs.certifications.value + [cert]
                      else Without(specs.certifications.value, cert);
      specs := specs.(certifications := Some(newCerts));
    }

    /** `handleGenerateQuote`: price the current spec, whatever its service. */
    method HandleGenerateQuote(id: string) returns (quote: Quote)
      ensures quote.specs == specs && quote.id == id
      ensures quote.price == PrintCalculator.QuotePrice(specs)
      ensures quote.turnaround == PrintCalculator.TurnaroundDays(specs)
      ensures quote.discountApplied == PrintCalculator.DiscountField(specs.quantity)
    {
      quote := PrintCalculator.CalculateQuote(specs, id);
    }
  }
}
