/** Part and labour lines of an estimate, their validation, and the totals
    recalculated after every change to them (backend/routes/estimates.py,
    add/update part and labour handlers; the totals follow the figures in
    backend/test_estimates.py).

    Amounts are exact decimals, modelled as `real`: the source converts every
    JSON number to `Decimal` before multiplying. */
module LineItems {
  import opened Common

  // ---------------------------------------------------------------------------
  // Parts

  /** A row of estimate_parts: `totalPrice` is derived, never taken from the caller. */
  datatype Part = Part(
    id: nat,
    name: string,
    partNumber: Option<string>,
    quantity: int,
    unitPrice: real,
    totalPrice: real,
    notes: Option<string>)

  /** What every stored part satisfies: a positive quantity, a unit price that
      may be zero (warranty or promotional parts) but not negative, and the
      line total quantity × unit price. */
  predicate ValidPart(p: Part) {
    p.quantity > 0 && p.unitPrice >= 0.0 && p.totalPrice == p.quantity as real * p.unitPrice
  }

  /** The decoded body of "add part": None where the key is absent. */
  datatype PartInput = PartInput(
    name: Option<string>,
    partNumber: Option<string>,
    quantity: Option<int>,
    unitPrice: Option<real>,
    notes: Option<string>)

  /** The part row "add part" creates, or the error it answers with: the
      required fields in the order part_name, quantity, unit_price, then the
      quantity check, then the unit price check. */
  function NewPart(id: nat, input: PartInput): (r: Result<Part>)
    ensures r.Ok? <==>
              input.name.Some? && input.quantity.Some? && input.unitPrice.Some? &&
              input.quantity.value > 0 && input.unitPrice.value >= 0.0
    ensures r.Ok? ==> ValidPart(r.value)
    ensures r.Ok? ==> r.value == Part(id, input.name.value, input.partNumber, input.quantity.value,
                                      input.unitPrice.value, r.value.totalPrice, input.notes)
    ensures input.name.None? ==> r == Err(MissingField("part_name"))
    ensures input.name.Some? && input.quantity.None? ==> r == Err(MissingField("quantity"))
    ensures input.name.Some? && input.quantity.Some? && input.unitPrice.None? ==>
              r == Err(MissingField("unit_price"))
    ensures input.name.Some? && input.unitPrice.Some? && input.quantity.Some? && input.quantity.value <= 0 ==>
              r == Err(InvalidValue("quantity"))
    ensures input.name.Some? && input.quantity.Some? && input.quantity.value > 0 &&
            input.unitPrice.Some? && input.unitPrice.value < 0.0 ==>
              r == Err(InvalidValue("unit_price"))
  {
    if input.name.None? then Err(MissingField("part_name"))
    else if input.quantity.None? then Err(MissingField("quantity"))
    else if input.unitPrice.None? then Err(MissingField("unit_price"))
    else if input.quantity.value <= 0 then Err(InvalidValue("quantity"))
    else if input.unitPrice.value < 0.0 then Err(InvalidValue("unit_price"))
    else
      var q, u := input.quantity.value, input.unitPrice.value;
      Ok(Part(id, input.name.value, input.partNumber, q, u, q as real * u, input.notes))
  }

  /** The decoded body of "update part": `Keep` where the key is absent. */
  datatype PartPatch = PartPatch(
    name: Patch<string>,
    partNumber: Patch<Option<string>>,
    quantity: Patch<int>,
    unitPrice: Patch<real>,
    notes: Patch<Option<string>>)

  /** The part after "update part": the supplied fields replace the stored
      ones, the others stay, and the total is recomputed from the resulting
      quantity and unit price; a supplied quantity ≤ 0 or unit price < 0
      rejects the whole update, quantity first. */
  function PatchPart(p: Part, patch: PartPatch): (r: Result<Part>)
    ensures r.Ok? <==>
              (patch.quantity.Set? ==> patch.quantity.value > 0) &&
              (patch.unitPrice.Set? ==> patch.unitPrice.value >= 0.0)
    ensures patch.quantity.Set? && patch.quantity.value <= 0 ==> r == Err(InvalidValue("quantity"))
    ensures ((patch.quantity.Set? ==> patch.quantity.value > 0) &&
             patch.unitPrice.Set? && patch.unitPrice.value < 0.0) ==> r == Err(InvalidValue("unit_price"))
    ensures r.Ok? ==>
              r.value.id == p.id &&
              r.value.name == Patched(patch.name, p.name) &&
              r.value.partNumber == Patched(patch.partNumber, p.partNumber) &&
              r.value.quantity == Patched(patch.quantity, p.quantity) &&
              r.value.unitPrice == Patched(patch.unitPrice, p.unitPrice) &&
              r.value.notes == Patched(patch.notes, p.notes) &&
              r.value.totalPrice == r.value.quantity as real * r.value.unitPrice
    ensures r.Ok? && ValidPart(p) ==> ValidPart(r.value)
  {
    if patch.quantity.Set? && patch.quantity.value <= 0 then Err(InvalidValue("quantity"))
    else if patch.unitPrice.Set? && patch.unitPrice.value < 0.0 then Err(InvalidValue("unit_price"))
    else
      var q := Patched(patch.quantity, p.quantity);
      var u := Patched(patch.unitPrice, p.unitPrice);
      Ok(Part(p.id, Patched(patch.name, p.name), Patched(patch.partNumber, p.partNumber),
              q, u, q as real * u, Patched(patch.notes, p.notes)))
  }

  // ---------------------------------------------------------------------------
  // Labour

  /** A row of estimate_labour: `totalCost` is derived, never taken from the caller. */
  datatype Labour = Labour(
    id: nat,
    description: string,
    hours: real,
    hourlyRate: real,
    totalCost: real,
    notes: Option<string>)

  /** What every stored labour line satisfies: positive hours, a positive
      rate (labour is never free), and the line total hours × rate. */
  predicate ValidLabour(l: Labour) {
    l.hours > 0.0 && l.hourlyRate > 0.0 && l.totalCost == l.hours * l.hourlyRate
  }

  /** The decoded body of "add labour": None where the key is absent. */
  datatype LabourInput = LabourInput(
    description: Option<string>,
    hours: Option<real>,
    hourlyRate: Option<real>,
    notes: Option<string>)

  /** The labour row "add labour" creates, or its error: the required fields
      in the order description, hours, hourly_rate, then hours > 0, then
      hourly rate > 0. */
  function NewLabour(id: nat, input: LabourInput): (r: Result<Labour>)
    ensures r.Ok? <==>
              input.description.Some? && input.hours.Some? && input.hourlyRate.Some? &&
              input.hours.value > 0.0 && input.hourlyRate.value > 0.0
    ensures r.Ok? ==> ValidLabour(r.value)
    ensures r.Ok? ==> r.value == Labour(id, input.description.value, input.hours.value,
                                        input.hourlyRate.value, r.value.totalCost, input.notes)
    ensures input.description.None? ==> r == Err(MissingField("description"))
    ensures input.description.Some? && input.hours.None? ==> r == Err(MissingField("hours"))
    ensures input.description.Some? && input.hours.Some? && input.hourlyRate.None? ==>
              r == Err(MissingField("hourly_rate"))
    ensures input.description.Some? && input.hourlyRate.Some? && input.hours.Some? && input.hours.value <= 0.0 ==>
              r == Err(InvalidValue("hours"))
    ensures input.description.Some? && input.hours.Some? && input.hours.value > 0.0 &&
            input.hourlyRate.Some? && input.hourlyRate.value <= 0.0 ==>
              r == Err(InvalidValue("hourly_rate"))
  {
    if input.description.None? then Err(MissingField("description"))
    else if input.hours.None? then Err(MissingField("hours"))
    else if input.hourlyRate.None? then Err(MissingField("hourly_rate"))
    else if input.hours.value <= 0.0 then Err(InvalidValue("hours"))
    else if input.hourlyRate.value <= 0.0 then Err(InvalidValue("hourly_rate"))
    else
      var h, rate := input.hours.value, input.hourlyRate.value;
      Ok(Labour(id, input.description.value, h, rate, h * rate, input.notes))
  }

  /** The decoded body of "update labour": `Keep` where the key is absent. */
  datatype LabourPatch = LabourPatch(
    description: Patch<string>,
    hours: Patch<real>,
    hourlyRate: Patch<real>,
    notes: Patch<Option<string>>)

  /** The labour line after "update labour": supplied fields replace the
      stored ones, the total is recomputed from the resulting hours and rate;
      supplied hours ≤ 0 or rate ≤ 0 reject the whole update, hours first. */
  function PatchLabour(l: Labour, patch: LabourPatch): (r: Result<Labour>)
    ensures r.Ok? <==>
              (patch.hours.Set? ==> patch.hours.value > 0.0) &&
              (patch.hourlyRate.Set? ==> patch.hourlyRate.value > 0.0)
    ensures patch.hours.Set? && patch.hours.value <= 0.0 ==> r == Err(InvalidValue("hours"))
    ensures ((patch.hours.Set? ==> patch.hours.value > 0.0) &&
             patch.hourlyRate.Set? && patch.hourlyRate.value <= 0.0) ==> r == Err(InvalidValue("hourly_rate"))
    ensures r.Ok? ==>
              r.value.id == l.id &&
              r.value.description == Patched(patch.description, l.description) &&
              r.value.hours == Patched(patch.hours, l.hours) &&
              r.value.hourlyRate == Patched(patch.hourlyRate, l.hourlyRate) &&
              r.value.notes == Patched(patch.notes, l.notes) &&
              r.value.totalCost == r.value.hours * r.value.hourlyRate
    ensures r.Ok? && ValidLabour(l) ==> ValidLabour(r.value)
  {
    if patch.hours.Set? && patch.hours.value <= 0.0 then Err(InvalidValue("hours"))
    else if patch.hourlyRate.Set? && patch.hourlyRate.value <= 0.0 then Err(InvalidValue("hourly_rate"))
    else
      var h := Patched(patch.hours, l.hours);
      var rate := Patched(patch.hourlyRate, l.hourlyRate);
      Ok(Labour(l.id, Patched(patch.description, l.description), h, rate, h * rate,
                Patched(patch.notes, l.notes)))
  }

  // ---------------------------------------------------------------------------
  // Finding a line by id

  function PartId(p: Part): nat { p.id }

  function LabourId(l: Labour): nat { l.id }

  // ---------------------------------------------------------------------------
  // Sums

  function Sum(xs: seq<real>): real
    decreases |xs|
  {
    if xs == [] then 0.0 else xs[0] + Sum(xs[1..])
  }

  lemma {:induction false} SumAppend(xs: seq<real>, x: real)
    ensures Sum(xs + [x]) == Sum(xs) + x
    decreases |xs|
  {
    if xs != [] {
      assert (xs + [x])[1..] == xs[1..] + [x];
      SumAppend(xs[1..], x);
    }
  }

  lemma {:induction false} SumConcat(xs: seq<real>, ys: seq<real>)
    ensures Sum(xs + ys) == Sum(xs) + Sum(ys)
    decreases |xs|
  {
    if xs == [] {
      assert xs + ys == ys;
    } else {
      assert (xs + ys)[1..] == xs[1..] + ys;
      SumConcat(xs[1..], ys);
    }
  }

  /** Taking one element out of a sum subtracts exactly that element. */
  lemma SumRemove(xs: seq<real>, i: nat)
    requires i < |xs|
    ensures Sum(xs[..i] + xs[i + 1..]) == Sum(xs) - xs[i]
  {
    var rest := xs[i + 1..];
    assert xs == xs[..i] + ([xs[i]] + rest);
    assert ([xs[i]] + rest)[1..] == rest;
    SumConcat(xs[..i], [xs[i]] + rest);
    SumConcat(xs[..i], rest);
  }

  /** Replacing one element changes the sum by the difference. */
  lemma SumReplace(xs: seq<real>, i: nat, x: real)
    requires i < |xs|
    ensures Sum(xs[i := x]) == Sum(xs) - xs[i] + x
  {
    var rest := xs[i + 1..];
    assert xs == xs[..i] + ([xs[i]] + rest);
    assert xs[i := x] == xs[..i] + ([x] + rest);
    assert ([xs[i]] + rest)[1..] == rest && ([x] + rest)[1..] == rest;
    SumConcat(xs[..i], [xs[i]] + rest);
    SumConcat(xs[..i], [x] + rest);
  }

  lemma {:induction false} SumNonNegative(xs: seq<real>)
    requires forall i :: 0 <= i < |xs| ==> xs[i] >= 0.0
    ensures Sum(xs) >= 0.0
    decreases |xs|
  {
    if xs != [] {
      SumNonNegative(xs[1..]);
    }
  }

  lemma {:induction false} SumPositive(xs: seq<real>)
    requires xs != []
    requires forall i :: 0 <= i < |xs| ==> xs[i] > 0.0
    ensures Sum(xs) > 0.0
    decreases |xs|
  {
    if |xs| > 1 {
      SumPositive(xs[1..]);
    }
  }

  function PartPrices(parts: seq<Part>): (r: seq<real>)
    ensures |r| == |parts| && forall i :: 0 <= i < |parts| ==> r[i] == parts[i].totalPrice
  {
    seq(|parts|, i requires 0 <= i < |parts| => parts[i].totalPrice)
  }

  function LabourCosts(labour: seq<Labour>): (r: seq<real>)
    ensures |r| == |labour| && forall i :: 0 <= i < |labour| ==> r[i] == labour[i].totalCost
  {
    seq(|labour|, i requires 0 <= i < |labour| => labour[i].totalCost)
  }

  // ---------------------------------------------------------------------------
  // Money rounding and the totals

  /** A whole number of cents. */
  predicate WholeCents(x: real) {
    (x * 100.0).Floor as real == x * 100.0
  }

  /** Rounds to the nearest integer, a tie going to the even one (the
      default rounding of Python's decimal module): at most one half away,
      and an integer is left as it is. */
  function RoundHalfEven(c: real): (k: int)
    ensures -0.5 <= k as real - c <= 0.5
    ensures c.Floor as real == c ==> k == c.Floor
    ensures c - c.Floor as real != 0.5 ==> -0.5 < k as real - c < 0.5
    ensures c - c.Floor as real == 0.5 ==> k % 2 == 0
  {
    var f := c.Floor;
    var frac := c - f as real;
    if frac < 0.5 then f else if frac > 0.5 then f + 1 else if f % 2 == 0 then f else f + 1
  }

  lemma CentsAreWhole(k: int)
    ensures WholeCents(k as real / 100.0)
  {
    assert (k as real / 100.0) * 100.0 == k as real;
  }

  lemma ScaleBack(x: real, k: int)
    requires -0.5 <= k as real - x * 100.0 <= 0.5
    ensures -0.005 <= k as real / 100.0 - x <= 0.005
    ensures k as real == x * 100.0 ==> k as real / 100.0 == x
  {
  }

  /** Rounds to two fraction digits, a tie going to the even cent: the
      result is a whole number of cents, at most half a cent away, and a
      whole-cent amount is left as it is. */
  function RoundCents(x: real): (r: real)
    ensures WholeCents(r)
    ensures -0.005 <= r - x <= 0.005
    ensures WholeCents(x) ==> r == x
    ensures var c := x * 100.0; c - c.Floor as real == 0.5 ==> (r * 100.0).Floor % 2 == 0
  {
    var k := RoundHalfEven(x * 100.0);
    CentsAreWhole(k);
    ScaleBack(x, k);
    k as real / 100.0
  }

  /** The tax rate is ten per cent of parts plus labour. */
  const TaxRate: real := 0.10

  /** The four derived fields of an estimate. */
  datatype Totals = Totals(parts: real, labour: real, tax: real, grand: real)

  /** `calculate_totals`: parts and labour are the sums of their line totals
      (0 when there are none), tax is ten per cent of their sum rounded to
      the cent, and the grand total is parts + labour + tax. */
  function CalculateTotals(parts: seq<Part>, labour: seq<Labour>): (t: Totals)
    ensures t.parts == Sum(PartPrices(parts)) && t.labour == Sum(LabourCosts(labour))
    ensures t.grand == t.parts + t.labour + t.tax
    ensures WholeCents(t.tax) && -0.005 <= t.tax - TaxRate * (t.parts + t.labour) <= 0.005
    ensures parts == [] ==> t.parts == 0.0
    ensures labour == [] ==> t.labour == 0.0
  {
    var p := Sum(PartPrices(parts));
    var l := Sum(LabourCosts(labour));
    var tax := RoundCents(TaxRate * (p + l));
    Totals(p, l, tax, p + l + tax)
  }

  /** Stored lines never make a total negative, and any labour at all makes
      the labour total positive. */
  lemma TotalsOfValidLines(parts: seq<Part>, labour: seq<Labour>)
    requires forall i :: 0 <= i < |parts| ==> ValidPart(parts[i])
    requires forall i :: 0 <= i < |labour| ==> ValidLabour(labour[i])
    ensures CalculateTotals(parts, labour).parts >= 0.0
    ensures CalculateTotals(parts, labour).labour >= 0.0
    ensures labour != [] ==> CalculateTotals(parts, labour).labour > 0.0
    ensures CalculateTotals(parts, labour).grand >= 0.0
  {
    forall i | 0 <= i < |parts| ensures PartPrices(parts)[i] >= 0.0 {
      assert ValidPart(parts[i]);
    }
    forall i | 0 <= i < |labour| ensures LabourCosts(labour)[i] > 0.0 {
      assert ValidLabour(labour[i]);
    }
    SumNonNegative(PartPrices(parts));
    SumNonNegative(LabourCosts(labour));
    if labour != [] {
      SumPositive(LabourCosts(labour));
    }
  }

  /** Adding a part raises the parts total by that line's total and leaves
      the labour total alone. */
  lemma AddPartTotals(parts: seq<Part>, labour: seq<Labour>, p: Part)
    ensures CalculateTotals(parts + [p], labour).parts == CalculateTotals(parts, labour).parts + p.totalPrice
    ensures CalculateTotals(parts + [p], labour).labour == CalculateTotals(parts, labour).labour
  {
    assert PartPrices(parts + [p]) == PartPrices(parts) + [p.totalPrice];
    SumAppend(PartPrices(parts), p.totalPrice);
  }

  /** Removing a part lowers the parts total by exactly that line's total. */
  lemma RemovePartTotals(parts: seq<Part>, labour: seq<Labour>, i: nat)
    requires i < |parts|
    ensures CalculateTotals(parts[..i] + parts[i + 1..], labour).parts ==
            CalculateTotals(parts, labour).parts - parts[i].totalPrice
  {
    assert PartPrices(parts[..i] + parts[i + 1..]) == PartPrices(parts)[..i] + PartPrices(parts)[i + 1..];
    SumRemove(PartPrices(parts), i);
  }

  /** Replacing a part changes the parts total by the difference of the two
      line totals. */
  lemma ReplacePartTotals(parts: seq<Part>, labour: seq<Labour>, i: nat, p: Part)
    requires i < |parts|
    ensures CalculateTotals(parts[i := p], labour).parts ==
            CalculateTotals(parts, labour).parts - parts[i].totalPrice + p.totalPrice
  {
    assert PartPrices(parts[i := p]) == PartPrices(parts)[i := p.totalPrice];
    SumReplace(PartPrices(parts), i, p.totalPrice);
  }

  /** Adding labour raises the labour total by that line's cost and leaves
      the parts total alone. */
  lemma AddLabourTotals(parts: seq<Part>, labour: seq<Labour>, l: Labour)
    ensures CalculateTotals(parts, labour + [l]).labour == CalculateTotals(parts, labour).labour + l.totalCost
    ensures CalculateTotals(parts, labour + [l]).parts == CalculateTotals(parts, labour).parts
  {
    assert LabourCosts(labour + [l]) == LabourCosts(labour) + [l.totalCost];
    SumAppend(LabourCosts(labour), l.totalCost);
  }

  /** Removing labour lowers the labour total by exactly that line's cost. */
  lemma RemoveLabourTotals(parts: seq<Part>, labour: seq<Labour>, i: nat)
    requires i < |labour|
    ensures CalculateTotals(parts, labour[..i] + labour[i + 1..]).labour ==
            CalculateTotals(parts, labour).labour - labour[i].totalCost
  {
    assert LabourCosts(labour[..i] + labour[i + 1..]) == LabourCosts(labour)[..i] + LabourCosts(labour)[i + 1..];
    SumRemove(LabourCosts(labour), i);
  }

  /** Replacing labour changes the labour total by the difference of the two
      line costs. */
  lemma ReplaceLabourTotals(parts: seq<Part>, labour: seq<Labour>, i: nat, l: Labour)
    requires i < |labour|
    ensures CalculateTotals(parts, labour[i := l]).labour ==
            CalculateTotals(parts, labour).labour - labour[i].totalCost + l.totalCost
  {
    assert LabourCosts(labour[i := l]) == LabourCosts(labour)[i := l.totalCost];
    SumReplace(LabourCosts(labour), i, l.totalCost);
  }

  lemma WholeCentsAdd(x: real, y: real)
    requires WholeCents(x) && WholeCents(y)
    ensures WholeCents(x + y)
  {
    var a, b := (x * 100.0).Floor, (y * 100.0).Floor;
    assert (x + y) * 100.0 == (a + b) as real;
  }

  /** With whole-cent subtotals the grand total is whole cents too. */
  lemma GrandTotalWholeCents(parts: seq<Part>, labour: seq<Labour>)
    requires WholeCents(CalculateTotals(parts, labour).parts)
    requires WholeCents(CalculateTotals(parts, labour).labour)
    ensures WholeCents(CalculateTotals(parts, labour).grand)
  {
    var t := CalculateTotals(parts, labour);
    WholeCentsAdd(t.parts, t.labour);
    WholeCentsAdd(t.parts + t.labour, t.tax);
  }

  /** The totals of the end-to-end figures: parts 450 + 325 + 325 and labour
      212.50 + 127.50 + 285.00 give 1100.00, 625.00, tax 172.50 and grand
      total 1897.50. */
  lemma TestFigureTotals(parts: seq<Part>, labour: seq<Labour>)
    requires PartPrices(parts) == [450.0, 325.0, 325.0]
    requires LabourCosts(labour) == [212.5, 127.5, 285.0]
    ensures CalculateTotals(parts, labour) == Totals(1100.0, 625.0, 172.5, 1897.5)
  {
    assert Sum([450.0, 325.0, 325.0]) == 1100.0 by {
      assert [450.0, 325.0, 325.0][1..] == [325.0, 325.0] && [325.0, 325.0][1..] == [325.0];
    }
    assert Sum([212.5, 127.5, 285.0]) == 625.0 by {
      assert [212.5, 127.5, 285.0][1..] == [127.5, 285.0] && [127.5, 285.0][1..] == [285.0];
    }
    assert WholeCents(172.5);
  }
}
