/** Quotas as the custom resource stores them and as the REST interface shows them, with the two
    conversions between the forms.  Floating point numbers are exact reals. */
module QuotaConversion {
  import opened Wrappers
  import opened Quantities

  type ResourceList = map<string, Quantity>

  datatype AcceleratorQuota = AcceleratorQuota(provider: string, resources: ResourceList)

  /** Absent pointers and nil slices are None; an empty list of accelerators is Some([]). */
  datatype ResourceDetails = ResourceDetails(
    cpu: Option<Quantity>,
    memory: Option<Quantity>,
    storage: Option<Quantity>,
    accelerators: Option<seq<AcceleratorQuota>>)

  datatype ApiAccelerator = ApiAccelerator(provider: string, resources: map<string, Text>)

  /** Memory and storage are numbers of GiB. */
  datatype ApiQuota = ApiQuota(
    cpu: Option<int>,
    memory: Option<real>,
    storage: Option<real>,
    accelerators: Option<seq<ApiAccelerator>>,
    enableAccounting: Option<bool>)

  /** The provider whose list holds a quantity that does not parse. */
  datatype ParseError = ParseError(provider: string)

  const GIB: int := 0x4000_0000

  // ----- rounding -----

  /** math.Round: halves go away from zero. */
  function RoundHalfAway(x: real): int
  {
    if x >= 0.0 then (x + 0.5).Floor else -((-x + 0.5).Floor)
  }

  /** The number of millionths that "%f" prints: the nearest one, halves to the even neighbour. */
  function RoundHalfEven(x: real): int
  {
    var down := x.Floor;
    var rest := x - down as real;
    if rest < 0.5 || (rest == 0.5 && down % 2 == 0) then down else down + 1
  }

  // ----- memory and storage -----

  /** GiB rounded to two decimal places, from the normalised quantity. */
  function InGiB(q: Quantity): real
  {
    var bytes := Value(Normalised(q));
    RoundHalfAway((bytes as real / GIB as real) * 100.0) as real / 100.0
  }

  function AmountToApi(q: Option<Quantity>): Option<real>
  {
    if q.None? || q.value.nano == 0 then None else Some(InGiB(q.value))
  }

  /** Parsing "%fGi".  A millionth of a GiB is a whole number of nano-bytes, so nothing is rounded. */
  function FromGiB(x: real): Quantity
  {
    Quantity(Cap(RoundHalfEven(x * 1_000_000.0) * (GIB * 1000)), BinarySI)
  }

  function AmountToCrd(x: Option<real>): Option<Quantity>
  {
    if x.None? then None else Some(FromGiB(x.value))
  }

  // ----- accelerators -----

  function PrintList(resources: ResourceList): map<string, Text>
  {
    map name | name in resources :: Print(resources[name])
  }

  predicate Parses(texts: map<string, Text>)
  {
    forall name :: name in texts ==> Parse(texts[name]).Some?
  }

  function ParseList(texts: map<string, Text>): ResourceList
    requires Parses(texts)
  {
    map name | name in texts :: Parse(texts[name]).value
  }

  function AcceleratorsToApi(list: seq<AcceleratorQuota>): seq<ApiAccelerator>
  {
    seq(|list|, i requires 0 <= i < |list| => ApiAccelerator(list[i].provider, PrintList(list[i].resources)))
  }

  /** The converted rest of a list, put behind the entries converted before it. */
  function Behind(front: seq<AcceleratorQuota>, rest: Result<seq<AcceleratorQuota>, ParseError>)
    : Result<seq<AcceleratorQuota>, ParseError>
  {
    if rest.Failure? then rest else Success(front + rest.value)
  }

  function AcceleratorsToCrd(list: seq<ApiAccelerator>): Result<seq<AcceleratorQuota>, ParseError>
  {
    if list == [] then Success([])
    else if !Parses(list[0].resources) then Failure(ParseError(list[0].provider))
    else
      Behind([AcceleratorQuota(list[0].provider, ParseList(list[0].resources))], AcceleratorsToCrd(list[1..]))
  }

  lemma BehindOneMore(front: seq<AcceleratorQuota>, next: AcceleratorQuota,
                      rest: Result<seq<AcceleratorQuota>, ParseError>)
    ensures Behind(front, Behind([next], rest)) == Behind(front + [next], rest)
  {
    if rest.Success? {
      assert front + ([next] + rest.value) == (front + [next]) + rest.value;
    }
  }

  // ----- whole quotas -----

  function ToApi(d: ResourceDetails): ApiQuota
  {
    ApiQuota(
      if d.cpu.None? then None else Some(Value(d.cpu.value)),
      AmountToApi(d.memory),
      AmountToApi(d.storage),
      if d.accelerators.None? then None else Some(AcceleratorsToApi(d.accelerators.value)),
      None)
  }

  function CpuToCrd(cpu: Option<int>): Option<Quantity>
  {
    if cpu.None? then None else Some(Quantity(Cap(cpu.value * NANO), DecimalSI))
  }

  function ToCrd(q: ApiQuota): Result<ResourceDetails, ParseError>
  {
    var withoutList := ResourceDetails(CpuToCrd(q.cpu), AmountToCrd(q.memory), AmountToCrd(q.storage), None);
    if q.accelerators.None? then Success(withoutList)
    else
      match AcceleratorsToCrd(q.accelerators.value)
      case Failure(e) => Failure(e)
      case Success(list) => Success(withoutList.(accelerators := Some(list)))
  }

  method ConvertAmountToApi(q: Option<Quantity>) returns (r: Option<real>)
    ensures r == AmountToApi(q)
  {
    r := None;
    if q.Some? && q.value.nano != 0 {
      var changeToBinary := TreatDecimalAsBinary(q.value);
      var amount := Value(changeToBinary) as real / GIB as real;
      amount := RoundHalfAway(amount * 100.0) as real / 100.0;
      r := Some(amount);
    }
  }

  /** The inner loop: map entries come in no particular order. */
  method PrintResources(resources: ResourceList) returns (texts: map<string, Text>)
    ensures texts == PrintList(resources)
  {
    texts := map[];
    var rest := resources.Keys;
    while rest != {}
      invariant rest <= resources.Keys
      invariant texts.Keys == resources.Keys - rest
      invariant forall name :: name in texts ==> texts[name] == Print(resources[name])
      decreases |rest|
    {
      var name :| name in rest;
      texts := texts[name := Print(resources[name])];
      rest := rest - {name};
    }
  }

  method ConvertToAPIQuota(d: ResourceDetails) returns (quota: ApiQuota)
    ensures quota == ToApi(d)
  {
    quota := ApiQuota(None, None, None, None, None);
    if d.cpu.Some? {
      quota := quota.(cpu := Some(Value(d.cpu.value)));
    }
    var memory := ConvertAmountToApi(d.memory);
    var storage := ConvertAmountToApi(d.storage);
    quota := quota.(memory := memory, storage := storage);
    if d.accelerators.Some? {
      var list := d.accelerators.value;
      var accelerators: seq<ApiAccelerator> := [];
      var i := 0;
      while i < |list|
        invariant 0 <= i <= |list|
        invariant accelerators == AcceleratorsToApi(list)[..i]
      {
        var resources := PrintResources(list[i].resources);
        accelerators := accelerators + [ApiAccelerator(list[i].provider, resources)];
        i := i + 1;
      }
      assert accelerators == AcceleratorsToApi(list);
      quota := quota.(accelerators := Some(accelerators));
    }
  }

  method ParseResources(texts: map<string, Text>) returns (r: Option<ResourceList>)
    ensures r == if Parses(texts) then Some(ParseList(texts)) else None
  {
    var resources: ResourceList := map[];
    var rest := texts.Keys;
    while rest != {}
      invariant rest <= texts.Keys
      invariant resources.Keys == texts.Keys - rest
      invariant forall name :: name in resources ==> Parse(texts[name]) == Some(resources[name])
      decreases |rest|
    {
      var name :| name in rest;
      var quantity := Parse(texts[name]);
      if quantity.None? {
        return None;
      }
      resources := resources[name := quantity.value];
      rest := rest - {name};
    }
    assert resources == ParseList(texts);
    return Some(resources);
  }

  method ConvertToCRDQuota(q: ApiQuota) returns (r: Result<ResourceDetails, ParseError>)
    ensures r == ToCrd(q)
  {
    var details := ResourceDetails(None, None, None, None);
    if q.cpu.Some? {
      details := details.(cpu := Some(Quantity(Cap(q.cpu.value * NANO), DecimalSI)));
    }
    if q.memory.Some? {
      details := details.(memory := Some(FromGiB(q.memory.value)));
    }
    if q.storage.Some? {
      details := details.(storage := Some(FromGiB(q.storage.value)));
    }
    if q.accelerators.Some? {
      var list := q.accelerators.value;
      var accelerators: seq<AcceleratorQuota> := [];
      var i := 0;
      assert list[0..] == list;
      assert AcceleratorsToCrd(list).Success? ==> [] + AcceleratorsToCrd(list).value == AcceleratorsToCrd(list).value;
      while i < |list|
        invariant 0 <= i <= |list|
        invariant AcceleratorsToCrd(list) == Behind(accelerators, AcceleratorsToCrd(list[i..]))
      {
        var resources := ParseResources(list[i].resources);
        if resources.None? {
          return Failure(ParseError(list[i].provider));
        }
        assert list[i..][1..] == list[i + 1..];
        BehindOneMore(accelerators, AcceleratorQuota(list[i].provider, resources.value),
                      AcceleratorsToCrd(list[i + 1..]));
        accelerators := accelerators + [AcceleratorQuota(list[i].provider, resources.value)];
        i := i + 1;
      }
      assert list[i..] == [];
      assert accelerators + [] == accelerators;
      details := details.(accelerators := Some(accelerators));
    }
    return Success(details);
  }

  /** The nearest amount that can be stored. */
  function CapReal(nano: real): real
  {
    if nano > MAX_NANO as real then MAX_NANO as real
    else if nano < -MAX_NANO as real then -MAX_NANO as real
    else nano
  }

  lemma CapMovesCloser(a: real, b: real, distance: real)
    requires -distance <= a - b <= distance
    ensures -distance <= CapReal(a) - CapReal(b) <= distance
  {
  }

  /** Writing a number of GiB moves it by at most half a millionth of a GiB, apart from the cap. */
  lemma WrittenGiBIsNear(x: real)
    ensures var exact := CapReal(x * (GIB * NANO) as real);
            -((GIB * 500) as real) <= FromGiB(x).nano as real - exact <= (GIB * 500) as real
  {
    var millionths := RoundHalfEven(x * 1_000_000.0);
    var nano := millionths * (GIB * 1000);
    assert -0.5 <= millionths as real - x * 1_000_000.0 <= 0.5;
    assert nano as real == millionths as real * (GIB * 1000) as real;
    assert FromGiB(x).nano as real == CapReal(nano as real);
    CapMovesCloser(nano as real, x * (GIB * NANO) as real, (GIB * 500) as real);
  }

  // ----- round trip from the interface to the resource and back -----

  /** Hundredths of a GiB nearest to a number of bytes, in integers. */
  function Hundredths(bytes: int): int
  {
    if bytes >= 0 then (200 * bytes + GIB) / (2 * GIB) else -((-200 * bytes + GIB) / (2 * GIB))
  }

  lemma RoundingIsHundredths(bytes: int)
    ensures RoundHalfAway((bytes as real / GIB as real) * 100.0) == Hundredths(bytes)
  {
    var size := if bytes >= 0 then bytes else -bytes;
    var h := (200 * size + GIB) / (2 * GIB);
    var x := (size as real / GIB as real) * 100.0;
    assert (2 * GIB) as real * (x + 0.5) == (200 * size + GIB) as real;
    assert h as real <= x + 0.5 < (h + 1) as real;
    assert (x + 0.5).Floor == h;
    assert bytes < 0 ==> (bytes as real / GIB as real) * 100.0 == -x;
  }

  lemma GiBIsHundredths(q: Quantity)
    ensures InGiB(q) == Hundredths(Value(Normalised(q))) as real / 100.0
  {
    RoundingIsHundredths(Value(Normalised(q)));
  }

  lemma OnlyDecimalIsMoved(q: Quantity)
    requires q.format != DecimalSI
    ensures Normalised(q) == q
  {
    if BinaryExponent(Print(q)) > 0 { DecimalPrint(q); }
  }

  lemma MillionthsOfHundredths(h: int)
    ensures RoundHalfEven(h as real / 100.0 * 1_000_000.0) == 10_000 * h
  {
    assert h as real / 100.0 * 1_000_000.0 == (10_000 * h) as real;
  }

  /** Rounding a number of hundredths up to whole bytes and then to hundredths gives it back. */
  lemma HundredthsSurviveBytes(h: int)
    requires -858_993_459_200 <= h <= 858_993_459_200
    ensures Hundredths(Value(Quantity(Cap(10_000 * h * (GIB * 1000)), BinarySI))) == h
  {
  }

  predicate IsHundredths(x: real) { (x * 100.0).Floor as real == x * 100.0 }

  /** Which amounts of memory and storage the round trip gives back: the whole hundredths of a GiB
      other than zero, up to the int64 number of bytes. */
  predicate SurvivingAmount(x: real)
  {
    IsHundredths(x) && x != 0.0 && -8_589_934_592.0 <= x <= 8_589_934_592.0
  }

  lemma HundredthsOf(x: real) returns (h: int)
    requires SurvivingAmount(x)
    ensures x == h as real / 100.0 && h != 0 && -858_993_459_200 <= h <= 858_993_459_200
  {
    h := (x * 100.0).Floor;
  }

  /** The stored form of h hundredths of a GiB. */
  function StoredHundredths(h: int): Quantity
  {
    Quantity(Cap(10_000 * h * (GIB * 1000)), BinarySI)
  }

  lemma HundredthsAreStored(h: int)
    ensures FromGiB(h as real / 100.0) == StoredHundredths(h)
  {
    MillionthsOfHundredths(h);
  }

  lemma StoredHundredthsAreShown(h: int)
    requires -858_993_459_200 <= h <= 858_993_459_200
    ensures InGiB(StoredHundredths(h)) == h as real / 100.0
  {
    OnlyDecimalIsMoved(StoredHundredths(h));
    GiBIsHundredths(StoredHundredths(h));
    HundredthsSurviveBytes(h);
  }

  lemma StoredNothingIff(h: int)
    ensures StoredHundredths(h).nano == 0 <==> h == 0
  {
  }

  lemma HundredthsSurvive(h: int)
    requires h != 0 && -858_993_459_200 <= h <= 858_993_459_200
    ensures AmountToApi(AmountToCrd(Some(h as real / 100.0))) == Some(h as real / 100.0)
  {
    HundredthsAreStored(h);
    StoredNothingIff(h);
    StoredHundredthsAreShown(h);
  }

  lemma SurvivingAmountsSurvive(x: real)
    requires SurvivingAmount(x)
    ensures AmountToApi(AmountToCrd(Some(x))) == Some(x)
  {
    var h := HundredthsOf(x);
    HundredthsSurvive(h);
  }

  lemma WholeHundredths(h: int)
    requires -858_993_459_200 <= h <= 858_993_459_200
    ensures IsHundredths(h as real / 100.0) && -8_589_934_592.0 <= h as real / 100.0 <= 8_589_934_592.0
  {
    assert (h as real / 100.0) * 100.0 == h as real;
  }

  lemma HundredthsAreBounded(nano: int)
    requires -MAX_NANO <= nano <= MAX_NANO
    ensures -858_993_459_200 <= Hundredths(Value(Quantity(nano, BinarySI))) <= 858_993_459_200
  {
  }

  lemma OnlySurvivingAmountsSurvive(x: real)
    requires AmountToApi(AmountToCrd(Some(x))) == Some(x)
    ensures SurvivingAmount(x)
  {
    var q := FromGiB(x);
    OnlyDecimalIsMoved(q);
    GiBIsHundredths(q);
    HundredthsAreBounded(q.nano);
    WholeHundredths(Hundredths(Value(q)));
    assert RoundHalfEven(0.0) == 0;
  }

  lemma AmountSurvivesIff(x: real)
    ensures AmountToApi(AmountToCrd(Some(x))) == Some(x) <==> SurvivingAmount(x)
  {
    if SurvivingAmount(x) {
      SurvivingAmountsSurvive(x);
    } else if AmountToApi(AmountToCrd(Some(x))) == Some(x) {
      OnlySurvivingAmountsSurvive(x);
    }
  }

  predicate SurvivingList(list: seq<ApiAccelerator>)
  {
    forall i, name :: 0 <= i < |list| && name in list[i].resources ==> Canonical(list[i].resources[name])
  }

  lemma ListSurvives(texts: map<string, Text>)
    ensures (Parses(texts) && PrintList(ParseList(texts)) == texts)
            <==> forall name :: name in texts ==> Canonical(texts[name])
  {
    forall name | name in texts
      ensures (Parse(texts[name]).Some? && Print(Parse(texts[name]).value) == texts[name]) <==> Canonical(texts[name])
    {
      if Parse(texts[name]).Some? { CanonicalTextsAreFixed(texts[name]); }
    }
    if Parses(texts) && PrintList(ParseList(texts)) == texts {
      forall name | name in texts ensures Canonical(texts[name]) {
        assert PrintList(ParseList(texts))[name] == Print(Parse(texts[name]).value);
      }
    }
  }

  lemma ToApiOfCons(head: AcceleratorQuota, tail: seq<AcceleratorQuota>)
    ensures AcceleratorsToApi([head] + tail)
         == [ApiAccelerator(head.provider, PrintList(head.resources))] + AcceleratorsToApi(tail)
  {
  }

  lemma ConsEquality<T>(x: T, xs: seq<T>, y: T, ys: seq<T>)
    ensures [x] + xs == [y] + ys <==> x == y && xs == ys
  {
    if [x] + xs == [y] + ys {
      assert ([x] + xs)[0] == x && ([y] + ys)[0] == y;
      assert ([x] + xs)[1..] == xs && ([y] + ys)[1..] == ys;
    }
  }

  lemma {:induction false} AcceleratorsSurviveIff(list: seq<ApiAccelerator>)
    ensures var crd := AcceleratorsToCrd(list);
            (crd.Success? && AcceleratorsToApi(crd.value) == list) <==> SurvivingList(list)
  {
    if list != [] {
      var first, rest := list[0], list[1..];
      AcceleratorsSurviveIff(rest);
      ListSurvives(first.resources);
      assert list == [first] + rest;
      assert SurvivingList(list) <==>
             SurvivingList(rest) && forall name :: name in first.resources ==> Canonical(first.resources[name]) by {
        if SurvivingList(list) {
          forall i, name | 0 <= i < |rest| && name in rest[i].resources ensures Canonical(rest[i].resources[name]) {
            assert rest[i] == list[i + 1];
          }
        }
      }
      var crd := AcceleratorsToCrd(list);
      if crd.Success? {
        var head := AcceleratorQuota(first.provider, ParseList(first.resources));
        var tail := AcceleratorsToCrd(rest).value;
        ToApiOfCons(head, tail);
        assert AcceleratorsToApi(crd.value)
            == [ApiAccelerator(first.provider, PrintList(head.resources))] + AcceleratorsToApi(tail);
        ConsEquality(ApiAccelerator(first.provider, PrintList(head.resources)), AcceleratorsToApi(tail), first, rest);
      }
    }
  }

  lemma CpuSurvivesIff(cpu: int)
    ensures Value(CpuToCrd(Some(cpu)).value) == cpu <==> -MAX_INT64 <= cpu <= MAX_INT64
  {
  }

  /** Exactly the quotas that come back unchanged from interface to resource to interface: nothing
      is asked about accounting, the CPU count is representable, memory and storage are whole
      hundredths other than zero, and every accelerator quantity is written in canonical form.
      Absent and empty accelerator lists stay apart, and the order of the entries is kept. */
  lemma ApiRoundTripIff(q: ApiQuota)
    ensures (ToCrd(q).Success? && ToApi(ToCrd(q).value) == q)
            <==> && q.enableAccounting.None?
                 && (q.cpu.Some? ==> -MAX_INT64 <= q.cpu.value <= MAX_INT64)
                 && (q.memory.Some? ==> SurvivingAmount(q.memory.value))
                 && (q.storage.Some? ==> SurvivingAmount(q.storage.value))
                 && (q.accelerators.Some? ==> SurvivingList(q.accelerators.value))
  {
    if q.memory.Some? { AmountSurvivesIff(q.memory.value); }
    if q.storage.Some? { AmountSurvivesIff(q.storage.value); }
    if q.accelerators.Some? { AcceleratorsSurviveIff(q.accelerators.value); }
    if q.cpu.Some? { CpuSurvivesIff(q.cpu.value); }
  }

  lemma {:induction false} ConvertsIff(list: seq<ApiAccelerator>)
    ensures AcceleratorsToCrd(list).Success? <==> forall i :: 0 <= i < |list| ==> Parses(list[i].resources)
    ensures AcceleratorsToCrd(list).Success? ==> |AcceleratorsToCrd(list).value| == |list|
  {
    if list != [] {
      ConvertsIff(list[1..]);
      assert forall i :: 0 <= i < |list[1..]| ==> list[1..][i] == list[i + 1];
      assert (forall i :: 0 <= i < |list| ==> Parses(list[i].resources))
             <==> Parses(list[0].resources) && forall i :: 0 <= i < |list[1..]| ==> Parses(list[1..][i].resources) by {
        assert forall i :: 1 <= i < |list| ==> list[i] == list[1..][i - 1];
      }
    }
  }

  // ----- what the converted quotas say, field by field -----

  /** Whole units, fractions rounded away from zero. */
  predicate RoundedAway(units: int, nano: int)
  {
    if nano >= 0 then 0 <= units * NANO - nano < NANO else 0 <= nano - units * NANO < NANO
  }

  /** Nothing for no amount, else the nearest hundredth of a GiB to the normalised whole bytes, halves
      going away from zero. */
  predicate NearestHundredth(x: Option<real>, q: Option<Quantity>)
  {
    && (x.None? <==> q.None? || q.value.nano == 0)
    && (x.Some? ==>
          var bytes := Value(Normalised(q.value));
          var h := (x.value * 100.0).Floor;
          && x.value * 100.0 == h as real
          && if bytes >= 0 then -GIB < 2 * GIB * h - 200 * bytes <= GIB
             else -GIB <= 2 * GIB * h - 200 * bytes < GIB)
  }

  /** The same providers in the same order, and the text of every quantity under its name. */
  predicate TextsOf(shown: seq<ApiAccelerator>, list: seq<AcceleratorQuota>)
  {
    && |shown| == |list|
    && forall i :: 0 <= i < |list| ==>
         && shown[i].provider == list[i].provider
         && shown[i].resources.Keys == list[i].resources.Keys
         && forall name :: name in list[i].resources ==> shown[i].resources[name] == Print(list[i].resources[name])
  }

  lemma HundredthsRound(bytes: int)
    ensures var h := Hundredths(bytes);
            if bytes >= 0 then -GIB < 2 * GIB * h - 200 * bytes <= GIB
            else -GIB <= 2 * GIB * h - 200 * bytes < GIB
  {
  }

  lemma NearestIsShown(q: Option<Quantity>)
    ensures NearestHundredth(AmountToApi(q), q)
  {
    if q.Some? && q.value.nano != 0 {
      var bytes := Value(Normalised(q.value));
      GiBIsHundredths(q.value);
      assert (Hundredths(bytes) as real / 100.0) * 100.0 == Hundredths(bytes) as real;
      HundredthsRound(bytes);
    }
  }

  /** Every field of the interface shows its own field of the resource. */
  lemma ShownFields(d: ResourceDetails)
    ensures var q := ToApi(d);
            && (q.cpu.None? <==> d.cpu.None?)
            && (d.cpu.Some? ==> RoundedAway(q.cpu.value, d.cpu.value.nano))
            && NearestHundredth(q.memory, d.memory)
            && NearestHundredth(q.storage, d.storage)
            && (q.accelerators.None? <==> d.accelerators.None?)
            && (d.accelerators.Some? ==> TextsOf(q.accelerators.value, d.accelerators.value))
            && q.enableAccounting.None?
  {
    NearestIsShown(d.memory);
    NearestIsShown(d.storage);
  }

  /** The number of GiB to within half a millionth, apart from the cap, as a binary quantity. */
  predicate WrittenFrom(q: Option<Quantity>, x: Option<real>)
  {
    && (q.None? <==> x.None?)
    && (x.Some? ==>
          && -((GIB * 500) as real) <= q.value.nano as real - CapReal(x.value * (GIB * NANO) as real)
                                    <= (GIB * 500) as real
          && q.value.format == BinarySI)
  }

  /** The same providers in the same order, and under every name the quantity that its text says. */
  predicate ParsedFrom(list: seq<AcceleratorQuota>, sent: seq<ApiAccelerator>)
  {
    && |list| == |sent|
    && forall i :: 0 <= i < |sent| ==>
         && list[i].provider == sent[i].provider
         && list[i].resources.Keys == sent[i].resources.Keys
         && forall name :: name in sent[i].resources ==>
              Parse(sent[i].resources[name]) == Some(list[i].resources[name])
  }

  /** The first entry of a list that holds a quantity that does not parse. */
  predicate FirstBad(sent: seq<ApiAccelerator>, i: int)
  {
    0 <= i < |sent| && !Parses(sent[i].resources) && forall j :: 0 <= j < i ==> Parses(sent[j].resources)
  }

  lemma {:induction false} SomeIsFirstBad(sent: seq<ApiAccelerator>) returns (i: int)
    requires exists j :: 0 <= j < |sent| && !Parses(sent[j].resources)
    ensures FirstBad(sent, i)
  {
    i := 0;
    while Parses(sent[i].resources)
      invariant 0 <= i < |sent|
      invariant forall j :: 0 <= j < i ==> Parses(sent[j].resources)
      decreases |sent| - i
    {
      i := i + 1;
    }
  }

  lemma {:induction false} FirstBadIsReported(sent: seq<ApiAccelerator>, i: int)
    requires FirstBad(sent, i)
    ensures AcceleratorsToCrd(sent) == Failure(ParseError(sent[i].provider))
  {
    if i > 0 {
      assert forall j :: 0 <= j < |sent[1..]| ==> sent[1..][j] == sent[j + 1];
      FirstBadIsReported(sent[1..], i - 1);
    }
  }

  /** The conversion succeeds exactly when every quantity parses, and otherwise names the provider of the
      first entry that holds one that does not. */
  lemma ConversionFailsIff(q: ApiQuota)
    ensures ToCrd(q).Success? <==> forall i :: !FirstBad(OrEmpty(q.accelerators), i)
    ensures forall i :: FirstBad(OrEmpty(q.accelerators), i) ==>
              ToCrd(q) == Failure(ParseError(OrEmpty(q.accelerators)[i].provider))
  {
    var sent := OrEmpty(q.accelerators);
    ConvertsIff(sent);
    assert ToCrd(q).Success? <==> AcceleratorsToCrd(sent).Success?;
    forall i | FirstBad(sent, i) ensures ToCrd(q) == Failure(ParseError(sent[i].provider)) {
      FirstBadIsReported(sent, i);
    }
    if !AcceleratorsToCrd(sent).Success? { var i := SomeIsFirstBad(sent); }
  }

  lemma AmountIsWritten(x: Option<real>)
    ensures WrittenFrom(AmountToCrd(x), x)
  {
    if x.Some? { WrittenGiBIsNear(x.value); }
  }

  lemma EntriesAreParsed(list: seq<AcceleratorQuota>, sent: seq<ApiAccelerator>)
    requires |list| == |sent| && forall i :: 0 <= i < |sent| ==> ParsedFrom([list[i]], [sent[i]])
    ensures ParsedFrom(list, sent)
  {
    forall i | 0 <= i < |sent|
      ensures list[i].provider == sent[i].provider && list[i].resources.Keys == sent[i].resources.Keys
      ensures forall name :: name in sent[i].resources ==>
                Parse(sent[i].resources[name]) == Some(list[i].resources[name])
    {
      assert ParsedFrom([list[i]], [sent[i]]);
      assert [list[i]][0] == list[i] && [sent[i]][0] == sent[i];
    }
  }

  lemma {:induction false} ListIsParsed(sent: seq<ApiAccelerator>)
    requires AcceleratorsToCrd(sent).Success?
    ensures ParsedFrom(AcceleratorsToCrd(sent).value, sent)
  {
    if sent != [] {
      var first := AcceleratorQuota(sent[0].provider, ParseList(sent[0].resources));
      var rest := AcceleratorsToCrd(sent[1..]).value;
      ListIsParsed(sent[1..]);
      assert AcceleratorsToCrd(sent).value == [first] + rest;
      forall i | 0 <= i < |sent|
        ensures ParsedFrom([AcceleratorsToCrd(sent).value[i]], [sent[i]])
      {
        if i > 0 {
          assert sent[i] == sent[1..][i - 1] && AcceleratorsToCrd(sent).value[i] == rest[i - 1];
        }
      }
      EntriesAreParsed(AcceleratorsToCrd(sent).value, sent);
    }
  }

  /** Every field of the resource is written from its own field of the interface. */
  lemma WrittenFields(q: ApiQuota)
    requires ToCrd(q).Success?
    ensures var d := ToCrd(q).value;
            && (d.cpu.None? <==> q.cpu.None?)
            && (q.cpu.Some? ==> d.cpu.value == Quantity(Cap(q.cpu.value * NANO), DecimalSI))
            && WrittenFrom(d.memory, q.memory)
            && WrittenFrom(d.storage, q.storage)
            && (d.accelerators.None? <==> q.accelerators.None?)
            && (q.accelerators.Some? ==> ParsedFrom(d.accelerators.value, q.accelerators.value))
  {
    AmountIsWritten(q.memory);
    AmountIsWritten(q.storage);
    if q.accelerators.Some? { ListIsParsed(q.accelerators.value); }
  }

  // ----- round trip from the resource to the interface and back -----

  function AmountTrip(q: Option<Quantity>): Option<Quantity>
  {
    AmountToCrd(AmountToApi(q))
  }

  lemma HundredthsAreNear(bytes: int)
    requires Abs(bytes) <= MAX_INT64
    ensures 200 * Abs(Cap(10_000 * Hundredths(bytes) * (GIB * 1000)) - bytes * NANO) <= GIB * NANO
  {
  }

  /** The stored amount moves by at most half a hundredth of a GiB. */
  lemma TripMovesHalfAHundredthAtMost(q: Quantity)
    requires q.nano != 0 && Abs(Value(Normalised(q))) <= MAX_INT64
    ensures AmountTrip(Some(q)).Some?
    ensures 200 * Abs(AmountTrip(Some(q)).value.nano - Value(Normalised(q)) * NANO) <= GIB * NANO
  {
    var bytes := Value(Normalised(q));
    GiBIsHundredths(q);
    MillionthsOfHundredths(Hundredths(bytes));
    HundredthsAreNear(bytes);
  }

  /** The first trip stores the nearest number of hundredths. */
  lemma FirstTrip(q: Quantity)
    requires q.nano != 0
    ensures AmountTrip(Some(q)) == Some(StoredHundredths(Hundredths(Value(Normalised(q)))))
  {
    GiBIsHundredths(q);
    HundredthsAreStored(Hundredths(Value(Normalised(q))));
  }

  lemma ZeroHundredthsIff(bytes: int)
    requires Abs(bytes) <= MAX_INT64
    ensures Hundredths(bytes) == 0 <==> 200 * Abs(bytes) < GIB
    ensures -858_993_459_200 <= Hundredths(bytes) <= 858_993_459_200
  {
  }

  lemma SecondTrip(h: int)
    requires -858_993_459_200 <= h <= 858_993_459_200
    ensures AmountTrip(Some(StoredHundredths(h))) == Some(StoredHundredths(h)) <==> h != 0
  {
    StoredNothingIff(h);
    StoredHundredthsAreShown(h);
    HundredthsAreStored(h);
  }

  /** A second trip leaves the amount alone if and only if the first one did not round it to zero;
      an amount below half a hundredth of a GiB becomes 0 and then disappears. */
  lemma TripSettlesIff(q: Quantity)
    requires q.nano != 0 && Abs(Value(Normalised(q))) <= MAX_INT64
    ensures AmountTrip(AmountTrip(Some(q))) == AmountTrip(Some(q))
            <==> 200 * Abs(Value(Normalised(q))) >= GIB
  {
    var bytes := Value(Normalised(q));
    FirstTrip(q);
    ZeroHundredthsIff(bytes);
    SecondTrip(Hundredths(bytes));
  }
}
