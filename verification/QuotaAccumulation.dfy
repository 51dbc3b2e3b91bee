/** The accumulated quota of several projects, and how far it depends on the order of the list. */
module QuotaAccumulation {
  import opened Wrappers
  import opened Quantities
  import opened SortedNames
  import opened QuotaConversion
  import opened Accelerators
  import opened QuotaCalculation

  /** One quota object: the configured limits and the current usage. */
  datatype QuotaItem = QuotaItem(limits: ResourceDetails, usage: ResourceDetails)

  datatype Resource = CpuResource | MemoryResource | StorageResource

  // ----- columns and their sums -----

  /** What one quota adds to the sum of a resource: memory and storage are normalised first. */
  function Cell(d: ResourceDetails, r: Resource): Option<Quantity>
  {
    match r
    case CpuResource => d.cpu
    case MemoryResource => NormalisedOption(d.memory)
    case StorageResource => NormalisedOption(d.storage)
  }

  function Single(q: Option<Quantity>): seq<Quantity>
  {
    if q.None? then [] else [q.value]
  }

  function Column(list: seq<ResourceDetails>, r: Resource): seq<Quantity>
  {
    if list == [] then [] else Column(list[..|list| - 1], r) + Single(Cell(list[|list| - 1], r))
  }

  function Sum(column: seq<Quantity>): Quantity
  {
    if column == [] then ZERO else Plus(Sum(column[..|column| - 1]), column[|column| - 1])
  }

  function Total(list: seq<ResourceDetails>, r: Resource): Quantity
  {
    Sum(Column(list, r))
  }

  function AllAccelerators(list: seq<ResourceDetails>): seq<AcceleratorQuota>
  {
    if list == [] then [] else AllAccelerators(list[..|list| - 1]) + OrEmpty(list[|list| - 1].accelerators)
  }

  function AcceleratorSums(list: seq<ResourceDetails>): Totals
  {
    AddAll(map[], AllAccelerators(list))
  }

  function RunningSums(list: seq<ResourceDetails>): ResourceDetails
  {
    ResourceDetails(Some(Total(list, CpuResource)), Some(Total(list, MemoryResource)),
                    Some(Total(list, StorageResource)), None)
  }

  ghost function Accumulated(list: seq<ResourceDetails>): ResourceDetails
  {
    RunningSums(list).(accelerators := LaidOut(AcceleratorSums(list)))
  }

  /** The limits of the first n quotas. */
  function LimitsUpTo(items: seq<QuotaItem>, n: nat): (list: seq<ResourceDetails>)
    requires n <= |items|
    ensures |list| == n && forall i :: 0 <= i < n ==> list[i] == items[i].limits
  {
    if n == 0 then [] else LimitsUpTo(items, n - 1) + [items[n - 1].limits]
  }

  /** The usages of the first n quotas. */
  function UsagesUpTo(items: seq<QuotaItem>, n: nat): (list: seq<ResourceDetails>)
    requires n <= |items|
    ensures |list| == n && forall i :: 0 <= i < n ==> list[i] == items[i].usage
  {
    if n == 0 then [] else UsagesUpTo(items, n - 1) + [items[n - 1].usage]
  }

  function Limits(items: seq<QuotaItem>): seq<ResourceDetails> { LimitsUpTo(items, |items|) }

  function Usages(items: seq<QuotaItem>): seq<ResourceDetails> { UsagesUpTo(items, |items|) }

  // ----- the loop -----

  lemma TotalOneMore(list: seq<ResourceDetails>, d: ResourceDetails, r: Resource)
    ensures Some(Total(list + [d], r)) == More(Some(Total(list, r)), Cell(d, r))
  {
    assert (list + [d])[..|list|] == list;
    var column := Column(list + [d], r);
    if Cell(d, r).Some? {
      assert column[..|column| - 1] == Column(list, r);
    } else {
      assert column == Column(list, r);
    }
  }

  lemma AcceleratorsOneMore(list: seq<ResourceDetails>, d: ResourceDetails)
    ensures AcceleratorSums(list + [d]) == AddAll(AcceleratorSums(list), OrEmpty(d.accelerators))
  {
    assert (list + [d])[..|list|] == list;
    AddAllAppends(map[], AllAccelerators(list), OrEmpty(d.accelerators));
  }

  /** Adds the three plain resources of one quota to the running sums. */
  method AddDetails(sums: ResourceDetails, d: ResourceDetails, ghost list: seq<ResourceDetails>)
    returns (r: ResourceDetails)
    requires sums == RunningSums(list)
    ensures r == RunningSums(list + [d])
  {
    r := AddUsage(sums, d);
    TotalOneMore(list, d, CpuResource);
    TotalOneMore(list, d, MemoryResource);
    TotalOneMore(list, d, StorageResource);
  }

  /** A quota object as the store returns it, with its resource lists by reference. */
  datatype QuotaRef = QuotaRef(limits: Details, usage: Details)

  function Read(item: QuotaRef): QuotaItem
    reads MapsOf(item.limits), MapsOf(item.usage)
  {
    QuotaItem(Values(item.limits), Values(item.usage))
  }

  twostate lemma ReadStays(item: QuotaRef)
    requires forall m :: m in MapsOf(item.limits) || m in MapsOf(item.usage) ==> m.entries == old(m.entries)
    ensures Read(item) == old(Read(item))
  {
    ValuesStay(item.limits);
    ValuesStay(item.usage);
  }

  /** Plain sums and accelerator totals of a list of details. */
  ghost predicate Running(sums: ResourceDetails, totals: AcceleratorTotals, list: seq<ResourceDetails>)
    reads totals, totals.Own()
  {
    totals.Valid() && sums == RunningSums(list) && totals.Sums() == AcceleratorSums(list)
  }

  /** Adds the accelerators of one quota to the totals. */
  method AddAccelerators(totals: AcceleratorTotals, d: Details, ghost list: seq<ResourceDetails>)
    requires totals.Valid() && totals.Own() !! MapsOf(d)
    requires totals.Sums() == AcceleratorSums(list)
    modifies totals, totals.Own()
    ensures totals.Valid() && fresh(totals.Own() - old(totals.Own()))
    ensures totals.Sums() == AcceleratorSums(list + [old(Values(d))])
  {
    AcceleratorsOneMore(list, Values(d));
    totals.Add(OrEmpty(d.accelerators));
  }

  method AddItem(sums: ResourceDetails, totals: AcceleratorTotals, d: Details, ghost list: seq<ResourceDetails>)
    returns (r: ResourceDetails)
    requires Running(sums, totals, list) && totals.Own() !! MapsOf(d)
    modifies totals, totals.Own()
    ensures fresh(totals.Own() - old(totals.Own()))
    ensures Running(r, totals, list + [old(Values(d))])
  {
    var v := Values(d);
    r := AddDetails(sums, v, list);
    assert Values(d) == v;
    AddAccelerators(totals, d, list);
  }

  /** Totals that share no resource list with each other. */
  ghost predicate Apart(available: AcceleratorTotals, used: AcceleratorTotals)
    reads available, used
  {
    available != used && available.Own() !! used.Own()
  }

  /** The loop body: the limits go to one side, the usage to the other. */
  method AddBoth(rdAvailable: ResourceDetails, available: AcceleratorTotals, rdUsed: ResourceDetails,
                 used: AcceleratorTotals, item: QuotaRef, ghost said: QuotaItem,
                 ghost limits: seq<ResourceDetails>, ghost usages: seq<ResourceDetails>)
    returns (moreAvailable: ResourceDetails, moreUsed: ResourceDetails)
    requires Apart(available, used) && Read(item) == said
    requires Running(rdAvailable, available, limits) && Running(rdUsed, used, usages)
    requires forall m :: m in MapsOf(item.limits) || m in MapsOf(item.usage) ==>
               m !in available.Own() && m !in used.Own()
    modifies available, available.Own(), used, used.Own()
    ensures Apart(available, used)
    ensures fresh(available.Own() - old(available.Own())) && fresh(used.Own() - old(used.Own()))
    ensures Running(moreAvailable, available, limits + [said.limits])
    ensures Running(moreUsed, used, usages + [said.usage])
  {
    moreAvailable := AddItem(rdAvailable, available, item.limits, limits);
    assert Apart(available, used) && Running(rdUsed, used, usages);
    assert Values(item.usage) == said.usage by { ValuesStay(item.usage); }
    moreUsed := AddItem(rdUsed, used, item.usage, usages);
  }

  /** The accumulated details, with the sorted layout of the totals. */
  method WithTotals(sums: ResourceDetails, totals: AcceleratorTotals, ghost list: seq<ResourceDetails>)
    returns (r: ResourceDetails)
    requires Running(sums, totals, list)
    ensures r == Accumulated(list)
  {
    var accelerators := totals.ToQuotas();
    r := sums.(accelerators := OptionalContents(accelerators));
  }

  /** The accumulated details in the form of the interface. */
  method ShowTotals(sums: ResourceDetails, totals: AcceleratorTotals, ghost list: seq<ResourceDetails>)
    returns (r: ApiQuota)
    requires Running(sums, totals, list)
    ensures r == ToApi(Accumulated(list))
  {
    var details := WithTotals(sums, totals, list);
    r := ConvertToAPIQuota(details);
  }

  function AllMaps(items: seq<QuotaRef>): set<ResourceMap>
  {
    if items == [] then {} else MapsOf(items[0].limits) + MapsOf(items[0].usage) + AllMaps(items[1..])
  }

  lemma {:induction false} AllMapsCover(items: seq<QuotaRef>, i: nat)
    requires i < |items|
    ensures MapsOf(items[i].limits) <= AllMaps(items) && MapsOf(items[i].usage) <= AllMaps(items)
  {
    if i > 0 { AllMapsCover(items[1..], i - 1); }
  }

  /** The loop over the quotas. */
  method SumQuotas(items: seq<QuotaRef>, ghost said: seq<QuotaItem>, ghost given: set<ResourceMap>)
    returns (rdAvailable: ResourceDetails, available: AcceleratorTotals, rdUsed: ResourceDetails,
             used: AcceleratorTotals)
    requires |said| == |items| && forall i :: 0 <= i < |items| ==> Read(items[i]) == said[i]
    requires forall i :: 0 <= i < |items| ==> MapsOf(items[i].limits) <= given && MapsOf(items[i].usage) <= given
    ensures Running(rdAvailable, available, Limits(said))
    ensures Running(rdUsed, used, Usages(said))
    ensures Apart(available, used) && fresh(available.Own()) && fresh(used.Own())
  {
    rdAvailable := ResourceDetails(Some(ZERO), Some(ZERO), Some(ZERO), None);
    rdUsed := rdAvailable;
    available := new AcceleratorTotals();
    used := new AcceleratorTotals();
    var i := 0;
    while i < |items|
      invariant 0 <= i <= |items|
      invariant Apart(available, used) && fresh(available) && fresh(used)
      invariant fresh(available.Own()) && fresh(used.Own())
      invariant Running(rdAvailable, available, LimitsUpTo(said, i)) && Running(rdUsed, used, UsagesUpTo(said, i))
    {
      assert Read(items[i]) == said[i] by { ReadStays(items[i]); }
      rdAvailable, rdUsed := AddBoth(rdAvailable, available, rdUsed, used, items[i], said[i],
                                     LimitsUpTo(said, i), UsagesUpTo(said, i));
      i := i + 1;
    }
  }

  /** The quotas are only read, and say what `said` holds; every total is made here. */
  method AccumulateQuotas(items: seq<QuotaRef>, ghost said: seq<QuotaItem>)
    returns (quota: ApiQuota, usage: ApiQuota)
    requires |said| == |items| && forall i :: 0 <= i < |items| ==> Read(items[i]) == said[i]
    ensures quota == ToApi(Accumulated(Limits(said)))
    ensures usage == ToApi(Accumulated(Usages(said)))
  {
    forall i | 0 <= i < |items|
      ensures MapsOf(items[i].limits) <= AllMaps(items) && MapsOf(items[i].usage) <= AllMaps(items)
    {
      AllMapsCover(items, i);
    }
    var rdAvailable, available, rdUsed, used := SumQuotas(items, said, AllMaps(items));
    quota := ShowTotals(rdAvailable, available, Limits(said));
    assert Running(rdUsed, used, Usages(said));
    usage := ShowTotals(rdUsed, used, Usages(said));
  }

  // ----- concatenation -----

  lemma {:induction false} SumAppends(a: seq<Quantity>, b: seq<Quantity>)
    ensures Sum(a + b).nano == Sum(a).nano + Sum(b).nano
  {
    if b == [] {
      assert a + b == a;
    } else {
      assert (a + b)[..|a + b| - 1] == a + b[..|b| - 1];
      SumAppends(a, b[..|b| - 1]);
    }
  }

  lemma {:induction false} ColumnAppends(a: seq<ResourceDetails>, b: seq<ResourceDetails>, r: Resource)
    ensures Column(a + b, r) == Column(a, r) + Column(b, r)
  {
    if b == [] {
      assert a + b == a;
    } else {
      assert (a + b)[..|a + b| - 1] == a + b[..|b| - 1];
      ColumnAppends(a, b[..|b| - 1], r);
    }
  }

  lemma {:induction false} AllAcceleratorsAppend(a: seq<ResourceDetails>, b: seq<ResourceDetails>)
    ensures AllAccelerators(a + b) == AllAccelerators(a) + AllAccelerators(b)
  {
    if b == [] {
      assert a + b == a;
    } else {
      assert (a + b)[..|a + b| - 1] == a + b[..|b| - 1];
      AllAcceleratorsAppend(a, b[..|b| - 1]);
    }
  }

  /** Accumulating a concatenation adds the accumulated amounts of the parts. */
  lemma AccumulationIsAdditive(a: seq<ResourceDetails>, b: seq<ResourceDetails>, r: Resource, provider: string,
                               name: string)
    ensures Total(a + b, r).nano == Total(a, r).nano + Total(b, r).nano
    ensures Amount(AcceleratorSums(a + b), provider, name)
         == Amount(AcceleratorSums(a), provider, name) + Amount(AcceleratorSums(b), provider, name)
  {
    ColumnAppends(a, b, r);
    SumAppends(Column(a, r), Column(b, r));
    AllAcceleratorsAppend(a, b);
    DemandAppends(AllAccelerators(a), AllAccelerators(b), provider, name);
    AddedAmounts(map[], AllAccelerators(a + b), provider, name);
    AddedAmounts(map[], AllAccelerators(a), provider, name);
    AddedAmounts(map[], AllAccelerators(b), provider, name);
  }

  // ----- what the answer holds, field by field -----

  function CpuSum(list: seq<ResourceDetails>): int
  {
    if list == [] then 0 else Nano(list[0].cpu) + CpuSum(list[1..])
  }

  function MemorySum(list: seq<ResourceDetails>): int
  {
    if list == [] then 0 else Nano(NormalisedOption(list[0].memory)) + MemorySum(list[1..])
  }

  function StorageSum(list: seq<ResourceDetails>): int
  {
    if list == [] then 0 else Nano(NormalisedOption(list[0].storage)) + StorageSum(list[1..])
  }

  function AcceleratorSum(list: seq<ResourceDetails>, provider: string, name: string): int
  {
    if list == [] then 0
    else Demand(OrEmpty(list[0].accelerators), provider, name) + AcceleratorSum(list[1..], provider, name)
  }

  lemma AmountAppends(a: seq<ResourceDetails>, b: seq<ResourceDetails>, r: Resource)
    ensures Total(a + b, r).nano == Total(a, r).nano + Total(b, r).nano
  {
    ColumnAppends(a, b, r);
    SumAppends(Column(a, r), Column(b, r));
  }

  lemma TotalOfHead(a: seq<ResourceDetails>, r: Resource)
    requires a != []
    ensures Total(a, r).nano == Total([a[0]], r).nano + Total(a[1..], r).nano
  {
    assert a == [a[0]] + a[1..];
    AmountAppends([a[0]], a[1..], r);
  }

  lemma {:induction false} TotalsAreSums(list: seq<ResourceDetails>)
    ensures Total(list, CpuResource).nano == CpuSum(list)
    ensures Total(list, MemoryResource).nano == MemorySum(list)
    ensures Total(list, StorageResource).nano == StorageSum(list)
  {
    if list != [] {
      TotalsAreSums(list[1..]);
      forall r ensures Total(list, r).nano == Nano(Cell(list[0], r)) + Total(list[1..], r).nano {
        TotalOfHead(list, r);
        TotalOneMore([], list[0], r);
        assert [] + [list[0]] == [list[0]];
      }
    }
  }

  lemma AllAcceleratorsOfOne(d: ResourceDetails)
    ensures AllAccelerators([d]) == OrEmpty(d.accelerators)
  {
    assert [d][..0] == [];
    assert AllAccelerators([]) + OrEmpty(d.accelerators) == OrEmpty(d.accelerators);
  }

  lemma {:induction false} AcceleratorsAreSums(list: seq<ResourceDetails>, provider: string, name: string)
    ensures Demand(AllAccelerators(list), provider, name) == AcceleratorSum(list, provider, name)
  {
    if list != [] {
      AcceleratorsAreSums(list[1..], provider, name);
      assert list == [list[0]] + list[1..];
      AllAcceleratorsAppend([list[0]], list[1..]);
      AllAcceleratorsOfOne(list[0]);
      DemandAppends(OrEmpty(list[0].accelerators), AllAccelerators(list[1..]), provider, name);
    }
  }

  /** Nothing is laid out when no quota of the list has an entry. */
  lemma {:induction false} NoTotalsIff(list: seq<ResourceDetails>)
    ensures AcceleratorSums(list) == map[] <==> AllAccelerators(list) == []
    ensures AllAccelerators(list) == [] <==> forall i :: 0 <= i < |list| ==> OrEmpty(list[i].accelerators) == []
  {
    AddedProviders(map[], AllAccelerators(list));
    NonEmptyHasNames(Providers(AllAccelerators(list)));
    assert AcceleratorSums(list) == map[] <==> AcceleratorSums(list).Keys == {};
    if list != [] {
      NoTotalsIff(list[..|list| - 1]);
      assert forall i :: 0 <= i < |list| - 1 ==> list[..|list| - 1][i] == list[i];
    }
  }

  /** The accumulated details hold in every field the sum of that field over the list. */
  lemma AccumulatedFields(list: seq<ResourceDetails>, provider: string, name: string)
    ensures var d := Accumulated(list);
            && d.cpu.Some? && d.cpu.value.nano == CpuSum(list)
            && d.memory.Some? && d.memory.value.nano == MemorySum(list)
            && d.storage.Some? && d.storage.value.nano == StorageSum(list)
            && Amount(Index(OrEmpty(d.accelerators)), provider, name) == AcceleratorSum(list, provider, name)
            && (d.accelerators.None? <==> forall i :: 0 <= i < |list| ==> OrEmpty(list[i].accelerators) == [])
  {
    TotalsAreSums(list);
    AcceleratorsAreSums(list, provider, name);
    AddedAmounts(map[], AllAccelerators(list), provider, name);
    IndexOfLaidOut(AcceleratorSums(list));
    NoTotalsIff(list);
  }

  /** What the interface shows for the accumulated resource. */
  function Shown(list: seq<ResourceDetails>, r: Resource): Option<real>
  {
    AmountToApi(Some(Total(list, r)))
  }

  /** What the accumulated answer shows: the whole CPUs of the CPU sum, and memory and storage as the laws
      on their order speak about. */
  lemma AccumulatedAnswer(list: seq<ResourceDetails>)
    ensures var api := ToApi(Accumulated(list));
            && api.cpu.Some? && RoundedAway(api.cpu.value, CpuSum(list))
            && api.memory == Shown(list, MemoryResource)
            && api.storage == Shown(list, StorageResource)
            && NearestHundredth(api.memory, Some(Total(list, MemoryResource)))
            && NearestHundredth(api.storage, Some(Total(list, StorageResource)))
            && Total(list, MemoryResource).nano == MemorySum(list)
            && Total(list, StorageResource).nano == StorageSum(list)
  {
    TotalsAreSums(list);
    ShownFields(Accumulated(list));
  }

  // ----- order: amounts -----

  lemma TotalOfMember(a: seq<ResourceDetails>, i: nat, r: Resource)
    requires i < |a|
    ensures Total(a, r).nano == Total([a[i]], r).nano + Total(a[..i] + a[i + 1..], r).nano
  {
    assert a == a[..i] + ([a[i]] + a[i + 1..]);
    AmountAppends(a[..i], [a[i]] + a[i + 1..], r);
    AmountAppends([a[i]], a[i + 1..], r);
    AmountAppends(a[..i], a[i + 1..], r);
  }

  lemma {:induction false} TotalIgnoresOrder(a: seq<ResourceDetails>, b: seq<ResourceDetails>, r: Resource)
    requires multiset(a) == multiset(b)
    ensures Total(a, r).nano == Total(b, r).nano
    decreases |a|
  {
    if a == [] {
      assert |multiset(b)| == 0;
    } else {
      var i := IndexOf(a, b);
      TotalOfHead(a, r);
      TotalOfMember(b, i, r);
      TotalIgnoresOrder(a[1..], b[..i] + b[i + 1..], r);
    }
  }

  lemma {:induction false} AllAcceleratorsPermute(a: seq<ResourceDetails>, b: seq<ResourceDetails>)
    requires multiset(a) == multiset(b)
    ensures multiset(AllAccelerators(a)) == multiset(AllAccelerators(b))
    decreases |a|
  {
    if a == [] {
      assert |multiset(b)| == 0;
    } else {
      var i := IndexOf(a, b);
      AllAcceleratorsPermute(a[1..], b[..i] + b[i + 1..]);
      assert a == [a[0]] + a[1..];
      assert b == b[..i] + ([b[i]] + b[i + 1..]);
      AllAcceleratorsAppend([a[0]], a[1..]);
      AllAcceleratorsAppend(b[..i], [b[i]] + b[i + 1..]);
      AllAcceleratorsAppend([b[i]], b[i + 1..]);
      AllAcceleratorsAppend(b[..i], b[i + 1..]);
    }
  }

  lemma SameValue(q: Quantity, p: Quantity)
    requires q.nano == p.nano
    ensures Value(q) == Value(p)
  {
  }

  lemma AcceleratorSumsIgnoreOrder(a: seq<ResourceDetails>, b: seq<ResourceDetails>)
    requires multiset(a) == multiset(b)
    ensures SameAmounts(AcceleratorSums(a), AcceleratorSums(b))
  {
    AllAcceleratorsPermute(a, b);
    SumsIgnoreOrder(map[], AllAccelerators(a), AllAccelerators(b));
  }

  lemma SameLayoutProviders(t: Totals, u: Totals)
    requires t.Keys == u.Keys
    ensures (t == map[] <==> u == map[]) && Providers(Layout(t)) == Providers(Layout(u))
  {
    AscendingIsUnique(Providers(Layout(t)), Providers(Layout(u)));
    assert t == map[] <==> t.Keys == {};
    assert u == map[] <==> u.Keys == {};
  }

  /** The shown CPU count, and the accelerators with their order, ignore the order of the list. */
  lemma CpuAndAcceleratorsIgnoreOrder(a: seq<ResourceDetails>, b: seq<ResourceDetails>)
    requires multiset(a) == multiset(b)
    ensures ToApi(Accumulated(a)).cpu == ToApi(Accumulated(b)).cpu
    ensures SameAmounts(AcceleratorSums(a), AcceleratorSums(b))
    ensures Providers(OrEmpty(Accumulated(a).accelerators)) == Providers(OrEmpty(Accumulated(b).accelerators))
  {
    TotalIgnoresOrder(a, b, CpuResource);
    SameValue(Total(a, CpuResource), Total(b, CpuResource));
    AcceleratorSumsIgnoreOrder(a, b);
    SameLayoutProviders(AcceleratorSums(a), AcceleratorSums(b));
  }

  // ----- order: the shown accelerators -----

  ghost function ShownAccelerators(list: seq<ResourceDetails>): Option<seq<ApiAccelerator>>
  {
    ToApi(Accumulated(list)).accelerators
  }

  ghost predicate AcceleratorOrderIsInvisible(list: seq<ResourceDetails>)
  {
    forall other: seq<ResourceDetails> ::
      multiset(other) == multiset(list) ==> ShownAccelerators(other) == ShownAccelerators(list)
  }

  /** The format of the first amount of a resource that is not zero. */
  function LeadFormat(list: seq<AcceleratorQuota>, provider: string, name: string): Option<Format>
  {
    if list == [] then None
    else if list[0].provider == provider && name in list[0].resources && list[0].resources[name].nano != 0
    then Some(list[0].resources[name].format)
    else LeadFormat(list[1..], provider, name)
  }

  function Lead(d: ResourceDetails, provider: string, name: string): Option<Format>
  {
    LeadFormat(OrEmpty(d.accelerators), provider, name)
  }

  /** The sum of a resource has one text in the first formats of all quotas that ask for it. */
  predicate OneTextInAllFormats(list: seq<ResourceDetails>, provider: string, name: string)
  {
    var sum := Amount(AcceleratorSums(list), provider, name);
    forall i, j :: 0 <= i < |list| && 0 <= j < |list|
                   && Lead(list[i], provider, name).Some? && Lead(list[j], provider, name).Some? ==>
      OneText(sum, Lead(list[i], provider, name).value, Lead(list[j], provider, name).value)
  }

  predicate NonNegativeItems(list: seq<ResourceDetails>)
  {
    forall i :: 0 <= i < |list| ==> NonNegativeAccelerators(list[i])
  }

  /** The first amount that is not zero decides the format of a sum. */
  lemma {:induction false} SumFormat(t: Totals, list: seq<AcceleratorQuota>, provider: string, name: string)
    requires Amount(t, provider, name) >= 0 && NonNegativeList(list)
    requires Amount(AddAll(t, list), provider, name) > 0
    ensures Amount(t, provider, name) > 0 ==>
              AddAll(t, list)[provider][name].format == t[provider][name].format
    ensures Amount(t, provider, name) == 0 ==>
              LeadFormat(list, provider, name) == Some(AddAll(t, list)[provider][name].format)
    decreases list
  {
    if list != [] {
      assert NonNegativeList(list[1..]);
      assert name in list[0].resources ==> list[0].resources[name].nano >= 0;
      SumFormat(AddOne(t, list[0]), list[1..], provider, name);
    }
  }

  lemma {:induction false} LeadAppends(a: seq<AcceleratorQuota>, b: seq<AcceleratorQuota>, provider: string,
                                       name: string)
    ensures LeadFormat(a + b, provider, name)
         == if LeadFormat(a, provider, name).Some? then LeadFormat(a, provider, name) else LeadFormat(b, provider, name)
  {
    if a == [] {
      assert a + b == b;
    } else {
      assert (a + b)[1..] == a[1..] + b;
      LeadAppends(a[1..], b, provider, name);
    }
  }

  lemma {:induction false} LeadIsPositive(list: seq<AcceleratorQuota>, provider: string, name: string)
    requires NonNegativeList(list) && LeadFormat(list, provider, name).Some?
    ensures Demand(list, provider, name) > 0
  {
    assert NonNegativeList(list[1..]);
    DemandIsNonNegative(list[1..], provider, name);
    assert name in list[0].resources ==> list[0].resources[name].nano >= 0;
    if !(list[0].provider == provider && name in list[0].resources && list[0].resources[name].nano != 0) {
      LeadIsPositive(list[1..], provider, name);
    }
  }

  lemma {:induction false} LeadComesFromSome(list: seq<ResourceDetails>, provider: string, name: string)
    returns (i: nat)
    requires LeadFormat(AllAccelerators(list), provider, name).Some?
    ensures i < |list| && Lead(list[i], provider, name) == LeadFormat(AllAccelerators(list), provider, name)
  {
    assert list != [];
    var n := |list| - 1;
    LeadAppends(AllAccelerators(list[..n]), OrEmpty(list[n].accelerators), provider, name);
    if LeadFormat(AllAccelerators(list[..n]), provider, name).Some? {
      i := LeadComesFromSome(list[..n], provider, name);
    } else {
      i := n;
    }
  }

  lemma {:induction false} AllAreNonNegative(list: seq<ResourceDetails>)
    requires NonNegativeItems(list)
    ensures NonNegativeList(AllAccelerators(list))
  {
    if list != [] {
      var n := |list| - 1;
      AllAreNonNegative(list[..n]);
      assert NonNegativeAccelerators(list[n]);
    }
  }

  /** A positive sum has the format that some quota of the list leads with. */
  lemma SumOf(list: seq<ResourceDetails>, provider: string, name: string) returns (i: nat)
    requires NonNegativeItems(list) && Amount(AcceleratorSums(list), provider, name) > 0
    ensures i < |list| && Lead(list[i], provider, name) == LeadFormat(AllAccelerators(list), provider, name)
    ensures Lead(list[i], provider, name) == Some(AcceleratorSums(list)[provider][name].format)
  {
    AllAreNonNegative(list);
    SumFormat(map[], AllAccelerators(list), provider, name);
    i := LeadComesFromSome(list, provider, name);
  }

  function ToFront<T>(list: seq<T>, i: nat): seq<T>
    requires i < |list|
  {
    [list[i]] + (list[..i] + list[i + 1..])
  }

  lemma FrontPermutes<T>(list: seq<T>, i: nat)
    requires i < |list|
    ensures multiset(ToFront(list, i)) == multiset(list)
  {
    assert list == list[..i] + [list[i]] + list[i + 1..];
  }

  lemma FrontLeadFormat(list: seq<ResourceDetails>, i: nat, provider: string, name: string)
    requires i < |list| && Lead(list[i], provider, name).Some?
    ensures LeadFormat(AllAccelerators(ToFront(list, i)), provider, name) == Lead(list[i], provider, name)
  {
    var rest := list[..i] + list[i + 1..];
    AllAcceleratorsAppend([list[i]], rest);
    AllAcceleratorsOfOne(list[i]);
    LeadAppends(OrEmpty(list[i].accelerators), AllAccelerators(rest), provider, name);
  }

  lemma Moved<T>(a: seq<T>, b: seq<T>, i: nat) returns (j: nat)
    requires multiset(a) == multiset(b) && i < |a|
    ensures j < |b| && b[j] == a[i]
  {
    assert a[i] in multiset(b);
    j :| 0 <= j < |b| && b[j] == a[i];
  }

  lemma PermutedItemsAreNonNegative(a: seq<ResourceDetails>, b: seq<ResourceDetails>)
    requires multiset(a) == multiset(b) && NonNegativeItems(b)
    ensures NonNegativeItems(a)
  {
    forall i | 0 <= i < |a| ensures NonNegativeAccelerators(a[i]) {
      var j := Moved(a, b, i);
    }
  }

  lemma LeadDecides(list: seq<ResourceDetails>, provider: string, name: string)
    requires NonNegativeItems(list) && LeadFormat(AllAccelerators(list), provider, name).Some?
    ensures Has(AcceleratorSums(list), provider, name)
    ensures Amount(AcceleratorSums(list), provider, name) > 0
    ensures LeadFormat(AllAccelerators(list), provider, name) == Some(AcceleratorSums(list)[provider][name].format)
  {
    AllAreNonNegative(list);
    LeadIsPositive(AllAccelerators(list), provider, name);
    AddedAmounts(map[], AllAccelerators(list), provider, name);
    SumFormat(map[], AllAccelerators(list), provider, name);
  }

  /** Moving a quota that asks for a resource to the front gives the sum its format. */
  lemma FrontLeads(list: seq<ResourceDetails>, i: nat, provider: string, name: string)
    requires i < |list| && NonNegativeItems(list) && Lead(list[i], provider, name).Some?
    ensures multiset(ToFront(list, i)) == multiset(list)
    ensures SameAmounts(AcceleratorSums(ToFront(list, i)), AcceleratorSums(list))
    ensures Has(AcceleratorSums(ToFront(list, i)), provider, name)
    ensures AcceleratorSums(ToFront(list, i))[provider][name]
         == Quantity(Amount(AcceleratorSums(list), provider, name), Lead(list[i], provider, name).value)
  {
    var moved := ToFront(list, i);
    FrontPermutes(list, i);
    AcceleratorSumsIgnoreOrder(moved, list);
    FrontLeadFormat(list, i, provider, name);
    PermutedItemsAreNonNegative(moved, list);
    LeadDecides(moved, provider, name);
  }

  lemma SameLayoutsPrintAlike(t: Totals, u: Totals, provider: string, name: string)
    requires SameAmounts(t, u) && Has(t, provider, name)
    requires AcceleratorsToApi(Layout(t)) == AcceleratorsToApi(Layout(u))
    ensures Print(t[provider][name]) == Print(u[provider][name])
  {
    SameLayoutProviders(t, u);
    var x, y := Layout(t), Layout(u);
    MemberIsName(provider, Providers(x));
    var i :| 0 <= i < |x| && Providers(x)[i] == provider;
    assert Providers(y)[i] == provider;
    assert AcceleratorsToApi(x)[i] == AcceleratorsToApi(y)[i];
    assert PrintList(t[provider])[name] == PrintList(u[provider])[name];
  }

  lemma SamePrints(t: Totals, u: Totals, provider: string)
    requires SameAmounts(t, u) && provider in t
    requires forall name :: Has(t, provider, name) ==> Print(t[provider][name]) == Print(u[provider][name])
    ensures PrintList(t[provider]) == PrintList(u[provider])
  {
    forall name ensures name in t[provider] <==> name in u[provider] {
      assert Has(t, provider, name) <==> Has(u, provider, name);
    }
    forall name | name in t[provider] ensures Print(t[provider][name]) == Print(u[provider][name]) {
      assert Has(t, provider, name);
    }
  }

  lemma LayoutsShowTheSameIff(t: Totals, u: Totals)
    requires SameAmounts(t, u)
    ensures AcceleratorsToApi(Layout(t)) == AcceleratorsToApi(Layout(u))
            <==> forall provider, name :: Has(t, provider, name) ==>
                   Print(t[provider][name]) == Print(u[provider][name])
  {
    if AcceleratorsToApi(Layout(t)) == AcceleratorsToApi(Layout(u)) {
      forall provider, name | Has(t, provider, name) ensures Print(t[provider][name]) == Print(u[provider][name]) {
        SameLayoutsPrintAlike(t, u, provider, name);
      }
    }
    if forall provider, name :: Has(t, provider, name) ==> Print(t[provider][name]) == Print(u[provider][name]) {
      SameLayoutProviders(t, u);
      var x, y := Layout(t), Layout(u);
      assert |x| == |Providers(x)| == |y|;
      forall i | 0 <= i < |x| ensures AcceleratorsToApi(x)[i] == AcceleratorsToApi(y)[i] {
        assert Providers(x)[i] == Providers(y)[i];
        SamePrints(t, u, x[i].provider);
      }
      assert AcceleratorsToApi(x) == AcceleratorsToApi(y);
    }
  }

  /** Lists with the same sums show the same if and only if every sum prints the same. */
  lemma TextsDecide(a: seq<ResourceDetails>, b: seq<ResourceDetails>)
    requires SameAmounts(AcceleratorSums(a), AcceleratorSums(b))
    ensures ShownAccelerators(a) == ShownAccelerators(b)
            <==> forall provider, name :: Has(AcceleratorSums(a), provider, name) ==>
                   Print(AcceleratorSums(a)[provider][name]) == Print(AcceleratorSums(b)[provider][name])
  {
    var t, u := AcceleratorSums(a), AcceleratorSums(b);
    SameLayoutProviders(t, u);
    LayoutsShowTheSameIff(t, u);
  }

  lemma AlikeShowTheSame(other: seq<ResourceDetails>, list: seq<ResourceDetails>)
    requires multiset(other) == multiset(list) && NonNegativeItems(list)
    requires forall provider, name :: OneTextInAllFormats(list, provider, name)
    ensures ShownAccelerators(other) == ShownAccelerators(list)
  {
    AcceleratorSumsIgnoreOrder(other, list);
    PermutedItemsAreNonNegative(other, list);
    var t, u := AcceleratorSums(other), AcceleratorSums(list);
    forall provider, name | Has(t, provider, name) ensures Print(t[provider][name]) == Print(u[provider][name]) {
      assert Has(u, provider, name) && Amount(t, provider, name) == Amount(u, provider, name);
      AllAreNonNegative(list);
      AddedAmounts(map[], AllAccelerators(list), provider, name);
      DemandIsNonNegative(AllAccelerators(list), provider, name);
      if Amount(u, provider, name) > 0 {
        var i := SumOf(other, provider, name);
        var j := SumOf(list, provider, name);
        var k := Moved(other, list, i);
        assert OneTextInAllFormats(list, provider, name);
        OneTextIff(Amount(u, provider, name), t[provider][name].format, u[provider][name].format);
      }
    }
    TextsDecide(other, list);
  }

  lemma SameAmountsChain(t: Totals, u: Totals, v: Totals)
    requires SameAmounts(t, u) && SameAmounts(v, u)
    ensures SameAmounts(t, v)
  {
    forall provider, name
      ensures Has(t, provider, name) <==> Has(v, provider, name)
      ensures Amount(t, provider, name) == Amount(v, provider, name)
    {
      assert Has(t, provider, name) <==> Has(u, provider, name);
      assert Has(v, provider, name) <==> Has(u, provider, name);
    }
  }

  lemma UnlikeShow(list: seq<ResourceDetails>, provider: string, name: string)
    requires NonNegativeItems(list) && !OneTextInAllFormats(list, provider, name)
    ensures !AcceleratorOrderIsInvisible(list)
  {
    var sum := Amount(AcceleratorSums(list), provider, name);
    var i, j :| 0 <= i < |list| && 0 <= j < |list|
                && Lead(list[i], provider, name).Some? && Lead(list[j], provider, name).Some?
                && !OneText(sum, Lead(list[i], provider, name).value, Lead(list[j], provider, name).value);
    OneTextIff(sum, Lead(list[i], provider, name).value, Lead(list[j], provider, name).value);
    FrontLeads(list, i, provider, name);
    FrontLeads(list, j, provider, name);
    SameAmountsChain(AcceleratorSums(ToFront(list, i)), AcceleratorSums(list), AcceleratorSums(ToFront(list, j)));
    TextsDecide(ToFront(list, i), ToFront(list, j));
    assert ShownAccelerators(ToFront(list, i)) != ShownAccelerators(ToFront(list, j));
  }

  /** For amounts that are not negative, the shown accelerators are the same for every order of the list
      if and only if every sum has one text in the first formats of all quotas that ask for it: the sum is
      zero, or the formats print it in the same way, or each prints a bare number. */
  lemma AcceleratorOrderIsInvisibleIff(list: seq<ResourceDetails>)
    requires NonNegativeItems(list)
    ensures AcceleratorOrderIsInvisible(list)
            <==> forall provider, name :: OneTextInAllFormats(list, provider, name)
  {
    if forall provider, name :: OneTextInAllFormats(list, provider, name) {
      forall other: seq<ResourceDetails> | multiset(other) == multiset(list)
        ensures ShownAccelerators(other) == ShownAccelerators(list)
      {
        AlikeShowTheSame(other, list);
      }
    } else {
      var provider, name :| !OneTextInAllFormats(list, provider, name);
      UnlikeShow(list, provider, name);
    }
  }

  lemma SumOfTwo(a: ResourceDetails, b: ResourceDetails, provider: string, name: string)
    ensures Amount(AcceleratorSums([a, b]), provider, name)
         == Demand(OrEmpty(a.accelerators), provider, name) + Demand(OrEmpty(b.accelerators), provider, name)
  {
    assert [a, b] == [a] + [b];
    AllAcceleratorsAppend([a], [b]);
    AllAcceleratorsOfOne(a);
    AllAcceleratorsOfOne(b);
    AddedAmounts(map[], AllAccelerators([a, b]), provider, name);
    DemandAppends(OrEmpty(a.accelerators), OrEmpty(b.accelerators), provider, name);
  }

  /** 1000 pieces written as a decimal and 24 written as a binary quantity are shown as 1024 in one order
      and as 1Ki in the other. */
  lemma AcceleratorOrderCanShow(provider: string, name: string)
    ensures
      var decimal := ResourceDetails(None, None, None,
        Some([AcceleratorQuota(provider, map[name := Quantity(1000 * NANO, DecimalSI)])]));
      var binary := ResourceDetails(None, None, None,
        Some([AcceleratorQuota(provider, map[name := Quantity(24 * NANO, BinarySI)])]));
      !AcceleratorOrderIsInvisible([decimal, binary])
  {
    var decimal := ResourceDetails(None, None, None,
      Some([AcceleratorQuota(provider, map[name := Quantity(1000 * NANO, DecimalSI)])]));
    var binary := ResourceDetails(None, None, None,
      Some([AcceleratorQuota(provider, map[name := Quantity(24 * NANO, BinarySI)])]));
    var list := [decimal, binary];
    assert Lead(list[0], provider, name) == Some(DecimalSI) && Lead(list[1], provider, name) == Some(BinarySI);
    SumOfTwo(decimal, binary, provider, name);
    UnlikeShow(list, provider, name);
  }

  // ----- order: the shown memory and storage -----

  predicate IsDecimal(d: ResourceDetails, r: Resource)
  {
    Cell(d, r).Some? && Cell(d, r).value.nano != 0 && Cell(d, r).value.format == DecimalSI
  }

  predicate IsOther(d: ResourceDetails, r: Resource)
  {
    Cell(d, r).Some? && Cell(d, r).value.nano != 0 && Cell(d, r).value.format != DecimalSI
  }

  predicate NoDecimal(list: seq<ResourceDetails>, r: Resource)
  {
    forall i :: 0 <= i < |list| ==> !IsDecimal(list[i], r)
  }

  predicate NoOther(list: seq<ResourceDetails>, r: Resource)
  {
    forall i :: 0 <= i < |list| ==> !IsOther(list[i], r)
  }

  predicate NonNegativeColumn(list: seq<ResourceDetails>, r: Resource)
  {
    forall i :: 0 <= i < |list| && Cell(list[i], r).Some? ==> Cell(list[i], r).value.nano >= 0
  }

  lemma {:induction false} NoDecimalTotal(list: seq<ResourceDetails>, r: Resource)
    requires NoDecimal(list, r)
    ensures Total(list, r).nano == 0 || Total(list, r).format != DecimalSI
  {
    if list != [] {
      var n := |list| - 1;
      NoDecimalTotal(list[..n], r);
      assert list == list[..n] + [list[n]];
      TotalOneMore(list[..n], list[n], r);
      assert !IsDecimal(list[n], r);
    }
  }

  lemma SameBytesShowTheSame(q: Quantity, p: Quantity)
    requires Value(Normalised(q)) == Value(Normalised(p))
    ensures InGiB(q) == InGiB(p)
  {
  }

  lemma ShownWithoutDecimal(q: Quantity)
    requires q.nano == 0 || q.format != DecimalSI
    ensures AmountToApi(Some(q)) == AmountToApi(Some(Quantity(q.nano, BinarySI)))
  {
    if q.nano != 0 {
      var p := Quantity(q.nano, BinarySI);
      OnlyDecimalIsMoved(q);
      OnlyDecimalIsMoved(p);
      SameValue(q, p);
      SameBytesShowTheSame(q, p);
    }
  }

  /** If no decimal amount is left after normalising, every order shows the same. */
  lemma BinaryTotalsIgnoreOrder(a: seq<ResourceDetails>, b: seq<ResourceDetails>, r: Resource)
    requires multiset(a) == multiset(b)
    requires NoDecimal(a, r)
    ensures Shown(a, r) == Shown(b, r)
  {
    TotalIgnoresOrder(a, b, r);
    forall i | 0 <= i < |b| ensures !IsDecimal(b[i], r) {
      assert b[i] in multiset(a);
      var j :| 0 <= j < |a| && a[j] == b[i];
    }
    NoDecimalTotal(a, r);
    NoDecimalTotal(b, r);
    ShownWithoutDecimal(Total(a, r));
    ShownWithoutDecimal(Total(b, r));
  }

  lemma {:induction false} NoOtherTotal(list: seq<ResourceDetails>, r: Resource)
    requires NoOther(list, r)
    ensures Total(list, r).nano == 0 || Total(list, r).format == DecimalSI
  {
    if list != [] {
      var n := |list| - 1;
      NoOtherTotal(list[..n], r);
      assert list == list[..n] + [list[n]];
      TotalOneMore(list[..n], list[n], r);
      assert !IsOther(list[n], r);
    }
  }

  /** The first amount decides the format of a sum of amounts that are not negative. */
  lemma {:induction false} FirstDecidesFormat(d: ResourceDetails, rest: seq<ResourceDetails>, r: Resource)
    requires Cell(d, r).Some? && Cell(d, r).value.nano > 0 && NonNegativeColumn(rest, r)
    ensures Total([d] + rest, r).nano > 0 && Total([d] + rest, r).format == Cell(d, r).value.format
  {
    if rest == [] {
      assert [d] + rest == [] + [d];
      TotalOneMore([], d, r);
    } else {
      var n := |rest| - 1;
      assert NonNegativeColumn(rest[..n], r);
      FirstDecidesFormat(d, rest[..n], r);
      assert [d] + rest == ([d] + rest[..n]) + [rest[n]];
      TotalOneMore([d] + rest[..n], rest[n], r);
    }
  }

  ghost predicate OrderIsInvisible(list: seq<ResourceDetails>, r: Resource)
  {
    forall other: seq<ResourceDetails> :: multiset(other) == multiset(list) ==> Shown(other, r) == Shown(list, r)
  }

  // ----- one amount shown from two formats -----

  /** An amount that is shown alike as a decimal and as a binary quantity: its decimal text has none of
      the suffixes M, G and T, or it has M and the number before it comes to the same hundredths of a GiB
      in mebibytes and in megabytes. */
  predicate ShowsAlike(nano: int)
  {
    var text := Print(Quantity(nano, DecimalSI));
    var e := BinaryExponent(text);
    e == 0 || (e == 2 && Hundredths(text.mantissa * 0x10_0000) == Hundredths(text.mantissa * 1_000_000))
  }

  lemma WholeValue(units: int)
    ensures Value(Quantity(units * NANO, BinarySI)) == units
  {
  }

  /** The bytes of an amount written with M, G or T, as they are and as they are normalised. */
  lemma ValueOfSuffix(m: int, e: nat, nano: int)
    requires m > 0 && 2 <= e <= 4 && nano == m * Pow(1000, e + 3)
    ensures Value(Quantity(nano, BinarySI)) == m * Pow(1000, e)
  {
    PowSplits(1000, 3, e + 3);
    PowersOfThousand();
    RegroupProduct(m, NANO, Pow(1000, e));
    WholeValue(m * Pow(1000, e));
  }

  lemma MovedBytes(q: Quantity, m: int, e: nat)
    requires e == BinaryExponent(Print(q)) && e > 0 && m == Print(q).mantissa
    ensures Value(Normalised(q)) == WrapInt64(m * Pow(1024, e))
  {
    WholeValue(WrapInt64(m * Pow(1024, e)));
  }

  lemma SmallPowersOfThousand()
    ensures Pow(1000, 2) == 1_000_000
    ensures Pow(1000, 3) == 1_000_000_000
    ensures Pow(1000, 4) == 1_000_000_000_000
  {
  }

  /** Amounts a hundredth of a GiB or more apart are shown differently. */
  lemma FarApart(fewer: int, more: int)
    requires 100 * (more - fewer) >= GIB
    ensures Hundredths(fewer) < Hundredths(more)
  {
  }

  /** A product that overflows leaves much less than the decimal amount. */
  lemma OverflowIsFar(binary: int, decimal: int)
    requires binary > MAX_INT64 && 0 < decimal < binary
    requires binary * 1_000_000_000_000 <= decimal * 0x100_0000_0000
    ensures 100 * (decimal - WrapInt64(binary)) >= GIB
  {
    if binary < TWO_TO_64 {
      assert WrapInt64(binary) == binary - TWO_TO_64;
    }
  }

  lemma MovedShowsTheSameIff(m: int, e: nat)
    requires m > 0 && 2 <= e <= 4
    ensures Hundredths(WrapInt64(m * Pow(1024, e))) == Hundredths(m * Pow(1000, e))
            <==> e == 2 && Hundredths(m * 0x10_0000) == Hundredths(m * 1_000_000)
  {
    PowersOf1024();
    PowersOfTwo();
    var decimal := if e == 2 then m * 1_000_000 else if e == 3 then m * 1_000_000_000 else m * 1_000_000_000_000;
    var binary := if e == 2 then m * 0x10_0000 else if e == 3 then m * 0x4000_0000 else m * 0x100_0000_0000;
    assert m * Pow(1024, e) == binary;
    SmallPowersOfThousand();
    assert m * Pow(1000, e) == decimal;
    if binary > MAX_INT64 {
      OverflowIsFar(binary, decimal);
      FarApart(WrapInt64(binary), decimal);
      FarApart(decimal, binary);
    } else if e > 2 {
      FarApart(decimal, binary);
    }
  }

  lemma ShowsAlikeIff(nano: int)
    requires nano >= 0
    ensures AmountToApi(Some(Quantity(nano, DecimalSI))) == AmountToApi(Some(Quantity(nano, BinarySI)))
            <==> ShowsAlike(nano)
  {
    var q, p := Quantity(nano, DecimalSI), Quantity(nano, BinarySI);
    if nano > 0 {
      OnlyDecimalIsMoved(p);
      GiBIsHundredths(q);
      GiBIsHundredths(p);
      SameValue(q, p);
      var e := BinaryExponent(Print(q));
      if e > 0 {
        var m := PositiveMantissa(q);
        ValueOfSuffix(m, e, nano);
        MovedBytes(q, m, e);
        MovedShowsTheSameIff(m, e);
      }
    }
  }

  // ----- order: when it shows -----

  lemma DecimalTotalsIgnoreOrder(a: seq<ResourceDetails>, b: seq<ResourceDetails>, r: Resource)
    requires multiset(a) == multiset(b)
    requires NoOther(a, r)
    ensures Shown(a, r) == Shown(b, r)
  {
    TotalIgnoresOrder(a, b, r);
    forall i | 0 <= i < |b| ensures !IsOther(b[i], r) {
      assert b[i] in multiset(a);
      var j :| 0 <= j < |a| && a[j] == b[i];
    }
    NoOtherTotal(a, r);
    NoOtherTotal(b, r);
  }

  lemma {:induction false} TotalIsNonNegative(list: seq<ResourceDetails>, r: Resource)
    requires NonNegativeColumn(list, r)
    ensures Total(list, r).nano >= 0
  {
    if list != [] {
      var n := |list| - 1;
      assert NonNegativeColumn(list[..n], r);
      TotalIsNonNegative(list[..n], r);
      assert list == list[..n] + [list[n]];
      TotalOneMore(list[..n], list[n], r);
    }
  }

  lemma InvisibleFormat(a: seq<ResourceDetails>, b: seq<ResourceDetails>, r: Resource)
    requires multiset(a) == multiset(b) && NonNegativeColumn(a, r) && ShowsAlike(Total(a, r).nano)
    ensures Shown(a, r) == Shown(b, r)
  {
    TotalIgnoresOrder(a, b, r);
    TotalIsNonNegative(a, r);
    ShowsAlikeIff(Total(a, r).nano);
    var q, p := Total(a, r), Total(b, r);
    if q.format != DecimalSI { ShownWithoutDecimal(q); }
    if p.format != DecimalSI { ShownWithoutDecimal(p); }
  }

  lemma OrderDoesNotMatter(list: seq<ResourceDetails>, other: seq<ResourceDetails>, r: Resource)
    requires multiset(other) == multiset(list) && NonNegativeColumn(list, r)
    requires NoDecimal(list, r) || NoOther(list, r) || ShowsAlike(Total(list, r).nano)
    ensures Shown(other, r) == Shown(list, r)
  {
    if NoDecimal(list, r) {
      BinaryTotalsIgnoreOrder(list, other, r);
    } else if NoOther(list, r) {
      DecimalTotalsIgnoreOrder(list, other, r);
    } else {
      InvisibleFormat(list, other, r);
    }
  }

  /** Moving a positive amount to the front gives the sum its format. */
  lemma MovedToFront(list: seq<ResourceDetails>, i: nat, r: Resource)
    requires NonNegativeColumn(list, r)
    requires i < |list| && Cell(list[i], r).Some? && Cell(list[i], r).value.nano != 0
    ensures var moved := ToFront(list, i);
            && multiset(moved) == multiset(list)
            && Total(moved, r) == Quantity(Total(list, r).nano, Cell(list[i], r).value.format)
  {
    var rest := list[..i] + list[i + 1..];
    var moved := [list[i]] + rest;
    assert list == list[..i] + [list[i]] + list[i + 1..];
    assert multiset(moved) == multiset(list);
    assert NonNegativeColumn(rest, r);
    FirstDecidesFormat(list[i], rest, r);
    TotalIgnoresOrder(moved, list, r);
  }

  lemma MixedOrderMatters(list: seq<ResourceDetails>, r: Resource)
    requires NonNegativeColumn(list, r)
    requires !NoDecimal(list, r) && !NoOther(list, r) && !ShowsAlike(Total(list, r).nano)
    ensures !OrderIsInvisible(list, r)
  {
    var d :| 0 <= d < |list| && IsDecimal(list[d], r);
    var b :| 0 <= b < |list| && IsOther(list[b], r);
    var decimalFirst, otherFirst := ToFront(list, d), ToFront(list, b);
    MovedToFront(list, d, r);
    MovedToFront(list, b, r);
    TotalIsNonNegative(list, r);
    ShowsAlikeIff(Total(list, r).nano);
    ShownWithoutDecimal(Total(otherFirst, r));
    assert Shown(decimalFirst, r) != Shown(otherFirst, r);
  }

  /** For amounts that are not negative, the shown sum is the same for every order of the list if and
      only if the list does not mix decimal with other amounts, or the sum is one that both formats show
      alike.  Mixed formats matter because the sum itself is normalised once more; a sum that prints with
      G or T as a decimal always shows them. */
  lemma OrderIsInvisibleIff(list: seq<ResourceDetails>, r: Resource)
    requires NonNegativeColumn(list, r)
    ensures OrderIsInvisible(list, r)
            <==> NoDecimal(list, r) || NoOther(list, r) || ShowsAlike(Total(list, r).nano)
  {
    if NoDecimal(list, r) || NoOther(list, r) || ShowsAlike(Total(list, r).nano) {
      forall other: seq<ResourceDetails> | multiset(other) == multiset(list)
        ensures Shown(other, r) == Shown(list, r)
      {
        OrderDoesNotMatter(list, other, r);
      }
    } else {
      MixedOrderMatters(list, r);
    }
  }

  lemma SmallStaysDecimal(small: Quantity)
    requires small == Quantity(450_244_186_112 * NANO, DecimalSI)
    ensures Normalised(small) == small
  {
    PowersOfThousand();
    StripIsUnique(450_244_186_112, 3, 1000);
  }

  lemma TeraShown()
    ensures AmountToApi(Some(Quantity(1_000_000_000_000 * NANO, DecimalSI))) == Some(1024.0)
    ensures AmountToApi(Some(Quantity(1_000_000_000_000 * NANO, BinarySI))) == Some(931.32)
  {
    var dec, bin := Quantity(1_000_000_000_000 * NANO, DecimalSI), Quantity(1_000_000_000_000 * NANO, BinarySI);
    PowersOfThousand();
    PowersOf1024();
    StripIsUnique(1, 7, 1000);
    assert Normalised(dec) == Quantity(0x100_0000_0000 * NANO, BinarySI);
    OnlyDecimalIsMoved(bin);
    GiBIsHundredths(dec);
    GiBIsHundredths(bin);
  }

  lemma TotalOfTwo(a: ResourceDetails, b: ResourceDetails)
    ensures Some(Total([a, b], MemoryResource))
         == More(More(Some(ZERO), Cell(a, MemoryResource)), Cell(b, MemoryResource))
  {
    TotalOneMore([], a, MemoryResource);
    TotalOneMore([a], b, MemoryResource);
    assert [] + [a] == [a] && [a] + [b] == [a, b];
  }

  /** A list whose shown memory depends on its order: together a decimal and a binary amount make
      10^12 bytes, shown as 1024 GiB when the decimal one comes first. */
  lemma OrderCanShow()
    ensures
      var decimal := ResourceDetails(None, Some(Quantity(450_244_186_112 * NANO, DecimalSI)), None, None);
      var binary := ResourceDetails(None, Some(Quantity(549_755_813_888 * NANO, BinarySI)), None, None);
      && Shown([decimal, binary], MemoryResource) == Some(1024.0)
      && Shown([binary, decimal], MemoryResource) == Some(931.32)
  {
    var small := Quantity(450_244_186_112 * NANO, DecimalSI);
    var large := Quantity(549_755_813_888 * NANO, BinarySI);
    SmallStaysDecimal(small);
    OnlyDecimalIsMoved(large);
    TotalOfTwo(ResourceDetails(None, Some(small), None, None), ResourceDetails(None, Some(large), None, None));
    TotalOfTwo(ResourceDetails(None, Some(large), None, None), ResourceDetails(None, Some(small), None, None));
    TeraShown();
  }
}
