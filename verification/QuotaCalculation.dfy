/** The quota preview: resources of the requested nodes, plus the current usage, minus what is being
    replaced, compared with the limits of the project. */
module QuotaCalculation {
  import opened Wrappers
  import opened Quantities
  import opened SortedNames
  import opened QuotaConversion
  import opened Accelerators

  const KUBEVIRT: string := "kubevirt"

  /** What the extractor of the chosen provider finds for one node; Rejected when the provider is
      not supported or a field does not parse. */
  datatype NodeTemplate =
    | Rejected
    | Node(cpu: Quantity, memory: Quantity, storage: Quantity, accelerators: ResourceList)

  datatype ReplacedResources = ReplacedResources(replicas: int, node: NodeTemplate)

  /** What the client gets: the calculated details in the form of the interface, and the message. */
  datatype Answer = Answer(calculated: ApiQuota, message: seq<Line>)

  // ----- multiplying by the replica count -----

  function Times(q: Quantity, n: int): Quantity
  {
    if n <= 0 then ZERO else Quantity(n * q.nano, q.format)
  }

  function TimesList(list: ResourceList, n: int): ResourceList
  {
    if n <= 0 then map[] else map name | name in list :: Times(list[name], n)
  }

  function Replicated(node: NodeTemplate, n: int): Option<ResourceDetails>
  {
    if node.Rejected? then None
    else
      var accelerators := TimesList(node.accelerators, n);
      Some(ResourceDetails(Some(Times(node.cpu, n)), Some(Times(node.memory, n)), Some(Times(node.storage, n)),
                           if accelerators == map[] then None
                           else Some([AcceleratorQuota(KUBEVIRT, accelerators)])))
  }

  lemma TimesOneMore(q: Quantity, n: nat)
    ensures Plus(Times(q, n), q) == Times(q, n + 1)
  {
  }

  lemma TimesListOneMore(list: ResourceList, n: nat)
    ensures AddList(TimesList(list, n), list) == TimesList(list, n + 1)
  {
    forall name | name in list
      ensures Added(TimesList(list, n), list, name) == Times(list[name], n + 1)
    {
      TimesOneMore(list[name], n);
    }
    assert AddList(TimesList(list, n), list).Keys == TimesList(list, n + 1).Keys;
  }

  /** The details refer to a resource list made here. */
  method MapProviderNodeTmplToResourceDetails(node: NodeTemplate, replicas: int) returns (r: Option<Details>)
    ensures r.Some? ==> fresh(MapsOf(r.value))
    ensures Replicated(node, replicas) == if r.None? then None else Some(Values(r.value))
  {
    if node.Rejected? {
      return None;
    }
    var accelerators := new ResourceMap(node.accelerators);
    var acceleratorTotals := new ResourceMap(map[]);
    var cpu, mem, sto := ZERO, ZERO, ZERO;
    var i := 0;
    while i < replicas
      invariant 0 <= i && (replicas <= 0 ==> i == 0) && (replicas > 0 ==> i <= replicas)
      invariant cpu == Times(node.cpu, i) && mem == Times(node.memory, i) && sto == Times(node.storage, i)
      invariant accelerators.entries == node.accelerators
      invariant acceleratorTotals.entries == TimesList(node.accelerators, i)
    {
      cpu := Plus(cpu, node.cpu);
      mem := Plus(mem, node.memory);
      sto := Plus(sto, node.storage);
      TimesOneMore(node.cpu, i);
      TimesOneMore(node.memory, i);
      TimesOneMore(node.storage, i);
      TimesListOneMore(node.accelerators, i);
      AddInto(acceleratorTotals, accelerators);
      i := i + 1;
    }
    var details := Details(Some(cpu), Some(mem), Some(sto), None);
    if acceleratorTotals.entries != map[] {
      var list := [AcceleratorRef(KUBEVIRT, acceleratorTotals)];
      assert Contents(list) == [AcceleratorQuota(KUBEVIRT, acceleratorTotals.entries)];
      details := details.(accelerators := Some(list));
    }
    return Some(details);
  }

  // ----- the calculation -----

  function More(q: Option<Quantity>, r: Option<Quantity>): Option<Quantity>
  {
    if q.Some? && r.Some? then Some(Plus(q.value, r.value)) else q
  }

  function Less(q: Option<Quantity>, r: Option<Quantity>): Option<Quantity>
  {
    if q.Some? && r.Some? then Some(Minus(q.value, r.value)) else q
  }

  function NormalisedOption(q: Option<Quantity>): Option<Quantity>
  {
    if q.None? then None else Some(Normalised(q.value))
  }

  /** Nothing is subtracted where nothing is replaced. */
  const NOTHING: ResourceDetails := ResourceDetails(None, None, None, None)

  /** What is subtracted for the nodes that are replaced. */
  function Deducted(replaced: Option<ReplacedResources>): Option<ResourceDetails>
  {
    if replaced.None? then Some(NOTHING) else Replicated(replaced.value.node, replaced.value.replicas)
  }

  function CalculatedTotals(added: ResourceDetails, usage: ResourceDetails, replaced: ResourceDetails): Totals
  {
    SubtractAll(AddAll(AddAll(map[], OrEmpty(added.accelerators)), OrEmpty(usage.accelerators)),
                OrEmpty(replaced.accelerators))
  }

  ghost function CalculatedDetails(added: ResourceDetails, usage: ResourceDetails,
                                   replaced: ResourceDetails): ResourceDetails
  {
    ResourceDetails(
      Less(More(added.cpu, usage.cpu), replaced.cpu),
      Less(More(added.memory, NormalisedOption(usage.memory)), NormalisedOption(replaced.memory)),
      Less(More(added.storage, NormalisedOption(usage.storage)), NormalisedOption(replaced.storage)),
      LaidOut(CalculatedTotals(added, usage, replaced)))
  }

  predicate Over(total: Option<Quantity>, limit: Option<Quantity>)
  {
    total.Some? && limit.Some? && total.value.nano > limit.value.nano
  }

  function PlainLines(limits: ResourceDetails, d: ResourceDetails): seq<Line>
  {
    (if Over(d.cpu, limits.cpu) then [Cpu(d.cpu.value, limits.cpu.value)] else [])
    + (if Over(d.memory, limits.memory) then [Memory(d.memory.value, limits.memory.value)] else [])
    + (if Over(d.storage, limits.storage) then [Storage(d.storage.value, limits.storage.value)] else [])
  }

  /** The comparison takes the limits as they are stored, without normalising them. */
  ghost function Message(limits: ResourceDetails, d: ResourceDetails): seq<Line>
  {
    PlainLines(limits, d) + Lines(OrEmpty(limits.accelerators), Index(OrEmpty(d.accelerators)))
  }

  /** The answer of the handler: the preview, with the details converted for the interface. */
  ghost function AnswerFor(limits: ResourceDetails, added: ResourceDetails, usage: ResourceDetails,
                           replaced: ResourceDetails): Answer
  {
    var details := CalculatedDetails(added, usage, replaced);
    Answer(ToApi(details), Message(limits, details))
  }

  /** The requested nodes and the replaced ones, unless one of them is rejected. */
  method MapBoth(node: NodeTemplate, replicas: int, replaced: Option<ReplacedResources>)
    returns (r: Option<(Details, Details)>)
    ensures r.None? <==> Replicated(node, replicas).None? || Deducted(replaced).None?
    ensures r.Some? ==> Values(r.value.0) == Replicated(node, replicas).value
    ensures r.Some? ==> Values(r.value.1) == Deducted(replaced).value
  {
    var added := MapProviderNodeTmplToResourceDetails(node, replicas);
    if added.None? {
      return None;
    }
    label Mapped:
    if replaced.None? {
      return Some((added.value, Details(None, None, None, None)));
    }
    var previous := MapProviderNodeTmplToResourceDetails(replaced.value.node, replaced.value.replicas);
    if previous.None? {
      return None;
    }
    ValuesStay@Mapped(added.value);
    return Some((added.value, previous.value));
  }

  /** New totals of two lists. */
  method AddTwoLists(first: seq<AcceleratorRef>, second: seq<AcceleratorRef>) returns (totals: AcceleratorTotals)
    ensures totals.Valid() && fresh(totals) && fresh(totals.Own())
    ensures totals.Sums() == old(AddAll(AddAll(map[], Contents(first)), Contents(second)))
  {
    ghost var s := Contents(second);
    totals := new AcceleratorTotals();
    totals.Add(first);
    assert fresh(totals.Own()) && Contents(second) == s;
    totals.Add(second);
  }

  method NetTotals(added: seq<AcceleratorRef>, usage: seq<AcceleratorRef>, previous: seq<AcceleratorRef>)
    returns (totals: AcceleratorTotals)
    ensures totals.Valid() && fresh(totals) && fresh(totals.Own())
    ensures totals.Sums()
         == old(SubtractAll(AddAll(AddAll(map[], Contents(added)), Contents(usage)), Contents(previous)))
  {
    ghost var p := Contents(previous);
    totals := AddTwoLists(added, usage);
    assert Contents(previous) == p;
    totals.Subtract(previous);
  }

  /** The accelerator side of the calculation: add the new nodes and the usage, subtract what is replaced. */
  method CalculateAccelerators(added: seq<AcceleratorRef>, usage: seq<AcceleratorRef>, previous: seq<AcceleratorRef>)
    returns (r: Option<seq<AcceleratorRef>>)
    ensures fresh(OptionalMaps(r))
    ensures OptionalContents(r)
         == LaidOut(old(SubtractAll(AddAll(AddAll(map[], Contents(added)), Contents(usage)), Contents(previous))))
  {
    var acceleratorTotals := NetTotals(added, usage, previous);
    r := acceleratorTotals.ToQuotas();
  }

  method AddUsage(added: ResourceDetails, usage: ResourceDetails) returns (sum: ResourceDetails)
    ensures sum == added.(cpu := More(added.cpu, usage.cpu),
                          memory := More(added.memory, NormalisedOption(usage.memory)),
                          storage := More(added.storage, NormalisedOption(usage.storage)))
  {
    sum := added;
    if usage.cpu.Some? && sum.cpu.Some? {
      sum := sum.(cpu := Some(Plus(sum.cpu.value, usage.cpu.value)));
    }
    if usage.memory.Some? && sum.memory.Some? {
      var q := TreatDecimalAsBinary(usage.memory.value);
      sum := sum.(memory := Some(Plus(sum.memory.value, q)));
    }
    if usage.storage.Some? && sum.storage.Some? {
      var q := TreatDecimalAsBinary(usage.storage.value);
      sum := sum.(storage := Some(Plus(sum.storage.value, q)));
    }
  }

  method DeductReplaced(total: ResourceDetails, previous: ResourceDetails) returns (sum: ResourceDetails)
    ensures sum == total.(cpu := Less(total.cpu, previous.cpu),
                          memory := Less(total.memory, NormalisedOption(previous.memory)),
                          storage := Less(total.storage, NormalisedOption(previous.storage)))
  {
    sum := total;
    if previous.cpu.Some? && sum.cpu.Some? {
      sum := sum.(cpu := Some(Minus(sum.cpu.value, previous.cpu.value)));
    }
    if previous.memory.Some? && sum.memory.Some? {
      var q := TreatDecimalAsBinary(previous.memory.value);
      sum := sum.(memory := Some(Minus(sum.memory.value, q)));
    }
    if previous.storage.Some? && sum.storage.Some? {
      var q := TreatDecimalAsBinary(previous.storage.value);
      sum := sum.(storage := Some(Minus(sum.storage.value, q)));
    }
  }

  method CalculateDetails(added: Details, usage: Details, previous: Details) returns (r: ResourceDetails)
    ensures r == old(CalculatedDetails(Values(added), Values(usage), Values(previous)))
  {
    var a, u, p := Values(added), Values(usage), Values(previous);
    var accelerators := CalculateAccelerators(
      OrEmpty(added.accelerators), OrEmpty(usage.accelerators), OrEmpty(previous.accelerators));
    var list := OptionalContents(accelerators);
    assert list == LaidOut(CalculatedTotals(a, u, p));
    var sum := AddUsage(a, u);
    sum := DeductReplaced(sum, p);
    return sum.(accelerators := list);
  }

  method CheckPlainLimits(limits: ResourceDetails, sum: ResourceDetails) returns (msg: seq<Line>)
    ensures msg == PlainLines(limits, sum)
  {
    msg := [];
    if limits.cpu.Some? && sum.cpu.Some? && sum.cpu.value.nano > limits.cpu.value.nano {
      msg := msg + [Cpu(sum.cpu.value, limits.cpu.value)];
    }
    if limits.memory.Some? && sum.memory.Some? && sum.memory.value.nano > limits.memory.value.nano {
      msg := msg + [Memory(sum.memory.value, limits.memory.value)];
    }
    if limits.storage.Some? && sum.storage.Some? && sum.storage.value.nano > limits.storage.value.nano {
      msg := msg + [Storage(sum.storage.value, limits.storage.value)];
    }
  }

  method CheckLimits(limits: ResourceDetails, sum: ResourceDetails) returns (msg: seq<Line>)
    ensures msg == Message(limits, sum)
  {
    msg := CheckPlainLimits(limits, sum);
    var lines := AcceleratorExceedsQuotaMessage(OrEmpty(limits.accelerators), OrEmpty(sum.accelerators));
    msg := msg + lines;
  }

  method Calculate(added: Details, usage: Details, previous: Details, limits: Details) returns (r: Answer)
    ensures r == old(AnswerFor(Values(limits), Values(added), Values(usage), Values(previous)))
  {
    var limitValues := Values(limits);
    var details := CalculateDetails(added, usage, previous);
    var msg := CheckLimits(limitValues, details);
    var calculated := ConvertToAPIQuota(details);
    return Answer(calculated, msg);
  }

  /** Limits and usage are only read: without a modifies clause nothing changes that exists before the
      call. */
  method CalculateResourceQuotaUpdate(node: NodeTemplate, replicas: int, replaced: Option<ReplacedResources>,
                                      usage: Details, limits: Details)
    returns (r: Option<Answer>)
    ensures r.None? <==> node.Rejected? || (replaced.Some? && replaced.value.node.Rejected?)
    ensures r.Some? ==>
      r.value == AnswerFor(old(Values(limits)), Replicated(node, replicas).value, old(Values(usage)),
                           Deducted(replaced).value)
  {
    var mapped := MapBoth(node, replicas, replaced);
    ValuesStay(limits);
    ValuesStay(usage);
    if mapped.None? {
      return None;
    }
    var answer := Calculate(mapped.value.0, usage, mapped.value.1, limits);
    return Some(answer);
  }

  // ----- what the preview means -----

  /** Amount of an optional quantity, nothing being zero. */
  function Nano(q: Option<Quantity>): int
  {
    if q.None? then 0 else q.value.nano
  }

  /** CPU, memory and storage of the replaced nodes; memory and storage are normalised after they are
      multiplied by the replica count. */
  function ReplacedAmounts(replaced: Option<ReplacedResources>): (int, int, int)
    requires replaced.Some? ==> replaced.value.node.Node?
  {
    if replaced.None? then (0, 0, 0)
    else
      var n, node := replaced.value.replicas, replaced.value.node;
      (Max(0, n) * node.cpu.nano, Normalised(Times(node.memory, n)).nano, Normalised(Times(node.storage, n)).nano)
  }

  lemma TimesAmount(q: Quantity, n: int)
    ensures Times(q, n).nano == Max(0, n) * q.nano
  {
  }

  /** The plain totals: the replica count times the node, plus the usage, less what is replaced, if
      anything is.  Only the stored usage and the replaced sum are normalised, and nothing is clamped. */
  lemma CalculatedPlainAmounts(node: NodeTemplate, n: int, replaced: Option<ReplacedResources>, usage: ResourceDetails)
    requires node.Node? && (replaced.Some? ==> replaced.value.node.Node?)
    ensures var d := CalculatedDetails(Replicated(node, n).value, usage, Deducted(replaced).value);
            && Nano(d.cpu) == Max(0, n) * node.cpu.nano + Nano(usage.cpu) - ReplacedAmounts(replaced).0
            && Nano(d.memory) == Max(0, n) * node.memory.nano + Nano(NormalisedOption(usage.memory))
                                 - ReplacedAmounts(replaced).1
            && Nano(d.storage) == Max(0, n) * node.storage.nano + Nano(NormalisedOption(usage.storage))
                                  - ReplacedAmounts(replaced).2
  {
    TimesAmount(node.cpu, n);
    TimesAmount(node.memory, n);
    TimesAmount(node.storage, n);
    if replaced.Some? {
      TimesAmount(replaced.value.node.cpu, replaced.value.replicas);
    }
  }

  lemma IndexOfCalculated(added: ResourceDetails, usage: ResourceDetails, replaced: ResourceDetails)
    ensures Index(OrEmpty(CalculatedDetails(added, usage, replaced).accelerators))
         == CalculatedTotals(added, usage, replaced)
  {
    IndexOfLayout(CalculatedTotals(added, usage, replaced));
  }

  /** What the new nodes and the usage ask for, less what is replaced, but not below zero. */
  function NetDemand(added: ResourceDetails, usage: ResourceDetails, replaced: ResourceDetails,
                     provider: string, name: string): nat
  {
    Max(0, Demand(OrEmpty(added.accelerators), provider, name)
           + Demand(OrEmpty(usage.accelerators), provider, name)
           - Demand(OrEmpty(replaced.accelerators), provider, name))
  }

  predicate NonNegativeAccelerators(d: ResourceDetails)
  {
    NonNegativeList(OrEmpty(d.accelerators))
  }

  lemma SumOfLists(a: seq<AcceleratorQuota>, b: seq<AcceleratorQuota>, provider: string, name: string)
    ensures var sums := AddAll(AddAll(map[], a), b);
            && (Has(sums, provider, name) <==> Mentions(a, provider, name) || Mentions(b, provider, name))
            && Amount(sums, provider, name) == Demand(a, provider, name) + Demand(b, provider, name)
  {
    AddedAmounts(map[], a, provider, name);
    AddedAmounts(AddAll(map[], a), b, provider, name);
  }

  /** For amounts that are not negative, the calculated accelerator total of a key is what the new
      nodes and the usage ask for, less what is replaced, and never below zero. */
  lemma CalculatedAmount(added: ResourceDetails, usage: ResourceDetails, replaced: ResourceDetails,
                         provider: string, name: string)
    requires NonNegativeAccelerators(added) && NonNegativeAccelerators(usage) && NonNegativeAccelerators(replaced)
    ensures var t := CalculatedTotals(added, usage, replaced);
            && (Has(t, provider, name) <==>
                  Mentions(OrEmpty(added.accelerators), provider, name)
                  || Mentions(OrEmpty(usage.accelerators), provider, name))
            && Amount(t, provider, name) == NetDemand(added, usage, replaced, provider, name)
  {
    var f, u, r := OrEmpty(added.accelerators), OrEmpty(usage.accelerators), OrEmpty(replaced.accelerators);
    var sums := AddAll(AddAll(map[], f), u);
    AddedTotalsAreNonNegative(map[], f);
    AddedTotalsAreNonNegative(AddAll(map[], f), u);
    SumOfLists(f, u, provider, name);
    SubtractedAmounts(sums, r, provider, name);
    DemandIsNonNegative(r, provider, name);
  }

  /** Replicas times what one node asks for, for KubeVirt only. */
  function Requested(node: NodeTemplate, n: int, provider: string, name: string): int
    requires node.Node?
  {
    if provider == KUBEVIRT && name in node.accelerators then Max(0, n) * node.accelerators[name].nano else 0
  }

  /** The demand of replicated nodes is replicas times the demand of one node. */
  lemma ReplicatedDemand(node: NodeTemplate, n: int, provider: string, name: string)
    requires node.Node?
    ensures Demand(OrEmpty(Replicated(node, n).value.accelerators), provider, name)
         == Requested(node, n, provider, name)
  {
    var totals := TimesList(node.accelerators, n);
    if totals != map[] {
      var list := [AcceleratorQuota(KUBEVIRT, totals)];
      assert list[1..] == [];
      assert name in totals <==> name in node.accelerators;
    } else {
      assert name !in totals;
      assert n > 0 ==> name !in node.accelerators;
    }
  }

  predicate NonNegativeNode(node: NodeTemplate)
  {
    node.Node? ==>
      && node.cpu.nano >= 0 && node.memory.nano >= 0 && node.storage.nano >= 0
      && forall name :: name in node.accelerators ==> node.accelerators[name].nano >= 0
  }

  lemma ProductGrows(m: int, n: int, x: int)
    requires 0 <= m <= n && x >= 0
    ensures 0 <= m * x <= n * x
  {
  }

  lemma TimesGrows(q: Quantity, m: int, n: int)
    requires m <= n && q.nano >= 0
    ensures 0 <= Times(q, m).nano <= Times(q, n).nano
  {
    if 0 < m { ProductGrows(m, n, q.nano); } else if 0 < n { ProductGrows(0, n, q.nano); }
  }

  lemma ReplicatedIsNonNegative(node: NodeTemplate, n: int)
    requires node.Node? && NonNegativeNode(node)
    ensures NonNegativeList(OrEmpty(Replicated(node, n).value.accelerators))
  {
    forall name | name in TimesList(node.accelerators, n) ensures TimesList(node.accelerators, n)[name].nano >= 0 {
      TimesGrows(node.accelerators[name], n, n);
    }
  }

  /** The accelerator total of a whole request: replicas times the node plus the usage, less the replaced
      replicas times the replaced node, and never below zero. */
  function RequestedTotal(node: NodeTemplate, n: int, replaced: Option<ReplacedResources>, usage: ResourceDetails,
                          provider: string, name: string): nat
    requires node.Node? && (replaced.Some? ==> replaced.value.node.Node?)
  {
    Max(0, Requested(node, n, provider, name)
           + Demand(OrEmpty(usage.accelerators), provider, name)
           - (if replaced.None? then 0
              else Requested(replaced.value.node, replaced.value.replicas, provider, name)))
  }

  lemma RequestedAmount(node: NodeTemplate, n: int, replaced: Option<ReplacedResources>, usage: ResourceDetails,
                        provider: string, name: string)
    requires node.Node? && NonNegativeNode(node) && NonNegativeAccelerators(usage)
    requires replaced.Some? ==> replaced.value.node.Node? && NonNegativeNode(replaced.value.node)
    ensures Amount(CalculatedTotals(Replicated(node, n).value, usage, Deducted(replaced).value), provider, name)
         == RequestedTotal(node, n, replaced, usage, provider, name)
  {
    ReplicatedIsNonNegative(node, n);
    ReplicatedDemand(node, n, provider, name);
    if replaced.Some? {
      ReplicatedIsNonNegative(replaced.value.node, replaced.value.replicas);
      ReplicatedDemand(replaced.value.node, replaced.value.replicas, provider, name);
    }
    CalculatedAmount(Replicated(node, n).value, usage, Deducted(replaced).value, provider, name);
  }

  lemma OnlyAcceleratorLines(limits: seq<AcceleratorQuota>, index: Totals)
    ensures forall line :: line in Lines(limits, index) ==> line.Accelerator?
    ensures Lines(limits, index) != [] ==> Lines(limits, index)[0] in Lines(limits, index)
  {
    forall line | line in Lines(limits, index) ensures line.Accelerator? {
      LinesAreExact(limits, index, line);
    }
  }

  lemma AcceleratorLinesOfMessage(limits: ResourceDetails, d: ResourceDetails)
    ensures forall line: Line :: line.Accelerator? ==>
              (line in Message(limits, d)
               <==> line in Lines(OrEmpty(limits.accelerators), Index(OrEmpty(d.accelerators))))
  {
  }

  lemma AcceleratorLinesIff(limits: ResourceDetails, added: ResourceDetails, usage: ResourceDetails,
                            replaced: ResourceDetails)
    ensures (forall line :: line in AnswerFor(limits, added, usage, replaced).message ==> !line.Accelerator?)
            <==> Lines(OrEmpty(limits.accelerators), CalculatedTotals(added, usage, replaced)) == []
  {
    IndexOfCalculated(added, usage, replaced);
    OnlyAcceleratorLines(OrEmpty(limits.accelerators), CalculatedTotals(added, usage, replaced));
    AcceleratorLinesOfMessage(limits, CalculatedDetails(added, usage, replaced));
  }

  /** No accelerator line is reported if and only if every configured limit is at least the demand of
      the new nodes and the usage, less the replaced nodes.  A resource nobody asks for counts 0. */
  lemma NoAcceleratorLineIff(limits: ResourceDetails, added: ResourceDetails, usage: ResourceDetails,
                             replaced: ResourceDetails)
    requires NonNegativeAccelerators(added) && NonNegativeAccelerators(usage) && NonNegativeAccelerators(replaced)
    ensures (forall line :: line in AnswerFor(limits, added, usage, replaced).message ==> !line.Accelerator?)
            <==> forall i, name :: 0 <= i < |OrEmpty(limits.accelerators)|
                                   && name in OrEmpty(limits.accelerators)[i].resources ==>
                   NetDemand(added, usage, replaced, OrEmpty(limits.accelerators)[i].provider, name)
                   <= OrEmpty(limits.accelerators)[i].resources[name].nano
  {
    var list := OrEmpty(limits.accelerators);
    var t := CalculatedTotals(added, usage, replaced);
    AcceleratorLinesIff(limits, added, usage, replaced);
    NoLinesIff(list, t);
    forall i, name | 0 <= i < |list| && name in list[i].resources
      ensures Amount(t, list[i].provider, name) == NetDemand(added, usage, replaced, list[i].provider, name)
    {
      CalculatedAmount(added, usage, replaced, list[i].provider, name);
    }
  }

  /** A plain line is in the message exactly when its total is configured, calculated and above the limit. */
  lemma PlainLinesIff(limits: ResourceDetails, d: ResourceDetails, line: Line)
    requires !line.Accelerator?
    ensures line in Message(limits, d)
            <==> match line
                 case Cpu(c, l) => d.cpu == Some(c) && limits.cpu == Some(l) && c.nano > l.nano
                 case Memory(c, l) => d.memory == Some(c) && limits.memory == Some(l) && c.nano > l.nano
                 case Storage(c, l) => d.storage == Some(c) && limits.storage == Some(l) && c.nano > l.nano
                 case Accelerator(_, _, _) => false
  {
    OnlyAcceleratorLines(OrEmpty(limits.accelerators), Index(OrEmpty(d.accelerators)));
    assert line in Message(limits, d) <==> line in PlainLines(limits, d);
  }

  // ----- more replicas never clear a report -----

  /** Totals that are below other totals, a missing key counting as zero. */
  ghost predicate Below(t: Totals, u: Totals)
  {
    forall provider, name ::
      && (Has(t, provider, name) ==>
            Has(u, provider, name) && t[provider][name].nano <= u[provider][name].nano)
      && (!Has(t, provider, name) && Has(u, provider, name) ==> u[provider][name].nano >= 0)
  }

  lemma BelowAfterAdding(t: Totals, u: Totals, a: AcceleratorQuota)
    requires Below(t, u)
    ensures Below(AddOne(t, a), AddOne(u, a))
  {
    var x, y := AddOne(t, a), AddOne(u, a);
    forall provider, name
      ensures Has(x, provider, name) ==> Has(y, provider, name) && x[provider][name].nano <= y[provider][name].nano
      ensures !Has(x, provider, name) && Has(y, provider, name) ==> y[provider][name].nano >= 0
    {
      assert Has(t, provider, name) ==> Has(u, provider, name) && t[provider][name].nano <= u[provider][name].nano;
      assert !Has(t, provider, name) && Has(u, provider, name) ==> u[provider][name].nano >= 0;
    }
  }

  lemma BelowAfterSubtracting(t: Totals, u: Totals, a: AcceleratorQuota)
    requires Below(t, u)
    ensures Below(SubtractOne(t, a), SubtractOne(u, a))
  {
    var x, y := SubtractOne(t, a), SubtractOne(u, a);
    forall provider, name
      ensures Has(x, provider, name) ==> Has(y, provider, name) && x[provider][name].nano <= y[provider][name].nano
      ensures !Has(x, provider, name) && Has(y, provider, name) ==> y[provider][name].nano >= 0
    {
      assert Has(t, provider, name) ==> Has(u, provider, name) && t[provider][name].nano <= u[provider][name].nano;
      assert !Has(t, provider, name) && Has(u, provider, name) ==> u[provider][name].nano >= 0;
    }
  }

  lemma {:induction false} BelowAfterAddingAll(t: Totals, u: Totals, list: seq<AcceleratorQuota>)
    requires Below(t, u)
    ensures Below(AddAll(t, list), AddAll(u, list))
    decreases list
  {
    if list != [] {
      BelowAfterAdding(t, u, list[0]);
      BelowAfterAddingAll(AddOne(t, list[0]), AddOne(u, list[0]), list[1..]);
    }
  }

  lemma {:induction false} BelowAfterSubtractingAll(t: Totals, u: Totals, list: seq<AcceleratorQuota>)
    requires Below(t, u)
    ensures Below(SubtractAll(t, list), SubtractAll(u, list))
    decreases list
  {
    if list != [] {
      BelowAfterSubtracting(t, u, list[0]);
      BelowAfterSubtractingAll(SubtractOne(t, list[0]), SubtractOne(u, list[0]), list[1..]);
    }
  }

  lemma FreshTotalAt(node: NodeTemplate, n: int, provider: string, name: string)
    requires node.Node?
    ensures var t := AddAll(map[], OrEmpty(Replicated(node, n).value.accelerators));
            && (Has(t, provider, name) <==> provider == KUBEVIRT && name in node.accelerators && n > 0)
            && (Has(t, provider, name) ==> t[provider][name] == Times(node.accelerators[name], n))
  {
    var totals := TimesList(node.accelerators, n);
    if totals != map[] {
      var a := AcceleratorQuota(KUBEVIRT, totals);
      assert [a][1..] == [];
      assert AddAll(map[], [a]) == AddOne(map[], a);
      assert AddList(map[], totals) == totals;
    } else {
      assert name !in totals;
    }
  }

  lemma FreshTotalsGrow(node: NodeTemplate, m: int, n: int)
    requires node.Node? && NonNegativeNode(node) && m <= n
    ensures Below(AddAll(map[], OrEmpty(Replicated(node, m).value.accelerators)),
                  AddAll(map[], OrEmpty(Replicated(node, n).value.accelerators)))
  {
    var t := AddAll(map[], OrEmpty(Replicated(node, m).value.accelerators));
    var u := AddAll(map[], OrEmpty(Replicated(node, n).value.accelerators));
    forall provider, name
      ensures Has(t, provider, name) ==> Has(u, provider, name) && t[provider][name].nano <= u[provider][name].nano
      ensures !Has(t, provider, name) && Has(u, provider, name) ==> u[provider][name].nano >= 0
    {
      FreshTotalAt(node, m, provider, name);
      FreshTotalAt(node, n, provider, name);
      if name in node.accelerators { TimesGrows(node.accelerators[name], m, n); }
    }
  }

  /** The place of a line in a message. */
  function Rank(line: Line): nat
  {
    match line
    case Cpu(_, _) => 0
    case Memory(_, _) => 1
    case Storage(_, _) => 2
    case Accelerator(_, _, _) => 3
  }

  predicate Reports(message: seq<Line>, rank: nat)
  {
    exists k :: 0 <= k < |message| && Rank(message[k]) == rank
  }

  lemma IsReported(limits: ResourceDetails, d: ResourceDetails, line: Line)
    requires line in PlainLines(limits, d)
    ensures Reports(Message(limits, d), Rank(line))
  {
    var message := Message(limits, d);
    assert line in message;
    var k :| 0 <= k < |message| && message[k] == line;
  }

  lemma ReportsIff(limits: ResourceDetails, d: ResourceDetails)
    ensures Reports(Message(limits, d), 0) <==> Over(d.cpu, limits.cpu)
    ensures Reports(Message(limits, d), 1) <==> Over(d.memory, limits.memory)
    ensures Reports(Message(limits, d), 2) <==> Over(d.storage, limits.storage)
  {
    var message := Message(limits, d);
    forall k | 0 <= k < |message|
      ensures Rank(message[k]) == 0 ==> Over(d.cpu, limits.cpu)
      ensures Rank(message[k]) == 1 ==> Over(d.memory, limits.memory)
      ensures Rank(message[k]) == 2 ==> Over(d.storage, limits.storage)
    {
      assert message[k] in message;
      if !message[k].Accelerator? { PlainLinesIff(limits, d, message[k]); }
    }
    if Over(d.cpu, limits.cpu) { IsReported(limits, d, Cpu(d.cpu.value, limits.cpu.value)); }
    if Over(d.memory, limits.memory) { IsReported(limits, d, Memory(d.memory.value, limits.memory.value)); }
    if Over(d.storage, limits.storage) { IsReported(limits, d, Storage(d.storage.value, limits.storage.value)); }
  }

  lemma OverGrows(q: Quantity, m: int, n: int, more: Option<Quantity>, less: Option<Quantity>,
                  limit: Option<Quantity>)
    requires q.nano >= 0 && m <= n
    ensures Over(Less(More(Some(Times(q, m)), more), less), limit)
            ==> Over(Less(More(Some(Times(q, n)), more), less), limit)
  {
    TimesGrows(q, m, n);
  }

  /** Whatever is reported at m replicas is reported at every larger count, everything else equal. */
  lemma MoreReplicasKeepReports(limits: ResourceDetails, node: NodeTemplate, m: int, n: int,
                                usage: ResourceDetails, replaced: ResourceDetails)
    requires node.Node? && NonNegativeNode(node) && m <= n
    ensures var fewer := AnswerFor(limits, Replicated(node, m).value, usage, replaced).message;
            var greater := AnswerFor(limits, Replicated(node, n).value, usage, replaced).message;
            forall rank :: 0 <= rank < 3 && Reports(fewer, rank) ==> Reports(greater, rank)
  {
    var a := CalculatedDetails(Replicated(node, m).value, usage, replaced);
    var b := CalculatedDetails(Replicated(node, n).value, usage, replaced);
    OverGrows(node.cpu, m, n, usage.cpu, replaced.cpu, limits.cpu);
    OverGrows(node.memory, m, n, NormalisedOption(usage.memory), NormalisedOption(replaced.memory), limits.memory);
    OverGrows(node.storage, m, n, NormalisedOption(usage.storage), NormalisedOption(replaced.storage), limits.storage);
    ReportsIff(limits, a);
    ReportsIff(limits, b);
  }

  lemma LargerLine(list: seq<AcceleratorQuota>, i: nat, t: Totals, u: Totals, line: Line)
    requires i < |list| && IsLineOf(line, list[i], t) && Below(t, u)
    ensures exists more: Quantity :: more.nano >= line.calculated.nano && line.(calculated := more) in Lines(list, u)
  {
    var provider := list[i].provider;
    var more := Calculated(ListOf(u, provider), line.name);
    assert more.nano >= line.calculated.nano by {
      assert Has(t, provider, line.name) ==>
          Has(u, provider, line.name) && t[provider][line.name].nano <= u[provider][line.name].nano;
      assert !Has(t, provider, line.name) && Has(u, provider, line.name) ==> u[provider][line.name].nano >= 0;
    }
    assert IsLineOf(line.(calculated := more), list[i], u);
    LinesAreExact(list, u, line.(calculated := more));
  }

  lemma MoreReplicasKeepAcceleratorReports(limits: ResourceDetails, node: NodeTemplate, m: int, n: int,
                                           usage: ResourceDetails, replaced: ResourceDetails, line: Line)
    requires node.Node? && NonNegativeNode(node) && m <= n
    requires line.Accelerator? && line in AnswerFor(limits, Replicated(node, m).value, usage, replaced).message
    ensures exists more: Quantity ::
              && more.nano >= line.calculated.nano
              && line.(calculated := more) in AnswerFor(limits, Replicated(node, n).value, usage, replaced).message
  {
    var fewer, greater := Replicated(node, m).value, Replicated(node, n).value;
    var list := OrEmpty(limits.accelerators);
    var t, u := CalculatedTotals(fewer, usage, replaced), CalculatedTotals(greater, usage, replaced);
    FreshTotalsGrow(node, m, n);
    BelowAfterAddingAll(AddAll(map[], OrEmpty(fewer.accelerators)), AddAll(map[], OrEmpty(greater.accelerators)),
                        OrEmpty(usage.accelerators));
    BelowAfterSubtractingAll(
      AddAll(AddAll(map[], OrEmpty(fewer.accelerators)), OrEmpty(usage.accelerators)),
      AddAll(AddAll(map[], OrEmpty(greater.accelerators)), OrEmpty(usage.accelerators)),
      OrEmpty(replaced.accelerators));
    IndexOfCalculated(fewer, usage, replaced);
    IndexOfCalculated(greater, usage, replaced);
    AcceleratorLinesOfMessage(limits, CalculatedDetails(fewer, usage, replaced));
    AcceleratorLinesOfMessage(limits, CalculatedDetails(greater, usage, replaced));
    LinesAreExact(list, t, line);
    var i :| 0 <= i < |list| && IsLineOf(line, list[i], t);
    LargerLine(list, i, t, u, line);
  }

  // ----- what the answer holds -----

  /** CPU, memory and storage of the answer: three totals with the amounts of CalculatedPlainAmounts.  A
      line is in the message exactly when the limit is set and its total exceeds it, and the answer shows
      the same totals. */
  lemma PlainAnswer(node: NodeTemplate, n: int, replaced: Option<ReplacedResources>, usage: ResourceDetails,
                    limits: ResourceDetails)
    returns (cpu: Quantity, memory: Quantity, storage: Quantity)
    requires node.Node? && (replaced.Some? ==> replaced.value.node.Node?)
    ensures cpu.nano == Max(0, n) * node.cpu.nano + Nano(usage.cpu) - ReplacedAmounts(replaced).0
    ensures memory.nano == Max(0, n) * node.memory.nano + Nano(NormalisedOption(usage.memory))
                           - ReplacedAmounts(replaced).1
    ensures storage.nano == Max(0, n) * node.storage.nano + Nano(NormalisedOption(usage.storage))
                            - ReplacedAmounts(replaced).2
    ensures var answer := AnswerFor(limits, Replicated(node, n).value, usage, Deducted(replaced).value);
            && (forall line: Line :: !line.Accelerator? ==>
                  (line in answer.message
                   <==> || (Over(Some(cpu), limits.cpu) && line == Cpu(cpu, limits.cpu.value))
                        || (Over(Some(memory), limits.memory) && line == Memory(memory, limits.memory.value))
                        || (Over(Some(storage), limits.storage) && line == Storage(storage, limits.storage.value))))
            && answer.calculated.cpu.Some? && RoundedAway(answer.calculated.cpu.value, cpu.nano)
            && NearestHundredth(answer.calculated.memory, Some(memory))
            && NearestHundredth(answer.calculated.storage, Some(storage))
            && answer.calculated.enableAccounting.None?
  {
    var d := CalculatedDetails(Replicated(node, n).value, usage, Deducted(replaced).value);
    cpu, memory, storage := d.cpu.value, d.memory.value, d.storage.value;
    CalculatedPlainAmounts(node, n, replaced, usage);
    ShownFields(d);
    forall line: Line | !line.Accelerator?
      ensures line in Message(limits, d)
              <==> || (Over(Some(cpu), limits.cpu) && line == Cpu(cpu, limits.cpu.value))
                   || (Over(Some(memory), limits.memory) && line == Memory(memory, limits.memory.value))
                   || (Over(Some(storage), limits.storage) && line == Storage(storage, limits.storage.value))
    {
      PlainLinesIff(limits, d, line);
    }
  }

  lemma PlainLinesInOrder(limits: ResourceDetails, d: ResourceDetails)
    ensures var plain := PlainLines(limits, d);
            && (forall j, k :: 0 <= j < k < |plain| ==> Rank(plain[j]) < Rank(plain[k]))
            && (forall k :: 0 <= k < |plain| ==> Rank(plain[k]) < 3)
  {
  }

  lemma FrontAndBack(front: seq<Line>, back: seq<Line>)
    ensures (front + back)[|front|..] == back
    ensures forall k :: 0 <= k < |front| ==> (front + back)[k] == front[k]
  {
  }

  /** CPU, memory and storage have one line at most and come first in this order; then come the accelerator
      lines, in the order of the limits and of the names. */
  lemma AnswerInOrder(added: ResourceDetails, usage: ResourceDetails, replaced: ResourceDetails,
                      limits: ResourceDetails)
    returns (p: nat, origins: seq<Origin>)
    ensures var message := AnswerFor(limits, added, usage, replaced).message;
            && p <= |message|
            && (forall j, k :: 0 <= j < k < p ==> Rank(message[j]) < Rank(message[k]))
            && (forall k :: 0 <= k < p ==> Rank(message[k]) < 3)
            && LinesFrom(message[p..], origins, OrEmpty(limits.accelerators),
                         CalculatedTotals(added, usage, replaced))
  {
    var d := CalculatedDetails(added, usage, replaced);
    var plain := PlainLines(limits, d);
    p := |plain|;
    PlainLinesInOrder(limits, d);
    IndexOfCalculated(added, usage, replaced);
    origins := LinesInOrder(OrEmpty(limits.accelerators), CalculatedTotals(added, usage, replaced));
    FrontAndBack(plain, Lines(OrEmpty(limits.accelerators), CalculatedTotals(added, usage, replaced)));
  }

  lemma EmptyHasNoProviders(list: seq<AcceleratorQuota>)
    ensures list == [] <==> Names(Providers(list)) == {}
  {
    NonEmptyHasNames(Providers(list));
    assert |Providers(list)| == |list|;
  }

  lemma EmptyIffNoKeys<T, U>(m: map<T, U>)
    ensures m == map[] <==> m.Keys == {}
  {
  }

  lemma NothingRequestedIff(node: NodeTemplate, n: int, replaced: ResourceDetails, usage: ResourceDetails)
    requires node.Node?
    ensures CalculatedTotals(Replicated(node, n).value, usage, replaced) == map[]
            <==> OrEmpty(usage.accelerators) == [] && (n <= 0 || node.accelerators == map[])
  {
    var added := OrEmpty(Replicated(node, n).value.accelerators);
    var sums := AddAll(AddAll(map[], added), OrEmpty(usage.accelerators));
    AddedProviders(map[], added);
    AddedProviders(AddAll(map[], added), OrEmpty(usage.accelerators));
    SubtractingKeepsProviders(sums, OrEmpty(replaced.accelerators));
    EmptyHasNoProviders(added);
    EmptyHasNoProviders(OrEmpty(usage.accelerators));
    assert added == [] <==> TimesList(node.accelerators, n) == map[];
    if n > 0 { assert TimesList(node.accelerators, n).Keys == node.accelerators.Keys; }
    EmptyIffNoKeys(CalculatedTotals(Replicated(node, n).value, usage, replaced));
    EmptyIffNoKeys(TimesList(node.accelerators, n));
    EmptyIffNoKeys(node.accelerators);
  }

  lemma LinesOfAnswer(limits: ResourceDetails, d: ResourceDetails, t: Totals)
    requires Index(OrEmpty(d.accelerators)) == t
    ensures var list, message := OrEmpty(limits.accelerators), Message(limits, d);
            && (forall line :: line in message && line.Accelerator? ==>
                  exists i :: 0 <= i < |list| && IsLineOf(line, list[i], t))
            && (forall i, name :: 0 <= i < |list| && name in list[i].resources ==>
                  (Amount(t, list[i].provider, name) > list[i].resources[name].nano
                   <==> exists line :: line in message && line.Accelerator? && line.name == name
                                       && IsLineOf(line, list[i], t)))
  {
    var list, message := OrEmpty(limits.accelerators), Message(limits, d);
    AcceleratorLinesOfMessage(limits, d);
    forall line | line in message && line.Accelerator?
      ensures exists i :: 0 <= i < |list| && IsLineOf(line, list[i], t)
    {
      LinesAreExact(list, t, line);
    }
    forall i, name | 0 <= i < |list| && name in list[i].resources
      ensures Amount(t, list[i].provider, name) > list[i].resources[name].nano
              <==> exists line :: line in message && line.Accelerator? && line.name == name
                                  && IsLineOf(line, list[i], t)
    {
      var line := Accelerator(name, Calculated(ListOf(t, list[i].provider), name), list[i].resources[name]);
      LinesAreExact(list, t, line);
      if Amount(t, list[i].provider, name) > list[i].resources[name].nano {
        assert IsLineOf(line, list[i], t);
        assert line in message;
      }
    }
  }

  /** Accelerators of the answer: a sorted list whose amounts are the totals of the request.  It is nil when
      neither the usage nor the new nodes have an entry.  A limit has a line exactly when the total of its
      provider and resource exceeds it, with this total, and no other accelerator line is there. */
  lemma AcceleratorAnswer(node: NodeTemplate, n: int, replaced: Option<ReplacedResources>, usage: ResourceDetails,
                          limits: ResourceDetails)
    returns (list: seq<AcceleratorQuota>)
    requires node.Node? && NonNegativeNode(node) && NonNegativeAccelerators(usage)
    requires replaced.Some? ==> replaced.value.node.Node? && NonNegativeNode(replaced.value.node)
    ensures Ascending(Providers(list))
    ensures forall provider, name ::
              Amount(Index(list), provider, name) == RequestedTotal(node, n, replaced, usage, provider, name)
    ensures var answer := AnswerFor(limits, Replicated(node, n).value, usage, Deducted(replaced).value);
            && (if answer.calculated.accelerators.None? then list == []
                else TextsOf(answer.calculated.accelerators.value, list))
            && (answer.calculated.accelerators.None?
                <==> OrEmpty(usage.accelerators) == [] && (n <= 0 || node.accelerators == map[]))
            && (forall line :: line in answer.message && line.Accelerator? ==>
                  exists i :: 0 <= i < |OrEmpty(limits.accelerators)|
                              && IsLineOf(line, OrEmpty(limits.accelerators)[i], Index(list)))
            && (forall i, name :: 0 <= i < |OrEmpty(limits.accelerators)|
                                  && name in OrEmpty(limits.accelerators)[i].resources ==>
                  var limit := OrEmpty(limits.accelerators)[i];
                  (RequestedTotal(node, n, replaced, usage, limit.provider, name) > limit.resources[name].nano
                   <==> exists line :: line in answer.message && line.Accelerator? && line.name == name
                                       && IsLineOf(line, limit, Index(list))))
  {
    var added, less := Replicated(node, n).value, Deducted(replaced).value;
    var t, d := CalculatedTotals(added, usage, less), CalculatedDetails(added, usage, less);
    list := OrEmpty(d.accelerators);
    IndexOfLaidOut(t);
    ShownFields(d);
    forall provider, name
      ensures Amount(t, provider, name) == RequestedTotal(node, n, replaced, usage, provider, name)
    {
      RequestedAmount(node, n, replaced, usage, provider, name);
    }
    NothingRequestedIff(node, n, less, usage);
    LinesOfAnswer(limits, d, t);
  }

  // ----- replacing nodes by equal nodes -----

  lemma NetAmount(q: Quantity, more: Option<Quantity>, less: Quantity)
    ensures Nano(Less(More(Some(q), more), Some(less))) == q.nano + Nano(more) - less.nano
  {
  }

  lemma EqualNodesCancelIff(q: Quantity, n: int, usage: Option<Quantity>)
    ensures var all := Some(Times(q, n));
            Nano(Less(More(all, NormalisedOption(usage)), NormalisedOption(all))) == Nano(NormalisedOption(usage))
            <==> BinaryExponent(Print(Times(q, n))) == 0
  {
    MovedIff(Times(q, n));
    NetAmount(Times(q, n), NormalisedOption(usage), Normalised(Times(q, n)));
  }

  /** Replacing nodes by equal nodes previews the usage itself for CPU and accelerators, and for memory
      and storage if and only if the replicated amount is not printed with M, G or T: the new nodes are
      added as they are, the replaced ones are subtracted normalised. */
  lemma ReplacingByEqualNodes(node: NodeTemplate, n: int, usage: ResourceDetails, provider: string, name: string)
    requires node.Node? && NonNegativeNode(node)
    requires NonNegativeAccelerators(usage)
    ensures var same := Replicated(node, n).value;
            var d := CalculatedDetails(same, usage, same);
            && Nano(d.cpu) == Nano(usage.cpu)
            && (Nano(d.memory) == Nano(NormalisedOption(usage.memory))
                <==> BinaryExponent(Print(Times(node.memory, n))) == 0)
            && (Nano(d.storage) == Nano(NormalisedOption(usage.storage))
                <==> BinaryExponent(Print(Times(node.storage, n))) == 0)
    ensures Amount(CalculatedTotals(Replicated(node, n).value, usage, Replicated(node, n).value), provider, name)
         == Demand(OrEmpty(usage.accelerators), provider, name)
  {
    var same := Replicated(node, n).value;
    ReplicatedIsNonNegative(node, n);
    CalculatedAmount(same, usage, same, provider, name);
    DemandIsNonNegative(OrEmpty(usage.accelerators), provider, name);
    NetAmount(same.cpu.value, usage.cpu, same.cpu.value);
    EqualNodesCancelIff(node.memory, n, usage.memory);
    EqualNodesCancelIff(node.storage, n, usage.storage);
  }

  const SIXTY_FOUR_G: Quantity := Quantity(64 * Pow(1000, 6), DecimalSI)

  lemma SixtyFourG()
    ensures SIXTY_FOUR_G.nano == 64_000_000_000 * NANO
    ensures Print(SIXTY_FOUR_G) == Text(64, Decimal(6))
    ensures Normalised(SIXTY_FOUR_G) == Quantity(64 * GIB * NANO, BinarySI)
  {
    PowersOfThousand();
    PowersOf1024();
    StripIsUnique(64, 6, 1000);
  }

  /** A KubeVirt node whose memory is written 64G: with 128Gi in use, replacing one such node by one
      just like it previews 64G and 64Gi. */
  lemma ReplacingCanShift()
    ensures
      var node := Node(ZERO, SIXTY_FOUR_G, ZERO, map[]);
      var usage := ResourceDetails(None, Some(Quantity(128 * GIB * NANO, BinarySI)), None, None);
      CalculatedDetails(Replicated(node, 1).value, usage, Replicated(node, 1).value).memory
      == Some(Quantity((64_000_000_000 + 64 * GIB) * NANO, DecimalSI))
  {
    SixtyFourG();
    OnlyDecimalIsMoved(Quantity(128 * GIB * NANO, BinarySI));
  }

  lemma EmptyRequestIsReportedIff(limits: ResourceDetails, node: NodeTemplate)
    requires node.Node? && limits.memory.Some?
    ensures (exists line :: line in AnswerFor(limits, Replicated(node, 0).value, limits, NOTHING).message
                            && line.Memory?)
            <==> Normalised(limits.memory.value).nano > limits.memory.value.nano
  {
    var d := CalculatedDetails(Replicated(node, 0).value, limits, NOTHING);
    assert d.memory == Some(Plus(ZERO, Normalised(limits.memory.value)));
    if Over(d.memory, limits.memory) {
      PlainLinesIff(limits, d, Memory(d.memory.value, limits.memory.value));
    }
    forall line | line in Message(limits, d) && line.Memory? ensures Over(d.memory, limits.memory) {
      PlainLinesIff(limits, d, line);
    }
  }

  /** A project that uses exactly its limit is reported over it, for a request of no nodes at all, if
      and only if the limit prints with M, G or T and normalising raises it, that is, a positive limit
      has a product that fits and a negative one has a product that does not: the usage is normalised,
      the limit is not. */
  lemma UsageEqualToLimitIsReportedIff(limits: ResourceDetails, node: NodeTemplate)
    requires node.Node? && limits.memory.Some?
    ensures (exists line :: line in AnswerFor(limits, Replicated(node, 0).value, limits, NOTHING).message
                            && line.Memory?)
            <==> var limit := limits.memory.value;
                 BinaryExponent(Print(limit)) > 0 && (limit.nano > 0) == ProductFits(limit)
  {
    MovedIff(limits.memory.value);
    EmptyRequestIsReportedIff(limits, node);
  }

  /** A limit stored as 64G, which no PUT writes: usage of 64G is reported as 64Gi over 64G. */
  lemma UsageEqualToLimitIsReported(node: NodeTemplate)
    requires node.Node?
    ensures
      var limits := ResourceDetails(None, Some(SIXTY_FOUR_G), None, None);
      Memory(Quantity(64 * GIB * NANO, BinarySI), SIXTY_FOUR_G)
      in AnswerFor(limits, Replicated(node, 0).value, limits, NOTHING).message
  {
    SixtyFourG();
    var limits := ResourceDetails(None, Some(SIXTY_FOUR_G), None, None);
    PlainLinesIff(limits, CalculatedDetails(Replicated(node, 0).value, limits, NOTHING),
                  Memory(Quantity(64 * GIB * NANO, BinarySI), SIXTY_FOUR_G));
  }
}
