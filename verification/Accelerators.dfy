/** Accelerator accounting: totals per provider and resource, added to and subtracted from in place,
    laid out as a sorted list, and compared with the configured limits. */
module Accelerators {
  import opened Wrappers
  import opened Quantities
  import opened SortedNames
  import opened QuotaConversion

  type Totals = map<string, ResourceList>

  // ----- what the in-place updates compute -----

  function ListOf(t: Totals, provider: string): ResourceList
  {
    if provider in t then t[provider] else map[]
  }

  function Added(current: ResourceList, more: ResourceList, name: string): Quantity
    requires name in current || name in more
  {
    if name !in more then current[name]
    else if name in current then Plus(current[name], more[name])
    else more[name]
  }

  function AddList(current: ResourceList, more: ResourceList): ResourceList
  {
    map name | name in current.Keys + more.Keys :: Added(current, more, name)
  }

  function AddOne(t: Totals, a: AcceleratorQuota): Totals
  {
    t[a.provider := AddList(ListOf(t, a.provider), a.resources)]
  }

  function AddAll(t: Totals, list: seq<AcceleratorQuota>): Totals
    decreases list
  {
    if list == [] then t else AddAll(AddOne(t, list[0]), list[1..])
  }

  function SubtractList(current: ResourceList, less: ResourceList): ResourceList
  {
    map name | name in current ::
      if name in less then ClampAtZero(Minus(current[name], less[name])) else current[name]
  }

  function SubtractOne(t: Totals, a: AcceleratorQuota): Totals
  {
    if a.provider in t then t[a.provider := SubtractList(t[a.provider], a.resources)] else t
  }

  function SubtractAll(t: Totals, list: seq<AcceleratorQuota>): Totals
  {
    if list == [] then t else SubtractAll(SubtractOne(t, list[0]), list[1..])
  }

  function LayOut(providers: seq<string>, t: Totals): seq<AcceleratorQuota>
    requires forall i :: 0 <= i < |providers| ==> providers[i] in t
  {
    seq(|providers|, i requires 0 <= i < |providers| => AcceleratorQuota(providers[i], t[providers[i]]))
  }

  lemma AllNamed(providers: seq<string>, t: Totals)
    requires Names(providers) <= t.Keys
    ensures forall i :: 0 <= i < |providers| ==> providers[i] in t
  {
    assert forall i :: 0 <= i < |providers| ==> providers[i] in Names(providers);
  }

  function Providers(list: seq<AcceleratorQuota>): seq<string>
  {
    seq(|list|, i requires 0 <= i < |list| => list[i].provider)
  }

  ghost predicate IsLayout(list: seq<AcceleratorQuota>, t: Totals)
  {
    && Ascending(Providers(list))
    && Names(Providers(list)) == t.Keys
    && forall i :: 0 <= i < |list| ==> list[i].provider in t && list[i].resources == t[list[i].provider]
  }

  /** The sorted layout of totals. */
  ghost function Layout(t: Totals): (list: seq<AcceleratorQuota>)
    ensures IsLayout(list, t)
  {
    var providers := InOrder(t.Keys);
    AllNamed(providers, t);
    assert Providers(LayOut(providers, t)) == providers;
    LayOut(providers, t)
  }

  /** No list when there are no totals, else their layout. */
  ghost function LaidOut(t: Totals): Option<seq<AcceleratorQuota>>
  {
    if t == map[] then None else Some(Layout(t))
  }

  // ----- resource lists on the heap -----

  /** A resource list by reference: everyone who holds it sees its changes. */
  class ResourceMap {
    var entries: ResourceList

    constructor (entries: ResourceList)
      ensures this.entries == entries
    {
      this.entries := entries;
    }
  }

  /** An accelerator quota as the handlers pass it around; a nil resource list has no entries. */
  datatype AcceleratorRef = AcceleratorRef(provider: string, resources: ResourceMap)

  function Maps(list: seq<AcceleratorRef>): set<ResourceMap>
  {
    set a | a in list :: a.resources
  }

  function NamedBy(list: seq<AcceleratorRef>): seq<string>
  {
    seq(|list|, i requires 0 <= i < |list| => list[i].provider)
  }

  /** What a list says at present. */
  function Contents(list: seq<AcceleratorRef>): seq<AcceleratorQuota>
    reads Maps(list)
  {
    seq(|list|, i requires 0 <= i < |list| reads Maps(list) =>
      AcceleratorQuota(list[i].provider, list[i].resources.entries))
  }

  function OptionalMaps(list: Option<seq<AcceleratorRef>>): set<ResourceMap>
  {
    if list.None? then {} else Maps(list.value)
  }

  function OptionalContents(list: Option<seq<AcceleratorRef>>): Option<seq<AcceleratorQuota>>
    reads OptionalMaps(list)
  {
    if list.None? then None else Some(Contents(list.value))
  }

  /** Resource details as the handlers pass them around. */
  datatype Details = Details(
    cpu: Option<Quantity>,
    memory: Option<Quantity>,
    storage: Option<Quantity>,
    accelerators: Option<seq<AcceleratorRef>>)

  function MapsOf(d: Details): set<ResourceMap>
  {
    OptionalMaps(d.accelerators)
  }

  /** What resource details say at present. */
  function Values(d: Details): ResourceDetails
    reads MapsOf(d)
  {
    ResourceDetails(d.cpu, d.memory, d.storage, OptionalContents(d.accelerators))
  }

  /** Details say the same as long as their resource lists do. */
  twostate lemma ValuesStay(d: Details)
    requires forall m :: m in MapsOf(d) ==> m.entries == old(m.entries)
    ensures Values(d) == old(Values(d))
  {
    if d.accelerators.Some? {
      assert Contents(d.accelerators.value) == old(Contents(d.accelerators.value));
    }
  }

  // ----- the in-place updates -----

  /** Where the addition stands when the names in `rest` are still to come. */
  ghost predicate PartlyAdded(sums: ResourceList, current: ResourceList, more: ResourceList, rest: set<string>)
  {
    && (forall name :: name in sums <==> name in current || (name in more && name !in rest))
    && (forall name :: name in sums ==>
          sums[name] == if name in rest then current[name] else Added(current, more, name))
  }

  lemma FullyAdded(sums: ResourceList, current: ResourceList, more: ResourceList)
    requires PartlyAdded(sums, current, more, {})
    ensures sums == AddList(current, more)
  {
    var all := AddList(current, more);
    assert sums.Keys == all.Keys;
    forall name | name in all ensures sums[name] == all[name] {
    }
  }

  /** The inner loop of addition; map entries come in no particular order. */
  method AddInto(resources: ResourceMap, more: ResourceMap)
    requires resources != more
    modifies resources
    ensures resources.entries == AddList(old(resources.entries), more.entries)
  {
    var rest := more.entries.Keys;
    while rest != {}
      invariant rest <= more.entries.Keys
      invariant PartlyAdded(resources.entries, old(resources.entries), more.entries, rest)
      decreases |rest|
    {
      var name :| name in rest;
      var quantity := more.entries[name];
      if name in resources.entries {
        quantity := Plus(resources.entries[name], quantity);
      }
      resources.entries := resources.entries[name := quantity];
      rest := rest - {name};
    }
    FullyAdded(resources.entries, old(resources.entries), more.entries);
  }

  /** The inner loop of subtraction. */
  method SubtractFrom(resources: ResourceMap, less: ResourceMap)
    requires resources != less
    modifies resources
    ensures resources.entries == SubtractList(old(resources.entries), less.entries)
  {
    ghost var current := resources.entries;
    var rest := less.entries.Keys;
    while rest != {}
      invariant rest <= less.entries.Keys
      invariant resources.entries.Keys == current.Keys
      invariant forall name :: name in current ==>
        resources.entries[name] == if name in rest then current[name] else SubtractList(current, less.entries)[name]
      decreases |rest|
    {
      var name :| name in rest;
      if name in resources.entries {
        var quantity := Minus(resources.entries[name], less.entries[name]);
        if quantity.nano < 0 {
          quantity := quantity.(nano := 0);
        }
        resources.entries := resources.entries[name := quantity];
      }
      rest := rest - {name};
    }
  }

  /** Totals have one layout. */
  lemma LayoutIsUnique(list: seq<AcceleratorQuota>, t: Totals)
    requires IsLayout(list, t)
    ensures list == Layout(t)
  {
    AscendingIsUnique(Providers(list), Providers(Layout(t)));
    assert |list| == |Providers(list)| == |Layout(t)|;
    forall i | 0 <= i < |list| ensures list[i] == Layout(t)[i] {
      assert Providers(list)[i] == Providers(Layout(t))[i];
    }
  }

  /** The nested map of totals that the handlers fill: every provider has a resource list of its own,
      made by this object. */
  class AcceleratorTotals {
    var totals: map<string, ResourceMap>

    ghost predicate Valid()
      reads this
    {
      forall p, q :: p in totals && q in totals && totals[p] == totals[q] ==> p == q
    }

    ghost function Own(): set<ResourceMap>
      reads this
    {
      totals.Values
    }

    /** The totals at present. */
    ghost function Sums(): Totals
      reads this, Own()
    {
      map p | p in totals :: totals[p].entries
    }

    constructor ()
      ensures Valid() && Own() == {} && Sums() == map[]
    {
      totals := map[];
    }

    /** Adds one entry, in place; only lists that the totals own change. */
    method AddEntry(accelerator: AcceleratorRef)
      requires Valid() && accelerator.resources !in Own()
      modifies this, Own()
      ensures Valid() && fresh(Own() - old(Own())) && accelerator.resources !in Own()
      ensures Sums() == AddOne(old(Sums()), AcceleratorQuota(accelerator.provider, accelerator.resources.entries))
    {
      if accelerator.provider !in totals {
        var resources := new ResourceMap(map[]);
        totals := totals[accelerator.provider := resources];
      }
      AddInto(totals[accelerator.provider], accelerator.resources);
    }

    /** Adds a list.  The list keeps its contents and none of its resource lists gets into the totals. */
    method Add(accelerators: seq<AcceleratorRef>)
      requires Valid() && Own() !! Maps(accelerators)
      modifies this, Own()
      ensures Valid() && fresh(Own() - old(Own())) && Own() !! Maps(accelerators)
      ensures Contents(accelerators) == old(Contents(accelerators))
      ensures Sums() == AddAll(old(Sums()), old(Contents(accelerators)))
    {
      ghost var list := Contents(accelerators);
      var i := 0;
      assert list[0..] == list;
      while i < |accelerators|
        invariant 0 <= i <= |accelerators|
        invariant Valid() && fresh(Own() - old(Own())) && Own() !! Maps(accelerators)
        invariant Contents(accelerators) == list
        invariant AddAll(Sums(), list[i..]) == AddAll(old(Sums()), list)
      {
        assert accelerators[i].resources in Maps(accelerators);
        assert list[i] == AcceleratorQuota(accelerators[i].provider, accelerators[i].resources.entries);
        AddEntry(accelerators[i]);
        assert list[i..][1..] == list[i + 1..];
        i := i + 1;
      }
    }

    /** Subtracts one entry, in place; a provider without totals is passed over. */
    method SubtractEntry(accelerator: AcceleratorRef)
      requires Valid() && accelerator.resources !in Own()
      modifies Own()
      ensures totals == old(totals)
      ensures Sums() == SubtractOne(old(Sums()), AcceleratorQuota(accelerator.provider, accelerator.resources.entries))
    {
      if accelerator.provider in totals {
        SubtractFrom(totals[accelerator.provider], accelerator.resources);
      }
    }

    /** Subtracts a list.  The list keeps its contents, and the totals keep their resource lists. */
    method Subtract(accelerators: seq<AcceleratorRef>)
      requires Valid() && Own() !! Maps(accelerators)
      modifies Own()
      ensures Valid() && totals == old(totals)
      ensures Contents(accelerators) == old(Contents(accelerators))
      ensures Sums() == SubtractAll(old(Sums()), old(Contents(accelerators)))
    {
      ghost var list := Contents(accelerators);
      var i := 0;
      assert list[0..] == list;
      while i < |accelerators|
        invariant 0 <= i <= |accelerators|
        invariant Contents(accelerators) == list
        invariant SubtractAll(Sums(), list[i..]) == SubtractAll(old(Sums()), list)
      {
        assert accelerators[i].resources in Maps(accelerators);
        assert list[i] == AcceleratorQuota(accelerators[i].provider, accelerators[i].resources.entries);
        SubtractEntry(accelerators[i]);
        assert list[i..][1..] == list[i + 1..];
        i := i + 1;
      }
    }

    /** The list names every provider of the totals in order and refers to its own resource list. */
    ghost predicate Shares(list: seq<AcceleratorRef>)
      reads this
    {
      && NamedBy(list) == InOrder(totals.Keys)
      && forall i :: 0 <= i < |list| ==>
           list[i].provider in totals && list[i].resources == totals[list[i].provider]
    }

    method ReferAll() returns (accelerators: seq<AcceleratorRef>)
      ensures Shares(accelerators)
    {
      var providers := SortedKeys(totals.Keys);
      assert forall i :: 0 <= i < |providers| ==> providers[i] in Names(providers);
      accelerators := [];
      var i := 0;
      while i < |providers|
        invariant 0 <= i <= |providers| && |accelerators| == i
        invariant forall j :: 0 <= j < i ==>
          accelerators[j].provider == providers[j] && accelerators[j].resources == totals[providers[j]]
      {
        accelerators := accelerators + [AcceleratorRef(providers[i], totals[providers[i]])];
        i := i + 1;
      }
      assert NamedBy(accelerators) == providers;
    }

    lemma SharedContents(list: seq<AcceleratorRef>)
      requires Shares(list)
      ensures Contents(list) == Layout(Sums())
    {
      var contents, t := Contents(list), Sums();
      assert t.Keys == totals.Keys;
      assert Providers(contents) == NamedBy(list);
      LayoutIsUnique(contents, t);
    }

    lemma SharedMaps(list: seq<AcceleratorRef>)
      requires Shares(list)
      ensures Maps(list) == Own()
    {
      forall m | m in Own() ensures m in Maps(list) {
        var p :| p in totals && totals[p] == m;
        MemberIsName(p, NamedBy(list));
        var j :| 0 <= j < |list| && NamedBy(list)[j] == p;
        assert list[j] in list;
      }
    }

    /** A nil list when there are no totals.  The list shares its resource lists with the totals, so it
        shows what is added or subtracted later. */
    method ToQuotas() returns (r: Option<seq<AcceleratorRef>>)
      ensures OptionalContents(r) == LaidOut(Sums())
      ensures r.Some? ==> forall a :: a in r.value ==> a.provider in totals && a.resources == totals[a.provider]
      ensures OptionalMaps(r) == Own()
    {
      assert Sums().Keys == totals.Keys;
      if totals == map[] {
        return None;
      }
      var accelerators := ReferAll();
      SharedContents(accelerators);
      SharedMaps(accelerators);
      return Some(accelerators);
    }
  }

  // ----- amounts -----

  predicate Has(t: Totals, provider: string, name: string)
  {
    provider in t && name in t[provider]
  }

  function Amount(t: Totals, provider: string, name: string): int
  {
    if Has(t, provider, name) then t[provider][name].nano else 0
  }

  /** What a list asks for in all, over every entry of the provider. */
  function Demand(list: seq<AcceleratorQuota>, provider: string, name: string): int
  {
    if list == [] then 0
    else
      (if list[0].provider == provider && name in list[0].resources then list[0].resources[name].nano else 0)
      + Demand(list[1..], provider, name)
  }

  predicate Mentions(list: seq<AcceleratorQuota>, provider: string, name: string)
  {
    exists i :: 0 <= i < |list| && list[i].provider == provider && name in list[i].resources
  }

  predicate NonNegativeList(list: seq<AcceleratorQuota>)
  {
    forall i, name :: 0 <= i < |list| && name in list[i].resources ==> list[i].resources[name].nano >= 0
  }

  ghost predicate NonNegativeTotals(t: Totals)
  {
    forall provider, name :: Has(t, provider, name) ==> t[provider][name].nano >= 0
  }

  /** The same keys with the same amounts; formats may differ. */
  ghost predicate SameAmounts(t: Totals, u: Totals)
  {
    && t.Keys == u.Keys
    && forall provider, name :: (Has(t, provider, name) <==> Has(u, provider, name))
                                && Amount(t, provider, name) == Amount(u, provider, name)
  }

  lemma MentionsSplits(list: seq<AcceleratorQuota>, provider: string, name: string)
    requires list != []
    ensures Mentions(list, provider, name) <==>
            (list[0].provider == provider && name in list[0].resources) || Mentions(list[1..], provider, name)
  {
    if Mentions(list[1..], provider, name) {
      var i :| 0 <= i < |list[1..]| && list[1..][i].provider == provider && name in list[1..][i].resources;
      assert list[i + 1] == list[1..][i];
    }
    if i :| 1 <= i < |list| && list[i].provider == provider && name in list[i].resources {
      assert list[1..][i - 1] == list[i];
    }
  }

  /** Adding a list adds up every entry, and creates exactly the keys it mentions. */
  lemma {:induction false} AddedAmounts(t: Totals, list: seq<AcceleratorQuota>, provider: string, name: string)
    ensures Amount(AddAll(t, list), provider, name) == Amount(t, provider, name) + Demand(list, provider, name)
    ensures Has(AddAll(t, list), provider, name) <==> Has(t, provider, name) || Mentions(list, provider, name)
    decreases list
  {
    if list != [] {
      AddedAmounts(AddOne(t, list[0]), list[1..], provider, name);
      MentionsSplits(list, provider, name);
    }
  }

  lemma {:induction false} AddedProviders(t: Totals, list: seq<AcceleratorQuota>)
    ensures AddAll(t, list).Keys == t.Keys + Names(Providers(list))
    decreases list
  {
    if list != [] {
      AddedProviders(AddOne(t, list[0]), list[1..]);
      assert Providers(list) == [list[0].provider] + Providers(list[1..]);
      NamesOfCons(list[0].provider, Providers(list[1..]));
    }
  }

  lemma {:induction false} AddAllAppends(t: Totals, a: seq<AcceleratorQuota>, b: seq<AcceleratorQuota>)
    ensures AddAll(t, a + b) == AddAll(AddAll(t, a), b)
    decreases a
  {
    if a == [] {
      assert a + b == b;
    } else {
      assert (a + b)[1..] == a[1..] + b;
      AddAllAppends(AddOne(t, a[0]), a[1..], b);
    }
  }

  lemma SubtractOneIsNonNegative(t: Totals, a: AcceleratorQuota)
    requires NonNegativeTotals(t)
    ensures NonNegativeTotals(SubtractOne(t, a))
    ensures SubtractOne(t, a).Keys == t.Keys
  {
  }

  lemma {:induction false} DemandIsNonNegative(list: seq<AcceleratorQuota>, provider: string, name: string)
    requires NonNegativeList(list)
    ensures Demand(list, provider, name) >= 0
  {
    if list != [] {
      assert NonNegativeList(list[1..]);
      assert name in list[0].resources ==> list[0].resources[name].nano >= 0;
      DemandIsNonNegative(list[1..], provider, name);
    }
  }

  /** Clamping after every entry is the same as subtracting everything and clamping once, and no key
      is added or removed. */
  lemma {:induction false} SubtractedAmounts(t: Totals, list: seq<AcceleratorQuota>, provider: string, name: string)
    requires NonNegativeTotals(t) && NonNegativeList(list)
    ensures Has(SubtractAll(t, list), provider, name) <==> Has(t, provider, name)
    ensures Amount(SubtractAll(t, list), provider, name)
         == if Has(t, provider, name) then Max(0, Amount(t, provider, name) - Demand(list, provider, name)) else 0
  {
    if list == [] {
    } else {
      SubtractOneIsNonNegative(t, list[0]);
      assert NonNegativeList(list[1..]);
      DemandIsNonNegative(list[1..], provider, name);
      SubtractedAmounts(SubtractOne(t, list[0]), list[1..], provider, name);
      assert name in list[0].resources ==> list[0].resources[name].nano >= 0;
    }
  }

  lemma {:induction false} SubtractingKeepsProviders(t: Totals, list: seq<AcceleratorQuota>)
    ensures SubtractAll(t, list).Keys == t.Keys
  {
    if list != [] { SubtractingKeepsProviders(SubtractOne(t, list[0]), list[1..]); }
  }

  lemma AddedTotalsAreNonNegative(t: Totals, list: seq<AcceleratorQuota>)
    requires NonNegativeTotals(t) && NonNegativeList(list)
    ensures NonNegativeTotals(AddAll(t, list))
  {
    forall provider, name | Has(AddAll(t, list), provider, name)
      ensures AddAll(t, list)[provider][name].nano >= 0
    {
      AddedAmounts(t, list, provider, name);
      DemandIsNonNegative(list, provider, name);
    }
  }

  /** Subtracting what was just added gives the old amounts back, with 0 on the new keys. */
  lemma AddThenSubtract(t: Totals, list: seq<AcceleratorQuota>, provider: string, name: string)
    requires NonNegativeTotals(t) && NonNegativeList(list)
    ensures var back := SubtractAll(AddAll(t, list), list);
            && (Has(back, provider, name) <==> Has(t, provider, name) || Mentions(list, provider, name))
            && Amount(back, provider, name) == Amount(t, provider, name)
  {
    AddedTotalsAreNonNegative(t, list);
    AddedAmounts(t, list, provider, name);
    SubtractedAmounts(AddAll(t, list), list, provider, name);
  }

  // ----- list order -----

  lemma {:induction false} DemandAppends(a: seq<AcceleratorQuota>, b: seq<AcceleratorQuota>, provider: string,
                                         name: string)
    ensures Demand(a + b, provider, name) == Demand(a, provider, name) + Demand(b, provider, name)
  {
    if a == [] {
      assert a + b == b;
    } else {
      assert (a + b)[1..] == a[1..] + b;
      DemandAppends(a[1..], b, provider, name);
    }
  }

  lemma WithoutOne<T>(a: seq<T>, i: nat)
    requires i < |a|
    ensures multiset(a[..i] + a[i + 1..]) == multiset(a) - multiset{a[i]}
  {
    assert a == a[..i] + [a[i]] + a[i + 1..];
  }

  /** Where the head of a list stands in a reordering of it. */
  lemma IndexOf<T>(a: seq<T>, b: seq<T>) returns (i: nat)
    requires a != [] && multiset(a) == multiset(b)
    ensures i < |b| && b[i] == a[0] && multiset(a[1..]) == multiset(b[..i] + b[i + 1..])
  {
    assert a[0] in multiset(a);
    assert a[0] in multiset(b);
    i :| 0 <= i < |b| && b[i] == a[0];
    WithoutOne(a, 0);
    WithoutOne(b, i);
    assert a[..0] + a[1..] == a[1..];
  }

  lemma {:induction false} DemandIgnoresOrder(a: seq<AcceleratorQuota>, b: seq<AcceleratorQuota>, provider: string,
                                              name: string)
    requires multiset(a) == multiset(b)
    ensures Demand(a, provider, name) == Demand(b, provider, name)
  {
    if a == [] {
      assert |multiset(b)| == 0;
    } else {
      var i := IndexOf(a, b);
      assert b == b[..i] + ([b[i]] + b[i + 1..]);
      DemandAppends(b[..i], [b[i]] + b[i + 1..], provider, name);
      DemandAppends(b[..i], b[i + 1..], provider, name);
      assert ([b[i]] + b[i + 1..])[1..] == b[i + 1..];
      DemandIgnoresOrder(a[1..], b[..i] + b[i + 1..], provider, name);
    }
  }

  lemma SameMentions(a: seq<AcceleratorQuota>, b: seq<AcceleratorQuota>, provider: string, name: string)
    requires multiset(a) == multiset(b)
    ensures Mentions(a, provider, name) ==> Mentions(b, provider, name)
  {
    if i :| 0 <= i < |a| && a[i].provider == provider && name in a[i].resources {
      assert a[i] in multiset(b);
      var j :| 0 <= j < |b| && b[j] == a[i];
    }
  }

  lemma SumAt(t: Totals, a: seq<AcceleratorQuota>, b: seq<AcceleratorQuota>, provider: string, name: string)
    requires multiset(a) == multiset(b)
    ensures Has(AddAll(t, a), provider, name) <==> Has(AddAll(t, b), provider, name)
    ensures Amount(AddAll(t, a), provider, name) == Amount(AddAll(t, b), provider, name)
  {
    AddedAmounts(t, a, provider, name);
    AddedAmounts(t, b, provider, name);
    DemandIgnoresOrder(a, b, provider, name);
    SameMentions(a, b, provider, name);
    SameMentions(b, a, provider, name);
  }

  lemma ProviderMoves(a: seq<AcceleratorQuota>, b: seq<AcceleratorQuota>, x: string)
    requires multiset(a) == multiset(b)
    ensures x in Names(Providers(a)) ==> x in Names(Providers(b))
  {
    if x in Names(Providers(a)) {
      var i :| 0 <= i < |Providers(a)| && Providers(a)[i] == x;
      assert a[i] in multiset(b);
      var j :| 0 <= j < |b| && b[j] == a[i];
      assert Providers(b)[j] == x;
    }
  }

  lemma SameProviders(a: seq<AcceleratorQuota>, b: seq<AcceleratorQuota>)
    requires multiset(a) == multiset(b)
    ensures Names(Providers(a)) == Names(Providers(b))
  {
    forall x ensures x in Names(Providers(a)) <==> x in Names(Providers(b)) {
      ProviderMoves(a, b, x);
      ProviderMoves(b, a, x);
    }
  }

  /** Neither sums nor clamped differences depend on the order of the list. */
  lemma SumsIgnoreOrder(t: Totals, a: seq<AcceleratorQuota>, b: seq<AcceleratorQuota>)
    requires multiset(a) == multiset(b)
    ensures SameAmounts(AddAll(t, a), AddAll(t, b))
  {
    var x, y := AddAll(t, a), AddAll(t, b);
    AddedProviders(t, a);
    AddedProviders(t, b);
    SameProviders(a, b);
    forall provider, name
      ensures Has(x, provider, name) <==> Has(y, provider, name)
      ensures Amount(x, provider, name) == Amount(y, provider, name)
    {
      SumAt(t, a, b, provider, name);
    }
  }

  /** The clamped difference as a function of the demand. */
  lemma DifferenceFor(t: Totals, list: seq<AcceleratorQuota>, provider: string, name: string, demand: int)
    requires NonNegativeTotals(t) && NonNegativeList(list) && Demand(list, provider, name) == demand
    ensures Has(SubtractAll(t, list), provider, name) <==> Has(t, provider, name)
    ensures Amount(SubtractAll(t, list), provider, name)
         == if Has(t, provider, name) then Max(0, Amount(t, provider, name) - demand) else 0
  {
    SubtractedAmounts(t, list, provider, name);
  }

  lemma DifferenceAt(t: Totals, a: seq<AcceleratorQuota>, b: seq<AcceleratorQuota>, provider: string, name: string)
    requires multiset(a) == multiset(b)
    requires NonNegativeTotals(t) && NonNegativeList(a) && NonNegativeList(b)
    ensures Has(SubtractAll(t, a), provider, name) <==> Has(SubtractAll(t, b), provider, name)
    ensures Amount(SubtractAll(t, a), provider, name) == Amount(SubtractAll(t, b), provider, name)
  {
    DemandIgnoresOrder(a, b, provider, name);
    DifferenceFor(t, a, provider, name, Demand(a, provider, name));
    DifferenceFor(t, b, provider, name, Demand(a, provider, name));
  }

  lemma SameSigns(a: seq<AcceleratorQuota>, b: seq<AcceleratorQuota>)
    requires multiset(a) == multiset(b) && NonNegativeList(a)
    ensures NonNegativeList(b)
  {
    forall j, name | 0 <= j < |b| && name in b[j].resources ensures b[j].resources[name].nano >= 0 {
      assert b[j] in multiset(a);
      var i :| 0 <= i < |a| && a[i] == b[j];
    }
  }

  lemma DifferencesIgnoreOrder(t: Totals, a: seq<AcceleratorQuota>, b: seq<AcceleratorQuota>)
    requires multiset(a) == multiset(b)
    requires NonNegativeTotals(t) && NonNegativeList(a)
    ensures SameAmounts(SubtractAll(t, a), SubtractAll(t, b))
  {
    var x, y := SubtractAll(t, a), SubtractAll(t, b);
    SubtractingKeepsProviders(t, a);
    SubtractingKeepsProviders(t, b);
    SameSigns(a, b);
    forall provider, name
      ensures Has(x, provider, name) <==> Has(y, provider, name)
      ensures Amount(x, provider, name) == Amount(y, provider, name)
    {
      DifferenceAt(t, a, b, provider, name);
    }
  }

  // ----- the sorted layout -----

  lemma {:induction false} RebuildFrom(done: Totals, list: seq<AcceleratorQuota>, t: Totals)
    requires Ascending(Providers(list))
    requires done.Keys !! Names(Providers(list)) && done.Keys + Names(Providers(list)) == t.Keys
    requires forall p :: p in done ==> done[p] == t[p]
    requires forall i :: 0 <= i < |list| ==> list[i].provider in t && list[i].resources == t[list[i].provider]
    ensures AddAll(done, list) == t
    decreases list
  {
    if list != [] {
      assert Providers(list)[1..] == Providers(list[1..]);
      NamesOfTail(Providers(list));
      assert list[0].provider in Names(Providers(list)) by { assert Providers(list)[0] == list[0].provider; }
      assert AddList(map[], list[0].resources) == list[0].resources;
      RebuildFrom(AddOne(done, list[0]), list[1..], t);
    }
  }

  /** Adding a layout to nothing rebuilds the totals exactly, formats included. */
  lemma LayoutRebuildsTotals(t: Totals)
    ensures AddAll(map[], Layout(t)) == t
  {
    RebuildFrom(map[], Layout(t), t);
  }

  /** Adding up and laying out a second time changes nothing. */
  lemma LayingOutAgain(list: seq<AcceleratorQuota>)
    ensures Layout(AddAll(map[], Layout(AddAll(map[], list)))) == Layout(AddAll(map[], list))
  {
    LayoutRebuildsTotals(AddAll(map[], list));
  }

  // ----- the check against the limits -----

  /** A line of the message: the resource, the calculated amount and the limit. */
  datatype Line =
    | Cpu(calculated: Quantity, limit: Quantity)
    | Memory(calculated: Quantity, limit: Quantity)
    | Storage(calculated: Quantity, limit: Quantity)
    | Accelerator(name: string, calculated: Quantity, limit: Quantity)

  /** The index the comparison builds: a later entry of a provider replaces an earlier one. */
  function Index(list: seq<AcceleratorQuota>): Totals
  {
    if list == [] then map[]
    else
      var last := list[|list| - 1];
      Index(list[..|list| - 1])[last.provider := last.resources]
  }

  function Calculated(resources: ResourceList, name: string): Quantity
  {
    if name in resources then resources[name] else ZERO
  }

  function LineFor(name: string, limits: ResourceList, calculated: ResourceList): seq<Line>
    requires name in limits
  {
    var c := Calculated(calculated, name);
    if c.nano > limits[name].nano then [Accelerator(name, c, limits[name])] else []
  }

  function LinesOf(names: seq<string>, limits: ResourceList, calculated: ResourceList): seq<Line>
    requires forall i :: 0 <= i < |names| ==> names[i] in limits
  {
    if names == [] then []
    else LinesOf(names[..|names| - 1], limits, calculated) + LineFor(names[|names| - 1], limits, calculated)
  }

  lemma LinesOfOneMore(names: seq<string>, i: nat, limits: ResourceList, calculated: ResourceList)
    requires i < |names| && forall j :: 0 <= j < |names| ==> names[j] in limits
    ensures LinesOf(names[..i + 1], limits, calculated)
         == LinesOf(names[..i], limits, calculated) + LineFor(names[i], limits, calculated)
  {
    assert names[..i + 1][..i] == names[..i];
  }

  ghost function LinesOfLimit(limit: AcceleratorQuota, index: Totals): seq<Line>
  {
    var names := InOrder(limit.resources.Keys);
    assert forall i :: 0 <= i < |names| ==> names[i] in Names(names);
    LinesOf(names, limit.resources, ListOf(index, limit.provider))
  }

  ghost function Lines(limits: seq<AcceleratorQuota>, index: Totals): seq<Line>
  {
    if limits == [] then [] else Lines(limits[..|limits| - 1], index) + LinesOfLimit(limits[|limits| - 1], index)
  }

  method IndexByProvider(calculated: seq<AcceleratorQuota>) returns (index: Totals)
    ensures index == Index(calculated)
  {
    index := map[];
    var i := 0;
    while i < |calculated|
      invariant 0 <= i <= |calculated|
      invariant index == Index(calculated[..i])
    {
      index := index[calculated[i].provider := calculated[i].resources];
      assert calculated[..i + 1][..i] == calculated[..i];
      i := i + 1;
    }
    assert calculated[..i] == calculated;
  }

  method LinesOfNames(names: seq<string>, limits: ResourceList, calculated: ResourceList) returns (msg: seq<Line>)
    requires forall i :: 0 <= i < |names| ==> names[i] in limits
    ensures msg == LinesOf(names, limits, calculated)
  {
    msg := [];
    var i := 0;
    while i < |names|
      invariant 0 <= i <= |names|
      invariant msg == LinesOf(names[..i], limits, calculated)
    {
      LinesOfOneMore(names, i, limits, calculated);
      var limitQuantity := limits[names[i]];
      var calculatedQuantity := Calculated(calculated, names[i]);
      if calculatedQuantity.nano > limitQuantity.nano {
        msg := msg + [Accelerator(names[i], calculatedQuantity, limitQuantity)];
      }
      i := i + 1;
    }
    assert names[..i] == names;
  }

  /** The lines of one limit, by resource name. */
  method LimitLines(limit: AcceleratorQuota, index: Totals) returns (msg: seq<Line>)
    ensures msg == LinesOfLimit(limit, index)
  {
    var names := SortedKeys(limit.resources.Keys);
    assert forall i :: 0 <= i < |names| ==> names[i] in Names(names);
    msg := LinesOfNames(names, limit.resources, ListOf(index, limit.provider));
  }

  method AcceleratorExceedsQuotaMessage(limits: seq<AcceleratorQuota>, calculated: seq<AcceleratorQuota>)
    returns (msg: seq<Line>)
    ensures msg == Lines(limits, Index(calculated))
  {
    var calculatedByProvider := IndexByProvider(calculated);
    msg := [];
    var i := 0;
    while i < |limits|
      invariant 0 <= i <= |limits|
      invariant msg == Lines(limits[..i], calculatedByProvider)
    {
      var lines := LimitLines(limits[i], calculatedByProvider);
      assert limits[..i + 1][..i] == limits[..i];
      msg := msg + lines;
      i := i + 1;
    }
    assert limits[..i] == limits;
  }

  lemma {:induction false} LinesOfAreExact(names: seq<string>, limits: ResourceList, calculated: ResourceList,
                                           line: Line)
    requires forall i :: 0 <= i < |names| ==> names[i] in limits
    ensures line in LinesOf(names, limits, calculated)
            <==> line.Accelerator? && line.name in names && line in LineFor(line.name, limits, calculated)
  {
    if names != [] {
      var n := |names| - 1;
      LinesOfAreExact(names[..n], limits, calculated, line);
      assert names == names[..n] + [names[n]];
    }
  }

  predicate IsLineOf(line: Line, limit: AcceleratorQuota, index: Totals)
  {
    && line.Accelerator?
    && line.name in limit.resources
    && line.limit == limit.resources[line.name]
    && line.calculated == Calculated(ListOf(index, limit.provider), line.name)
    && line.calculated.nano > line.limit.nano
  }

  lemma LinesOfLimitAreExact(limit: AcceleratorQuota, index: Totals, line: Line)
    ensures line in LinesOfLimit(limit, index) <==> IsLineOf(line, limit, index)
  {
    var names := InOrder(limit.resources.Keys);
    assert forall i :: 0 <= i < |names| ==> names[i] in Names(names);
    LinesOfAreExact(names, limit.resources, ListOf(index, limit.provider), line);
    if line.Accelerator? {
      MemberIsName(line.name, names);
      assert line.name in names <==> line.name in limit.resources;
      assert line.name in limit.resources ==>
          (line in LineFor(line.name, limit.resources, ListOf(index, limit.provider))
           <==> IsLineOf(line, limit, index));
    }
  }

  lemma LineOfOneMore(limits: seq<AcceleratorQuota>, index: Totals, line: Line)
    requires limits != []
    ensures var fewer := limits[..|limits| - 1];
            (exists i :: 0 <= i < |limits| && IsLineOf(line, limits[i], index))
            <==> (exists i :: 0 <= i < |fewer| && IsLineOf(line, fewer[i], index))
                 || IsLineOf(line, limits[|limits| - 1], index)
  {
    var fewer := limits[..|limits| - 1];
    assert forall i :: 0 <= i < |fewer| ==> fewer[i] == limits[i];
  }

  /** The message has exactly the lines of the configured limits that are below the indexed amount;
      an amount that is not there counts as zero, a resource without a limit is never reported. */
  lemma {:induction false} LinesAreExact(limits: seq<AcceleratorQuota>, index: Totals, line: Line)
    ensures line in Lines(limits, index)
            <==> exists i :: 0 <= i < |limits| && IsLineOf(line, limits[i], index)
  {
    if limits != [] {
      var last := |limits| - 1;
      LinesOfLimitAreExact(limits[last], index, line);
      LinesAreExact(limits[..last], index, line);
      LineOfOneMore(limits, index, line);
      assert line in Lines(limits, index)
             <==> line in Lines(limits[..last], index) || line in LinesOfLimit(limits[last], index);
    }
  }

  /** Where a line comes from: the position of a limit and a resource name. */
  datatype Origin = Origin(limit: nat, name: string)

  /** By the position of the limit, and for one limit by name. */
  predicate Earlier(a: Origin, b: Origin)
  {
    a.limit < b.limit || (a.limit == b.limit && Before(a.name, b.name))
  }

  /** The lines are those of the given origins, one line for each, in the order of the origins. */
  ghost predicate LinesFrom(lines: seq<Line>, origins: seq<Origin>, limits: seq<AcceleratorQuota>, index: Totals)
  {
    && |lines| == |origins|
    && (forall k :: 0 <= k < |origins| ==>
          && origins[k].limit < |limits|
          && IsLineOf(lines[k], limits[origins[k].limit], index)
          && lines[k].name == origins[k].name)
    && (forall j, k :: 0 <= j < k < |origins| ==> Earlier(origins[j], origins[k]))
  }

  lemma OriginsAppend(a: seq<Line>, x: seq<Origin>, b: seq<Line>, y: seq<Origin>, limits: seq<AcceleratorQuota>,
                      index: Totals)
    requires LinesFrom(a, x, limits, index) && LinesFrom(b, y, limits, index)
    requires forall j, k :: 0 <= j < |x| && 0 <= k < |y| ==> Earlier(x[j], y[k])
    ensures LinesFrom(a + b, x + y, limits, index)
  {
  }

  lemma {:induction false} OriginsOfNames(names: seq<string>, limits: seq<AcceleratorQuota>, l: nat, index: Totals)
    returns (origins: seq<Origin>)
    requires l < |limits| && Ascending(names)
    requires forall i :: 0 <= i < |names| ==> names[i] in limits[l].resources
    ensures LinesFrom(LinesOf(names, limits[l].resources, ListOf(index, limits[l].provider)), origins, limits, index)
    ensures forall k :: 0 <= k < |origins| ==> origins[k].limit == l && origins[k].name in names
  {
    origins := [];
    if names != [] {
      var n := |names| - 1;
      var front := OriginsOfNames(names[..n], limits, l, index);
      var resources, calculated := limits[l].resources, ListOf(index, limits[l].provider);
      var last := if LineFor(names[n], resources, calculated) == [] then [] else [Origin(l, names[n])];
      forall j, k | 0 <= j < |front| && 0 <= k < |last| ensures Earlier(front[j], last[k]) {
        var i :| 0 <= i < n && names[..n][i] == front[j].name;
        assert Before(names[i], names[n]);
      }
      OriginsAppend(LinesOf(names[..n], resources, calculated), front, LineFor(names[n], resources, calculated), last,
                    limits, index);
      origins := front + last;
    }
  }

  lemma OriginsOfLimit(limits: seq<AcceleratorQuota>, l: nat, index: Totals) returns (origins: seq<Origin>)
    requires l < |limits|
    ensures LinesFrom(LinesOfLimit(limits[l], index), origins, limits, index)
    ensures forall k :: 0 <= k < |origins| ==> origins[k].limit == l
  {
    var names := InOrder(limits[l].resources.Keys);
    assert forall i :: 0 <= i < |names| ==> names[i] in Names(names);
    origins := OriginsOfNames(names, limits, l, index);
  }

  lemma {:induction false} OriginsUpTo(limits: seq<AcceleratorQuota>, n: nat, index: Totals)
    returns (origins: seq<Origin>)
    requires n <= |limits|
    ensures LinesFrom(Lines(limits[..n], index), origins, limits, index)
    ensures forall k :: 0 <= k < |origins| ==> origins[k].limit < n
  {
    origins := [];
    if n > 0 {
      var front := OriginsUpTo(limits, n - 1, index);
      var last := OriginsOfLimit(limits, n - 1, index);
      assert limits[..n][..n - 1] == limits[..n - 1];
      OriginsAppend(Lines(limits[..n - 1], index), front, LinesOfLimit(limits[n - 1], index), last, limits, index);
      origins := front + last;
    }
  }

  /** The lines come in the order of the limits and for each limit in the order of the names, and no
      limit of a resource has two of them. */
  lemma LinesInOrder(limits: seq<AcceleratorQuota>, index: Totals) returns (origins: seq<Origin>)
    ensures LinesFrom(Lines(limits, index), origins, limits, index)
  {
    origins := OriginsUpTo(limits, |limits|, index);
    assert limits[..|limits|] == limits;
  }

  predicate WithinLimits(limits: seq<AcceleratorQuota>, t: Totals)
  {
    forall i, name :: 0 <= i < |limits| && name in limits[i].resources ==>
      Amount(t, limits[i].provider, name) <= limits[i].resources[name].nano
  }

  lemma NoLinesIff(limits: seq<AcceleratorQuota>, index: Totals)
    ensures Lines(limits, index) == [] <==> WithinLimits(limits, index)
  {
    if Lines(limits, index) == [] {
      forall i, name | 0 <= i < |limits| && name in limits[i].resources
        ensures Amount(index, limits[i].provider, name) <= limits[i].resources[name].nano
      {
        var line := Accelerator(name, Calculated(ListOf(index, limits[i].provider), name), limits[i].resources[name]);
        LinesAreExact(limits, index, line);
        assert line !in Lines(limits, index);
        assert !IsLineOf(line, limits[i], index);
      }
    } else {
      var line := Lines(limits, index)[0];
      assert line in Lines(limits, index);
      LinesAreExact(limits, index, line);
      var i :| 0 <= i < |limits| && IsLineOf(line, limits[i], index);
      assert Amount(index, limits[i].provider, line.name) > limits[i].resources[line.name].nano;
    }
  }

  /** When no provider is listed twice, the index is the sum of the list. */
  lemma {:induction false} IndexIsSum(list: seq<AcceleratorQuota>)
    requires Distinct(Providers(list))
    ensures Index(list) == AddAll(map[], list)
  {
    if list != [] {
      var front, last := list[..|list| - 1], list[|list| - 1];
      assert list == front + [last];
      assert Providers(list) == Providers(front) + [last.provider];
      DistinctFront(Providers(front), last.provider);
      IndexIsSum(front);
      AddAllAppends(map[], front, [last]);
      assert [last][1..] == [];
      AddedProviders(map[], front);
      assert AddList(map[], last.resources) == last.resources;
    }
  }

  /** Indexing a layout loses nothing, because a layout names every provider once. */
  lemma IndexOfLayout(t: Totals)
    ensures Index(Layout(t)) == t
  {
    var providers := Providers(Layout(t));
    forall i, j | 0 <= i < j < |providers| ensures providers[i] != providers[j] {
      NeverBeforeItself(providers[i]);
    }
    IndexIsSum(Layout(t));
    LayoutRebuildsTotals(t);
  }

  /** The same for the optional list: it is nil exactly when there are no totals, and indexing it gives
      the totals back. */
  lemma IndexOfLaidOut(t: Totals)
    ensures LaidOut(t).None? <==> t == map[]
    ensures Index(OrEmpty(LaidOut(t))) == t
    ensures Ascending(Providers(OrEmpty(LaidOut(t))))
  {
    if t != map[] { IndexOfLayout(t); }
  }

  /** In any list the last entry of a provider decides what the index holds for it: the index counts the
      whole demand of a resource exactly when the earlier entries ask for nothing in sum. */
  lemma {:induction false} LastEntryDecides(list: seq<AcceleratorQuota>, j: nat, name: string)
    requires j < |list| && forall i :: j < i < |list| ==> list[i].provider != list[j].provider
    ensures var p := list[j].provider;
            && p in Index(list) && Index(list)[p] == list[j].resources
            && Demand(list, p, name) == Demand(list[..j], p, name) + Amount(Index(list), p, name)
            && (Amount(Index(list), p, name) == Demand(list, p, name) <==> Demand(list[..j], p, name) == 0)
  {
    var p, n := list[j].provider, |list| - 1;
    var front, last := list[..n], list[n];
    assert list == front + [last];
    assert [last][1..] == [];
    DemandAppends(front, [last], p, name);
    if j < n {
      LastEntryDecides(front, j, name);
      assert front[..j] == list[..j];
    }
  }

  /** With a provider listed twice the check can miss an exceeded limit. */
  lemma RepeatedProviderIsMissed(provider: string, name: string)
    ensures
      var entry := AcceleratorQuota(provider, map[name := Quantity(3 * NANO, DecimalSI)]);
      var calculated := [entry, AcceleratorQuota(provider, map[name := Quantity(1 * NANO, DecimalSI)])];
      var limits := [AcceleratorQuota(provider, map[name := Quantity(2 * NANO, DecimalSI)])];
      Demand(calculated, provider, name) > 2 * NANO && Lines(limits, Index(calculated)) == []
  {
    var entry := AcceleratorQuota(provider, map[name := Quantity(3 * NANO, DecimalSI)]);
    var last := AcceleratorQuota(provider, map[name := Quantity(1 * NANO, DecimalSI)]);
    var calculated := [entry, last];
    var limits := [AcceleratorQuota(provider, map[name := Quantity(2 * NANO, DecimalSI)])];
    LastEntryDecides(calculated, 1, name);
    assert calculated[..1] == [entry] && [entry][1..] == [];
    assert WithinLimits(limits, Index(calculated));
    NoLinesIff(limits, Index(calculated));
  }
}
