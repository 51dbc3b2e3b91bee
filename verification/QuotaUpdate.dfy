/** Updating a stored quota: reading it, building the new object, and patching what differs.
    Accelerator accounting can be switched on by an update and never off.  The server that stores the
    quotas may refuse a patch, and a failed patch may have been stored all the same. */
module QuotaUpdate {
  import opened Wrappers
  import opened Quantities
  import opened QuotaConversion

  const DEFAULT_LABEL: string := "kkp-default-resource-quota"

  // The annotation and its value are constants of a library; only their being fixed matters here.
  const ACCOUNTING_ANNOTATION: string := "accelerator-accounting-enabled"

  const ACCOUNTING_VALUE: string := "true"

  type StringMap = map<string, string>

  /** A nil label map behaves like an empty one; a nil annotation map must be made before writing. */
  datatype ResourceQuota = ResourceQuota(labels: StringMap, annotations: Option<StringMap>, quota: ResourceDetails)

  datatype PutError =
    | NotFound
    | BadQuantity(provider: string)
    | CannotDisable
    | IsDefaultQuota
    | LimitsNotEmpty
    | PatchFailed

  predicate IsDefault(q: ResourceQuota)
  {
    DEFAULT_LABEL in q.labels && q.labels[DEFAULT_LABEL] == "true"
  }

  predicate AccountingEnabled(q: ResourceQuota)
  {
    && q.annotations.Some?
    && ACCOUNTING_ANNOTATION in q.annotations.value
    && q.annotations.value[ACCOUNTING_ANNOTATION] == ACCOUNTING_VALUE
  }

  function AcceleratorLimits(q: ResourceQuota): seq<AcceleratorQuota>
  {
    OrEmpty(q.quota.accelerators)
  }

  // ----- the new object -----

  /** The copy of the object with the label removed and the specification replaced. */
  function WithQuota(body: ApiQuota, original: ResourceQuota): Result<ResourceQuota, PutError>
  {
    match ToCrd(body)
    case Failure(e) => Failure(BadQuantity(e.provider))
    case Success(details) =>
      var quota := if body.accelerators.None?
                   then details.(accelerators := original.quota.accelerators) else details;
      Success(original.(labels := original.labels - {DEFAULT_LABEL}, quota := quota))
  }

  function Annotate(q: ResourceQuota): ResourceQuota
  {
    var annotations := if q.annotations.None? then map[] else q.annotations.value;
    q.(annotations := Some(annotations[ACCOUNTING_ANNOTATION := ACCOUNTING_VALUE]))
  }

  /** The tri-state field: nothing, off (tolerated while off), on. */
  function Accounted(body: ApiQuota, original: ResourceQuota, updated: ResourceQuota): Result<ResourceQuota, PutError>
  {
    if body.enableAccounting.None? then Success(updated)
    else if !body.enableAccounting.value then
      if AccountingEnabled(original) then Failure(CannotDisable) else Success(updated)
    else if AccountingEnabled(original) then Success(updated)
    else if IsDefault(original) then Failure(IsDefaultQuota)
    else if AcceleratorLimits(updated) != [] then Failure(LimitsNotEmpty)
    else Success(Annotate(updated))
  }

  /** What a PUT makes of the object it has read. */
  function Target(body: ApiQuota, original: ResourceQuota): Result<ResourceQuota, PutError>
  {
    match WithQuota(body, original)
    case Failure(e) => Failure(e)
    case Success(updated) => Accounted(body, original, updated)
  }

  /** The PUT asks for accounting and the object it has read does not have it yet. */
  predicate Enabling(body: ApiQuota, original: ResourceQuota)
  {
    body.enableAccounting == Some(true) && !AccountingEnabled(original)
  }

  /** Exactly the PUTs that can be written: every accelerator quantity parses, accounting is not
      switched off once it is on, and it is switched on only on an unlabelled quota that is left without
      limits, whether they come with the request or are kept from before. */
  lemma TargetSucceedsIff(body: ApiQuota, original: ResourceQuota)
    ensures Target(body, original).Success?
            <==> && (body.accelerators.Some? ==>
                       forall i :: 0 <= i < |body.accelerators.value| ==> Parses(body.accelerators.value[i].resources))
                 && (body.enableAccounting == Some(false) ==> !AccountingEnabled(original))
                 && (Enabling(body, original) ==>
                       && !IsDefault(original)
                       && (if body.accelerators.Some? then body.accelerators.value == []
                           else AcceleratorLimits(original) == []))
  {
    if body.accelerators.Some? { ConvertsIff(body.accelerators.value); }
  }

  // ----- the merge patch -----

  /** The server that stores the quotas.  It decides from the stored and the patched object whether to
      admit a patch.  It may store an empty list as no list at all. */
  datatype Server = Server(admits: (ResourceQuota, ResourceQuota) -> bool, omitsEmptyLists: bool)

  datatype Change<T> = Keep | Set(value: T)

  /** A merge patch: only what differs between two objects. */
  datatype Patch = Patch(
    removedLabels: set<string>,
    setLabels: StringMap,
    setAnnotations: StringMap,
    cpu: Change<Option<Quantity>>,
    memory: Change<Option<Quantity>>,
    storage: Change<Option<Quantity>>,
    accelerators: Change<Option<seq<AcceleratorQuota>>>)

  function Replaced<T>(c: Change<T>, current: T): T
  {
    if c.Keep? then current else c.value
  }

  function OrEmptyMap(m: Option<StringMap>): StringMap
  {
    if m.None? then map[] else m.value
  }

  function ChangedEntries(before: StringMap, after: StringMap): StringMap
  {
    map k | k in after && (k !in before || before[k] != after[k]) :: after[k]
  }

  /** A quantity as it is written down. */
  function TextOf(q: Option<Quantity>): Option<Text>
  {
    if q.None? then None else Some(Print(q.value))
  }

  /** A list as the server keeps it. */
  function Kept(server: Server, list: Option<seq<AcceleratorQuota>>): Option<seq<AcceleratorQuota>>
  {
    if server.omitsEmptyLists && list == Some([]) then None else list
  }

  /** A list as it is written down. */
  function Written(server: Server, list: Option<seq<AcceleratorQuota>>): Option<seq<ApiAccelerator>>
  {
    var kept := Kept(server, list);
    if kept.None? then None else Some(AcceleratorsToApi(kept.value))
  }

  /** Lists that are written down alike are both empty or both not. */
  lemma WrittenAlikeEmptyAlike(server: Server, a: Option<seq<AcceleratorQuota>>, b: Option<seq<AcceleratorQuota>>)
    requires Written(server, a) == Written(server, b)
    ensures OrEmpty(a) == [] <==> OrEmpty(b) == []
  {
    assert |AcceleratorsToApi(OrEmpty(a))| == |OrEmpty(a)| && |AcceleratorsToApi(OrEmpty(b))| == |OrEmpty(b)|;
  }

  /** Two objects that are written down alike. */
  predicate WrittenAlike(server: Server, q: ResourceQuota, r: ResourceQuota)
  {
    && q.labels == r.labels && q.annotations == r.annotations
    && TextOf(q.quota.cpu) == TextOf(r.quota.cpu)
    && TextOf(q.quota.memory) == TextOf(r.quota.memory)
    && TextOf(q.quota.storage) == TextOf(r.quota.storage)
    && Written(server, q.quota.accelerators) == Written(server, r.quota.accelerators)
  }

  /** Objects are compared as they are written down. */
  function ChangedQuantity(before: Option<Quantity>, after: Option<Quantity>): Change<Option<Quantity>>
  {
    if TextOf(before) == TextOf(after) then Keep else Set(after)
  }

  function ChangedList(server: Server, before: Option<seq<AcceleratorQuota>>, after: Option<seq<AcceleratorQuota>>)
    : Change<Option<seq<AcceleratorQuota>>>
  {
    if Written(server, before) == Written(server, after) then Keep else Set(Kept(server, after))
  }

  /** Replacing a list where it is written differently leaves it empty exactly when the new one is. */
  lemma ReplacedListIsEmptyIff(server: Server, before: Option<seq<AcceleratorQuota>>,
                               after: Option<seq<AcceleratorQuota>>)
    ensures OrEmpty(Replaced(ChangedList(server, before, after), before)) == [] <==> OrEmpty(after) == []
  {
    if Written(server, before) == Written(server, after) { WrittenAlikeEmptyAlike(server, before, after); }
  }

  function Diff(server: Server, before: ResourceQuota, after: ResourceQuota): Patch
  {
    Patch(before.labels.Keys - after.labels.Keys,
          ChangedEntries(before.labels, after.labels),
          ChangedEntries(OrEmptyMap(before.annotations), OrEmptyMap(after.annotations)),
          ChangedQuantity(before.quota.cpu, after.quota.cpu),
          ChangedQuantity(before.quota.memory, after.quota.memory),
          ChangedQuantity(before.quota.storage, after.quota.storage),
          ChangedList(server, before.quota.accelerators, after.quota.accelerators))
  }

  /** Applying a patch to the object as it is by then. */
  function Apply(p: Patch, current: ResourceQuota): ResourceQuota
  {
    ResourceQuota(
      (current.labels - p.removedLabels) + p.setLabels,
      if p.setAnnotations == map[] then current.annotations
      else Some(OrEmptyMap(current.annotations) + p.setAnnotations),
      ResourceDetails(Replaced(p.cpu, current.quota.cpu), Replaced(p.memory, current.quota.memory),
                      Replaced(p.storage, current.quota.storage),
                      Replaced(p.accelerators, current.quota.accelerators)))
  }

  /** What a PUT writes, whatever the object has become in the meantime. */
  lemma PatchOfTarget(server: Server, body: ApiQuota, original: ResourceQuota)
    requires Target(body, original).Success?
    ensures var p := Diff(server, original, Target(body, original).value);
            && p.removedLabels == original.labels.Keys * {DEFAULT_LABEL}
            && p.setLabels == map[]
            && p.setAnnotations == (if Enabling(body, original)
                                    then map[ACCOUNTING_ANNOTATION := ACCOUNTING_VALUE] else map[])
            && (body.accelerators.None? ==> p.accelerators.Keep?)
  {
  }

  /** An amount is patched exactly when the request writes it in another way than the object that was
      read; otherwise the amount stays as other PUTs have made it. */
  lemma PatchedAmounts(server: Server, body: ApiQuota, original: ResourceQuota)
    requires Target(body, original).Success?
    ensures var p := Diff(server, original, Target(body, original).value);
            && (p.cpu.Keep? <==> TextOf(original.quota.cpu) == TextOf(CpuToCrd(body.cpu)))
            && (p.memory.Keep? <==> TextOf(original.quota.memory) == TextOf(AmountToCrd(body.memory)))
            && (p.storage.Keep? <==> TextOf(original.quota.storage) == TextOf(AmountToCrd(body.storage)))
  {
  }

  /** Applying the difference to the object that was read gives the new object, as it is written down. */
  lemma ApplyDiff(server: Server, body: ApiQuota, original: ResourceQuota)
    requires Target(body, original).Success?
    ensures var target := Target(body, original).value;
            WrittenAlike(server, Apply(Diff(server, original, target), original), target)
  {
    PatchOfTarget(server, body, original);
    var updated := WithQuota(body, original).value;
    assert (original.labels - (original.labels.Keys * {DEFAULT_LABEL})) + map[] == original.labels - {DEFAULT_LABEL};
    if Enabling(body, original) {
      assert OrEmptyMap(original.annotations) + map[ACCOUNTING_ANNOTATION := ACCOUNTING_VALUE]
          == OrEmptyMap(original.annotations)[ACCOUNTING_ANNOTATION := ACCOUNTING_VALUE];
    }
  }

  /** Setting the accounting annotation and keeping all others is adding it. */
  lemma OnlyAnnotationAdded(before: ResourceQuota, after: ResourceQuota)
    requires AccountingEnabled(after)
    requires after.labels == before.labels && after.quota == before.quota
    requires after.annotations.value - {ACCOUNTING_ANNOTATION}
          == OrEmptyMap(before.annotations) - {ACCOUNTING_ANNOTATION}
    ensures after == Annotate(before)
  {
    var x, y := after.annotations.value, Annotate(before).annotations.value;
    forall k ensures (k in x <==> k in y) && (k in x ==> x[k] == y[k]) {
      if k != ACCOUNTING_ANNOTATION {
        assert k in x <==> k in x - {ACCOUNTING_ANNOTATION};
        assert k in y <==> k in OrEmptyMap(before.annotations) - {ACCOUNTING_ANNOTATION};
      }
    }
    assert x == y;
  }

  // ----- the handler -----

  /** The stored object after patching it by the difference of two objects. */
  function AfterPatch(server: Server, current: ResourceQuota, before: ResourceQuota, after: ResourceQuota,
                      outcome: Outcome): ResourceQuota
  {
    var patched := Apply(Diff(server, before, after), current);
    if outcome != Lost && server.admits(current, patched) then patched else current
  }

  predicate PatchSucceeds(server: Server, current: ResourceQuota, before: ResourceQuota, after: ResourceQuota,
                          outcome: Outcome)
  {
    outcome == Stored && server.admits(current, Apply(Diff(server, before, after), current))
  }

  datatype PutRequest = PutRequest(body: ApiQuota, outcome: Outcome)

  function AfterPut(server: Server, q: ResourceQuota, r: PutRequest): ResourceQuota
  {
    match Target(r.body, q)
    case Failure(_) => q
    case Success(target) => AfterPatch(server, q, q, target, r.outcome)
  }

  /** Refuses to switch accounting off once it is on, and to switch it on for a default quota or with
      limits, in this order.  Otherwise only the accounting annotation can change, and it is set exactly
      when the request switches accounting on. */
  method ApplyAcceleratorAccounting(body: ApiQuota, original: ResourceQuota, updated: ResourceQuota)
    returns (r: Result<ResourceQuota, PutError>)
    ensures r == Failure(CannotDisable) <==> body.enableAccounting == Some(false) && AccountingEnabled(original)
    ensures r == Failure(IsDefaultQuota) <==> Enabling(body, original) && IsDefault(original)
    ensures r == Failure(LimitsNotEmpty)
            <==> Enabling(body, original) && !IsDefault(original) && AcceleratorLimits(updated) != []
    ensures r.Failure? ==> r.error in {CannotDisable, IsDefaultQuota, LimitsNotEmpty}
    ensures r.Success? ==> r.value.labels == updated.labels && r.value.quota == updated.quota
    ensures r.Success? && !Enabling(body, original) ==> r.value.annotations == updated.annotations
    ensures r.Success? && Enabling(body, original) ==>
              r.value.annotations.Some? && AccountingEnabled(r.value)
              && r.value.annotations.value - {ACCOUNTING_ANNOTATION}
                 == OrEmptyMap(updated.annotations) - {ACCOUNTING_ANNOTATION}
    ensures r.Success? && AccountingEnabled(updated) == AccountingEnabled(original) ==>
              (AccountingEnabled(r.value) <==> body.enableAccounting == Some(true) || AccountingEnabled(original))
  {
    if body.enableAccounting.None? {
      return Success(updated);
    }
    var alreadyEnabled := AccountingEnabled(original);
    if !body.enableAccounting.value {
      if alreadyEnabled {
        return Failure(CannotDisable);
      }
      return Success(updated);
    }
    if alreadyEnabled {
      return Success(updated);
    }
    if IsDefault(original) {
      return Failure(IsDefaultQuota);
    }
    if updated.quota.accelerators.Some? && |updated.quota.accelerators.value| > 0 {
      return Failure(LimitsNotEmpty);
    }
    var annotations: StringMap := map[];
    if updated.annotations.Some? {
      annotations := updated.annotations.value;
    }
    annotations := annotations[ACCOUNTING_ANNOTATION := ACCOUNTING_VALUE];
    return Success(updated.(annotations := Some(annotations)));
  }

  // ----- what a PUT leaves, field by field -----

  /** The limits are the sent list: providers in order, and under every name the quantity of the text. */
  predicate HoldsList(limits: seq<AcceleratorQuota>, sent: seq<ApiAccelerator>)
  {
    && |limits| == |sent|
    && forall i :: 0 <= i < |sent| ==>
         && limits[i].provider == sent[i].provider
         && limits[i].resources.Keys == sent[i].resources.Keys
         && forall name :: name in sent[i].resources ==>
              && Parse(sent[i].resources[name]).Some?
              && Print(limits[i].resources[name]) == Print(Parse(sent[i].resources[name]).value)
  }

  /** The quota holds what the request sends: each amount in its own field as it is written down, the sent
      limits or else the old ones, no default label, and the annotation if accounting is switched on. */
  predicate HoldsBody(body: ApiQuota, before: ResourceQuota, after: ResourceQuota)
  {
    && TextOf(after.quota.cpu) == TextOf(CpuToCrd(body.cpu))
    && TextOf(after.quota.memory) == TextOf(AmountToCrd(body.memory))
    && TextOf(after.quota.storage) == TextOf(AmountToCrd(body.storage))
    && (if body.accelerators.None? then after.quota.accelerators == before.quota.accelerators
        else HoldsList(AcceleratorLimits(after), body.accelerators.value))
    && after.labels == before.labels - {DEFAULT_LABEL}
    && after.annotations == if Enabling(body, before)
                            then Some(OrEmptyMap(before.annotations)[ACCOUNTING_ANNOTATION := ACCOUNTING_VALUE])
                            else before.annotations
  }

  lemma SameShownEntry(a: seq<AcceleratorQuota>, b: seq<AcceleratorQuota>, i: nat)
    requires AcceleratorsToApi(a) == AcceleratorsToApi(b) && i < |a| && i < |b|
    ensures a[i].provider == b[i].provider && a[i].resources.Keys == b[i].resources.Keys
    ensures forall name :: name in b[i].resources ==> Print(a[i].resources[name]) == Print(b[i].resources[name])
  {
    assert AcceleratorsToApi(a)[i] == AcceleratorsToApi(b)[i];
    var x, y := PrintList(a[i].resources), PrintList(b[i].resources);
    assert x == y && x.Keys == a[i].resources.Keys && y.Keys == b[i].resources.Keys;
    forall name | name in b[i].resources ensures Print(a[i].resources[name]) == Print(b[i].resources[name]) {
      assert x[name] == y[name];
    }
  }

  lemma WrittenListHolds(server: Server, list: Option<seq<AcceleratorQuota>>, target: Option<seq<AcceleratorQuota>>,
                         sent: seq<ApiAccelerator>)
    requires Written(server, list) == Written(server, target)
    requires target.Some? && ParsedFrom(target.value, sent)
    ensures HoldsList(OrEmpty(list), sent)
  {
    var kept := OrEmpty(list);
    assert AcceleratorsToApi(kept) == AcceleratorsToApi(target.value) by {
      WrittenAlikeEmptyAlike(server, list, target);
    }
    assert |kept| == |AcceleratorsToApi(kept)| == |sent|;
    forall i | 0 <= i < |sent| ensures HoldsList([kept[i]], [sent[i]]) {
      SameShownEntry(kept, target.value, i);
    }
    forall i | 0 <= i < |sent|
      ensures kept[i].provider == sent[i].provider && kept[i].resources.Keys == sent[i].resources.Keys
      ensures forall name :: name in sent[i].resources ==>
                && Parse(sent[i].resources[name]).Some?
                && Print(kept[i].resources[name]) == Print(Parse(sent[i].resources[name]).value)
    {
      assert HoldsList([kept[i]], [sent[i]]);
      assert [kept[i]][0] == kept[i] && [sent[i]][0] == sent[i];
    }
  }

  lemma PatchedHoldsBody(server: Server, body: ApiQuota, original: ResourceQuota)
    requires Target(body, original).Success?
    ensures HoldsBody(body, original, Apply(Diff(server, original, Target(body, original).value), original))
  {
    var target := Target(body, original).value;
    var patched := Apply(Diff(server, original, target), original);
    ApplyDiff(server, body, original);
    PatchOfTarget(server, body, original);
    if body.accelerators.Some? {
      ListIsParsed(body.accelerators.value);
      WrittenListHolds(server, patched.quota.accelerators, target.quota.accelerators, body.accelerators.value);
    }
  }

  ghost predicate AllParse(body: ApiQuota)
  {
    forall i :: !FirstBad(OrEmpty(body.accelerators), i)
  }

  /** The limits that the request leaves: the sent ones, or else the old ones. */
  predicate LeavesLimits(body: ApiQuota, original: ResourceQuota)
  {
    if body.accelerators.Some? then body.accelerators.value != [] else AcceleratorLimits(original) != []
  }

  /** Which refusal comes when: first a quantity that does not parse, then switching accounting off, then
      switching it on for a default quota, then with limits left. */
  lemma RefusedWith(body: ApiQuota, original: ResourceQuota)
    ensures var r := Target(body, original);
            && (forall i :: FirstBad(OrEmpty(body.accelerators), i) ==>
                  r == Failure(BadQuantity(OrEmpty(body.accelerators)[i].provider)))
            && (AllParse(body) ==>
                  && (r == Failure(CannotDisable)
                      <==> body.enableAccounting == Some(false) && AccountingEnabled(original))
                  && (r == Failure(IsDefaultQuota) <==> Enabling(body, original) && IsDefault(original))
                  && (r == Failure(LimitsNotEmpty)
                      <==> Enabling(body, original) && !IsDefault(original) && LeavesLimits(body, original))
                  && (r.Failure? ==> r.error in {CannotDisable, IsDefaultQuota, LimitsNotEmpty}))
  {
    ConversionFailsIff(body);
    if body.accelerators.Some? { ConvertsIff(body.accelerators.value); }
  }

  /** The copy of the object that was read, edited by the request. */
  method NewQuota(body: ApiQuota, original: ResourceQuota) returns (r: Result<ResourceQuota, PutError>)
    ensures r == Target(body, original)
  {
    var updated := original;
    updated := updated.(labels := updated.labels - {DEFAULT_LABEL});
    var converted := ConvertToCRDQuota(body);
    if converted.Failure? {
      return Failure(BadQuantity(converted.error.provider));
    }
    var crdQuota := converted.value;
    if body.accelerators.None? {
      crdQuota := crdQuota.(accelerators := original.quota.accelerators);
    }
    updated := updated.(quota := crdQuota);
    r := ApplyAcceleratorAccounting(body, original, updated);
    if r.Success? && Enabling(body, original) { OnlyAnnotationAdded(updated, r.value); }
  }

  /** The stored quotas, by name. */
  class QuotaStore {
    const server: Server
    var quotas: map<string, ResourceQuota>

    constructor (server: Server, initial: map<string, ResourceQuota>)
      ensures this.server == server && quotas == initial
    {
      this.server := server;
      quotas := initial;
    }

    method PatchUnsecured(name: string, before: ResourceQuota, after: ResourceQuota, outcome: Outcome)
      returns (ok: bool)
      requires name in quotas
      modifies this`quotas
      ensures ok <==> PatchSucceeds(server, old(quotas)[name], before, after, outcome)
      ensures quotas == old(quotas)[name := AfterPatch(server, old(quotas)[name], before, after, outcome)]
    {
      var patched := Apply(Diff(server, before, after), quotas[name]);
      if !server.admits(quotas[name], patched) {
        return false;
      }
      if outcome != Lost {
        quotas := quotas[name := patched];
      }
      ok := outcome == Stored;
    }

    /** The store changes only where the PUT is let through, or where its patch was stored although it
        failed; then the quota holds what the request sends. */
    method PutResourceQuota(name: string, body: ApiQuota, outcome: Outcome) returns (error: Option<PutError>)
      modifies this`quotas
      ensures name !in old(quotas) ==> error == Some(NotFound)
      ensures name in old(quotas) ==>
                error == match Target(body, old(quotas)[name])
                         case Failure(e) => Some(e)
                         case Success(target) =>
                           if PatchSucceeds(server, old(quotas)[name], old(quotas)[name], target, outcome)
                           then None else Some(PatchFailed)
      ensures quotas == if name !in old(quotas) then old(quotas)
                        else old(quotas)[name := AfterPut(server, old(quotas)[name], PutRequest(body, outcome))]
      ensures error.Some? && quotas != old(quotas) ==> error == Some(PatchFailed) && outcome == StoredButFailed
      ensures error.None? ==>
                && HoldsBody(body, old(quotas)[name], quotas[name])
                && outcome == Stored && server.admits(old(quotas)[name], quotas[name])
      ensures quotas != old(quotas) ==>
                name in old(quotas) && name in quotas && HoldsBody(body, old(quotas)[name], quotas[name])
                && quotas == old(quotas)[name := quotas[name]]
      ensures name in old(quotas) && error == Some(PatchFailed) && outcome == Stored ==>
                exists after :: HoldsBody(body, old(quotas)[name], after) && !server.admits(old(quotas)[name], after)
      ensures name in old(quotas) && error == Some(PatchFailed) && outcome == StoredButFailed
              && quotas == old(quotas) ==>
                exists after :: HoldsBody(body, old(quotas)[name], after)
                                && (!server.admits(old(quotas)[name], after) || after == old(quotas)[name])
      ensures name in old(quotas) && AllParse(body) ==>
                var q := old(quotas)[name];
                && (error == Some(CannotDisable) <==> body.enableAccounting == Some(false) && AccountingEnabled(q))
                && (error == Some(IsDefaultQuota) <==> Enabling(body, q) && IsDefault(q))
                && (error == Some(LimitsNotEmpty)
                    <==> Enabling(body, q) && !IsDefault(q) && LeavesLimits(body, q))
      ensures name in old(quotas) ==>
                forall i :: FirstBad(OrEmpty(body.accelerators), i) ==>
                  error == Some(BadQuantity(OrEmpty(body.accelerators)[i].provider))
    {
      if name !in quotas {
        return Some(NotFound);
      }
      var original := quotas[name];
      RefusedWith(body, original);
      var result := NewQuota(body, original);
      if result.Failure? {
        return Some(result.error);
      }
      PatchedHoldsBody(server, body, original);
      var ok := PatchUnsecured(name, original, result.value, outcome);
      return if ok then None else Some(PatchFailed);
    }
  }

  // ----- one PUT after the other -----

  function AfterPuts(server: Server, q: ResourceQuota, requests: seq<PutRequest>): ResourceQuota
  {
    if requests == [] then q
    else AfterPut(server, AfterPuts(server, q, requests[..|requests| - 1]), requests[|requests| - 1])
  }

  lemma EnablingTargetHasNoLimits(body: ApiQuota, original: ResourceQuota)
    requires Target(body, original).Success? && Enabling(body, original)
    ensures AcceleratorLimits(Target(body, original).value) == []
  {
  }

  /** What one PUT can do, whatever becomes of its patch: it never disables accounting, never labels,
      enables only an unlabelled quota and leaves the limits empty then; without accelerators in the
      body it keeps the limits. */
  lemma OnePut(server: Server, q: ResourceQuota, r: PutRequest)
    ensures var next := AfterPut(server, q, r);
            && (AccountingEnabled(q) ==> AccountingEnabled(next))
            && (IsDefault(next) ==> next == q)
            && (AccountingEnabled(next) && !AccountingEnabled(q) ==>
                  !IsDefault(q) && AcceleratorLimits(next) == [])
            && (r.body.accelerators.None? ==> next.quota.accelerators == q.quota.accelerators)
  {
    if Target(r.body, q).Success? {
      PatchOfTarget(server, r.body, q);
      var target := Target(r.body, q).value;
      if Enabling(r.body, q) { EnablingTargetHasNoLimits(r.body, q); }
      ReplacedListIsEmptyIff(server, q.quota.accelerators, target.quota.accelerators);
    }
  }

  lemma {:induction false} AccountingStaysEnabled(server: Server, q: ResourceQuota, requests: seq<PutRequest>)
    requires AccountingEnabled(q)
    ensures AccountingEnabled(AfterPuts(server, q, requests))
  {
    if requests != [] {
      AccountingStaysEnabled(server, q, requests[..|requests| - 1]);
      OnePut(server, AfterPuts(server, q, requests[..|requests| - 1]), requests[|requests| - 1]);
    }
  }

  lemma {:induction false} OmittingAcceleratorsKeepsLimits(server: Server, q: ResourceQuota,
                                                           requests: seq<PutRequest>)
    requires forall i :: 0 <= i < |requests| ==> requests[i].body.accelerators.None?
    ensures AfterPuts(server, q, requests).quota.accelerators == q.quota.accelerators
  {
    if requests != [] {
      OmittingAcceleratorsKeepsLimits(server, q, requests[..|requests| - 1]);
      OnePut(server, AfterPuts(server, q, requests[..|requests| - 1]), requests[|requests| - 1]);
    }
  }

  /** Every run from accounting off to accounting on has a PUT that switches it on, and that PUT leaves
      the limits empty. */
  lemma {:induction false} EnablingPutLeavesNoLimits(server: Server, q: ResourceQuota, requests: seq<PutRequest>)
    returns (k: nat)
    requires !AccountingEnabled(q) && AccountingEnabled(AfterPuts(server, q, requests))
    ensures k < |requests|
    ensures !AccountingEnabled(AfterPuts(server, q, requests[..k]))
    ensures AccountingEnabled(AfterPuts(server, q, requests[..k + 1]))
    ensures AcceleratorLimits(AfterPuts(server, q, requests[..k + 1])) == []
    ensures !IsDefault(AfterPuts(server, q, requests[..k]))
  {
    var n := |requests| - 1;
    if AccountingEnabled(AfterPuts(server, q, requests[..n])) {
      k := EnablingPutLeavesNoLimits(server, q, requests[..n]);
      assert requests[..n][..k] == requests[..k] && requests[..n][..k + 1] == requests[..k + 1];
    } else {
      k := n;
      OnePut(server, AfterPuts(server, q, requests[..n]), requests[n]);
      assert requests[..n + 1] == requests;
    }
  }

  // ----- overlapping PUTs -----

  /** A PUT between its read and its patch. */
  datatype Pending = Pending(body: ApiQuota, original: ResourceQuota)

  datatype System = System(stored: ResourceQuota, pending: map<nat, Pending>)

  datatype Step =
    | Read(id: nat, body: ApiQuota)
    | Write(id: nat, outcome: Outcome)

  /** Each PUT reads the object and later patches it; other PUTs come in between. */
  function Next(server: Server, s: System, step: Step): System
  {
    match step
    case Read(id, body) =>
      if id in s.pending then s else s.(pending := s.pending[id := Pending(body, s.stored)])
    case Write(id, outcome) =>
      if id !in s.pending then s
      else
        var p := s.pending[id];
        var target := Target(p.body, p.original);
        System(if target.Failure? then s.stored
               else AfterPatch(server, s.stored, p.original, target.value, outcome),
               s.pending - {id})
  }

  function Run(server: Server, s: System, steps: seq<Step>): System
  {
    if steps == [] then s else Next(server, Run(server, s, steps[..|steps| - 1]), steps[|steps| - 1])
  }

  /** A PUT that nothing interrupts is a read step followed by a write step. */
  lemma UninterruptedPut(server: Server, s: System, id: nat, r: PutRequest)
    requires id !in s.pending
    ensures Run(server, s, [Read(id, r.body), Write(id, r.outcome)]).stored == AfterPut(server, s.stored, r)
    ensures Run(server, s, [Read(id, r.body), Write(id, r.outcome)]).pending == s.pending
  {
    var steps := [Read(id, r.body), Write(id, r.outcome)];
    assert steps[..1] == [steps[0]] && steps[..1][..0] == [];
    assert Run(server, s, steps[..1]) == Next(server, s, steps[0]);
    assert Run(server, s, steps) == Next(server, Next(server, s, steps[0]), steps[1]);
    assert s.pending[id := Pending(r.body, s.stored)] - {id} == s.pending;
  }

  /** The step is a patch that reaches the store. */
  predicate Patches(server: Server, s: System, step: Step)
  {
    && step.Write? && step.id in s.pending && step.outcome != Lost
    && var p := s.pending[step.id];
       var target := Target(p.body, p.original);
       target.Success? && server.admits(s.stored, Apply(Diff(server, p.original, target.value), s.stored))
  }

  /** What one step can do to the stored object, however old the object is that its PUT has read. */
  lemma OneWrite(server: Server, s: System, step: Step)
    ensures var next := Next(server, s, step).stored;
            && (next != s.stored ==> Patches(server, s, step))
            && (AccountingEnabled(s.stored) ==> AccountingEnabled(next))
            && (IsDefault(next) ==> IsDefault(s.stored))
            && (AccountingEnabled(next) && !AccountingEnabled(s.stored) ==>
                  && Patches(server, s, step)
                  && Enabling(s.pending[step.id].body, s.pending[step.id].original)
                  && !IsDefault(s.pending[step.id].original))
  {
    if step.Write? && step.id in s.pending {
      var p := s.pending[step.id];
      if Target(p.body, p.original).Success? { PatchOfTarget(server, p.body, p.original); }
    }
  }

  /** Over every interleaving of PUTs, accounting that is enabled stays enabled. */
  lemma {:induction false} AccountingSurvivesInterleaving(server: Server, s: System, steps: seq<Step>)
    requires AccountingEnabled(s.stored)
    ensures AccountingEnabled(Run(server, s, steps).stored)
  {
    if steps != [] {
      AccountingSurvivesInterleaving(server, s, steps[..|steps| - 1]);
      OneWrite(server, Run(server, s, steps[..|steps| - 1]), steps[|steps| - 1]);
    }
  }

  predicate OmitsAccelerators(s: System, steps: seq<Step>)
  {
    && (forall id :: id in s.pending ==> s.pending[id].body.accelerators.None?)
    && (forall i :: 0 <= i < |steps| && steps[i].Read? ==> steps[i].body.accelerators.None?)
  }

  /** PUTs that do not send accelerators never change the limits, even when they overlap. */
  lemma {:induction false} OmissionSurvivesInterleaving(server: Server, s: System, steps: seq<Step>)
    requires OmitsAccelerators(s, steps)
    ensures Run(server, s, steps).stored.quota.accelerators == s.stored.quota.accelerators
    ensures OmitsAccelerators(Run(server, s, steps), [])
  {
    if steps != [] {
      var before := Run(server, s, steps[..|steps| - 1]);
      var step := steps[|steps| - 1];
      OmissionSurvivesInterleaving(server, s, steps[..|steps| - 1]);
      if step.Write? && step.id in before.pending {
        var p := before.pending[step.id];
        if Target(p.body, p.original).Success? { PatchOfTarget(server, p.body, p.original); }
      }
    }
  }

  /** A default quota without accounting, and every PUT under way has read a default quota. */
  predicate StillDefault(s: System)
  {
    && IsDefault(s.stored)
    && !AccountingEnabled(s.stored)
    && forall id :: id in s.pending ==> IsDefault(s.pending[id].original)
  }

  /** The step is a patch that removes the label and does not enable accounting. */
  predicate RemovesLabel(server: Server, s: System, step: Step)
  {
    && Patches(server, s, step)
    && IsDefault(s.stored) && !IsDefault(Next(server, s, step).stored)
    && !AccountingEnabled(s.stored) && !AccountingEnabled(Next(server, s, step).stored)
  }

  lemma LeavingDefault(server: Server, s: System, step: Step)
    requires StillDefault(s) && !StillDefault(Next(server, s, step))
    ensures RemovesLabel(server, s, step)
  {
    OneWrite(server, s, step);
  }

  lemma {:induction false} FirstNotDefault(server: Server, s: System, steps: seq<Step>) returns (k: nat)
    requires StillDefault(s) && !StillDefault(Run(server, s, steps))
    ensures k < |steps| && RemovesLabel(server, Run(server, s, steps[..k]), steps[k])
  {
    assert steps != [];
    var n := |steps| - 1;
    if StillDefault(Run(server, s, steps[..n])) {
      k := n;
      LeavingDefault(server, Run(server, s, steps[..n]), steps[n]);
    } else {
      k := FirstNotDefault(server, s, steps[..n]);
      assert steps[..n][..k] == steps[..k];
    }
  }

  /** Starting from a default quota without accounting, every run that enables accounting contains an
      earlier patch, of a PUT that succeeded or of one that failed after it was stored, that removed the
      label and left accounting off.  One PUT cannot do both, because it looks at the label of the object
      it has read. */
  lemma {:induction false} EnablingNeedsEarlierUpdate(server: Server, s: System, steps: seq<Step>) returns (k: nat)
    requires StillDefault(s) && AccountingEnabled(Run(server, s, steps).stored)
    ensures k < |steps| && RemovesLabel(server, Run(server, s, steps[..k]), steps[k])
  {
    k := FirstNotDefault(server, s, steps);
  }

  // ----- limits when accounting is switched on -----

  /** The step switches accounting on. */
  predicate SwitchesOn(server: Server, s: System, step: Step)
  {
    !AccountingEnabled(s.stored) && AccountingEnabled(Next(server, s, step).stored)
  }

  /** Every run from accounting off to accounting on has a step that switches it on. */
  lemma {:induction false} SwitchingStep(server: Server, s: System, steps: seq<Step>) returns (k: nat)
    requires !AccountingEnabled(s.stored) && AccountingEnabled(Run(server, s, steps).stored)
    ensures k < |steps| && SwitchesOn(server, Run(server, s, steps[..k]), steps[k])
  {
    assert steps != [];
    var n := |steps| - 1;
    if AccountingEnabled(Run(server, s, steps[..n]).stored) {
      k := SwitchingStep(server, s, steps[..n]);
      assert steps[..n][..k] == steps[..k];
    } else {
      k := n;
    }
  }

  /** When a write switches accounting on, the limits are empty afterwards if and only if they were
      empty before it, or the request sends an empty list and its PUT has read something that is not
      written like an empty list. */
  lemma EnablingWriteLeavesNoLimitsIff(server: Server, s: System, step: Step)
    requires SwitchesOn(server, s, step)
    ensures step.Write? && step.id in s.pending
    ensures AcceleratorLimits(Next(server, s, step).stored) == []
            <==> || AcceleratorLimits(s.stored) == []
                 || (&& s.pending[step.id].body.accelerators == Some([])
                     && Written(server, s.pending[step.id].original.quota.accelerators) != Written(server, Some([])))
  {
    OneWrite(server, s, step);
    var p := s.pending[step.id];
    TargetSucceedsIff(p.body, p.original);
    if p.body.accelerators == Some([]) { assert AcceleratorsToCrd([]) == Success([]); }
  }

  /** What a pending PUT has read is what was stored at its read step. */
  lemma {:induction false} PendingWasRead(server: Server, s: System, steps: seq<Step>, id: nat) returns (r: nat)
    requires s.pending == map[] && id in Run(server, s, steps).pending
    ensures r < |steps| && steps[r].Read? && steps[r].id == id
    ensures Run(server, s, steps).pending[id] == Pending(steps[r].body, Run(server, s, steps[..r]).stored)
  {
    var n := |steps| - 1;
    if id in Run(server, s, steps[..n]).pending {
      r := PendingWasRead(server, s, steps[..n], id);
      assert steps[..n][..r] == steps[..r];
    } else {
      r := n;
    }
  }

  lemma UnchangedSinceRead(server: Server, s: System, step: Step)
    requires SwitchesOn(server, s, step)
    ensures step.Write? && step.id in s.pending
    ensures AcceleratorLimits(s.stored) == AcceleratorLimits(s.pending[step.id].original) ==>
              AcceleratorLimits(Next(server, s, step).stored) == []
  {
    OneWrite(server, s, step);
    var p := s.pending[step.id];
    var target := Target(p.body, p.original).value;
    EnablingTargetHasNoLimits(p.body, p.original);
    ReplacedListIsEmptyIff(server, p.original.quota.accelerators, target.quota.accelerators);
  }

  /** Over every interleaving: when a step switches accounting on and the limits are then what they were
      when its PUT read the quota, no limits are left. */
  lemma UnchangedLimitsAreEmpty(server: Server, s: System, steps: seq<Step>, step: Step) returns (r: nat)
    requires s.pending == map[] && SwitchesOn(server, Run(server, s, steps), step)
    ensures r < |steps| && step.Write? && steps[r].Read? && steps[r].id == step.id
    ensures step.id in Run(server, s, steps).pending
    ensures Run(server, s, steps).pending[step.id] == Pending(steps[r].body, Run(server, s, steps[..r]).stored)
    ensures AcceleratorLimits(Run(server, s, steps).stored) == AcceleratorLimits(Run(server, s, steps[..r]).stored)
            ==> AcceleratorLimits(Next(server, Run(server, s, steps), step).stored) == []
  {
    var now := Run(server, s, steps);
    OneWrite(server, now, step);
    r := PendingWasRead(server, s, steps, step.id);
    UnchangedSinceRead(server, now, step);
  }

  /** The server refuses to switch accounting on for an object with limits. */
  ghost predicate ChecksActivation(server: Server)
  {
    forall before, after ::
      server.admits(before, after) && !AccountingEnabled(before) && AccountingEnabled(after) ==>
        AcceleratorLimits(after) == []
  }

  /** A corollary of SwitchingStep: behind a server with that check, which applies at the step found
      there, no limits are left after the step, however the PUTs overlap. */
  lemma CheckedActivationLeavesNoLimits(server: Server, s: System, steps: seq<Step>) returns (k: nat)
    requires ChecksActivation(server)
    requires !AccountingEnabled(s.stored) && AccountingEnabled(Run(server, s, steps).stored)
    ensures k < |steps| && SwitchesOn(server, Run(server, s, steps[..k]), steps[k])
    ensures AcceleratorLimits(Run(server, s, steps[..k + 1]).stored) == []
  {
    k := SwitchingStep(server, s, steps);
    var now := Run(server, s, steps[..k]);
    assert steps[..k + 1][..k] == steps[..k];
    OneWrite(server, now, steps[k]);
    assert server.admits(now.stored, Next(server, now, steps[k]).stored);
  }

  const NO_QUOTA: ResourceQuota := ResourceQuota(map[], None, ResourceDetails(None, None, None, None))

  const ENABLE: ApiQuota := ApiQuota(None, None, None, None, Some(true))

  function Configure(limits: seq<ApiAccelerator>): ApiQuota
  {
    ApiQuota(None, None, None, Some(limits), None)
  }

  /** One PUT reads the quota in order to enable accounting, another one reads it and configures limits,
      then the first one writes. */
  function Overlap(limits: seq<ApiAccelerator>): seq<Step>
  {
    [Read(0, ENABLE), Read(1, Configure(limits)), Write(1, Stored), Write(0, Stored)]
  }

  lemma ConfigureTarget(server: Server, limits: seq<ApiAccelerator>) returns (target: ResourceQuota)
    requires limits != [] && AcceleratorsToCrd(limits).Success?
    ensures Target(Configure(limits), NO_QUOTA) == Success(target)
    ensures AcceleratorLimits(target) != [] && !AccountingEnabled(target)
    ensures Apply(Diff(server, NO_QUOTA, target), NO_QUOTA) == target
  {
    target := Target(Configure(limits), NO_QUOTA).value;
    var first := AcceleratorQuota(limits[0].provider, ParseList(limits[0].resources));
    assert Behind([first], AcceleratorsToCrd(limits[1..]))
        == AcceleratorsToCrd(limits);
    ApplyDiff(server, Configure(limits), NO_QUOTA);
  }

  lemma EnablePatch(server: Server, current: ResourceQuota)
    requires current.labels == map[] && current.annotations.None?
    ensures Target(ENABLE, NO_QUOTA).Success?
    ensures Apply(Diff(server, NO_QUOTA, Target(ENABLE, NO_QUOTA).value), current) == Annotate(current)
    ensures AccountingEnabled(Annotate(current))
  {
    PatchOfTarget(server, ENABLE, NO_QUOTA);
    var patch := Diff(server, NO_QUOTA, Target(ENABLE, NO_QUOTA).value);
    var entry: StringMap := map[ACCOUNTING_ANNOTATION := ACCOUNTING_VALUE];
    assert (current.labels - patch.removedLabels) + patch.setLabels == current.labels;
    assert OrEmptyMap(current.annotations) + entry == entry;
    assert ACCOUNTING_ANNOTATION in patch.setAnnotations;
  }

  lemma FourSteps(server: Server, s: System, a: Step, b: Step, c: Step, d: Step)
    ensures Run(server, s, [a, b, c, d]) == Next(server, Next(server, Next(server, Next(server, s, a), b), c), d)
  {
    var steps := [a, b, c, d];
    assert steps[..3] == [a, b, c] && [a, b, c][..2] == [a, b] && [a, b][..1] == [a] && [a][..0] == [];
    assert Run(server, s, [a]) == Next(server, s, a);
    assert Run(server, s, [a, b]) == Next(server, Run(server, s, [a]), b);
    assert Run(server, s, [a, b, c]) == Next(server, Run(server, s, [a, b]), c);
    assert Run(server, s, steps) == Next(server, Run(server, s, [a, b, c]), d);
  }

  /** Without that check, overlapping PUTs end with accounting enabled and limits set, which no single
      PUT does: this happens if and only if the server admits the two writes, the second of which
      switches accounting on for an object with limits. */
  lemma OverlapEnablesWithLimitsIff(server: Server, limits: seq<ApiAccelerator>)
    requires limits != [] && AcceleratorsToCrd(limits).Success?
    ensures Target(Configure(limits), NO_QUOTA).Success?
    ensures var end := Run(server, System(NO_QUOTA, map[]), Overlap(limits)).stored;
            var configured := Target(Configure(limits), NO_QUOTA).value;
            AccountingEnabled(end) && AcceleratorLimits(end) != []
            <==> server.admits(NO_QUOTA, configured) && server.admits(configured, Annotate(configured))
  {
    var start := System(NO_QUOTA, map[]);
    FourSteps(server, start, Read(0, ENABLE), Read(1, Configure(limits)), Write(1, Stored), Write(0, Stored));
    var both := System(NO_QUOTA, map[0 := Pending(ENABLE, NO_QUOTA), 1 := Pending(Configure(limits), NO_QUOTA)]);
    assert Next(server, Next(server, start, Read(0, ENABLE)), Read(1, Configure(limits))) == both;
    var configured := ConfigureTarget(server, limits);
    var written := Next(server, both, Write(1, Stored));
    assert written.pending[0] == Pending(ENABLE, NO_QUOTA);
    EnablePatch(server, written.stored);
  }
}
