/**
 * The contract and variant tables. Each store call is one transaction and a function on
 * the tables; class PublishDB runs the same statements.
 */
module PublishStore {
  import opened Prelude
  import opened Contracts
  import opened Compiler
  import opened Backends

  type OperatorId(==, !new)
  type VariantId(==, !new)
  type JobId(==, !new)
  // Texts that are only compared: workspaces, artifact references, messages.
  type Label(==, !new)

  datatype Operator = Operator(workspace: Label, name: string, displayName: string, description: string)

  /** A saved contract in the order it was saved in, with the digest it was saved under. */
  datatype Version = Version(operator: OperatorId, number: nat, digest: Digest, sourceRef: string, contract: Contract)

  datatype VariantStatus = CompiledOnly | Published | VariantFailed

  datatype Variant = Variant(
    contract: ContractId, backend: Backend, key: VariantKey, content: BackendContract,
    status: VariantStatus, publishedRef: Option<Label>, lastError: Option<Label>)

  datatype JobStatus = Pending | Running | Ready | Failed

  datatype Job = Job(variant: VariantId, status: JobStatus, artifact: Option<Label>, error: Option<Label>)

  /** The maps after each table are its unique indexes. */
  datatype Tables = Tables(
    operators: map<OperatorId, Operator>, byName: map<(Label, string), OperatorId>,
    versions: map<ContractId, Version>, byDigest: map<(OperatorId, Digest), ContractId>,
    variants: map<VariantId, Variant>, byKey: map<(ContractId, Backend, VariantKey), VariantId>,
    jobs: map<JobId, Job>)

  const EMPTY := Tables(map[], map[], map[], map[], map[], map[], map[])

  // ---------------------------------------------------------------- contracts

  function Numbers(versions: map<ContractId, Version>, operator: OperatorId): set<nat> {
    set c | c in versions && versions[c].operator == operator :: versions[c].number
  }

  predicate Largest(numbers: set<nat>, n: nat) {
    n in numbers && forall k :: k in numbers ==> k <= n
  }

  lemma {:induction false} LargestExists(numbers: set<nat>)
    requires numbers != {}
    ensures exists n :: Largest(numbers, n)
    decreases |numbers|
  {
    var k :| k in numbers;
    var rest := numbers - {k};
    if rest == {} {
      assert forall m :: m in numbers ==> m == k || m in rest;
      assert Largest(numbers, k);
    } else {
      LargestExists(rest);
      var n :| Largest(rest, n);
      assert forall m :: m in numbers ==> m == k || m in rest;
      assert Largest(numbers, if k > n then k else n);
    }
  }

  /** COALESCE(MAX(version), 0). */
  function Max(numbers: set<nat>): (n: nat)
    ensures if numbers == {} then n == 0 else Largest(numbers, n)
  {
    if numbers == {} then 0
    else
      LargestExists(numbers);
      var n: nat :| Largest(numbers, n);
      n
  }

  datatype Saved = Saved(operator: OperatorId, contract: ContractId, created: bool)

  function OperatorRow(workspace: Label, c: Contract): Operator {
    Operator(workspace, c.name, c.displayName, c.description)
  }

  function OperatorFor(t: Tables, row: Operator, uuid: OperatorId): OperatorId {
    if (row.workspace, row.name) in t.byName then t.byName[(row.workspace, row.name)] else uuid
  }

  function Upserted(t: Tables, row: Operator, uuid: OperatorId): Tables {
    var operator := OperatorFor(t, row, uuid);
    t.(operators := t.operators[operator := row], byName := t.byName[(row.workspace, row.name) := operator])
  }

  /** save_virtual_contract; None when the insert breaks NOT NULL and the transaction rolls back. */
  function Save(t: Tables, workspace: Label, c: Contract, operatorUuid: OperatorId,
                contractUuid: ContractId): Option<(Saved, Tables)> {
    var row := OperatorRow(workspace, c);
    var operator := OperatorFor(t, row, operatorUuid);
    var t1 := Upserted(t, row, operatorUuid);
    var place := (operator, DigestOf(c));
    if place in t.byDigest then Some((Saved(operator, t.byDigest[place], false), t1))
    else if c.origin.ref.None? then None
    else
      var version := Version(operator, Max(Numbers(t.versions, operator)) + 1, DigestOf(c), c.origin.ref.value, c);
      Some((Saved(operator, contractUuid, true),
            t1.(versions := t.versions[contractUuid := version], byDigest := t.byDigest[place := contractUuid])))
  }

  // ---------------------------------------------------------------- variants and jobs

  function Recompiled(status: VariantStatus): VariantStatus {
    if status.Published? then Published else CompiledOnly
  }

  /** upsert_variant; None when the contract does not exist. */
  function Upsert(t: Tables, contract: ContractId, backend: Backend, key: VariantKey, content: BackendContract,
                  uuid: VariantId): Option<(VariantId, Tables)> {
    if contract !in t.versions then None
    else if (contract, backend, key) in t.byKey && t.byKey[(contract, backend, key)] in t.variants then
      var v := t.byKey[(contract, backend, key)];
      var row := t.variants[v];
      Some((v, t.(variants := t.variants[v := row.(content := content, lastError := None,
                                                   status := Recompiled(row.status))])))
    else
      Some((uuid, t.(variants := t.variants[uuid := Variant(contract, backend, key, content, CompiledOnly, None, None)],
                     byKey := t.byKey[(contract, backend, key) := uuid])))
  }

  function CreateJob(t: Tables, v: VariantId, uuid: JobId): Option<Tables> {
    if v !in t.variants then None else Some(t.(jobs := t.jobs[uuid := Job(v, Pending, None, None)]))
  }

  function MarkRunning(t: Tables, j: JobId): Tables {
    if j in t.jobs then t.(jobs := t.jobs[j := t.jobs[j].(status := Running)]) else t
  }

  function MarkReady(t: Tables, j: JobId, v: VariantId, artifact: Label): Tables {
    t.(jobs := if j in t.jobs
         then t.jobs[j := t.jobs[j].(status := Ready, artifact := Some(artifact), error := None)]
         else t.jobs,
       variants := if v in t.variants
         then t.variants[v := t.variants[v].(status := Published, publishedRef := Some(artifact), lastError := None)]
         else t.variants)
  }

  function Spoiled(status: VariantStatus): VariantStatus {
    if status.Published? then Published else VariantFailed
  }

  function MarkFailed(t: Tables, j: JobId, v: VariantId, message: Label): Tables {
    t.(jobs := if j in t.jobs then t.jobs[j := t.jobs[j].(status := Failed, error := Some(message))] else t.jobs,
       variants := if v in t.variants
         then t.variants[v := t.variants[v].(status := Spoiled(t.variants[v].status), lastError := Some(message))]
         else t.variants)
  }

  // ---------------------------------------------------------------- the store object

  /** Contracts, variants other than `v` and jobs other than `j` are as they were. */
  ghost predicate OnlyRows(t: Tables, t': Tables, v: Option<VariantId>, j: Option<JobId>) {
    && t'.operators == t.operators && t'.byName == t.byName && t'.versions == t.versions && t'.byDigest == t.byDigest
    && (forall u :: v != Some(u) ==> (u in t'.variants <==> u in t.variants) && (u in t.variants ==>
          t'.variants[u] == t.variants[u]))
    && (forall i :: j != Some(i) ==> (i in t'.jobs <==> i in t.jobs) && (i in t.jobs ==> t'.jobs[i] == t.jobs[i]))
  }

  predicate StaysPublishedRow(row: Variant, row': Variant) {
    row'.contract == row.contract && row'.key == row.key
      && (row.status.Published? ==> row'.status.Published? && row'.publishedRef == row.publishedRef)
  }

  class PublishDB {
    var operators: map<OperatorId, Operator>
    var byName: map<(Label, string), OperatorId>
    var versions: map<ContractId, Version>
    var byDigest: map<(OperatorId, Digest), ContractId>
    var variants: map<VariantId, Variant>
    var byKey: map<(ContractId, Backend, VariantKey), VariantId>
    var jobs: map<JobId, Job>

    function Contents(): Tables
      reads this
    {
      Tables(operators, byName, versions, byDigest, variants, byKey, jobs)
    }

    constructor ()
      ensures Contents() == EMPTY
    {
      operators, byName, versions, byDigest, variants, byKey, jobs := map[], map[], map[], map[], map[], map[], map[];
    }

    /** An insert that breaks NOT NULL undoes the operator row as well. */
    method SaveVirtualContract(workspace: Label, c: Contract, operatorUuid: OperatorId, contractUuid: ContractId)
      returns (saved: Option<Saved>)
      modifies this
      ensures match Save(old(Contents()), workspace, c, operatorUuid, contractUuid)
        case Some((s, t)) => saved == Some(s) && Contents() == t
        case None => saved == None && Contents() == old(Contents())
      ensures variants == old(variants) && byKey == old(byKey) && jobs == old(jobs)
      ensures saved.Some? && !saved.value.created ==> versions == old(versions) && byDigest == old(byDigest)
      ensures saved.Some? <==>
        || c.origin.ref.Some?
        || (if (workspace, c.name) in old(byName) then old(byName)[(workspace, c.name)] else operatorUuid, DigestOf(c))
             in old(byDigest)
      ensures saved.Some? ==>
        var o := saved.value.operator;
        && o == (if (workspace, c.name) in old(byName) then old(byName)[(workspace, c.name)] else operatorUuid)
        && operators == old(operators)[o := Operator(workspace, c.name, c.displayName, c.description)]
        && byName == old(byName)[(workspace, c.name) := o]
        && (saved.value.created <==> (o, DigestOf(c)) !in old(byDigest))
        && (o, DigestOf(c)) in byDigest && byDigest[(o, DigestOf(c))] == saved.value.contract
      ensures saved.Some? && saved.value.created ==>
        && c.origin.ref.Some? && saved.value.contract == contractUuid && contractUuid in versions
        && versions == old(versions)[contractUuid := versions[contractUuid]]
        && versions[contractUuid].contract == c && versions[contractUuid].operator == saved.value.operator
        && versions[contractUuid].digest == DigestOf(c) && versions[contractUuid].sourceRef == c.origin.ref.value
        && versions[contractUuid].number == Max(Numbers(old(versions), saved.value.operator)) + 1
        && byDigest == old(byDigest)[(saved.value.operator, DigestOf(c)) := contractUuid]
    {
      hide DigestOf, Max, Numbers;
      var row := OperatorRow(workspace, c);
      var place := (workspace, c.name);
      var operator := if place in byName then byName[place] else operatorUuid;
      var digest := DigestOf(c);
      if (operator, digest) !in byDigest && c.origin.ref.None? {
        return None;
      }
      operators, byName := operators[operator := row], byName[place := operator];
      if (operator, digest) in byDigest {
        return Some(Saved(operator, byDigest[(operator, digest)], false));
      }
      var next := Max(Numbers(versions, operator)) + 1;
      versions := versions[contractUuid := Version(operator, next, digest, c.origin.ref.value, c)];
      byDigest := byDigest[(operator, digest) := contractUuid];
      return Some(Saved(operator, contractUuid, true));
    }

    method UpsertVariant(contract: ContractId, backend: Backend, key: VariantKey, content: BackendContract,
                         uuid: VariantId)
      returns (v: Option<VariantId>)
      modifies this
      ensures match Upsert(old(Contents()), contract, backend, key, content, uuid)
        case Some((id, t)) => v == Some(id) && Contents() == t
        case None => v == None && Contents() == old(Contents())
      ensures OnlyRows(old(Contents()), Contents(), v, None)
      ensures v.Some? ==>
        v.value in variants && variants[v.value].content == content && variants[v.value].lastError.None?
      ensures v.Some? <==> contract in versions
      ensures v.Some? ==> (contract, backend, key) in byKey && byKey[(contract, backend, key)] == v.value
      ensures v.Some? && v.value in old(variants) && v.value != uuid ==>
        && StaysPublishedRow(old(variants)[v.value], variants[v.value])
        && (!old(variants)[v.value].status.Published? ==> variants[v.value].status == CompiledOnly)
      ensures v == Some(uuid) && uuid !in old(variants) ==>
        variants[uuid] == Variant(contract, backend, key, content, CompiledOnly, None, None)
    {
      if contract !in versions { return None; }
      var place := (contract, backend, key);
      if place in byKey && byKey[place] in variants {
        var row := variants[byKey[place]];
        var status := if row.status.Published? then Published else CompiledOnly;
        variants := variants[byKey[place] := row.(content := content, status := status, lastError := None)];
        return Some(byKey[place]);
      }
      variants := variants[uuid := Variant(contract, backend, key, content, CompiledOnly, None, None)];
      byKey := byKey[place := uuid];
      return Some(uuid);
    }

    method CreatePublishJob(v: VariantId, uuid: JobId) returns (created: bool)
      modifies this
      ensures match CreateJob(old(Contents()), v, uuid)
        case Some(t) => created && Contents() == t
        case None => !created && Contents() == old(Contents())
      ensures OnlyRows(old(Contents()), Contents(), None, Some(uuid))
      ensures (created <==> v in variants) && (created ==> uuid in jobs && jobs[uuid] == Job(v, Pending, None, None))
    {
      created := v in variants;
      if created { jobs := jobs[uuid := Job(v, Pending, None, None)]; }
    }

    method MarkJobRunning(j: JobId)
      modifies this
      ensures Contents() == MarkRunning(old(Contents()), j)
      ensures OnlyRows(old(Contents()), Contents(), None, Some(j))
      ensures jobs.Keys == old(jobs).Keys && (j in jobs ==> jobs[j] == old(jobs)[j].(status := Running))
    {
      if j in jobs { jobs := jobs[j := jobs[j].(status := Running)]; }
    }

    method MarkJobReady(j: JobId, v: VariantId, artifact: Label)
      modifies this
      ensures Contents() == MarkReady(old(Contents()), j, v, artifact)
      ensures OnlyRows(old(Contents()), Contents(), Some(v), Some(j))
      ensures jobs.Keys == old(jobs).Keys && variants.Keys == old(variants).Keys
      ensures j in jobs ==> jobs[j] == Job(old(jobs)[j].variant, Ready, Some(artifact), None)
      ensures v in variants ==>
        variants[v] == old(variants)[v].(status := Published, publishedRef := Some(artifact), lastError := None)
    {
      if j in jobs { jobs := jobs[j := jobs[j].(status := Ready, artifact := Some(artifact), error := None)]; }
      if v in variants {
        variants := variants[v := variants[v].(status := Published, publishedRef := Some(artifact), lastError := None)];
      }
    }

    method MarkJobFailed(j: JobId, v: VariantId, message: Label)
      modifies this
      ensures Contents() == MarkFailed(old(Contents()), j, v, message)
      ensures OnlyRows(old(Contents()), Contents(), Some(v), Some(j))
      ensures jobs.Keys == old(jobs).Keys && variants.Keys == old(variants).Keys
      ensures j in jobs ==> jobs[j] == Job(old(jobs)[j].variant, Failed, old(jobs)[j].artifact, Some(message))
      ensures v in variants && old(variants)[v].status == Published ==>
        variants[v] == old(variants)[v].(lastError := Some(message))
      ensures v in variants && old(variants)[v].status != Published ==>
        variants[v] == old(variants)[v].(status := VariantFailed, lastError := Some(message))
    {
      if j in jobs { jobs := jobs[j := jobs[j].(status := Failed, error := Some(message))]; }
      if v in variants {
        var status := if variants[v].status.Published? then Published else VariantFailed;
        variants := variants[v := variants[v].(status := status, lastError := Some(message))];
      }
    }
  }
}
