/**
 * The bookkeeping of the `Main` contract: a counter of DAO instances, the
 * instances by index, and the indices each owner has created. Creating the
 * DAO manager contract and the template manager are calls into other
 * contracts; their outcomes arrive here as parameters.
 */
module DaoRegistry {
  import opened Wrappers

  /** An account address. */
  type AccountId = seq<bv8>

  /** The largest `u64`. */
  const U64_MAX: nat := 0xFFFF_FFFF_FFFF_FFFF

  /**
   * A created DAO. The `DAOManager` contract handle is kept as the account it
   * was built from.
   */
  datatype DaoInstance = DaoInstance(id: nat, owner: AccountId, daoManager: AccountId, daoManagerAddr: AccountId)

  /** The outcome of a message: its return value, or a panic (which reverts all changes). */
  datatype Outcome<R> = Ok(value: R) | Panic

  /** An owner's list of indices, or the empty list it is created as. */
  function IdsOf(byOwner: map<AccountId, seq<nat>>, o: AccountId): seq<nat>
  {
    if o in byOwner then byOwner[o] else []
  }

  /** Instances are exactly those below the counter, each stored under its own id. */
  ghost predicate InstancesIndexed(index: nat, instances: map<nat, DaoInstance>)
  {
    && (forall i: nat :: i in instances <==> i < index)
    && (forall i :: i in instances ==> instances[i].id == i)
  }

  /** Every index in an owner's list names an instance of that owner, in increasing order. */
  ghost predicate OwnerListsSound(instances: map<nat, DaoInstance>, byOwner: map<AccountId, seq<nat>>)
  {
    && (forall o, j :: o in byOwner && 0 <= j < |byOwner[o]| ==>
          byOwner[o][j] in instances && instances[byOwner[o][j]].owner == o)
    && (forall o, j, l :: o in byOwner && 0 <= j < l < |byOwner[o]| ==> byOwner[o][j] < byOwner[o][l])
  }

  /** Every instance appears in its owner's list. */
  ghost predicate InstancesListed(instances: map<nat, DaoInstance>, byOwner: map<AccountId, seq<nat>>)
  {
    forall i :: i in instances ==> instances[i].owner in byOwner && i in byOwner[instances[i].owner]
  }

  /** The registry invariant: the counter fits a `u64` and the two maps agree with it and each other. */
  ghost predicate RegistryInvariant(index: nat, instances: map<nat, DaoInstance>, byOwner: map<AccountId, seq<nat>>)
  {
    && index <= U64_MAX
    && InstancesIndexed(index, instances)
    && OwnerListsSound(instances, byOwner)
    && InstancesListed(instances, byOwner)
  }

  /**
   * Recording instance `index` for `controller` (the bookkeeping of
   * `instance_by_template`) keeps the invariant, provided the counter can
   * still grow.
   */
  lemma RegisterKeepsInvariant(
    index: nat, instances: map<nat, DaoInstance>, byOwner: map<AccountId, seq<nat>>,
    controller: AccountId, daoAddr: AccountId)
    requires RegistryInvariant(index, instances, byOwner) && index < U64_MAX
    ensures RegistryInvariant(index + 1,
      instances[index := DaoInstance(index, controller, daoAddr, daoAddr)],
      byOwner[controller := IdsOf(byOwner, controller) + [index]])
  {
  }

  class Main {
    var owner: AccountId
    var templateAddr: Option<AccountId>
    /** The `TemplateManager` handle, kept as the account it was built from. */
    var template: Option<AccountId>
    var instanceIndex: nat
    var instanceMap: map<nat, DaoInstance>
    var instanceMapByOwner: map<AccountId, seq<nat>>

    /** The registry invariant over the fields (see `RegistryInvariant`). */
    ghost predicate Valid()
      reads this
    {
      RegistryInvariant(instanceIndex, instanceMap, instanceMapByOwner)
    }

    /** `new`: owned by `controller`, no template, no instances. */
    constructor (controller: AccountId)
      ensures Valid()
      ensures owner == controller && templateAddr == None && template == None
      ensures instanceIndex == 0 && instanceMap == map[] && instanceMapByOwner == map[]
    {
      owner := controller;
      templateAddr := None;
      template := None;
      instanceIndex := 0;
      instanceMap := map[];
      instanceMapByOwner := map[];
    }

    /**
     * `init`, given the outcome of instantiating the template manager: a
     * failed instantiation panics; otherwise both template fields hold it.
     */
    method Init(instantiated: Option<AccountId>) returns (r: Outcome<bool>)
      requires Valid()
      modifies this`template, this`templateAddr
      ensures Valid()
      ensures instantiated.None? ==> r == Panic && unchanged(this)
      ensures instantiated.Some? ==>
        r == Ok(true) && template == instantiated && templateAddr == instantiated
    {
      if instantiated.None? {
        return Panic;
      }
      template := instantiated;
      templateAddr := instantiated;
      return Ok(true);
    }

    /** `query_template_addr`: the template address, or a panic when there is none. */
    function QueryTemplateAddr(): (r: Outcome<AccountId>)
      reads this
      ensures r.Panic? <==> templateAddr.None?
      ensures r.Ok? ==> Some(r.value) == templateAddr
    {
      if templateAddr.Some? then Ok(templateAddr.value) else Panic
    }

    /**
     * `instance_by_template`, given the outcomes of the two calls into other
     * contracts: whether the template manager found the template
     * (`templateFound`) and the DAO manager's instantiation. It panics,
     * changing nothing, when the counter would overflow a `u64`, when there is
     * no template manager to ask for the template, when the lookup failed, or
     * when the instantiation failed. Otherwise it records a new instance
     * under the current counter, appends that index to the controller's list,
     * and moves the counter on by one.
     */
    method InstanceByTemplate(controller: AccountId, templateFound: bool, instantiated: Option<AccountId>)
      returns (r: Outcome<bool>)
      requires Valid()
      modifies this`instanceIndex, this`instanceMap, this`instanceMapByOwner
      ensures Valid()
      ensures r.Panic? <==>
        (old(instanceIndex) == U64_MAX || template.None? || !templateFound || instantiated.None?)
      ensures r.Panic? ==> unchanged(this)
      ensures r.Ok? ==>
        && r.value
        && instanceIndex == old(instanceIndex) + 1
        && instanceMap == old(instanceMap)[old(instanceIndex) :=
             DaoInstance(old(instanceIndex), controller, instantiated.value, instantiated.value)]
        && instanceMapByOwner == old(instanceMapByOwner)[controller :=
             IdsOf(old(instanceMapByOwner), controller) + [old(instanceIndex)]]
    {
      if !(instanceIndex + 1 <= U64_MAX) {
        return Panic;
      }
      if template.None? || !templateFound {
        return Panic;
      }
      if instantiated.None? {
        return Panic;
      }
      var daoAddr := instantiated.value;
      RegisterKeepsInvariant(instanceIndex, instanceMap, instanceMapByOwner, controller, daoAddr);
      var ids := IdsOf(instanceMapByOwner, controller);
      instanceMapByOwner := instanceMapByOwner[controller := ids + [instanceIndex]];
      instanceMap := instanceMap[instanceIndex := DaoInstance(instanceIndex, controller, daoAddr, daoAddr)];
      instanceIndex := instanceIndex + 1;
      return Ok(true);
    }

    /**
     * `list_dao_instances`: one copy of every stored instance, in an order
     * this model leaves open; in a valid registry no instance twice.
     */
    method ListDaoInstances() returns (daos: seq<DaoInstance>)
      ensures |daos| == |instanceMap|
      ensures forall j :: 0 <= j < |daos| ==> daos[j] in instanceMap.Values
      ensures forall i :: i in instanceMap ==> instanceMap[i] in daos
      ensures Valid() ==> forall j, l :: 0 <= j < l < |daos| ==> daos[j].id != daos[l].id
    {
      daos := [];
      var remaining := instanceMap.Keys;
      ghost var visited: seq<nat> := [];
      while remaining != {}
        invariant remaining <= instanceMap.Keys
        invariant |visited| == |daos|
        invariant |daos| + |remaining| == |instanceMap|
        invariant forall j :: 0 <= j < |visited| ==>
          visited[j] in instanceMap && visited[j] !in remaining && daos[j] == instanceMap[visited[j]]
        invariant forall j, l :: 0 <= j < l < |visited| ==> visited[j] != visited[l]
        invariant forall i :: i in instanceMap && i !in remaining ==> instanceMap[i] in daos
        decreases |remaining|
      {
        var i :| i in remaining;
        daos := daos + [instanceMap[i]];
        visited := visited + [i];
        remaining := remaining - {i};
      }
    }

    /**
     * `list_dao_instances_by_owner`: panics when `o` has no list, or when an
     * index in it has no instance; otherwise the instances of `o`'s list, in
     * list order. In a valid registry only the first panic can happen, and the
     * result is exactly the instances owned by `o`.
     */
    method ListDaoInstancesByOwner(o: AccountId) returns (r: Outcome<seq<DaoInstance>>)
      ensures r.Ok? <==>
        o in instanceMapByOwner && forall j :: 0 <= j < |instanceMapByOwner[o]| ==> instanceMapByOwner[o][j] in instanceMap
      ensures r.Ok? ==>
        && |r.value| == |instanceMapByOwner[o]|
        && forall j :: 0 <= j < |r.value| ==> r.value[j] == instanceMap[instanceMapByOwner[o][j]]
      ensures Valid() ==> (r.Ok? <==> o in instanceMapByOwner)
      ensures Valid() && r.Ok? ==>
        && (forall j :: 0 <= j < |r.value| ==> r.value[j].owner == o)
        && (forall i :: i in instanceMap && instanceMap[i].owner == o ==> instanceMap[i] in r.value)
    {
      if o !in instanceMapByOwner {
        return Panic;
      }
      var ids := instanceMapByOwner[o];
      var daos := [];
      var n := 0;
      while n < |ids|
        invariant n <= |ids|
        invariant forall j :: 0 <= j < n ==> ids[j] in instanceMap
        invariant |daos| == n
        invariant forall j :: 0 <= j < n ==> daos[j] == instanceMap[ids[j]]
      {
        if ids[n] !in instanceMap {
          return Panic;
        }
        daos := daos + [instanceMap[ids[n]]];
        n := n + 1;
      }
      if Valid() {
        forall i | i in instanceMap && instanceMap[i].owner == o
          ensures instanceMap[i] in daos
        {
          var j :| 0 <= j < |ids| && ids[j] == i;
          assert daos[j] == instanceMap[i];
        }
      }
      return Ok(daos);
    }
  }
}
