/**
 * The legacy API's assignment of IP pools to an organisation
 * (`LegacyAPI::IPPoolsController#add_pool`, `#remove_pool`, `#assignments`):
 * guarded in-place updates of the organisation's list of IP pool ids.
 */
module LegacyApi {
  import opened Wrappers

  /**
   * How an action ends: what it renders (`render_success`, `render_error` with its code and the
   * offending id, `render_parameter_error`), or an exception it does not rescue.
   */
  datatype Response =
    | RenderSuccess(message: string)
    | RenderError(code: string, id: Option<int>)
    | RenderParameterError(message: string)
    | Raised(exception: string)

  const OrganizationNotFound: Response := RenderError("OrganizationNotFound", None)
  const SaveError: Response := RenderError("SaveError", None)

  /** What the association's ids writer raises when an id names no IP pool. */
  const RecordNotFound: Response := Raised("ActiveRecord::RecordNotFound")

  /**
   * The ids writer `ip_pool_ids=` looks up every id it is given before it assigns
   * anything; `poolExists` is the IP pool table.
   */
  predicate AllPoolsExist(ids: seq<int>, poolExists: int -> bool) {
    forall i :: 0 <= i < |ids| ==> poolExists(ids[i])
  }

  /** Ruby's `ids - [id]`: every occurrence of `id` is removed, the other ids keep their order. */
  function Difference(ids: seq<int>, id: int): (r: seq<int>)
    ensures id !in r
    ensures multiset(r) == multiset(ids)[id := 0]
  {
    if ids == [] then []
    else
      assert ids == [ids[0]] + ids[1..];
      if ids[0] == id then Difference(ids[1..], id)
      else [ids[0]] + Difference(ids[1..], id)
  }

  /** Removal works element by element, so the survivors stay in their original relative order. */
  lemma {:induction false} DifferenceAppend(xs: seq<int>, ys: seq<int>, id: int)
    ensures Difference(xs + ys, id) == Difference(xs, id) + Difference(ys, id)
  {
    if xs == [] {
      assert xs + ys == ys;
    } else {
      assert (xs + ys)[0] == xs[0] && (xs + ys)[1..] == xs[1..] + ys;
      DifferenceAppend(xs[1..], ys, id);
    }
  }

  /** Removing an id that is not there changes nothing. */
  lemma {:induction false} DifferenceAbsent(ids: seq<int>, id: int)
    requires id !in ids
    ensures Difference(ids, id) == ids
  {
    if ids != [] {
      DifferenceAbsent(ids[1..], id);
    }
  }

  /** Appending a new id and then removing it restores the original list exactly. */
  lemma {:induction false} AppendThenDifference(ids: seq<int>, id: int)
    requires id !in ids
    ensures Difference(ids + [id], id) == ids
  {
    DifferenceAppend(ids, [id], id);
    DifferenceAbsent(ids, id);
  }

  /** Rails' `blank?` on the `ip_pools` parameter: missing or an empty list. */
  predicate IsBlank(ipPools: Option<seq<int>>) {
    ipPools.None? || ipPools.value == []
  }

  /** The stored organisation record; only its IP pool assignment is modelled. */
  class Organization {
    var ipPoolIds: seq<int>

    constructor (ipPoolIds: seq<int>)
      ensures this.ipPoolIds == ipPoolIds
    {
      this.ipPoolIds := ipPoolIds;
    }
  }

  class IPPoolsController {
    /** Set before each action; nil when no organisation matched the request. */
    var organization: Organization?

    constructor (organization: Organization?)
      ensures this.organization == organization
    {
      this.organization := organization;
    }

    /**
     * Assign one more pool. An id already present is reported and changes nothing;
     * otherwise it is appended. If the extended list names a pool that does not exist, the
     * ids writer raises and nothing is stored. `saveSucceeds` is the outcome of persisting
     * the record: a failed save leaves the stored list as it was.
     */
    method AddPool(ipPoolId: int, poolExists: int -> bool, saveSucceeds: bool) returns (response: Response)
      modifies organization
      ensures organization == null ==> response == OrganizationNotFound
      ensures organization != null && ipPoolId in old(organization.ipPoolIds) ==>
        response == RenderSuccess("IP Pool already assigned to the organization")
        && organization.ipPoolIds == old(organization.ipPoolIds)
      ensures organization != null && ipPoolId !in old(organization.ipPoolIds) ==>
        var extended := old(organization.ipPoolIds) + [ipPoolId];
        && (!AllPoolsExist(extended, poolExists) ==>
              response == RecordNotFound && organization.ipPoolIds == old(organization.ipPoolIds))
        && (AllPoolsExist(extended, poolExists) && saveSucceeds ==>
              response == RenderSuccess("IP Pool added to organization successfully")
              && organization.ipPoolIds == extended)
        && (AllPoolsExist(extended, poolExists) && !saveSucceeds ==>
              response == SaveError && organization.ipPoolIds == old(organization.ipPoolIds))
    {
      if organization == null {
        return OrganizationNotFound;
      }
      var current := organization.ipPoolIds;
      if ipPoolId in current {
        return RenderSuccess("IP Pool already assigned to the organization");
      }
      var updated := current + [ipPoolId];
      if !AllPoolsExist(updated, poolExists) {
        return RecordNotFound;
      }
      if saveSucceeds {
        organization.ipPoolIds := updated;
        response := RenderSuccess("IP Pool added to organization successfully");
      } else {
        response := SaveError;
      }
    }

    /**
     * Unassign a pool. An id that is not assigned is an error and changes nothing;
     * otherwise every occurrence of it is removed.
     */
    method RemovePool(ipPoolId: int, saveSucceeds: bool) returns (response: Response)
      modifies organization
      ensures organization == null ==> response == OrganizationNotFound
      ensures organization != null && ipPoolId !in old(organization.ipPoolIds) ==>
        response == RenderError("IPPoolNotAssigned", Some(ipPoolId))
        && organization.ipPoolIds == old(organization.ipPoolIds)
      ensures organization != null && ipPoolId in old(organization.ipPoolIds) && saveSucceeds ==>
        response == RenderSuccess("IP Pool removed from organization successfully")
        && organization.ipPoolIds == Difference(old(organization.ipPoolIds), ipPoolId)
      ensures organization != null && ipPoolId in old(organization.ipPoolIds) && !saveSucceeds ==>
        response == SaveError && organization.ipPoolIds == old(organization.ipPoolIds)
    {
      if organization == null {
        return OrganizationNotFound;
      }
      var current := organization.ipPoolIds;
      if ipPoolId !in current {
        return RenderError("IPPoolNotAssigned", Some(ipPoolId));
      }
      var updated := Difference(current, ipPoolId);
      if saveSucceeds {
        organization.ipPoolIds := updated;
        response := RenderSuccess("IP Pool removed from organization successfully");
      } else {
        response := SaveError;
      }
    }

    /**
     * Replace the whole assignment with the requested ids. A blank request is a parameter error;
     * a request naming a pool that does not exist makes the ids writer raise, storing nothing.
     */
    method Assignments(ipPools: Option<seq<int>>, poolExists: int -> bool, saveSucceeds: bool) returns (response: Response)
      modifies organization
      ensures organization == null ==> response == OrganizationNotFound
      ensures organization != null && IsBlank(ipPools) ==>
        response == RenderParameterError("`ip_pools` parameter is required but missing")
        && organization.ipPoolIds == old(organization.ipPoolIds)
      ensures organization != null && !IsBlank(ipPools) && !AllPoolsExist(ipPools.value, poolExists) ==>
        response == RecordNotFound && organization.ipPoolIds == old(organization.ipPoolIds)
      ensures organization != null && !IsBlank(ipPools) && AllPoolsExist(ipPools.value, poolExists) && saveSucceeds ==>
        response == RenderSuccess("Organization IP pools have been updated successfully")
        && organization.ipPoolIds == ipPools.value
      ensures organization != null && !IsBlank(ipPools) && AllPoolsExist(ipPools.value, poolExists) && !saveSucceeds ==>
        response == SaveError && organization.ipPoolIds == old(organization.ipPoolIds)
    {
      if organization == null {
        return OrganizationNotFound;
      }
      if IsBlank(ipPools) {
        return RenderParameterError("`ip_pools` parameter is required but missing");
      }
      if !AllPoolsExist(ipPools.value, poolExists) {
        return RecordNotFound;
      }
      if saveSucceeds {
        organization.ipPoolIds := ipPools.value;
        response := RenderSuccess("Organization IP pools have been updated successfully");
      } else {
        response := SaveError;
      }
    }
  }

  /** Adding an existing pool that was not assigned and then removing it leaves the organisation as it was. */
  method AddThenRemovePool(controller: IPPoolsController, ipPoolId: int, poolExists: int -> bool)
    requires controller.organization != null && ipPoolId !in controller.organization.ipPoolIds
    requires AllPoolsExist(controller.organization.ipPoolIds + [ipPoolId], poolExists)
    modifies controller.organization
    ensures controller.organization.ipPoolIds == old(controller.organization.ipPoolIds)
  {
    var added := controller.AddPool(ipPoolId, poolExists, true);
    assert added == RenderSuccess("IP Pool added to organization successfully");
    var removed := controller.RemovePool(ipPoolId, true);
    assert removed == RenderSuccess("IP Pool removed from organization successfully");
    AppendThenDifference(old(controller.organization.ipPoolIds), ipPoolId);
  }
}
