/** Pre-requisite checks run before the hub is deployed in an organization
    (preReqManager/lib/preReqManager.ts). */
module PreReq {
  import opened Common

  /** The organization details as Organizations describes them. */
  datatype Organization = Organization(featureSet: Option<string>, masterAccountId: Option<string>)

  const StackSetsPrincipal := "member.org.stacksets.cloudformation.amazonaws.com"

  const NotFullFeatures := IncorrectConfiguration("Organization must be set with full-features")
  const NotManagementAccount := IncorrectConfiguration("The template must be deployed in Organization Management account")
  const ManagementAsAdministrator :=
    IncorrectConfiguration("Cannot register Management account as a delegated StackSet administrator")

  /** A call made to Organizations. */
  datatype OrgCall = EnableAWSServiceAccess(principal: string)
                   | RegisterDelegatedAdministrator(accountId: string, principal: string)

  /** A PreReqManager for the account the stack is deployed in; `calls`
      records what it asked of Organizations, in order. */
  class PreReqManager {
    const accountId: string
    var calls: seq<OrgCall>

    constructor (accountId: string)
      ensures this.accountId == accountId && calls == []
    {
      this.accountId := accountId;
      calls := [];
    }

    /** throwIfOrgMisconfigured, given the organization details (None when
        there are none): the feature set is checked before the management
        account, and no details means nothing to object to. */
    function ThrowIfOrgMisconfigured(org: Option<Organization>): (r: Outcome)
      ensures org.None? ==> r.Pass?
      ensures org.Some? && org.value.featureSet != Some("ALL") ==> r == Fail(NotFullFeatures)
      ensures org.Some? && org.value.featureSet == Some("ALL") ==>
        (r.Pass? <==> org.value.masterAccountId == Some(accountId))
      ensures r.Fail? ==> r == Fail(NotFullFeatures) || r == Fail(NotManagementAccount)
    {
      if org.Some? && org.value.featureSet != Some("ALL") then Fail(NotFullFeatures)
      else if org.Some? && org.value.masterAccountId != Some(accountId) then Fail(NotManagementAccount)
      else Pass
    }

    /** enableTrustedAccess */
    method EnableTrustedAccess()
      modifies this
      ensures calls == old(calls) + [EnableAWSServiceAccess(StackSetsPrincipal)]
    {
      calls := calls + [EnableAWSServiceAccess(StackSetsPrincipal)];
    }

    /** registerDelegatedAdministrator: refuses, without any call, to make
        the deploying (management) account its own delegated administrator;
        otherwise registers the monitoring account once. */
    method RegisterDelegatedAdministratorFor(monitoringAccountId: string) returns (r: Outcome)
      modifies this
      ensures r.Fail? <==> monitoringAccountId == accountId
      ensures r.Fail? ==> r.error == ManagementAsAdministrator && calls == old(calls)
      ensures r.Pass? ==> calls == old(calls) + [RegisterDelegatedAdministrator(monitoringAccountId, StackSetsPrincipal)]
    {
      if accountId == monitoringAccountId {
        return Fail(ManagementAsAdministrator);
      }
      calls := calls + [RegisterDelegatedAdministrator(monitoringAccountId, StackSetsPrincipal)];
      r := Pass;
    }
  }
}
