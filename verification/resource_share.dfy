/**
 * `ResourceShare`: one resource share, whose principal and resource lists grow
 * through all-or-nothing validators and whose status and settings are
 * overwritten in place.
 */
module RamShares {
  import opened Results
  import opened RamText
  import opened RamErrors
  import opened Seqs

  /** `SHAREABLE_RESOURCES`: the resource types (the captured group of a resource ARN) that can be shared. */
  const ShareableResources: seq<string> := [
    "cluster", "component", "core-network", "group", "image", "image-recipe",
    "license-configuration", "mesh", "prefix-list", "project", "report-group",
    "resolver-rule", "subnet", "transit-gateway", "database", "table", "catalog"
  ]

  datatype ShareStatus = Active | Deleted

  /** Everything observable about a share: the fields `describe()` reports and the two lists. */
  datatype ShareState = ShareState(
    arn: string,
    name: string,
    owningAccountId: string,
    allowExternalPrincipals: bool,
    featureSet: string,
    status: ShareStatus,
    principals: seq<string>,
    resourceArns: seq<string>)

  /**
   * What the Organizations backend answers about organization principals: the
   * ARN of the caller's organization, and the ARNs of the organizational units
   * listed under a root of that organization.
   */
  datatype Organizations = Organizations(organizationArn: string, unitArns: set<string>)

  /** The ARN of a new share; the partition and the random identifier are inputs. */
  function ShareArn(partition: string, region: string, accountId: string, shareId: string): string {
    "arn:" + partition + ":ram:" + region + ":" + accountId + ":resource-share/" + shareId
  }

  /** The state `ResourceShare.__init__` sets up. */
  function InitialState(partition: string, region: string, accountId: string, shareId: string,
                        name: string, allowExternalPrincipals: Option<bool>): ShareState
  {
    ShareState(ShareArn(partition, region, accountId, shareId), name, accountId,
               allowExternalPrincipals.GetOr(true), "STANDARD", Active, [], [])
  }

  /** What `update` does to a share: the supplied settings replace the old ones, the others stay. */
  function UpdateState(s: ShareState, name: Option<string>, allowExternalPrincipals: Option<bool>): ShareState {
    s.(name := name.GetOr(s.name), allowExternalPrincipals := allowExternalPrincipals.GetOr(s.allowExternalPrincipals))
  }

  /** An update that supplies nothing changes nothing, and repeating an update changes nothing more. */
  lemma UpdateStateKeeps(s: ShareState, name: Option<string>, allowExternalPrincipals: Option<bool>)
    ensures UpdateState(s, None, None) == s
    ensures UpdateState(UpdateState(s, name, allowExternalPrincipals), name, allowExternalPrincipals)
         == UpdateState(s, name, allowExternalPrincipals)
    ensures var r := UpdateState(s, name, allowExternalPrincipals);
      r.arn == s.arn && r.status == s.status && r.principals == s.principals && r.resourceArns == s.resourceArns
  {
  }

  // ---------------------------------------------------------------------
  // Principal validation (the first loop of add_principals)

  /** The principal matches the organization pattern. */
  predicate OrganizationShaped(p: string) {
    ParseOrganizationArn(Chomp(p)).Some?
  }

  /** The principal matches the organizational-unit pattern. */
  predicate UnitShaped(p: string) {
    ParseUnitArn(Chomp(p)).Some?
  }

  /** What add_principals decides about one principal. */
  function CheckPrincipal(orgs: Organizations, p: string): (r: Outcome<RamError>)
    ensures r.Fail? ==> r.error.UnknownResource? || r.error.InvalidParameter?
    ensures (r.Fail? && r.error.UnknownResource?) <==>
      || (OrganizationShaped(p) && p != orgs.organizationArn)
      || (!OrganizationShaped(p) && UnitShaped(p) && p !in orgs.unitArns)
    ensures (r.Fail? && r.error.InvalidParameter?) <==>
      !OrganizationShaped(p) && !UnitShaped(p) && !MatchesAccountId(p)
    ensures OrganizationShaped(p) && p != orgs.organizationArn ==>
      r == Fail(UnknownResource("Organization " + ParseOrganizationArn(Chomp(p)).value.orgId + " could not be found."))
    ensures !OrganizationShaped(p) && UnitShaped(p) && p !in orgs.unitArns ==>
      r == Fail(UnknownResource("OrganizationalUnit " + ParseUnitArn(Chomp(p)).value.unitId
                                + " in unknown organization could not be found."))
    ensures r.Fail? && r.error.InvalidParameter? ==>
      r.error.message == "Principal ID " + p + " is malformed. Verify the ID and try again."
  {
    match ParseOrganizationArn(Chomp(p))
    case Some(a) =>
      if p == orgs.organizationArn then Pass
      else Fail(UnknownResource("Organization " + a.orgId + " could not be found."))
    case None =>
      match ParseUnitArn(Chomp(p))
      case Some(u) =>
        if p in orgs.unitArns then Pass
        else Fail(UnknownResource("OrganizationalUnit " + u.unitId + " in unknown organization could not be found."))
      case None =>
        if MatchesAccountId(p) then Pass
        else Fail(InvalidParameter("Principal ID " + p + " is malformed. Verify the ID and try again."))
  }

  /** `CheckPrincipal` against a fixed Organizations view, as a function value to run over a list. */
  function PrincipalValidator(orgs: Organizations): string -> Outcome<RamError> {
    p => CheckPrincipal(orgs, p)
  }

  /** The first loop of add_principals: the first failing principal's error, if any. */
  function CheckPrincipals(orgs: Organizations, ps: seq<string>): Outcome<RamError> {
    FirstFailure(PrincipalValidator(orgs), ps)
  }

  // ---------------------------------------------------------------------
  // Resource validation (the first loop of add_resources)

  /** What add_resources decides about one resource ARN. */
  function CheckResource(arn: string): (r: Outcome<RamError>)
    ensures r.Fail? ==> r.error.MalformedArn?
    ensures r.Pass? <==> MatchResourceArn(arn).Some? && MatchResourceArn(arn).value.resourceType in ShareableResources
    ensures MatchResourceArn(arn).None? ==>
      r == Fail(MalformedArn("The specified resource ARN " + arn + " is not valid. Verify the ARN and try again."))
    ensures MatchResourceArn(arn).Some? && MatchResourceArn(arn).value.resourceType !in ShareableResources ==>
      r == Fail(MalformedArn("You cannot share the selected resource type."))
  {
    match MatchResourceArn(arn)
    case None =>
      Fail(MalformedArn("The specified resource ARN " + arn + " is not valid. Verify the ARN and try again."))
    case Some(a) =>
      if a.resourceType !in ShareableResources then Fail(MalformedArn("You cannot share the selected resource type."))
      else Pass
  }

  /** The first loop of add_resources: the first failing ARN's error, if any. */
  function CheckResources(arns: seq<string>): Outcome<RamError> {
    FirstFailure(CheckResource, arns)
  }

  /** add_principals accepts the list exactly when it accepts every principal in it. */
  lemma PrincipalsAcceptedIffEach(orgs: Organizations, ps: seq<string>)
    ensures CheckPrincipals(orgs, ps) == Pass <==> forall i :: 0 <= i < |ps| ==> CheckPrincipal(orgs, ps[i]) == Pass
  {
    FirstFailurePass(PrincipalValidator(orgs), ps);
  }

  /** add_resources accepts the list exactly when it accepts every ARN in it. */
  lemma ResourcesAcceptedIffEach(arns: seq<string>)
    ensures CheckResources(arns) == Pass <==> forall i :: 0 <= i < |arns| ==> CheckResource(arns[i]) == Pass
  {
    FirstFailurePass(CheckResource, arns);
  }

  /** A rendered resource ARN never ends in a newline, so `$` reads it as it is. */
  lemma RenderedArnHasNoFinalNewline(a: ResourceArn)
    requires WellFormedResourceArn(a)
    ensures Chomp(RenderResourceArn(a)) == RenderResourceArn(a)
  {
    var t := RenderResourceArn(a);
    var suffix := [a.separator] + a.tail;
    assert t == (ArnPrefix + (a.service + (":" + (a.region + (":" + (a.account + (":" + a.resourceType))))))) + suffix;
    assert t[|t| - 1] == suffix[|suffix| - 1];
    if |a.tail| > 0 {
      assert suffix[|suffix| - 1] == a.tail[|a.tail| - 1];
      assert a.tail[|a.tail| - 1] in a.tail;
    }
  }

  /**
   * add_resources accepts every well-formed ARN of a shareable type, written
   * out in full or followed by one newline, and rejects the other types.
   */
  lemma ShareableArnAccepted(a: ResourceArn)
    requires WellFormedResourceArn(a)
    ensures CheckResource(RenderResourceArn(a)).Pass? <==> a.resourceType in ShareableResources
    ensures CheckResource(RenderResourceArn(a) + "\n").Pass? <==> a.resourceType in ShareableResources
  {
    var t := RenderResourceArn(a);
    RenderedArnHasNoFinalNewline(a);
    ChompNewline(t);
    ResourceArnRoundTrip(a);
    assert MatchResourceArn(t) == Some(a);
    assert MatchResourceArn(t + "\n") == Some(a);
  }

  /** Conversely, whatever add_resources accepts is a well-formed ARN of a shareable type, possibly with one final newline. */
  lemma AcceptedArnIsWellFormed(arn: string)
    ensures CheckResource(arn).Pass? ==>
      var a := MatchResourceArn(arn).value;
      && WellFormedResourceArn(a) && a.resourceType in ShareableResources
      && (arn == RenderResourceArn(a) || arn == RenderResourceArn(a) + "\n")
  {
    ParseResourceArnSound(Chomp(arn));
  }

  /**
   * Twelve digits are accepted as an account principal whatever the
   * Organizations view, and so are twelve digits followed by one newline,
   * which `$` lets through.
   */
  lemma AccountIdPrincipalAccepted(orgs: Organizations, d: string)
    requires IsTwelveDigits(d)
    ensures CheckPrincipal(orgs, d) == Pass
    ensures CheckPrincipal(orgs, d + "\n") == Pass
  {
    assert d == [] || d[|d| - 1] != '\n' by {
      assert InClass(d[11], Digit);
    }
    ChompNewline(d);
    assert Literal(OrganizationsPrefix, d) == None;
  }

  // ---------------------------------------------------------------------

  class ResourceShare {
    const arn: string
    const owningAccountId: string
    const featureSet: string
    var name: string
    var allowExternalPrincipals: bool
    var status: ShareStatus
    var principals: seq<string>
    var resourceArns: seq<string>

    /** The share's observable state. */
    function State(): ShareState
      reads this
    {
      ShareState(arn, name, owningAccountId, allowExternalPrincipals, featureSet, status, principals, resourceArns)
    }

    /** `ResourceShare.__init__`: ACTIVE, STANDARD, no principals or resources, external principals allowed unless said otherwise. */
    constructor (partition: string, region: string, accountId: string, shareId: string,
                 name: string, allowExternalPrincipals: Option<bool>)
      ensures State() == InitialState(partition, region, accountId, shareId, name, allowExternalPrincipals)
      ensures State().status == Active && State().principals == [] && State().resourceArns == []
    {
      this.arn := ShareArn(partition, region, accountId, shareId);
      this.owningAccountId := accountId;
      this.featureSet := "STANDARD";
      this.name := name;
      this.allowExternalPrincipals := allowExternalPrincipals.GetOr(true);
      this.status := Active;
      this.principals := [];
      this.resourceArns := [];
    }

    /**
     * `add_principals`: checks every principal first; only when all pass are
     * they appended, in order, duplicates kept. On failure nothing changes.
     */
    method AddPrincipals(orgs: Organizations, ps: seq<string>) returns (r: Outcome<RamError>)
      modifies this`principals
      ensures r == CheckPrincipals(orgs, ps)
      ensures State() == if r.Pass? then old(State()).(principals := old(principals) + ps) else old(State())
    {
      r := Validate(PrincipalValidator(orgs), ps);
      if r.Fail? {
        return;
      }
      principals := Extend(principals, ps);
    }

    /**
     * `add_resources`: checks every ARN first; only when all pass are they
     * appended, in order. On failure nothing changes.
     */
    method AddResources(arns: seq<string>) returns (r: Outcome<RamError>)
      modifies this`resourceArns
      ensures r == CheckResources(arns)
      ensures State() == if r.Pass? then old(State()).(resourceArns := old(resourceArns) + arns) else old(State())
    {
      r := Validate(CheckResource, arns);
      if r.Fail? {
        return;
      }
      resourceArns := Extend(resourceArns, arns);
    }

    /** `delete`: a soft delete; only the status changes. */
    method Delete()
      modifies this`status
      ensures State() == old(State()).(status := Deleted)
    {
      status := Deleted;
    }

    /** `update`: the name and the external-principals flag take the supplied values and keep their own otherwise. */
    method Update(newName: Option<string>, newAllowExternalPrincipals: Option<bool>)
      modifies this`name, this`allowExternalPrincipals
      ensures State() == UpdateState(old(State()), newName, newAllowExternalPrincipals)
    {
      allowExternalPrincipals := newAllowExternalPrincipals.GetOr(allowExternalPrincipals);
      name := newName.GetOr(name);
    }
  }
}
