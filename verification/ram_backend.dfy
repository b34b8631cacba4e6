/**
 * `ResourceAccessManagerBackend`: the list of resource shares of one account
 * and region, and the operations over it.
 */
module RamBackend {
  import opened Results
  import opened RamErrors
  import opened RamShares

  /** The fields `describe()` reports, without the two timestamps; create and update drop `featureSet`. */
  datatype ShareDescription = ShareDescription(
    allowExternalPrincipals: bool,
    featureSet: Option<string>,
    name: string,
    owningAccountId: string,
    resourceShareArn: string,
    status: string)

  function StatusName(status: ShareStatus): string {
    match status
    case Active => "ACTIVE"
    case Deleted => "DELETED"
  }

  /** `describe()` */
  function Describe(s: ShareState): ShareDescription {
    ShareDescription(s.allowExternalPrincipals, Some(s.featureSet), s.name, s.owningAccountId, s.arn, StatusName(s.status))
  }

  /** `describe()` followed by `pop("featureSet")`: the response of create and update. */
  function Summary(s: ShareState): ShareDescription {
    Describe(s).(featureSet := None)
  }

  // ---------------------------------------------------------------------
  // The share list as a value

  /** `next(...)` over the shares: the position of the first share with this ARN. */
  function FindShare(view: seq<ShareState>, arn: string): (r: Option<nat>)
    ensures r.Some? ==> r.value < |view| && view[r.value].arn == arn
    ensures r.Some? ==> forall j :: 0 <= j < r.value ==> view[j].arn != arn
    ensures r.None? <==> forall j :: 0 <= j < |view| ==> view[j].arn != arn
  {
    if view == [] then None
    else if view[0].arn == arn then Some(0)
    else
      match FindShare(view[1..], arn)
      case None => None
      case Some(k) => Some(k + 1)
  }

  /** The error for an ARN no share has. */
  function NotFound(arn: string): RamError {
    UnknownResource("ResourceShare " + arn + " could not be found.")
  }

  /** The new share of `create_resource_share`, or the first validation error. */
  function NewShare(orgs: Organizations, partition: string, region: string, accountId: string, shareId: string,
                    name: string, allowExternalPrincipals: Option<bool>,
                    principals: seq<string>, resourceArns: seq<string>): (r: Result<ShareState, RamError>)
    ensures r.Success? <==> CheckPrincipals(orgs, principals) == Pass && CheckResources(resourceArns) == Pass
    ensures CheckPrincipals(orgs, principals).Fail? ==> r == Failure(CheckPrincipals(orgs, principals).error)
    ensures CheckPrincipals(orgs, principals) == Pass && CheckResources(resourceArns).Fail? ==>
      r == Failure(CheckResources(resourceArns).error)
    ensures r.Success? ==>
      && r.value.arn == ShareArn(partition, region, accountId, shareId)
      && r.value.owningAccountId == accountId && r.value.name == name
      && r.value.status == Active && r.value.featureSet == "STANDARD"
      && r.value.allowExternalPrincipals == allowExternalPrincipals.GetOr(true)
      && r.value.principals == principals && r.value.resourceArns == resourceArns
  {
    var s := InitialState(partition, region, accountId, shareId, name, allowExternalPrincipals);
    match CheckPrincipals(orgs, principals)
    case Fail(e) => Failure(e)
    case Pass =>
      match CheckResources(resourceArns)
      case Fail(e) => Failure(e)
      case Pass => Success(s.(principals := s.principals + principals, resourceArns := s.resourceArns + resourceArns))
  }

  /** `delete_resource_share` on the share list. */
  function DeleteShare(view: seq<ShareState>, arn: string): Result<seq<ShareState>, RamError> {
    match FindShare(view, arn)
    case None => Failure(NotFound(arn))
    case Some(k) => Success(view[k := view[k].(status := Deleted)])
  }

  /** `update_resource_share` on the share list. */
  function UpdateShare(view: seq<ShareState>, arn: string, name: Option<string>, allowExternalPrincipals: Option<bool>)
    : Result<seq<ShareState>, RamError>
  {
    match FindShare(view, arn)
    case None => Failure(NotFound(arn))
    case Some(k) => Success(view[k := UpdateState(view[k], name, allowExternalPrincipals)])
  }

  /** Both lookups fail exactly on an ARN no share has, with the same error. */
  lemma UnknownArnRejected(view: seq<ShareState>, arn: string, name: Option<string>, allowExternalPrincipals: Option<bool>)
    ensures DeleteShare(view, arn).Failure? <==> forall j :: 0 <= j < |view| ==> view[j].arn != arn
    ensures UpdateShare(view, arn, name, allowExternalPrincipals).Failure? <==> forall j :: 0 <= j < |view| ==> view[j].arn != arn
    ensures DeleteShare(view, arn).Failure? ==> DeleteShare(view, arn).error == NotFound(arn)
    ensures UpdateShare(view, arn, name, allowExternalPrincipals).Failure? ==>
      UpdateShare(view, arn, name, allowExternalPrincipals).error == NotFound(arn)
  {
  }

  /**
   * Delete is soft: the share list keeps its length and its ARNs, and only
   * the status of the first share with the ARN changes, to DELETED.
   */
  lemma DeleteIsSoft(view: seq<ShareState>, arn: string)
    requires DeleteShare(view, arn).Success?
    ensures var v := DeleteShare(view, arn).value;
      && |v| == |view|
      && (forall j :: 0 <= j < |view| ==> v[j].arn == view[j].arn)
      && (forall j :: 0 <= j < |view| && j != FindShare(view, arn).value ==> v[j] == view[j])
      && v[FindShare(view, arn).value] == view[FindShare(view, arn).value].(status := Deleted)
  {
  }

  /** A deleted share is still found, and deleting it again changes nothing more. */
  lemma {:induction false} DeleteIsRepeatable(view: seq<ShareState>, arn: string)
    requires DeleteShare(view, arn).Success?
    ensures FindShare(DeleteShare(view, arn).value, arn) == FindShare(view, arn)
    ensures DeleteShare(DeleteShare(view, arn).value, arn) == DeleteShare(view, arn)
  {
    var k := FindShare(view, arn).value;
    var v := DeleteShare(view, arn).value;
    FindShareAt(v, arn, k);
    assert v[k := v[k].(status := Deleted)] == v;
  }

  /** The first share with an ARN is found wherever it sits. */
  lemma {:induction false} FindShareAt(view: seq<ShareState>, arn: string, k: nat)
    requires k < |view| && view[k].arn == arn
    requires forall j :: 0 <= j < k ==> view[j].arn != arn
    ensures FindShare(view, arn) == Some(k)
  {
    if k > 0 {
      FindShareAt(view[1..], arn, k - 1);
    }
  }

  /** Update changes only the name and flag of the first share with the ARN, and keeps every unsupplied field. */
  lemma UpdateKeepsOthers(view: seq<ShareState>, arn: string, name: Option<string>, allowExternalPrincipals: Option<bool>)
    requires UpdateShare(view, arn, name, allowExternalPrincipals).Success?
    ensures var v := UpdateShare(view, arn, name, allowExternalPrincipals).value;
      && |v| == |view|
      && (forall j :: 0 <= j < |view| ==>
            v[j].arn == view[j].arn && v[j].status == view[j].status
            && v[j].principals == view[j].principals && v[j].resourceArns == view[j].resourceArns)
      && (forall j :: 0 <= j < |view| && j != FindShare(view, arn).value ==> v[j] == view[j])
      && (name.None? ==> forall j :: 0 <= j < |view| ==> v[j].name == view[j].name)
      && (allowExternalPrincipals.None? ==>
            forall j :: 0 <= j < |view| ==> v[j].allowExternalPrincipals == view[j].allowExternalPrincipals)
  {
  }

  /** A share appended under a new ARN is the one later lookups of that ARN find. */
  lemma {:induction false} AppendedShareFound(view: seq<ShareState>, s: ShareState)
    requires forall j :: 0 <= j < |view| ==> view[j].arn != s.arn
    ensures FindShare(view + [s], s.arn) == Some(|view|)
  {
    var v := view + [s];
    assert forall j :: 0 <= j < |view| ==> v[j] == view[j];
    FindShareAt(v, s.arn, |view|);
  }

  /** The error for a `resourceOwner` other than SELF and OTHER-ACCOUNTS. */
  function InvalidOwner(owner: string): RamError {
    InvalidParameter(owner + " is not a valid resource owner. Specify either SELF or OTHER-ACCOUNTS and try again.")
  }

  /** The error for `resourceOwner` OTHER-ACCOUNTS. */
  function OtherAccountsNotImplemented(): RamError {
    NotImplemented("Value 'OTHER-ACCOUNTS' for parameter 'resourceOwner' not implemented.")
  }

  /** `get_resource_shares`: SELF lists every share, deleted ones included; OTHER-ACCOUNTS is not implemented. */
  function ResourceShares(view: seq<ShareState>, owner: string): (r: Result<seq<ShareDescription>, RamError>)
    ensures r.Success? <==> owner == "SELF"
    ensures owner == "OTHER-ACCOUNTS" ==> r == Failure(OtherAccountsNotImplemented())
    ensures owner != "SELF" && owner != "OTHER-ACCOUNTS" ==> r == Failure(InvalidOwner(owner))
    ensures r.Success? ==> |r.value| == |view| && forall j :: 0 <= j < |view| ==> r.value[j] == Describe(view[j])
  {
    if owner != "SELF" && owner != "OTHER-ACCOUNTS" then Failure(InvalidOwner(owner))
    else if owner == "OTHER-ACCOUNTS" then Failure(OtherAccountsNotImplemented())
    else Success(seq(|view|, j requires 0 <= j < |view| => Describe(view[j])))
  }

  /** After a successful delete, `get_resource_shares` still lists the share, as DELETED. */
  lemma DeletedShareStillListed(view: seq<ShareState>, arn: string)
    requires DeleteShare(view, arn).Success?
    ensures var listed := ResourceShares(DeleteShare(view, arn).value, "SELF").value;
      && |listed| == |view|
      && listed[FindShare(view, arn).value].resourceShareArn == arn
      && listed[FindShare(view, arn).value].status == "DELETED"
  {
  }

  // ---------------------------------------------------------------------
  // Associations

  /** The arguments of `get_resource_share_associations`. */
  datatype AssociationQuery = AssociationQuery(
    associationType: string,
    associationStatus: Option<string>,
    resourceShareArns: seq<string>,
    resourceArn: Option<string>,
    principal: Option<string>)

  /** One reported association, without its timestamps. */
  datatype Association = Association(
    resourceShareArn: string,
    resourceShareName: string,
    associatedEntity: string,
    associationType: string,
    status: string,
    external: bool)

  const AssociationStatuses: seq<string> := ["ASSOCIATING", "ASSOCIATED", "FAILED", "DISASSOCIATING", "DISASSOCIATED"]

  /** The association type is PRINCIPAL or RESOURCE. */
  predicate KnownAssociationType(q: AssociationQuery) {
    q.associationType == "PRINCIPAL" || q.associationType == "RESOURCE"
  }

  /** No status is given, or it is one of the five association statuses. */
  predicate KnownAssociationStatus(q: AssociationQuery) {
    Given(q.associationStatus) ==> q.associationStatus.value in AssociationStatuses
  }

  /** The argument checks of `get_resource_share_associations`, in the order it makes them. */
  function CheckAssociationQuery(q: AssociationQuery): (r: Outcome<RamError>)
    ensures r.Fail? ==> r.error.InvalidParameter?
    ensures r.Pass? <==>
      && KnownAssociationType(q) && KnownAssociationStatus(q)
      && !(q.associationType == "PRINCIPAL" && Given(q.resourceArn))
      && !(q.associationType == "RESOURCE" && Given(q.principal))
    ensures !KnownAssociationType(q) ==>
      r == Fail(InvalidParameter(q.associationType + " is not a valid association type. Specify either PRINCIPAL or RESOURCE and try again."))
  {
    if !KnownAssociationType(q) then
      Fail(InvalidParameter(q.associationType + " is not a valid association type. Specify either PRINCIPAL or RESOURCE and try again."))
    else if !KnownAssociationStatus(q) then
      Fail(InvalidParameter(q.associationStatus.value + " is not a valid association status."))
    else if q.associationType == "PRINCIPAL" && Given(q.resourceArn) then
      Fail(InvalidParameter("You cannot specify a resource ARN when the association type is PRINCIPAL."))
    else if q.associationType == "RESOURCE" && Given(q.principal) then
      Fail(InvalidParameter("You cannot specify a principal when the association type is RESOURCE."))
    else Pass
  }

  /** After a valid type, the status is checked, then the filter that does not fit the type. */
  lemma AssociationQueryChecksInOrder(q: AssociationQuery)
    requires KnownAssociationType(q)
    ensures !KnownAssociationStatus(q) ==>
      CheckAssociationQuery(q) == Fail(InvalidParameter(q.associationStatus.value + " is not a valid association status."))
    ensures KnownAssociationStatus(q) && q.associationType == "PRINCIPAL" && Given(q.resourceArn) ==>
      CheckAssociationQuery(q) == Fail(InvalidParameter("You cannot specify a resource ARN when the association type is PRINCIPAL."))
    ensures KnownAssociationStatus(q) && q.associationType == "RESOURCE" && Given(q.principal) ==>
      CheckAssociationQuery(q) == Fail(InvalidParameter("You cannot specify a principal when the association type is RESOURCE."))
  {
  }

  /** The status every reported association carries: the requested one, ASSOCIATED by default. */
  function ReportedStatus(q: AssociationQuery): string {
    if Given(q.associationStatus) then q.associationStatus.value else "ASSOCIATED"
  }

  /** A share passes the ARN filter when the filter is empty or lists its ARN. */
  predicate ShareSelected(q: AssociationQuery, s: ShareState) {
    q.resourceShareArns == [] || s.arn in q.resourceShareArns
  }

  /** The list the query walks: the principals for PRINCIPAL, the resource ARNs otherwise. */
  function Entities(q: AssociationQuery, s: ShareState): seq<string> {
    if q.associationType == "PRINCIPAL" then s.principals else s.resourceArns
  }

  /** An entity passes when no entity filter is given or it equals the filter. */
  predicate EntitySelected(q: AssociationQuery, e: string) {
    var filter := if q.associationType == "PRINCIPAL" then q.principal else q.resourceArn;
    !Given(filter) || filter.value == e
  }

  function AssociationOf(q: AssociationQuery, s: ShareState, e: string): Association {
    Association(s.arn, s.name, e, q.associationType, ReportedStatus(q), false)
  }

  /** The associations of one share for the entities `es`, in list order. */
  function EntityAssociations(q: AssociationQuery, s: ShareState, es: seq<string>): seq<Association> {
    if es == [] then []
    else
      var last := es[|es| - 1];
      EntityAssociations(q, s, es[..|es| - 1]) + (if EntitySelected(q, last) then [AssociationOf(q, s, last)] else [])
  }

  /** The associations the query reports for one share. */
  function ShareReport(q: AssociationQuery, s: ShareState): seq<Association> {
    if ShareSelected(q, s) then EntityAssociations(q, s, Entities(q, s)) else []
  }

  /** The associations the query reports for the shares of `view`, in share order. */
  function Associations(q: AssociationQuery, view: seq<ShareState>): seq<Association> {
    if view == [] then []
    else Associations(q, view[..|view| - 1]) + ShareReport(q, view[|view| - 1])
  }

  /** `get_resource_share_associations` on the share list. */
  function ShareAssociations(q: AssociationQuery, view: seq<ShareState>): (r: Result<seq<Association>, RamError>)
    ensures r.Failure? <==> CheckAssociationQuery(q).Fail?
    ensures r.Failure? ==> r.error == CheckAssociationQuery(q).error && r.error.InvalidParameter?
    ensures r.Success? ==> r.value == Associations(q, view)
  {
    match CheckAssociationQuery(q)
    case Fail(e) => Failure(e)
    case Pass => Success(Associations(q, view))
  }

  /** Without an entity filter, a share reports one association per entity, in list order, duplicates kept. */
  lemma {:induction false} UnfilteredEntities(q: AssociationQuery, s: ShareState, es: seq<string>)
    requires forall e :: EntitySelected(q, e)
    ensures |EntityAssociations(q, s, es)| == |es|
    ensures forall j :: 0 <= j < |es| ==> EntityAssociations(q, s, es)[j] == AssociationOf(q, s, es[j])
  {
    if es != [] {
      UnfilteredEntities(q, s, es[..|es| - 1]);
    }
  }

  /** The entities a share reports are exactly those of its list that pass the filter. */
  lemma {:induction false} EntityAssociationsMembers(q: AssociationQuery, s: ShareState, es: seq<string>, a: Association)
    ensures a in EntityAssociations(q, s, es) <==> exists e :: e in es && EntitySelected(q, e) && a == AssociationOf(q, s, e)
  {
    if es != [] {
      var init := es[..|es| - 1];
      EntityAssociationsMembers(q, s, init, a);
      assert es == init + [es[|es| - 1]];
    }
  }

  /** Regrouping a concatenation of three association lists. */
  lemma ConcatAssoc(a: seq<Association>, b: seq<Association>, c: seq<Association>)
    ensures (a + b) + c == a + (b + c)
  {
  }

  /** One more share adds its own report at the end. */
  lemma AssociationsSnoc(q: AssociationQuery, v: seq<ShareState>, s: ShareState)
    ensures Associations(q, v + [s]) == Associations(q, v) + ShareReport(q, s)
  {
    assert (v + [s])[..|v|] == v;
  }

  /** The shares up to and including position `i` report those before it, then the share at `i`. */
  lemma AssociationsPrefix(q: AssociationQuery, view: seq<ShareState>, i: nat)
    requires i < |view|
    ensures Associations(q, view[..i + 1]) == Associations(q, view[..i]) + ShareReport(q, view[i])
  {
    assert view[..i + 1] == view[..i] + [view[i]];
    AssociationsSnoc(q, view[..i], view[i]);
  }

  lemma {:induction false} AssociationsAppend(q: AssociationQuery, v: seq<ShareState>, w: seq<ShareState>)
    ensures Associations(q, v + w) == Associations(q, v) + Associations(q, w)
    decreases |w|
  {
    if w == [] {
      assert v + w == v;
    } else {
      var init, last := w[..|w| - 1], w[|w| - 1];
      assert w == init + [last];
      assert v + w == (v + init) + [last];
      AssociationsSnoc(q, v + init, last);
      AssociationsSnoc(q, init, last);
      AssociationsAppend(q, v, init);
      ConcatAssoc(Associations(q, v), Associations(q, init), ShareReport(q, last));
    }
  }

  /**
   * An association is reported exactly when it comes from a selected share
   * and an entity of that share's list that passes the filter; it carries
   * the query's type and status and is never external.
   */
  lemma {:induction false} AssociationsMembers(q: AssociationQuery, view: seq<ShareState>, a: Association)
    ensures a in Associations(q, view) <==>
      exists k, e :: 0 <= k < |view| && ShareSelected(q, view[k]) && e in Entities(q, view[k])
                     && EntitySelected(q, e) && a == AssociationOf(q, view[k], e)
    ensures a in Associations(q, view) ==>
      a.associationType == q.associationType && a.status == ReportedStatus(q) && !a.external
  {
    if view != [] {
      var init := view[..|view| - 1];
      var s := view[|view| - 1];
      AssociationsMembers(q, init, a);
      EntityAssociationsMembers(q, s, Entities(q, s), a);
      assert forall k :: 0 <= k < |init| ==> view[k] == init[k];
    }
  }

  /**
   * Right after a share is appended, an unfiltered PRINCIPAL query reports
   * what it reported before, then one ASSOCIATED association per principal of
   * the new share, in list order.
   */
  lemma CreatedShareReportsPrincipals(view: seq<ShareState>, s: ShareState)
    ensures var q := AssociationQuery("PRINCIPAL", None, [], None, None);
      var before, after := Associations(q, view), Associations(q, view + [s]);
      && |after| == |before| + |s.principals|
      && after[..|before|] == before
      && forall j :: 0 <= j < |s.principals| ==>
           after[|before| + j] == Association(s.arn, s.name, s.principals[j], "PRINCIPAL", "ASSOCIATED", false)
  {
    var q := AssociationQuery("PRINCIPAL", None, [], None, None);
    AssociationsSnoc(q, view, s);
    UnfilteredEntities(q, s, s.principals);
  }

  /** The inner loop of `get_resource_share_associations`: one share's associations, built entity by entity. */
  method CollectShareReport(q: AssociationQuery, s: ShareState) returns (report: seq<Association>)
    ensures report == ShareReport(q, s)
  {
    report := [];
    if q.resourceShareArns != [] && s.arn !in q.resourceShareArns {
      return;
    }
    var entities := if q.associationType == "PRINCIPAL" then s.principals else s.resourceArns;
    var filter := if q.associationType == "PRINCIPAL" then q.principal else q.resourceArn;
    var j := 0;
    while j < |entities|
      invariant 0 <= j <= |entities|
      invariant report == EntityAssociations(q, s, entities[..j])
    {
      assert entities[..j + 1][..j] == entities[..j];
      if !Given(filter) || filter.value == entities[j] {
        report := report + [AssociationOf(q, s, entities[j])];
      }
      j := j + 1;
    }
    assert entities[..|entities|] == entities;
  }

  // ---------------------------------------------------------------------

  /** The states of `ss`, in order. */
  function States(ss: seq<ResourceShare>): (v: seq<ShareState>)
    reads ss
    ensures |v| == |ss| && forall i :: 0 <= i < |ss| ==> v[i] == ss[i].State()
  {
    if ss == [] then [] else [ss[0].State()] + States(ss[1..])
  }

  /**
   * The first three lines of `create_resource_share`: a new share object,
   * then its principals, then its resources, stopping at the first error.
   */
  method BuildShare(orgs: Organizations, partition: string, region: string, accountId: string, shareId: string,
                    name: string, allowExternalPrincipals: Option<bool>,
                    principals: seq<string>, resourceArns: seq<string>)
    returns (share: ResourceShare, r: Outcome<RamError>)
    ensures fresh(share)
    ensures match NewShare(orgs, partition, region, accountId, shareId, name, allowExternalPrincipals, principals, resourceArns)
      case Success(s) => r == Pass && share.State() == s
      case Failure(e) => r == Fail(e)
  {
    share := new ResourceShare(partition, region, accountId, shareId, name, allowExternalPrincipals);
    r := share.AddPrincipals(orgs, principals);
    if r.Fail? {
      return;
    }
    r := share.AddResources(resourceArns);
  }

  class Backend {
    const accountId: string
    const region: string
    const partition: string
    var shares: seq<ResourceShare>

    /** Every share object is listed once. */
    ghost predicate Valid()
      reads this
    {
      forall i, j :: 0 <= i < j < |shares| ==> shares[i] != shares[j]
    }

    /** The states of the listed shares, in list order. */
    function View(): (v: seq<ShareState>)
      reads this, shares
      ensures |v| == |shares| && forall i :: 0 <= i < |shares| ==> v[i] == shares[i].State()
    {
      States(shares)
    }

    constructor (accountId: string, region: string, partition: string)
      ensures Valid() && View() == []
      ensures this.accountId == accountId && this.region == region && this.partition == partition
    {
      this.accountId := accountId;
      this.region := region;
      this.partition := partition;
      this.shares := [];
    }

    /** The first `next(...)` of update and delete: the position of the first share with this ARN. */
    method Lookup(arn: string) returns (k: Option<nat>)
      ensures k == FindShare(View(), arn)
    {
      var i := 0;
      while i < |shares|
        invariant 0 <= i <= |shares|
        invariant forall j :: 0 <= j < i ==> View()[j].arn != arn
      {
        if shares[i].arn == arn {
          FindShareAt(View(), arn, i);
          return Some(i);
        }
        i := i + 1;
      }
      return None;
    }

    /**
     * `create_resource_share`: builds the share, adds its principals and then
     * its resources, and appends it only when both succeed.
     */
    method CreateResourceShare(orgs: Organizations, shareId: string, name: string, allowExternalPrincipals: Option<bool>,
                               principals: seq<string>, resourceArns: seq<string>)
      returns (r: Result<ShareDescription, RamError>)
      requires Valid()
      modifies this`shares
      ensures Valid()
      ensures match NewShare(orgs, partition, region, accountId, shareId, name, allowExternalPrincipals, principals, resourceArns)
        case Success(s) => View() == old(View()) + [s] && r == Success(Summary(s))
        case Failure(e) => View() == old(View()) && r == Failure(e)
      ensures r.Failure? ==> shares == old(shares)
      ensures r.Success? ==> |shares| == |old(shares)| + 1 && shares[..|old(shares)|] == old(shares)
                             && fresh(shares[|old(shares)|])
    {
      var share, added := BuildShare(orgs, partition, region, accountId, shareId, name, allowExternalPrincipals,
                                     principals, resourceArns);
      if added.Fail? {
        return Failure(added.error);
      }
      Append(share);
      r := Success(Summary(share.State()));
    }

    /** `self.resource_shares.append(resource)` for a share not yet listed. */
    method Append(share: ResourceShare)
      requires Valid() && share !in shares
      modifies this`shares
      ensures Valid() && View() == old(View()) + [share.State()]
      ensures shares == old(shares) + [share]
    {
      ghost var before := View();
      shares := shares + [share];
      forall j | 0 <= j < |shares|
        ensures shares[j].State() == (before + [share.State()])[j]
      {
      }
    }

    /** `get_resource_shares` */
    function GetResourceShares(owner: string): (r: Result<seq<ShareDescription>, RamError>)
      reads this, shares
      ensures r.Success? <==> owner == "SELF"
      ensures r.Failure? ==> r == ResourceShares([], owner)
      ensures r.Success? ==> |r.value| == |shares| && forall j :: 0 <= j < |shares| ==> r.value[j] == Describe(shares[j].State())
    {
      ResourceShares(View(), owner)
    }

    /** `update_resource_share`: updates the first share with the ARN and reports it. */
    method UpdateResourceShare(arn: string, name: Option<string>, allowExternalPrincipals: Option<bool>)
      returns (r: Result<ShareDescription, RamError>)
      requires Valid()
      modifies shares
      ensures Valid() && shares == old(shares)
      ensures match UpdateShare(old(View()), arn, name, allowExternalPrincipals)
        case Success(v) => View() == v && r == Success(Summary(v[FindShare(old(View()), arn).value]))
        case Failure(e) => View() == old(View()) && r == Failure(e)
    {
      var k := Lookup(arn);
      if k.None? {
        return Failure(NotFound(arn));
      }
      ghost var before := View();
      ghost var after := before[k.value := UpdateState(before[k.value], name, allowExternalPrincipals)];
      var share := shares[k.value];
      share.Update(name, allowExternalPrincipals);
      forall j | 0 <= j < |shares|
        ensures shares[j].State() == after[j]
      {
        if j != k.value {
          assert shares[j] != share;
        }
      }
      assert View() == after;
      r := Success(Summary(share.State()));
    }

    /** `delete_resource_share`: marks the first share with the ARN as deleted. */
    method DeleteResourceShare(arn: string) returns (r: Result<bool, RamError>)
      requires Valid()
      modifies shares
      ensures Valid() && shares == old(shares)
      ensures match DeleteShare(old(View()), arn)
        case Success(v) => View() == v && r == Success(true)
        case Failure(e) => View() == old(View()) && r == Failure(e)
    {
      var k := Lookup(arn);
      if k.None? {
        return Failure(NotFound(arn));
      }
      ghost var before := View();
      ghost var after := before[k.value := before[k.value].(status := Deleted)];
      var share := shares[k.value];
      share.Delete();
      forall j | 0 <= j < |shares|
        ensures shares[j].State() == after[j]
      {
        if j != k.value {
          assert shares[j] != share;
        }
      }
      assert View() == after;
      r := Success(true);
    }

    /** `get_resource_share_associations`: validates the query, then walks the shares and their lists in order. */
    method GetResourceShareAssociations(q: AssociationQuery) returns (r: Result<seq<Association>, RamError>)
      ensures r == ShareAssociations(q, View())
    {
      var checked := CheckAssociationQuery(q);
      if checked.Fail? {
        return Failure(checked.error);
      }
      var associations := CollectAssociations(q);
      r := Success(associations);
    }

    /** The outer loop of `get_resource_share_associations`, over the shares in list order. */
    method CollectAssociations(q: AssociationQuery) returns (associations: seq<Association>)
      ensures associations == Associations(q, View())
    {
      var view := View();
      associations := [];
      var i := 0;
      while i < |view|
        invariant 0 <= i <= |view|
        invariant associations == Associations(q, view[..i])
      {
        var report := CollectShareReport(q, view[i]);
        AssociationsPrefix(q, view, i);
        associations := associations + report;
        i := i + 1;
      }
      assert view[..|view|] == view;
    }
  }
}
