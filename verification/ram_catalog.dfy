/**
 * The two read-only catalogues of the resource-access-manager backend and the
 * two listing operations over them: `list_resource_types` and `list_permissions`.
 */
module RamCatalog {
  import opened Results
  import opened Seqs
  import opened RamText
  import opened RamErrors

  /** An entry of the resource-type catalogue (the fields the backend reads). */
  datatype ResourceTypeEntry = ResourceTypeEntry(resourceType: string, serviceName: string, resourceRegionScope: string)

  /** An entry of the managed-permission catalogue (the fields the backend reads, and its name). */
  datatype Permission = Permission(name: string, resourceType: string, permissionType: string)

  /** `RESOURCE_TYPES`, in table order. */
  const ResourceTypes: seq<ResourceTypeEntry> := [
      ResourceTypeEntry("rds:Cluster", "rds", "REGIONAL"),
      ResourceTypeEntry("imagebuilder:Component", "imagebuilder", "REGIONAL"),
      ResourceTypeEntry("networkmanager:CoreNetwork", "networkmanager", "GLOBAL"),
      ResourceTypeEntry("resource-groups:Group", "resource-groups", "REGIONAL"),
      ResourceTypeEntry("imagebuilder:Image", "imagebuilder", "REGIONAL"),
      ResourceTypeEntry("imagebuilder:ImageRecipe", "imagebuilder", "REGIONAL"),
      ResourceTypeEntry("license-manager:LicenseConfiguration", "license-manager", "REGIONAL"),
      ResourceTypeEntry("appmesh:Mesh", "appmesh", "REGIONAL"),
      ResourceTypeEntry("ec2:PrefixList", "ec2", "REGIONAL"),
      ResourceTypeEntry("codebuild:Project", "codebuild", "REGIONAL"),
      ResourceTypeEntry("codebuild:ReportGroup", "codebuild", "REGIONAL"),
      ResourceTypeEntry("route53resolver:ResolverRule", "route53resolver", "REGIONAL"),
      ResourceTypeEntry("ec2:Subnet", "ec2", "REGIONAL"),
      ResourceTypeEntry("ec2:TransitGatewayMulticastDomain", "ec2", "REGIONAL"),
      ResourceTypeEntry("glue:Database", "glue", "REGIONAL"),
      ResourceTypeEntry("glue:Table", "glue", "REGIONAL"),
      ResourceTypeEntry("glue:Catalog", "glue", "REGIONAL")
    ]

  /** `PERMISSION_TYPES` */
  const PermissionTypes: seq<string> := ["ALL", "AWS", "LOCAL"]

  /** `MANAGED_PERMISSIONS`, in table order. */
  const ManagedPermissions: seq<Permission> := [
      Permission("AWSRAMDefaultPermissionRDSCluster", "rds:Cluster", "AWS_MANAGED"),
      Permission("AWSRAMDefaultPermissionImageBuilderComponent", "imagebuilder:Component", "AWS_MANAGED"),
      Permission("AWSRAMDefaultPermissionsNetworkManagerCoreNetwork", "networkmanager:CoreNetwork", "AWS_MANAGED"),
      Permission("AWSRAMTransitGatewayPermissionsNetworkManagerCoreNetwork", "networkmanager:CoreNetwork", "AWS_MANAGED"),
      Permission("AWSRAMVPCPermissionsNetworkManagerCoreNetwork", "networkmanager:CoreNetwork", "AWS_MANAGED"),
      Permission("AWSRAMDefaultPermissionResourceGroup", "resource-groups:Group", "AWS_MANAGED"),
      Permission("AWSRAMDefaultPermissionImageBuilderImage", "imagebuilder:Image", "AWS_MANAGED"),
      Permission("AWSRAMDefaultPermissionImageBuilderImageRecipe", "imagebuilder:ImageRecipe", "AWS_MANAGED"),
      Permission("AWSRAMDefaultPermissionLicenseConfiguration", "license-manager:LicenseConfiguration", "AWS_MANAGED"),
      Permission("AWSRAMDefaultPermissionAppMesh", "appmesh:Mesh", "AWS_MANAGED"),
      Permission("AWSRAMDefaultPermissionPrefixList", "ec2:PrefixList", "AWS_MANAGED"),
      Permission("AWSRAMDefaultPermissionCodeBuildProject", "codebuild:Project", "AWS_MANAGED"),
      Permission("AWSRAMDefaultPermissionCodeBuildReportGroup", "codebuild:ReportGroup", "AWS_MANAGED"),
      Permission("AWSRAMDefaultPermissionResolverRule", "route53resolver:ResolverRule", "AWS_MANAGED"),
      Permission("AWSRAMDefaultPermissionSubnet", "ec2:Subnet", "AWS_MANAGED"),
      Permission("AWSRAMDefaultPermissionTransitGatewayMulticastDomain", "ec2:TransitGatewayMulticastDomain", "AWS_MANAGED"),
      Permission("AWSRAMDefaultPermissionGlueDatabase", "glue:Database", "AWS_MANAGED"),
      Permission("AWSRAMLFEnabledGlueAllTablesReadWriteForDatabase", "glue:Database", "AWS_MANAGED"),
      Permission("AWSRAMLFEnabledGlueDatabaseReadWrite", "glue:Database", "AWS_MANAGED"),
      Permission("AWSRAMPermissionGlueAllTablesReadWriteForDatabase", "glue:Database", "AWS_MANAGED"),
      Permission("AWSRAMPermissionGlueDatabaseReadWrite", "glue:Database", "AWS_MANAGED"),
      Permission("AWSRAMPermissionGlueTableReadWriteForDatabase", "glue:Database", "AWS_MANAGED"),
      Permission("AWSRAMPermissionLFTagGlueDatabaseReadWrite", "glue:Database", "AWS_MANAGED"),
      Permission("AWSRAMPermissionLFTagGlueTableReadWriteForDatabase", "glue:Database", "AWS_MANAGED"),
      Permission("AWSRAMDefaultPermissionGlueTable", "glue:Table", "AWS_MANAGED"),
      Permission("AWSRAMLFEnabledGlueDatabaseReadWriteForTable", "glue:Table", "AWS_MANAGED"),
      Permission("AWSRAMLFEnabledGlueTableReadWrite", "glue:Table", "AWS_MANAGED"),
      Permission("AWSRAMPermissionGlueDatabaseReadWriteForTable", "glue:Table", "AWS_MANAGED"),
      Permission("AWSRAMPermissionGlueTableReadWrite", "glue:Table", "AWS_MANAGED"),
      Permission("AWSRAMPermissionLFTagGlueDatabaseReadWriteForTable", "glue:Table", "AWS_MANAGED"),
      Permission("AWSRAMPermissionLFTagGlueTableReadWrite", "glue:Table", "AWS_MANAGED"),
      Permission("AWSRAMDefaultPermissionGlueCatalog", "glue:Catalog", "AWS_MANAGED"),
      Permission("AWSRAMPermissionGlueAllTablesReadWriteForCatalog", "glue:Catalog", "AWS_MANAGED"),
      Permission("AWSRAMPermissionGlueDatabaseReadWriteForCatalog", "glue:Catalog", "AWS_MANAGED"),
      Permission("AWSRAMPermissionGlueTableReadWriteForCatalog", "glue:Catalog", "AWS_MANAGED"),
      Permission("AWSRAMPermissionLFTagGlueDatabaseReadWriteForCatalog", "glue:Catalog", "AWS_MANAGED"),
      Permission("AWSRAMPermissionLFTagGlueTableReadWriteForCatalog", "glue:Catalog", "AWS_MANAGED")
    ]

  // ---------------------------------------------------------------------
  // list_resource_types

  /** The accepted values of `resourceRegionScope`. */
  const RegionScopes: seq<string> := ["ALL", "REGIONAL", "GLOBAL"]

  /** The comprehension condition of `list_resource_types`: the entry has the requested scope. */
  function InScope(scope: string): ResourceTypeEntry -> bool {
    (e: ResourceTypeEntry) => e.resourceRegionScope == scope
  }

  /**
   * `list_resource_types`: the whole catalogue for scope ALL (the default), the
   * entries of the requested scope for REGIONAL or GLOBAL, in catalogue order.
   */
  function ListResourceTypes(resourceRegionScope: Option<string>): (r: Result<seq<ResourceTypeEntry>, RamError>)
    ensures r.Failure? <==> resourceRegionScope.GetOr("ALL") !in RegionScopes
    ensures r.Failure? ==> r.error == InvalidParameter(
      resourceRegionScope.GetOr("ALL") + " is not a valid resource region scope value. Specify a valid value and try again.")
    ensures r.Success? && resourceRegionScope.GetOr("ALL") == "ALL" ==> r.value == ResourceTypes
    ensures r.Success? && resourceRegionScope.GetOr("ALL") != "ALL" ==>
      r.value == Filter(InScope(resourceRegionScope.value), ResourceTypes)
    ensures r.Success? ==> IsSubsequence(r.value, ResourceTypes)
    ensures r.Success? && resourceRegionScope.GetOr("ALL") != "ALL" ==>
      && (forall i :: 0 <= i < |r.value| ==> r.value[i].resourceRegionScope == resourceRegionScope.value)
      && (forall i :: 0 <= i < |ResourceTypes| && ResourceTypes[i].resourceRegionScope == resourceRegionScope.value ==>
            ResourceTypes[i] in r.value)
  {
    var scope := resourceRegionScope.GetOr("ALL");
    if scope !in RegionScopes then
      Failure(InvalidParameter(scope + " is not a valid resource region scope value. Specify a valid value and try again."))
    else if scope == "ALL" then
      FilterAll((e: ResourceTypeEntry) => true, ResourceTypes);
      FilterIsSubsequence((e: ResourceTypeEntry) => true, ResourceTypes);
      Success(ResourceTypes)
    else
      var inScope := InScope(scope);
      FilterIsSubsequence(inScope, ResourceTypes);
      Success(Filter(inScope, ResourceTypes))
  }

  // ---------------------------------------------------------------------
  // list_permissions

  /**
   * A catalogue `resourceType` matches a requested one when the service parts
   * (before the first colon) are equal and the type parts (after the last
   * colon) are equal ignoring case.
   */
  predicate SameResourceType(entry: string, requested: string) {
    ServicePart(entry) == ServicePart(requested) && Lower(TypePart(entry)) == Lower(TypePart(requested))
  }

  /** The filter `list_permissions` applies once the resource type is accepted: the type parts alone. */
  predicate SameTypePart(entry: string, requested: string) {
    Lower(TypePart(entry)) == Lower(TypePart(requested))
  }

  /** Some entry of `catalogue` has the requested resource type. */
  predicate KnownResourceType(catalogue: seq<Permission>, requested: string) {
    exists i :: 0 <= i < |catalogue| && SameResourceType(catalogue[i].resourceType, requested)
  }

  /** `permission_types_relation`: AWS means AWS_MANAGED, LOCAL means CUSTOMER_MANAGED, ALL keeps everything. */
  predicate OfPermissionType(permissionType: string, p: Permission) {
    || permissionType == "ALL"
    || (permissionType == "AWS" && p.permissionType == "AWS_MANAGED")
    || (permissionType == "LOCAL" && p.permissionType == "CUSTOMER_MANAGED")
  }

  /** The permissions `list_permissions` returns for valid arguments. */
  predicate PermissionSelected(resourceType: Option<string>, permissionType: string, p: Permission) {
    (Given(resourceType) ==> SameTypePart(p.resourceType, resourceType.value)) && OfPermissionType(permissionType, p)
  }

  /** `PermissionSelected` as a filter condition. */
  function Selected(resourceType: Option<string>, permissionType: string): Permission -> bool {
    (p: Permission) => PermissionSelected(resourceType, permissionType, p)
  }

  /** The arguments `list_permissions` accepts against `catalogue`. */
  predicate PermissionQueryValid(catalogue: seq<Permission>, resourceType: Option<string>, permissionType: string) {
    (!Given(resourceType) || KnownResourceType(catalogue, resourceType.value)) && permissionType in PermissionTypes
  }

  /**
   * The body of `list_permissions` over a given catalogue: validates the
   * resource type, then the permission type, then keeps the entries that match
   * both, in catalogue order.
   */
  function SelectPermissions(catalogue: seq<Permission>, resourceType: Option<string>, permissionType: string)
    : (r: Result<seq<Permission>, RamError>)
    ensures Given(resourceType) && !KnownResourceType(catalogue, resourceType.value) ==>
      r == Failure(InvalidParameter("Invalid resource type: " + resourceType.value))
    ensures (!Given(resourceType) || KnownResourceType(catalogue, resourceType.value)) && permissionType !in PermissionTypes ==>
      r == Failure(InvalidParameter(permissionType + " is not a valid scope. Must be one of: ALL, AWS, LOCAL."))
    ensures r.Success? <==> PermissionQueryValid(catalogue, resourceType, permissionType)
    ensures r.Success? ==> r.value == Filter(Selected(resourceType, permissionType), catalogue)
    ensures r.Success? ==> IsSubsequence(r.value, catalogue)
    ensures r.Success? ==>
      forall i :: 0 <= i < |r.value| ==> r.value[i] in catalogue && PermissionSelected(resourceType, permissionType, r.value[i])
    ensures r.Success? ==>
      forall i :: 0 <= i < |catalogue| && PermissionSelected(resourceType, permissionType, catalogue[i]) ==>
        catalogue[i] in r.value
  {
    if Given(resourceType) && !KnownResourceType(catalogue, resourceType.value) then
      Failure(InvalidParameter("Invalid resource type: " + resourceType.value))
    else
      var byType := (p: Permission) => Given(resourceType) ==> SameTypePart(p.resourceType, resourceType.value);
      var permissions := if Given(resourceType) then Filter(byType, catalogue) else catalogue;
      if permissionType !in PermissionTypes then
        Failure(InvalidParameter(permissionType + " is not a valid scope. Must be one of: ALL, AWS, LOCAL."))
      else
        var byPermissionType := (p: Permission) => OfPermissionType(permissionType, p);
        var result := if permissionType != "ALL" then Filter(byPermissionType, permissions) else permissions;
        var selected := Selected(resourceType, permissionType);
        assert result == Filter(selected, catalogue) by {
          if !Given(resourceType) { FilterAll(byType, catalogue); }
          assert permissions == Filter(byType, catalogue);
          if permissionType == "ALL" { FilterAll(byPermissionType, permissions); }
          FilterFilter(byType, byPermissionType, selected, catalogue);
        }
        FilterIsSubsequence(selected, catalogue);
        Success(result)
  }

  /** `list_permissions` over `MANAGED_PERMISSIONS`; the permission type defaults to ALL. */
  function ListPermissions(resourceType: Option<string>, permissionType: Option<string>): (r: Result<seq<Permission>, RamError>)
    ensures r.Success? <==> PermissionQueryValid(ManagedPermissions, resourceType, permissionType.GetOr("ALL"))
    ensures r.Success? ==> r.value == Filter(Selected(resourceType, permissionType.GetOr("ALL")), ManagedPermissions)
    ensures r.Success? ==> IsSubsequence(r.value, ManagedPermissions)
    ensures r.Success? ==>
      forall i :: 0 <= i < |r.value| ==> PermissionSelected(resourceType, permissionType.GetOr("ALL"), r.value[i])
  {
    SelectPermissions(ManagedPermissions, resourceType, permissionType.GetOr("ALL"))
  }

  /** Every entry of the managed-permission catalogue is AWS_MANAGED. */
  lemma AllManaged()
    ensures forall i :: 0 <= i < |ManagedPermissions| ==> ManagedPermissions[i].permissionType == "AWS_MANAGED"
  {
  }

  /** A catalogue without CUSTOMER_MANAGED entries lists nothing for LOCAL, and everything AWS_MANAGED for AWS. */
  lemma LocalSelectsCustomerManagedOnly(catalogue: seq<Permission>)
    requires forall i :: 0 <= i < |catalogue| ==> catalogue[i].permissionType == "AWS_MANAGED"
    ensures SelectPermissions(catalogue, None, "LOCAL") == Success([])
    ensures SelectPermissions(catalogue, None, "AWS") == Success(catalogue)
  {
    assert "LOCAL" in PermissionTypes && "AWS" in PermissionTypes;
    FilterAll((p: Permission) => OfPermissionType("AWS", p), catalogue);
  }

  /** The managed catalogue holds AWS_MANAGED permissions only: LOCAL lists none of them and AWS lists them all. */
  lemma ManagedPermissionsByType()
    ensures ListPermissions(None, Some("LOCAL")) == Success([])
    ensures ListPermissions(None, Some("AWS")) == Success(ManagedPermissions)
  {
    AllManaged();
    LocalSelectsCustomerManagedOnly(ManagedPermissions);
  }
}
