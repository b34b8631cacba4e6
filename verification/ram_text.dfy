/**
 * The string shapes the resource-access-manager backend recognises with
 * regular expressions, written as character-class scanners.
 *
 * Every pattern the backend uses is anchored with `^...$`. In Python's `re`,
 * `$` matches at the end of the string and also just before a single final
 * newline, so a pattern body X matches `s` exactly when X matches `Chomp(s)`
 * (each body below rejects a string that ends in a newline).
 */
module RamText {
  import opened Results

  /** The character classes used by the patterns (ASCII readings of `\d` and `\w`). */
  datatype CharClass =
    | Digit           // [0-9]
    | LowerAlnumDash  // [a-z0-9-]
    | LowerDash       // [a-z-]
    | Word            // \w
    | WordDash        // [\w-]

  predicate InClass(c: char, k: CharClass) {
    match k
    case Digit => '0' <= c <= '9'
    case LowerAlnumDash => 'a' <= c <= 'z' || '0' <= c <= '9' || c == '-'
    case LowerDash => 'a' <= c <= 'z' || c == '-'
    case Word => 'a' <= c <= 'z' || 'A' <= c <= 'Z' || '0' <= c <= '9' || c == '_'
    case WordDash => 'a' <= c <= 'z' || 'A' <= c <= 'Z' || '0' <= c <= '9' || c == '_' || c == '-'
  }

  predicate AllIn(s: string, k: CharClass) {
    forall i :: 0 <= i < |s| ==> InClass(s[i], k)
  }

  /** The end of the longest run of `k` characters that starts at `i`. */
  function Span(s: string, i: nat, k: CharClass): (j: nat)
    requires i <= |s|
    ensures i <= j <= |s|
    ensures AllIn(s[i..j], k)
    ensures j == |s| || !InClass(s[j], k)
    decreases |s| - i
  {
    if i < |s| && InClass(s[i], k) then
      var j := Span(s, i + 1, k);
      assert s[i..j] == [s[i]] + s[i + 1..j];
      j
    else i
  }

  /** A run of `k` characters ended by a character outside `k` (or the string's end) is what Span finds. */
  lemma {:induction false} SpanStopsAt(s: string, i: nat, j: nat, k: CharClass)
    requires i <= j <= |s|
    requires AllIn(s[i..j], k)
    requires j == |s| || !InClass(s[j], k)
    ensures Span(s, i, k) == j
    decreases j - i
  {
    if i < j {
      assert s[i..j] == [s[i]] + s[i + 1..j];
      SpanStopsAt(s, i + 1, j, k);
    }
  }

  /**
   * The string without the one final newline that `$` lets through. It is
   * defined character by character; callers rely on its contract.
   */
  function Chomp(s: string): (r: string)
    ensures if |s| > 0 && s[|s| - 1] == '\n' then s == r + "\n" else r == s
  {
    if |s| == 0 then s
    else if |s| == 1 then (if s[0] == '\n' then [] else s)
    else
      var r := Chomp(s[1..]);
      assert s == [s[0]] + s[1..];
      [s[0]] + r
  }

  /** `$` accepts a string followed by one newline as that string. */
  lemma ChompNewline(x: string)
    ensures Chomp(x + "\n") == x
  {
    var s := x + "\n";
    assert s[|s| - 1] == '\n';
    var r := Chomp(s);
    assert r == (r + "\n")[..|r|];
  }

  // ---------------------------------------------------------------------
  // Account identifiers: `^\d{12}$`

  predicate IsTwelveDigits(s: string) {
    |s| == 12 && AllIn(s, Digit)
  }

  /** `re.match(r"^\d{12}$", p)` */
  predicate MatchesAccountId(p: string) {
    IsTwelveDigits(Chomp(p))
  }

  /** The account-identifier pattern accepts twelve digits, optionally followed by one newline, and nothing else. */
  lemma AccountIdShape(p: string)
    ensures MatchesAccountId(p) <==>
      (|p| == 12 && AllIn(p, Digit)) || (|p| == 13 && AllIn(p[..12], Digit) && p[12] == '\n')
  {
  }

  // ---------------------------------------------------------------------
  // Scanning steps the parsers below are built from.

  /** The rest of `t` after the literal `p`, if `t` starts with `p`. */
  function Literal(p: string, t: string): (r: Option<string>)
    ensures r.Some? <==> |p| <= |t| && t[..|p|] == p
    ensures r.Some? ==> t == p + r.value
  {
    if |p| <= |t| && t[..|p|] == p then
      assert t == t[..|p|] + t[|p|..];
      Some(t[|p|..])
    else None
  }

  lemma LiteralOf(p: string, x: string)
    ensures Literal(p, p + x) == Some(x)
  {
    assert (p + x)[..|p|] == p;
    assert (p + x)[|p|..] == x;
  }

  /** Splits `t` into its longest prefix of `k` characters and the rest. */
  function Run(t: string, k: CharClass): (r: (string, string))
    ensures t == r.0 + r.1
    ensures AllIn(r.0, k)
    ensures r.1 == [] || !InClass(r.1[0], k)
  {
    var j := Span(t, 0, k);
    assert t == t[0..j] + t[j..];
    (t[0..j], t[j..])
  }

  /** A run of `k` characters ended by a character outside `k` is what Run splits off. */
  lemma RunOf(run: string, rest: string, k: CharClass)
    requires AllIn(run, k)
    requires rest == [] || !InClass(rest[0], k)
    ensures Run(run + rest, k) == (run, rest)
  {
    var t := run + rest;
    assert t[0..|run|] == run;
    SpanStopsAt(t, 0, |run|, k);
    assert t[|run|..] == rest;
  }

  // ---------------------------------------------------------------------
  // Organization ARNs: `^arn:aws:organizations::\d{12}:organization/(o-\w+)$`
  // Organizational-unit ARNs: `^arn:aws:organizations::\d{12}:ou/(o-\w+)/(ou-[\w-]+)$`

  const OrganizationsPrefix: string := "arn:aws:organizations::"

  /** The parts of an organization ARN; `orgId` is the captured `o-...` group. */
  datatype OrganizationArn = OrganizationArn(account: string, orgId: string)

  /** The parts of an organizational-unit ARN; `orgId` and `unitId` are the two captured groups. */
  datatype UnitArn = UnitArn(account: string, orgId: string, unitId: string)

  /** `o-\w+` */
  predicate IsOrgId(s: string) {
    |s| > 2 && s[..2] == "o-" && AllIn(s[2..], Word)
  }

  /** `ou-[\w-]+` */
  predicate IsUnitId(s: string) {
    |s| > 3 && s[..3] == "ou-" && AllIn(s[3..], WordDash)
  }

  predicate WellFormedOrganizationArn(a: OrganizationArn) {
    IsTwelveDigits(a.account) && IsOrgId(a.orgId)
  }

  function RenderOrganizationArn(a: OrganizationArn): string {
    OrganizationsPrefix + (a.account + (":organization/" + a.orgId))
  }

  predicate WellFormedUnitArn(a: UnitArn) {
    IsTwelveDigits(a.account) && IsOrgId(a.orgId) && IsUnitId(a.unitId)
  }

  function RenderUnitArn(a: UnitArn): string {
    OrganizationsPrefix + (a.account + (":ou/" + (a.orgId + ("/" + a.unitId))))
  }

  /** Matches the body of the organization pattern against `t`, capturing its parts. */
  function ParseOrganizationArn(t: string): (r: Option<OrganizationArn>)
  {
    match Literal(OrganizationsPrefix, t)
    case None => None
    case Some(r1) =>
      if |r1| < 12 || !IsTwelveDigits(r1[..12]) then None
      else
        match Literal(":organization/", r1[12..])
        case None => None
        case Some(orgId) => if IsOrgId(orgId) then Some(OrganizationArn(r1[..12], orgId)) else None
  }

  /** What the organization pattern accepts is a well-formed organization ARN, and its parts rebuild the input. */
  lemma ParseOrganizationArnSound(t: string)
    requires ParseOrganizationArn(t).Some?
    ensures WellFormedOrganizationArn(ParseOrganizationArn(t).value) && RenderOrganizationArn(ParseOrganizationArn(t).value) == t
  {
    var r1 := Literal(OrganizationsPrefix, t).value;
    assert r1 == r1[..12] + r1[12..];
  }

  /** Concatenation facts the parsers need about a literal prefix. */
  lemma Regroup(p: string, w: string, rest: string)
    ensures (p + w)[..|p|] == p && (p + w)[|p|..] == w
    ensures p + (w + rest) == (p + w) + rest
  {
  }

  /** The two captured groups of an organizational-unit ARN: `o-...` and `ou-...`, split at the first `/`. */
  function ParseUnitIds(r2: string): (r: Option<(string, string)>)
    ensures r.Some? ==> IsOrgId(r.value.0) && IsUnitId(r.value.1) && r2 == r.value.0 + ("/" + r.value.1)
  {
    match Literal("o-", r2)
    case None => None
    case Some(r3) =>
      var (w, r4) := Run(r3, Word);
      if |w| == 0 || r4 == [] || r4[0] != '/' || !IsUnitId(r4[1..]) then None
      else
        var orgId := "o-" + w;
        var unitId := r4[1..];
        Regroup("o-", w, r4);
        assert r4 == "/" + unitId;
        Some((orgId, unitId))
  }

  /** Matches the body of the organizational-unit pattern against `t`, capturing its parts. */
  function ParseUnitArn(t: string): (r: Option<UnitArn>)
  {
    match Literal(OrganizationsPrefix, t)
    case None => None
    case Some(r1) =>
      if |r1| < 12 || !IsTwelveDigits(r1[..12]) then None
      else
        match Literal(":ou/", r1[12..])
        case None => None
        case Some(r2) =>
          match ParseUnitIds(r2)
          case None => None
          case Some((orgId, unitId)) => Some(UnitArn(r1[..12], orgId, unitId))
  }

  /** What the organizational-unit pattern accepts is a well-formed unit ARN, and its parts rebuild the input. */
  lemma ParseUnitArnSound(t: string)
    requires ParseUnitArn(t).Some?
    ensures WellFormedUnitArn(ParseUnitArn(t).value) && RenderUnitArn(ParseUnitArn(t).value) == t
  {
    var r1 := Literal(OrganizationsPrefix, t).value;
    assert r1 == r1[..12] + r1[12..];
  }

  /** Every well-formed organization ARN is recognised, with the parts it was built from. */
  lemma OrganizationArnRoundTrip(a: OrganizationArn)
    requires WellFormedOrganizationArn(a)
    ensures ParseOrganizationArn(RenderOrganizationArn(a)) == Some(a)
  {
    var rest := ":organization/" + a.orgId;
    LiteralOf(OrganizationsPrefix, a.account + rest);
    assert (a.account + rest)[..12] == a.account;
    assert (a.account + rest)[12..] == rest;
    LiteralOf(":organization/", a.orgId);
  }

  lemma UnitIdsRoundTrip(orgId: string, unitId: string)
    requires IsOrgId(orgId) && IsUnitId(unitId)
    ensures ParseUnitIds(orgId + ("/" + unitId)) == Some((orgId, unitId))
  {
    var w := orgId[2..];
    var r4 := "/" + unitId;
    assert orgId == "o-" + w;
    assert orgId + r4 == "o-" + (w + r4);
    LiteralOf("o-", w + r4);
    RunOf(w, r4, Word);
    assert r4[1..] == unitId;
  }

  /** Every well-formed organizational-unit ARN is recognised, with the parts it was built from. */
  lemma UnitArnRoundTrip(a: UnitArn)
    requires WellFormedUnitArn(a)
    ensures ParseUnitArn(RenderUnitArn(a)) == Some(a)
  {
    var r2 := a.orgId + ("/" + a.unitId);
    var rest := ":ou/" + r2;
    LiteralOf(OrganizationsPrefix, a.account + rest);
    assert (a.account + rest)[..12] == a.account;
    assert (a.account + rest)[12..] == rest;
    LiteralOf(":ou/", r2);
    UnitIdsRoundTrip(a.orgId, a.unitId);
  }

  // ---------------------------------------------------------------------
  // Shareable resource ARNs: `^arn:aws:[a-z0-9-]+:[a-z0-9-]*:[0-9]{12}:([a-z-]+)[/:].*$`

  const ArnPrefix: string := "arn:aws:"

  /** The parts of a resource ARN; `resourceType` is the captured group. */
  datatype ResourceArn = ResourceArn(
    service: string,
    region: string,
    account: string,
    resourceType: string,
    separator: char,
    tail: string)

  predicate WellFormedResourceArn(a: ResourceArn) {
    && |a.service| > 0 && AllIn(a.service, LowerAlnumDash)
    && AllIn(a.region, LowerAlnumDash)
    && IsTwelveDigits(a.account)
    && |a.resourceType| > 0 && AllIn(a.resourceType, LowerDash)
    && (a.separator == '/' || a.separator == ':')
    && '\n' !in a.tail
  }

  function RenderResourceArn(a: ResourceArn): string {
    ArnPrefix + (a.service + (":" + (a.region + (":" + (a.account + (":" + (a.resourceType + ([a.separator] + a.tail))))))))
  }

  /** The part of a resource ARN after its region: `:<account>:<type><sep><tail>`. */
  function ParseAccountAndType(r3: string): (r: Option<(string, string, char, string)>)
    ensures r.Some? ==>
      && IsTwelveDigits(r.value.0) && |r.value.1| > 0 && AllIn(r.value.1, LowerDash)
      && (r.value.2 == '/' || r.value.2 == ':') && '\n' !in r.value.3
      && r3 == ":" + (r.value.0 + (":" + (r.value.1 + ([r.value.2] + r.value.3))))
  {
    if |r3| < 14 || r3[0] != ':' || !IsTwelveDigits(r3[1..13]) || r3[13] != ':' then None
    else
      var (typ, r4) := Run(r3[14..], LowerDash);
      if |typ| == 0 || r4 == [] || (r4[0] != '/' && r4[0] != ':') || '\n' in r4[1..] then None
      else
        assert r4 == [r4[0]] + r4[1..];
        assert r3 == ":" + (r3[1..13] + (":" + r3[14..]));
        Some((r3[1..13], typ, r4[0], r4[1..]))
  }

  /** The part of a resource ARN after `arn:aws:`: `<service>:<region>` followed by what ParseAccountAndType reads. */
  function ParseAfterPrefix(r1: string): Option<ResourceArn> {
    var (service, r2) := Run(r1, LowerAlnumDash);
    if |service| == 0 || r2 == [] || r2[0] != ':' then None
    else
      var (region, r3) := Run(r2[1..], LowerAlnumDash);
      match ParseAccountAndType(r3)
      case None => None
      case Some((account, typ, sep, tail)) =>
        Some(ResourceArn(service, region, account, typ, sep, tail))
  }

  /** What ParseAfterPrefix accepts is well formed, and rebuilds the input after `arn:aws:`. */
  lemma ParseAfterPrefixSound(r1: string)
    ensures ParseAfterPrefix(r1).Some? ==>
      var a := ParseAfterPrefix(r1).value;
      WellFormedResourceArn(a) && ArnPrefix + r1 == RenderResourceArn(a)
  {
    if ParseAfterPrefix(r1).Some? {
      var p1 := Run(r1, LowerAlnumDash);
      var p2 := Run(p1.1[1..], LowerAlnumDash);
      var a := ParseAfterPrefix(r1).value;
      assert a.service == p1.0 && a.region == p2.0;
      var r3 := ":" + (a.account + (":" + (a.resourceType + ([a.separator] + a.tail))));
      assert p2.1 == r3;
      SplitHead(p1.1);
      assert r1 == a.service + (":" + (a.region + r3));
    }
  }

  /** A non-empty string is its first character followed by the rest. */
  lemma SplitHead(s: string)
    requires s != []
    ensures s == [s[0]] + s[1..]
  {
  }

  /** Matches the body of the resource-ARN pattern against `t`, capturing its parts. */
  function ParseResourceArn(t: string): (r: Option<ResourceArn>)
  {
    match Literal(ArnPrefix, t)
    case None => None
    case Some(r1) => ParseAfterPrefix(r1)
  }

  /** What the resource-ARN pattern accepts is a well-formed resource ARN, and its parts rebuild the input. */
  lemma ParseResourceArnSound(t: string)
    ensures ParseResourceArn(t).Some? ==>
      WellFormedResourceArn(ParseResourceArn(t).value) && RenderResourceArn(ParseResourceArn(t).value) == t
  {
    if ParseResourceArn(t).Some? {
      ParseAfterPrefixSound(Literal(ArnPrefix, t).value);
    }
  }

  lemma AccountAndTypeRoundTrip(account: string, typ: string, sep: char, tail: string)
    requires IsTwelveDigits(account) && |typ| > 0 && AllIn(typ, LowerDash)
    requires (sep == '/' || sep == ':') && '\n' !in tail
    ensures ParseAccountAndType(":" + (account + (":" + (typ + ([sep] + tail))))) == Some((account, typ, sep, tail))
  {
    var r4 := [sep] + tail;
    var r3 := ":" + (account + (":" + (typ + r4)));
    assert r3[1..13] == account;
    assert r3[14..] == typ + r4;
    RunOf(typ, r4, LowerDash);
    assert r4[1..] == tail;
  }

  /** Every well-formed resource ARN is recognised, with the parts it was built from. */
  lemma ResourceArnRoundTrip(a: ResourceArn)
    requires WellFormedResourceArn(a)
    ensures ParseResourceArn(RenderResourceArn(a)) == Some(a)
  {
    var r3 := ":" + (a.account + (":" + (a.resourceType + ([a.separator] + a.tail))));
    var r2 := ":" + (a.region + r3);
    LiteralOf(ArnPrefix, a.service + r2);
    RunOf(a.service, r2, LowerAlnumDash);
    assert r2[1..] == a.region + r3;
    RunOf(a.region, r3, LowerAlnumDash);
    AccountAndTypeRoundTrip(a.account, a.resourceType, a.separator, a.tail);
  }

  /** `re.search(pattern, s)` for the resource-ARN pattern, with its captured resource type. */
  function MatchResourceArn(s: string): Option<ResourceArn> {
    ParseResourceArn(Chomp(s))
  }

  // ---------------------------------------------------------------------
  // The `resourceType` strings of the permission catalogue: `service:Type`.

  /** `s.split(":")[0]` */
  function ServicePart(s: string): (r: string)
    ensures ':' !in r
    ensures r == s || (|r| < |s| && s[..|r|] == r && s[|r|] == ':')
  {
    if s == [] then []
    else if s[0] == ':' then []
    else [s[0]] + ServicePart(s[1..])
  }

  /** `s.split(":")[-1]` */
  function TypePart(s: string): (r: string)
    ensures ':' !in r
    ensures r == s || (|r| < |s| && s[|s| - |r|..] == r && s[|s| - |r| - 1] == ':')
  {
    if s == [] then []
    else if s[|s| - 1] == ':' then []
    else
      var r := TypePart(s[..|s| - 1]);
      assert s[..|s| - 1] + [s[|s| - 1]] == s;
      r + [s[|s| - 1]]
  }

  function LowerChar(c: char): char {
    if 'A' <= c <= 'Z' then (c as int - 'A' as int + 'a' as int) as char else c
  }

  /** `s.lower()` on ASCII letters. */
  function Lower(s: string): (r: string)
    ensures |r| == |s|
    ensures forall i :: 0 <= i < |s| ==> r[i] == LowerChar(s[i])
  {
    if s == [] then [] else [LowerChar(s[0])] + Lower(s[1..])
  }
}
