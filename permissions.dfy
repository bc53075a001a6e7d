/** The role/scope authorisation check of test.js: a fixed role table, grants
    of the form `role:seg/seg/...` read from the `roles` claim, and
    `hasPermission(action, scope?)` as the code computes it, quirks included:
    a mismatch at index 0 or at an intermediate index does not reject a grant,
    a single-segment requested scope never succeeds, and a grant without `:`
    or with an unknown role raises a TypeError (modelled as `Err`). */
module Permissions {

  import opened Values
  import opened Text

  /** The fixed role -> actions table. */
  const Roles: map<string, seq<string>> := map[
    "admin" := ["read_all", "read", "write_all", "write", "delete_all", "delete"],
    "moderator" := ["read_all", "read", "write_all", "write", "delete"],
    "contributor" := ["read_all", "read", "write", "delete"],
    "user" := ["read", "write"],
    "guest" := ["read"]
  ]

  /** The scope written into the environment when `SCOPE` is unset or empty. */
  const DefaultScope: string := "RIP"

  /** The `roles` claim: absent, present but not an array, or a list of grants. */
  datatype RolesClaim = Absent | NotAList | Grants(entries: seq<string>)

  /** A verified token payload as the request decorators see it. */
  datatype Claims = Claims(sub: Option<string>, roles: RolesClaim)

  /** The TypeErrors `hasPermission` raises instead of answering. */
  datatype Fault =
    | GrantWithoutScope(grant: string)   // `x.split(':')[1]` is undefined
    | UnknownRole(role: string)          // `permissions[role]` is undefined

  /** The process environment; only `SCOPE` is read or written. */
  class ProcessEnv {
    var scope: Option<string>

    constructor (scope: Option<string>)
      ensures this.scope == scope
    {
      this.scope := scope;
    }
  }

  /** `env['SCOPE']` after the defaulting at the top of `hasPermission`. */
  function ConfiguredScope(scope: Option<string>): (r: string)
    ensures r != ""
    ensures Present(scope) ==> r == scope.value
  {
    if Present(scope) then scope.value else DefaultScope
  }

  /** The requested scope, or the configured one when the caller gave none. */
  function EffectiveScope(requested: Option<string>, configured: string): string
  {
    if Present(requested) then requested.value else configured
  }

  /** `env['SCOPE'].split('/')[0]`. */
  function Tenant(configured: string): string
  {
    Split(configured, '/')[0]
  }

  /** `x.split(':')[0]`. */
  function RoleOf(grant: string): string
  {
    Split(grant, ':')[0]
  }

  /** `x.split(':')[1]`: the text between the first and any second `:`. */
  function ScopePart(grant: string): string
    requires ':' in grant
  {
    Split(grant, ':')[1]
  }

  /** A grant the pre-filter keeps: its scope part starts with the tenant. */
  predicate Candidate(grant: string, tenant: string)
  {
    ':' in grant && StartsWith(ScopePart(grant), tenant)
  }

  /** Index `i` of the requested path makes the walk return true: the third
      branch of the loop, reached only when the second did not `continue`.
      Past the end of the grant its segment is `undefined`, equal to nothing. */
  predicate SegmentGrants(granted: seq<string>, requested: seq<string>, i: int)
  {
    1 <= i < |requested| &&
    if i < |granted| && granted[i] == requested[i] then i == |requested| - 1
    else i < |granted| && granted[i] == "*"
  }

  predicate WalkAccepts(granted: seq<string>, requested: seq<string>)
  {
    exists i :: 0 <= i < |requested| && SegmentGrants(granted, requested, i)
  }

  /** The grant passes the action check and the segment walk. */
  predicate GrantAllows(grant: string, action: string, requested: seq<string>)
  {
    ':' in grant && RoleOf(grant) in Roles && action in Roles[RoleOf(grant)] &&
    WalkAccepts(Split(ScopePart(grant), '/'), requested)
  }

  /** The segment walk of one grant, as the `for` loop runs it. */
  method WalkSegments(granted: seq<string>, requested: seq<string>) returns (accepted: bool)
    ensures accepted <==> WalkAccepts(granted, requested)
  {
    var i := 0;
    while i < |requested|
      invariant 0 <= i <= |requested|
      invariant forall j :: 0 <= j < i ==> !SegmentGrants(granted, requested, j)
    {
      var scope: Option<string> := if i < |granted| then Some(granted[i]) else None;
      var reqScope := requested[i];
      if i == 0 && scope == Some(reqScope) {
        i := i + 1;
        continue;
      } else if i > 0 && scope == Some(reqScope) && i + 1 != |requested| {
        i := i + 1;
        continue;
      } else if i > 0 && ((scope == Some(reqScope) && i + 1 == |requested|) || scope == Some("*")) {
        assert SegmentGrants(granted, requested, i);
        return true;
      }
      i := i + 1;
    }
    return false;
  }

  /** `roles.filter(...)`: keeps, in order, the grants whose scope part starts
      with the tenant; the first grant without `:` raises. */
  function FilterGrants(entries: seq<string>, tenant: string): (r: Result<seq<string>, Fault>)
    ensures r.Err? <==> exists g :: g in entries && ':' !in g
    ensures r.Err? ==> r.error.GrantWithoutScope? && r.error.grant in entries && ':' !in r.error.grant
    ensures r.Ok? ==> forall g :: g in r.value <==> g in entries && Candidate(g, tenant)
  {
    if |entries| == 0 then Ok([])
    else if ':' !in entries[0] then Err(GrantWithoutScope(entries[0]))
    else
      match FilterGrants(entries[1..], tenant)
      case Err(f) => Err(f)
      case Ok(rest) =>
        Ok(if StartsWith(ScopePart(entries[0]), tenant) then [entries[0]] + rest else rest)
  }

  /** Every grant has a scope part. */
  predicate Scoped(grants: seq<string>)
  {
    forall i :: 0 <= i < |grants| ==> ':' in grants[i]
  }

  /** `roles.some(...)` over the filtered grants: stops at the first grant
      that succeeds, or at the first whose role is not in the table. */
  function AnyGrant(grants: seq<string>, action: string, requested: seq<string>): (r: Result<bool, Fault>)
    requires Scoped(grants)
    ensures r == Ok(true) ==> exists g :: g in grants && GrantAllows(g, action, requested)
    ensures r.Err? ==> r.error.UnknownRole? && exists g :: g in grants && RoleOf(g) == r.error.role && r.error.role !in Roles
    ensures (forall g :: g in grants ==> RoleOf(g) in Roles) ==>
      r == Ok(exists g :: g in grants && GrantAllows(g, action, requested))
  {
    if |grants| == 0 then Ok(false)
    else
      var g := grants[0];
      if RoleOf(g) !in Roles then Err(UnknownRole(RoleOf(g)))
      else if action in Roles[RoleOf(g)] && WalkAccepts(Split(ScopePart(g), '/'), requested) then
        assert GrantAllows(g, action, requested);
        Ok(true)
      else
        assert forall h :: h in grants <==> h == g || h in grants[1..];
        AnyGrant(grants[1..], action, requested)
  }

  /** What `hasPermission(action, requested)` returns or raises, given the
      `roles` claim and the configured scope (already defaulted). */
  function Decide(roles: RolesClaim, action: string, requested: Option<string>, configured: string): (r: Result<bool, Fault>)
    ensures !roles.Grants? ==> r == Ok(false)
    ensures r == Ok(true) ==>
      roles.Grants? &&
      exists g :: g in roles.entries && Candidate(g, Tenant(configured)) &&
        GrantAllows(g, action, Split(EffectiveScope(requested, configured), '/'))
  {
    match roles
    case Grants(entries) =>
      (match FilterGrants(entries, Tenant(configured))
       case Err(f) => Err(f)
       case Ok(candidates) => AnyGrant(candidates, action, Split(EffectiveScope(requested, configured), '/')))
    case _ => Ok(false)
  }

  /** `hasPermission` itself: defaults `env.SCOPE` in place, then answers. */
  method HasPermission(env: ProcessEnv, roles: RolesClaim, action: string, requested: Option<string>)
    returns (r: Result<bool, Fault>)
    modifies env
    ensures env.scope == Some(ConfiguredScope(old(env.scope)))
    ensures r == Decide(roles, action, requested, ConfiguredScope(old(env.scope)))
  {
    if !Present(env.scope) {
      env.scope := Some(DefaultScope);
    }
    var configured := env.scope.value;
    assert configured == ConfiguredScope(old(env.scope));
    var scope := EffectiveScope(requested, configured);
    if !roles.Grants? {
      return Ok(false);
    }
    var filtered := FilterGrants(roles.entries, Tenant(configured));
    if filtered.Err? {
      return Err(filtered.error);
    }
    r := SomeGrant(filtered.value, action, Split(scope, '/'));
  }

  /** The `roles.some(...)` loop over the filtered grants. */
  method SomeGrant(grants: seq<string>, action: string, requested: seq<string>) returns (r: Result<bool, Fault>)
    requires Scoped(grants)
    ensures r == AnyGrant(grants, action, requested)
  {
    assert grants[0..] == grants;
    var k := 0;
    while k < |grants|
      invariant 0 <= k <= |grants|
      invariant AnyGrant(grants[k..], action, requested) == AnyGrant(grants, action, requested)
    {
      var g := grants[k];
      AnyGrantAt(grants, k, action, requested);
      var role := RoleOf(g);
      if role !in Roles {
        return Err(UnknownRole(role));
      }
      if action in Roles[role] {
        var ok := WalkSegments(Split(ScopePart(g), '/'), requested);
        if ok {
          return Ok(true);
        }
      }
      k := k + 1;
    }
    return Ok(false);
  }

  /** One step of `some`: the grant at `k` answers, raises, or hands over to the rest. */
  lemma AnyGrantAt(grants: seq<string>, k: nat, action: string, requested: seq<string>)
    requires Scoped(grants) && k < |grants|
    ensures AnyGrant(grants[k..], action, requested) ==
      if RoleOf(grants[k]) !in Roles then Err(UnknownRole(RoleOf(grants[k])))
      else if action in Roles[RoleOf(grants[k])] && WalkAccepts(Split(ScopePart(grants[k]), '/'), requested) then Ok(true)
      else AnyGrant(grants[k + 1..], action, requested)
  {
    assert grants[k..][0] == grants[k];
    assert grants[k..][1..] == grants[k + 1..];
  }

  // ---------------------------------------------------------------------
  // Properties of the decision

  /** When no grant lacks `:` and every candidate's role is in the table,
      the answer is an OR over the candidates, independent of their order. */
  predicate WellFormed(entries: seq<string>, tenant: string)
  {
    forall g :: g in entries ==> ':' in g && (Candidate(g, tenant) ==> RoleOf(g) in Roles)
  }

  lemma DecideWellFormed(entries: seq<string>, action: string, requested: Option<string>, configured: string)
    requires WellFormed(entries, Tenant(configured))
    ensures Decide(Grants(entries), action, requested, configured) ==
      Ok(exists g :: g in entries && Candidate(g, Tenant(configured)) &&
           GrantAllows(g, action, Split(EffectiveScope(requested, configured), '/')))
  {
    var tenant := Tenant(configured);
    var f := FilterGrants(entries, tenant);
    assert f.Ok?;
    assert forall g :: g in f.value ==> RoleOf(g) in Roles;
  }

  /** Reordering the grants does not change a well-formed answer. */
  lemma PermutationInvariant(a: seq<string>, b: seq<string>, action: string, requested: Option<string>, configured: string)
    requires multiset(a) == multiset(b)
    requires WellFormed(a, Tenant(configured))
    ensures Decide(Grants(a), action, requested, configured) == Decide(Grants(b), action, requested, configured)
  {
    assert forall g :: g in a <==> g in b by {
      forall g ensures g in a <==> g in b {
        assert g in a <==> g in multiset(a);
        assert g in b <==> g in multiset(b);
      }
    }
    DecideWellFormed(a, action, requested, configured);
    DecideWellFormed(b, action, requested, configured);
  }

  /** A requested path of one segment is never granted: every success branch
      of the walk needs an index above 0. */
  lemma SingleSegmentNeverGranted(roles: RolesClaim, action: string, requested: Option<string>, configured: string)
    requires |Split(EffectiveScope(requested, configured), '/')| == 1
    ensures Decide(roles, action, requested, configured) != Ok(true)
  {
  }

  /** In particular an omitted scope is never granted while the configured
      scope has no `/`, as with the default `RIP`. */
  lemma OmittedScopeNeverGranted(roles: RolesClaim, action: string, configured: string)
    requires '/' !in configured
    ensures Decide(roles, action, None, configured) != Ok(true)
  {
    SingleSegmentNeverGranted(roles, action, None, configured);
  }

  /** A stricter matcher: same length, equal prefix, last segment equal or `*`. */
  predicate StrictMatch(granted: seq<string>, requested: seq<string>)
  {
    |granted| == |requested| >= 1 &&
    granted[..|granted| - 1] == requested[..|requested| - 1] &&
    (granted[|granted| - 1] == requested[|requested| - 1] || granted[|granted| - 1] == "*")
  }

  /** On paths of two or more segments the walk accepts whatever the strict
      matcher accepts. */
  lemma StrictImpliesWalk(granted: seq<string>, requested: seq<string>)
    requires |requested| >= 2 && StrictMatch(granted, requested)
    ensures WalkAccepts(granted, requested)
  {
    assert SegmentGrants(granted, requested, |requested| - 1);
  }

  /** The walk is looser than the strict matcher: an earlier mismatch, even of
      the tenant segment, does not reject, and neither does a length mismatch. */
  lemma WalkIgnoresEarlierMismatch()
    ensures WalkAccepts(["A", "x", "*"], ["B", "y", "z"])
    ensures !StrictMatch(["A", "x", "*"], ["B", "y", "z"])
    ensures WalkAccepts(["A", "*"], ["A", "b", "c"])
    ensures !StrictMatch(["A", "*"], ["A", "b", "c"])
    ensures !WalkAccepts(["A"], ["A"]) && StrictMatch(["A"], ["A"])
  {
    assert SegmentGrants(["A", "x", "*"], ["B", "y", "z"], 2);
    assert ["A", "x", "*"][..2][0] != ["B", "y", "z"][..2][0];
    assert SegmentGrants(["A", "*"], ["A", "b", "c"], 1);
  }

  /** Every role's actions include those of the role below it, and `read`. */
  lemma RoleChain()
    ensures forall r :: r in Roles ==> "read" in Roles[r]
    ensures forall a :: a in Roles["guest"] ==> a in Roles["user"]
    ensures forall a :: a in Roles["user"] ==> a in Roles["contributor"]
    ensures forall a :: a in Roles["contributor"] ==> a in Roles["moderator"]
    ensures forall a :: a in Roles["moderator"] ==> a in Roles["admin"]
  {
  }

  // ---------------------------------------------------------------------
  // Worked examples

  /** `s` splits into `a` and `b` at its only separator. */
  lemma SplitTwo(s: string, a: string, c: char, b: string)
    requires s == a + [c] + b && c !in a && c !in b
    ensures Split(s, c) == [a, b]
  {
    SplitAround(a, c, b);
  }

  /** `s` splits into `a`, `b` and `d` at its two separators. */
  lemma SplitThree(s: string, a: string, c: char, b: string, d: string)
    requires s == a + [c] + b + [c] + d && c !in a && c !in b && c !in d
    ensures Split(s, c) == [a, b, d]
  {
    assert s == a + [c] + (b + [c] + d);
    SplitAround(a, c, b + [c] + d);
    SplitTwo(b + [c] + d, b, c, d);
  }

  /** The grant `role:scope`. */
  function ScopeGrant(role: string, scope: string): string
  {
    role + ":" + scope
  }

  lemma GrantParts(role: string, scope: string)
    requires ':' !in role && ':' !in scope
    ensures ':' in ScopeGrant(role, scope)
    ensures RoleOf(ScopeGrant(role, scope)) == role
    ensures ScopePart(ScopeGrant(role, scope)) == scope
  {
    SplitTwo(ScopeGrant(role, scope), role, ':', scope);
  }

  /** A tenant without `/` is its own tenant. */
  lemma TenantOfPlain(t: string)
    requires '/' !in t
    ensures Tenant(t) == t
  {
  }

  /** Against the single wildcard grant of a known role on tenant `T`, with
      `SCOPE` set to `T`, the answer is that role's action check and the walk
      over `[T, "*"]`. */
  lemma WildcardDecide(role: string, t: string, action: string, requested: Option<string>)
    requires ':' !in role && role in Roles && '/' !in t && ':' !in t
    ensures Decide(Grants([ScopeGrant(role, t + "/*")]), action, requested, t) ==
      Ok(action in Roles[role] && WalkAccepts([t, "*"], Split(EffectiveScope(requested, t), '/')))
  {
    var g := ScopeGrant(role, t + "/*");
    var parts := Split(EffectiveScope(requested, t), '/');
    assert Tenant(t) == t by { TenantOfPlain(t); }
    assert ':' in g && RoleOf(g) == role && ScopePart(g) == t + "/*" by {
      GrantParts(role, t + "/*");
    }
    assert Candidate(g, t) by {
      assert StartsWith(t + "/*", t);
    }
    assert GrantAllows(g, action, parts) <==> action in Roles[role] && WalkAccepts([t, "*"], parts) by {
      SplitTwo(t + "/*", t, '/', "*");
    }
    assert WellFormed([g], Tenant(t));
    DecideWellFormed([g], action, requested, t);
  }

  /** Against the wildcard admin grant on tenant `T`, with `SCOPE` set to the tenant `T`, the
      answer is the admin role's action check and the walk over `[T, "*"]`. */
  lemma AdminWildcard(t: string, action: string, requested: Option<string>)
    requires '/' !in t && ':' !in t
    ensures Decide(Grants([ScopeGrant("admin", t + "/*")]), action, requested, t) ==
      Ok(action in Roles["admin"] && WalkAccepts([t, "*"], Split(EffectiveScope(requested, t), '/')))
  {
    WildcardDecide("admin", t, action, requested);
  }

  /** The calls at the end of test.js, for any tenant `T` configured as
      `SCOPE` and the only grant the wildcard admin grant on `T`: a three-segment scope whose
      middle segment is not `*`, and any two-segment scope (a `*` second segment included), are granted
      exactly the admin actions; the calls that omit the scope are refused. */
  lemma WorkedCalls(t: string, a: string, b: string, action: string)
    requires '/' !in t && ':' !in t && '/' !in a && '/' !in b
    ensures a != "*" ==>
      Decide(Grants([ScopeGrant("admin", t + "/*")]), action, Some(t + "/" + a + "/" + b), t) ==
      Ok(action in Roles["admin"])
    ensures Decide(Grants([ScopeGrant("admin", t + "/*")]), action, Some(t + "/" + a), t) ==
      Ok(action in Roles["admin"])
    ensures Decide(Grants([ScopeGrant("admin", t + "/*")]), action, None, t) == Ok(false)
  {
    if a != "*" {
      var deep := t + "/" + a + "/" + b;
      SplitThree(deep, t, '/', a, b);
      assert SegmentGrants([t, "*"], [t, a, b], 1);
      AdminWildcard(t, action, Some(deep));
    }
    var two := t + "/" + a;
    SplitTwo(two, t, '/', a);
    assert SegmentGrants([t, "*"], [t, a], 1);
    AdminWildcard(t, action, Some(two));
    AdminWildcard(t, action, None);
  }

  /** A `*` as middle segment is a quirk of the walk: it equals the grant's
      `*` at an index that is not the last, so the walk moves on and finds
      nothing past the grant's end. */
  lemma WildcardMiddleRefused(t: string, b: string, action: string)
    requires '/' !in t && ':' !in t && '/' !in b
    ensures Decide(Grants([ScopeGrant("admin", t + "/*")]), action, Some(t + "/*/" + b), t) == Ok(false)
  {
    var deep := t + "/*/" + b;
    assert Split(EffectiveScope(Some(deep), t), '/') == [t, "*", b] by {
      SplitThree(deep, t, '/', "*", b);
    }
    StarIsNotLast(t, "*", b);
    AdminWildcard(t, action, Some(deep));
  }

  /** A requested segment equal to the grant's last segment, with one more
      segment after it, makes the walk step past the grant and refuse. */
  lemma StarIsNotLast(t: string, w: string, b: string)
    ensures !WalkAccepts([t, w], [t, w, b])
  {
    forall i | 0 <= i < 3 ensures !SegmentGrants([t, w], [t, w, b], i) {
    }
  }

  /** The pre-filter compares grants with the configured scope only: a grant
      for tenant `T` passes a request naming any other tenant. */
  lemma RequestTenantNotChecked(t: string, other: string, x: string)
    requires '/' !in t && ':' !in t && '/' !in other && '/' !in x
    ensures Decide(Grants([ScopeGrant("admin", t + "/*")]), "read", Some(other + "/" + x), t) == Ok(true)
  {
    SplitTwo(other + "/" + x, other, '/', x);
    assert SegmentGrants([t, "*"], [other, x], 1);
    AdminWildcard(t, "read", Some(other + "/" + x));
  }

  /** The filter keeps two grants that both name the tenant, in order. */
  lemma FilterKeepsPair(g: string, h: string, tenant: string)
    requires Candidate(g, tenant) && Candidate(h, tenant)
    ensures FilterGrants([g, h], tenant) == Ok([g, h])
  {
    assert FilterGrants([], tenant) == Ok([]);
    assert [h][1..] == [];
    assert [h] + [] == [h];
    assert FilterGrants([h], tenant) == Ok([h]);
    assert [g, h][1..] == [h];
    assert [g] + [h] == [g, h];
  }

  /** The wildcard grant of a role on `T` is a candidate that allows `T/x`
      for every action of that role. */
  lemma WildcardParts(role: string, action: string, t: string, x: string)
    requires ':' !in role && role in Roles && action in Roles[role]
    requires '/' !in t && ':' !in t && '/' !in x
    ensures Candidate(ScopeGrant(role, t + "/*"), t)
    ensures GrantAllows(ScopeGrant(role, t + "/*"), action, [t, x])
  {
    var g := ScopeGrant(role, t + "/*");
    assert ':' in g && RoleOf(g) == role && ScopePart(g) == t + "/*" by {
      GrantParts(role, t + "/*");
    }
    assert StartsWith(t + "/*", t);
    assert Split(t + "/*", '/') == [t, "*"] by {
      SplitTwo(t + "/*", t, '/', "*");
    }
    assert SegmentGrants([t, "*"], [t, x], 1);
  }

  /** The wildcard admin grant on `T` is a candidate that allows reading `T/x`. */
  lemma AdminWildcardParts(t: string, x: string)
    requires '/' !in t && ':' !in t && '/' !in x
    ensures Candidate(ScopeGrant("admin", t + "/*"), t)
    ensures GrantAllows(ScopeGrant("admin", t + "/*"), "read", [t, x])
  {
    WildcardParts("admin", "read", t, x);
  }

  /** The grant `root:T/x` is a candidate whose role is not in the table. */
  lemma RootGrantParts(t: string, x: string)
    requires ':' !in t && ':' !in x
    ensures Candidate(ScopeGrant("root", t + "/" + x), t)
    ensures RoleOf(ScopeGrant("root", t + "/" + x)) == "root" && "root" !in Roles
  {
    GrantParts("root", t + "/" + x);
    assert StartsWith(t + "/" + x, t);
  }

  /** `Decide` once the filter and the split are known. */
  lemma DecideVia(entries: seq<string>, action: string, requested: Option<string>, configured: string,
                  candidates: seq<string>, path: seq<string>)
    requires FilterGrants(entries, Tenant(configured)) == Ok(candidates)
    requires Split(EffectiveScope(requested, configured), '/') == path
    ensures Scoped(candidates)
    ensures Decide(Grants(entries), action, requested, configured) == AnyGrant(candidates, action, path)
  {
    assert forall i :: 0 <= i < |candidates| ==> candidates[i] in candidates;
  }

  /** `some` answers `true` at a first grant that allows the request,
      whatever follows it. */
  lemma FirstGrantAllows(g: string, rest: seq<string>, action: string, requested: seq<string>)
    requires Scoped([g] + rest) && GrantAllows(g, action, requested)
    ensures AnyGrant([g] + rest, action, requested) == Ok(true)
  {
    assert ([g] + rest)[0] == g;
  }

  /** `some` stops at the first success, so a grant with an unknown role
      raises only when no earlier grant succeeded: the answer depends on the
      order of the grants once one of them is faulty. Here the sound grant
      comes first and the answer is `true`. */
  lemma FaultAfterSuccess(t: string, x: string)
    requires '/' !in t && ':' !in t && '/' !in x && ':' !in x
    ensures Decide(Grants([ScopeGrant("admin", t + "/*"), ScopeGrant("root", t + "/" + x)]), "read", Some(t + "/" + x), t) == Ok(true)
  {
    var good := ScopeGrant("admin", t + "/*");
    var bad := ScopeGrant("root", t + "/" + x);
    assert FilterGrants([good, bad], Tenant(t)) == Ok([good, bad]) by {
      AdminWildcardParts(t, x);
      RootGrantParts(t, x);
      TenantOfPlain(t);
      FilterKeepsPair(good, bad, t);
    }
    assert Split(EffectiveScope(Some(t + "/" + x), t), '/') == [t, x] by {
      SplitTwo(t + "/" + x, t, '/', x);
    }
    DecideVia([good, bad], "read", Some(t + "/" + x), t, [good, bad], [t, x]);
    AdminWildcardParts(t, x);
    assert [good, bad] == [good] + [bad];
    FirstGrantAllows(good, [bad], "read", [t, x]);
  }

  /** The same two grants in the other order: the unknown role `root` is
      reached first and raises. */
  lemma FaultBeforeSuccess(t: string, x: string)
    requires '/' !in t && ':' !in t && '/' !in x && ':' !in x
    ensures Decide(Grants([ScopeGrant("root", t + "/" + x), ScopeGrant("admin", t + "/*")]), "read", Some(t + "/" + x), t) == Err(UnknownRole("root"))
  {
    var good := ScopeGrant("admin", t + "/*");
    var bad := ScopeGrant("root", t + "/" + x);
    AdminWildcardParts(t, x);
    RootGrantParts(t, x);
    TenantOfPlain(t);
    FilterKeepsPair(bad, good, t);
    assert Scoped([bad, good]);
    assert AnyGrant([bad, good], "read", Split(t + "/" + x, '/')) == Err(UnknownRole("root"));
  }
}
