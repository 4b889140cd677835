/**
 * The development seeding script: how it reads the four counts from the
 * environment and the command line, and the shape of the population it
 * builds (landlords, tenants, groups, listings, applications) with every
 * reference pointing at a record that was built with it.
 *
 * The random draws (identifiers, group sizes and members, the landlord of a
 * listing, the listing and group of an application) are inputs, bundled in
 * `Draws`; the faker-generated contact fields and the database writes are
 * not part of this model.
 */
module Seed {
  import opened Common
  import opened Text
  import opened Database

  /** The four counts the script reads. */
  datatype CountKey = Persons | Groups | Listings | Applications

  /** The command-line name of a count. */
  function KeyName(k: CountKey): string {
    match k
    case Persons => "persons"
    case Groups => "groups"
    case Listings => "listings"
    case Applications => "applications"
  }

  /** `Object.hasOwn(parsed, key)`: the count a command-line key names, if any. */
  function ParseKey(s: string): (r: Option<CountKey>)
    ensures r.Some? ==> KeyName(r.value) == s
    ensures r.None? ==> forall k :: KeyName(k) != s
  {
    if s == "persons" then Some(Persons)
    else if s == "groups" then Some(Groups)
    else if s == "listings" then Some(Listings)
    else if s == "applications" then Some(Applications)
    else None
  }

  /** The built-in value of each count. */
  function DefaultCount(k: CountKey): int {
    match k
    case Persons => 10
    case Groups => 3
    case Listings => 5
    case Applications => 8
  }

  datatype Counts = Counts(persons: int, groups: int, listings: int, applications: int)
  {
    function Get(k: CountKey): int {
      match k
      case Persons => persons
      case Groups => groups
      case Listings => listings
      case Applications => applications
    }

    /** `parsed[key] = v`: only the named count changes. */
    function With(k: CountKey, v: int): (r: Counts)
      ensures r.Get(k) == v
      ensures forall j :: j != k ==> r.Get(j) == Get(j)
    {
      match k
      case Persons => this.(persons := v)
      case Groups => this.(groups := v)
      case Listings => this.(listings := v)
      case Applications => this.(applications := v)
    }
  }

  /**
   * `Number(env || d)`: an unset or empty environment variable falls back
   * to the built-in value; anything else goes through `Number`.
   */
  function InitialCount(env: CountKey -> Option<string>, toNumber: string -> int, k: CountKey): int {
    if env(k).None? || env(k).value == "" then DefaultCount(k) else toNumber(env(k).value)
  }

  /**
   * The second part of `arg.split("=")`: the text between the first and the
   * second `=`, or nothing when there is no `=`.
   */
  function ArgValue(arg: string): Option<string> {
    var key := BeforeFirst(arg, '=');
    if |key| == |arg| then None else Some(BeforeFirst(arg[|key| + 1..], '='))
  }

  /**
   * What one command-line argument sets: the first part of the split names
   * the count and the second is its value; an argument with no `=`, an empty
   * key or value, or an unknown key sets nothing.
   */
  function ArgSetting(arg: string): Option<(CountKey, string)> {
    var key, value := BeforeFirst(arg, '='), ArgValue(arg);
    if key == "" || value.None? || value.value == "" then None
    else match ParseKey(key)
      case None => None
      case Some(k) => Some((k, value.value))
  }

  /** No count name holds a `=`, and each reads back as its count. */
  lemma KeyNameShape(k: CountKey)
    ensures '=' !in KeyName(k) && KeyName(k) != ""
    ensures ParseKey(KeyName(k)) == Some(k)
  {
    match k
    case Persons => assert KeyName(k) == "persons";
    case Groups => assert KeyName(k) == "groups";
    case Listings => assert KeyName(k) == "listings";
    case Applications => assert KeyName(k) == "applications";
  }

  /** Splitting `key=value`: the parts come back. */
  lemma SplitPair(key: string, value: string)
    requires '=' !in key && '=' !in value
    ensures BeforeFirst(key + "=" + value, '=') == key && ArgValue(key + "=" + value) == Some(value)
  {
    var arg := key + "=" + value;
    assert arg == key + ['='] + value;
    BeforeFirstOfJoin(key, '=', value);
    assert arg[|key| + 1..] == value;
    BeforeFirstWhole(value, '=');
  }

  /** Splitting `key=value=more`: the parts after the second are dropped. */
  lemma SplitTriple(key: string, value: string, more: string)
    requires '=' !in key && '=' !in value
    ensures BeforeFirst(key + "=" + value + "=" + more, '=') == key
    ensures ArgValue(key + "=" + value + "=" + more) == Some(value)
  {
    var arg := key + "=" + value + "=" + more;
    assert arg == key + ['='] + (value + "=" + more);
    BeforeFirstOfJoin(key, '=', value + "=" + more);
    assert arg[|key| + 1..] == value + ['='] + more;
    BeforeFirstOfJoin(value, '=', more);
  }

  /** `key=value` sets the named count to `value`, and so does `key=value=more`. */
  lemma ArgSettingOfPair(k: CountKey, value: string, more: string)
    requires value != "" && '=' !in value
    ensures ArgSetting(KeyName(k) + "=" + value) == Some((k, value))
    ensures ArgSetting(KeyName(k) + "=" + value + "=" + more) == Some((k, value))
  {
    KeyNameShape(k);
    SplitPair(KeyName(k), value);
    SplitTriple(KeyName(k), value, more);
  }

  /** An argument without `=`, or with nothing before it, sets nothing. */
  lemma ArgSettingIgnored(arg: string)
    requires '=' !in arg || (arg != [] && arg[0] == '=')
    ensures ArgSetting(arg) == None
  {
    if '=' in arg {
      BeforeFirstOfJoin([], '=', arg[1..]);
      assert arg == [] + ['='] + arg[1..];
    } else {
      BeforeFirstWhole(arg, '=');
    }
  }

  /** The value of the last argument that sets `k`. */
  function LastSetting(args: seq<string>, k: CountKey): Option<string> {
    if args == [] then None
    else
      var s := ArgSetting(args[|args| - 1]);
      if s.Some? && s.value.0 == k then Some(s.value.1) else LastSetting(args[..|args| - 1], k)
  }

  /** The count `getCounts` reports for `k`: the last argument that sets it wins over the environment. */
  function CountFor(args: seq<string>, env: CountKey -> Option<string>, toNumber: string -> int, k: CountKey): int {
    match LastSetting(args, k)
    case Some(v) => toNumber(v)
    case None => InitialCount(env, toNumber, k)
  }

  /** An argument for one count leaves the others where the earlier arguments put them. */
  lemma LastSettingOther(args: seq<string>, arg: string, k: CountKey)
    requires ArgSetting(arg).Some? && ArgSetting(arg).value.0 != k
    ensures LastSetting(args + [arg], k) == LastSetting(args, k)
  {
    assert (args + [arg])[..|args|] == args;
  }

  /**
   * `getCounts`: starts from the environment and applies the arguments in
   * order, with `toNumber` standing for `Number`.
   */
  method GetCounts(args: seq<string>, env: CountKey -> Option<string>, toNumber: string -> int) returns (c: Counts)
    ensures forall k :: c.Get(k) == CountFor(args, env, toNumber, k)
  {
    c := Counts(InitialCount(env, toNumber, Persons), InitialCount(env, toNumber, Groups),
                InitialCount(env, toNumber, Listings), InitialCount(env, toNumber, Applications));
    for i := 0 to |args|
      invariant forall k :: c.Get(k) == CountFor(args[..i], env, toNumber, k)
    {
      assert args[..i + 1][..i] == args[..i];
      var s := ArgSetting(args[i]);
      if s.Some? {
        c := c.With(s.value.0, toNumber(s.value.1));
      }
    }
    assert args[..|args|] == args;
  }

  /** `Array.from({ length: n })`: a negative length makes an empty array. */
  function Len(n: int): nat {
    if n < 0 then 0 else n
  }

  /** `Math.max(1, Math.floor(persons * 0.2))`. */
  function LandlordCount(persons: int): (r: nat)
    ensures r >= 1
    ensures persons >= 5 ==> r * 5 <= persons < r * 5 + 5
  {
    if persons / 5 >= 1 then persons / 5 else 1
  }

  /** `Math.max(1, persons - landlords.length)`. */
  function TenantCount(persons: int): (r: nat)
    ensures r >= 1
  {
    var rest := persons - LandlordCount(persons);
    if rest >= 1 then rest else 1
  }

  /** The script makes the persons it was asked for, but never fewer than one landlord and one tenant. */
  lemma PersonTotal(persons: int)
    ensures LandlordCount(persons) + TenantCount(persons) == Max(persons, 2)
    ensures persons >= 5 ==> LandlordCount(persons) <= TenantCount(persons)
  {
  }

  datatype SeedPerson = SeedPerson(userId: string, groupId: Option<string>, landlord: bool)
  datatype SeedGroup = SeedGroup(groupId: string, userIds: seq<string>)
  datatype SeedListing = SeedListing(listingId: string, landlordId: string, gender: string, rentalType: string)
  datatype SeedApplication = SeedApplication(applicationId: string, listingId: string, groupId: string)

  datatype Population = Population(
    persons: seq<SeedPerson>,
    groups: seq<SeedGroup>,
    listings: seq<SeedListing>,
    applications: seq<SeedApplication>)

  /** The gender preferences a seeded listing draws from. */
  const SeedGenders: seq<string> := ["male", "female", "any"]

  /** The rental types as the script lists them: `app` is not one of the rental types of the database enum. */
  const SeedRentalTypesAsWritten: seq<string> := ["floor", "basement", "house", "app", "room"]

  /**
   * A listing seeded with the fourth rental type carries a value outside the
   * rental-type enum (the listing endpoint accepts it all the same).
   */
  lemma SeedRentalTypesAsWrittenOutsideEnum()
    ensures ParseRentalType(SeedRentalTypesAsWritten[3]).None?
  {
    RentalTypeValues(SeedRentalTypesAsWritten[3]);
  }

  /** The rental types the script evidently means: one spelling per rental type of the application. */
  const SeedRentalTypes: seq<string> := ["floor", "basement", "house", "apartment", "room"]

  /** Every value a seeded listing can draw parses under the database enums, and every enum value is drawable. */
  lemma SeedChoicesInEnum()
    ensures forall i :: 0 <= i < |SeedRentalTypes| ==> ParseRentalType(SeedRentalTypes[i]).Some?
    ensures forall t :: RentalTypeName(t) in SeedRentalTypes
    ensures forall i :: 0 <= i < |SeedGenders| ==> ParseGender(SeedGenders[i]).Some?
    ensures forall g :: GenderName(g) in SeedGenders
  {
    forall i | 0 <= i < |SeedRentalTypes|
      ensures ParseRentalType(SeedRentalTypes[i]).Some?
    {
      RentalTypeValues(SeedRentalTypes[i]);
    }
    forall i | 0 <= i < |SeedGenders|
      ensures ParseGender(SeedGenders[i]).Some?
    {
      GenderValues(SeedGenders[i]);
    }
  }

  /**
   * The random draws of one run: a fresh identifier for every record, the
   * tenants (by position) `arrayElements` picks for each group, the landlord
   * (by position) of each listing, and the listing and group of each
   * application.
   */
  datatype Draws = Draws(
    userIds: seq<string>,
    groupIds: seq<string>,
    members: seq<seq<nat>>,
    listingIds: seq<string>,
    landlordPicks: seq<nat>,
    genderPicks: seq<nat>,
    rentalPicks: seq<nat>,
    applicationIds: seq<string>,
    listingPicks: seq<nat>,
    groupPicks: seq<nat>)

  /** `arrayElements(tenants, size)` with `size` between 2 and 4: at most four distinct tenants. */
  predicate MemberPicks(m: seq<nat>, tenants: nat) {
    && |m| <= 4
    && (forall j :: 0 <= j < |m| ==> m[j] < tenants)
    && (forall i, j :: 0 <= i < j < |m| ==> m[i] != m[j])
  }

  /** The draws fit the counts: one per record, and each pick within what it picks from. */
  predicate Fits(c: Counts, d: Draws) {
    var lc := LandlordCount(c.persons);
    var tc := TenantCount(c.persons);
    && |d.userIds| == lc + tc
    && |d.groupIds| == Len(c.groups) && |d.members| == Len(c.groups)
    && (forall g :: 0 <= g < |d.members| ==> MemberPicks(d.members[g], tc))
    && |d.listingIds| == Len(c.listings) && |d.landlordPicks| == Len(c.listings)
    && (forall i :: 0 <= i < |d.landlordPicks| ==> d.landlordPicks[i] < lc)
    && |d.genderPicks| == Len(c.listings) && |d.rentalPicks| == Len(c.listings)
    && (forall i :: 0 <= i < |d.genderPicks| ==> d.genderPicks[i] < |SeedGenders|)
    && (forall i :: 0 <= i < |d.rentalPicks| ==> d.rentalPicks[i] < |SeedRentalTypes|)
    && |d.applicationIds| == Len(c.applications)
    && |d.listingPicks| == Len(c.applications) && |d.groupPicks| == Len(c.applications)
    && (forall i :: 0 <= i < |d.listingPicks| && Len(c.listings) > 0 ==> d.listingPicks[i] < Len(c.listings))
    && (forall i :: 0 <= i < |d.groupPicks| && Len(c.groups) > 0 ==> d.groupPicks[i] < Len(c.groups))
  }

  /** The group a tenant belongs to after the first `g` groups are built: the last of them that picked it. */
  function LastGroup(d: Draws, g: nat, t: nat): Option<string>
    requires g <= |d.members| && |d.groupIds| == |d.members|
  {
    if g == 0 then None
    else if t in d.members[g - 1] then Some(d.groupIds[g - 1])
    else LastGroup(d, g - 1, t)
  }

  /** A tenant's group is one that picked it, and a tenant no group picked has none. */
  lemma {:induction false} LastGroupPicked(d: Draws, g: nat, t: nat)
    requires g <= |d.members| && |d.groupIds| == |d.members|
    ensures LastGroup(d, g, t).Some? ==>
              exists k :: 0 <= k < g && d.groupIds[k] == LastGroup(d, g, t).value && t in d.members[k]
    ensures LastGroup(d, g, t).None? <==> forall k :: 0 <= k < g ==> t !in d.members[k]
  {
    if g > 0 && t !in d.members[g - 1] {
      LastGroupPicked(d, g - 1, t);
    }
  }

  /** The identifiers of the tenants at positions `m`, the landlords taking the first `lc` identifiers. */
  function MemberIds(d: Draws, lc: nat, m: seq<nat>): (r: seq<string>)
    requires lc <= |d.userIds| && MemberPicks(m, |d.userIds| - lc)
    ensures |r| == |m|
    ensures forall j :: 0 <= j < |m| ==> r[j] == d.userIds[lc + m[j]]
  {
    seq(|m|, j requires 0 <= j < |m| => d.userIds[lc + m[j]])
  }

  /** `arrayElement` on an empty array. */
  const NothingToPick := "no listing or group to pick from"

  /** The run fails when there are applications to make but no listing or no group to point them at. */
  predicate PickFails(c: Counts) {
    Len(c.applications) > 0 && (Len(c.listings) == 0 || Len(c.groups) == 0)
  }

  /** The landlords first, then the tenants, each tenant in the last group that picked it. */
  ghost predicate PersonsSeeded(c: Counts, d: Draws, persons: seq<SeedPerson>)
    requires Fits(c, d)
  {
    var lc := LandlordCount(c.persons);
    var tc := TenantCount(c.persons);
    && |persons| == lc + tc
    && (forall i :: 0 <= i < lc + tc ==> persons[i].userId == d.userIds[i] && persons[i].landlord == (i < lc))
    && (forall i :: 0 <= i < lc ==> persons[i].groupId.None?)
    && (forall t :: 0 <= t < tc ==> persons[lc + t].groupId == LastGroup(d, |d.members|, t))
  }

  /** One group per draw, listing the tenants it picked. */
  ghost predicate GroupsSeeded(c: Counts, d: Draws, groups: seq<SeedGroup>)
    requires Fits(c, d)
  {
    && |groups| == Len(c.groups)
    && forall g :: 0 <= g < |groups| ==>
         groups[g] == SeedGroup(d.groupIds[g], MemberIds(d, LandlordCount(c.persons), d.members[g]))
  }

  /** One listing per draw, owned by the landlord it picked, with the rental type it picked from `types`. */
  predicate ListingsSeeded(c: Counts, d: Draws, types: seq<string>, listings: seq<SeedListing>)
    requires Fits(c, d) && |types| == |SeedRentalTypes|
  {
    && |listings| == Len(c.listings)
    && forall i :: 0 <= i < |listings| ==>
         listings[i] == SeedListing(d.listingIds[i], d.userIds[d.landlordPicks[i]],
                                    SeedGenders[d.genderPicks[i]], types[d.rentalPicks[i]])
  }

  /** One application per draw, for the listing and the group it picked. */
  predicate ApplicationsSeeded(c: Counts, d: Draws, applications: seq<SeedApplication>)
    requires Fits(c, d)
  {
    && !PickFails(c)
    && |applications| == Len(c.applications)
    && forall i :: 0 <= i < |applications| ==>
         applications[i] == SeedApplication(d.applicationIds[i], d.listingIds[d.listingPicks[i]],
                                            d.groupIds[d.groupPicks[i]])
  }

  /** What a successful run builds from the counts, the draws and the rental types it draws from. */
  ghost predicate Seeded(c: Counts, d: Draws, types: seq<string>, p: Population)
    requires Fits(c, d) && |types| == |SeedRentalTypes|
  {
    && PersonsSeeded(c, d, p.persons)
    && GroupsSeeded(c, d, p.groups)
    && ListingsSeeded(c, d, types, p.listings)
    && ApplicationsSeeded(c, d, p.applications)
  }

  /** Every listing's landlord is a landlord of the population. */
  predicate ListingsLinked(p: Population) {
    forall l :: l in p.listings ==> exists q :: q in p.persons && q.landlord && q.userId == l.landlordId
  }

  /** Every application names a listing and a group of the population. */
  predicate ApplicationsLinked(p: Population) {
    && (forall a :: a in p.applications ==> exists l :: l in p.listings && l.listingId == a.listingId)
    && (forall a :: a in p.applications ==> exists grp :: grp in p.groups && grp.groupId == a.groupId)
  }

  /** Every group member is a tenant of the population. */
  predicate MembersLinked(p: Population) {
    forall grp, u :: grp in p.groups && u in grp.userIds ==>
      exists q :: q in p.persons && !q.landlord && q.userId == u
  }

  /** A person's group is a group of the population that lists them. */
  predicate GroupIdsLinked(p: Population) {
    forall q :: q in p.persons && q.groupId.Some? ==>
      exists grp :: grp in p.groups && grp.groupId == q.groupId.value && q.userId in grp.userIds
  }

  /** Every reference in the population names a record of the population. */
  predicate WellLinked(p: Population) {
    ListingsLinked(p) && ApplicationsLinked(p) && MembersLinked(p) && GroupIdsLinked(p)
  }

  /**
   * The `groupsData` builder: group `g` lists the tenants it picked, and
   * each of them gets `groupId` set to it, so a tenant picked twice keeps
   * the later group.
   */
  method BuildGroups(tenants: array<SeedPerson>, d: Draws, lc: nat, n: nat) returns (groups: seq<SeedGroup>)
    requires n == |d.members| == |d.groupIds| && |d.userIds| == lc + tenants.Length
    requires forall g :: 0 <= g < n ==> MemberPicks(d.members[g], tenants.Length)
    requires forall t :: 0 <= t < tenants.Length ==> tenants[t] == SeedPerson(d.userIds[lc + t], None, false)
    modifies tenants
    ensures forall t :: 0 <= t < tenants.Length ==>
              tenants[t] == SeedPerson(d.userIds[lc + t], LastGroup(d, n, t), false)
    ensures |groups| == n
    ensures forall g :: 0 <= g < n ==> groups[g] == SeedGroup(d.groupIds[g], MemberIds(d, lc, d.members[g]))
  {
    groups := [];
    for g := 0 to n
      invariant |groups| == g
      invariant forall t :: 0 <= t < tenants.Length ==>
                  tenants[t] == SeedPerson(d.userIds[lc + t], LastGroup(d, g, t), false)
      invariant forall k :: 0 <= k < g ==> groups[k] == SeedGroup(d.groupIds[k], MemberIds(d, lc, d.members[k]))
    {
      var m := d.members[g];
      var ids := seq(|m|, j requires 0 <= j < |m| reads tenants => tenants[m[j]].userId);
      assert ids == MemberIds(d, lc, m);
      var group := SeedGroup(d.groupIds[g], ids);
      for j := 0 to |m|
        invariant forall t :: 0 <= t < tenants.Length ==>
                    tenants[t] == SeedPerson(d.userIds[lc + t],
                                             if t in m[..j] then Some(d.groupIds[g]) else LastGroup(d, g, t),
                                             false)
      {
        assert forall t :: t in m[..j + 1] <==> t in m[..j] || t == m[j];
        tenants[m[j]] := tenants[m[j]].(groupId := Some(group.groupId));
      }
      assert m[..|m|] == m;
      groups := groups + [group];
    }
  }

  /** The `listingsData` builder: each listing owned by the landlord it picked, its type drawn from `types`. */
  function MakeListings(c: Counts, d: Draws, types: seq<string>, landlords: seq<SeedPerson>): (r: seq<SeedListing>)
    requires Fits(c, d) && |types| == |SeedRentalTypes|
    requires |landlords| == LandlordCount(c.persons)
    requires forall i :: 0 <= i < |landlords| ==> landlords[i].userId == d.userIds[i]
    ensures ListingsSeeded(c, d, types, r)
  {
    seq(Len(c.listings), i requires 0 <= i < Len(c.listings) =>
          SeedListing(d.listingIds[i], landlords[d.landlordPicks[i]].userId,
                      SeedGenders[d.genderPicks[i]], types[d.rentalPicks[i]]))
  }

  /** The `applicationsData` builder: each application for the listing and the group it picked. */
  function MakeApplications(c: Counts, d: Draws, types: seq<string>, listings: seq<SeedListing>, groups: seq<SeedGroup>)
    : (r: seq<SeedApplication>)
    requires Fits(c, d) && !PickFails(c) && |types| == |SeedRentalTypes|
    requires ListingsSeeded(c, d, types, listings) && |groups| == Len(c.groups)
    requires forall g :: 0 <= g < |groups| ==> groups[g].groupId == d.groupIds[g]
    ensures ApplicationsSeeded(c, d, r)
  {
    seq(Len(c.applications), i requires 0 <= i < Len(c.applications) =>
          SeedApplication(d.applicationIds[i], listings[d.listingPicks[i]].listingId,
                          groups[d.groupPicks[i]].groupId))
  }

  /** `allPersons`: the landlords, then the tenants with the groups they ended in. */
  lemma PersonsOfParts(c: Counts, d: Draws, landlords: seq<SeedPerson>, tenants: seq<SeedPerson>)
    requires Fits(c, d)
    requires |landlords| == LandlordCount(c.persons) && |tenants| == TenantCount(c.persons)
    requires forall i :: 0 <= i < |landlords| ==> landlords[i] == SeedPerson(d.userIds[i], None, true)
    requires forall t :: 0 <= t < |tenants| ==>
               tenants[t] == SeedPerson(d.userIds[|landlords| + t], LastGroup(d, |d.members|, t), false)
    ensures PersonsSeeded(c, d, landlords + tenants)
  {
    var persons := landlords + tenants;
    assert forall t :: 0 <= t < |tenants| ==> persons[|landlords| + t] == tenants[t];
  }

  /**
   * `seed` without the database: builds the landlords and the tenants, then
   * the groups, then the listings and the applications; an application with
   * no listing or no group to pick from ends the run. The script draws the
   * rental types from `SeedRentalTypesAsWritten`.
   */
  method Populate(c: Counts, d: Draws, types: seq<string>) returns (r: Result<Population>)
    requires Fits(c, d) && |types| == |SeedRentalTypes|
    ensures r.Err? <==> PickFails(c)
    ensures r.Err? ==> r.error == NothingToPick
    ensures r.Ok? ==> Seeded(c, d, types, r.value)
  {
    var lc := LandlordCount(c.persons);
    var tc := TenantCount(c.persons);
    var landlords := seq(lc, i requires 0 <= i < lc => SeedPerson(d.userIds[i], None, true));
    var tenants := new SeedPerson[tc](t requires 0 <= t < tc => SeedPerson(d.userIds[lc + t], None, false));
    var groups := BuildGroups(tenants, d, lc, Len(c.groups));
    var listings := MakeListings(c, d, types, landlords);
    if PickFails(c) {
      return Err(NothingToPick);
    }
    var applications := MakeApplications(c, d, types, listings, groups);
    var persons := landlords + tenants[..];
    PersonsOfParts(c, d, landlords, tenants[..]);
    r := Ok(Population(persons, groups, listings, applications));
  }

  /**
   * The script's own run: the rental types come from its list, so the
   * listings that drew `app` carry a rental type outside the database enum.
   */
  method SeedAsWritten(c: Counts, d: Draws) returns (r: Result<Population>)
    requires Fits(c, d)
    ensures r.Err? <==> PickFails(c)
    ensures r.Err? ==> r.error == NothingToPick
    ensures r.Ok? ==> Seeded(c, d, SeedRentalTypesAsWritten, r.value)
    ensures r.Ok? ==> forall i :: 0 <= i < |r.value.listings| ==>
              (ParseRentalType(r.value.listings[i].rentalType).None? <==> d.rentalPicks[i] == 3)
  {
    r := Populate(c, d, SeedRentalTypesAsWritten);
    if r.Ok? {
      SeededListingsAsWrittenOutsideEnum(c, d, r.value.listings);
    }
  }

  lemma SeededListingsLinked(c: Counts, d: Draws, types: seq<string>, p: Population)
    requires Fits(c, d) && |types| == |SeedRentalTypes|
    requires PersonsSeeded(c, d, p.persons) && ListingsSeeded(c, d, types, p.listings)
    ensures ListingsLinked(p)
  {
    forall l | l in p.listings
      ensures exists q :: q in p.persons && q.landlord && q.userId == l.landlordId
    {
      var i :| 0 <= i < |p.listings| && p.listings[i] == l;
      assert p.persons[d.landlordPicks[i]] in p.persons;
    }
  }

  lemma SeededApplicationsLinked(c: Counts, d: Draws, types: seq<string>, p: Population)
    requires Fits(c, d) && |types| == |SeedRentalTypes|
    requires GroupsSeeded(c, d, p.groups) && ListingsSeeded(c, d, types, p.listings) && ApplicationsSeeded(c, d, p.applications)
    ensures ApplicationsLinked(p)
  {
    forall a | a in p.applications
      ensures exists l :: l in p.listings && l.listingId == a.listingId
      ensures exists grp :: grp in p.groups && grp.groupId == a.groupId
    {
      var i :| 0 <= i < |p.applications| && p.applications[i] == a;
      assert p.listings[d.listingPicks[i]] in p.listings;
      assert p.groups[d.groupPicks[i]] in p.groups;
    }
  }

  lemma SeededMembersLinked(c: Counts, d: Draws, p: Population)
    requires Fits(c, d) && PersonsSeeded(c, d, p.persons) && GroupsSeeded(c, d, p.groups)
    ensures MembersLinked(p)
  {
    var lc := LandlordCount(c.persons);
    forall grp, u | grp in p.groups && u in grp.userIds
      ensures exists q :: q in p.persons && !q.landlord && q.userId == u
    {
      var g :| 0 <= g < |p.groups| && p.groups[g] == grp;
      var j :| 0 <= j < |grp.userIds| && grp.userIds[j] == u;
      assert p.persons[lc + d.members[g][j]] in p.persons;
    }
  }

  /** The groups of a run: group `g` has the `g`-th identifier and lists the identifiers of the tenants it picked. */
  ghost predicate GroupsList(d: Draws, lc: nat, groups: seq<SeedGroup>) {
    && |groups| == |d.members| == |d.groupIds|
    && forall g :: 0 <= g < |groups| ==>
         && groups[g].groupId == d.groupIds[g]
         && |groups[g].userIds| == |d.members[g]|
         && forall j :: 0 <= j < |d.members[g]| ==>
              lc + d.members[g][j] < |d.userIds| && groups[g].userIds[j] == d.userIds[lc + d.members[g][j]]
  }

  lemma SeededGroupsList(c: Counts, d: Draws, groups: seq<SeedGroup>)
    requires Fits(c, d) && GroupsSeeded(c, d, groups)
    ensures GroupsList(d, LandlordCount(c.persons), groups)
  {
  }

  /** A tenant with a group is listed by that group. */
  lemma TenantListed(d: Draws, lc: nat, groups: seq<SeedGroup>, t: nat, q: SeedPerson)
    requires GroupsList(d, lc, groups)
    requires lc + t < |d.userIds| && q.userId == d.userIds[lc + t]
    requires q.groupId == LastGroup(d, |d.members|, t) && q.groupId.Some?
    ensures exists grp :: grp in groups && grp.groupId == q.groupId.value && q.userId in grp.userIds
  {
    LastGroupPicked(d, |d.members|, t);
    var k :| 0 <= k < |d.members| && d.groupIds[k] == q.groupId.value && t in d.members[k];
    var j :| 0 <= j < |d.members[k]| && d.members[k][j] == t;
    var grp := groups[k];
    assert grp.userIds[j] == q.userId;
    assert grp in groups;
  }

  lemma SeededGroupIdsLinked(c: Counts, d: Draws, p: Population)
    requires Fits(c, d) && PersonsSeeded(c, d, p.persons) && GroupsSeeded(c, d, p.groups)
    ensures GroupIdsLinked(p)
  {
    var lc := LandlordCount(c.persons);
    SeededGroupsList(c, d, p.groups);
    forall q | q in p.persons && q.groupId.Some?
      ensures exists grp :: grp in p.groups && grp.groupId == q.groupId.value && q.userId in grp.userIds
    {
      var i :| 0 <= i < |p.persons| && p.persons[i] == q;
      assert i >= lc;
      TenantListed(d, lc, p.groups, i - lc, q);
    }
  }

  /** Whatever the draws, a successful run leaves no dangling reference. */
  lemma SeededWellLinked(c: Counts, d: Draws, types: seq<string>, p: Population)
    requires Fits(c, d) && |types| == |SeedRentalTypes| && Seeded(c, d, types, p)
    ensures WellLinked(p)
  {
    SeededListingsLinked(c, d, types, p);
    SeededApplicationsLinked(c, d, types, p);
    SeededMembersLinked(c, d, p);
    SeededGroupIdsLinked(c, d, p);
  }

  /**
   * With the corrected list, every seeded listing carries a gender
   * preference and a rental type of the database enums.
   */
  lemma SeededListingsInEnum(c: Counts, d: Draws, listings: seq<SeedListing>)
    requires Fits(c, d) && ListingsSeeded(c, d, SeedRentalTypes, listings)
    ensures forall l :: l in listings ==> ParseGender(l.gender).Some? && ParseRentalType(l.rentalType).Some?
  {
    SeedChoicesInEnum();
    forall l | l in listings
      ensures ParseGender(l.gender).Some? && ParseRentalType(l.rentalType).Some?
    {
      var i :| 0 <= i < |listings| && listings[i] == l;
      assert l.gender == SeedGenders[d.genderPicks[i]];
      assert l.rentalType == SeedRentalTypes[d.rentalPicks[i]];
    }
  }

  /**
   * As the script is written, a seeded listing's rental type is outside the
   * database enum exactly when the draw picked the fourth entry, `app`.
   */
  lemma SeededListingsAsWrittenOutsideEnum(c: Counts, d: Draws, listings: seq<SeedListing>)
    requires Fits(c, d) && ListingsSeeded(c, d, SeedRentalTypesAsWritten, listings)
    ensures forall i :: 0 <= i < |listings| ==>
              (ParseRentalType(listings[i].rentalType).None? <==> d.rentalPicks[i] == 3)
  {
    forall i | 0 <= i < |listings|
      ensures ParseRentalType(listings[i].rentalType).None? <==> d.rentalPicks[i] == 3
    {
      assert listings[i].rentalType == SeedRentalTypesAsWritten[d.rentalPicks[i]];
      RentalTypeValues(listings[i].rentalType);
    }
  }
}
