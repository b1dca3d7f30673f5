/** `handle_roles` of the Rust service: from a player's stored progress and the roles the
    member holds, the member's new role list (a full replacement) and the names of the roles
    newly gained. The role ids, the persistent roles, the guild id and the thresholds come
    from `crate::constants`, which is not part of this model, so they are a `Constants`
    parameter. */
module RoleHandling {
  import opened Wrappers
  import opened Errors
  import opened Models
  import opened Discord
  import opened RoleGrants

  /** `constants::roles`. */
  datatype Roles = Roles(
    realityLegend: RoleId,
    realityExpert: RoleId,
    realityExplorer: RoleId,
    paleontologistLegend: RoleId,
    progressivePaleontologist: RoleId,
    paleontologist: RoleId,
    finderOfSemblanceSecrets: RoleId,
    sonicSpeedsterOfSimulations: RoleId,
    simulationSpeedster: RoleId,
    sharkCollector: RoleId,
    betaTester: RoleId)

  /** `MetabitRequirements`, `PaleoRequirements` and `SimulationRequirements`. */
  datatype Requirements = Requirements(
    realityLegend: int,
    realityExpert: int,
    realityExplorer: int,
    paleontologistLegend: int,
    progressivePaleontologist: int,
    paleontologist: int,
    sonicSpeedsterOfSimulations: int,
    simulationSpeedster: int)

  /** `C2SGUILD`, `constants::roles`, `PERSISTENT_ROLES` and the requirements. */
  datatype Constants = Constants(c2sGuild: nat, roles: Roles, persistentRoles: seq<nat>, requirements: Requirements)

  /** `apply_a_role` reaches `unreachable!()` on a zero id, so every role id must be nonzero. */
  predicate ValidRoles(r: Roles)
  {
    r.realityLegend != 0 && r.realityExpert != 0 && r.realityExplorer != 0
    && r.paleontologistLegend != 0 && r.progressivePaleontologist != 0 && r.paleontologist != 0
    && r.finderOfSemblanceSecrets != 0 && r.sonicSpeedsterOfSimulations != 0
    && r.simulationSpeedster != 0 && r.sharkCollector != 0 && r.betaTester != 0
  }

  /** The metabit thresholds from the highest tier down. */
  predicate MetabitOrdered(q: Requirements)
  {
    q.realityLegend >= q.realityExpert >= q.realityExplorer
  }

  /** A grant of the Rust version: the role itself decides whether it is new. */
  function RoleGrant(role: RoleId, name: string): Grant
  {
    Grant(role, role, name)
  }

  function RealityLegend(k: Constants): Grant { RoleGrant(k.roles.realityLegend, "Reality Legend") }
  function RealityExpert(k: Constants): Grant { RoleGrant(k.roles.realityExpert, "Reality Expert") }
  function RealityExplorer(k: Constants): Grant { RoleGrant(k.roles.realityExplorer, "Reality Explorer") }
  function PaleontologistLegend(k: Constants): Grant { RoleGrant(k.roles.paleontologistLegend, "Paleontologist Legend") }
  function ProgressivePaleontologist(k: Constants): Grant
  {
    RoleGrant(k.roles.progressivePaleontologist, "Progressive Paleontologist")
  }
  function Paleontologist(k: Constants): Grant { RoleGrant(k.roles.paleontologist, "Paleontologist") }
  function FinderOfSemblanceSecrets(k: Constants): Grant
  {
    RoleGrant(k.roles.finderOfSemblanceSecrets, "Finder of Semblance's Secrets")
  }
  function SonicSpeedster(k: Constants): Grant
  {
    RoleGrant(k.roles.sonicSpeedsterOfSimulations, "Sonic Speedster of Simulations")
  }
  function SimulationSpeedster(k: Constants): Grant { RoleGrant(k.roles.simulationSpeedster, "Simulation Speedster") }
  function SharkCollector(k: Constants): Grant { RoleGrant(k.roles.sharkCollector, "Shark Collector") }
  function BetaTester(k: Constants): Grant { RoleGrant(k.roles.betaTester, "Beta Tester") }

  // ---------------------------------------------------------------------------------------
  // The three tracks, as specifications

  /** The metabit track: the first tier, from the top, whose threshold the metabits reach. */
  function MetabitGrants(k: Constants, u: UserData): (r: seq<Grant>)
    ensures |r| <= 1 && SelfChecked(r)
  {
    var q := k.requirements;
    if u.metabits >= q.realityLegend then [RealityLegend(k)]
    else if u.metabits >= q.realityExpert then [RealityExpert(k)]
    else if u.metabits >= q.realityExplorer then [RealityExplorer(k)]
    else []
  }

  /** The metabit track yields no role below every threshold and one role otherwise; with
      the thresholds in order it is the highest tier whose threshold the metabits reach. */
  lemma MetabitTiers(k: Constants, u: UserData)
    ensures var r, q := MetabitGrants(k, u), k.requirements;
      && (r == [] <==> u.metabits < q.realityLegend && u.metabits < q.realityExpert && u.metabits < q.realityExplorer)
      && (MetabitOrdered(q) ==> (r == [RealityLegend(k)] <==> u.metabits >= q.realityLegend))
      && (MetabitOrdered(q) ==> (r == [RealityExpert(k)] <==> q.realityExpert <= u.metabits < q.realityLegend))
      && (MetabitOrdered(q) ==> (r == [RealityExplorer(k)] <==> q.realityExplorer <= u.metabits < q.realityExpert))
  {
  }

  /** `i32` division by 50, which rounds toward zero. */
  function Div50(a: int): (r: int)
    ensures a >= 0 ==> 50 * r <= a < 50 * r + 50
    ensures a < 0 ==> 50 * r - 50 < a <= 50 * r
  {
    if a >= 0 then a / 50 else -((-a) / 50)
  }

  /** `(dino_rank / 50).clamp(0, 10)`: the number of whole steps of 50 ranks, at most ten;
      zero for every rank below 50, negative ones included. */
  function DinoPrestige(dinoRank: int): (r: int)
    ensures 0 <= r <= 10
    ensures dinoRank < 50 ==> r == 0
    ensures 0 <= dinoRank < 500 ==> 50 * r <= dinoRank < 50 * r + 50
    ensures dinoRank >= 500 ==> r == 10
  {
    var p := Div50(dinoRank);
    if p < 0 then 0 else if p > 10 then 10 else p
  }

  /** The paleo track: the legend when the prestige is the legend's, else the progressive
      role when it is that one's, else the base role from its rank on. */
  function PaleoGrants(k: Constants, u: UserData): (r: seq<Grant>)
    ensures |r| <= 1 && SelfChecked(r)
  {
    var q := k.requirements;
    var prestige := DinoPrestige(u.dinoRank);
    if prestige == q.paleontologistLegend then [PaleontologistLegend(k)]
    else if prestige == q.progressivePaleontologist then [ProgressivePaleontologist(k)]
    else if u.dinoRank >= q.paleontologist then [Paleontologist(k)]
    else []
  }

  /** With the requirements of the TypeScript revision (legend at prestige 10, progressive at
      prestige 1, the base role from rank 26): rank 500 and up gives the legend, ranks 50 to
      99 the progressive role, ranks 26 to 49 and 100 to 499 the base role, and lower ranks
      nothing. */
  lemma PaleoTiers(k: Constants, u: UserData)
    requires k.requirements.paleontologistLegend == 10 && k.requirements.progressivePaleontologist == 1
    requires k.requirements.paleontologist == 26
    ensures var r, d := PaleoGrants(k, u), u.dinoRank;
      && (r == [PaleontologistLegend(k)] <==> d >= 500)
      && (r == [ProgressivePaleontologist(k)] <==> 50 <= d < 100)
      && (r == [Paleontologist(k)] <==> 26 <= d < 50 || 100 <= d < 500)
      && (r == [] <==> d < 26)
  {
  }

  /** The speed roles of a run: the sonic role up to its threshold, else the speedster role
      up to that one's. */
  function SpeedGrants(k: Constants, u: UserData): (r: seq<Grant>)
    ensures |r| <= 1 && SelfChecked(r)
  {
    if u.singularitySpeedrunTime <= k.requirements.sonicSpeedsterOfSimulations as real then [SonicSpeedster(k)]
    else if u.singularitySpeedrunTime <= k.requirements.simulationSpeedster as real then [SimulationSpeedster(k)]
    else []
  }

  /** The simulation track: the finder role for all hidden achievements, else the speed
      role and the shark role for all sharks; then the Beta Tester role for a beta tester. */
  function SimulationGrants(k: Constants, u: UserData): (r: seq<Grant>)
    ensures |r| <= 3 && SelfChecked(r)
  {
    SimulationTrack(k, u) + (if u.betaTester then [BetaTester(k)] else [])
  }

  /** The simulation roles before the beta role. */
  function SimulationTrack(k: Constants, u: UserData): (r: seq<Grant>)
    ensures |r| <= 2 && SelfChecked(r)
  {
    if u.allHiddenAchievementsObtained then [FinderOfSemblanceSecrets(k)]
    else SpeedGrants(k, u) + (if u.allSharksObtained then [SharkCollector(k)] else [])
  }

  /** All hidden achievements give the finder role and neither a speed role nor the shark
      role; otherwise at most one speed role (sonic up to its threshold, speedster above it up
      to its own) and the shark role exactly for all sharks. The Beta Tester role comes
      last, exactly for a beta tester, whatever the other fields say. */
  lemma SimulationRoles(k: Constants, u: UserData)
    ensures var r := SimulationGrants(k, u);
      && (FinderOfSemblanceSecrets(k) in r <==> u.allHiddenAchievementsObtained)
      && (u.allHiddenAchievementsObtained ==>
            SonicSpeedster(k) !in r && SimulationSpeedster(k) !in r && SharkCollector(k) !in r)
      && (!u.allHiddenAchievementsObtained ==>
            (SonicSpeedster(k) in r <==> u.singularitySpeedrunTime <= k.requirements.sonicSpeedsterOfSimulations as real))
      && (!u.allHiddenAchievementsObtained ==>
            (SimulationSpeedster(k) in r <==>
               k.requirements.sonicSpeedsterOfSimulations as real < u.singularitySpeedrunTime
               && u.singularitySpeedrunTime <= k.requirements.simulationSpeedster as real))
      && (!u.allHiddenAchievementsObtained ==> (SharkCollector(k) in r <==> u.allSharksObtained))
      && (BetaTester(k) in r <==> u.betaTester)
      && (u.betaTester ==> r[|r| - 1] == BetaTester(k))
  {
  }

  /** The grants of the three tracks, in the order `handle_roles` runs them. */
  function ComputedGrants(k: Constants, u: UserData): seq<Grant>
  {
    MetabitGrants(k, u) + PaleoGrants(k, u) + SimulationGrants(k, u)
  }

  // ---------------------------------------------------------------------------------------
  // Assembling the new role list

  /** `a` is `b` with some entries left out, the rest kept in order. */
  predicate Subsequence(a: seq<nat>, b: seq<nat>)
    decreases |b|
  {
    if |a| == 0 then true
    else if |b| == 0 then false
    else (a[0] == b[0] && Subsequence(a[1..], b[1..])) || Subsequence(a, b[1..])
  }

  /** The `PERSISTENT_ROLES` entries the member holds, in table order; a zero entry is
      dropped (`filter_map(RoleId::new)`). */
  function HeldPersistent(table: seq<nat>, held: seq<RoleId>): (r: seq<RoleId>)
    ensures forall x :: x in r <==> x in table && x != 0 && x in held
    ensures |r| <= |table|
    ensures Subsequence(r, table)
  {
    if |table| == 0 then []
    else
      var rest := HeldPersistent(table[1..], held);
      if table[0] != 0 && table[0] in held then
        assert ([table[0]] + rest)[1..] == rest;
        [table[0]] + rest
      else
        assert [] + rest == rest;
        rest
  }

  /** The list sent to the member update: the held persistent roles, then the computed ones.
      It replaces the member's roles: a held role that is in neither part is dropped. */
  function TargetRoles(k: Constants, u: UserData, held: seq<RoleId>): (r: seq<RoleId>)
    ensures forall x :: x in r <==> (x in k.persistentRoles && x != 0 && x in held) || x in Ids(ComputedGrants(k, u))
  {
    HeldPersistent(k.persistentRoles, held) + Ids(ComputedGrants(k, u))
  }

  /** The list sent starts with the held persistent roles, in table order, and ends with
      the computed roles in track order. */
  lemma TargetOrder(k: Constants, u: UserData, held: seq<RoleId>)
    ensures var p, t := HeldPersistent(k.persistentRoles, held), TargetRoles(k, u, held);
      && Subsequence(p, k.persistentRoles)
      && |p| <= |t| && t[..|p|] == p
      && t[|p|..] == Ids(MetabitGrants(k, u)) + Ids(PaleoGrants(k, u)) + Ids(SimulationGrants(k, u))
  {
    Ids3(MetabitGrants(k, u), PaleoGrants(k, u), SimulationGrants(k, u));
  }

  /** The names reported as gained. */
  function GainedNames(k: Constants, u: UserData, held: seq<RoleId>): seq<string>
  {
    NewNames(held, ComputedGrants(k, u))
  }

  /** Names come track by track: metabit, then paleo, then simulation (beta last). The
      TypeScript revision states the same of its own tracks (`LegacyRoleHandling.GainedOrder`). */
  lemma GainedOrder(k: Constants, u: UserData, held: seq<RoleId>)
    ensures GainedNames(k, u, held)
            == NewNames(held, MetabitGrants(k, u)) + NewNames(held, PaleoGrants(k, u))
               + NewNames(held, SimulationGrants(k, u))
  {
    NewNames3(held, MetabitGrants(k, u), PaleoGrants(k, u), SimulationGrants(k, u));
  }

  /** Nothing is reported exactly when the member already holds every computed role. */
  lemma GainedNothing(k: Constants, u: UserData, held: seq<RoleId>)
    ensures GainedNames(k, u, held) == [] <==> forall x :: x in Ids(ComputedGrants(k, u)) ==> x in held
  {
    var m, p, s := MetabitGrants(k, u), PaleoGrants(k, u), SimulationGrants(k, u);
    var gs := ComputedGrants(k, u);
    assert gs == m + p + s;
    assert SelfChecked(m) && SelfChecked(p) && SelfChecked(s);
    assert SelfChecked(gs) by {
      forall i | 0 <= i < |gs|
        ensures gs[i].checked == gs[i].role
      {
        if i < |m| {
          assert gs[i] == m[i];
        } else if i < |m| + |p| {
          assert gs[i] == p[i - |m|];
        } else {
          assert gs[i] == s[i - |m| - |p|];
        }
      }
    }
    NewNamesEmptyIds(held, gs);
  }

  /** The persistent part only depends on which table entries are held. */
  lemma {:induction false} HeldPersistentSame(table: seq<nat>, held: seq<RoleId>, held': seq<RoleId>)
    requires forall x :: x in table && x != 0 ==> (x in held <==> x in held')
    ensures HeldPersistent(table, held) == HeldPersistent(table, held')
  {
    if |table| > 0 {
      assert table[0] in table;
      HeldPersistentSame(table[1..], held, held');
    }
  }

  /** Running the reconciliation again on its own result reports nothing and sends the same
      list, provided no computed role is also a persistent one. */
  lemma Rerun(k: Constants, u: UserData, held: seq<RoleId>)
    requires forall x :: x in Ids(ComputedGrants(k, u)) ==> x !in k.persistentRoles
    ensures GainedNames(k, u, TargetRoles(k, u, held)) == []
    ensures TargetRoles(k, u, TargetRoles(k, u, held)) == TargetRoles(k, u, held)
  {
    var target := TargetRoles(k, u, held);
    GainedNothing(k, u, target);
    HeldPersistentSame(k.persistentRoles, held, target);
  }

  /** Running the reconciliation again on its own result reports nothing and sends a list
      holding the same roles, whatever the persistent table holds. */
  lemma RerunRoles(k: Constants, u: UserData, held: seq<RoleId>)
    ensures GainedNames(k, u, TargetRoles(k, u, held)) == []
    ensures forall x :: x in TargetRoles(k, u, TargetRoles(k, u, held)) <==> x in TargetRoles(k, u, held)
  {
    GainedNothing(k, u, TargetRoles(k, u, held));
  }

  // ---------------------------------------------------------------------------------------
  // `str::parse::<u64>`

  const U64Limit: nat := 0x1_0000_0000_0000_0000

  predicate IsDigit(c: char)
  {
    '0' <= c <= '9'
  }

  predicate AllDigits(s: string)
  {
    forall i :: 0 <= i < |s| ==> IsDigit(s[i])
  }

  /** The value of a string of decimal digits. */
  function DigitsValue(s: string): nat
    requires AllDigits(s)
  {
    if |s| == 0 then 0 else DigitsValue(s[..|s| - 1]) * 10 + (s[|s| - 1] as int - '0' as int)
  }

  /** The decimal form of `n`, without leading zeros. */
  function Decimal(n: nat): (r: string)
    ensures |r| > 0 && AllDigits(r)
  {
    var d := ['0' + (n % 10) as char];
    if n < 10 then d else Decimal(n / 10) + d
  }

  /** `s.parse::<u64>()`: an optional '+' and then at least one decimal digit and nothing
      else, of a value that fits in 64 bits. A sign alone, an empty string and '-' are
      refused. */
  function ParseU64(s: string): (r: Option<nat>)
    ensures r.Some? ==> r.value < U64Limit
    ensures |s| == 0 || s == "+" ==> r.None?
    ensures (exists i :: 0 < i < |s| && !IsDigit(s[i])) ==> r.None?
    ensures |s| > 0 && s[0] != '+' && !IsDigit(s[0]) ==> r.None?
  {
    var digits := if |s| > 0 && s[0] == '+' then s[1..] else s;
    assert forall i :: 0 < i < |s| && s[0] == '+' ==> s[i] == digits[i - 1];
    if |digits| == 0 || !AllDigits(digits) then None
    else
      var v := DigitsValue(digits);
      if v < U64Limit then Some(v) else None
  }

  lemma {:induction false} DigitsValueDecimal(n: nat)
    ensures DigitsValue(Decimal(n)) == n
  {
    var s := Decimal(n);
    if n >= 10 {
      DigitsValueDecimal(n / 10);
      assert s[..|s| - 1] == Decimal(n / 10);
    }
  }

  /** Every 64-bit value parses back from its decimal form. */
  lemma ParseDecimal(n: nat)
    requires n < U64Limit
    ensures ParseU64(Decimal(n)) == Some(n)
  {
    DigitsValueDecimal(n);
  }

  // ---------------------------------------------------------------------------------------
  // The outcome of `handle_roles`

  const GuildIdFailed := "failed GuildId struct"
  const ParseIdFailed := "parsing discord id failed"
  const UserIdFailed := "failed UserId struct"
  const MemberFetchFailed := "failed retrieving member data (this usually occurs when you're not in the Discord server)"
  const MemberParseFailed := "failed at parsing the member data to a Member struct"
  const UpdateFailed := "failed at updating member roles"
  const UpdatedParseFailed := "failed at parsing member data model"

  /** The ids are valid, the member is found and parsed, and the bot may change roles: the
      role update goes out. */
  predicate Updates(k: Constants, u: UserData, members: map<(nat, nat), seq<RoleId>>, b: Behaviour)
  {
    && k.c2sGuild != 0 && ParseU64(u.discordId).Some? && ParseU64(u.discordId).value != 0
    && (k.c2sGuild, ParseU64(u.discordId).value) in members
    && b.memberParses && b.canManageRoles
  }

  /** What `handle_roles` returns and the member roles it leaves, given the members and how
      the Discord side answers. Every error up to the role update changes no member; once
      the update has gone out, the roles of exactly this member are the target list, even
      when the updated member data then fails to parse and an error is returned. */
  function RoleSync(k: Constants, u: UserData, members: map<(nat, nat), seq<RoleId>>, b: Behaviour)
    : (r: (Result<seq<string>, MyError>, map<(nat, nat), seq<RoleId>>))
    ensures !Updates(k, u, members, b) ==> r.0.Err? && r.1 == members
    ensures Updates(k, u, members, b) ==>
              var key := (k.c2sGuild, ParseU64(u.discordId).value);
              r.1 == members[key := TargetRoles(k, u, members[key])]
    ensures k.c2sGuild == 0 ==> r.0 == Err(InternalError(GuildIdFailed))
    ensures k.c2sGuild != 0 && ParseU64(u.discordId).None? ==> r.0 == Err(InternalError(ParseIdFailed))
    ensures r.0.Ok? <==> Updates(k, u, members, b) && b.updatedParses
    ensures r.0 == Err(InternalError(UpdatedParseFailed)) <==> Updates(k, u, members, b) && !b.updatedParses
    ensures r.0.Ok? ==>
              r.0.value == GainedNames(k, u, members[(k.c2sGuild, ParseU64(u.discordId).value)])
  {
    if k.c2sGuild == 0 then (Err(InternalError(GuildIdFailed)), members)
    else match ParseU64(u.discordId)
      case None => (Err(InternalError(ParseIdFailed)), members)
      case Some(id) =>
        if id == 0 then (Err(InternalError(UserIdFailed)), members)
        else if (k.c2sGuild, id) !in members then (Err(InternalError(MemberFetchFailed)), members)
        else if !b.memberParses then (Err(InternalError(MemberParseFailed)), members)
        else if !b.canManageRoles then (Err(InternalError(UpdateFailed)), members)
        else
          var held := members[(k.c2sGuild, id)];
          var after := members[(k.c2sGuild, id) := TargetRoles(k, u, held)];
          if !b.updatedParses then (Err(InternalError(UpdatedParseFailed)), after)
          else (Ok(GainedNames(k, u, held)), after)
  }

  /** A member the bot cannot find gets the member-data error, before any update. */
  lemma NotAMember(k: Constants, u: UserData, members: map<(nat, nat), seq<RoleId>>, b: Behaviour)
    requires k.c2sGuild != 0 && ParseU64(u.discordId).Some? && ParseU64(u.discordId).value != 0
    requires (k.c2sGuild, ParseU64(u.discordId).value) !in members
    ensures RoleSync(k, u, members, b) == (Err(InternalError(MemberFetchFailed)), members)
  {
  }

  // ---------------------------------------------------------------------------------------
  // The imperative code

  /** `apply_a_role`: returns the role and records its name when the member lacks it. */
  method ApplyARole(gained: GainedRoles, held: seq<RoleId>, roleId: nat, name: string) returns (role: RoleId)
    requires roleId != 0
    modifies gained
    ensures role == roleId
    ensures gained.names == old(gained.names) + (if roleId in held then [] else [name])
  {
    role := roleId;
    if role !in held {
      gained.Push(name);
    }
  }

  /** Hands out one grant after those already handed out. */
  method Apply(gained: GainedRoles, held: seq<RoleId>, g: Grant, ghost done: seq<Grant>, applyable: seq<RoleId>, ghost before: seq<string>)
    returns (applyable': seq<RoleId>)
    requires g.role == g.checked && g.role != 0
    requires applyable == Ids(done) && gained.names == before + NewNames(held, done)
    modifies gained
    ensures applyable' == Ids(done + [g]) && gained.names == before + NewNames(held, done + [g])
  {
    var role := ApplyARole(gained, held, g.role, g.name);
    applyable' := applyable + [role];
    IdsAppend(done, [g]);
    NewNamesAppend(held, done, [g]);
  }

  /** `handle_metabit_roles`. */
  method HandleMetabitRoles(gained: GainedRoles, held: seq<RoleId>, u: UserData, k: Constants) returns (applyable: seq<RoleId>)
    requires ValidRoles(k.roles)
    modifies gained
    ensures applyable == Ids(MetabitGrants(k, u))
    ensures gained.names == old(gained.names) + NewNames(held, MetabitGrants(k, u))
  {
    var q := k.requirements;
    applyable := [];
    if u.metabits >= q.realityLegend {
      applyable := Apply(gained, held, RealityLegend(k), [], applyable, gained.names);
    } else if u.metabits >= q.realityExpert {
      applyable := Apply(gained, held, RealityExpert(k), [], applyable, gained.names);
    } else if u.metabits >= q.realityExplorer {
      applyable := Apply(gained, held, RealityExplorer(k), [], applyable, gained.names);
    }
  }

  /** `handle_paleo_roles`. */
  method HandlePaleoRoles(gained: GainedRoles, held: seq<RoleId>, u: UserData, k: Constants) returns (applyable: seq<RoleId>)
    requires ValidRoles(k.roles)
    modifies gained
    ensures applyable == Ids(PaleoGrants(k, u))
    ensures gained.names == old(gained.names) + NewNames(held, PaleoGrants(k, u))
  {
    var q := k.requirements;
    applyable := [];
    var prestige := DinoPrestige(u.dinoRank);
    if prestige == q.paleontologistLegend {
      applyable := Apply(gained, held, PaleontologistLegend(k), [], applyable, gained.names);
    } else if prestige == q.progressivePaleontologist {
      applyable := Apply(gained, held, ProgressivePaleontologist(k), [], applyable, gained.names);
    } else if u.dinoRank >= q.paleontologist {
      applyable := Apply(gained, held, Paleontologist(k), [], applyable, gained.names);
    }
  }

  /** `handle_simulation_roles`. */
  method HandleSimulationRoles(gained: GainedRoles, held: seq<RoleId>, u: UserData, k: Constants) returns (applyable: seq<RoleId>)
    requires ValidRoles(k.roles)
    modifies gained
    ensures applyable == Ids(SimulationGrants(k, u))
    ensures gained.names == old(gained.names) + NewNames(held, SimulationGrants(k, u))
  {
    var q := k.requirements;
    ghost var before := gained.names;
    ghost var done: seq<Grant> := [];
    applyable := [];
    if u.allHiddenAchievementsObtained {
      applyable := Apply(gained, held, FinderOfSemblanceSecrets(k), done, applyable, before);
      done := done + [FinderOfSemblanceSecrets(k)];
    } else {
      if u.singularitySpeedrunTime <= q.sonicSpeedsterOfSimulations as real {
        applyable := Apply(gained, held, SonicSpeedster(k), done, applyable, before);
        done := done + [SonicSpeedster(k)];
      } else if u.singularitySpeedrunTime <= q.simulationSpeedster as real {
        applyable := Apply(gained, held, SimulationSpeedster(k), done, applyable, before);
        done := done + [SimulationSpeedster(k)];
      }
      if u.allSharksObtained {
        applyable := Apply(gained, held, SharkCollector(k), done, applyable, before);
        done := done + [SharkCollector(k)];
      }
    }
    assert done == SimulationTrack(k, u);
    if u.betaTester {
      applyable := Apply(gained, held, BetaTester(k), done, applyable, before);
      done := done + [BetaTester(k)];
    }
    assert done == SimulationGrants(k, u);
  }

  /** The three track calls of `handle_roles`, one after the other, on one `gained_roles`. */
  method HandleTracks(gained: GainedRoles, held: seq<RoleId>, u: UserData, k: Constants) returns (computed: seq<RoleId>)
    requires ValidRoles(k.roles)
    modifies gained
    ensures computed == Ids(ComputedGrants(k, u))
    ensures gained.names == old(gained.names) + GainedNames(k, u, held)
  {
    ghost var n0 := gained.names;
    var metabit := HandleMetabitRoles(gained, held, u, k);
    ghost var n1 := gained.names;
    var paleo := HandlePaleoRoles(gained, held, u, k);
    ghost var n2 := gained.names;
    var simulation := HandleSimulationRoles(gained, held, u, k);
    computed := metabit + paleo + simulation;
    Sequence3(held, MetabitGrants(k, u), PaleoGrants(k, u), SimulationGrants(k, u),
              metabit, paleo, simulation, n0, n1, n2, gained.names);
  }

  /** The part of `handle_roles` between the member fetch and the member update: the
      tracks run against a fresh `gained_roles`, and the held persistent roles are followed
      by the roles of the three tracks. */
  method Reconcile(held: seq<RoleId>, u: UserData, k: Constants) returns (applyable: seq<RoleId>, gainedNames: seq<string>)
    requires ValidRoles(k.roles)
    ensures applyable == TargetRoles(k, u, held)
    ensures gainedNames == GainedNames(k, u, held)
  {
    var gained := new GainedRoles();
    var computed := HandleTracks(gained, held, u, k);
    applyable := HeldPersistent(k.persistentRoles, held);
    applyable := applyable + computed;
    gainedNames := gained.names;
  }

  /** `handle_roles(user_data)`: the outcome `RoleSync` describes. */
  method HandleRoles(u: UserData, k: Constants, api: DiscordApi) returns (r: Result<seq<string>, MyError>)
    requires ValidRoles(k.roles)
    modifies api
    ensures (r, api.members) == RoleSync(k, u, old(api.members), api.behaviour)
  {
    if k.c2sGuild == 0 {
      return Err(InternalError(GuildIdFailed));
    }
    var guild := k.c2sGuild;
    var parsed := ParseU64(u.discordId);
    if parsed.None? {
      return Err(InternalError(ParseIdFailed));
    }
    if parsed.value == 0 {
      return Err(InternalError(UserIdFailed));
    }
    var user := parsed.value;
    var fetched := api.GuildMember(guild, user);
    if fetched.None? {
      return Err(InternalError(MemberFetchFailed));
    }
    var member := api.MemberModel(fetched.value);
    if member.None? {
      return Err(InternalError(MemberParseFailed));
    }
    var applyable, gainedNames := Reconcile(member.value, u, k);
    var updated := api.UpdateGuildMember(guild, user, applyable);
    if updated.None? {
      return Err(InternalError(UpdateFailed));
    }
    var answer := api.UpdatedModel(updated.value);
    if answer.None? {
      return Err(InternalError(UpdatedParseFailed));
    }
    r := Ok(gainedNames);
  }
}
