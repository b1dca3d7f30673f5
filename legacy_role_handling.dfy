/** `handleRoles` of the earlier TypeScript revision: the same reconciliation with its own
    rules and concrete thresholds, run against a discord.js member whose role list
    `roles.set` replaces. The role ids and the persistent roles come from a configuration
    file that is not part of this model, so they are a `LegacyConstants` parameter. */
module LegacyRoleHandling {
  import opened Wrappers
  import opened Discord
  import opened RoleGrants
  import RoleHandling

  /** The role ids of `CONSTANTS.ROLES` and the values of `CONSTANTS.PERSISTENT_ROLES`. */
  datatype LegacyConstants = LegacyConstants(roles: RoleHandling.Roles, persistentRoles: seq<RoleId>)

  /** The progress fields of a request body (`IBody`) that the tracks read. Metabits and
      ranks are whole numbers, the speedrun time a real. */
  datatype Progress = Progress(
    betaTester: bool,
    metabits: int,
    dinoRank: int,
    singularitySpeedrunTime: real,
    allSharksObtained: bool,
    allHiddenAchievementsObtained: bool)

  const RealityLegendMetabits: int := 100_000_000_000_000
  const RealityExpertMetabits: int := 1_000_000_000_000
  const RealityExplorerMetabits: int := 1_000_000_000
  const SonicSeconds: real := 120.0
  const SpeedsterSeconds: real := 300.0

  /** A grant that checks its own role. */
  function Own(role: RoleId, name: string): Grant
  {
    Grant(role, role, name)
  }

  function RealityLegend(k: LegacyConstants): Grant { Own(k.roles.realityLegend, "Reality Legend") }
  function RealityExpert(k: LegacyConstants): Grant { Own(k.roles.realityExpert, "Reality Expert") }
  function RealityExplorer(k: LegacyConstants): Grant { Own(k.roles.realityExplorer, "Reality Explorer") }
  function PaleontologistLegend(k: LegacyConstants): Grant
  {
    Own(k.roles.paleontologistLegend, "Paleontologist Legend")
  }
  function ProgressivePaleontologist(k: LegacyConstants): Grant
  {
    Own(k.roles.progressivePaleontologist, "Progressive Paleontologist")
  }
  function Paleontologist(k: LegacyConstants): Grant { Own(k.roles.paleontologist, "Paleontologist") }
  function FinderOfSemblanceSecrets(k: LegacyConstants): Grant
  {
    Own(k.roles.finderOfSemblanceSecrets, "Finder of Semblance's Secrets")
  }
  function SonicSpeedster(k: LegacyConstants): Grant
  {
    Own(k.roles.sonicSpeedsterOfSimulations, "Sonic Speedster of Simulations")
  }
  /** The speedster role is handed out, but whether it is new is decided by the sonic role. */
  function SimulationSpeedster(k: LegacyConstants): Grant
  {
    Grant(k.roles.simulationSpeedster, k.roles.sonicSpeedsterOfSimulations, "Simulation Speedster")
  }
  function SharkCollector(k: LegacyConstants): Grant { Own(k.roles.sharkCollector, "Shark Collector") }
  function BetaTester(k: LegacyConstants): Grant { Own(k.roles.betaTester, "Beta Tester") }

  // ---------------------------------------------------------------------------------------
  // The tracks, as specifications

  /** `handleMetabitRoles`: 100e12 metabits and up give the legend, 1e12 the expert, 1e9
      the explorer. */
  function MetabitGrants(k: LegacyConstants, d: Progress): (r: seq<Grant>)
    ensures |r| <= 1
  {
    if d.metabits >= RealityLegendMetabits then [RealityLegend(k)]
    else if d.metabits >= RealityExpertMetabits then [RealityExpert(k)]
    else if d.metabits >= RealityExplorerMetabits then [RealityExplorer(k)]
    else []
  }

  /** `Math.floor((dino_rank - 50) / 50)`: the number of whole steps of 50 ranks above the
      first 50, negative below rank 50. */
  function PaleoPrestige(dinoRank: int): (r: int)
    ensures 50 * r <= dinoRank - 50 < 50 * r + 50
  {
    (dinoRank - 50) / 50
  }

  /** `handlePaleoRoles`. */
  function PaleoGrants(k: LegacyConstants, d: Progress): (r: seq<Grant>)
    ensures |r| <= 1
  {
    var prestige := PaleoPrestige(d.dinoRank);
    if prestige == 10 then [PaleontologistLegend(k)]
    else if prestige == 1 then [ProgressivePaleontologist(k)]
    else if d.dinoRank >= 26 then [Paleontologist(k)]
    else []
  }

  /** `handleSimulationRoles` before the beta role. */
  function SimulationTrack(k: LegacyConstants, d: Progress): (r: seq<Grant>)
    ensures |r| <= 3
  {
    if d.allHiddenAchievementsObtained then [FinderOfSemblanceSecrets(k), SonicSpeedster(k), SharkCollector(k)]
    else
      (if d.singularitySpeedrunTime <= SonicSeconds then [SonicSpeedster(k)]
       else if d.singularitySpeedrunTime <= SpeedsterSeconds then [SimulationSpeedster(k)]
       else [])
      + (if d.allSharksObtained then [SharkCollector(k)] else [])
  }

  /** `handleSimulationRoles`. */
  function SimulationGrants(k: LegacyConstants, d: Progress): (r: seq<Grant>)
    ensures |r| <= 4
  {
    SimulationTrack(k, d) + (if d.betaTester then [BetaTester(k)] else [])
  }

  function ComputedGrants(k: LegacyConstants, d: Progress): seq<Grant>
  {
    MetabitGrants(k, d) + PaleoGrants(k, d) + SimulationGrants(k, d)
  }

  /** The metabit track gives exactly one role from 1e9 metabits on: the highest tier
      reached. */
  lemma MetabitTiers(k: LegacyConstants, d: Progress)
    ensures var r, m := MetabitGrants(k, d), d.metabits;
      && (r == [RealityLegend(k)] <==> m >= 100_000_000_000_000)
      && (r == [RealityExpert(k)] <==> 1_000_000_000_000 <= m < 100_000_000_000_000)
      && (r == [RealityExplorer(k)] <==> 1_000_000_000 <= m < 1_000_000_000_000)
      && (r == [] <==> m < 1_000_000_000)
  {
  }

  /** The paleo track by rank: the legend only for ranks 550 to 599, the progressive role
      for 100 to 149, the base role for every other rank from 26 on (600 and up included),
      and nothing below 26. */
  lemma PaleoTiers(k: LegacyConstants, d: Progress)
    ensures var r, n := PaleoGrants(k, d), d.dinoRank;
      && (r == [PaleontologistLegend(k)] <==> 550 <= n < 600)
      && (r == [ProgressivePaleontologist(k)] <==> 100 <= n < 150)
      && (r == [Paleontologist(k)] <==> (26 <= n < 100 || 150 <= n < 550 || n >= 600))
      && (r == [] <==> n < 26)
  {
    var p := PaleoPrestige(d.dinoRank);
    assert p == 10 <==> 550 <= d.dinoRank < 600;
    assert p == 1 <==> 100 <= d.dinoRank < 150;
  }

  /** All hidden achievements give the finder, sonic and shark roles together, ahead of
      anything else on the track. */
  lemma SimulationHidden(k: LegacyConstants, d: Progress)
    requires d.allHiddenAchievementsObtained
    ensures SimulationGrants(k, d)[..3] == [FinderOfSemblanceSecrets(k), SonicSpeedster(k), SharkCollector(k)]
  {
  }

  /** Without all hidden achievements, a time up to 120 gives the sonic role, a time above
      120 and up to 300 the speedster role, and the shark role comes exactly with all
      sharks. */
  lemma SimulationSpeed(k: LegacyConstants, d: Progress)
    requires !d.allHiddenAchievementsObtained
    ensures var r := SimulationTrack(k, d);
      && (SonicSpeedster(k) in r <==> d.singularitySpeedrunTime <= 120.0)
      && (SimulationSpeedster(k) in r <==> 120.0 < d.singularitySpeedrunTime <= 300.0)
      && (SharkCollector(k) in r <==> d.allSharksObtained)
  {
  }

  /** The Beta Tester role comes exactly for a beta tester, after the rest of the track. */
  lemma SimulationBeta(k: LegacyConstants, d: Progress)
    ensures var r := SimulationGrants(k, d);
      && r[..|SimulationTrack(k, d)|] == SimulationTrack(k, d)
      && (BetaTester(k) in r <==> d.betaTester)
  {
    assert BetaTester(k) !in SimulationTrack(k, d);
  }

  /** The speedster name is reported exactly when the member lacks the sonic role, whatever
      it holds of the speedster role; so a member who already has the speedster role but not
      the sonic one is told on every request that it gained it. */
  lemma SpeedsterQuirk(k: LegacyConstants, held: seq<RoleId>)
    ensures NewNames(held, [SimulationSpeedster(k)])
            == if k.roles.sonicSpeedsterOfSimulations in held then [] else ["Simulation Speedster"]
    ensures k.roles.simulationSpeedster in held && k.roles.sonicSpeedsterOfSimulations !in held ==>
              NewNames(held, [SimulationSpeedster(k)]) == ["Simulation Speedster"]
  {
  }

  // ---------------------------------------------------------------------------------------
  // Assembling the new role list

  /** The `PERSISTENT_ROLES` values the member holds, in table order. */
  function HeldPersistent(table: seq<RoleId>, held: seq<RoleId>): (r: seq<RoleId>)
    ensures forall x :: x in r <==> x in table && x in held
    ensures RoleHandling.Subsequence(r, table)
  {
    if |table| == 0 then []
    else
      var rest := HeldPersistent(table[1..], held);
      if table[0] in held then
        assert ([table[0]] + rest)[1..] == rest;
        [table[0]] + rest
      else
        assert [] + rest == rest;
        rest
  }

  /** The list `roles.set` receives: held persistent roles, then the computed ones. */
  function TargetRoles(k: LegacyConstants, d: Progress, held: seq<RoleId>): (r: seq<RoleId>)
    ensures forall x :: x in r <==> (x in k.persistentRoles && x in held) || x in Ids(ComputedGrants(k, d))
  {
    HeldPersistent(k.persistentRoles, held) + Ids(ComputedGrants(k, d))
  }

  /** `roles.set` receives the held persistent roles, in table order, and then the
      computed roles in track order. */
  lemma TargetOrder(k: LegacyConstants, d: Progress, held: seq<RoleId>)
    ensures var p, t := HeldPersistent(k.persistentRoles, held), TargetRoles(k, d, held);
      && RoleHandling.Subsequence(p, k.persistentRoles)
      && |p| <= |t| && t[..|p|] == p
      && t[|p|..] == Ids(MetabitGrants(k, d)) + Ids(PaleoGrants(k, d)) + Ids(SimulationGrants(k, d))
  {
    Ids3(MetabitGrants(k, d), PaleoGrants(k, d), SimulationGrants(k, d));
  }

  /** The names returned, track by track. */
  function GainedNames(k: LegacyConstants, d: Progress, held: seq<RoleId>): seq<string>
  {
    NewNames(held, ComputedGrants(k, d))
  }

  /** Names come track by track: metabit, then paleo, then simulation. The same statement
      as `RoleHandling.GainedOrder`, here about this revision's own tracks. */
  lemma GainedOrder(k: LegacyConstants, d: Progress, held: seq<RoleId>)
    ensures GainedNames(k, d, held)
            == NewNames(held, MetabitGrants(k, d)) + NewNames(held, PaleoGrants(k, d))
               + NewNames(held, SimulationGrants(k, d))
  {
    NewNames3(held, MetabitGrants(k, d), PaleoGrants(k, d), SimulationGrants(k, d));
  }

  // ---------------------------------------------------------------------------------------
  // The imperative code

  /** `applyableRoles.push(role); if (!cache.has(checked)) gainedRoles.push(name)`. */
  method Give(gained: GainedRoles, cache: seq<RoleId>, g: Grant, ghost done: seq<Grant>, applyable: seq<RoleId>, ghost before: seq<string>)
    returns (applyable': seq<RoleId>)
    requires applyable == Ids(done) && gained.names == before + NewNames(cache, done)
    modifies gained
    ensures applyable' == Ids(done + [g]) && gained.names == before + NewNames(cache, done + [g])
  {
    applyable' := applyable + [g.role];
    if g.checked !in cache {
      gained.Push(g.name);
    }
    IdsAppend(done, [g]);
    NewNamesAppend(cache, done, [g]);
  }

  /** `handleMetabitRoles`. */
  method HandleMetabitRoles(d: Progress, cache: seq<RoleId>, gained: GainedRoles, k: LegacyConstants) returns (applyable: seq<RoleId>)
    modifies gained
    ensures applyable == Ids(MetabitGrants(k, d))
    ensures gained.names == old(gained.names) + NewNames(cache, MetabitGrants(k, d))
  {
    applyable := [];
    if d.metabits >= RealityLegendMetabits {
      applyable := Give(gained, cache, RealityLegend(k), [], applyable, gained.names);
    } else if d.metabits >= RealityExpertMetabits {
      applyable := Give(gained, cache, RealityExpert(k), [], applyable, gained.names);
    } else if d.metabits >= RealityExplorerMetabits {
      applyable := Give(gained, cache, RealityExplorer(k), [], applyable, gained.names);
    }
  }

  /** `handlePaleoRoles`. */
  method HandlePaleoRoles(d: Progress, cache: seq<RoleId>, gained: GainedRoles, k: LegacyConstants) returns (applyable: seq<RoleId>)
    modifies gained
    ensures applyable == Ids(PaleoGrants(k, d))
    ensures gained.names == old(gained.names) + NewNames(cache, PaleoGrants(k, d))
  {
    applyable := [];
    var prestige := (d.dinoRank - 50) / 50;
    if prestige == 10 {
      applyable := Give(gained, cache, PaleontologistLegend(k), [], applyable, gained.names);
    } else if prestige == 1 {
      applyable := Give(gained, cache, ProgressivePaleontologist(k), [], applyable, gained.names);
    } else if d.dinoRank >= 26 {
      applyable := Give(gained, cache, Paleontologist(k), [], applyable, gained.names);
    }
  }

  /** `handleSimulationRoles`. */
  method HandleSimulationRoles(d: Progress, cache: seq<RoleId>, gained: GainedRoles, k: LegacyConstants) returns (applyable: seq<RoleId>)
    modifies gained
    ensures applyable == Ids(SimulationGrants(k, d))
    ensures gained.names == old(gained.names) + NewNames(cache, SimulationGrants(k, d))
  {
    ghost var before := gained.names;
    ghost var done: seq<Grant> := [];
    applyable := [];
    if d.allHiddenAchievementsObtained {
      applyable := Give(gained, cache, FinderOfSemblanceSecrets(k), done, applyable, before);
      done := done + [FinderOfSemblanceSecrets(k)];
      applyable := Give(gained, cache, SonicSpeedster(k), done, applyable, before);
      done := done + [SonicSpeedster(k)];
      applyable := Give(gained, cache, SharkCollector(k), done, applyable, before);
      done := done + [SharkCollector(k)];
    } else {
      if d.singularitySpeedrunTime <= SonicSeconds {
        applyable := Give(gained, cache, SonicSpeedster(k), done, applyable, before);
        done := done + [SonicSpeedster(k)];
      } else if d.singularitySpeedrunTime <= SpeedsterSeconds {
        applyable := Give(gained, cache, SimulationSpeedster(k), done, applyable, before);
        done := done + [SimulationSpeedster(k)];
      }
      if d.allSharksObtained {
        applyable := Give(gained, cache, SharkCollector(k), done, applyable, before);
        done := done + [SharkCollector(k)];
      }
    }
    assert done == SimulationTrack(k, d);
    if d.betaTester {
      applyable := Give(gained, cache, BetaTester(k), done, applyable, before);
      done := done + [BetaTester(k)];
    }
    assert done == SimulationGrants(k, d);
  }

  /** The three track calls of `handleRoles`, one after the other, on one `gainedRoles`. */
  method HandleTracks(d: Progress, cache: seq<RoleId>, gained: GainedRoles, k: LegacyConstants) returns (computed: seq<RoleId>)
    modifies gained
    ensures computed == Ids(ComputedGrants(k, d))
    ensures gained.names == old(gained.names) + GainedNames(k, d, cache)
  {
    ghost var n0 := gained.names;
    var metabit := HandleMetabitRoles(d, cache, gained, k);
    ghost var n1 := gained.names;
    var paleo := HandlePaleoRoles(d, cache, gained, k);
    ghost var n2 := gained.names;
    var simulation := HandleSimulationRoles(d, cache, gained, k);
    computed := metabit + paleo + simulation;
    Sequence3(cache, MetabitGrants(k, d), PaleoGrants(k, d), SimulationGrants(k, d),
              metabit, paleo, simulation, n0, n1, n2, gained.names);
  }

  /** `handleRoles(data, member)`: the member's roles are replaced by the target list, and
      the names gained are returned; when `roles.set` rejects, the returned promise rejects
      (None) and the roles stay as they were. */
  method HandleRoles(d: Progress, member: GuildMember, k: LegacyConstants) returns (gainedRoles: Option<seq<string>>)
    modifies member
    ensures gainedRoles.Some? <==> member.manageable
    ensures member.roles == if member.manageable then TargetRoles(k, d, old(member.roles)) else old(member.roles)
    ensures gainedRoles.Some? ==> gainedRoles.value == GainedNames(k, d, old(member.roles))
  {
    var cache := member.roles;
    var gained := new GainedRoles();
    var persistent := HeldPersistent(k.persistentRoles, cache);
    var computed := HandleTracks(d, cache, gained, k);
    var ok := member.SetRoles(persistent + computed);
    if !ok {
      return None;
    }
    gainedRoles := Some(gained.names);
  }
}
